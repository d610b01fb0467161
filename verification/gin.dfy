/**
 * The part of the web framework's request context that this library
 * touches: the response status and body it writes, the abort flag, and the
 * per-request key/value store. Values in the store are tagged with their type,
 * standing for Go's `any` and its runtime type assertions.
 */
module Gin {
  import opened Wrappers

  /** HTTP status codes of net/http used by the library. */
  const StatusOK := 200
  const StatusBadRequest := 400
  const StatusInternalServerError := 500

  /** The dynamic types a stored value may have. */
  datatype ValueType = IntType | StringType | BoolType

  /** A value stored under a key, with its dynamic type. */
  datatype TaggedValue = IntVal(i: int) | StringVal(s: string) | BoolVal(b: bool)

  function TypeOf(v: TaggedValue): ValueType
  {
    match v
    case IntVal(_) => IntType
    case StringVal(_) => StringType
    case BoolVal(_) => BoolType
  }

  /** Go's zero value of each type: `0`, `""` and `false`. */
  function ZeroValue(t: ValueType): (v: TaggedValue)
    ensures TypeOf(v) == t
  {
    match t
    case IntType => IntVal(0)
    case StringType => StringVal("")
    case BoolType => BoolVal(false)
  }

  /** One request's context; `B` is the type of the JSON body written to it. */
  class Context<B> {
    var status: int
    var body: Option<B>
    var aborted: bool
    var keys: map<string, TaggedValue>

    /** A fresh request: nothing written yet, status 200, empty store. */
    constructor ()
      ensures status == StatusOK && body == None && !aborted && keys == map[]
    {
      status := StatusOK;
      body := None;
      aborted := false;
      keys := map[];
    }

    /** `c.JSON(code, obj)`: writes the status and the body. */
    method JSON(code: int, obj: B)
      modifies this
      ensures status == code && body == Some(obj)
      ensures aborted == old(aborted) && keys == old(keys)
    {
      status := code;
      body := Some(obj);
    }

    /** `c.Abort()`: no later handler of the chain runs. */
    method Abort()
      modifies this
      ensures aborted
      ensures status == old(status) && body == old(body) && keys == old(keys)
    {
      aborted := true;
    }
  }
}
