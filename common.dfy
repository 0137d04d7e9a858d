/**
 * Shared vocabulary of the marketplace model: identifiers, instants,
 * optional values, the JavaScript values whose truthiness the handlers test,
 * and the outcome of an HTTP handler.
 */
module Common {

  /** A document id as the handlers compare it: the string form of an ObjectId. */
  type Id = string

  /** An instant (Date.now() or new Date()), taken as an opaque input. */
  type Time = nat

  /** The authenticated user a handler acts for (`req.user`): its id and role. */
  datatype Caller = Caller(id: Id, role: string)

  datatype Option<+T> = None | Some(value: T) {
    function GetOr(default: T): T {
      match this
      case Some(v) => v
      case None => default
    }
  }

  /**
   * The JavaScript values a request body, a parsed response body or a
   * form field can hold. Numbers are integers here; objects keep their
   * keys in iteration order.
   */
  datatype Value =
    | Undefined
    | Null
    | Bool(b: bool)
    | Num(n: int)
    | Str(s: string)
    | Arr(elems: seq<Value>)
    | Obj(fields: seq<(string, Value)>)

  /** JavaScript truthiness: false, 0, "", null and undefined are falsy. */
  predicate Truthy(v: Value) {
    match v
    case Undefined => false
    case Null => false
    case Bool(b) => b
    case Num(n) => n != 0
    case Str(s) => s != ""
    case Arr(_) => true
    case Obj(_) => true
  }

  /** The value stored under `key` in an object, `undefined` when absent. */
  function Field(fields: seq<(string, Value)>, key: string): (r: Value)
    ensures r != Undefined ==> exists i :: 0 <= i < |fields| && fields[i] == (key, r)
    ensures (forall i :: 0 <= i < |fields| ==> fields[i].0 != key) ==> r == Undefined
  {
    if |fields| == 0 then Undefined
    else if fields[0].0 == key then fields[0].1
    else Field(fields[1..], key)
  }

  /**
   * What a request handler produces: a reply with a status code, an error
   * reply with a status code and a message, or an exception that no handler
   * catches (the request then gets no reply at all).
   */
  datatype Response<+T> =
    | Reply(code: nat, body: T)
    | Error(code: nat, message: string)
    | Unhandled(reason: string)

  /** The message of the TypeError thrown by `x.prop` when `x` is undefined. */
  function ReadOfUndefined(prop: string): string {
    "Cannot read properties of undefined (reading '" + prop + "')"
  }

  /** The message of the TypeError thrown by `x.prop` when `x` is null. */
  function ReadOfNull(prop: string): string {
    "Cannot read properties of null (reading '" + prop + "')"
  }
}
