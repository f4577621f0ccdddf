/** Values shared by every handler: optional values, JavaScript truthiness of
    the request fields the handlers test with `!x` / `if (x)`, and the
    status-code + message outcome every handler returns. */
module Common {

  datatype Option<+T> = None | Some(value: T)
  {
    predicate IsFailure() { None? }

    function PropagateFailure<U>(): Option<U>
      requires None?
    {
      None
    }

    function Extract(): T
      requires Some?
    {
      value
    }
  }

  /** A JSON string field that JavaScript treats as truthy: present and not "". */
  predicate Given(s: Option<string>)
  {
    s.Some? && s.value != ""
  }

  /** A JSON number field (an id, a coordinate, a timestamp) that JavaScript
      treats as truthy: present and not 0. */
  predicate Nonzero(x: Option<int>)
  {
    x.Some? && x.value != 0
  }

  /** The handlers' outcome: an HTTP status, the `error` or `message` text, and
      the JSON body on success. */
  datatype Reply<T> = Reply(status: int, message: string, body: Option<T>)
  {
    predicate IsSuccess() { 200 <= status < 300 }
  }

  function Fail<T>(status: int, message: string): (r: Reply<T>)
    requires 400 <= status
    ensures !r.IsSuccess() && r.body.None? && r.message == message
  {
    Reply(status, message, None)
  }

  function Done<T>(status: int, message: string, body: T): (r: Reply<T>)
    requires 200 <= status < 300
    ensures r.IsSuccess() && r.body == Some(body)
  {
    Reply(status, message, Some(body))
  }
}
