/**
 * The error handler: it maps the shape of an error raised by a handler or by
 * the database to one JSON response, checking validation errors, duplicate
 * keys, cast errors and then everything else, in that order.
 */
module ErrorHandler {
  import opened Wrappers
  import opened Constants
  import opened Text

  const DuplicateKeyCode: int := 11000
  const InvalidIdFormat: string := "Invalid ID format"
  const AlreadyExists: string := " already exists"
  const MessageSeparator: string := ", "

  /**
   * The fields of an error the handler reads: `errors` holds the messages of
   * `err.errors` in key order, `keyValue` the keys of `err.keyValue`; an
   * empty `message` is a falsy one.
   */
  datatype Error = Error(
    name: string, code: Option<int>, statusCode: Option<int>, message: string,
    errors: seq<string>, keyValue: seq<string>, stack: Option<string>)

  /**
   * The response: status, message and, in development, the stack. `Crashed`
   * is a duplicate-key error without a key, on which the handler itself throws.
   */
  datatype Response = Response(status: int, message: string, stack: Option<string>) | Crashed

  /** `statusCode || 500`. */
  function StatusOf(e: Error): (s: int)
    ensures s == StatusServerError || (e.statusCode == Some(s) && s != 0)
    ensures e.statusCode.Some? && e.statusCode.value != 0 ==> s == e.statusCode.value
  {
    if e.statusCode.None? || e.statusCode.value == 0 then StatusServerError else e.statusCode.value
  }

  /** `message || 'Internal server error'`. */
  function MessageOf(e: Error): (m: string)
    ensures m != []
    ensures e.message != [] ==> m == e.message
    ensures e.message == [] ==> m == ServerError
  {
    if e.message == [] then ServerError else e.message
  }

  /**
   * `errorHandler`; `development` is `NODE_ENV === 'development'`. A
   * validation error is answered 400 with its joined messages whatever its
   * code; code 11000 answers 409 whatever the name (a `CastError` included),
   * and the handler throws when such an error has no key; any other
   * `CastError` is an invalid id; everything else falls back to the error's
   * own status (500 when absent or zero) and message (the generic one when
   * empty), with the stack only in development.
   */
  function Handle(e: Error, development: bool): (r: Response)
    ensures r.Crashed? <==>
              e.name != "ValidationError" && e.code == Some(DuplicateKeyCode) && e.keyValue == []
    ensures e.name == "ValidationError" ==>
              r == Response(StatusBadRequest, Join(e.errors, MessageSeparator), None)
    ensures e.name != "ValidationError" && e.code == Some(DuplicateKeyCode) && e.keyValue != [] ==>
              r.Response? && r.status == StatusConflict && r.stack.None?
    ensures e.name == "CastError" && e.code != Some(DuplicateKeyCode) ==>
              r == Response(StatusBadRequest, InvalidIdFormat, None)
    ensures e.name != "ValidationError" && e.name != "CastError" && e.code != Some(DuplicateKeyCode) ==>
              && r.Response?
              && r.status == (if e.statusCode.Some? && e.statusCode.value != 0 then e.statusCode.value
                              else StatusServerError)
              && r.message == (if e.message != [] then e.message else ServerError)
              && (r.stack.Some? <==> development && e.stack.Some?)
              && (r.stack.Some? ==> r.stack == e.stack)
  {
    if e.name == "ValidationError" then
      Response(StatusBadRequest, Join(e.errors, MessageSeparator), None)
    else if e.code == Some(DuplicateKeyCode) then
      if e.keyValue == [] then Crashed
      else Response(StatusConflict, Capitalize(e.keyValue[0]) + AlreadyExists, None)
    else if e.name == "CastError" then
      Response(StatusBadRequest, InvalidIdFormat, None)
    else
      Response(StatusOf(e), MessageOf(e), if development then e.stack else None)
  }

  /**
   * A validation error's message lists every field message in order: message
   * `i` sits at `Offset(errors, ", ", i)` and consecutive messages are
   * separated by `", "`.
   */
  lemma ValidationMessageLists(e: Error, development: bool)
    requires e.name == "ValidationError" && |e.errors| >= 1
    ensures Handle(e, development) == Response(StatusBadRequest, Join(e.errors, MessageSeparator), None)
    ensures JoinedInOrder(e.errors, MessageSeparator, Join(e.errors, MessageSeparator))
  {
    JoinPieces(e.errors, MessageSeparator);
  }

  /**
   * A duplicate key's message is the key with its first letter upper-cased,
   * followed by " already exists".
   */
  lemma DuplicateKeyMessage(e: Error, development: bool)
    requires e.name != "ValidationError" && e.code == Some(DuplicateKeyCode) && e.keyValue != []
    ensures var k := e.keyValue[0];
      var m := Handle(e, development).message;
      && Handle(e, development).status == StatusConflict
      && |m| == |k| + |AlreadyExists|
      && m[|k|..] == AlreadyExists
      && (k != [] ==> m[0] == UpperChar(k[0]) && m[1..|k|] == k[1..])
  {
    var k := e.keyValue[0];
    var m := Handle(e, development).message;
    assert m == Capitalize(k) + AlreadyExists;
    if k != [] {
      assert m[1..|k|] == Capitalize(k)[1..];
    }
  }

  /** A sign-up that trips the unique email index is answered "Email already exists". */
  lemma DuplicateEmail(name: string, development: bool)
    requires name != "ValidationError"
    ensures Handle(Error(name, Some(DuplicateKeyCode), None, "", [], ["email"], None), development)
            == Response(StatusConflict, "Email already exists", None)
  {
    var e := Error(name, Some(DuplicateKeyCode), None, "", [], ["email"], None);
    assert Capitalize("email") == "Email";
    assert e.keyValue[0] == "email";
  }

  /**
   * The stack reaches the response only in development, and only for errors
   * that fall through to the last branch; a handled response always has a
   * non-zero status and a non-empty message unless it lists validation messages.
   */
  lemma StackOnlyInDevelopment(e: Error, development: bool)
    ensures var r := Handle(e, development);
      r.Response? && r.stack.Some? ==>
        development && e.stack == r.stack
        && e.name != "ValidationError" && e.code != Some(DuplicateKeyCode) && e.name != "CastError"
    ensures var r := Handle(e, development);
      r.Response? ==> r.status != 0 && (e.name != "ValidationError" && e.code != Some(DuplicateKeyCode) ==> r.message != [])
  {
  }
}
