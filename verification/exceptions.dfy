/** core/exceptions.py: the four exception handlers that turn an error into
    a JSON response `{"error": {"code", "message", "path"}}`. Logging is not
    modelled. */
module Exceptions {
  import opened Common
  import opened Strings

  /** A Python value that can appear in a validation error. `Str` is the
      source's `str(value)` for it, which the model takes as a parameter of
      the handler; `truthy` is the value's truthiness for kinds the model
      does not interpret. */
  datatype PyValue =
    | NoneV
    | BoolV(b: bool)
    | IntV(i: int)
    | FloatV(r: real)
    | StrV(s: string)
    | ExceptionV(kind: string, text: string)
    | OtherV(repr: string, truthy: bool)

  /** The values the JSON encoder accepts as they are. */
  predicate IsPrimitive(v: PyValue) {
    v.NoneV? || v.BoolV? || v.IntV? || v.FloatV? || v.StrV?
  }

  function Truthy(v: PyValue): bool {
    match v
    case NoneV => false
    case BoolV(b) => b
    case IntV(i) => i != 0
    case FloatV(r) => r != 0.0
    case StrV(s) => s != ""
    case ExceptionV(_, _) => true
    case OtherV(_, t) => t
  }

  /** The `ctx` entry of a validation error: a dictionary, or any other value. */
  datatype Ctx = CtxDict(items: seq<(string, PyValue)>) | CtxValue(v: PyValue)

  /** One entry of `exc.errors()`. */
  datatype Issue = Issue(kind: PyValue, loc: PyValue, msg: PyValue, input: PyValue, ctx: Option<Ctx>)

  /** The sanitised `ctx` put in the response. */
  datatype CleanCtx = CleanDict(entries: map<string, PyValue>) | CleanText(text: Option<string>)

  datatype Detail = Detail(kind: PyValue, loc: PyValue, msg: PyValue, input: PyValue, ctx: Option<CleanCtx>)

  datatype Body =
    | Empty
    | ErrorBody(code: int, message: string, path: string)
    | ValidationBody(code: int, message: string, details: seq<Detail>, path: string)

  datatype Response = Response(status: int, body: Body)

  /** Every error response repeats its status as `error.code`. */
  predicate Consistent(r: Response) {
    match r.body
    case Empty => r.status == 200
    case ErrorBody(code, _, _) => code == r.status
    case ValidationBody(code, _, _, _) => code == r.status
  }

  /** `api_exception_handler`: status and message are the exception's own.
      main.py imports this handler but never registers it, and no route
      raises `APIException`, so the application never answers through it: an
      `HTTPException` from a route gets the framework's default
      `{"detail": ...}` body instead. */
  function ApiExceptionHandler(e: HttpError, path: string): (r: Response)
    ensures Consistent(r)
    ensures r.status == e.code && r.body.ErrorBody? && r.body.message == e.detail && r.body.path == path
  {
    Response(e.code, ErrorBody(e.code, e.detail, path))
  }

  /** One value of a `ctx` dictionary: exceptions and values that are not
      str, int, float, bool or None become their string form. */
  function SanitizedValue(v: PyValue, str: PyValue -> string): (c: PyValue)
    ensures IsPrimitive(c)
    ensures IsPrimitive(v) ==> c == v
    ensures !IsPrimitive(v) ==> c == StrV(str(v))
  {
    if IsPrimitive(v) then v else StrV(str(v))
  }

  /** The sanitised dictionary: every key of the items, with the sanitised
      value of its last occurrence, as assignment into a dict leaves it. */
  function CleanEntries(items: seq<(string, PyValue)>, str: PyValue -> string): map<string, PyValue> {
    if items == [] then map[]
    else CleanEntries(items[..|items| - 1], str)[items[|items| - 1].0 := SanitizedValue(items[|items| - 1].1, str)]
  }

  /** The sanitised dictionary has exactly the items' keys. */
  lemma {:induction false} CleanEntriesKeys(items: seq<(string, PyValue)>, str: PyValue -> string)
    ensures CleanEntries(items, str).Keys == set i | 0 <= i < |items| :: items[i].0
  {
    if items != [] {
      var front := items[..|items| - 1];
      CleanEntriesKeys(front, str);
      var all := set i | 0 <= i < |items| :: items[i].0;
      var earlier := set i | 0 <= i < |front| :: front[i].0;
      forall k | k in all
        ensures k in earlier + {items[|items| - 1].0}
      {
        var i :| 0 <= i < |items| && items[i].0 == k;
        if i < |front| {
          assert front[i].0 == k;
        }
      }
      forall k | k in earlier
        ensures k in all
      {
        var i :| 0 <= i < |front| && front[i].0 == k;
        assert items[i].0 == k;
      }
    }
  }

  /** Every value of the sanitised dictionary is JSON-ready. */
  lemma {:induction false} CleanEntriesPrimitive(items: seq<(string, PyValue)>, str: PyValue -> string)
    ensures forall k :: k in CleanEntries(items, str) ==> IsPrimitive(CleanEntries(items, str)[k])
  {
    if items != [] {
      CleanEntriesPrimitive(items[..|items| - 1], str);
    }
  }

  /** Each key holds the sanitised value of its last occurrence. */
  lemma {:induction false} CleanEntriesLast(items: seq<(string, PyValue)>, str: PyValue -> string, i: int)
    requires 0 <= i < |items| && forall j :: i < j < |items| ==> items[j].0 != items[i].0
    ensures items[i].0 in CleanEntries(items, str)
    ensures CleanEntries(items, str)[items[i].0] == SanitizedValue(items[i].1, str)
  {
    if i < |items| - 1 {
      var front := items[..|items| - 1];
      assert front[i] == items[i];
      assert forall j :: i < j < |front| ==> front[j] == items[j];
      CleanEntriesLast(front, str, i);
    }
  }

  /** The sanitised `ctx`: a dictionary entry by entry, any other value as
      its string form, or None when it is falsy. */
  function Cleaned(ctx: Ctx, str: PyValue -> string): CleanCtx {
    match ctx
    case CtxDict(items) => CleanDict(CleanEntries(items, str))
    case CtxValue(v) => CleanText(if Truthy(v) then Some(str(v)) else None)
  }

  /** Sanitising a `ctx` dictionary, entry by entry. A later entry with the
      same key overwrites an earlier one, as assignment into a dict does. */
  method SanitizeCtx(items: seq<(string, PyValue)>, str: PyValue -> string) returns (m: map<string, PyValue>)
    ensures m.Keys == set i | 0 <= i < |items| :: items[i].0
    ensures forall k :: k in m ==> IsPrimitive(m[k])
    ensures forall i :: 0 <= i < |items| && (forall j :: i < j < |items| ==> items[j].0 != items[i].0) ==>
      m[items[i].0] == SanitizedValue(items[i].1, str)
    ensures m == CleanEntries(items, str)
  {
    m := map[];
    for n := 0 to |items|
      invariant m == CleanEntries(items[..n], str)
    {
      var (key, value) := items[n];
      if IsPrimitive(value) {
        m := m[key := value];
      } else {
        m := m[key := StrV(str(value))];
      }
      assert items[..n + 1][..n] == items[..n];
    }
    assert items[..|items|] == items;
    CleanEntriesKeys(items, str);
    CleanEntriesPrimitive(items, str);
    forall i | 0 <= i < |items| && (forall j :: i < j < |items| ==> items[j].0 != items[i].0)
      ensures m[items[i].0] == SanitizedValue(items[i].1, str)
    {
      CleanEntriesLast(items, str, i);
    }
  }

  /** The `ctx` of one response entry: a dictionary is sanitised; any other
      value becomes its string form, or None when it is falsy. */
  method CleanContext(ctx: Ctx, str: PyValue -> string) returns (c: CleanCtx)
    ensures ctx.CtxDict? ==>
      (c.CleanDict? && (forall k :: k in c.entries ==> IsPrimitive(c.entries[k])) &&
       c.entries.Keys == set i | 0 <= i < |ctx.items| :: ctx.items[i].0)
    ensures ctx.CtxDict? ==>
      forall i :: 0 <= i < |ctx.items| && (forall j :: i < j < |ctx.items| ==> ctx.items[j].0 != ctx.items[i].0) ==>
        c.entries[ctx.items[i].0] == SanitizedValue(ctx.items[i].1, str)
    ensures ctx.CtxValue? ==> c == CleanText(if Truthy(ctx.v) then Some(str(ctx.v)) else None)
    ensures c == Cleaned(ctx, str)
  {
    if ctx.CtxDict? {
      var entries := SanitizeCtx(ctx.items, str);
      c := CleanDict(entries);
    } else {
      c := CleanText(if Truthy(ctx.v) then Some(str(ctx.v)) else None);
    }
  }

  /** `validation_exception_handler`: a CORS preflight (OPTIONS) gets 200
      with an empty body; anything else gets 422 "Validation error" with one
      sanitised entry per error, in order. */
  method ValidationHandler(httpMethod: string, issues: seq<Issue>, path: string, str: PyValue -> string)
    returns (r: Response)
    ensures Consistent(r)
    ensures httpMethod == "OPTIONS" <==> r == Response(200, Empty)
    ensures httpMethod != "OPTIONS" ==>
      r.status == 422 && r.body.ValidationBody? && r.body.message == "Validation error" && r.body.path == path &&
      |r.body.details| == |issues| &&
      forall i :: 0 <= i < |issues| ==> DetailOf(r.body.details[i], issues[i], str)
  {
    if httpMethod == "OPTIONS" {
      return Response(200, Empty);
    }
    var errors: seq<Detail> := [];
    for n := 0 to |issues|
      invariant |errors| == n
      invariant forall i :: 0 <= i < n ==> DetailOf(errors[i], issues[i], str)
    {
      var issue := issues[n];
      var ctx: Option<CleanCtx> := None;
      if issue.ctx.Some? {
        var c := CleanContext(issue.ctx.value, str);
        ctx := Some(c);
      }
      errors := errors + [Detail(issue.kind, issue.loc, issue.msg, issue.input, ctx)];
    }
    r := Response(422, ValidationBody(422, "Validation error", errors, path));
  }

  /** An entry of the response describes an error: the same type, location,
      message and input, and a `ctx` exactly when the error had one, which
      is that `ctx` sanitised (so only JSON-ready values when it was a
      dictionary). */
  ghost predicate DetailOf(d: Detail, e: Issue, str: PyValue -> string) {
    d.kind == e.kind && d.loc == e.loc && d.msg == e.msg && d.input == e.input &&
    (d.ctx.Some? <==> e.ctx.Some?) &&
    (e.ctx.Some? ==> d.ctx.value == Cleaned(e.ctx.value, str)) &&
    (e.ctx.Some? && e.ctx.value.CtxDict? ==>
      d.ctx.value.CleanDict? && forall k :: k in d.ctx.value.entries ==> IsPrimitive(d.ctx.value.entries[k]))
  }

  const EmailRegisteredMessage := "Email already registered"
  const DuplicateMessage := "Duplicate entry. This record already exists."
  const ForeignKeyMessage := "Invalid reference. Related record does not exist."
  const NameRequiredMessage := "Name field is required."
  const EmailRequiredMessage := "Email field is required."
  const PasswordRequiredMessage := "Password is required."
  const FieldRequiredMessage := "Required field is missing."
  const CheckMessage := "Data validation failed. Please check your input."
  const ProductionDbMessage := "Database error occurred. Please try again later."
  const MaxDebugLength := 300

  /** The text the database error is classified on: the message and the
      driver's original error, lower-cased. */
  function FullError(message: string, orig: Option<string>): (s: string)
    ensures |s| == |message| + 1 + (if orig.Some? then |orig.value| else 0)
    ensures s[..|message|] == Lower(message)
    ensures s[|message|] == ' '
    ensures s[|message| + 1..] == Lower(if orig.Some? then orig.value else "")
  {
    var origText := if orig.Some? then orig.value else "";
    var s := Lower(message + " " + origText);
    assert s[..|message|] == Lower(message);
    assert s[|message| + 1..] == Lower(origText);
    s
  }

  predicate IsDuplicate(s: string) {
    Contains(s, "duplicate key") || Contains(s, "unique constraint") || Contains(s, "already exists")
  }
  predicate IsForeignKey(s: string) { Contains(s, "foreign key") || Contains(s, "violates foreign key") }
  predicate IsNotNull(s: string) {
    Contains(s, "not null") || Contains(s, "null value") || Contains(s, "violates not-null")
  }
  predicate IsCheck(s: string) { Contains(s, "check constraint") || Contains(s, "violates check") }

  /** `sqlalchemy_exception_handler`'s decision: the status and message for
      a database error, tried in order: duplicate, foreign key, not null,
      check constraint, anything else. */
  function ClassifyDbError(message: string, orig: Option<string>, appEnv: string): (r: HttpError)
    ensures r.code == 500 <==> !IsDuplicate(FullError(message, orig)) && !IsForeignKey(FullError(message, orig)) &&
                                !IsNotNull(FullError(message, orig)) && !IsCheck(FullError(message, orig))
    ensures r.code == 400 || r.code == 500
    ensures r.code == 500 && appEnv == "dev" ==>
      r.detail == "Database error: " + message[..if |message| < MaxDebugLength then |message| else MaxDebugLength]
    ensures r.code == 500 && appEnv != "dev" ==> r.detail == ProductionDbMessage
    ensures var full := FullError(message, orig);
      IsDuplicate(full) ==>
        r == HttpError(400, if Contains(full, "email") || Contains(full, "users_email") then EmailRegisteredMessage
                            else DuplicateMessage)
    ensures var full := FullError(message, orig);
      !IsDuplicate(full) && IsForeignKey(full) ==> r == HttpError(400, ForeignKeyMessage)
    ensures var full := FullError(message, orig);
      !IsDuplicate(full) && !IsForeignKey(full) && IsNotNull(full) ==>
        r == HttpError(400, if Contains(full, "name") then NameRequiredMessage
                            else if Contains(full, "email") then EmailRequiredMessage
                            else if Contains(full, "password_hash") then PasswordRequiredMessage
                            else FieldRequiredMessage)
    ensures var full := FullError(message, orig);
      !IsDuplicate(full) && !IsForeignKey(full) && !IsNotNull(full) && IsCheck(full) ==>
        r == HttpError(400, CheckMessage)
  {
    var full := FullError(message, orig);
    if IsDuplicate(full) then
      if Contains(full, "email") || Contains(full, "users_email") then HttpError(400, EmailRegisteredMessage)
      else HttpError(400, DuplicateMessage)
    else if IsForeignKey(full) then HttpError(400, ForeignKeyMessage)
    else if IsNotNull(full) then
      if Contains(full, "name") then HttpError(400, NameRequiredMessage)
      else if Contains(full, "email") then HttpError(400, EmailRequiredMessage)
      else if Contains(full, "password_hash") then HttpError(400, PasswordRequiredMessage)
      else HttpError(400, FieldRequiredMessage)
    else if IsCheck(full) then HttpError(400, CheckMessage)
    else if appEnv == "dev" then
      HttpError(500, "Database error: " + message[..if |message| < MaxDebugLength then |message| else MaxDebugLength])
    else HttpError(500, ProductionDbMessage)
  }

  /** The handler's response: the classification, with the path. */
  function SqlAlchemyHandler(message: string, orig: Option<string>, appEnv: string, path: string): (r: Response)
    ensures Consistent(r) && r.body.ErrorBody? && r.body.path == path
    ensures r.status == ClassifyDbError(message, orig, appEnv).code
    ensures r.body.message == ClassifyDbError(message, orig, appEnv).detail
  {
    var e := ClassifyDbError(message, orig, appEnv);
    Response(e.code, ErrorBody(e.code, e.detail, path))
  }

  /** A duplicate that mentions an email is reported as a taken email, even
      when the text also mentions a foreign key or a null value. */
  lemma DuplicateEmailFirst(message: string, orig: Option<string>, appEnv: string)
    requires Contains(FullError(message, orig), "duplicate key")
    requires Contains(FullError(message, orig), "email")
    ensures ClassifyDbError(message, orig, appEnv) == HttpError(400, EmailRegisteredMessage)
  {
  }

  /** The `users_email` test adds nothing: the text already contains
      "email" whenever it contains "users_email". */
  lemma UsersEmailSubsumed(s: string)
    requires Contains(s, "users_email")
    ensures Contains(s, "email")
  {
    assert "users_email" == "users_" + "email" + "";
    ContainsInfix(s, "users_", "email", "");
  }

  /** Likewise "violates foreign key" is caught by the "foreign key" test. */
  lemma ViolatesForeignKeySubsumed(s: string)
    requires Contains(s, "violates foreign key")
    ensures Contains(s, "foreign key")
  {
    assert "violates foreign key" == "violates " + "foreign key" + "";
    ContainsInfix(s, "violates ", "foreign key", "");
  }

  /** A not-null violation on a column whose name includes "name" is
      reported as a missing name, whatever else the text says. */
  lemma NotNullNameFirst(message: string, orig: Option<string>, appEnv: string)
    requires !IsDuplicate(FullError(message, orig)) && !IsForeignKey(FullError(message, orig))
    requires Contains(FullError(message, orig), "not null") && Contains(FullError(message, orig), "name")
    ensures ClassifyDbError(message, orig, appEnv) == HttpError(400, NameRequiredMessage)
  {
  }

  /** The raised exception, as far as the general handler looks at it. */
  datatype RaisedError = RaisedError(isValueError: bool, text: string)

  /** `general_exception_handler`: a ValueError is the client's fault (400,
      with its text); anything else is 500 "Internal server error". */
  function GeneralHandler(e: RaisedError, path: string): (r: Response)
    ensures Consistent(r) && r.body.ErrorBody? && r.body.path == path
    ensures e.isValueError <==> r.status == 400
    ensures e.isValueError ==> r.body.message == e.text
    ensures !e.isValueError ==> r.status == 500 && r.body.message == "Internal server error"
  {
    if e.isValueError then Response(400, ErrorBody(400, e.text, path))
    else Response(500, ErrorBody(500, "Internal server error", path))
  }
}
