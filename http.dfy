/** Response outcomes shared by every controller: the JSON envelope's
    `success` flag, and on failure the HTTP status the handler answers with. */
module Http {

  /** A nullable column, or a request field that may be absent. */
  datatype Option<T> = None | Some(value: T) {
    function GetOr(default: T): (r: T)
      ensures Some? ==> r == value
      ensures None? ==> r == default
    {
      if Some? then value else default
    }
  }

  /** The characters PHP's `trim` strips by default: space, tab, newline,
      carriage return, NUL and vertical tab. */
  predicate Blank(c: char) {
    c == ' ' || c == '\t' || c == '\n' || c == '\r' || c == '\0' || c == '\U{000B}'
  }

  /** A `required` string, or one `$request->filled()` accepts: present, and
      not empty once trimmed, that is, holding some character `trim` keeps. */
  predicate Filled(f: Option<string>) {
    f.Some? && exists i :: 0 <= i < |f.value| && !Blank(f.value[i])
  }

  /** PHP's `trim`: drops leading blanks ... */
  function TrimStart(s: string): (r: string)
    ensures |r| <= |s| && r == s[|s| - |r|..]
    ensures r != "" ==> !Blank(r[0])
  {
    if |s| > 0 && Blank(s[0]) then TrimStart(s[1..]) else s
  }

  /** ... and trailing ones. */
  function TrimEnd(s: string): (r: string)
    ensures |r| <= |s| && r == s[..|r|]
    ensures r != "" ==> !Blank(r[|r| - 1])
  {
    if |s| > 0 && Blank(s[|s| - 1]) then TrimEnd(s[..|s| - 1]) else s
  }

  function Trim(s: string): string {
    TrimEnd(TrimStart(s))
  }

  /** Trimming from the front leaves nothing exactly when every character is blank. */
  lemma {:induction false} TrimStartEmpty(s: string)
    ensures TrimStart(s) == "" <==> forall i :: 0 <= i < |s| ==> Blank(s[i])
    decreases |s|
  {
    if |s| > 0 && Blank(s[0]) {
      TrimStartEmpty(s[1..]);
      assert forall i :: 1 <= i < |s| ==> s[i] == s[1..][i - 1];
    }
  }

  /** Trimming from the back leaves nothing exactly when every character is blank. */
  lemma {:induction false} TrimEndEmpty(s: string)
    ensures TrimEnd(s) == "" <==> forall i :: 0 <= i < |s| ==> Blank(s[i])
    decreases |s|
  {
    if |s| > 0 && Blank(s[|s| - 1]) {
      TrimEndEmpty(s[..|s| - 1]);
      assert forall i :: 0 <= i < |s| - 1 ==> s[i] == s[..|s| - 1][i];
    }
  }

  /** `Filled` is Laravel's test `trim($value) !== ''` on a present field. */
  lemma FilledIsTrimmedNonEmpty(f: Option<string>)
    ensures Filled(f) <==> f.Some? && Trim(f.value) != ""
  {
    if f.Some? {
      TrimStartEmpty(f.value);
      TrimEndEmpty(TrimStart(f.value));
    }
  }

  /** `if ($request->has(f)) $row->f = $request->f;`: a given field replaces
      the column, an absent one keeps it. */
  predicate Overwrites<T(==)>(given: Option<T>, before: T, after: T) {
    && (given.Some? ==> after == given.value)
    && (given.None? ==> after == before)
  }

  /** The same for a nullable column. */
  predicate OverwritesNullable<T(==)>(given: Option<T>, before: Option<T>, after: Option<T>) {
    && (given.Some? ==> after == given)
    && (given.None? ==> after == before)
  }

  /** The error answers the handlers give. */
  datatype Failure =
    | ValidationError   // 422: a validator rule failed
    | BadRequest        // 400: wrong password, wrong OTP, duplicate review
    | Forbidden         // 403: caller is not a chef, or not a participant of the order
    | NotFound          // 404: no row the caller may see
    | ServerError       // 500: an uncaught exception

  function StatusCode(f: Failure): (code: int)
    ensures code in {400, 403, 404, 422, 500}
    ensures f == ValidationError <==> code == 422
    ensures f == NotFound <==> code == 404
  {
    match f
    case ValidationError => 422
    case BadRequest => 400
    case Forbidden => 403
    case NotFound => 404
    case ServerError => 500
  }

  /** `{success: true, data: value}` or `{success: false, message}` with its status. */
  datatype Outcome<T> = Ok(value: T) | Fail(failure: Failure)
}
