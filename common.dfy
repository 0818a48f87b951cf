/** Shared vocabulary of the page controllers: optional values, the outcome of one
    call to the backend, the observable effects of a handler (requests it issues and
    navigations it performs), the signed-in user, and the `trim()`-emptiness test the
    pages use to reject blank input. */
module Common {

  datatype Option<T> = None | Some(value: T)

  /** What one awaited backend call produced, as seen by a handler: a payload, a
      401 response, or any other failure. A failure may carry the server's
      `response.data.message`. */
  datatype Outcome<T> =
    | Ok(value: T)
    | Unauthorized(message: Option<string>)
    | OtherError(message: Option<string>)

  datatype Verb = GET | POST | DELETE

  /** A JSON request body as its top-level fields, in the order the source writes
      them; values are rendered as they appear in JSON (`true`, `false`, text). */
  type Body = seq<(string, string)>

  /** An observable effect of a handler, recorded in the order it happens. A
      request without a body (GET, DELETE, the empty `{}` of a like) has `[]`. */
  datatype Effect =
    | Request(verb: Verb, path: string, body: Body)
    | Navigate(route: string)

  /** The signed-in user as the pages use it (`_id`, `fullName`, `username`). */
  datatype User = User(id: string, fullName: string, username: string)

  const LoginRoute := "/login"
  const CurrentUserPath := "/api/v1/users/current-user"

  /** The session probe every page issues on mount. */
  const ProbeRequest := Request(GET, CurrentUserPath, [])

  /** The characters ECMAScript's `String.prototype.trim` removes: WhiteSpace and
      LineTerminator code points. */
  predicate IsJsWhitespace(c: char) {
    c == ' ' || c == '\t' || c == '\n' || c == '\r' || c == '\U{000B}' || c == '\U{000C}'
    || c == '\U{00A0}' || c == '\U{1680}' || ('\U{2000}' <= c <= '\U{200A}')
    || c == '\U{2028}' || c == '\U{2029}' || c == '\U{202F}' || c == '\U{205F}'
    || c == '\U{3000}' || c == '\U{FEFF}'
  }

  /** `s.trim()` with the leading whitespace removed. */
  function TrimStart(s: string): string {
    if s != [] && IsJsWhitespace(s[0]) then TrimStart(s[1..]) else s
  }

  /** `!s.trim()`: the string is empty once trimmed, which is exactly when every
      character of it is whitespace. */
  predicate IsBlank(s: string)
    ensures IsBlank(s) <==> forall i | 0 <= i < |s| :: IsJsWhitespace(s[i])
  {
    TrimStartEmpty(s);
    TrimStart(s) == []
  }

  /** Trimming from the start alone already empties a string exactly when the
      whole string is whitespace. */
  lemma {:induction false} TrimStartEmpty(s: string)
    ensures TrimStart(s) == [] <==> forall i | 0 <= i < |s| :: IsJsWhitespace(s[i])
  {
    if s != [] && IsJsWhitespace(s[0]) {
      TrimStartEmpty(s[1..]);
      assert forall i | 1 <= i < |s| :: s[i] == s[1..][i - 1];
    }
  }
}
