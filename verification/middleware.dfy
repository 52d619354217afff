/** The admin authorization check
    (internal/transport/http/v1/middleware/admin_middleware.go). The ID-token
    verifier is a parameter. The accepted form is a stricter,
    case-sensitive subset of the Bearer header of section 2.1 of RFC 6750:
    exactly "Bearer", one space, and a token without spaces. */
module AdminAuth {
  import opened Results
  import Strings

  const StatusUnauthorized := 401

  datatype Token = Token(uid: string)

  /** How a request leaves the middleware: aborted with a status and an
      error body, or passed on with `user_id` set. */
  datatype Outcome = Aborted(status: int, error: string) | Continued(userId: string)

  type Verifier = string -> Result<Token>

  /** The header has the accepted shape, and `token` is its second part. */
  predicate WellFormedBearer(header: string, token: string)
  {
    header == "Bearer " + token && ' ' !in token
  }

  /** `AdminAuthMiddleware` for one request carrying `header` (empty when
      absent). */
  function Authorize(header: string, verify: Verifier): (r: Outcome)
    ensures header == "" ==> r == Aborted(StatusUnauthorized, "Authorization header required.")
    ensures r.Aborted? ==> r.status == StatusUnauthorized
    ensures r.Continued? <==>
      exists token :: WellFormedBearer(header, token) && verify(token).Ok?
    ensures forall token :: WellFormedBearer(header, token) ==>
      (verify(token).Ok? ==> r == Continued(verify(token).value.uid))
      && (verify(token).Err? ==> r == Aborted(StatusUnauthorized, verify(token).error))
    ensures header != "" && (forall token :: !WellFormedBearer(header, token)) ==>
      r.Aborted? && "Authorization header format must be Bearer" <= r.error
  {
    if header == "" then Aborted(StatusUnauthorized, "Authorization header required.")
    else
      var parts := Strings.Split(header, ' ');
      BearerShape(header);
      if |parts| != 2 || parts[0] != "Bearer" then
        Aborted(StatusUnauthorized, "Authorization header format must be Bearer {token}, got=" + parts[0])
      else
        match verify(parts[1])
        case Err(e) => Aborted(StatusUnauthorized, e)
        case Ok(t) => Continued(t.uid)
  }

  /** Splitting on single spaces gives exactly ["Bearer", token] iff the
      header is "Bearer " followed by a token without spaces. */
  lemma BearerShape(header: string)
    ensures var parts := Strings.Split(header, ' ');
      (|parts| == 2 && parts[0] == "Bearer") <==> exists t :: WellFormedBearer(header, t)
    ensures var parts := Strings.Split(header, ' ');
      |parts| == 2 && parts[0] == "Bearer" ==> WellFormedBearer(header, parts[1])
    ensures forall token :: WellFormedBearer(header, token) ==>
      Strings.Split(header, ' ') == ["Bearer", token]
  {
    var parts := Strings.Split(header, ' ');
    if |parts| == 2 && parts[0] == "Bearer" {
      assert Strings.Join(parts[1..], ' ') == parts[1];
      assert parts[1] == parts[|parts| - 1];
    }
    forall token | WellFormedBearer(header, token)
      ensures Strings.Split(header, ' ') == ["Bearer", token]
    {
      var ps := ["Bearer", token];
      assert Strings.Join(ps[1..], ' ') == token;
      assert Strings.Join(ps, ' ') == header;
      Strings.SplitJoin(ps, ' ');
    }
    if |parts| == 2 && WellFormedBearer(header, parts[1]) {
      assert parts == ["Bearer", parts[1]];
    }
  }

  /** The header-format cases the middleware tests exercise: a missing
      header, a bare token and another scheme are all refused. */
  lemma RefusedTestHeaders(verify: Verifier)
    ensures Authorize("", verify) == Aborted(401, "Authorization header required.")
    ensures Authorize("InvalidToken123", verify).Aborted?
    ensures Authorize("Basic token123", verify).Aborted?
  {
    forall token: string
      ensures !WellFormedBearer("InvalidToken123", token) && !WellFormedBearer("Basic token123", token)
    {
      assert ("Bearer " + token)[0] != "InvalidToken123"[0];
      assert ("Bearer " + token)[1] != "Basic token123"[1];
    }
  }

  /** The verifier decides a well-formed header: it is handed exactly the
      token, and its answer is the outcome. */
  lemma VerifierDecidesWellFormed(token: string, verify: Verifier)
    requires ' ' !in token
    ensures verify(token).Ok? ==> Authorize("Bearer " + token, verify) == Continued(verify(token).value.uid)
    ensures verify(token).Err? ==> Authorize("Bearer " + token, verify) == Aborted(401, verify(token).error)
  {
    assert WellFormedBearer("Bearer " + token, token);
  }
}
