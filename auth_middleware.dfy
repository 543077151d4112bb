/**
 * The server's API authentication gate (server/middleware/auth.ts): which
 * URLs it lets through untouched, which token it takes from the session
 * cookie or the `Authorization` header, and what it does with the outcome
 * of verifying that token. Token verification is a parameter: the model
 * does not look inside the JWT library.
 */
module AuthMiddleware {
  import opened Wrappers
  import opened Web

  /** What the gate does with a request. */
  datatype Decision =
    | Pass                         // returns without touching the request context
    | Authenticated(user: Claims)  // sets the context's user to the payload, then returns
    | Reject(failure: Failure)     // throws a 401

  predicate StartsWith(s: string, prefix: string) {
    |prefix| <= |s| && s[..|prefix|] == prefix
  }

  const ApiPrefix := "/api"
  const LoginPath := "/api/auth/login"
  const SignupPath := "/api/auth/signup"
  const EventsPrefix := "/api/events"
  const PublicPrefix := "/api/public"
  const BearerPrefix := "Bearer "

  /** The API URLs that need no session: two exact paths and two prefixes. */
  predicate IsExempt(url: string) {
    url == LoginPath || url == SignupPath || StartsWith(url, EventsPrefix) || StartsWith(url, PublicPrefix)
  }

  /** The URL is an API route that needs a session. */
  predicate IsProtected(url: string) {
    StartsWith(url, ApiPrefix) && !IsExempt(url)
  }

  /** The text of `s` before its first `sep`, or all of `s` when it has none. */
  function UpTo(s: string, sep: char): (r: string)
    ensures |r| <= |s| && r == s[..|r|]
    ensures sep !in r
    ensures |r| < |s| ==> s[|r|] == sep
  {
    if s == [] || s[0] == sep then []
    else [s[0]] + UpTo(s[1..], sep)
  }

  /** `s.split(sep)` for a one-character separator. */
  function Split(s: string, sep: char): (parts: seq<string>)
    ensures |parts| >= 1 && parts[0] == UpTo(s, sep)
    ensures |UpTo(s, sep)| < |s| ==> |parts| >= 2 && parts[1] == UpTo(s[|UpTo(s, sep)| + 1..], sep)
    decreases |s|
  {
    var head := UpTo(s, sep);
    if |head| == |s| then [s]
    else [head] + Split(s[|head| + 1..], sep)
  }

  /** The text before the first separator of `p + [sep] + rest` is `p`, when `p` has none. */
  lemma {:induction false} UpToFirst(p: string, rest: string, sep: char)
    requires sep !in p
    ensures UpTo(p + [sep] + rest, sep) == p
  {
    if p != [] {
      assert p[0] in p;
      assert (p + [sep] + rest)[1..] == p[1..] + [sep] + rest;
      assert forall c :: c in p[1..] ==> c in p;
      UpToFirst(p[1..], rest, sep);
      assert [p[0]] + p[1..] == p;
    }
  }

  /** A string without the separator is its own first field. */
  lemma {:induction false} UpToWhole(s: string, sep: char)
    requires sep !in s
    ensures UpTo(s, sep) == s
  {
    if s != [] {
      assert s[0] in s;
      assert forall c :: c in s[1..] ==> c in s;
      UpToWhole(s[1..], sep);
      assert [s[0]] + s[1..] == s;
    }
  }

  /**
   * The bearer token of an `Authorization` header: present only when the
   * header starts with `Bearer ` (that exact case and one space), and then
   * the second space-separated field, that is the text after `Bearer `
   * up to the next space.
   */
  function BearerToken(header: string): (t: Option<string>)
    ensures t.Some? <==> StartsWith(header, BearerPrefix)
    ensures t.Some? ==> t.value == UpTo(header[|BearerPrefix|..], ' ')
  {
    // an empty header fails the prefix test, as `authHeader &&` short-circuits
    if StartsWith(header, BearerPrefix) then
      var rest := header[|BearerPrefix|..];
      assert BearerPrefix == "Bearer" + [' '];
      assert header == header[..|BearerPrefix|] + rest;
      UpToFirst("Bearer", rest, ' ');
      assert |UpTo(header, ' ')| == 6;
      Some(Split(header, ' ')[1])
    else None
  }

  /**
   * A header of `Bearer ` followed by a token without spaces yields that
   * token; any text after a further space is dropped.
   */
  lemma BearerOfToken(token: string, extra: string)
    requires ' ' !in token
    ensures BearerToken(BearerPrefix + token) == Some(token)
    ensures BearerToken(BearerPrefix + token + [' '] + extra) == Some(token)
  {
    var h := BearerPrefix + token;
    assert h[|BearerPrefix|..] == token;
    UpToWhole(token, ' ');
    var h' := BearerPrefix + token + [' '] + extra;
    assert h'[..|BearerPrefix|] == BearerPrefix;
    assert h'[|BearerPrefix|..] == token + [' '] + extra;
    UpToFirst(token, extra, ' ');
  }

  /**
   * `cookieToken || bearer`: a non-empty session cookie wins, whatever the
   * header says; otherwise the bearer token. `None` stands for null or
   * undefined.
   */
  function SessionToken(cookie: Option<string>, header: string): (t: Option<string>)
    ensures cookie.Some? && cookie.value != "" ==> t == cookie
    ensures !(cookie.Some? && cookie.value != "") ==> t == BearerToken(header)
  {
    if cookie.Some? && cookie.value != "" then cookie else BearerToken(header)
  }

  /** The token is truthy: present and not empty. */
  predicate HasToken(t: Option<string>) {
    t.Some? && t.value != ""
  }

  /**
   * The gate. URLs outside `/api` and exempt API URLs pass untouched; a
   * protected URL without a token is a 401 "Unauthorized"; a token that
   * `verify` rejects is a 401 "Invalid session"; a token it accepts sets
   * the request's user to the payload.
   */
  function Authenticate(url: string, cookie: Option<string>, header: string,
                        verify: string -> Option<Claims>): (d: Decision)
    ensures !IsProtected(url) <==> d == Pass
    ensures d == Reject(Unauthorized) <==> IsProtected(url) && !HasToken(SessionToken(cookie, header))
    ensures d == Reject(InvalidSession) <==>
      IsProtected(url) && HasToken(SessionToken(cookie, header)) && verify(SessionToken(cookie, header).value).None?
    ensures d.Authenticated? <==>
      IsProtected(url) && HasToken(SessionToken(cookie, header)) && verify(SessionToken(cookie, header).value).Some?
    ensures d.Authenticated? ==> d.user == verify(SessionToken(cookie, header).value).value
  {
    if !StartsWith(url, ApiPrefix) then Pass
    else if IsExempt(url) then Pass
    else
      var token := SessionToken(cookie, header);
      if !HasToken(token) then Reject(Unauthorized)
      else
        match verify(token.value)
        case None => Reject(InvalidSession)
        case Some(payload) => Authenticated(payload)
  }

  /**
   * The login and signup paths are exempt only as exact matches: the same
   * path with anything appended, a query string for one, needs a session.
   */
  lemma AuthPathsExactOnly(suffix: string)
    requires suffix != ""
    ensures IsProtected(LoginPath + suffix)
    ensures IsProtected(SignupPath + suffix)
  {
    var login := LoginPath + suffix;
    var signup := SignupPath + suffix;
    assert login[..|ApiPrefix|] == ApiPrefix && signup[..|ApiPrefix|] == ApiPrefix;
    assert |login| > |LoginPath| && |signup| > |SignupPath| > |LoginPath|;
    assert login[10] == 'l' && SignupPath[10] == 's';
    assert login[5] == 'a' && signup[5] == 'a';
    assert EventsPrefix[5] == 'e' && PublicPrefix[5] == 'p';
    assert login[..|EventsPrefix|] != EventsPrefix && login[..|PublicPrefix|] != PublicPrefix;
    assert signup[..|EventsPrefix|] != EventsPrefix && signup[..|PublicPrefix|] != PublicPrefix;
  }

  /** Every URL under `/api/events` or `/api/public` passes without a session. */
  lemma PublicPrefixesPass(rest: string, cookie: Option<string>, header: string, verify: string -> Option<Claims>)
    ensures Authenticate(EventsPrefix + rest, cookie, header, verify) == Pass
    ensures Authenticate(PublicPrefix + rest, cookie, header, verify) == Pass
  {
    assert (EventsPrefix + rest)[..|EventsPrefix|] == EventsPrefix;
    assert (PublicPrefix + rest)[..|PublicPrefix|] == PublicPrefix;
  }
}
