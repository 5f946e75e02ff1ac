/**
 * The route guard for the dashboard.  It looks for a `session` cookie,
 * first through the cookie API and then, when that gives nothing, by
 * searching the raw `Cookie` header with the pattern
 * `(?:^|;\s*)session=([^;]+)`; without a session it redirects to the login
 * page, otherwise the request goes on.  Only the session's presence is
 * checked here, not its validity.
 */
module Middleware {
  import opened Wrappers

  /** The parts of a request the guard reads. */
  datatype Request = Request(
    path: string,
    sessionCookie: Option<string>,  // `req.cookies.get('session')?.value`
    cookieHeader: Option<string>)   // `req.headers.get('cookie')`

  datatype Decision = Redirect(location: string) | Next

  /** The characters the pattern's `\s` matches (JavaScript's white space and line terminators). */
  predicate IsSpace(c: char) {
    c == '\t' || c == '\n' || c == '\U{000B}' || c == '\U{000C}' || c == '\r' || c == ' '
    || c == '\U{00A0}' || c == '\U{1680}' || ('\U{2000}' <= c <= '\U{200A}')
    || c == '\U{2028}' || c == '\U{2029}' || c == '\U{202F}' || c == '\U{205F}'
    || c == '\U{3000}' || c == '\U{FEFF}'
  }

  /** `\s*`, greedy: the first position at or after `i` that is not white space. */
  function SkipSpaces(s: string, i: nat): (j: nat)
    requires i <= |s|
    ensures i <= j <= |s|
    ensures forall k :: i <= k < j ==> IsSpace(s[k])
    ensures j < |s| ==> !IsSpace(s[j])
    decreases |s| - i
  {
    if i < |s| && IsSpace(s[i]) then SkipSpaces(s, i + 1) else i
  }

  /** `[^;]+`, greedy: the first position at or after `i` holding `;`, or the end. */
  function ValueEnd(s: string, i: nat): (e: nat)
    requires i <= |s|
    ensures i <= e <= |s|
    ensures forall k :: i <= k < e ==> s[k] != ';'
    ensures e < |s| ==> s[e] == ';'
    decreases |s| - i
  {
    if i < |s| && s[i] != ';' then ValueEnd(s, i + 1) else i
  }

  /** `session=` at `q`, followed by at least one character that is not `;`. */
  predicate KeyAt(s: string, q: nat) {
    q + 9 <= |s| && s[q..q + 8] == "session=" && s[q + 8] != ';'
  }

  /** The captured value for the key at `q`. */
  function ValueAfter(s: string, q: nat): (v: string)
    requires KeyAt(s, q)
    ensures v != [] && forall k :: 0 <= k < |v| ==> v[k] != ';'
    ensures q + 8 + |v| <= |s| && (q + 8 + |v| < |s| ==> s[q + 8 + |v|] == ';')
    ensures v == s[q + 8..q + 8 + |v|]
  {
    s[q + 8..ValueEnd(s, q + 8)]
  }

  /** The key may start at `q` for a match at start position `p`: `^` at 0, or `;\s*`. */
  predicate Anchored(s: string, p: nat, q: nat) {
    (p == 0 && q == 0) || (p < |s| && s[p] == ';' && q == SkipSpaces(s, p + 1))
  }

  /**
   * The pattern tried at start position `p`: where its key starts, if it
   * matches there.  The `^` branch is tried first (only at 0), then the
   * `;\s*` branch.  Since the key does not start with white space, the
   * greedy `\s*` never needs to give characters back.
   */
  function MatchAt(s: string, p: nat): (q: Option<nat>)
    ensures q.Some? ==> q.value <= |s| && Anchored(s, p, q.value) && KeyAt(s, q.value)
  {
    if p == 0 && KeyAt(s, 0) then Some(0)
    else if p < |s| && s[p] == ';' && KeyAt(s, SkipSpaces(s, p + 1)) then Some(SkipSpaces(s, p + 1))
    else None
  }

  /** No start position from `p` up to, not including, `i` matches. */
  predicate NoMatchBetween(s: string, p: nat, i: nat) {
    forall k :: p <= k < i ==> MatchAt(s, k).None?
  }

  /** `i` is the leftmost start position from `p` on where the pattern matches. */
  predicate IsFirstMatch(s: string, p: nat, i: nat) {
    p <= i <= |s| && MatchAt(s, i).Some? && NoMatchBetween(s, p, i)
  }

  /** A failed position in front of a stretch without matches extends the stretch. */
  lemma NoMatchExtends(s: string, p: nat, i: nat)
    requires MatchAt(s, p).None? && NoMatchBetween(s, p + 1, i)
    ensures NoMatchBetween(s, p, i)
  {
  }

  /** The leftmost start position from `p` on where the pattern matches, if any. */
  function FirstMatch(s: string, p: nat): (i: Option<nat>)
    requires p <= |s|
    ensures i.None? ==> NoMatchBetween(s, p, |s| + 1)
    ensures i.Some? ==> IsFirstMatch(s, p, i.value)
    decreases |s| - p
  {
    if MatchAt(s, p).Some? then Some(p)
    else if p == |s| then None
    else
      var r := FirstMatch(s, p + 1);
      NoMatchExtends(s, p, if r.Some? then r.value else |s| + 1);
      r
  }

  /** The search finds exactly the leftmost matching position. */
  lemma FirstMatchIsLeftmost(s: string, p: nat, i: nat)
    requires p <= |s|
    ensures FirstMatch(s, p) == Some(i) <==> IsFirstMatch(s, p, i)
  {
    var r := FirstMatch(s, p);
    if IsFirstMatch(s, p, i) {
      assert r.Some?;
      if r.value != i {
        assert false;
      }
    }
  }

  /** `raw.match(...)`: the capture of the match at the leftmost start position, if any. */
  function SessionFromHeader(raw: string): (r: Option<string>)
    ensures r.None? <==> NoMatchBetween(raw, 0, |raw| + 1)
    ensures r.Some? ==> r.value != [] && forall k :: 0 <= k < |r.value| ==> r.value[k] != ';'
  {
    match FirstMatch(raw, 0)
    case None => None
    case Some(i) => Some(ValueAfter(raw, MatchAt(raw, i).value))
  }

  /** The pattern matches at `p` whenever an anchored key is there, and reports that key. */
  lemma MatchAtFindsAnchoredKey(s: string, p: nat, q: nat)
    requires Anchored(s, p, q) && KeyAt(s, q)
    ensures MatchAt(s, p) == Some(q)
  {
  }

  /** A key anchored at any start position is found: the header then yields a session. */
  lemma AnchoredKeyGivesSession(raw: string, p: nat, q: nat)
    requires Anchored(raw, p, q) && KeyAt(raw, q)
    ensures SessionFromHeader(raw).Some?
  {
    MatchAtFindsAnchoredKey(raw, p, q);
  }

  /** The value the guard ends up with: the API's, or the header's when the API gives none or "". */
  function SessionCookie(req: Request): (r: Option<string>)
    ensures req.sessionCookie.Some? && req.sessionCookie.value != "" ==> r == req.sessionCookie
    ensures (req.sessionCookie.None? || req.sessionCookie.value == "") ==>
      r == (if SessionFromHeader(req.cookieHeader.GetOr("")).Some? then SessionFromHeader(req.cookieHeader.GetOr(""))
            else req.sessionCookie)
  {
    if req.sessionCookie.Some? && req.sessionCookie.value != "" then req.sessionCookie
    else
      var raw := req.cookieHeader.GetOr("");
      var found := SessionFromHeader(raw);
      if found.Some? then found else req.sessionCookie
  }

  /** `middleware`: continue when there is a non-empty session value, else redirect to `/login`. */
  function Guard(req: Request): (d: Decision)
    ensures d == Next <==> SessionCookie(req).Some? && SessionCookie(req).value != ""
    ensures d.Redirect? ==> d.location == "/login"
  {
    var session := SessionCookie(req);
    if session.None? || session.value == "" then Redirect("/login") else Next
  }

  /** `config.matcher` `/dashboard/:path*`: the dashboard, with or without a trailing slash, and every path below it. */
  predicate Guarded(path: string) {
    path == "/dashboard" || (|path| >= 11 && path[..11] == "/dashboard/")
  }

  /** What happens to a request: guarded paths go through the guard, all others continue. */
  function Route(req: Request): (d: Decision)
    ensures !Guarded(req.path) ==> d == Next
    ensures Guarded(req.path) ==> d == Guard(req)
  {
    if Guarded(req.path) then Guard(req) else Next
  }

  /** The guard lets a request on exactly when the API or the header supplies a session. */
  lemma GuardDecision(req: Request)
    ensures Guard(req) == Next <==>
      (req.sessionCookie.Some? && req.sessionCookie.value != "")
      || SessionFromHeader(req.cookieHeader.GetOr("")).Some?
  {
  }

  /** A session value from the cookie API is used as it is; the header is not consulted. */
  lemma ApiCookieWins(req: Request)
    requires req.sessionCookie.Some? && req.sessionCookie.value != ""
    ensures SessionCookie(req) == req.sessionCookie && Guard(req) == Next
  {
  }

  /**
   * The header value comes from a key at the start of the header or right
   * after a `;` and white space, and no earlier start position matches.
   */
  lemma HeaderMatchIsAnchored(raw: string)
    requires SessionFromHeader(raw).Some?
    ensures exists p, q ::
      && 0 <= p <= q <= |raw| && Anchored(raw, p, q) && KeyAt(raw, q)
      && SessionFromHeader(raw).value == ValueAfter(raw, q)
      && NoMatchBetween(raw, 0, p)
  {
    var p := FirstMatch(raw, 0).value;
    var q := MatchAt(raw, p).value;
    assert SessionFromHeader(raw).value == ValueAfter(raw, q);
  }

  /** A header without `session=` anywhere yields nothing. */
  lemma NoKeyNoSession(raw: string)
    requires forall q :: 0 <= q <= |raw| ==> !KeyAt(raw, q)
    ensures SessionFromHeader(raw).None?
  {
    if SessionFromHeader(raw).Some? {
      HeaderMatchIsAnchored(raw);
    }
  }

  /**
   * `xsession=...` is not a session cookie: the key must start the header
   * or follow a `;`.
   */
  lemma PrefixedKeyIgnored(v: string)
    requires forall k :: 0 <= k < |v| ==> v[k] != ';'
    ensures SessionFromHeader("xsession=" + v).None?
  {
    var s := "xsession=" + v;
    assert !KeyAt(s, 0) by {
      assert s[0] == 'x';
      if |s| >= 9 { assert s[0..8][0] == 'x'; }
    }
    forall p | 0 <= p <= |s| ensures MatchAt(s, p).None? {
      if 0 < p < |s| {
        assert p < 9 || s[p] == v[p - 9];
      }
    }
  }

  /** No match starts at a position that holds no `;`, unless the key sits at the very start. */
  lemma NoAnchorNoMatch(s: string, p: nat)
    requires p < |s| && s[p] != ';' && (p == 0 ==> !KeyAt(s, 0))
    ensures MatchAt(s, p).None?
  {
  }

  /** An empty value (`session=;`) does not match there; the search moves on to the next cookie. */
  lemma EmptyValueSkipped()
    ensures SessionFromHeader("session=; session=abc") == Some("abc")
  {
    var s := "session=; session=abc";
    assert s[8] == ';' && s[9] == ' ' && s[10..18] == "session=";
    assert SkipSpaces(s, 9) == 10 by {
      assert !IsSpace(s[10]);
    }
    assert KeyAt(s, 10);
    assert !KeyAt(s, 0);
    assert NoMatchBetween(s, 0, 8) by {
      forall p | 0 <= p < 8 ensures MatchAt(s, p).None? {
        NoAnchorNoMatch(s, p);
      }
    }
    FirstMatchIsLeftmost(s, 0, 8);
    assert ValueEnd(s, 18) == 21;
    assert s[18..21] == "abc";
  }

  /** The first `session` cookie in the header wins. */
  lemma FirstOccurrenceWins()
    ensures SessionFromHeader("session=a; session=b") == Some("a")
  {
    var s := "session=a; session=b";
    assert s[0..8] == "session=";
    assert KeyAt(s, 0);
    assert ValueEnd(s, 8) == 9;
    assert s[8..9] == "a";
    assert MatchAt(s, 0) == Some(0);
  }

  /** No cookie at all, or only an empty `session=;`, sends the request to `/login`. */
  lemma MissingSessionRedirects(path: string)
    ensures Guard(Request(path, None, None)) == Redirect("/login")
    ensures Guard(Request(path, Some(""), Some("session=;"))) == Redirect("/login")
  {
    assert MatchAt("", 0).None?;
    assert NoMatchBetween("", 0, 1);
    var s := "session=;";
    assert !KeyAt(s, 0);
    forall p | 0 <= p <= |s| ensures MatchAt(s, p).None? {
      if 0 < p < 8 { assert s[p] != ';'; }
      if p == 8 { assert SkipSpaces(s, 9) == 9; }
    }
  }
}
