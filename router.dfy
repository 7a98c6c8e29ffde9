/**
 * The front end's route table and its global navigation guard (microMiro/src/router/index.js).
 *
 * A route path is compiled the way vue-router compiles it with its default options: every
 * static segment is compared without regard to ASCII case, a `:param` segment takes one or
 * more characters up to the next '/', one trailing '/' is allowed and nothing may follow.
 * The path '/' is one empty static segment, so its record matches '/' and '//'.
 * The token the guard reads from local storage is a parameter.
 */
module Router {
  import opened Optional

  /** One '/'-separated piece of a route path. */
  datatype Segment = Static(text: string) | Param(name: string)

  /** A route record: its compiled path, its name, where it redirects and its `meta.requiresAuth`. */
  datatype RouteRecord = RouteRecord(
    pattern: seq<Segment>,
    name: Option<string>,
    redirect: Option<string>,
    requiresAuth: Option<bool>)

  /** What the guard tells `next`: let the navigation through, or start a new one to `path`. */
  datatype Decision = Proceed | RedirectTo(path: string)

  /** The route table, in declaration order: '/', '/auth', '/boards', '/board/:id', '/canvas'. */
  const Routes: seq<RouteRecord> := [
    RouteRecord([Static("")], None, Some("/boards"), None),
    RouteRecord([Static("auth")], Some("auth"), None, Some(false)),
    RouteRecord([Static("boards")], Some("boards"), None, Some(true)),
    RouteRecord([Static("board"), Param("id")], Some("board"), None, Some(true)),
    RouteRecord([Static("canvas")], Some("canvas"), None, None)
  ]

  // ---------------------------------------------------------------- matching

  /** ASCII lower case; the case-insensitive comparison of a compiled route. */
  function Lower(c: char): (d: char)
    ensures 'A' <= c <= 'Z' ==> 'a' <= d <= 'z' && d as int == c as int + 32
    ensures !('A' <= c <= 'Z') ==> d == c
  {
    if 'A' <= c <= 'Z' then (c as int + 32) as char else c
  }

  /** The two strings are equal up to ASCII case. */
  predicate SameFolded(a: string, b: string) {
    |a| == |b| && forall i :: 0 <= i < |a| ==> Lower(a[i]) == Lower(b[i])
  }

  /** The index of the first '/' at or after `i`, or the length of `p`. */
  function SegmentEnd(p: string, i: nat): (j: nat)
    requires i <= |p|
    ensures i <= j <= |p|
    ensures j < |p| ==> p[j] == '/'
    ensures forall k :: i <= k < j ==> p[k] != '/'
    decreases |p| - i
  {
    if i == |p| || p[i] == '/' then i else SegmentEnd(p, i + 1)
  }

  /** `p` is matched by the compiled `pattern`: its segments in order, then an optional '/', then the end. */
  predicate Matches(pattern: seq<Segment>, p: string)
    decreases |pattern|
  {
    if pattern == [] then p == "" || p == "/"
    else if p == "" || p[0] != '/' then false
    else
      var j := SegmentEnd(p, 1);
      match pattern[0]
      case Static(w) => SameFolded(p[1..j], w) && Matches(pattern[1..], p[j..])
      case Param(_) => 1 < j && Matches(pattern[1..], p[j..])
  }

  /** The position of the first record in `routes` whose pattern matches `p`, or |routes|. */
  function FirstMatch(routes: seq<RouteRecord>, p: string): (i: nat)
    ensures i <= |routes|
    ensures i < |routes| ==> Matches(routes[i].pattern, p)
    ensures forall k :: 0 <= k < i ==> !Matches(routes[k].pattern, p)
  {
    if routes == [] then 0
    else if Matches(routes[0].pattern, p) then 0
    else 1 + FirstMatch(routes[1..], p)
  }

  /** `to.matched`: the record `p` resolves to (the table has no nested routes), or nothing. */
  function Matched(p: string): (records: seq<RouteRecord>)
    ensures |records| <= 1
    ensures records == [] <==> forall r <- Routes :: !Matches(r.pattern, p)
    ensures forall r <- records :: r in Routes && Matches(r.pattern, p)
  {
    var i := FirstMatch(Routes, p);
    if i < |Routes| then [Routes[i]] else []
  }

  /** The path a navigation to `p` ends up at once the record's `redirect` has been followed. */
  function Resolve(p: string): (q: string)
    ensures q != p ==> exists r <- Matched(p) :: r.redirect == Some(q)
    ensures (forall r <- Matched(p) :: r.redirect.None?) ==> q == p
    ensures forall r <- Matched(p) :: r.redirect.Some? ==> q == r.redirect.value
  {
    var m := Matched(p);
    if m != [] && m[0].redirect.Some? then m[0].redirect.value else p
  }

  // ---------------------------------------------------------------- the guard

  /** A token read from local storage counts only when it is present and not empty (`!token` is false). */
  predicate HasToken(token: Option<string>) {
    token.Some? && token.value != ""
  }

  /** `to.matched.some(record => record.meta.requiresAuth)`. */
  predicate RequiresAuth(records: seq<RouteRecord>) {
    exists r <- records :: r.requiresAuth == Some(true)
  }

  /**
   * The `beforeEach` guard: a page that requires authentication, reached without a token,
   * goes to the login page; the login page itself, reached with a token, goes to the board
   * list; everything else proceeds.
   */
  function Guard(to: string, token: Option<string>): (d: Decision)
    ensures d == RedirectTo("/auth") <==> RequiresAuth(Matched(to)) && !HasToken(token)
    ensures d == RedirectTo("/boards") <==> to == "/auth" && HasToken(token)
    ensures d.RedirectTo? ==> d.path in {"/auth", "/boards"}
  {
    if RequiresAuth(Matched(to)) && !HasToken(token) then RedirectTo("/auth")
    else if to == "/auth" && HasToken(token) then RedirectTo("/boards")
    else Proceed
  }

  // ---------------------------------------------------------------- properties of the table

  /** The three routes reached by the guard's decisions, matched exactly. */
  lemma KnownPaths()
    ensures Matched("/auth") == [Routes[1]]
    ensures Matched("/boards") == [Routes[2]]
    ensures Resolve("/auth") == "/auth" && Resolve("/boards") == "/boards"
  {
    assert Matches(Routes[1].pattern, "/auth") by {
      assert SegmentEnd("/auth", 1) == 5;
      assert "/auth"[1..5] == "auth";
      assert "/auth"[5..] == "";
    }
    assert !Matches(Routes[0].pattern, "/auth");
    assert Matches(Routes[2].pattern, "/boards") by {
      assert SegmentEnd("/boards", 1) == 7;
      assert "/boards"[1..7] == "boards";
      assert "/boards"[7..] == "";
    }
    assert !Matches(Routes[0].pattern, "/boards");
    assert !Matches(Routes[1].pattern, "/boards") by {
      assert SegmentEnd("/boards", 1) == 7;
    }
  }

  /** The first segment of a path that starts with '/', as a static segment compares it. */
  function FirstSegment(p: string): string {
    if p == "" then "" else p[1..SegmentEnd(p, 1)]
  }

  /** A path matched by a pattern that starts with a static segment has that segment first. */
  lemma MatchesStaticHead(pattern: seq<Segment>, p: string)
    requires pattern != [] && pattern[0].Static? && Matches(pattern, p)
    ensures SameFolded(FirstSegment(p), pattern[0].text)
  {
  }

  /**
   * No path is matched by two records, so which record vue-router ranks first never
   * matters: `to.matched` is the one matching record or nothing.
   */
  lemma AtMostOneMatch(p: string)
    ensures forall i, j :: 0 <= i < j < |Routes| && Matches(Routes[i].pattern, p) ==> !Matches(Routes[j].pattern, p)
  {
    var s := FirstSegment(p);
    forall k | 0 <= k < |Routes| && Matches(Routes[k].pattern, p)
      ensures SameFolded(s, Routes[k].pattern[0].text)
    {
      MatchesStaticHead(Routes[k].pattern, p);
    }
    assert SameFolded(s, "boards") ==> Lower(s[0]) == 'b';
    assert SameFolded(s, "canvas") ==> Lower(s[0]) == 'c';
  }

  /** For every path and token, the page a redirect of the guard leads to is let through. */
  lemma NoRedirectLoop(to: string, token: Option<string>)
    ensures Guard(to, token).RedirectTo? ==> Guard(Resolve(Guard(to, token).path), token) == Proceed
  {
    KnownPaths();
  }

  /**
   * A navigation: the target's redirect is followed, the guard runs, and a redirect of the
   * guard starts one more navigation, which the guard lets through.
   */
  function Navigate(p: string, token: Option<string>): (final: string)
    ensures Guard(final, token) == Proceed
    ensures Guard(Resolve(p), token) == Proceed ==> final == Resolve(p)
    ensures final != Resolve(p) ==> final == (if HasToken(token) then "/boards" else "/auth")
  {
    var to := Resolve(p);
    match Guard(to, token)
    case Proceed => to
    case RedirectTo(q) =>
      NoRedirectLoop(to, token);
      KnownPaths();
      Resolve(q)
  }

  /**
   * '/' (and '//', which its compiled path also accepts) always redirects to '/boards', which
   * the guard lets through with a token and sends to '/auth' without one.
   */
  lemma RootRedirectsToBoards(token: Option<string>)
    ensures Resolve("/") == "/boards" && Resolve("//") == "/boards"
    ensures Navigate("/", token) == if HasToken(token) then "/boards" else "/auth"
    ensures Navigate("//", token) == if HasToken(token) then "/boards" else "/auth"
  {
    RootPaths();
    KnownPaths();
  }

  /** The compiled root path accepts '/' and '//', so both resolve to the root record. */
  lemma RootPaths()
    ensures Matched("/") == [Routes[0]] && Matched("//") == [Routes[0]]
  {
    assert Matches(Routes[0].pattern, "/") by {
      assert SegmentEnd("/", 1) == 1;
      assert "/"[1..1] == "" && "/"[1..] == "";
    }
    assert Matches(Routes[0].pattern, "//") by {
      assert SegmentEnd("//", 1) == 1;
      assert "//"[1..1] == "" && "//"[1..] == "/";
    }
  }

  /** The empty string is not a router path: no record, not even the root record, matches it. */
  lemma EmptyPathUnmatched()
    ensures Matched("") == []
  {
  }

  /** Exactly the '/boards' and '/board/:id' pages require a token. */
  lemma ProtectedPages(p: string)
    ensures RequiresAuth(Matched(p)) <==>
      exists r <- Matched(p) :: r.name == Some("boards") || r.name == Some("board")
  {
  }

  /** '/board/<id>', for any id without '/', requires a token; without one it goes to '/auth'. */
  lemma BoardPageProtected(id: string, token: Option<string>)
    requires id != "" && forall k :: 0 <= k < |id| ==> id[k] != '/'
    ensures RequiresAuth(Matched("/board/" + id))
    ensures !HasToken(token) ==> Guard("/board/" + id, token) == RedirectTo("/auth")
  {
    var p := "/board/" + id;
    assert SegmentEnd(p, 1) == 6 by {
      assert p[6] == '/';
      assert p[1..6] == "board";
    }
    assert SegmentEnd(p, 7) == |p| by {
      forall k | 7 <= k < |p| ensures p[k] != '/' {
        assert p[k] == id[k - 7];
      }
      SegmentEndNoSlash(p, 7);
    }
    assert p[1..6] == "board" && p[7..|p|] == id && p[|p|..] == "";
    assert Matches(Routes[3].pattern, p);
    AtMostOneMatch(p);
  }

  /** Without a '/' from `i` on, the segment runs to the end of the path. */
  lemma {:induction false} SegmentEndNoSlash(p: string, i: nat)
    requires i <= |p| && forall k :: i <= k < |p| ==> p[k] != '/'
    ensures SegmentEnd(p, i) == |p|
    decreases |p| - i
  {
    if i < |p| {
      SegmentEndNoSlash(p, i + 1);
    }
  }

  /** '/canvas' has no `meta`, so the guard never stops a navigation to it. */
  lemma CanvasIsOpen(p: string, token: Option<string>)
    requires Matches(Routes[4].pattern, p)
    ensures Matched(p) == [Routes[4]]
    ensures Guard(p, token) == Proceed
  {
    AtMostOneMatch(p);
  }

  /** An empty stored token is treated as no token at all. */
  lemma EmptyTokenIsNoToken(p: string)
    ensures Guard(p, Some("")) == Guard(p, None)
  {
  }

  /**
   * The login-page check compares `to.path` with '/auth' exactly, while the record also
   * matches '/auth/' and '/AUTH': with a token those reach the login page unredirected.
   */
  lemma AuthPageVariants(token: Option<string>)
    requires HasToken(token)
    ensures Matched("/auth/") == [Routes[1]] && Guard("/auth/", token) == Proceed
    ensures Matched("/AUTH") == [Routes[1]] && Guard("/AUTH", token) == Proceed
    ensures Guard("/auth", token) == RedirectTo("/boards")
  {
    assert SegmentEnd("/auth/", 1) == 5;
    assert "/auth/"[1..5] == "auth" && "/auth/"[5..] == "/";
    assert Matches(Routes[1].pattern, "/auth/");
    assert SegmentEnd("/AUTH", 1) == 5;
    assert "/AUTH"[1..5] == "AUTH" && "/AUTH"[5..] == "";
    assert Matches(Routes[1].pattern, "/AUTH");
    AtMostOneMatch("/auth/");
    AtMostOneMatch("/AUTH");
    KnownPaths();
  }
}
