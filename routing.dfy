/**
 * The realtime route table of `community/routing.py`: three regular-expression
 * routes, each a literal prefix, one captured parameter of one or more
 * characters from a class, and a closing `/` at the end of the path. The
 * matcher below follows what the regular-expression engine does for these
 * patterns (greedy run, then `/`, then end of input; a route without `^` is
 * searched for at every start position, leftmost first) and is proved equal
 * to a declarative description of the paths each route accepts.
 */
module Routing {
  import opened Wrappers
  import opened JsString
  import ChatClient

  /** `\d` and `[\w-]`, over ASCII. */
  datatype CharClass = Digit | WordOrHyphen

  predicate IsWordChar(c: char)
  {
    ('A' <= c <= 'Z') || ('a' <= c <= 'z') || ('0' <= c <= '9') || c == '_'
  }

  predicate InClass(c: char, cls: CharClass)
  {
    match cls
    case Digit => IsDigit(c)
    case WordOrHyphen => IsWordChar(c) || c == '-'
  }

  predicate AllIn(s: string, cls: CharClass)
  {
    forall m :: 0 <= m < |s| ==> InClass(s[m], cls)
  }

  /** The consumers the routes dispatch to. */
  datatype Consumer = GroupChatConsumer | NotificationConsumer | LiveClassConsumer

  /** The pattern `[^]prefix(?P<param>cls+)/$`; `anchored` says whether it starts with `^`. */
  datatype Route = Route(anchored: bool, prefix: string, param: string, cls: CharClass, consumer: Consumer)

  const CommunityRoute := Route(true, "ws/community/", "slug", WordOrHyphen, GroupChatConsumer)
  const NotificationsRoute := Route(false, "ws/notifications/", "user_id", Digit, NotificationConsumer)
  const LiveClassRoute := Route(true, "ws/live-class/", "class_id", Digit, LiveClassConsumer)

  /** `websocket_urlpatterns`, in order. */
  const WebsocketUrlPatterns: seq<Route> := [CommunityRoute, NotificationsRoute, LiveClassRoute]

  /** The greedy `cls+` scan: the end of the longest run of class characters from `j`. */
  function SpanEnd(path: string, j: nat, cls: CharClass): (k: nat)
    requires j <= |path|
    ensures j <= k <= |path|
    ensures forall m :: j <= m < k ==> InClass(path[m], cls)
    ensures k == |path| || !InClass(path[k], cls)
    decreases |path| - j
  {
    if j < |path| && InClass(path[j], cls) then SpanEnd(path, j + 1, cls) else j
  }

  /** The scan stops at the first character outside the class. */
  lemma {:induction false} SpanEndStops(path: string, j: nat, k: nat, cls: CharClass)
    requires j <= k < |path|
    requires forall m :: j <= m < k ==> InClass(path[m], cls)
    requires !InClass(path[k], cls)
    ensures SpanEnd(path, j, cls) == k
    decreases k - j
  {
    if j < k {
      SpanEndStops(path, j + 1, k, cls);
    }
  }

  /** The route tried with its match starting at `i`: the prefix, a non-empty greedy run, `/`, end of input. */
  function MatchAt(path: string, i: nat, r: Route): Option<string>
    requires i <= |path|
  {
    var j := i + |r.prefix|;
    if j <= |path| && path[i..j] == r.prefix then
      var k := SpanEnd(path, j, r.cls);
      if k > j && k + 1 == |path| && path[k] == '/' then Some(path[j..k]) else None
    else None
  }

  /** `re.search` from position `i` on: the leftmost start at which the route matches. */
  function SearchFrom(path: string, i: nat, r: Route): Option<string>
    requires i <= |path|
    decreases |path| - i
  {
    var m := MatchAt(path, i, r);
    if m.Some? || i == |path| then m else SearchFrom(path, i + 1, r)
  }

  /** The captured parameter when `path` matches the route. */
  function MatchRoute(path: string, r: Route): Option<string>
  {
    if r.anchored then MatchAt(path, 0, r) else SearchFrom(path, 0, r)
  }

  /** The path from position `i` on is the route's prefix, then `cap` (non-empty, in the class), then `/`. */
  ghost predicate MatchesAt(path: string, i: int, r: Route, cap: string)
  {
    0 <= i <= |path| && path[i..] == r.prefix + cap + "/" && cap != [] && AllIn(cap, r.cls)
  }

  /** What the matcher at one position captures has the declarative shape. */
  lemma MatchAtSound(path: string, i: nat, r: Route, cap: string)
    requires i <= |path| && MatchAt(path, i, r) == Some(cap)
    ensures MatchesAt(path, i, r, cap)
  {
    var j := i + |r.prefix|;
    var k := SpanEnd(path, j, r.cls);
    assert path[i..] == path[i..j] + path[j..k] + path[k..];
    assert path[k..] == "/";
  }

  /** A path of the declarative shape is accepted by the matcher, which captures the parameter. */
  lemma MatchAtComplete(path: string, i: nat, r: Route, cap: string)
    requires MatchesAt(path, i, r, cap)
    ensures MatchAt(path, i, r) == Some(cap)
  {
    var j := i + |r.prefix|;
    var k := j + |cap|;
    var whole := r.prefix + cap + "/";
    assert path[i..j] == whole[..|r.prefix|] == r.prefix;
    assert path[j..k] == whole[|r.prefix|..|r.prefix| + |cap|] == cap;
    assert path[k] == whole[|r.prefix| + |cap|] == '/';
    assert !InClass('/', r.cls);
    forall m | j <= m < k
      ensures InClass(path[m], r.cls)
    {
      assert path[m] == cap[m - j];
    }
    SpanEndStops(path, j, k, r.cls);
  }

  /** The matcher at one position accepts exactly the declarative shape, capturing exactly the parameter. */
  lemma MatchAtIff(path: string, i: nat, r: Route, cap: string)
    requires i <= |path|
    ensures MatchAt(path, i, r) == Some(cap) <==> MatchesAt(path, i, r, cap)
  {
    if MatchAt(path, i, r) == Some(cap) {
      MatchAtSound(path, i, r, cap);
    }
    if MatchesAt(path, i, r, cap) {
      MatchAtComplete(path, i, r, cap);
    }
  }

  /** What the search finds is a match at some start position. */
  lemma {:induction false} SearchFromSound(path: string, i: nat, r: Route, cap: string)
    requires i <= |path| && SearchFrom(path, i, r) == Some(cap)
    ensures exists k :: i <= k <= |path| && MatchesAt(path, k, r, cap)
    decreases |path| - i
  {
    if MatchAt(path, i, r).Some? {
      MatchAtIff(path, i, r, cap);
    } else {
      SearchFromSound(path, i + 1, r, cap);
    }
  }

  /** If the route matches at some start position, the search finds a match. */
  lemma {:induction false} SearchFromComplete(path: string, i: nat, r: Route, k: nat, cap: string)
    requires i <= k <= |path| && MatchesAt(path, k, r, cap)
    ensures SearchFrom(path, i, r).Some?
    decreases k - i
  {
    if MatchAt(path, i, r).None? {
      if i == k {
        MatchAtIff(path, k, r, cap);
      } else {
        SearchFromComplete(path, i + 1, r, k, cap);
      }
    }
  }

  /** A search over positions where the route never matches finds nothing. */
  lemma {:induction false} SearchFromNone(path: string, i: nat, r: Route)
    requires i <= |path|
    requires forall k :: i <= k <= |path| ==> MatchAt(path, k, r).None?
    ensures SearchFrom(path, i, r).None?
    decreases |path| - i
  {
    if i < |path| {
      SearchFromNone(path, i + 1, r);
    }
  }

  /** An anchored route matches a path exactly when the whole path is prefix, parameter, `/`. */
  lemma AnchoredRouteIff(path: string, r: Route, cap: string)
    requires r.anchored
    ensures MatchRoute(path, r) == Some(cap) <==> path == r.prefix + cap + "/" && cap != [] && AllIn(cap, r.cls)
  {
    MatchAtIff(path, 0, r, cap);
    assert path[0..] == path;
  }

  /** What an anchored route captures is the part of the path between its prefix and the closing `/`. */
  lemma AnchoredRouteCapture(path: string, r: Route)
    requires r.anchored
    ensures MatchRoute(path, r).Some? ==>
      path == r.prefix + MatchRoute(path, r).value + "/" && MatchRoute(path, r).value != [] && AllIn(MatchRoute(path, r).value, r.cls)
  {
    if MatchRoute(path, r).Some? {
      AnchoredRouteIff(path, r, MatchRoute(path, r).value);
    }
  }

  /** Equal strings with the same prefix and suffix have the same middle. */
  lemma ConcatCancel(p: string, a: string, b: string, q: string)
    ensures p + a + q == p + b + q ==> a == b
  {
    if p + a + q == p + b + q {
      assert |a| == |b|;
      assert a == (p + a + q)[|p|..|p| + |a|];
    }
  }

  /** The live-class route: `ws/live-class/`, one or more digits captured as `class_id`, `/`. */
  lemma LiveClassRouteIff(path: string, classId: string)
    ensures MatchRoute(path, LiveClassRoute) == Some(classId)
      <==> path == "ws/live-class/" + classId + "/" && classId != [] && IsDigits(classId)
  {
    AnchoredRouteIff(path, LiveClassRoute, classId);
  }

  /** An empty or non-numeric class id does not reach the live-class route. */
  lemma LiveClassRouteRejectsBadId(classId: string)
    requires classId == [] || !IsDigits(classId)
    ensures MatchRoute("ws/live-class/" + classId + "/", LiveClassRoute).None?
  {
    var path := "ws/live-class/" + classId + "/";
    var m := MatchRoute(path, LiveClassRoute);
    var v := if m.Some? then m.value else "";
    AnchoredRouteCapture(path, LiveClassRoute);
    ConcatCancel("ws/live-class/", classId, v, "/");
  }

  /** Without its closing `/` a live-class path does not match. */
  lemma LiveClassRouteNeedsTrailingSlash(classId: string)
    requires IsDigits(classId)
    ensures MatchRoute("ws/live-class/" + classId, LiveClassRoute).None?
  {
    var path := "ws/live-class/" + classId;
    var m := MatchRoute(path, LiveClassRoute);
    var v := if m.Some? then m.value else "";
    assert !IsDigits(v + "/") by {
      assert (v + "/")[|v|] == '/';
    }
    AnchoredRouteCapture(path, LiveClassRoute);
    assert "ws/live-class/" + v + "/" == "ws/live-class/" + (v + "/");
    ConcatCancel("ws/live-class/", classId, v + "/", "");
    assert path + "" == path;
  }

  /** The community route captures a slug of word characters and `-`; the whole path must have that shape. */
  lemma CommunityRouteIff(path: string, slug: string)
    ensures MatchRoute(path, CommunityRoute) == Some(slug)
      <==> path == "ws/community/" + slug + "/" && slug != [] && AllIn(slug, WordOrHyphen)
  {
    AnchoredRouteIff(path, CommunityRoute, slug);
  }

  /** A captured slug never contains `/`. */
  lemma CommunitySlugHasNoSlash(path: string, slug: string)
    requires MatchRoute(path, CommunityRoute) == Some(slug)
    ensures forall m :: 0 <= m < |slug| ==> slug[m] != '/'
  {
    CommunityRouteIff(path, slug);
  }

  /** Two placements of `ws/notifications/<digits>/` at the end of one path start at the same position. */
  lemma NotificationMatchUnique(path: string, k1: nat, k2: nat, c1: string, c2: string)
    requires MatchesAt(path, k1, NotificationsRoute, c1) && MatchesAt(path, k2, NotificationsRoute, c2)
    ensures k1 == k2 && c1 == c2
  {
    var prefix := NotificationsRoute.prefix;
    if k1 < k2 {
      NotificationStartsOnlyAtPrefix(path, k1, k2, c1);
    } else if k2 < k1 {
      NotificationStartsOnlyAtPrefix(path, k2, k1, c2);
    }
    assert |c1| == |c2|;
    assert c1 == path[k1 + |prefix|..k1 + |prefix| + |c1|];
    assert c2 == path[k2 + |prefix|..k2 + |prefix| + |c2|];
  }

  /** Inside `ws/notifications/<digits>/` the letter `w` occurs only at its first position. */
  lemma NotificationStartsOnlyAtPrefix(path: string, k1: nat, k2: nat, c1: string)
    requires k1 < k2 <= |path|
    requires MatchesAt(path, k1, NotificationsRoute, c1)
    ensures k2 == |path| || path[k2] != 'w'
  {
    var whole := NotificationsRoute.prefix + c1 + "/";
    if k2 < |path| {
      var d := k2 - k1;
      assert path[k2] == whole[d];
      if d < 17 {
        assert 0 < d;
      } else if d < 17 + |c1| {
        assert whole[d] == c1[d - 17];
      }
    }
  }

  /** The notifications route: some suffix of the path is `ws/notifications/`, digits captured as `user_id`, `/`. */
  lemma NotificationsRouteIff(path: string, userId: string)
    ensures MatchRoute(path, NotificationsRoute) == Some(userId)
      <==> exists k :: MatchesAt(path, k, NotificationsRoute, userId)
  {
    if MatchRoute(path, NotificationsRoute) == Some(userId) {
      SearchFromSound(path, 0, NotificationsRoute, userId);
    }
    if exists k :: MatchesAt(path, k, NotificationsRoute, userId) {
      var k :| MatchesAt(path, k, NotificationsRoute, userId);
      SearchFromComplete(path, 0, NotificationsRoute, k, userId);
      var found := MatchRoute(path, NotificationsRoute).value;
      SearchFromSound(path, 0, NotificationsRoute, found);
      var k' :| 0 <= k' <= |path| && MatchesAt(path, k', NotificationsRoute, found);
      NotificationMatchUnique(path, k, k', userId, found);
    }
  }

  /** Having no `^`, the notifications route also matches behind any leading text. */
  lemma NotificationsRouteUnanchored(lead: string, userId: string)
    requires userId != [] && IsDigits(userId)
    ensures MatchRoute(lead + "ws/notifications/" + userId + "/", NotificationsRoute) == Some(userId)
  {
    var path := lead + "ws/notifications/" + userId + "/";
    assert path[|lead|..] == "ws/notifications/" + userId + "/";
    assert MatchesAt(path, |lead|, NotificationsRoute, userId);
    NotificationsRouteIff(path, userId);
  }

  // ---------------------------------------------------------------------------
  // Dispatch

  /** The consumer a path reaches, with the parameter's name and captured value. */
  datatype Resolution = Resolution(consumer: Consumer, param: string, value: string)

  /** The first route of `routes` that matches `path`. */
  function ResolveIn(path: string, routes: seq<Route>): (res: Option<Resolution>)
    ensures res.Some? ==> exists i :: (0 <= i < |routes| && MatchRoute(path, routes[i]) == Some(res.value.value)
      && res.value.consumer == routes[i].consumer && res.value.param == routes[i].param
      && forall j :: 0 <= j < i ==> MatchRoute(path, routes[j]).None?)
    ensures res.None? <==> forall i :: 0 <= i < |routes| ==> MatchRoute(path, routes[i]).None?
    decreases |routes|
  {
    if routes == [] then None
    else match MatchRoute(path, routes[0])
      case Some(v) => Some(Resolution(routes[0].consumer, routes[0].param, v))
      case None =>
        var rest := ResolveIn(path, routes[1..]);
        assert forall i :: 1 <= i < |routes| ==> routes[i] == routes[1..][i - 1];
        rest
  }

  /** A route that does not match passes the path on to the routes after it. */
  lemma ResolveInSkips(path: string, routes: seq<Route>)
    requires routes != []
    ensures MatchRoute(path, routes[0]).None? ==> ResolveIn(path, routes) == ResolveIn(path, routes[1..])
  {
  }

  /** Dispatch over `websocket_urlpatterns`, of a path whose leading slashes the router has removed (`RouterPath`). */
  function Resolve(path: string): Option<Resolution>
  {
    ResolveIn(path, WebsocketUrlPatterns)
  }

  /** A live-class path is not a community path: they differ at position 3. */
  lemma CommunityRouteMissesLiveClassPath(classId: string)
    ensures MatchRoute("ws/live-class/" + classId + "/", CommunityRoute).None?
  {
    var path := "ws/live-class/" + classId + "/";
    assert path[3] == 'l';
    if 13 <= |path| {
      assert path[0..13][3] == 'l';
    }
  }

  /** Past position 0, a live-class path with a numeric id contains no `w`. */
  lemma LiveClassPathLetters(classId: string, k: nat)
    requires IsDigits(classId)
    requires 0 < k < |"ws/live-class/" + classId + "/"|
    ensures ("ws/live-class/" + classId + "/")[k] != 'w'
  {
    var path := "ws/live-class/" + classId + "/";
    if k < 14 {
      assert path[k] == "ws/live-class/"[k];
    } else if k < 14 + |classId| {
      assert path[k] == classId[k - 14];
    }
  }

  /** A live-class path with a numeric id is not a notifications path at any start position. */
  lemma NotificationsRouteMissesLiveClassPath(classId: string)
    requires IsDigits(classId)
    ensures MatchRoute("ws/live-class/" + classId + "/", NotificationsRoute).None?
  {
    var path := "ws/live-class/" + classId + "/";
    forall k | 0 <= k <= |path|
      ensures MatchAt(path, k, NotificationsRoute).None?
    {
      if k + 17 <= |path| {
        if k == 0 {
          assert path[0..17][3] == 'l';
        } else {
          LiveClassPathLetters(classId, k);
          assert path[k..k + 17][0] == path[k];
        }
      }
    }
    SearchFromNone(path, 0, NotificationsRoute);
  }

  /** Channels' `URLRouter` matches the request path with every leading `/` removed (`path.lstrip("/")`). */
  function RouterPath(path: string): (r: string)
    ensures r == [] || r[0] != '/'
    ensures |r| <= |path| && r == path[|path| - |r|..]
    ensures forall i :: 0 <= i < |path| - |r| ==> path[i] == '/'
  {
    if path != [] && path[0] == '/' then
      var r := RouterPath(path[1..]);
      assert path[1..][|path| - 1 - |r|..] == path[|path| - |r|..];
      r
    else path
  }

  predicate AllSlashes(s: string)
  {
    forall i :: 0 <= i < |s| ==> s[i] == '/'
  }

  /** Slashes in front of a path are stripped with it; any other text in front is kept, and the path behind it too. */
  lemma {:induction false} RouterPathAppend(s: string, t: string)
    ensures AllSlashes(s) ==> RouterPath(s + t) == RouterPath(t)
    ensures !AllSlashes(s) ==> RouterPath(s) != [] && RouterPath(s + t) == RouterPath(s) + t
    decreases |s|
  {
    if s == [] {
      assert s + t == t;
    } else if s[0] == '/' {
      assert (s + t)[1..] == s[1..] + t;
      assert AllSlashes(s) <==> AllSlashes(s[1..]) by {
        assert forall i :: 1 <= i < |s| ==> s[i] == s[1..][i - 1];
      }
      RouterPathAppend(s[1..], t);
    }
  }

  /** The router sees the channel path without its one leading `/`. */
  lemma RouterPathOfChannel(classId: string)
    ensures RouterPath(ChatClient.WsPath(classId)) == "ws/live-class/" + classId + "/"
  {
    assert ChatClient.WsPath(classId)[1..] == "ws/live-class/" + classId + "/";
  }

  /** For a numeric class id, the router sees the channel path `/ws/live-class/<id>/` as one that reaches the live-class consumer with `class_id` equal to the id. */
  lemma ChatPathReachesLiveClass(classId: string)
    requires classId != [] && IsDigits(classId)
    ensures Resolve(RouterPath(ChatClient.WsPath(classId))) == Some(Resolution(LiveClassConsumer, "class_id", classId))
  {
    var path := "ws/live-class/" + classId + "/";
    RouterPathOfChannel(classId);
    CommunityRouteMissesLiveClassPath(classId);
    NotificationsRouteMissesLiveClassPath(classId);
    LiveClassRouteIff(path, classId);
    ResolveInSkips(path, WebsocketUrlPatterns);
    assert WebsocketUrlPatterns[1..] == [NotificationsRoute, LiveClassRoute];
    ResolveInSkips(path, [NotificationsRoute, LiveClassRoute]);
    assert [NotificationsRoute, LiveClassRoute][1..] == [LiveClassRoute];
  }

  /** The same for a class record's numeric id, as the template literal renders it. */
  lemma ClassIdPathReachesLiveClass(id: nat)
    ensures Resolve(RouterPath(ChatClient.WsPath(NatToString(id))))
      == Some(Resolution(LiveClassConsumer, "class_id", NatToString(id)))
  {
    ChatPathReachesLiveClass(NatToString(id));
  }

  /** With a base whose path after its host is at most slashes, the channel the panel opens reaches the live-class consumer. */
  lemma ChannelUrlReachesLiveClass(base: string, id: nat)
    requires ChatClient.LiteralBase(base) && AllSlashes(ChatClient.BasePath(base))
    ensures Resolve(RouterPath(ChatClient.ChannelPath(base, NatToString(id))))
      == Some(Resolution(LiveClassConsumer, "class_id", NatToString(id)))
  {
    ChatClient.ChannelPathShape(base, NatToString(id));
    RouterPathAppend(ChatClient.BasePath(base), ChatClient.WsPath(NatToString(id)));
    ClassIdPathReachesLiveClass(id);
  }

  /** Only a path `ws/live-class/<digits>/` reaches the live-class consumer, and the digits are what it captures. */
  lemma LiveClassConsumerPath(path: string)
    ensures Resolve(path).Some? && Resolve(path).value.consumer == LiveClassConsumer ==>
      path == "ws/live-class/" + Resolve(path).value.value + "/" && IsDigits(Resolve(path).value.value)
  {
    if Resolve(path).Some? && Resolve(path).value.consumer == LiveClassConsumer {
      var i :| 0 <= i < |WebsocketUrlPatterns| && MatchRoute(path, WebsocketUrlPatterns[i]) == Some(Resolve(path).value.value)
        && Resolve(path).value.consumer == WebsocketUrlPatterns[i].consumer;
      assert i == 2;
      LiveClassRouteIff(path, Resolve(path).value.value);
    }
  }

  /**
   * With a base that carries a path after its host other than slashes (such
   * as `https://host/api` or `https://host/ws`), the router sees that path in
   * front of `ws/live-class/`, so the channel reaches no live-class consumer.
   */
  lemma BasePathMissesLiveClass(base: string, classId: string)
    requires ChatClient.LiteralBase(base) && !AllSlashes(ChatClient.BasePath(base))
    ensures var res := Resolve(RouterPath(ChatClient.ChannelPath(base, classId)));
      res.None? || res.value.consumer != LiveClassConsumer
  {
    ChatClient.ChannelPathShape(base, classId);
    RouterPathAppend(ChatClient.BasePath(base), ChatClient.WsPath(classId));
    PrefixedChannelMisses(RouterPath(ChatClient.BasePath(base)), classId);
  }

  /** Any text in front of the channel path keeps it from the live-class consumer: it would need a `w` past position 0. */
  lemma PrefixedChannelMisses(q: string, classId: string)
    requires q != []
    ensures var res := Resolve(q + ChatClient.WsPath(classId));
      res.None? || res.value.consumer != LiveClassConsumer
  {
    var p := q + ChatClient.WsPath(classId);
    assert p[|q| + 1] == 'w';
    NoLiveClassWithLaterW(p, |q| + 1);
  }

  /** A path with a `w` past position 0 reaches no live-class consumer. */
  lemma NoLiveClassWithLaterW(p: string, k: nat)
    requires 0 < k < |p| && p[k] == 'w'
    ensures Resolve(p).None? || Resolve(p).value.consumer != LiveClassConsumer
  {
    LiveClassConsumerPath(p);
    if Resolve(p).Some? && Resolve(p).value.consumer == LiveClassConsumer {
      LiveClassPathLetters(Resolve(p).value.value, k);
      assert false;
    }
  }
}
