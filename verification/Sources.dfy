/** From a route's peer groups to the ordered peers of its openresty configuration. */
module Sources {
  import opened Text
  import opened Config

  datatype Group = Group(use: string, priority: int, maxConcurrency: int, fromBackend: bool, probePath: string)

  datatype Source = Source(target: string, priority: int, maxConcurrency: int, probePath: string)

  type PeersByTarget = map<string, seq<Peer>>

  const BACKEND := "backend"
  const CART := "cart"
  const BACKEND_SVC := "backend-svc"

  function PeersOf(byTarget: PeersByTarget, target: string): seq<Peer> {
    if target in byTarget then byTarget[target] else []
  }

  // ---- Groups to sources ----

  /** The concurrency of one backend: that of the last backend group that has one. */
  function PerBackend(groups: seq<Group>): int {
    if groups == [] then 0
    else
      var g := groups[|groups| - 1];
      if g.use == BACKEND && g.maxConcurrency > 0 then g.maxConcurrency else PerBackend(groups[..|groups| - 1])
  }

  /** A group counts unless it names a cart the route does not have, or a VIP that was not resolved. */
  predicate Used(g: Group, hasCart: bool, byTarget: PeersByTarget) {
    (g.use == CART ==> hasCart) && (g.use == BACKEND_SVC ==> PeersOf(byTarget, BACKEND_SVC) != [])
  }

  /** `all` is the concurrency of all the backends together. */
  function SourceOf(g: Group, all: int): Source {
    Source(
      g.use, g.priority,
      if g.use == CART && g.fromBackend then all else g.maxConcurrency,
      if g.probePath == "" && g.use == CART then "/health" else g.probePath)
  }

  function SourcesOf(groups: seq<Group>, hasCart: bool, byTarget: PeersByTarget, all: int)
    : seq<Source>
  {
    if groups == [] then []
    else
      var g := groups[|groups| - 1];
      SourcesOf(groups[..|groups| - 1], hasCart, byTarget, all)
        + if Used(g, hasCart, byTarget) then [SourceOf(g, all)] else []
  }

  /** The loops of `Reconcile` that turn the groups into sources. */
  method BuildSources(groups: seq<Group>, hasCart: bool, byTarget: PeersByTarget, backends: nat)
    returns (sources: seq<Source>)
    ensures sources == SourcesOf(groups, hasCart, byTarget, PerBackend(groups) * backends)
  {
    var perBackend := 0;
    for i := 0 to |groups|
      invariant perBackend == PerBackend(groups[..i])
    {
      assert groups[..i + 1][..i] == groups[..i];
      if groups[i].use == BACKEND && groups[i].maxConcurrency > 0 {
        perBackend := groups[i].maxConcurrency;
      }
    }
    assert groups[..|groups|] == groups;
    sources := [];
    for i := 0 to |groups|
      invariant sources == SourcesOf(groups[..i], hasCart, byTarget, perBackend * backends)
    {
      var g := groups[i];
      assert groups[..i + 1][..i] == groups[..i];
      if g.use == CART && !hasCart {
        continue;
      }
      if g.use == BACKEND_SVC && PeersOf(byTarget, BACKEND_SVC) == [] {
        continue;
      }
      var mc := g.maxConcurrency;
      if g.use == CART && g.fromBackend {
        mc := perBackend * backends;
      }
      var probePath := g.probePath;
      if probePath == "" && g.use == CART {
        probePath := "/health";
      }
      sources := sources + [Source(g.use, g.priority, mc, probePath)];
    }
  }

  // ---- Sources to peers ----

  /** A peer keeps its name; without one it is called after its node, or after its place in the target. */
  function NamedPeer(p: Peer, target: string, i: nat): Peer {
    if p.name != "" then p
    else p.(name := if p.node != "" then p.node else target + "-" + Decimal(i))
  }

  /** `nameUnnamed`. */
  method NameUnnamed(peers: seq<Peer>, target: string) returns (out: seq<Peer>)
    ensures |out| == |peers| && forall i :: 0 <= i < |out| ==> out[i] == NamedPeer(peers[i], target, i)
  {
    var named := new Peer[|peers|](i requires 0 <= i < |peers| => peers[i]);
    for i := 0 to |peers|
      invariant forall j :: 0 <= j < i ==> named[j] == NamedPeer(peers[j], target, j)
    {
      var p := peers[i];
      if p.name == "" {
        if p.node != "" {
          p := p.(name := p.node);
        } else {
          p := p.(name := target + "-" + Decimal(i));
        }
      }
      named[i] := p;
    }
    out := named[..];
  }

  /** The overrides of a source: each applies unless it is the zero value. */
  function Overridden(p: Peer, s: Source): Peer {
    p.(priority := if s.priority != 0 then s.priority else p.priority,
       maxConcurrency := if s.maxConcurrency != 0 then s.maxConcurrency else p.maxConcurrency,
       probePath := if s.probePath != "" then s.probePath else p.probePath)
  }

  function PeersOfSource(peers: seq<Peer>, s: Source): (r: seq<Peer>)
    ensures |r| == |peers|
    ensures forall i :: 0 <= i < |r| ==> r[i] == Overridden(NamedPeer(peers[i], s.target, i), s)
  {
    seq(|peers|, i requires 0 <= i < |peers| => Overridden(NamedPeer(peers[i], s.target, i), s))
  }

  /** All the sources' peers, source after source. */
  function Resolved(byTarget: PeersByTarget, sources: seq<Source>): seq<Peer> {
    if sources == [] then []
    else
      var s := sources[|sources| - 1];
      Resolved(byTarget, sources[..|sources| - 1]) + PeersOfSource(PeersOf(byTarget, s.target), s)
  }

  const NO_OVERRIDE := Source("", 0, 0, "")

  /** The inner loop of `ResolveSources`: one source's peers, named and overridden, are appended. */
  method AppendSource(all: seq<Peer>, peers: seq<Peer>, src: Source) returns (r: seq<Peer>)
    ensures r == all + PeersOfSource(peers, src)
  {
    var named := NameUnnamed(peers, src.target);
    ghost var own := PeersOfSource(peers, src);
    r := all;
    for j := 0 to |named|
      invariant r == all + own[..j]
    {
      var p := named[j];
      if src.priority != 0 { p := p.(priority := src.priority); }
      if src.maxConcurrency != 0 { p := p.(maxConcurrency := src.maxConcurrency); }
      if src.probePath != "" { p := p.(probePath := src.probePath); }
      assert p == own[j] && own[..j + 1] == own[..j] + [own[j]];
      r := r + [p];
    }
    assert own[..|named|] == own;
  }

  /** `ResolveSources`: without sources, the peers of the single target. */
  method ResolveSources(byTarget: PeersByTarget, sources: seq<Source>, single: string) returns (all: seq<Peer>)
    ensures all == if sources == [] then PeersOfSource(PeersOf(byTarget, single), NO_OVERRIDE.(target := single))
                   else Resolved(byTarget, sources)
  {
    if |sources| == 0 {
      all := NameUnnamed(PeersOf(byTarget, single), single);
      return;
    }
    all := [];
    for i := 0 to |sources|
      invariant all == Resolved(byTarget, sources[..i])
    {
      all := AppendSource(all, PeersOf(byTarget, sources[i].target), sources[i]);
      assert sources[..i + 1][..i] == sources[..i];
    }
    assert sources[..|sources|] == sources;
  }

  // ---- What a written route contains ----

  /** The peers of a route: groups to sources to peers. */
  function RoutePeers(groups: seq<Group>, hasCart: bool, byTarget: PeersByTarget): seq<Peer> {
    var backends := PeersOf(byTarget, BACKEND);
    var sources := SourcesOf(groups, hasCart, byTarget, PerBackend(groups) * |backends|);
    if sources == [] then PeersOfSource(backends, NO_OVERRIDE.(target := BACKEND)) else Resolved(byTarget, sources)
  }

  /** The peers handed to the renderer. */
  method BuildRoutePeers(groups: seq<Group>, hasCart: bool, byTarget: PeersByTarget) returns (peers: seq<Peer>)
    ensures peers == RoutePeers(groups, hasCart, byTarget)
  {
    var sources := BuildSources(groups, hasCart, byTarget, |PeersOf(byTarget, BACKEND)|);
    peers := ResolveSources(byTarget, sources, BACKEND);
  }

  /** A source for every used group, and only for those. */
  lemma {:induction false} SourcesAreUsedGroups(
    groups: seq<Group>, hasCart: bool, byTarget: PeersByTarget, all: int, s: Source)
    ensures s in SourcesOf(groups, hasCart, byTarget, all) <==>
            exists g :: g in groups && Used(g, hasCart, byTarget) && s == SourceOf(g, all)
  {
    if groups == [] {
    } else {
      var n := |groups| - 1;
      SourcesAreUsedGroups(groups[..n], hasCart, byTarget, all, s);
      assert groups == groups[..n] + [groups[n]];
    }
  }

  /** The result holds the peers of the sources and nothing else. */
  lemma {:induction false} ResolvedPeers(byTarget: PeersByTarget, sources: seq<Source>, p: Peer)
    ensures p in Resolved(byTarget, sources) <==>
            exists s :: s in sources && p in PeersOfSource(PeersOf(byTarget, s.target), s)
  {
    if sources == [] {
    } else {
      var n := |sources| - 1;
      ResolvedPeers(byTarget, sources[..n], p);
      assert sources == sources[..n] + [sources[n]];
    }
  }

  lemma {:induction false} ResolvedEmpty(byTarget: PeersByTarget, sources: seq<Source>)
    ensures Resolved(byTarget, sources) == [] <==> forall s :: s in sources ==> PeersOf(byTarget, s.target) == []
  {
    if sources == [] {
    } else {
      var n := |sources| - 1;
      ResolvedEmpty(byTarget, sources[..n]);
      assert sources == sources[..n] + [sources[n]];
    }
  }

  /** The route has no peers exactly when none of its used groups finds one, and some group is used. */
  lemma EmptyWhenNothingFound(groups: seq<Group>, hasCart: bool, byTarget: PeersByTarget)
    requires PeersOf(byTarget, BACKEND) != []
    ensures RoutePeers(groups, hasCart, byTarget) == [] <==>
            && (exists g :: g in groups && Used(g, hasCart, byTarget))
            && (forall g :: g in groups && Used(g, hasCart, byTarget) ==> PeersOf(byTarget, g.use) == [])
  {
    var all := PerBackend(groups) * |PeersOf(byTarget, BACKEND)|;
    var sources := SourcesOf(groups, hasCart, byTarget, all);
    forall s
      ensures s in sources <==>
              exists g :: g in groups && Used(g, hasCart, byTarget) && s == SourceOf(g, all)
    {
      SourcesAreUsedGroups(groups, hasCart, byTarget, all, s);
    }
    ResolvedEmpty(byTarget, sources);
    forall g | g in groups && Used(g, hasCart, byTarget)
      ensures SourceOf(g, all) in sources && SourceOf(g, all).target == g.use
    {
    }
    assert sources != [] ==> sources[0] in sources;
  }

  /** With backends, a route is written without peers exactly when no group uses the backends or a resolved
      VIP, and some group uses a configured cart, of which no peer was found. In particular a route with a
      backend group, or whose groups resolve to no source at all, never loses all its peers. */
  lemma EmptyRouteExactly(groups: seq<Group>, hasCart: bool, byTarget: PeersByTarget)
    requires forall g :: g in groups ==> g.use in {BACKEND, CART, BACKEND_SVC}
    requires PeersOf(byTarget, BACKEND) != []
    ensures RoutePeers(groups, hasCart, byTarget) == [] <==>
            && hasCart && PeersOf(byTarget, CART) == []
            && (exists g :: g in groups && g.use == CART)
            && (forall g :: g in groups ==> g.use == CART || (g.use == BACKEND_SVC && PeersOf(byTarget, BACKEND_SVC) == []))
  {
    EmptyWhenNothingFound(groups, hasCart, byTarget);
    assert forall g :: g in groups && !Used(g, hasCart, byTarget) ==> g.use == CART || g.use == BACKEND_SVC;
  }

  /** `c` is the concurrency of the last backend group that gives one, or zero when none does. */
  ghost predicate GivenPerBackend(groups: seq<Group>, c: int) {
    || (c == 0 && forall g :: g in groups ==> g.use != "backend" || g.maxConcurrency <= 0)
    || (exists i :: 0 <= i < |groups| && groups[i].use == "backend" && groups[i].maxConcurrency == c > 0
          && forall j :: i < j < |groups| ==> groups[j].use != "backend" || groups[j].maxConcurrency <= 0)
  }

  lemma {:induction false} PerBackendIsGiven(groups: seq<Group>)
    ensures GivenPerBackend(groups, PerBackend(groups))
  {
    if groups == [] {
    } else {
      var n := |groups| - 1;
      PerBackendIsGiven(groups[..n]);
      assert groups == groups[..n] + [groups[n]];
    }
  }

  /** `p` is the peer `q`, found at place `i` of the group's target, as the group wants it: under its own name,
      its node's or one made of its place; and with what the group says of priority, concurrency and probe path,
      or its own where the group says nothing. A cart is probed at "/health" unless told otherwise, and may take
      the concurrency of all the backends together. */
  ghost predicate AsWanted(p: Peer, q: Peer, i: nat, g: Group, all: int) {
    var concurrency := if g.use == "cart" && g.fromBackend then all else g.maxConcurrency;
    && p.ip == q.ip && p.port == q.port && p.node == q.node && p.gpu == q.gpu && p.maxLoad == q.maxLoad
    && (q.name != "" ==> p.name == q.name)
    && (q.name == "" && q.node != "" ==> p.name == q.node)
    && (q.name == "" && q.node == "" ==> p.name == g.use + "-" + Decimal(i))
    && p.priority == (if g.priority == 0 then q.priority else g.priority)
    && p.maxConcurrency == (if concurrency == 0 then q.maxConcurrency else concurrency)
    && p.probePath == if g.probePath != "" then g.probePath else if g.use == "cart" then "/health" else q.probePath
  }

  /** Some group in use finds this peer, in this form. */
  ghost predicate Contributed(groups: seq<Group>, hasCart: bool, byTarget: PeersByTarget, c: int, p: Peer) {
    exists g, i :: g in groups && InUse(g, hasCart, byTarget)
      && 0 <= i < |PeersOf(byTarget, g.use)| && AsWanted(p, PeersOf(byTarget, g.use)[i], i, g, c)
  }

  /** A cart needs one in the spec, and the backends' VIP needs to have been resolved. */
  ghost predicate InUse(g: Group, hasCart: bool, byTarget: PeersByTarget) {
    (g.use != "cart" || hasCart) && (g.use != "backend-svc" || PeersOf(byTarget, "backend-svc") != [])
  }

  lemma WantedIsOverridden(p: Peer, q: Peer, i: nat, g: Group, all: int)
    ensures AsWanted(p, q, i, g, all) <==> p == Overridden(NamedPeer(q, g.use, i), SourceOf(g, all))
  {
  }

  lemma SourcePeersAre(g: Group, all: int, peers: seq<Peer>, p: Peer)
    ensures p in PeersOfSource(peers, SourceOf(g, all)) <==>
            exists i :: 0 <= i < |peers| && AsWanted(p, peers[i], i, g, all)
  {
    var r := PeersOfSource(peers, SourceOf(g, all));
    forall i | 0 <= i < |peers|
      ensures AsWanted(p, peers[i], i, g, all) <==> p == r[i]
    {
      WantedIsOverridden(p, peers[i], i, g, all);
    }
  }

  lemma ResolvedIsContributed(groups: seq<Group>, hasCart: bool, byTarget: PeersByTarget, all: int, p: Peer)
    ensures p in Resolved(byTarget, SourcesOf(groups, hasCart, byTarget, all)) <==>
            Contributed(groups, hasCart, byTarget, all, p)
  {
    var sources := SourcesOf(groups, hasCart, byTarget, all);
    ResolvedPeers(byTarget, sources, p);
    if s :| s in sources && p in PeersOfSource(PeersOf(byTarget, s.target), s) {
      SourcesAreUsedGroups(groups, hasCart, byTarget, all, s);
      var g :| g in groups && Used(g, hasCart, byTarget) && s == SourceOf(g, all);
      SourcePeersAre(g, all, PeersOf(byTarget, g.use), p);
    }
    if g, i :| g in groups && InUse(g, hasCart, byTarget)
               && 0 <= i < |PeersOf(byTarget, g.use)| && AsWanted(p, PeersOf(byTarget, g.use)[i], i, g, all) {
      SourcePeersAre(g, all, PeersOf(byTarget, g.use), p);
      SourcesAreUsedGroups(groups, hasCart, byTarget, all, SourceOf(g, all));
    }
  }

  /** What the groups say reaches the peers, and nothing else does: a route with a group in use has exactly the
      peers its groups contribute, where a cart's concurrency is that of one backend times their number. */
  lemma GroupsReachPeers(groups: seq<Group>, hasCart: bool, byTarget: PeersByTarget, g: Group, p: Peer)
    returns (perBackend: int)
    requires g in groups && InUse(g, hasCart, byTarget)
    ensures GivenPerBackend(groups, perBackend)
    ensures p in RoutePeers(groups, hasCart, byTarget) <==>
            Contributed(groups, hasCart, byTarget, perBackend * |PeersOf(byTarget, "backend")|, p)
  {
    perBackend := PerBackend(groups);
    PerBackendIsGiven(groups);
    var all := perBackend * |PeersOf(byTarget, BACKEND)|;
    SourcesAreUsedGroups(groups, hasCart, byTarget, all, SourceOf(g, all));
    ResolvedIsContributed(groups, hasCart, byTarget, all, p);
  }

  /** A route without a group in use has its backends as peers, as they are but for their names. */
  lemma UngroupedRoute(groups: seq<Group>, hasCart: bool, byTarget: PeersByTarget)
    requires forall g :: g in groups ==> !InUse(g, hasCart, byTarget)
    ensures var peers, backends := RoutePeers(groups, hasCart, byTarget), PeersOf(byTarget, "backend");
      && |peers| == |backends|
      && forall i :: 0 <= i < |peers| ==>
           var q := backends[i];
           peers[i] == q.(name := if q.name != "" then q.name else if q.node != "" then q.node else "backend-" + Decimal(i))
  {
    var all := PerBackend(groups) * |PeersOf(byTarget, BACKEND)|;
    var sources := SourcesOf(groups, hasCart, byTarget, all);
    if sources != [] {
      SourcesAreUsedGroups(groups, hasCart, byTarget, all, sources[0]);
    }
    assert forall i :: 0 <= i ==> "backend" + "-" + Decimal(i) == "backend-" + Decimal(i);
  }

  /** Every peer of a written route has a name. */
  lemma PeersAreNamed(byTarget: PeersByTarget, sources: seq<Source>, p: Peer)
    requires p in Resolved(byTarget, sources)
    ensures p.name != ""
  {
    ResolvedPeers(byTarget, sources, p);
    var s :| s in sources && p in PeersOfSource(PeersOf(byTarget, s.target), s);
    var i :| 0 <= i < |PeersOf(byTarget, s.target)| && p == PeersOfSource(PeersOf(byTarget, s.target), s)[i];
    assert |s.target + "-" + Decimal(i)| > 0;
  }
}
