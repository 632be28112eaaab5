/** Discovering a target's backends, from EndpointSlices or from pods. */
module Discovery {
  import opened Base
  import opened Config

  datatype Port = Port(name: Option<string>, port: Option<int>)

  datatype Endpoint = Endpoint(ready: Option<bool>, addresses: seq<string>, node: Option<string>)

  datatype Slice = Slice(ports: seq<Port>, endpoints: seq<Endpoint>)

  datatype PodCondition = PodCondition(typ: string, status: string)

  datatype Pod = Pod(deleting: bool, phase: string, ip: string, conditions: seq<PodCondition>, node: string,
                     containers: seq<seq<int>>)

  datatype PortError = NoPort | SeveralPorts | NoSuchName

  /** An address together with the node it is on. */
  type Offer = (string, string)

  // ---- What the lists offer, in listing order ----

  function NodeOf(ep: Endpoint): string {
    if ep.node.Some? then ep.node.value else ""
  }

  /** An endpoint that does not say whether it is ready counts as ready. */
  predicate AdmitsEndpoint(ep: Endpoint, t: Target) {
    t.includeNotReady || ep.ready != Some(false)
  }

  function AddressOffers(addresses: seq<string>, node: string): seq<Offer> {
    if addresses == [] then []
    else
      var i := |addresses| - 1;
      AddressOffers(addresses[..i], node) + if addresses[i] == "" then [] else [(addresses[i], node)]
  }

  function EndpointOffers(endpoints: seq<Endpoint>, t: Target): seq<Offer> {
    if endpoints == [] then []
    else
      var ep := endpoints[|endpoints| - 1];
      EndpointOffers(endpoints[..|endpoints| - 1], t)
        + if AdmitsEndpoint(ep, t) then AddressOffers(ep.addresses, NodeOf(ep)) else []
  }

  function SliceOffers(slices: seq<Slice>, t: Target): seq<Offer> {
    if slices == [] then []
    else SliceOffers(slices[..|slices| - 1], t) + EndpointOffers(slices[|slices| - 1].endpoints, t)
  }

  /** The first Ready condition decides. */
  predicate IsReady(conditions: seq<PodCondition>) {
    conditions != [] &&
    if conditions[0].typ == "Ready" then conditions[0].status == "True" else IsReady(conditions[1..])
  }

  /** The condition at `i` is the first of type "Ready", and it is "True". */
  predicate ReadyAt(conditions: seq<PodCondition>, i: int) {
    && 0 <= i < |conditions| && conditions[i] == PodCondition("Ready", "True")
    && forall j :: 0 <= j < i ==> conditions[j].typ != "Ready"
  }

  lemma {:induction false} IsReadyMeans(conditions: seq<PodCondition>)
    ensures IsReady(conditions) <==> exists i :: ReadyAt(conditions, i)
  {
    if conditions == [] {
    } else if conditions[0].typ == "Ready" {
      assert conditions[0].status == "True" ==> ReadyAt(conditions, 0);
    } else {
      var rest := conditions[1..];
      IsReadyMeans(rest);
      if i :| ReadyAt(rest, i) {
        assert ReadyAt(conditions, i + 1);
      }
      if i :| ReadyAt(conditions, i) {
        assert ReadyAt(rest, i - 1);
      }
    }
  }

  predicate AdmitsPod(p: Pod, t: Target) {
    !p.deleting && p.phase == "Running" && p.ip != "" && (t.includeNotReady || IsReady(p.conditions))
  }

  function PodOffers(pods: seq<Pod>, t: Target): seq<Offer> {
    if pods == [] then []
    else
      var p := pods[|pods| - 1];
      PodOffers(pods[..|pods| - 1], t) + if AdmitsPod(p, t) then [(p.ip, p.node)] else []
  }

  predicate Offered(offers: seq<Offer>, ip: string) {
    exists i :: 0 <= i < |offers| && offers[i].0 == ip
  }

  /** The first offer of every address, in order. */
  function Firsts(offers: seq<Offer>): seq<Offer> {
    if offers == [] then []
    else
      var i := |offers| - 1;
      Firsts(offers[..i]) + if Offered(offers[..i], offers[i].0) then [] else [offers[i]]
  }

  function PeersOf(offers: seq<Offer>, port: int): (r: seq<Peer>)
    ensures |r| == |offers|
    ensures forall i :: 0 <= i < |r| ==> r[i] == FoundPeer(offers[i].0, port, offers[i].1)
  {
    seq(|offers|, i requires 0 <= i < |offers| => FoundPeer(offers[i].0, port, offers[i].1))
  }

  // ---- Sorting ----

  predicate PeerLess(a: Peer, b: Peer) {
    if a.ip != b.ip then StringLess(a.ip, b.ip) else a.port < b.port
  }

  function InsertPeer(p: Peer, s: seq<Peer>): (r: seq<Peer>)
    ensures multiset(r) == multiset(s) + multiset{p}
  {
    if s == [] then [p]
    else if PeerLess(s[0], p) then
      assert s == [s[0]] + s[1..];
      [s[0]] + InsertPeer(p, s[1..])
    else [p] + s
  }

  /** `sortPeers`. */
  function SortPeers(s: seq<Peer>): (r: seq<Peer>)
    ensures multiset(r) == multiset(s)
  {
    if s == [] then []
    else
      assert s == [s[0]] + s[1..];
      InsertPeer(s[0], SortPeers(s[1..]))
  }

  predicate StrictlyByIP(s: seq<Peer>) {
    forall i, j :: 0 <= i < j < |s| ==> StringLess(s[i].ip, s[j].ip)
  }

  predicate DistinctIPs(s: seq<Peer>) {
    forall i, j :: 0 <= i < j < |s| ==> s[i].ip != s[j].ip
  }

  lemma MultisetMembers<T>(a: seq<T>, b: seq<T>)
    requires multiset(a) == multiset(b)
    ensures forall x :: x in a <==> x in b
  {
    assert forall x :: x in a <==> x in multiset(a);
    assert forall x :: x in b <==> x in multiset(b);
  }

  lemma {:induction false} InsertKeepsOrder(p: Peer, s: seq<Peer>)
    requires StrictlyByIP(s) && forall q :: q in s ==> q.ip != p.ip
    ensures StrictlyByIP(InsertPeer(p, s))
  {
    if s == [] {
    } else {
      StringLessTotal(s[0].ip, p.ip);
      if PeerLess(s[0], p) {
        InsertKeepsOrder(p, s[1..]);
        var r := InsertPeer(p, s[1..]);
        MultisetMembers(r, s[1..] + [p]);
        forall j | 0 <= j < |r|
          ensures StringLess(s[0].ip, r[j].ip)
        {
          assert r[j] in s[1..] + [p];
        }
        assert InsertPeer(p, s) == [s[0]] + r;
      } else {
        forall j | 0 <= j < |s|
          ensures StringLess(p.ip, s[j].ip)
        {
          if j > 0 {
            StringLessTransitive(p.ip, s[0].ip, s[j].ip);
          }
        }
      }
    }
  }

  lemma {:induction false} SortIsStrict(s: seq<Peer>)
    requires DistinctIPs(s)
    ensures StrictlyByIP(SortPeers(s))
  {
    if s == [] {
    } else {
      SortIsStrict(s[1..]);
      MultisetMembers(SortPeers(s[1..]), s[1..]);
      InsertKeepsOrder(s[0], SortPeers(s[1..]));
    }
  }

  /** A strictly increasing sequence is determined by its set of elements. */
  lemma {:induction false} StrictOrderUnique(a: seq<Peer>, b: seq<Peer>)
    requires StrictlyByIP(a) && StrictlyByIP(b) && forall p :: p in a <==> p in b
    ensures a == b
  {
    assert a != [] ==> a[0] in b;
    assert b != [] ==> b[0] in a;
    if a == [] || b == [] {
    } else {
      if a[0] != b[0] {
        StringLessTransitive(a[0].ip, b[0].ip, a[0].ip);
        StringLessIrreflexive(a[0].ip);
      }
      forall p
        ensures p in a[1..] <==> p in b[1..]
      {
        StringLessIrreflexive(a[0].ip);
        assert p in a <==> p == a[0] || p in a[1..];
        assert p in b <==> p == b[0] || p in b[1..];
      }
      StrictOrderUnique(a[1..], b[1..]);
    }
  }

  // ---- Ports ----

  /** The positive ports declared by the slices. */
  function DeclaredPorts(slices: seq<Slice>): set<int> {
    set sl, p | sl in slices && p in sl.ports && p.port.Some? && p.port.value > 0 :: p.port.value
  }

  function ContainerPorts(pods: seq<Pod>): set<int> {
    set p, c, n | p in pods && c in p.containers && n in c && n > 0 :: n
  }

  /** `uniquePort`: the only element, if there is exactly one. */
  ghost predicate IsUniquePort(ports: set<int>, r: Result<int, PortError>) {
    match r
    case Ok(p) => ports == {p}
    case Err(e) => if ports == {} then e == NoPort else e == SeveralPorts && forall p :: ports != {p}
  }

  lemma OnlyElement<T>(s: set<T>) returns (x: T)
    requires |s| == 1
    ensures s == {x}
  {
    x :| x in s;
    assert |s - {x}| == 0;
  }

  lemma SomeElement<T>(s: set<T>) returns (x: T)
    requires s != {}
    ensures x in s
  {
    x :| x in s;
  }

  method UniquePort(ports: set<int>) returns (r: Result<int, PortError>)
    ensures IsUniquePort(ports, r)
  {
    if |ports| == 1 {
      ghost var only := OnlyElement(ports);
      assert only in ports;
      var p :| p in ports;
      return Ok(p);
    }
    return Err(if ports == {} then NoPort else SeveralPorts);
  }

  method DerivePortFromSlices(slices: seq<Slice>) returns (r: Result<int, PortError>)
    ensures IsUniquePort(DeclaredPorts(slices), r)
  {
    var found: set<int> := {};
    for i := 0 to |slices|
      invariant found == DeclaredPorts(slices[..i])
    {
      assert slices[..i + 1] == slices[..i] + [slices[i]];
      for j := 0 to |slices[i].ports|
        invariant found == DeclaredPorts(slices[..i]) +
          set p | p in slices[i].ports[..j] && p.port.Some? && p.port.value > 0 :: p.port.value
      {
        var p := slices[i].ports[j];
        assert slices[i].ports[..j + 1] == slices[i].ports[..j] + [p];
        if p.port.Some? && p.port.value > 0 {
          found := found + {p.port.value};
        }
      }
      assert slices[i].ports[..|slices[i].ports|] == slices[i].ports;
    }
    assert slices[..|slices|] == slices;
    r := UniquePort(found);
  }

  method DerivePortFromPods(pods: seq<Pod>) returns (r: Result<int, PortError>)
    ensures IsUniquePort(ContainerPorts(pods), r)
  {
    var found: set<int> := {};
    for i := 0 to |pods|
      invariant found == ContainerPorts(pods[..i])
    {
      assert pods[..i + 1] == pods[..i] + [pods[i]];
      for j := 0 to |pods[i].containers|
        invariant found == ContainerPorts(pods[..i]) +
          set c, n | c in pods[i].containers[..j] && n in c && n > 0 :: n
      {
        var ports := pods[i].containers[j];
        assert pods[i].containers[..j + 1] == pods[i].containers[..j] + [ports];
        var here := set n | n in ports && n > 0;
        found := found + here;
      }
      assert pods[i].containers[..|pods[i].containers|] == pods[i].containers;
    }
    assert pods[..|pods|] == pods;
    r := UniquePort(found);
  }

  predicate IsNamedPort(p: Port, name: string) {
    p.name == Some(name) && p.port.Some? && p.port.value > 0
  }

  /** All the slices' ports, in listing order. */
  function PortList(slices: seq<Slice>): seq<Port> {
    if slices == [] then [] else slices[0].ports + PortList(slices[1..])
  }

  function FirstNamed(ports: seq<Port>, name: string): Result<int, PortError> {
    if ports == [] then Err(NoSuchName)
    else if IsNamedPort(ports[0], name) then Ok(ports[0].port.value)
    else FirstNamed(ports[1..], name)
  }

  method PortByName(slices: seq<Slice>, name: string) returns (r: Result<int, PortError>)
    ensures r == FirstNamed(PortList(slices), name)
  {
    for i := 0 to |slices|
      invariant FirstNamed(PortList(slices), name) == FirstNamed(PortList(slices[i..]), name)
    {
      var rest := slices[i..];
      assert rest[1..] == slices[i + 1..] && rest[0] == slices[i];
      for j := 0 to |slices[i].ports|
        invariant FirstNamed(PortList(slices), name) == FirstNamed(slices[i].ports[j..] + PortList(slices[i + 1..]), name)
      {
        var p := slices[i].ports[j];
        ghost var later := PortList(slices[i + 1..]);
        assert (slices[i].ports[j..] + later)[1..] == slices[i].ports[j + 1..] + later;
        if IsNamedPort(p, name) {
          return Ok(p.port.value);
        }
      }
      assert slices[i].ports[|slices[i].ports|..] + PortList(slices[i + 1..]) == PortList(slices[i + 1..]);
    }
    return Err(NoSuchName);
  }

  // ---- Discover ----

  function Collected(offers: seq<Offer>, port: int): seq<Peer> {
    SortPeers(PeersOf(Firsts(offers), port))
  }

  /** An explicit port wins; a port name picks the first port of that name; otherwise it must be unique. */
  ghost predicate IsSlicePort(slices: seq<Slice>, t: Target, r: Result<int, PortError>) {
    if t.port != 0 then r == Ok(t.port)
    else if t.portName != "" then r == FirstNamed(PortList(slices), t.portName)
    else IsUniquePort(DeclaredPorts(slices), r)
  }

  ghost predicate IsPodPort(pods: seq<Pod>, t: Target, r: Result<int, PortError>) {
    if t.port != 0 then r == Ok(t.port) else IsUniquePort(ContainerPorts(pods), r)
  }

  /** The outcome for a resolved port: its error, or the peers offered. */
  ghost predicate IsOutcome(offers: seq<Offer>, port: Result<int, PortError>, r: Result<seq<Peer>, PortError>) {
    match port
    case Ok(p) => r == Ok(Collected(offers, p))
    case Err(e) => r == Err(e)
  }

  ghost predicate IsDiscovery(t: Target, slices: seq<Slice>, pods: seq<Pod>, r: Result<seq<Peer>, PortError>) {
    if t.service != "" then exists port :: IsSlicePort(slices, t, port) && IsOutcome(SliceOffers(slices, t), port, r)
    else exists port :: IsPodPort(pods, t, port) && IsOutcome(PodOffers(pods, t), port, r)
  }

  /** `seen` and `out` after the offers `offered` have gone by. */
  ghost predicate Collecting(offered: seq<Offer>, port: int, seen: set<string>, out: seq<Peer>) {
    && out == PeersOf(Firsts(offered), port)
    && forall ip :: ip in seen <==> Offered(offered, ip)
  }

  /** One more offer: a new address is appended, an address already seen changes nothing. */
  lemma CollectOne(offered: seq<Offer>, o: Offer, port: int, seen: set<string>, out: seq<Peer>)
    requires Collecting(offered, port, seen, out)
    ensures o.0 in seen ==> Collecting(offered + [o], port, seen, out)
    ensures o.0 !in seen ==> Collecting(offered + [o], port, seen + {o.0}, out + [FoundPeer(o.0, port, o.1)])
  {
    var all := offered + [o];
    assert all[..|all| - 1] == offered;
    forall ip
      ensures Offered(all, ip) <==> ip in seen || ip == o.0
    {
      OfferedAppend(offered, o, ip);
    }
  }

  lemma NextAddress(offered: seq<Offer>, addresses: seq<string>, k: nat, node: string)
    requires k < |addresses|
    ensures var now := offered + AddressOffers(addresses[..k], node);
      offered + AddressOffers(addresses[..k + 1], node) == if addresses[k] == "" then now else now + [(addresses[k], node)]
  {
    assert addresses[..k + 1][..k] == addresses[..k];
  }

  /** The addresses of one endpoint. */
  method CollectAddresses(
    addresses: seq<string>, node: string, port: int, seen: set<string>, out: seq<Peer>, ghost offered: seq<Offer>)
    returns (seen': set<string>, out': seq<Peer>)
    requires Collecting(offered, port, seen, out)
    ensures Collecting(offered + AddressOffers(addresses, node), port, seen', out')
  {
    seen', out' := seen, out;
    assert offered + AddressOffers([], node) == offered;
    for k := 0 to |addresses|
      invariant Collecting(offered + AddressOffers(addresses[..k], node), port, seen', out')
    {
      var addr := addresses[k];
      ghost var now := offered + AddressOffers(addresses[..k], node);
      NextAddress(offered, addresses, k, node);
      if addr == "" {
        continue;
      }
      CollectOne(now, (addr, node), port, seen', out');
      if addr !in seen' {
        seen', out' := seen' + {addr}, out' + [FoundPeer(addr, port, node)];
      }
    }
    assert addresses[..|addresses|] == addresses;
  }

  method CollectEndpoints(
    endpoints: seq<Endpoint>, t: Target, port: int, seen: set<string>, out: seq<Peer>, ghost offered: seq<Offer>)
    returns (seen': set<string>, out': seq<Peer>)
    requires Collecting(offered, port, seen, out)
    ensures Collecting(offered + EndpointOffers(endpoints, t), port, seen', out')
  {
    seen', out' := seen, out;
    assert offered + EndpointOffers([], t) == offered;
    for j := 0 to |endpoints|
      invariant Collecting(offered + EndpointOffers(endpoints[..j], t), port, seen', out')
    {
      var ep := endpoints[j];
      ghost var now := offered + EndpointOffers(endpoints[..j], t);
      assert endpoints[..j + 1][..j] == endpoints[..j];
      if AdmitsEndpoint(ep, t) {
        seen', out' := CollectAddresses(ep.addresses, NodeOf(ep), port, seen', out', now);
        assert offered + EndpointOffers(endpoints[..j + 1], t) == now + AddressOffers(ep.addresses, NodeOf(ep));
      } else {
        assert offered + EndpointOffers(endpoints[..j + 1], t) == now;
      }
    }
    assert endpoints[..|endpoints|] == endpoints;
  }

  /** `discoverEndpointSlices`, over the slices of the service in listing order. */
  method DiscoverEndpointSlices(slices: seq<Slice>, t: Target) returns (r: Result<seq<Peer>, PortError>)
    requires t.service != ""
    ensures IsDiscovery(t, slices, [], r)
  {
    var port: Result<int, PortError> := Ok(t.port);
    if t.port == 0 {
      if t.portName != "" {
        port := PortByName(slices, t.portName);
      } else {
        port := DerivePortFromSlices(slices);
      }
    }
    assert IsSlicePort(slices, t, port);
    if port.Err? {
      r := Err(port.error);
      assert IsOutcome(SliceOffers(slices, t), port, r);
      return;
    }
    var seen: set<string>, out: seq<Peer> := {}, [];
    for i := 0 to |slices|
      invariant Collecting(SliceOffers(slices[..i], t), port.value, seen, out)
    {
      assert slices[..i + 1][..i] == slices[..i];
      seen, out := CollectEndpoints(slices[i].endpoints, t, port.value, seen, out, SliceOffers(slices[..i], t));
    }
    assert slices[..|slices|] == slices;
    r := Ok(SortPeers(out));
    assert IsOutcome(SliceOffers(slices, t), port, r);
  }

  /** `discoverPods`, over the selected pods in listing order. */
  method DiscoverPods(pods: seq<Pod>, t: Target) returns (r: Result<seq<Peer>, PortError>)
    requires t.service == ""
    ensures IsDiscovery(t, [], pods, r)
  {
    var port: Result<int, PortError> := Ok(t.port);
    if t.port == 0 {
      port := DerivePortFromPods(pods);
    }
    assert IsPodPort(pods, t, port);
    if port.Err? {
      r := Err(port.error);
      assert IsOutcome(PodOffers(pods, t), port, r);
      return;
    }
    var seen: set<string>, out: seq<Peer> := {}, [];
    for i := 0 to |pods|
      invariant Collecting(PodOffers(pods[..i], t), port.value, seen, out)
    {
      var p := pods[i];
      assert pods[..i + 1][..i] == pods[..i];
      if !AdmitsPod(p, t) {
        assert PodOffers(pods[..i + 1], t) == PodOffers(pods[..i], t);
        continue;
      }
      CollectOne(PodOffers(pods[..i], t), (p.ip, p.node), port.value, seen, out);
      if p.ip !in seen {
        seen, out := seen + {p.ip}, out + [FoundPeer(p.ip, port.value, p.node)];
      }
    }
    assert pods[..|pods|] == pods;
    r := Ok(SortPeers(out));
    assert IsOutcome(PodOffers(pods, t), port, r);
  }

  // ---- What is discovered ----

  lemma {:induction false} FirstsFacts(offers: seq<Offer>)
    ensures forall o :: o in Firsts(offers) ==> o in offers
    ensures forall ip :: Offered(Firsts(offers), ip) <==> Offered(offers, ip)
    ensures forall i, j :: 0 <= i < j < |Firsts(offers)| ==> Firsts(offers)[i].0 != Firsts(offers)[j].0
  {
    if offers == [] {
    } else {
      var n := |offers| - 1;
      var before, last := offers[..n], offers[n];
      FirstsFacts(before);
      assert offers == before + [last];
      assert Offered(before, last.0) == Offered(Firsts(before), last.0);
      forall ip
        ensures Offered(Firsts(offers), ip) <==> Offered(offers, ip)
      {
        OfferedAppend(before, last, ip);
        OfferedAppend(Firsts(before), last, ip);
        if Offered(before, last.0) {
          assert Firsts(offers) == Firsts(before);
        }
      }
    }
  }

  lemma OfferedAppend(offers: seq<Offer>, o: Offer, ip: string)
    ensures Offered(offers + [o], ip) <==> Offered(offers, ip) || ip == o.0
  {
    var all := offers + [o];
    assert all[|offers|] == o;
    assert forall i :: 0 <= i < |offers| ==> all[i] == offers[i];
  }

  /** The collected peers are the first offers, on the given port. */
  lemma CollectedMembers(offers: seq<Offer>, port: int, p: Peer)
    ensures p in Collected(offers, port) <==> (p.ip, p.node) in Firsts(offers) && p == FoundPeer(p.ip, port, p.node)
  {
    var firsts := Firsts(offers);
    var ps := PeersOf(firsts, port);
    MultisetMembers(SortPeers(ps), ps);
    if p in ps {
      var i :| 0 <= i < |ps| && ps[i] == p;
      assert firsts[i] == (p.ip, p.node);
    }
    if (p.ip, p.node) in firsts && p == FoundPeer(p.ip, port, p.node) {
      var i :| 0 <= i < |firsts| && firsts[i] == (p.ip, p.node);
      assert ps[i] == p;
    }
  }

  /** The peers are strictly increasing by IP, they all carry the port and a node that some offer gives their
      address, and their addresses are exactly those offered. */
  lemma CollectedFacts(offers: seq<Offer>, port: int)
    ensures var r := Collected(offers, port);
      && StrictlyByIP(r)
      && (forall p :: p in r ==>
            p == FoundPeer(p.ip, port, p.node) && (p.ip, p.node) in Firsts(offers) && (p.ip, p.node) in offers)
      && (forall o :: o in Firsts(offers) ==> FoundPeer(o.0, port, o.1) in r)
      && (forall ip :: Offered(offers, ip) <==> exists p :: p in r && p.ip == ip)
  {
    var r, firsts := Collected(offers, port), Firsts(offers);
    FirstsFacts(offers);
    SortIsStrict(PeersOf(firsts, port));
    forall p
      ensures p in r <==> (p.ip, p.node) in firsts && p == FoundPeer(p.ip, port, p.node)
    {
      CollectedMembers(offers, port, p);
    }
    forall o | o in firsts
      ensures FoundPeer(o.0, port, o.1) in r
    {
      CollectedMembers(offers, port, FoundPeer(o.0, port, o.1));
    }
    forall ip
      ensures Offered(offers, ip) <==> exists p :: p in r && p.ip == ip
    {
      OfferedMeans(firsts, ip);
      if o :| o in firsts && o.0 == ip {
        assert FoundPeer(ip, port, o.1) in r;
      }
    }
  }

  /** Nothing before place `i` offers the address that is offered there. */
  ghost predicate OfferedFirst(offers: seq<Offer>, i: int) {
    0 <= i < |offers| && forall j :: 0 <= j < i ==> offers[j].0 != offers[i].0
  }

  ghost predicate IsFirstOffer(offers: seq<Offer>, o: Offer) {
    exists i :: OfferedFirst(offers, i) && offers[i] == o
  }

  lemma FirstOfferAppend(before: seq<Offer>, last: Offer, o: Offer)
    ensures IsFirstOffer(before + [last], o) <==> IsFirstOffer(before, o) || (o == last && !Offered(before, last.0))
  {
    var all, n := before + [last], |before|;
    assert all[n] == last && forall i :: 0 <= i < n ==> all[i] == before[i];
    if i :| OfferedFirst(before, i) && before[i] == o {
      assert OfferedFirst(all, i);
    }
    if i :| OfferedFirst(all, i) && all[i] == o {
      assert i < n ==> OfferedFirst(before, i);
    }
    assert !Offered(before, last.0) ==> OfferedFirst(all, n);
  }

  lemma {:induction false} FirstsAreFirst(offers: seq<Offer>, o: Offer)
    ensures o in Firsts(offers) <==> IsFirstOffer(offers, o)
  {
    if offers == [] {
    } else {
      var n := |offers| - 1;
      FirstsAreFirst(offers[..n], o);
      FirstOfferAppend(offers[..n], offers[n], o);
      assert offers == offers[..n] + [offers[n]];
    }
  }

  /** Of several nodes an address is listed with, its peer has the one listed first. */
  lemma FirstNodeWins(offers: seq<Offer>, port: int, p: Peer)
    requires p in Collected(offers, port)
    ensures IsFirstOffer(offers, (p.ip, p.node))
  {
    CollectedMembers(offers, port, p);
    FirstsAreFirst(offers, (p.ip, p.node));
  }

  lemma OfferedMeans(offers: seq<Offer>, ip: string)
    ensures Offered(offers, ip) <==> exists o :: o in offers && o.0 == ip
  {
  }

  /** Equal addresses are on equal nodes. */
  ghost predicate NodesAgree(offers: seq<Offer>) {
    forall a, b :: a in offers && b in offers && a.0 == b.0 ==> a == b
  }

  lemma CollectedDependsOnSet(a: seq<Offer>, b: seq<Offer>, port: int)
    requires NodesAgree(a) && forall o :: o in a <==> o in b
    ensures Collected(a, port) == Collected(b, port)
  {
    CollectedFacts(a, port);
    CollectedFacts(b, port);
    FirstsKeepAll(a);
    FirstsKeepAll(b);
    StrictOrderUnique(Collected(a, port), Collected(b, port));
  }

  lemma FirstsKeepAll(offers: seq<Offer>)
    requires NodesAgree(offers)
    ensures forall o :: o in offers <==> o in Firsts(offers)
  {
    FirstsFacts(offers);
    forall o | o in offers
      ensures o in Firsts(offers)
    {
      var k :| 0 <= k < |offers| && offers[k] == o;
      assert Offered(offers, o.0);
      var i :| 0 <= i < |Firsts(offers)| && Firsts(offers)[i].0 == o.0;
      assert Firsts(offers)[i] in offers;
    }
  }

  /** `Discover`, for a target over the slices and pods its lists return. */
  method Discover(t: Target, slices: seq<Slice>, pods: seq<Pod>) returns (r: Result<seq<Peer>, PortError>)
    ensures IsDiscovery(t, slices, pods, r)
  {
    if t.service != "" {
      r := DiscoverEndpointSlices(slices, t);
    } else {
      r := DiscoverPods(pods, t);
    }
  }

  /** The endpoint has this address and node, and is not said to be unready, unless that does not matter. */
  ghost predicate EndpointHas(ep: Endpoint, t: Target, ip: string, node: string) {
    && (t.includeNotReady || ep.ready == None || ep.ready == Some(true))
    && ip in ep.addresses && ip != "" && (ep.node == Some(node) || (ep.node == None && node == ""))
  }

  /** The pod has this address and node, is running and not being deleted, and its first "Ready" condition is
      "True", unless that does not matter. */
  ghost predicate PodHas(p: Pod, t: Target, ip: string, node: string) {
    && !p.deleting && p.phase == "Running" && p.ip == ip != "" && p.node == node
    && (t.includeNotReady || exists i :: ReadyAt(p.conditions, i))
  }

  /** What the target's lists hold has this address and node. */
  ghost predicate Listed(t: Target, slices: seq<Slice>, pods: seq<Pod>, ip: string, node: string) {
    if t.service != "" then exists sl, ep :: sl in slices && ep in sl.endpoints && EndpointHas(ep, t, ip, node)
    else exists p :: p in pods && PodHas(p, t, ip, node)
  }

  /** The slices or pods declare this port: a positive one, under the target's port name if it has one. */
  ghost predicate PortListed(t: Target, slices: seq<Slice>, pods: seq<Pod>, n: int) {
    && n > 0
    && if t.service != "" then
         exists sl, p :: sl in slices && p in sl.ports && p.port == Some(n)
           && (t.portName == "" || p.name == Some(t.portName))
       else
         exists p, c :: p in pods && c in p.containers && n in c
  }

  function Offers(t: Target, slices: seq<Slice>, pods: seq<Pod>): seq<Offer> {
    if t.service != "" then SliceOffers(slices, t) else PodOffers(pods, t)
  }

  lemma {:induction false} AddressOffersExactly(addresses: seq<string>, node: string, o: Offer)
    ensures o in AddressOffers(addresses, node) <==> o.0 in addresses && o.0 != "" && o.1 == node
  {
    if addresses == [] {
    } else {
      var n := |addresses| - 1;
      AddressOffersExactly(addresses[..n], node, o);
      assert addresses == addresses[..n] + [addresses[n]];
    }
  }

  lemma EndpointHasMeans(ep: Endpoint, t: Target, o: Offer)
    ensures EndpointHas(ep, t, o.0, o.1) <==>
            AdmitsEndpoint(ep, t) && o.0 in ep.addresses && o.0 != "" && o.1 == NodeOf(ep)
  {
    match ep.ready
    case None =>
    case Some(b) => assert b || ep.ready == Some(false);
  }

  lemma {:induction false} EndpointOffersExactly(endpoints: seq<Endpoint>, t: Target, o: Offer)
    ensures o in EndpointOffers(endpoints, t) <==>
            exists ep :: ep in endpoints && EndpointHas(ep, t, o.0, o.1)
  {
    if endpoints == [] {
    } else {
      var n := |endpoints| - 1;
      EndpointOffersExactly(endpoints[..n], t, o);
      AddressOffersExactly(endpoints[n].addresses, NodeOf(endpoints[n]), o);
      EndpointHasMeans(endpoints[n], t, o);
      assert endpoints == endpoints[..n] + [endpoints[n]];
    }
  }

  lemma {:induction false} SliceOffersExactly(slices: seq<Slice>, t: Target, o: Offer)
    requires t.service != ""
    ensures o in SliceOffers(slices, t) <==> Listed(t, slices, [], o.0, o.1)
  {
    if slices == [] {
    } else {
      var n := |slices| - 1;
      SliceOffersExactly(slices[..n], t, o);
      EndpointOffersExactly(slices[n].endpoints, t, o);
      assert slices == slices[..n] + [slices[n]];
    }
  }

  lemma PodHasMeans(p: Pod, t: Target, o: Offer)
    ensures PodHas(p, t, o.0, o.1) <==> AdmitsPod(p, t) && o == (p.ip, p.node)
  {
    IsReadyMeans(p.conditions);
  }

  lemma {:induction false} PodOffersExactly(pods: seq<Pod>, t: Target, o: Offer)
    requires t.service == ""
    ensures o in PodOffers(pods, t) <==> Listed(t, [], pods, o.0, o.1)
  {
    if pods == [] {
    } else {
      var n := |pods| - 1;
      PodOffersExactly(pods[..n], t, o);
      PodHasMeans(pods[n], t, o);
      assert pods == pods[..n] + [pods[n]];
    }
  }

  lemma OffersExactly(t: Target, slices: seq<Slice>, pods: seq<Pod>, o: Offer)
    ensures o in Offers(t, slices, pods) <==> Listed(t, slices, pods, o.0, o.1)
  {
    if t.service != "" {
      SliceOffersExactly(slices, t, o);
    } else {
      PodOffersExactly(pods, t, o);
    }
  }

  lemma {:induction false} PortListMembers(slices: seq<Slice>, p: Port)
    ensures p in PortList(slices) <==> exists sl :: sl in slices && p in sl.ports
  {
    if slices == [] {
    } else {
      PortListMembers(slices[1..], p);
      assert slices == [slices[0]] + slices[1..];
    }
  }

  lemma {:induction false} FirstNamedIs(ports: seq<Port>, name: string)
    ensures match FirstNamed(ports, name)
      case Ok(n) => exists p :: p in ports && IsNamedPort(p, name) && p.port.value == n
      case Err(e) => e == NoSuchName && forall p :: p in ports ==> !IsNamedPort(p, name)
  {
    if ports == [] {
    } else {
      FirstNamedIs(ports[1..], name);
      assert ports == [ports[0]] + ports[1..];
    }
  }

  lemma DeclaredMeans(t: Target, slices: seq<Slice>, pods: seq<Pod>, n: int)
    ensures t.service != "" && t.portName == "" ==> (n in DeclaredPorts(slices) <==> PortListed(t, slices, pods, n))
    ensures t.service == "" ==> (n in ContainerPorts(pods) <==> PortListed(t, slices, pods, n))
  {
  }

  /** `port` is how the target's port resolves: as given; by its name, to a port listed under it; or else to the
      only port listed. */
  ghost predicate PortResolves(t: Target, slices: seq<Slice>, pods: seq<Pod>, port: Result<int, PortError>) {
    if t.port != 0 then port == Ok(t.port)
    else if t.service != "" && t.portName != "" then
      if port.Ok? then PortListed(t, slices, pods, port.value)
      else port.error == NoSuchName && forall n :: !PortListed(t, slices, pods, n)
    else if port.Ok? then forall n :: PortListed(t, slices, pods, n) <==> n == port.value
    else if port.error == NoPort then forall n :: !PortListed(t, slices, pods, n)
    else
      && port.error == SeveralPorts
      && exists m, n :: m != n && PortListed(t, slices, pods, m) && PortListed(t, slices, pods, n)
  }

  lemma UniquePortMeans(ports: set<int>, port: Result<int, PortError>)
    requires IsUniquePort(ports, port)
    ensures port.Ok? ==> forall n :: n in ports <==> n == port.value
    ensures port.Err? ==>
      if port.error == NoPort then ports == {}
      else port.error == SeveralPorts && exists m, n :: m in ports && n in ports && m != n
  {
    if port == Err(SeveralPorts) {
      var m := SomeElement(ports);
      assert ports - {m} == {} ==> ports == {m};
      var n := SomeElement(ports - {m});
      assert m in ports && n in ports && m != n;
    }
  }

  lemma PortMeans(t: Target, slices: seq<Slice>, pods: seq<Pod>, port: Result<int, PortError>)
    requires if t.service != "" then IsSlicePort(slices, t, port) else IsPodPort(pods, t, port)
    ensures PortResolves(t, slices, pods, port)
  {
    if t.port != 0 {
    } else if t.service != "" && t.portName != "" {
      NamedPortMeans(t, slices, pods, port);
    } else {
      var ports := if t.service != "" then DeclaredPorts(slices) else ContainerPorts(pods);
      forall n
        ensures n in ports <==> PortListed(t, slices, pods, n)
      {
        DeclaredMeans(t, slices, pods, n);
      }
      UniquePortMeans(ports, port);
    }
  }

  lemma NamedPortMeans(t: Target, slices: seq<Slice>, pods: seq<Pod>, port: Result<int, PortError>)
    requires t.service != "" && t.portName != "" && port == FirstNamed(PortList(slices), t.portName)
    ensures port.Ok? ==> PortListed(t, slices, pods, port.value)
    ensures port.Err? ==> port.error == NoSuchName && forall n :: !PortListed(t, slices, pods, n)
  {
    FirstNamedIs(PortList(slices), t.portName);
    forall p
      ensures p in PortList(slices) <==> exists sl :: sl in slices && p in sl.ports
    {
      PortListMembers(slices, p);
    }
    forall n
      ensures PortListed(t, slices, pods, n) <==>
              exists p :: p in PortList(slices) && IsNamedPort(p, t.portName) && p.port.value == n
    {
      if p :| p in PortList(slices) && IsNamedPort(p, t.portName) && p.port.value == n {
        var sl :| sl in slices && p in sl.ports;
        assert p.port == Some(n);
      }
    }
  }

  /** `Discover`, said on the fields of what is listed: the port is resolved or the result is its error, and the
      peers are strictly increasing by address, one for every listed address, on that port and on a node the
      address is listed with. */
  lemma DiscoverRefinesSet(t: Target, slices: seq<Slice>, pods: seq<Pod>, r: Result<seq<Peer>, PortError>)
    returns (port: Result<int, PortError>)
    requires IsDiscovery(t, slices, pods, r)
    ensures PortResolves(t, slices, pods, port)
    ensures port.Err? ==> r == Err(port.error)
    ensures port.Ok? ==>
      && r.Ok? && StrictlyByIP(r.value)
      && (forall p :: p in r.value ==> p == FoundPeer(p.ip, port.value, p.node) && Listed(t, slices, pods, p.ip, p.node))
      && (forall ip, node :: Listed(t, slices, pods, ip, node) ==> exists p :: p in r.value && p.ip == ip)
  {
    var offers := Offers(t, slices, pods);
    port :| (if t.service != "" then IsSlicePort(slices, t, port) else IsPodPort(pods, t, port))
            && IsOutcome(offers, port, r);
    PortMeans(t, slices, pods, port);
    if port.Ok? {
      PeersAreListed(t, slices, pods, port.value);
    }
  }

  lemma PeersAreListed(t: Target, slices: seq<Slice>, pods: seq<Pod>, port: int)
    ensures var r := Collected(Offers(t, slices, pods), port);
      && StrictlyByIP(r)
      && (forall p :: p in r ==> p == FoundPeer(p.ip, port, p.node) && Listed(t, slices, pods, p.ip, p.node))
      && (forall ip, node :: Listed(t, slices, pods, ip, node) ==> exists p :: p in r && p.ip == ip)
  {
    var offers := Offers(t, slices, pods);
    var r := Collected(offers, port);
    CollectedFacts(offers, port);
    forall p | p in r
      ensures Listed(t, slices, pods, p.ip, p.node)
    {
      OffersExactly(t, slices, pods, (p.ip, p.node));
    }
    forall ip, node | Listed(t, slices, pods, ip, node)
      ensures exists p :: p in r && p.ip == ip
    {
      OffersExactly(t, slices, pods, (ip, node));
      var i :| 0 <= i < |offers| && offers[i] == (ip, node);
      assert Offered(offers, ip);
    }
  }

  // ---- Order does not matter ----

  /** The same endpoint, with its addresses in any order. */
  ghost predicate SameEndpoint(a: Endpoint, b: Endpoint) {
    a.ready == b.ready && NodeOf(a) == NodeOf(b) && multiset(a.addresses) == multiset(b.addresses)
  }

  ghost predicate HasEndpoint(endpoints: seq<Endpoint>, e: Endpoint) {
    exists f :: f in endpoints && SameEndpoint(e, f)
  }

  ghost predicate EndpointsCover(a: seq<Endpoint>, b: seq<Endpoint>) {
    forall e {:trigger HasEndpoint(b, e)} :: e in a ==> HasEndpoint(b, e)
  }

  /** The same slice, with its ports and endpoints in any order. */
  ghost predicate SameSlice(a: Slice, b: Slice) {
    && multiset(a.ports) == multiset(b.ports)
    && EndpointsCover(a.endpoints, b.endpoints) && EndpointsCover(b.endpoints, a.endpoints)
  }

  ghost predicate HasSlice(slices: seq<Slice>, s: Slice) {
    exists s' :: s' in slices && SameSlice(s, s')
  }

  /** Every slice of `a` is in `b`, up to the order inside it. */
  ghost predicate Covers(a: seq<Slice>, b: seq<Slice>) {
    forall s {:trigger HasSlice(b, s)} :: s in a ==> HasSlice(b, s)
  }

  ghost predicate Shuffled(a: seq<Slice>, b: seq<Slice>) {
    Covers(a, b) && Covers(b, a)
  }

  lemma ListedCovered(t: Target, a: seq<Slice>, b: seq<Slice>, pods: seq<Pod>, o: Offer)
    requires t.service != "" && Covers(a, b) && Listed(t, a, pods, o.0, o.1)
    ensures Listed(t, b, pods, o.0, o.1)
  {
    var sl, ep :| sl in a && ep in sl.endpoints && EndpointHas(ep, t, o.0, o.1);
    assert HasSlice(b, sl);
    var sl' :| sl' in b && SameSlice(sl, sl');
    assert HasEndpoint(sl'.endpoints, ep);
    var ep' :| ep' in sl'.endpoints && SameEndpoint(ep, ep');
    MultisetMembers(ep.addresses, ep'.addresses);
    EndpointHasMeans(ep, t, o);
    EndpointHasMeans(ep', t, o);
  }

  lemma OffersCovered(t: Target, a: seq<Slice>, b: seq<Slice>, o: Offer)
    requires t.service != "" && Covers(a, b)
    ensures o in SliceOffers(a, t) ==> o in SliceOffers(b, t)
  {
    SliceOffersExactly(a, t, o);
    SliceOffersExactly(b, t, o);
    if Listed(t, a, [], o.0, o.1) {
      ListedCovered(t, a, b, [], o);
    }
  }

  lemma PortsCovered(a: seq<Slice>, b: seq<Slice>, sl: Slice, p: Port)
    requires Covers(a, b) && sl in a && p in sl.ports
    ensures exists sl' :: sl' in b && p in sl'.ports
  {
    assert HasSlice(b, sl);
    var sl' :| sl' in b && SameSlice(sl, sl');
    MultisetMembers(sl.ports, sl'.ports);
  }

  lemma DeclaredCovered(a: seq<Slice>, b: seq<Slice>)
    requires Covers(a, b)
    ensures DeclaredPorts(a) <= DeclaredPorts(b)
  {
    forall n | n in DeclaredPorts(a)
      ensures n in DeclaredPorts(b)
    {
      var sl, p :| sl in a && p in sl.ports && p.port.Some? && p.port.value > 0 && p.port.value == n;
      PortsCovered(a, b, sl, p);
    }
  }

  /** All the slices give the named port the same number. */
  ghost predicate NamedPortsAgree(slices: seq<Slice>, name: string) {
    forall p, q :: p in PortList(slices) && q in PortList(slices) && IsNamedPort(p, name) && IsNamedPort(q, name) ==>
      p.port == q.port
  }

  lemma NamedPortShuffled(a: seq<Slice>, b: seq<Slice>, name: string)
    requires Shuffled(a, b)
    ensures FirstNamed(PortList(a), name).Err? == FirstNamed(PortList(b), name).Err?
    ensures NamedPortsAgree(a, name) || FirstNamed(PortList(a), name).Err? ==>
              FirstNamed(PortList(a), name) == FirstNamed(PortList(b), name)
  {
    FirstNamedIs(PortList(a), name);
    FirstNamedIs(PortList(b), name);
    forall p
      ensures p in PortList(a) <==> p in PortList(b)
    {
      PortListMembers(a, p);
      PortListMembers(b, p);
      if sl :| sl in a && p in sl.ports { PortsCovered(a, b, sl, p); }
      if sl :| sl in b && p in sl.ports { PortsCovered(b, a, sl, p); }
    }
  }

  /** A set of ports has one answer. */
  lemma UniquePortAgrees(ports: set<int>, r: Result<int, PortError>, r': Result<int, PortError>)
    requires IsUniquePort(ports, r) && IsUniquePort(ports, r')
    ensures r == r'
  {
    if r.Ok? && r'.Ok? {
      assert r.value in ports;
    }
  }

  /** The order of the slices cannot change the port that is resolved, or no peer carries it. */
  ghost predicate PortSettled(t: Target, slices: seq<Slice>) {
    t.port != 0 || t.portName == "" || NamedPortsAgree(slices, t.portName) || SliceOffers(slices, t) == []
  }

  /** Listing the slices, and the ports, endpoints and addresses inside them, in any other order gives the
      identical sequence of peers, when equal addresses are on equal nodes and the port is settled. */
  lemma SliceOrderIndependent(
    t: Target, a: seq<Slice>, b: seq<Slice>, r: Result<seq<Peer>, PortError>, r': Result<seq<Peer>, PortError>)
    requires t.service != "" && Shuffled(a, b)
    requires IsDiscovery(t, a, [], r) && IsDiscovery(t, b, [], r')
    requires NodesAgree(SliceOffers(a, t)) && PortSettled(t, a)
    ensures r == r'
  {
    var port :| IsSlicePort(a, t, port) && IsOutcome(SliceOffers(a, t), port, r);
    var port' :| IsSlicePort(b, t, port') && IsOutcome(SliceOffers(b, t), port', r');
    PortShuffled(t, a, b, port, port');
    OffersShuffled(t, a, b);
    if port.Ok? {
      CollectedDependsOnSet(SliceOffers(a, t), SliceOffers(b, t), port.value);
    }
  }

  lemma PortShuffled(t: Target, a: seq<Slice>, b: seq<Slice>, port: Result<int, PortError>, port': Result<int, PortError>)
    requires t.service != "" && Shuffled(a, b)
    requires IsSlicePort(a, t, port) && IsSlicePort(b, t, port')
    ensures port.Ok? == port'.Ok?
    ensures PortSettled(t, a) ==> port == port' || SliceOffers(a, t) == []
    ensures port.Err? ==> port == port'
  {
    DeclaredCovered(a, b);
    DeclaredCovered(b, a);
    if t.port == 0 && t.portName != "" {
      NamedPortShuffled(a, b, t.portName);
      FirstNamedIs(PortList(a), t.portName);
      FirstNamedIs(PortList(b), t.portName);
    } else if t.port == 0 {
      UniquePortAgrees(DeclaredPorts(a), port, port');
    }
  }

  lemma OffersShuffled(t: Target, a: seq<Slice>, b: seq<Slice>)
    requires t.service != "" && Shuffled(a, b)
    ensures forall o :: o in SliceOffers(a, t) <==> o in SliceOffers(b, t)
    ensures SliceOffers(a, t) == [] <==> SliceOffers(b, t) == []
  {
    forall o
      ensures o in SliceOffers(a, t) <==> o in SliceOffers(b, t)
    {
      OffersCovered(t, a, b, o);
      OffersCovered(t, b, a, o);
    }
    assert SliceOffers(a, t) != [] ==> SliceOffers(a, t)[0] in SliceOffers(b, t);
    assert SliceOffers(b, t) != [] ==> SliceOffers(b, t)[0] in SliceOffers(a, t);
  }

  /** `b` is a permutation of `a` whose slices have their ports permuted. */
  ghost predicate Reordered(a: seq<Slice>, within: seq<Slice>, b: seq<Slice>) {
    && multiset(within) == multiset(b)
    && |within| == |a|
    && forall i :: 0 <= i < |a| ==>
         multiset(within[i].ports) == multiset(a[i].ports) && within[i].endpoints == a[i].endpoints
  }

  function ToFront<T>(s: seq<T>, i: nat): (r: seq<T>)
    requires i < |s|
    ensures multiset(r) == multiset(s)
  {
    assert s == s[..i] + [s[i]] + s[i + 1..];
    [s[i]] + s[..i] + s[i + 1..]
  }

  /** A permutation of `a` that lists the named port `p` first of all. */
  lemma ListedFirst(t: Target, a: seq<Slice>, p: Port) returns (within: seq<Slice>, b: seq<Slice>)
    requires p in PortList(a)
    ensures Reordered(a, within, b) && PortList(b) != [] && PortList(b)[0] == p && Shuffled(a, b)
  {
    PortListMembers(a, p);
    var i, j :| 0 <= i < |a| && 0 <= j < |a[i].ports| && a[i].ports[j] == p;
    var slice := a[i].(ports := ToFront(a[i].ports, j));
    within := a[i := slice];
    b := ToFront(within, i);
    assert b[0] == slice && slice.ports[0] == p;
    ReorderedShuffles(a, within, b);
  }

  lemma ReorderedShuffles(a: seq<Slice>, within: seq<Slice>, b: seq<Slice>)
    requires Reordered(a, within, b)
    ensures Shuffled(a, b)
  {
    MultisetMembers(within, b);
    forall s | s in a
      ensures HasSlice(b, s)
    {
      var k :| 0 <= k < |a| && a[k] == s;
      SameEndpoints(s.endpoints, s.endpoints);
      assert within[k] in b && SameSlice(s, within[k]);
    }
    forall s | s in b
      ensures HasSlice(a, s)
    {
      var k :| 0 <= k < |a| && within[k] == s;
      SameEndpoints(s.endpoints, s.endpoints);
      assert SameSlice(s, a[k]);
    }
  }

  /** With `p` listed first, a target that takes its port by the name of `p` finds its peers on that port. */
  lemma FoundOnFirstPort(t: Target, a: seq<Slice>, b: seq<Slice>, p: Port, r: Result<seq<Peer>, PortError>)
    requires t.service != "" && t.port == 0 && t.portName != "" && IsNamedPort(p, t.portName)
    requires Shuffled(a, b) && PortList(b) != [] && PortList(b)[0] == p
    requires SliceOffers(a, t) != [] && r == Ok(Collected(SliceOffers(b, t), p.port.value))
    ensures IsDiscovery(t, b, [], r) && r.value != [] && r.value[0].port == p.port.value
  {
    OffersShuffled(t, a, b);
    var offers := SliceOffers(b, t);
    CollectedFacts(offers, p.port.value);
    assert offers[0].0 == offers[0].0 && Offered(offers, offers[0].0);
    assert r.value[0] in r.value;
    assert IsSlicePort(b, t, Ok(p.port.value)) && IsOutcome(offers, Ok(p.port.value), r);
  }

  /** A port that is not settled does depend on the order: some permutation finds the peers elsewhere. */
  lemma UnsettledPortDependsOnOrder(t: Target, a: seq<Slice>, r: Result<seq<Peer>, PortError>)
    returns (within: seq<Slice>, b: seq<Slice>, r': Result<seq<Peer>, PortError>)
    requires t.service != "" && IsDiscovery(t, a, [], r) && !PortSettled(t, a)
    ensures Reordered(a, within, b) && IsDiscovery(t, b, [], r') && r' != r
  {
    var p, q :| p in PortList(a) && q in PortList(a) && IsNamedPort(p, t.portName) && IsNamedPort(q, t.portName)
                && p.port != q.port;
    within, b := ListedFirst(t, a, p);
    r' := Ok(Collected(SliceOffers(b, t), p.port.value));
    FoundOnFirstPort(t, a, b, p, r');
    if r' == r {
      within, b := ListedFirst(t, a, q);
      r' := Ok(Collected(SliceOffers(b, t), q.port.value));
      FoundOnFirstPort(t, a, b, q, r');
    }
  }

  /** When equal addresses are on equal nodes, discovery is independent of the order exactly when the port is
      settled. */
  lemma OrderMattersExactly(t: Target, a: seq<Slice>, r: Result<seq<Peer>, PortError>)
    requires t.service != "" && IsDiscovery(t, a, [], r) && NodesAgree(SliceOffers(a, t))
    ensures PortSettled(t, a) <==>
            forall within, b, r' :: Reordered(a, within, b) && IsDiscovery(t, b, [], r') ==> r' == r
  {
    if PortSettled(t, a) {
      forall within, b, r' | Reordered(a, within, b) && IsDiscovery(t, b, [], r')
        ensures r' == r
      {
        ReorderedShuffles(a, within, b);
        SliceOrderIndependent(t, a, b, r, r');
      }
    } else {
      var within, b, r' := UnsettledPortDependsOnOrder(t, a, r);
      assert Reordered(a, within, b) && IsDiscovery(t, b, [], r') && r' != r;
    }
  }

  lemma PodsShuffled(t: Target, a: seq<Pod>, b: seq<Pod>)
    requires t.service == "" && multiset(a) == multiset(b)
    ensures ContainerPorts(a) == ContainerPorts(b)
    ensures forall o :: o in PodOffers(a, t) <==> o in PodOffers(b, t)
  {
    MultisetMembers(a, b);
    forall o
      ensures o in PodOffers(a, t) <==> o in PodOffers(b, t)
    {
      PodOffersExactly(a, t, o);
      PodOffersExactly(b, t, o);
    }
  }

  /** The same for the pods of a selector. */
  lemma PodOrderIndependent(
    t: Target, a: seq<Pod>, b: seq<Pod>, r: Result<seq<Peer>, PortError>, r': Result<seq<Peer>, PortError>)
    requires t.service == "" && multiset(a) == multiset(b)
    requires IsDiscovery(t, [], a, r) && IsDiscovery(t, [], b, r')
    requires NodesAgree(PodOffers(a, t))
    ensures r == r'
  {
    var port :| IsPodPort(a, t, port) && IsOutcome(PodOffers(a, t), port, r);
    var port' :| IsPodPort(b, t, port') && IsOutcome(PodOffers(b, t), port', r');
    PodsShuffled(t, a, b);
    if t.port == 0 {
      UniquePortAgrees(ContainerPorts(a), port, port');
    }
    if port.Ok? {
      CollectedDependsOnSet(PodOffers(a, t), PodOffers(b, t), port.value);
    }
  }

  lemma SameEndpoints(a: seq<Endpoint>, b: seq<Endpoint>)
    requires forall e :: e in a ==> e in b
    ensures EndpointsCover(a, b)
  {
    forall e | e in a
      ensures HasEndpoint(b, e)
    {
      assert SameEndpoint(e, e);
    }
  }

  /** Permutations shuffle: of the slices, and of the ports and endpoints inside each of them. */
  lemma PermutationsShuffle(a: seq<Slice>, b: seq<Slice>)
    requires multiset(a) == multiset(b)
      || (|a| == |b| && forall i :: 0 <= i < |a| ==>
           multiset(a[i].ports) == multiset(b[i].ports) && multiset(a[i].endpoints) == multiset(b[i].endpoints))
    ensures Shuffled(a, b)
  {
    if multiset(a) == multiset(b) {
      MultisetMembers(a, b);
      forall s: Slice
        ensures SameSlice(s, s)
      {
        SameEndpoints(s.endpoints, s.endpoints);
      }
    } else {
      forall i | 0 <= i < |a|
        ensures SameSlice(a[i], b[i]) && SameSlice(b[i], a[i])
      {
        MultisetMembers(a[i].endpoints, b[i].endpoints);
        SameEndpoints(a[i].endpoints, b[i].endpoints);
        SameEndpoints(b[i].endpoints, a[i].endpoints);
      }
    }
    forall s | s in a
      ensures HasSlice(b, s)
    {
      var i :| 0 <= i < |a| && a[i] == s;
      assert multiset(a) != multiset(b) ==> b[i] in b && SameSlice(s, b[i]);
    }
    forall s | s in b
      ensures HasSlice(a, s)
    {
      var i :| 0 <= i < |b| && b[i] == s;
      assert multiset(a) != multiset(b) ==> a[i] in a && SameSlice(s, a[i]);
    }
  }

  // ---- GPU types ----

  /** The first peer on `node`. */
  function FirstOn(peers: seq<Peer>, node: string): (i: nat)
    ensures i <= |peers| && (i < |peers| ==> peers[i].node == node)
    ensures forall j :: 0 <= j < i ==> peers[j].node != node
  {
    if peers == [] || peers[0].node == node then 0 else 1 + FirstOn(peers[1..], node)
  }

  /** No peer before peer `k` is on its node. */
  ghost predicate IsFirstOn(peers: seq<Peer>, node: string, k: nat) {
    k < |peers| && peers[k].node == node && forall j :: 0 <= j < k ==> peers[j].node != node
  }

  lemma FirstOnIs(peers: seq<Peer>, i: nat)
    requires i < |peers|
    ensures FirstOn(peers, peers[i].node) <= i
  {
  }

  /** Peer `i` annotated: `answer(k, node)` is what the API server and the normalisation would give for the node
      while peer `k` is handled. A node is asked about once, when its first peer is handled. */
  function Annotated(peers: seq<Peer>, answer: (nat, string) -> string, i: nat): Peer
    requires i < |peers|
  {
    var p := peers[i];
    if p.node == "" then p else p.(gpu := answer(FirstOn(peers, p.node), p.node))
  }

  ghost predicate Remembers(cache: map<string, string>, peers: seq<Peer>, answer: (nat, string) -> string, i: nat)
  {
    && (forall n :: n in cache ==> FirstOn(peers, n) < i && cache[n] == answer(FirstOn(peers, n), n))
    && (forall j :: 0 <= j < i <= |peers| && peers[j].node != "" ==> peers[j].node in cache)
  }

  /** A peer without a node, or on a node asked about before. */
  lemma {:induction false} RemembersSeen(cache: map<string, string>, peers: seq<Peer>, answer: (nat, string) -> string, i: nat)
    requires i < |peers| && Remembers(cache, peers, answer, i)
    requires peers[i].node == "" || peers[i].node in cache
    ensures Remembers(cache, peers, answer, i + 1)
  {
  }

  lemma {:induction false} NewIsFirst(cache: map<string, string>, peers: seq<Peer>, answer: (nat, string) -> string, i: nat)
    requires i < |peers| && Remembers(cache, peers, answer, i)
    requires peers[i].node != "" && peers[i].node !in cache
    ensures FirstOn(peers, peers[i].node) == i
  {
    var f := FirstOn(peers, peers[i].node);
    FirstOnIs(peers, i);
    assert peers[f].node !in cache;
  }

  lemma {:induction false} RemembersNew(cache: map<string, string>, peers: seq<Peer>, answer: (nat, string) -> string, i: nat)
    requires i < |peers| && Remembers(cache, peers, answer, i)
    requires peers[i].node != "" && FirstOn(peers, peers[i].node) == i
    ensures Remembers(cache[peers[i].node := answer(i, peers[i].node)], peers, answer, i + 1)
  {
  }

  /** `AnnotateGPUTypes`: peers on one node end up with one type even if the node is relabelled meanwhile. */
  method AnnotateGPUTypes(peers: array<Peer>, answer: (nat, string) -> string)
    modifies peers
    ensures forall i :: 0 <= i < peers.Length ==> peers[i] == Annotated(old(peers[..]), answer, i)
    ensures forall i :: 0 <= i < peers.Length && old(peers[i]).node == "" ==> peers[i] == old(peers[i])
    ensures forall i :: 0 <= i < peers.Length && old(peers[i]).node != "" ==>
              exists k :: IsFirstOn(old(peers[..]), old(peers[i]).node, k)
                && peers[i] == old(peers[i]).(gpu := answer(k, old(peers[i]).node))
    ensures forall i, j :: 0 <= i < peers.Length && 0 <= j < peers.Length && peers[i].node == peers[j].node != "" ==>
              peers[i].gpu == peers[j].gpu
  {
    var cache: map<string, string> := map[];
    ghost var was := peers[..];
    for i := 0 to peers.Length
      invariant Remembers(cache, was, answer, i)
      invariant forall j :: i <= j < peers.Length ==> peers[j] == was[j]
      invariant forall j :: 0 <= j < i ==> peers[j] == Annotated(was, answer, j)
    {
      var node := peers[i].node;
      if node == "" {
        RemembersSeen(cache, was, answer, i);
        continue;
      }
      if node in cache {
        RemembersSeen(cache, was, answer, i);
      } else {
        NewIsFirst(cache, was, answer, i);
        RemembersNew(cache, was, answer, i);
        cache := cache[node := answer(i, node)];
      }
      peers[i] := peers[i].(gpu := cache[node]);
    }
    forall i | 0 <= i < peers.Length && was[i].node != ""
      ensures IsFirstOn(was, was[i].node, FirstOn(was, was[i].node))
    {
      FirstOnIs(was, i);
    }
  }
}
