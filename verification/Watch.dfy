/** Which changes of EndpointSlices and Pods re-run a route's reconcile. */
module Watch {
  import opened Base
  import opened Names
  import opened Config
  import opened Discovery

  type Labels = map<string, string>

  datatype SliceObject = SliceObject(ns: string, labels: Labels, slice: Slice)

  datatype PodObject = PodObject(ns: string, labels: Labels, pod: Pod)

  /** How a spec says where to find something: a Service reference, or a label selector. */
  datatype Ref = Ref(service: string, selector: string, port: int, includeNotReady: bool)

  datatype WatchedRoute = WatchedRoute(id: NN, backends: Ref, cart: Option<Ref>, nginx: Ref)

  /** Label selectors: which texts parse, and which label sets a parsed selector matches. */
  datatype Selectors = Selectors(parses: string -> bool, matches: (string, Labels) -> bool) {
    /** The empty selector selects everything. */
    predicate Selects(selector: string, labels: Labels) {
      selector == "" || (parses(selector) && matches(selector, labels))
    }
  }

  const SERVICE_NAME_LABEL := "kubernetes.io/service-name"

  const DISPATCH_PORT_NAME := "dispatch"

  // ---- The targets of a route ----

  /** `discoveryTarget`: a Service reference may name another namespace, a selector may not. */
  function DiscoveryTarget(service: string, selector: string, port: int, includeNotReady: bool, defaultNS: string): Target {
    var svc := if service != "" then SplitNSName(service, defaultNS) else NN(defaultNS, "");
    Target(svc.ns, svc.name, selector, port, "", includeNotReady)
  }

  /** Every target that a reconcile of the route may hand to `Discover`. */
  ghost predicate IsTargetOf(t: Target, r: WatchedRoute) {
    || t == DiscoveryTarget(r.backends.service, r.backends.selector, r.backends.port, r.backends.includeNotReady, r.id.ns)
    || (r.cart.Some?
        && t == DiscoveryTarget(r.cart.value.service, r.cart.value.selector, r.cart.value.port, false, r.id.ns))
    || t == DiscoveryTarget(r.nginx.service, r.nginx.selector, 0, false, r.id.ns).(portName := DISPATCH_PORT_NAME)
  }

  /** The name part of a Service reference is not empty. */
  predicate NamedRef(ref: Ref, defaultNS: string) {
    ref.service != "" ==> SplitNSName(ref.service, defaultNS).name != ""
  }

  predicate NamedRefs(r: WatchedRoute) {
    NamedRef(r.backends, r.id.ns) && NamedRef(r.nginx, r.id.ns) && (r.cart.Some? ==> NamedRef(r.cart.value, r.id.ns))
  }

  // ---- The watch mappings ----

  predicate RefersToService(service: string, defaultNS: string, ns: string, svc: string) {
    service != "" && SplitNSName(service, defaultNS) == NN(ns, svc)
  }

  /** `referencesService`. */
  predicate ReferencesService(r: WatchedRoute, ns: string, svc: string) {
    || RefersToService(r.backends.service, r.id.ns, ns, svc)
    || (r.cart.Some? && RefersToService(r.cart.value.service, r.id.ns, ns, svc))
    || RefersToService(r.nginx.service, r.id.ns, ns, svc)
  }

  predicate SelectsPod(ref: Ref, sel: Selectors, labels: Labels) {
    ref.service == "" && ref.selector != "" && sel.Selects(ref.selector, labels)
  }

  /** `referencesPodBySelector`. */
  predicate ReferencesPodBySelector(r: WatchedRoute, sel: Selectors, ns: string, labels: Labels) {
    && r.id.ns == ns
    && (|| SelectsPod(r.backends, sel, labels)
        || (r.cart.Some? && SelectsPod(r.cart.value, sel, labels))
        || SelectsPod(r.nginx, sel, labels))
  }

  predicate EnqueuedBySlice(r: WatchedRoute, o: SliceObject) {
    var svc := Lookup(o.labels, SERVICE_NAME_LABEL);
    svc != "" && ReferencesService(r, o.ns, svc)
  }

  predicate EnqueuedByPod(r: WatchedRoute, sel: Selectors, o: PodObject) {
    o.labels != map[] && ReferencesPodBySelector(r, sel, o.ns, o.labels)
  }

  /** `modelRoutesForEndpointSlice`, over the routes the cache lists. */
  method RoutesForEndpointSlice(routes: seq<WatchedRoute>, o: SliceObject) returns (reqs: seq<NN>)
    ensures forall n :: n in reqs <==> exists r :: r in routes && r.id == n && EnqueuedBySlice(r, o)
  {
    var svc := Lookup(o.labels, SERVICE_NAME_LABEL);
    reqs := [];
    if svc == "" {
      return;
    }
    for i := 0 to |routes|
      invariant forall n :: n in reqs <==> exists r :: r in routes[..i] && r.id == n && EnqueuedBySlice(r, o)
    {
      assert routes[..i + 1] == routes[..i] + [routes[i]];
      if ReferencesService(routes[i], o.ns, svc) {
        reqs := reqs + [routes[i].id];
      }
    }
    assert routes[..|routes|] == routes;
  }

  /** `modelRoutesForPod`. */
  method RoutesForPod(routes: seq<WatchedRoute>, sel: Selectors, o: PodObject) returns (reqs: seq<NN>)
    ensures forall n :: n in reqs <==> exists r :: r in routes && r.id == n && EnqueuedByPod(r, sel, o)
  {
    reqs := [];
    if o.labels == map[] {
      return;
    }
    for i := 0 to |routes|
      invariant forall n :: n in reqs <==> exists r :: r in routes[..i] && r.id == n && EnqueuedByPod(r, sel, o)
    {
      assert routes[..i + 1] == routes[..i] + [routes[i]];
      if ReferencesPodBySelector(routes[i], sel, o.ns, o.labels) {
        reqs := reqs + [routes[i].id];
      }
    }
    assert routes[..|routes|] == routes;
  }

  // ---- What Discover lists ----

  function InService(t: Target): SliceObject -> bool {
    (o: SliceObject) => o.ns == t.namespace && SERVICE_NAME_LABEL in o.labels && o.labels[SERVICE_NAME_LABEL] == t.service
  }

  function Selected(t: Target, sel: Selectors): PodObject -> bool {
    (o: PodObject) => o.ns == t.namespace && sel.Selects(t.selector, o.labels)
  }

  function SlicesOf(objects: seq<SliceObject>): seq<Slice> {
    if objects == [] then [] else [objects[0].slice] + SlicesOf(objects[1..])
  }

  function PodsOf(objects: seq<PodObject>): seq<Pod> {
    if objects == [] then [] else [objects[0].pod] + PodsOf(objects[1..])
  }

  datatype Failure = CannotList | Unresolved(error: PortError)

  function Outcome(found: Result<seq<Peer>, PortError>): Result<seq<Peer>, Failure> {
    match found
    case Ok(peers) => Ok(peers)
    case Err(e) => Err(Unresolved(e))
  }

  /** The outcome of `Discover` in a cluster holding these objects, which the API server lists in a fixed
      order of their names; a selector that does not parse cannot be listed. */
  ghost predicate Finds(
    t: Target, sel: Selectors, slices: seq<SliceObject>, pods: seq<PodObject>, r: Result<seq<Peer>, Failure>)
  {
    if t.service == "" && t.selector != "" && !sel.parses(t.selector) then r == Err(CannotList)
    else
      exists found ::
        && IsDiscovery(t, SlicesOf(Filter(slices, InService(t))), PodsOf(Filter(pods, Selected(t, sel))), found)
        && r == Outcome(found)
  }

  /** Discovery is a function of what it lists. */
  lemma DiscoveryIsDeterministic(
    t: Target, slices: seq<Slice>, pods: seq<Pod>, r: Result<seq<Peer>, PortError>, r': Result<seq<Peer>, PortError>)
    requires IsDiscovery(t, slices, pods, r) && IsDiscovery(t, slices, pods, r')
    ensures r == r'
  {
    if t.service != "" {
      var p :| IsSlicePort(slices, t, p) && IsOutcome(SliceOffers(slices, t), p, r);
      var p' :| IsSlicePort(slices, t, p') && IsOutcome(SliceOffers(slices, t), p', r');
      if t.port == 0 && t.portName == "" { UniquePortAgrees(DeclaredPorts(slices), p, p'); }
    } else {
      var p :| IsPodPort(pods, t, p) && IsOutcome(PodOffers(pods, t), p, r);
      var p' :| IsPodPort(pods, t, p') && IsOutcome(PodOffers(pods, t), p', r');
      if t.port == 0 { UniquePortAgrees(ContainerPorts(pods), p, p'); }
    }
  }

  lemma FilterDropsAll<T(!new)>(s: seq<T>, p: T -> bool)
    requires forall x :: x in s ==> !p(x)
    ensures Filter(s, p) == []
  {
    assert Filter(s, p) != [] ==> Filter(s, p)[0] in s;
  }

  /** What is filtered out between two stretches does not show. */
  lemma FilterIgnores<T(!new)>(pre: seq<T>, was: seq<T>, now: seq<T>, post: seq<T>, p: T -> bool)
    requires forall x :: x in was + now ==> !p(x)
    ensures Filter(pre + was + post, p) == Filter(pre + now + post, p)
  {
    FilterDropsAll(was, p);
    FilterDropsAll(now, p);
    FilterConcat(pre + was, post, p);
    FilterConcat(pre, was, p);
    FilterConcat(pre + now, post, p);
    FilterConcat(pre, now, p);
  }

  lemma ListedSliceEnqueues(route: WatchedRoute, t: Target, o: SliceObject)
    requires IsTargetOf(t, route) && t.service != ""
    ensures InService(t)(o) ==> EnqueuedBySlice(route, o)
  {
    assert InService(t)(o) ==> Lookup(o.labels, SERVICE_NAME_LABEL) == t.service;
  }

  lemma ListedPodEnqueues(route: WatchedRoute, t: Target, sel: Selectors, o: PodObject)
    requires NamedRefs(route) && IsTargetOf(t, route) && t.service == ""
    requires !sel.Selects(t.selector, map[])
    ensures Selected(t, sel)(o) ==> EnqueuedByPod(route, sel, o)
  {
  }

  /** A slice enqueues exactly the routes of which some target lists it. */
  lemma SliceEnqueuesExactly(r: WatchedRoute, o: SliceObject)
    ensures EnqueuedBySlice(r, o) <==> exists t :: IsTargetOf(t, r) && t.service != "" && InService(t)(o)
  {
    if EnqueuedBySlice(r, o) {
      var b, c, g := r.backends, r.cart, r.nginx;
      var svc := o.labels[SERVICE_NAME_LABEL];
      var t :=
        if RefersToService(b.service, r.id.ns, o.ns, svc) then
          DiscoveryTarget(b.service, b.selector, b.port, b.includeNotReady, r.id.ns)
        else if RefersToService(g.service, r.id.ns, o.ns, svc) then
          DiscoveryTarget(g.service, g.selector, 0, false, r.id.ns).(portName := DISPATCH_PORT_NAME)
        else DiscoveryTarget(c.value.service, c.value.selector, c.value.port, false, r.id.ns);
      assert IsTargetOf(t, r) && t.service == svc && InService(t)(o);
    }
    forall t | IsTargetOf(t, r) && t.service != "" && InService(t)(o)
      ensures EnqueuedBySlice(r, o)
    {
      ListedSliceEnqueues(r, t, o);
    }
  }

  /** A labelled pod enqueues exactly the routes that have a target with a selector which selects it. */
  lemma PodEnqueuesExactly(r: WatchedRoute, sel: Selectors, o: PodObject)
    requires NamedRefs(r) && o.labels != map[]
    ensures EnqueuedByPod(r, sel, o) <==>
            exists t :: IsTargetOf(t, r) && t.service == "" && t.selector != "" && Selected(t, sel)(o)
  {
    if EnqueuedByPod(r, sel, o) {
      var b, c, g := r.backends, r.cart, r.nginx;
      var t :=
        if SelectsPod(b, sel, o.labels) then DiscoveryTarget(b.service, b.selector, b.port, b.includeNotReady, r.id.ns)
        else if SelectsPod(g, sel, o.labels) then
          DiscoveryTarget(g.service, g.selector, 0, false, r.id.ns).(portName := DISPATCH_PORT_NAME)
        else DiscoveryTarget(c.value.service, c.value.selector, c.value.port, false, r.id.ns);
      assert IsTargetOf(t, r) && t.service == "" && Selected(t, sel)(o);
    }
  }

  /** A change of EndpointSlices, from `was` to `now` at one place of the listing, that enqueues the route from
      neither version leaves every `Discover` made for the route with the result it had. */
  lemma SliceWatchComplete(
    route: WatchedRoute, t: Target, sel: Selectors,
    pre: seq<SliceObject>, was: seq<SliceObject>, now: seq<SliceObject>, post: seq<SliceObject>, pods: seq<PodObject>,
    r: Result<seq<Peer>, Failure>, r': Result<seq<Peer>, Failure>)
    requires IsTargetOf(t, route)
    requires forall o :: o in was + now ==> !EnqueuedBySlice(route, o)
    requires Finds(t, sel, pre + was + post, pods, r) && Finds(t, sel, pre + now + post, pods, r')
    ensures r == r'
  {
    if t.service != "" {
      forall o | o in was + now
        ensures !InService(t)(o)
      {
        ListedSliceEnqueues(route, t, o);
      }
      FilterIgnores(pre, was, now, post, InService(t));
    }
    SameListings(t, sel, pre + was + post, pre + now + post, pods, pods, r, r');
  }

  /** The same for Pods, when Service references name a Service and the selector matches no unlabelled pod. */
  lemma PodWatchComplete(
    route: WatchedRoute, t: Target, sel: Selectors,
    pre: seq<PodObject>, was: seq<PodObject>, now: seq<PodObject>, post: seq<PodObject>, slices: seq<SliceObject>,
    r: Result<seq<Peer>, Failure>, r': Result<seq<Peer>, Failure>)
    requires NamedRefs(route) && IsTargetOf(t, route)
    requires t.service == "" ==> !sel.Selects(t.selector, map[])
    requires forall o :: o in was + now ==> !EnqueuedByPod(route, sel, o)
    requires Finds(t, sel, slices, pre + was + post, r) && Finds(t, sel, slices, pre + now + post, r')
    ensures r == r'
  {
    if t.service == "" {
      forall o | o in was + now
        ensures !Selected(t, sel)(o)
      {
        ListedPodEnqueues(route, t, sel, o);
      }
      FilterIgnores(pre, was, now, post, Selected(t, sel));
    }
    SameListings(t, sel, slices, slices, pre + was + post, pre + now + post, r, r');
  }

  /** Discovering one admitted pod, which declares one port, finds it; before it, there was no peer to find. */
  lemma OnePodIsFound(t: Target, pod: Pod) returns (peers: seq<Peer>)
    requires t.service == "" && AdmitsPod(pod, t) && ContainerPorts([pod]) == {8000}
    ensures IsDiscovery(t, [], [pod], Ok(peers)) && peers != []
  {
    var port := if t.port != 0 then t.port else 8000;
    var offers := PodOffers([pod], t);
    OffersExactly(t, [], [pod], (pod.ip, pod.node));
    assert offers[0] in offers && Offered(offers, offers[0].0);
    CollectedFacts(offers, port);
    peers := Collected(offers, port);
    var found: Result<seq<Peer>, PortError> := Ok(peers);
    assert IsPodPort([pod], t, Ok(port)) && IsOutcome(offers, Ok(port), found);
  }

  lemma NoPodIsFound(t: Target) returns (r: Result<seq<Peer>, PortError>)
    requires t.service == ""
    ensures IsDiscovery(t, [], [], r) && (r.Ok? ==> r.value == [])
  {
    var port: Result<int, PortError> := if t.port != 0 then Ok(t.port) else Err(NoPort);
    r := if t.port != 0 then Ok([]) else Err(NoPort);
    assert ContainerPorts([]) == {};
    assert IsPodPort([], t, port) && IsOutcome(PodOffers([], t), port, r);
  }

  /** A selector that does match unlabelled pods, the empty one included, misses them: such a pod can appear
      without enqueuing the route although the route discovers it. */
  lemma UnlabelledPodsAreMissed(route: WatchedRoute, t: Target, sel: Selectors)
    returns (o: PodObject, r: Result<seq<Peer>, Failure>, r': Result<seq<Peer>, Failure>)
    requires IsTargetOf(t, route) && t.service == "" && sel.Selects(t.selector, map[])
    ensures !EnqueuedByPod(route, sel, o)
    ensures Finds(t, sel, [], [], r) && Finds(t, sel, [], [o], r') && r != r'
  {
    var pod := Pod(false, "Running", "10.0.0.1", [PodCondition("Ready", "True")], "", [[8000]]);
    OnePort(pod, 8000);
    o := PodObject(t.namespace, map[], pod);
    var peers := OnePodIsFound(t, pod);
    var none := NoPodIsFound(t);
    r, r' := Outcome(none), Ok(peers);
    var found: Result<seq<Peer>, PortError> := Ok(peers);
    assert r' == Outcome(found);
    assert Filter([o], Selected(t, sel)) == [o] && PodsOf([o]) == [pod];
    FindsWhatIsListed(t, sel, [], [], [], none);
    FindsWhatIsListed(t, sel, [], [o], [pod], found);
  }

  lemma OnePort(pod: Pod, n: int)
    requires pod.containers == [[n]] && n > 0
    ensures ContainerPorts([pod]) == {n}
  {
    assert pod in [pod] && [n] in pod.containers && n in [n];
  }

  lemma FindsWhatIsListed(
    t: Target, sel: Selectors, slices: seq<SliceObject>, pods: seq<PodObject>, chosen: seq<Pod>,
    found: Result<seq<Peer>, PortError>)
    requires t.service == "" && (t.selector == "" || sel.parses(t.selector))
    requires chosen == PodsOf(Filter(pods, Selected(t, sel)))
    requires IsDiscovery(t, [], chosen, found)
    ensures Finds(t, sel, slices, pods, Outcome(found))
  {
    var listed := SlicesOf(Filter(slices, InService(t)));
    assert IsDiscovery(t, listed, chosen, found);
  }

  lemma SameListings(
    t: Target, sel: Selectors, slices: seq<SliceObject>, slices': seq<SliceObject>,
    pods: seq<PodObject>, pods': seq<PodObject>, r: Result<seq<Peer>, Failure>, r': Result<seq<Peer>, Failure>)
    requires t.service != "" ==> Filter(slices, InService(t)) == Filter(slices', InService(t))
    requires t.service == "" ==> Filter(pods, Selected(t, sel)) == Filter(pods', Selected(t, sel))
    requires Finds(t, sel, slices, pods, r) && Finds(t, sel, slices', pods', r')
    ensures r == r'
  {
    if t.service != "" || t.selector == "" || sel.parses(t.selector) {
      var listed, listed' := SlicesOf(Filter(slices, InService(t))), SlicesOf(Filter(slices', InService(t)));
      var chosen, chosen' := PodsOf(Filter(pods, Selected(t, sel))), PodsOf(Filter(pods', Selected(t, sel)));
      var f :| IsDiscovery(t, listed, chosen, f) && r == Outcome(f);
      var f' :| IsDiscovery(t, listed', chosen', f') && r' == Outcome(f');
      assert IsDiscovery(t, listed, chosen, f');
      DiscoveryIsDeterministic(t, listed, chosen, f, f');
    }
  }
}
