/** What the controller reads and writes: ModelRoute objects and ConfigMaps. */
module Cluster {
  import opened Base
  import opened Names
  import opened Conditions

  datatype CartSpec = CartSpec(cmRef: string, outputKey: string)

  datatype Spec = Spec(
    route: string,
    cmRef: string,
    cart: Option<CartSpec>,
    monitorCM: Option<string>,
    slo: bool)

  datatype Status = Status(
    appliedKey: string,
    appliedCM: string,
    orphans: seq<string>,
    conds: seq<Condition>,
    backends: nat,
    cartPeers: nat,
    ready: bool)

  const EMPTY_STATUS := Status("", "", [], [], 0, 0, false)

  datatype Route = Route(
    id: NN,
    created: int,
    deleting: bool,
    finalizer: bool,
    spec: Spec,
    status: Status)

  type Routes = map<NN, Route>
  type Data = map<string, string>

  datatype World = World(routes: Routes, cms: map<NN, Data>)

  /** The route's short name: spec.nginx.route, or the object's own name. */
  function NginxRoute(r: Route): string {
    if r.spec.route != "" then r.spec.route else r.id.name
  }

  /** The slot the route's current spec renders into. */
  function Target(r: Route): Slot {
    Slot(SplitNSName(r.spec.cmRef, r.id.ns), OpenrestyKey(NginxRoute(r)))
  }

  /** The slot the route's status says it wrote last. */
  function Recorded(r: Route): Slot {
    Slot(SplitNSName(r.status.appliedCM, r.id.ns), r.status.appliedKey)
  }

  /** The route's own key in the ConfigMap that its monitor is configured with. */
  function MonitorSlot(r: Route, ref: string): Slot {
    Slot(SplitNSName(ref, r.id.ns), MonitorKey(r.id.name))
  }

  /** The key of the CART ConfigMap that receives the workers. */
  function CartKey(c: CartSpec): string {
    if c.outputKey == "" then "config.yaml" else c.outputKey
  }

  /** The keys that other programs know: the gateway's file of a route, the monitor's of a model, and the CART
      document. */
  lemma KeysAre(r: Route, c: CartSpec, ref: string)
    ensures Target(r).key == "session_route_" + (if r.spec.route == "" then r.id.name else r.spec.route) + ".conf"
    ensures MonitorSlot(r, ref).key == r.id.name + ".monitor.conf"
    ensures CartKey(c) == if c.outputKey == "" then "config.yaml" else c.outputKey
  {
  }

  ghost predicate ValidSpec(s: Spec) {
    s.cart.Some? ==> !IsRouteKey(CartKey(s.cart.value))
  }

  ghost predicate ValidRoute(r: Route, n: NN) {
    && r.id == n && ValidName(n) && ValidSpec(r.spec)
    && (r.status.appliedKey == "" || IsRouteKey(r.status.appliedKey))
  }

  /** Objects are stored under their own names, names are Kubernetes names, no CART key collides with an
      openresty key, and a status records nothing but openresty keys. */
  ghost predicate WellFormed(w: World) {
    && (forall n :: n in w.routes ==> ValidRoute(w.routes[n], n))
    && (forall cm :: cm in w.cms ==> ValidName(cm))
  }

  function Content(w: World, s: Slot): Option<string> {
    if s.cm in w.cms && s.key in w.cms[s.cm] then Some(w.cms[s.cm][s.key]) else None
  }

  predicate Present(w: World, s: Slot) {
    Content(w, s).Some?
  }

  /** A route that is not being deleted and renders into `s`. */
  predicate Claims(rs: Routes, n: NN, s: Slot) {
    n in rs && !rs[n].deleting && Target(rs[n]) == s
  }

  /** `keyClaimedByOther`: some route other than `n` claims `s`. */
  ghost predicate ClaimedByOther(rs: Routes, n: NN, s: Slot) {
    exists o :: o != n && Claims(rs, o, s)
  }

  /** A list of all the routes, in whatever order the API server or the informer cache returns them. */
  ghost predicate Lists(items: seq<Route>, rs: Routes) {
    && (forall r :: r in items ==> r.id in rs && rs[r.id] == r)
    && (forall n :: n in rs ==> rs[n] in items)
  }
}
