/** One reconcile of one ModelRoute, as a function of the cluster state and of what the outside world
    answers. `Reconciler.dfy` implements it step by step; `Incumbent.dfy`, `Confluence.dfy`,
    `RenamedKeys.dfy` and `Cleanup.dfy` state what it guarantees. */
module Reconcile {
  import opened Base
  import opened Names
  import opened Conditions
  import opened Cluster
  import opened Ownership

  /** How a read-modify-write of a ConfigMap fares: its Get may fail, or its Update. */
  datatype Api = Fine | NoRead | NoUpdate

  /** Which of the status writes of this reconcile succeed; the code logs the others and goes on. */
  datatype StatusWrites = StatusWrites(slo: bool, orphan: bool, applied: bool, sync: bool, ready: bool)

  datatype SLOOutcome = SLOOutcome(status: bool, reason: string, message: string)

  /** The answers of everything outside the model: discovery (None = error), rendering (None = error),
      and the API calls. */
  datatype Env = Env(
    backends: Option<nat>,
    cartRead: bool, cartText: Option<string>, cartWrite: Api, cartPeers: Option<nat>,
    ownerList: bool,
    slo: SLOOutcome, conf: Option<string>, confWrite: Api,
    renameList: bool, syncReads: bool,
    monitorPeers: bool, monitorText: string, monitorWrite: Api,
    cleanupList: bool, cleanupRemove: Api, cleanupMonitor: Api, finalizerWrite: bool,
    status: StatusWrites)

  datatype Outcome = Done | Requeue | RequeueAfter | Failed

  /** A stage either lets the reconcile go on or ends it. */
  datatype Stage = Go(w: World) | Stop(w: World, out: Outcome)

  datatype WriteResult = Written | NotFound | WriteError

  // ---- ConfigMaps ----

  /** `data` with every entry of `put` whose value differs from what a lookup gives. */
  function Merge(data: Data, put: Data): Data {
    map k | k in data.Keys + put.Keys && (k in data || put[k] != "") :: if k in put then put[k] else data[k]
  }

  function WriteCM(w: World, cm: NN, put: Data, api: Api): (World, WriteResult) {
    if api == NoRead then (w, WriteError)
    else if cm !in w.cms then (w, NotFound)
    else if Merge(w.cms[cm], put) == w.cms[cm] then (w, Written)
    else if api == NoUpdate then (w, WriteError)
    else (w.(cms := w.cms[cm := Merge(w.cms[cm], put)]), Written)
  }

  function RemoveKey(w: World, s: Slot, api: Api): (World, bool) {
    if api == NoRead then (w, false)
    else if !Present(w, s) then (w, true)
    else if api == NoUpdate then (w, false)
    else (w.(cms := w.cms[s.cm := w.cms[s.cm] - {s.key}]), true)
  }

  // ---- Status ----

  function WithStatus(w: World, n: NN, ok: bool, st: Status): (v: World)
    requires n in w.routes
    ensures n in v.routes
  {
    if ok then w.(routes := w.routes[n := w.routes[n].(status := st)]) else w
  }

  function SetReady(w: World, n: NN, e: Env, now: int, cartPeers: nat, ready: bool, reason: string, message: string)
    : (v: World)
    requires n in w.routes
    ensures n in v.routes
  {
    var st := w.routes[n].status;
    WithStatus(w, n, e.status.ready, st.(
      backends := if e.backends.Some? then e.backends.value else 0,
      cartPeers := cartPeers,
      ready := ready,
      conds := SetCond(st.conds, Condition("Ready", ready, reason, message, now))))
  }

  const SLO_COND := "SLOSynced"
  const ORPHAN_COND := "OrphanRouteKey"

  function SyncSLO(w: World, n: NN, e: Env, now: int): (v: World)
    requires n in w.routes
    ensures n in v.routes
  {
    var st := w.routes[n].status;
    var c := Condition(SLO_COND, e.slo.status, e.slo.reason, e.slo.message, now);
    if exists d :: d in st.conds && d.(time := now) == c then w
    else WithStatus(w, n, e.status.slo, st.(conds := SetCond(st.conds, c)))
  }

  function ClearSLO(w: World, n: NN, e: Env): (v: World)
    requires n in w.routes
    ensures n in v.routes
  {
    var st := w.routes[n].status;
    if HasCond(st.conds, SLO_COND) then
      WithStatus(w, n, e.status.slo, st.(conds := RemoveCond(st.conds, SLO_COND)))
    else w
  }

  // ---- Orphans ----

  /** An orphan reference is kept while its key exists and no other route claims it. */
  ghost predicate KeepOrphan(w: World, n: NN, ref: string) {
    var s := OrphanSlot(ref, n.ns);
    s.Some? && Present(w, s.value) && !ClaimedByOther(w.routes, n, s.value)
  }

  ghost function Kept(w: World, n: NN, refs: seq<string>): (r: seq<string>)
    ensures |r| <= |refs|
    ensures forall x :: x in r <==> x in refs && KeepOrphan(w, n, x)
  {
    if refs == [] then []
    else
      var i := |refs| - 1;
      Kept(w, n, refs[..i]) + if KeepOrphan(w, n, refs[i]) then [refs[i]] else []
  }

  function OrphanMessage(refs: seq<string>): string {
    if |refs| == 0 then "" else refs[0] + (if |refs| == 1 then "" else ", " + OrphanMessage(refs[1..]))
  }

  /** The orphan list becomes `live`, and the orphan condition is present exactly when it is non-empty. */
  function OrphanStatus(st: Status, live: seq<string>, now: int): Status {
    st.(orphans := live,
        conds := if live == [] then RemoveCond(st.conds, ORPHAN_COND)
                 else SetCond(st.conds, Condition(ORPHAN_COND, true, "Orphaned", OrphanMessage(live), now)))
  }

  /** `syncOrphanCondition`. */
  ghost function SyncOrphans(w: World, n: NN, e: Env, now: int): (g: Stage)
    requires n in w.routes
    ensures n in g.w.routes
  {
    var st := w.routes[n].status;
    var live := Kept(w, n, st.orphans);
    if !e.syncReads then Stop(w, Failed)
    else if |live| == |st.orphans| && (live != []) == HasCond(st.conds, ORPHAN_COND) then Go(w)
    else Go(WithStatus(w, n, e.status.sync, OrphanStatus(st, live, now)))
  }

  function AppendUnique(list: seq<string>, v: string): seq<string> {
    if v in list then list else list + [v]
  }

  /** The route's record is not, literally, its current key and ConfigMap reference. */
  predicate Moved(r: Route) {
    r.status.appliedKey != Target(r).key || r.status.appliedCM != r.spec.cmRef
  }

  /** The slot written before a rename is listed as an orphan, unless another route took it over. */
  ghost function NoteOrphan(w: World, n: NN, e: Env): (v: World)
    requires n in w.routes
    ensures n in v.routes
  {
    var r := w.routes[n];
    if r.status.appliedKey != "" && Moved(r) && !ClaimedByOther(w.routes, n, Recorded(r)) then
      WithStatus(w, n, e.status.orphan,
        r.status.(orphans := AppendUnique(r.status.orphans, OrphanRef(Recorded(r)))))
    else w
  }

  function NoteRecord(w: World, n: NN, e: Env): (v: World)
    requires n in w.routes
    ensures n in v.routes
  {
    var r := w.routes[n];
    if Moved(r) then
      WithStatus(w, n, e.status.applied, r.status.(appliedKey := Target(r).key, appliedCM := r.spec.cmRef))
    else w
  }

  /** The List that looks for other claimants of the old key, made only when there is an old key to check. */
  predicate RenameListFails(r: Route, e: Env) {
    r.status.appliedKey != "" && Moved(r) && !e.renameList
  }

  /** `reconcileRenamedKey`: report the slot written before a rename, then record the current one. */
  ghost function RecordKey(w: World, n: NN, e: Env, now: int): (g: Stage)
    requires n in w.routes
    ensures n in g.w.routes
  {
    if RenameListFails(w.routes[n], e) then Stop(w, Failed)
    else SyncOrphans(NoteRecord(NoteOrphan(w, n, e), n, e), n, e, now)
  }

  // ---- The stages of a live reconcile ----

  /** Writes the workers, unless the ConfigMap cannot be read or its exclusive base document is empty. */
  function CartWrite(w: World, n: NN, e: Env, now: int): (g: Stage)
    requires n in w.routes && w.routes[n].spec.cart.Some?
    ensures n in g.w.routes
  {
    var c := w.routes[n].spec.cart.value;
    var cm := SplitNSName(c.cmRef, n.ns);
    if !e.cartRead || cm !in w.cms || (c.outputKey == "" && Lookup(w.cms[cm], CartKey(c)) == "") then Go(w)
    else if e.cartText.None? then Stop(w, Failed)
    else WriteStage(w, n, e, now, cm, map[CartKey(c) := e.cartText.value], e.cartWrite, 0)
  }

  function CartStage(w: World, n: NN, e: Env, now: int): (g: Stage)
    requires n in w.routes
    ensures n in g.w.routes
  {
    if w.routes[n].spec.cart.None? then Go(w)
    else
      match CartWrite(w, n, e, now)
      case Stop(v, out) => Stop(v, out)
      case Go(v) =>
        if e.cartPeers.None? then Stop(SetReady(v, n, e, now, 0, false, "DiscoverError", ""), RequeueAfter)
        else Go(v)
  }

  /** A write to an output ConfigMap; a missing one is reported in status. */
  function WriteStage(w: World, n: NN, e: Env, now: int, cm: NN, put: Data, api: Api, cartPeers: nat): (g: Stage)
    requires n in w.routes
    ensures n in g.w.routes
  {
    var (w1, res) := WriteCM(w, cm, put, api);
    match res
    case Written => Go(w1)
    case NotFound => Stop(SetReady(w, n, e, now, cartPeers, false, "ConfigMapMissing", ""), RequeueAfter)
    case WriteError => Stop(w, Failed)
  }

  function CartPeers(r: Route, e: Env): nat {
    if r.spec.cart.Some? && e.cartPeers.Some? then e.cartPeers.value else 0
  }

  /** The loser of a conflict writes nothing, but keeps its conditions current. */
  ghost function LoserStage(w: World, n: NN, e: Env, now: int): (g: Stage)
    requires n in w.routes
    ensures n in g.w.routes
  {
    SyncOrphans(ClearSLO(w, n, e), n, e, now)
  }

  function SLOStage(w: World, n: NN, e: Env, now: int): (v: World)
    requires n in w.routes
    ensures n in v.routes
  {
    if w.routes[n].spec.slo then SyncSLO(w, n, e, now) else ClearSLO(w, n, e)
  }

  /** The owner renders, writes its key, and then records it. */
  ghost function OwnerStage(w: World, n: NN, e: Env, now: int): (g: Stage)
    requires n in w.routes
    ensures n in g.w.routes
  {
    var r := w.routes[n];
    var w1 := SLOStage(w, n, e, now);
    if e.conf.None? then Stop(w1, Failed)
    else
      var s := Target(r);
      match WriteStage(w1, n, e, now, s.cm, map[s.key := e.conf.value], e.confWrite, CartPeers(r, e))
      case Go(w2) => RecordKey(w2, n, e, now)
      case Stop(w2, out) => Stop(w2, out)
  }

  function MonitorStage(w: World, n: NN, e: Env, now: int): (g: Stage)
    requires n in w.routes
    ensures n in g.w.routes
  {
    var r := w.routes[n];
    match r.spec.monitorCM
    case None => Go(w)
    case Some(ref) =>
      if !e.monitorPeers then
        Stop(SetReady(w, n, e, now, CartPeers(r, e), false, "DiscoverError", ""), RequeueAfter)
      else
        WriteStage(w, n, e, now, SplitNSName(ref, n.ns), map[MonitorKey(n.name) := e.monitorText],
                   e.monitorWrite, CartPeers(r, e))
  }

  /** Ends a reconcile whose monitor stage left `g`. */
  function Report(g: Stage, n: NN, e: Env, now: int, conflict: bool, owner: NN): (World, Outcome)
    requires n in g.w.routes
  {
    var cartPeers := CartPeers(g.w.routes[n], e);
    match g
    case Stop(w, out) => (w, out)
    case Go(w) =>
      if conflict then
        (SetReady(w, n, e, now, cartPeers, false, "RouteKeyConflict", QualifiedName(owner)), RequeueAfter)
      else (SetReady(w, n, e, now, cartPeers, true, "Synced", ""), RequeueAfter)
  }

  /** What follows the openresty stage: a conflict does not keep the monitor from being synced. */
  function Finish(g: Stage, n: NN, e: Env, now: int, conflict: bool, owner: NN): (World, Outcome)
    requires n in g.w.routes
  {
    match g
    case Stop(w, out) => (w, out)
    case Go(w) => Report(MonitorStage(w, n, e, now), n, e, now, conflict, owner)
  }

  /** What follows the CART stage: deciding who owns the key, then one of the two openresty stages. */
  ghost function Decide(g: Stage, n: NN, e: Env, now: int): (World, Outcome)
    requires n in g.w.routes
  {
    match g
    case Stop(w, out) => (w, out)
    case Go(w) =>
      if !e.ownerList then (w, Failed)
      else
        var owner := OwnerOf(w.routes, Target(w.routes[n]));
        if owner == n then Finish(OwnerStage(w, n, e, now), n, e, now, false, owner)
        else Finish(LoserStage(w, n, e, now), n, e, now, true, owner)
  }

  ghost function LiveStep(w: World, n: NN, e: Env, now: int): (World, Outcome)
    requires n in w.routes
  {
    if e.backends.None? then (SetReady(w, n, e, now, 0, false, "DiscoverError", ""), RequeueAfter)
    else if e.backends.value == 0 then (SetReady(w, n, e, now, 0, false, "NoBackends", ""), RequeueAfter)
    else Decide(CartStage(w, n, e, now), n, e, now)
  }

  /** The slot the finalizer cleans: the recorded one, or the spec's for an object that never recorded. */
  function CleanupSlot(r: Route): Slot {
    if r.status.appliedKey == "" then Target(r) else Recorded(r)
  }

  /** The openresty half of `cleanupSharedKeys`: a key some other live route claims is left alone. */
  ghost function CleanupRoute(w: World, n: NN, e: Env): (World, bool)
    requires n in w.routes
  {
    var s := CleanupSlot(w.routes[n]);
    if !e.cleanupList then (w, false)
    else if ClaimedByOther(w.routes, n, s) then (w, true)
    else RemoveKey(w, s, e.cleanupRemove)
  }

  /** The monitor half. */
  function CleanupMonitor(w: World, n: NN, e: Env): (World, bool)
    requires n in w.routes
  {
    match w.routes[n].spec.monitorCM
    case None => (w, true)
    case Some(ref) => RemoveKey(w, Slot(SplitNSName(ref, n.ns), MonitorKey(n.name)), e.cleanupMonitor)
  }

  ghost function Cleanup(w: World, n: NN, e: Env): (World, bool)
    requires n in w.routes
  {
    var (v, ok) := CleanupRoute(w, n, e);
    if ok && n in v.routes then CleanupMonitor(v, n, e) else (v, false)
  }

  /** The cleanup, then the removal of the finalizer, which an error in the cleanup prevents. */
  ghost function Finalize(w: World, n: NN, e: Env): (World, Outcome)
    requires n in w.routes
  {
    var (v, ok) := Cleanup(w, n, e);
    if !ok || !e.finalizerWrite then (v, Failed)
    else (v.(routes := v.routes[n := w.routes[n].(finalizer := false)]), Done)
  }

  /** `Reconcile`. */
  ghost function ReconcileStep(w: World, n: NN, e: Env, now: int): (World, Outcome) {
    if n !in w.routes then (w, Done)
    else if w.routes[n].deleting then
      if w.routes[n].finalizer then Finalize(w, n, e) else (w, Done)
    else if !w.routes[n].finalizer then
      if e.finalizerWrite then
        (w.(routes := w.routes[n := w.routes[n].(finalizer := true)]), Requeue)
      else (w, Failed)
    else LiveStep(w, n, e, now)
  }
}
