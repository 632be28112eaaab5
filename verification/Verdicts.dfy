/** What a reconcile of a live route tells its user: the exact Ready condition, and how the reconcile ends,
    for every way discovery, ownership, rendering and the API may turn out. */
module Verdicts {
  import opened Base
  import opened Names
  import opened Conditions
  import opened Cluster
  import opened Ownership
  import opened Reconcile
  import opened Effects
  import opened Reports

  /** The Ready condition and the counts are as they were. */
  ghost predicate Unsaid(w: World, v: World, n: NN) {
    && OnlyStatus(w, v, n) && Reported(v, n, "Ready") == Reported(w, n, "Ready")
    && v.routes[n].status.ready == w.routes[n].status.ready
    && v.routes[n].status.backends == w.routes[n].status.backends
    && v.routes[n].status.cartPeers == w.routes[n].status.cartPeers
  }

  /** The Ready condition says this, since readiness last changed, with the counts of this reconcile; unless
      that status write fails. */
  ghost predicate Said(w: World, v: World, n: NN, e: Env, now: int, peers: nat, ready: bool, reason: string, message: string)
  {
    && OnlyStatus(w, v, n)
    && if !e.status.ready then Unsaid(w, v, n)
       else
         var st := v.routes[n].status;
         && Reported(v, n, "Ready") == Some(Condition("Ready", ready, reason, message, Since(w, n, "Ready", ready, now)))
         && st.ready == ready && st.cartPeers == peers
         && st.backends == if e.backends.Some? then e.backends.value else 0
  }

  // ---- The inputs that decide ----

  /** How a write of `value` at `s` ends in `w`. */
  function WriteEnd(w: World, s: Slot, value: string, api: Api): WriteResult {
    if api.NoRead? then WriteError
    else if s.cm !in w.cms then NotFound
    else if api.NoUpdate? && WriteValue(Content(w, s), value) != Content(w, s) then WriteError
    else Written
  }

  function ConfEnd(w: World, r: Route, e: Env): WriteResult {
    if e.conf.None? then WriteError else WriteEnd(w, Target(r), e.conf.value, e.confWrite)
  }

  function MonitorEnd(w: World, r: Route, e: Env): WriteResult {
    match r.spec.monitorCM
    case None => Written
    case Some(ref) => WriteEnd(w, MonitorSlot(r, ref), e.monitorText, e.monitorWrite)
  }

  /** The monitor is configured, and its peers cannot be found. */
  predicate MonitorLost(r: Route, e: Env) {
    r.spec.monitorCM.Some? && !e.monitorPeers
  }

  /** The CART write is skipped or succeeds, and then its peers cannot be found. */
  predicate CartLost(w: World, n: NN, e: Env)
    requires n in w.routes
  {
    var cart := w.routes[n].spec.cart;
    cart.Some? && e.cartPeers.None? && CartWriteGoes(w, n, cart.value, e)
  }

  /** The openresty stage is passed: the owner's conf is written and recorded, or the route is not the owner;
      and the orphan list could be checked. `u` is the cluster as the CART stage left it. */
  ghost predicate RoutePasses(u: World, n: NN, e: Env)
    requires n in u.routes
  {
    var r := u.routes[n];
    e.syncReads && (IsOwner(u.routes, Target(r), n) ==> ConfEnd(u, r, e).Written? && !RenameListFails(r, e))
  }

  /** Every stage is passed. */
  ghost predicate Delivered(w: World, u: World, n: NN, e: Env)
    requires n in w.routes && n in u.routes
  {
    && ReachesDecision(w, n, e) && RoutePasses(u, n, e)
    && !MonitorLost(u.routes[n], e) && MonitorEnd(u, u.routes[n], e).Written?
  }

  /** The backends, the CART or the openresty peers for the monitor cannot be found when they are needed. */
  ghost predicate Undiscovered(w: World, u: World, n: NN, e: Env)
    requires n in w.routes && n in u.routes
  {
    || e.backends.None?
    || (e.backends.value > 0 && CartLost(w, n, e))
    || (ReachesDecision(w, n, e) && RoutePasses(u, n, e) && MonitorLost(u.routes[n], e))
  }

  /** The ConfigMap that the owner's conf or the monitor's lines go into does not exist. */
  ghost predicate Missing(w: World, u: World, n: NN, e: Env)
    requires n in w.routes && n in u.routes
  {
    var r := u.routes[n];
    ReachesDecision(w, n, e) &&
    if RoutePasses(u, n, e) then !MonitorLost(r, e) && MonitorEnd(u, r, e).NotFound?
    else IsOwner(u.routes, Target(r), n) && ConfEnd(u, r, e).NotFound?
  }

  // ---- The stages ----

  lemma SetReadySays(w: World, u: World, n: NN, e: Env, now: int, peers: nat, ready: bool, reason: string, message: string)
    requires Unsaid(w, u, n)
    ensures Said(w, SetReady(u, n, e, now, peers, ready, reason, message), n, e, now, peers, ready, reason, message)
  {
    ReadyReported(u, n, e, now, peers, ready, reason, message);
    SetReadyBookkeeping(u, n, e, now, peers, ready, reason, message);
    OnlyStatusTransitive(w, u, SetReady(u, n, e, now, peers, ready, reason, message), n);
  }

  lemma SaidAfter(
    w: World, u: World, v: World, n: NN, e: Env, now: int, peers: nat, ready: bool, reason: string, message: string)
    requires Unsaid(w, u, n) && Said(u, v, n, e, now, peers, ready, reason, message)
    ensures Said(w, v, n, e, now, peers, ready, reason, message)
  {
    OnlyStatusTransitive(w, u, v, n);
  }

  lemma UnsaidTransitive(u: World, v: World, w: World, n: NN)
    requires Unsaid(u, v, n) && Unsaid(v, w, n)
    ensures Unsaid(u, w, n)
  {
  }

  lemma StatusUnsaid(w: World, n: NN, ok: bool, st: Status)
    requires n in w.routes
    requires var was := w.routes[n].status;
      && st.ready == was.ready && st.backends == was.backends && st.cartPeers == was.cartPeers
      && Find(st.conds, "Ready") == Find(was.conds, "Ready")
    ensures Unsaid(w, WithStatus(w, n, ok, st), n)
  {
  }

  lemma ClearSLOUnsaid(w: World, n: NN, e: Env)
    requires n in w.routes
    ensures Unsaid(w, ClearSLO(w, n, e), n)
  {
    var st := w.routes[n].status;
    RemoveCondEffect(st.conds, SLO_COND);
    StatusUnsaid(w, n, e.status.slo, st.(conds := RemoveCond(st.conds, SLO_COND)));
  }

  lemma SyncSLOUnsaid(w: World, n: NN, e: Env, now: int)
    requires n in w.routes
    ensures Unsaid(w, SyncSLO(w, n, e, now), n)
  {
    var st := w.routes[n].status;
    var c := Condition(SLO_COND, e.slo.status, e.slo.reason, e.slo.message, now);
    SetCondEffect(st.conds, c);
    StatusUnsaid(w, n, e.status.slo, st.(conds := SetCond(st.conds, c)));
  }

  lemma SLOUnsaid(w: World, n: NN, e: Env, now: int)
    requires n in w.routes
    ensures Unsaid(w, SLOStage(w, n, e, now), n)
  {
    SyncSLOUnsaid(w, n, e, now);
    ClearSLOUnsaid(w, n, e);
  }

  lemma OrphanStatusSilent(st: Status, live: seq<string>, now: int)
    ensures var t := OrphanStatus(st, live, now);
      && t.ready == st.ready && t.backends == st.backends && t.cartPeers == st.cartPeers
      && Find(t.conds, "Ready") == Find(st.conds, "Ready")
  {
    SetCondEffect(st.conds, Condition(ORPHAN_COND, true, "Orphaned", OrphanMessage(live), now));
    RemoveCondEffect(st.conds, ORPHAN_COND);
  }

  lemma SyncOrphansUnsaid(w: World, n: NN, e: Env, now: int)
    requires n in w.routes
    ensures var g := SyncOrphans(w, n, e, now);
      Unsaid(w, g.w, n) && (g.Go? <==> e.syncReads) && (g.Stop? ==> g.out == Failed)
  {
    var st := w.routes[n].status;
    var live := Kept(w, n, st.orphans);
    OrphanStatusSilent(st, live, now);
    StatusUnsaid(w, n, e.status.sync, OrphanStatus(st, live, now));
  }

  lemma NotesUnsaid(w: World, n: NN, e: Env)
    requires n in w.routes
    ensures Unsaid(w, NoteOrphan(w, n, e), n) && Unsaid(w, NoteRecord(w, n, e), n)
  {
    var r := w.routes[n];
    StatusUnsaid(w, n, e.status.orphan,
      r.status.(orphans := AppendUnique(r.status.orphans, OrphanRef(Recorded(r)))));
    StatusUnsaid(w, n, e.status.applied, r.status.(appliedKey := Target(r).key, appliedCM := r.spec.cmRef));
  }

  lemma RecordKeyUnsaid(w: World, n: NN, e: Env, now: int)
    requires n in w.routes
    ensures var g := RecordKey(w, n, e, now);
      && Unsaid(w, g.w, n) && (g.Stop? ==> g.out == Failed)
      && (g.Go? <==> e.syncReads && !RenameListFails(w.routes[n], e))
  {
    var w1 := NoteOrphan(w, n, e);
    var w2 := NoteRecord(w1, n, e);
    NotesUnsaid(w, n, e);
    NotesUnsaid(w1, n, e);
    SyncOrphansUnsaid(w2, n, e, now);
    UnsaidTransitive(w, w1, w2, n);
    UnsaidTransitive(w, w2, SyncOrphans(w2, n, e, now).w, n);
  }

  /** A write stage goes on, reports the missing ConfigMap, or ends in an error nobody is told about. */
  lemma WriteStageEnds(w: World, u: World, n: NN, e: Env, now: int, s: Slot, value: string, api: Api, peers: nat)
    requires Unsaid(w, u, n)
    ensures var g := WriteStage(u, n, e, now, s.cm, map[s.key := value], api, peers);
      match WriteEnd(u, s, value, api)
      case Written => g.Go? && Wrote(u, g.w, s, value)
      case NotFound => g.Stop? && g.out == RequeueAfter && Said(w, g.w, n, e, now, peers, false, "ConfigMapMissing", "")
      case WriteError => g == Stop(u, Failed)
  {
    WriteCMEffect(u, s, value, api);
    SetReadySays(w, u, n, e, now, peers, false, "ConfigMapMissing", "");
  }

  lemma ExistingWriteEnds(w: World, n: NN, e: Env, now: int, cm: NN, put: Data, api: Api, peers: nat)
    requires n in w.routes && cm in w.cms
    ensures var g := WriteStage(w, n, e, now, cm, put, api, peers);
      if api.NoRead? || (api.NoUpdate? && Merge(w.cms[cm], put) != w.cms[cm]) then g == Stop(w, Failed)
      else g.Go? && g.w.routes == w.routes && g.w.cms.Keys == w.cms.Keys
  {
  }

  /** The CART write is skipped, succeeds or ends in an error; the ConfigMap has been read, so it exists. */
  lemma CartWriteEnds(w: World, n: NN, e: Env, now: int)
    requires n in w.routes && w.routes[n].spec.cart.Some?
    ensures var g := CartWrite(w, n, e, now);
      if CartWriteGoes(w, n, w.routes[n].spec.cart.value, e) then
        g.Go? && g.w.routes == w.routes && g.w.cms.Keys == w.cms.Keys
      else g == Stop(w, Failed)
  {
    var c := w.routes[n].spec.cart.value;
    var cm := SplitNSName(c.cmRef, n.ns);
    if e.cartText.Some? && cm in w.cms {
      ExistingWriteEnds(w, n, e, now, cm, map[CartKey(c) := e.cartText.value], e.cartWrite, 0);
    }
  }

  lemma CartStageEnds(w: World, n: NN, e: Env, now: int)
    requires n in w.routes
    ensures var g := CartStage(w, n, e, now);
      if CartGoes(w, n, e) then g.Go? && g.w.routes == w.routes && g.w.cms.Keys == w.cms.Keys
      else if CartLost(w, n, e) then
        g.Stop? && g.out == RequeueAfter && Said(w, g.w, n, e, now, 0, false, "DiscoverError", "")
      else g == Stop(w, Failed)
  {
    if w.routes[n].spec.cart.Some? {
      CartWriteEnds(w, n, e, now);
      if CartWriteGoes(w, n, w.routes[n].spec.cart.value, e) {
        SetReadySays(w, CartWrite(w, n, e, now).w, n, e, now, 0, false, "DiscoverError", "");
      }
    }
  }

  lemma OwnerStageEnds(w: World, n: NN, e: Env, now: int)
    requires n in w.routes
    ensures var r, g := w.routes[n], OwnerStage(w, n, e, now);
      match ConfEnd(w, r, e)
      case Written =>
        && Unsaid(w, g.w, n) && (g.Stop? ==> g.out == Failed)
        && (g.Go? <==> e.syncReads && !RenameListFails(r, e))
      case NotFound =>
        && g.Stop? && g.out == RequeueAfter
        && Said(w, g.w, n, e, now, CartPeers(r, e), false, "ConfigMapMissing", "")
      case WriteError => g.Stop? && g.out == Failed && Unsaid(w, g.w, n)
  {
    var w1 := SLOStage(w, n, e, now);
    SLOUnsaid(w, n, e, now);
    SLOStageBookkeeping(w, n, e, now);
    if e.conf.Some? {
      OwnerWriteEnds(w, w1, n, e, now);
    }
  }

  lemma OwnerWriteEnds(w: World, u: World, n: NN, e: Env, now: int)
    requires Unsaid(w, u, n) && Bookkeeping(w, u, n) && e.conf.Some?
    ensures var r := w.routes[n];
      var g := WriteStage(u, n, e, now, Target(r).cm, map[Target(r).key := e.conf.value], e.confWrite, CartPeers(r, e));
      match ConfEnd(w, r, e)
      case Written =>
        var h := RecordKey(g.w, n, e, now);
        && g.Go? && Unsaid(w, h.w, n) && (h.Stop? ==> h.out == Failed)
        && (h.Go? <==> e.syncReads && !RenameListFails(r, e))
      case NotFound =>
        && g.Stop? && g.out == RequeueAfter
        && Said(w, g.w, n, e, now, CartPeers(r, e), false, "ConfigMapMissing", "")
      case WriteError => g == Stop(u, Failed)
  {
    var r := w.routes[n];
    WriteStageEnds(w, u, n, e, now, Target(r), e.conf.value, e.confWrite, CartPeers(r, e));
    if ConfEnd(w, r, e).Written? {
      var g := WriteStage(u, n, e, now, Target(r).cm, map[Target(r).key := e.conf.value], e.confWrite, CartPeers(r, e));
      RecordKeyUnsaid(g.w, n, e, now);
      UnsaidTransitive(w, g.w, RecordKey(g.w, n, e, now).w, n);
    }
  }

  lemma LoserStageEnds(w: World, n: NN, e: Env, now: int)
    requires n in w.routes
    ensures var g := LoserStage(w, n, e, now);
      Unsaid(w, g.w, n) && (g.Go? <==> e.syncReads) && (g.Stop? ==> g.out == Failed)
  {
    var u := ClearSLO(w, n, e);
    ClearSLOUnsaid(w, n, e);
    SyncOrphansUnsaid(u, n, e, now);
    UnsaidTransitive(w, u, SyncOrphans(u, n, e, now).w, n);
  }

  lemma MonitorStageEnds(w: World, u: World, n: NN, e: Env, now: int)
    requires Unsaid(w, u, n) && u.routes[n].id == n
    ensures var r, g := u.routes[n], MonitorStage(u, n, e, now);
      if MonitorLost(r, e) then
        g.Stop? && g.out == RequeueAfter && Said(w, g.w, n, e, now, CartPeers(r, e), false, "DiscoverError", "")
      else
        match MonitorEnd(u, r, e)
        case Written => g.Go? && Unsaid(w, g.w, n)
        case NotFound =>
          && g.Stop? && g.out == RequeueAfter
          && Said(w, g.w, n, e, now, CartPeers(r, e), false, "ConfigMapMissing", "")
        case WriteError => g == Stop(u, Failed)
  {
    var r := u.routes[n];
    if r.spec.monitorCM.Some? {
      var s := MonitorSlot(r, r.spec.monitorCM.value);
      WriteStageEnds(w, u, n, e, now, s, e.monitorText, e.monitorWrite, CartPeers(r, e));
      SetReadySays(w, u, n, e, now, CartPeers(r, e), false, "DiscoverError", "");
    }
  }

  /** The openresty stage writes no monitor key, so the monitor's write ends as it would have before it. */
  lemma MonitorEndKept(u: World, x: World, n: NN, e: Env)
    requires ValidName(n) && OnlyStatus(u, x, n) && u.routes[n].id == n
    requires forall t: Slot :: t != Target(u.routes[n]) ==> Content(x, t) == Content(u, t)
    ensures MonitorEnd(x, x.routes[n], e) == MonitorEnd(u, u.routes[n], e)
  {
    OpenrestyKeyIsRouteKey(NginxRoute(u.routes[n]));
    MonitorKeyIsNotRouteKey(n.name);
  }

  /** How the reconcile ends once its openresty stage let it go on. */
  ghost predicate Concluded(w: World, u: World, n: NN, e: Env, now: int, conflict: bool, owner: NN, res: (World, Outcome))
    requires n in w.routes && n in u.routes
  {
    var r, v := u.routes[n], res.0;
    var peers := CartPeers(r, e);
    if MonitorLost(r, e) then res.1.RequeueAfter? && Said(w, v, n, e, now, peers, false, "DiscoverError", "")
    else
      match MonitorEnd(u, r, e)
      case NotFound => res.1.RequeueAfter? && Said(w, v, n, e, now, peers, false, "ConfigMapMissing", "")
      case WriteError => res.1.Failed? && Unsaid(w, v, n)
      case Written =>
        && res.1.RequeueAfter?
        && if conflict then Said(w, v, n, e, now, peers, false, "RouteKeyConflict", QualifiedName(owner))
           else Said(w, v, n, e, now, peers, true, "Synced", "")
  }

  lemma FinishConcludes(w: World, u: World, x: World, n: NN, e: Env, now: int, conflict: bool, owner: NN)
    requires ValidName(n) && Unsaid(w, x, n) && n in u.routes && u.routes[n].id == n && x.routes[n].id == n
    requires MonitorEnd(x, x.routes[n], e) == MonitorEnd(u, u.routes[n], e)
    requires x.routes[n].spec == u.routes[n].spec
    ensures Concluded(w, u, n, e, now, conflict, owner, Finish(Go(x), n, e, now, conflict, owner))
  {
    MonitorStageEnds(w, x, n, e, now);
    var g := MonitorStage(x, n, e, now);
    if g.Go? {
      var peers := CartPeers(g.w.routes[n], e);
      SetReadySays(w, g.w, n, e, now, peers, false, "RouteKeyConflict", QualifiedName(owner));
      SetReadySays(w, g.w, n, e, now, peers, true, "Synced", "");
    }
  }

  /** How the reconcile ends for the owner. */
  ghost predicate OwnerConcluded(w: World, u: World, n: NN, e: Env, now: int, res: (World, Outcome))
    requires n in w.routes && n in u.routes
  {
    var r := u.routes[n];
    match ConfEnd(u, r, e)
    case Written =>
      if e.syncReads && !RenameListFails(r, e) then Concluded(w, u, n, e, now, false, n, res)
      else res.1.Failed? && Unsaid(w, res.0, n)
    case NotFound =>
      res.1.RequeueAfter? && Said(w, res.0, n, e, now, CartPeers(r, e), false, "ConfigMapMissing", "")
    case WriteError => res.1.Failed? && Unsaid(w, res.0, n)
  }

  lemma PublishConcludes(w: World, u: World, n: NN, e: Env, now: int)
    requires WellFormed(u) && Unsaid(w, u, n)
    ensures OwnerConcluded(w, u, n, e, now, Finish(OwnerStage(u, n, e, now), n, e, now, false, n))
  {
    var x := OwnerStage(u, n, e, now).w;
    OwnerStageEnds(u, n, e, now);
    OwnerStageEffect(u, n, e, now);
    if ConfEnd(u, u.routes[n], e).NotFound? {
      SaidAfter(w, u, x, n, e, now, CartPeers(u.routes[n], e), false, "ConfigMapMissing", "");
    } else {
      UnsaidTransitive(w, u, x, n);
      MonitorEndKept(u, x, n, e);
      FinishConcludes(w, u, x, n, e, now, false, n);
    }
  }

  lemma YieldConcludes(w: World, u: World, n: NN, e: Env, now: int, owner: NN)
    requires WellFormed(u) && Unsaid(w, u, n)
    ensures var res := Finish(LoserStage(u, n, e, now), n, e, now, true, owner);
      if e.syncReads then Concluded(w, u, n, e, now, true, owner, res) else res.1.Failed? && Unsaid(w, res.0, n)
  {
    var x := LoserStage(u, n, e, now).w;
    LoserStageEnds(u, n, e, now);
    LoserStageEffect(u, n, e, now);
    UnsaidTransitive(w, u, x, n);
    MonitorEndKept(u, x, n, e);
    FinishConcludes(w, u, x, n, e, now, true, owner);
  }

  /** The Ready condition after the reconcile of a live route, and how it is queued again. It is true with
      "Synced" after every stage was passed by the owner of the key, and false with "RouteKeyConflict", naming
      that owner, after they were passed by anybody else; what discovery did not find and ConfigMaps that do not
      exist are told as such; and any other failure is returned, and leaves the condition alone. */
  ghost predicate Verdict(w: World, u: World, n: NN, e: Env, now: int, v: World, out: Outcome)
    requires n in w.routes && n in u.routes
  {
    var s, peers := Target(w.routes[n]), if e.backends.Some? then CartPeers(w.routes[n], e) else 0;
    if e.backends == Some(0) then
      out.RequeueAfter? && Said(w, v, n, e, now, 0, false, "NoBackends", "")
    else if Undiscovered(w, u, n, e) then
      out.RequeueAfter? && Said(w, v, n, e, now, peers, false, "DiscoverError", "")
    else if Missing(w, u, n, e) then
      out.RequeueAfter? && Said(w, v, n, e, now, peers, false, "ConfigMapMissing", "")
    else if !Delivered(w, u, n, e) then
      out.Failed? && Unsaid(w, v, n)
    else if IsOwner(w.routes, s, n) then
      out.RequeueAfter? && Said(w, v, n, e, now, peers, true, "Synced", "")
    else
      && out.RequeueAfter?
      && exists o :: IsOwner(w.routes, s, o) && Said(w, v, n, e, now, peers, false, "RouteKeyConflict", QualifiedName(o))
  }

  lemma OwnerVerdict(w: World, u: World, n: NN, e: Env, now: int, res: (World, Outcome))
    requires n in w.routes && u.routes == w.routes && ReachesDecision(w, n, e)
    requires IsOwner(w.routes, Target(w.routes[n]), n) && OwnerConcluded(w, u, n, e, now, res)
    ensures Verdict(w, u, n, e, now, res.0, res.1)
  {
  }

  lemma LoserVerdict(w: World, u: World, n: NN, e: Env, now: int, owner: NN, res: (World, Outcome))
    requires n in w.routes && u.routes == w.routes && ReachesDecision(w, n, e)
    requires IsOwner(w.routes, Target(w.routes[n]), owner) && !IsOwner(w.routes, Target(w.routes[n]), n)
    requires if e.syncReads then Concluded(w, u, n, e, now, true, owner, res) else res.1.Failed? && Unsaid(w, res.0, n)
    ensures Verdict(w, u, n, e, now, res.0, res.1)
  {
  }

  lemma DecideIsVerdict(w: World, u: World, n: NN, e: Env, now: int)
    requires WellFormed(u) && Unsaid(w, u, n) && !w.routes[n].deleting && u.routes == w.routes
    requires e.backends.Some? && e.backends.value > 0 && CartGoes(w, n, e)
    ensures var res := Decide(Go(u), n, e, now);
      Verdict(w, u, n, e, now, res.0, res.1)
  {
    if e.ownerList {
      var owner := OwnerOf(u.routes, Target(u.routes[n]));
      OwnerOfIsOwner(u.routes, n);
      if owner == n {
        PublishConcludes(w, u, n, e, now);
        OwnerVerdict(w, u, n, e, now, Finish(OwnerStage(u, n, e, now), n, e, now, false, n));
      } else {
        YieldConcludes(w, u, n, e, now, owner);
        LoserVerdict(w, u, n, e, now, owner, Finish(LoserStage(u, n, e, now), n, e, now, true, owner));
      }
    }
  }

  lemma ReconcileTells(w: World, n: NN, e: Env, now: int)
    requires WellFormed(w) && n in w.routes && !w.routes[n].deleting && w.routes[n].finalizer
    ensures var (v, out) := ReconcileStep(w, n, e, now);
      Verdict(w, CartStage(w, n, e, now).w, n, e, now, v, out)
  {
    var g := CartStage(w, n, e, now);
    CartStageEnds(w, n, e, now);
    SetReadySays(w, w, n, e, now, 0, false, "DiscoverError", "");
    SetReadySays(w, w, n, e, now, 0, false, "NoBackends", "");
    if e.backends.Some? && e.backends.value > 0 && g.Go? {
      CartStageCalm(w, n, e, now);
      DecideIsVerdict(w, g.w, n, e, now);
    }
  }

  /** A reconcile that ends with a report, and gets it written, leaves the route ready exactly when the route
      owns its key and every stage was passed. */
  lemma ReadyExactly(w: World, n: NN, e: Env, now: int)
    requires WellFormed(w) && n in w.routes && !w.routes[n].deleting && w.routes[n].finalizer
    ensures var (v, out) := ReconcileStep(w, n, e, now);
      && n in v.routes && (out.RequeueAfter? || out.Failed?)
      && (out.RequeueAfter? && e.status.ready ==>
            (v.routes[n].status.ready <==>
               Delivered(w, CartStage(w, n, e, now).w, n, e) && IsOwner(w.routes, Target(w.routes[n]), n)))
  {
    ReconcileTells(w, n, e, now);
  }

  // ---- What else a reconcile reports and writes ----

  /** The SLO condition is as it was. */
  ghost predicate SLOKept(w: World, v: World, n: NN) {
    n in w.routes && n in v.routes && Reported(v, n, SLO_COND) == Reported(w, n, SLO_COND)
  }

  lemma SetReadyKeepsSLO(w: World, n: NN, e: Env, now: int, peers: nat, ready: bool, reason: string, message: string)
    requires n in w.routes
    ensures SLOKept(w, SetReady(w, n, e, now, peers, ready, reason, message), n)
  {
    ReadyReported(w, n, e, now, peers, ready, reason, message);
  }

  lemma SyncOrphansKeepsSLO(w: World, n: NN, e: Env, now: int)
    requires n in w.routes
    ensures SLOKept(w, SyncOrphans(w, n, e, now).w, n)
  {
    var st := w.routes[n].status;
    var live := Kept(w, n, st.orphans);
    SetCondEffect(st.conds, Condition(ORPHAN_COND, true, "Orphaned", OrphanMessage(live), now));
    RemoveCondEffect(st.conds, ORPHAN_COND);
  }

  lemma RecordKeyKeepsSLO(w: World, n: NN, e: Env, now: int)
    requires n in w.routes
    ensures SLOKept(w, RecordKey(w, n, e, now).w, n)
  {
    var w1 := NoteOrphan(w, n, e);
    var w2 := NoteRecord(w1, n, e);
    assert SLOKept(w, w1, n) && SLOKept(w1, w2, n);
    SyncOrphansKeepsSLO(w2, n, e, now);
  }

  lemma WriteStageKeepsSLO(w: World, n: NN, e: Env, now: int, cm: NN, put: Data, api: Api, peers: nat)
    requires n in w.routes
    ensures SLOKept(w, WriteStage(w, n, e, now, cm, put, api, peers).w, n)
  {
    SetReadyKeepsSLO(w, n, e, now, peers, false, "ConfigMapMissing", "");
  }

  lemma FinishKeepsSLO(g: Stage, n: NN, e: Env, now: int, conflict: bool, owner: NN)
    requires n in g.w.routes
    ensures SLOKept(g.w, Finish(g, n, e, now, conflict, owner).0, n)
  {
    if g.Go? {
      var r, peers := g.w.routes[n], CartPeers(g.w.routes[n], e);
      SetReadyKeepsSLO(g.w, n, e, now, peers, false, "DiscoverError", "");
      if r.spec.monitorCM.Some? {
        var cm, put := SplitNSName(r.spec.monitorCM.value, n.ns), map[MonitorKey(n.name) := e.monitorText];
        WriteStageKeepsSLO(g.w, n, e, now, cm, put, e.monitorWrite, peers);
      }
      var x := MonitorStage(g.w, n, e, now).w;
      var xpeers := CartPeers(x.routes[n], e);
      SetReadyKeepsSLO(x, n, e, now, xpeers, false, "RouteKeyConflict", QualifiedName(owner));
      SetReadyKeepsSLO(x, n, e, now, xpeers, true, "Synced", "");
    }
  }

  lemma OwnerStageSLO(w: World, n: NN, e: Env, now: int)
    requires n in w.routes
    ensures SLOKept(SLOStage(w, n, e, now), OwnerStage(w, n, e, now).w, n)
  {
    var u := SLOStage(w, n, e, now);
    if e.conf.Some? {
      var r := w.routes[n];
      var s := Target(r);
      WriteStageKeepsSLO(u, n, e, now, s.cm, map[s.key := e.conf.value], e.confWrite, CartPeers(r, e));
      var g := WriteStage(u, n, e, now, s.cm, map[s.key := e.conf.value], e.confWrite, CartPeers(r, e));
      RecordKeyKeepsSLO(g.w, n, e, now);
    }
  }

  /** The SLO condition after a reconcile that got as far as deciding who owns the key: the owner of a key whose
      spec asks for an SLO reports this reconcile's outcome, since its status last changed; any other route has
      no such condition. The one status write this takes may fail. */
  ghost predicate SLOVerdict(w: World, v: World, n: NN, e: Env, now: int, owns: bool)
    requires n in w.routes
  {
    && n in v.routes
    && var was, said := Reported(w, n, SLO_COND), Reported(v, n, SLO_COND);
       if !e.status.slo then said == was
       else if owns && w.routes[n].spec.slo then
         var since := Since(w, n, SLO_COND, e.slo.status, now);
         said == Some(Condition(SLO_COND, e.slo.status, e.slo.reason, e.slo.message, since))
       else said == None
  }

  lemma DecideTellsSLO(u: World, n: NN, e: Env, now: int)
    requires WellFormed(u) && n in u.routes && !u.routes[n].deleting && e.ownerList
    requires UniqueTypes(u.routes[n].status.conds)
    ensures SLOVerdict(u, Decide(Go(u), n, e, now).0, n, e, now, IsOwner(u.routes, Target(u.routes[n]), n))
  {
    OwnerOfIsOwner(u.routes, n);
    var owner := OwnerOf(u.routes, Target(u.routes[n]));
    SLOCleared(u, n, e);
    if owner == n {
      SLOReported(u, n, e, now);
      OwnerStageSLO(u, n, e, now);
      FinishKeepsSLO(OwnerStage(u, n, e, now), n, e, now, false, owner);
    } else {
      SyncOrphansKeepsSLO(ClearSLO(u, n, e), n, e, now);
      FinishKeepsSLO(LoserStage(u, n, e, now), n, e, now, true, owner);
    }
  }

  lemma ReconcileTellsSLO(w: World, n: NN, e: Env, now: int)
    requires WellFormed(w) && n in w.routes && !w.routes[n].deleting && w.routes[n].finalizer
    requires UniqueTypes(w.routes[n].status.conds) && ReachesDecision(w, n, e)
    ensures SLOVerdict(w, ReconcileStep(w, n, e, now).0, n, e, now, IsOwner(w.routes, Target(w.routes[n]), n))
  {
    CartStageEnds(w, n, e, now);
    CartStageCalm(w, n, e, now);
    DecideTellsSLO(CartStage(w, n, e, now).w, n, e, now);
  }

  lemma FinishWritesMonitor(x: World, n: NN, e: Env, now: int, conflict: bool, owner: NN)
    requires n in x.routes && x.routes[n].id == n && x.routes[n].spec.monitorCM.Some?
    requires e.monitorPeers && MonitorEnd(x, x.routes[n], e).Written?
    ensures var s := MonitorSlot(x.routes[n], x.routes[n].spec.monitorCM.value);
      Content(Finish(Go(x), n, e, now, conflict, owner).0, s) == WriteValue(Content(x, s), e.monitorText)
  {
    var r := x.routes[n];
    WriteStageEffect(x, n, e, now, MonitorSlot(r, r.spec.monitorCM.value), e.monitorText, e.monitorWrite, CartPeers(r, e));
  }

  /** The openresty stage of a reconcile that passes it goes on, and leaves the monitor's keys alone. */
  lemma PassesToMonitor(u: World, n: NN, e: Env, now: int, s: Slot) returns (x: World)
    requires WellFormed(u) && n in u.routes && !u.routes[n].deleting && RoutePasses(u, n, e) && !IsRouteKey(s.key)
    ensures var owner := OwnerOf(u.routes, Target(u.routes[n]));
      (if owner == n then OwnerStage(u, n, e, now) else LoserStage(u, n, e, now)) == Go(x)
    ensures n in x.routes && x.routes[n].id == n && x.routes[n].spec == u.routes[n].spec
    ensures MonitorEnd(x, x.routes[n], e) == MonitorEnd(u, u.routes[n], e) && Content(x, s) == Content(u, s)
  {
    OwnerOfIsOwner(u.routes, n);
    OpenrestyKeyIsRouteKey(NginxRoute(u.routes[n]));
    if OwnerOf(u.routes, Target(u.routes[n])) == n {
      x := OwnerStage(u, n, e, now).w;
      OwnerStageEffect(u, n, e, now);
      OwnerStageEnds(u, n, e, now);
    } else {
      x := LoserStage(u, n, e, now).w;
      LoserStageEffect(u, n, e, now);
      LoserStageEnds(u, n, e, now);
    }
    MonitorEndKept(u, x, n, e);
  }

  lemma DecideWritesMonitor(u: World, n: NN, e: Env, now: int)
    requires WellFormed(u) && n in u.routes && !u.routes[n].deleting && u.routes[n].spec.monitorCM.Some?
    requires e.ownerList && RoutePasses(u, n, e) && e.monitorPeers && MonitorEnd(u, u.routes[n], e).Written?
    ensures var s := MonitorSlot(u.routes[n], u.routes[n].spec.monitorCM.value);
      Content(Decide(Go(u), n, e, now).0, s) == WriteValue(Content(u, s), e.monitorText)
  {
    MonitorKeyIsNotRouteKey(n.name);
    var owner := OwnerOf(u.routes, Target(u.routes[n]));
    var x := PassesToMonitor(u, n, e, now, MonitorSlot(u.routes[n], u.routes[n].spec.monitorCM.value));
    FinishWritesMonitor(x, n, e, now, owner != n, owner);
  }

  /** A reconcile that passes all its stages has written the monitor's lines of the route. */
  lemma MonitorIsWritten(w: World, n: NN, e: Env, now: int)
    requires WellFormed(w) && n in w.routes && !w.routes[n].deleting && w.routes[n].finalizer
    requires Delivered(w, CartStage(w, n, e, now).w, n, e) && w.routes[n].spec.monitorCM.Some?
    ensures var u, v := CartStage(w, n, e, now).w, ReconcileStep(w, n, e, now).0;
      var s := MonitorSlot(w.routes[n], w.routes[n].spec.monitorCM.value);
      Content(v, s) == WriteValue(Content(u, s), e.monitorText)
  {
    CartStageEnds(w, n, e, now);
    CartStageCalm(w, n, e, now);
    DecideWritesMonitor(CartStage(w, n, e, now).w, n, e, now);
  }
}
