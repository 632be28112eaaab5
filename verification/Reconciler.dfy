/** The reconciler as it runs: methods that read and write the cluster's objects step by step, each proved to
    do what the function of `Reconcile.dfy` it is named after says. */
module Reconciling {
  import opened Base
  import opened Names
  import opened Conditions
  import opened Cluster
  import opened Ownership
  import opened Reconcile
  import opened Effects
  import opened Runs
  import opened Verdicts

  class Reconciler {
    var routes: Routes
    var cms: map<NN, Data>

    ghost function State(): World
      reads this
    {
      World(routes, cms)
    }

    /** The stage a method left, when it returned the outcome that ends the reconcile, or none to go on. */
    ghost function Left(stop: Option<Outcome>): Stage
      reads this
    {
      match stop
      case None => Go(State())
      case Some(out) => Stop(State(), out)
    }

    /** The List call: every route, in no particular order. */
    method List() returns (items: seq<Route>)
      requires Named(routes)
      ensures Lists(items, routes)
    {
      items := [];
      var left := routes.Keys;
      while left != {}
        invariant left <= routes.Keys
        invariant forall r :: r in items ==> r.id in routes && routes[r.id] == r
        invariant forall n :: n in routes && n !in left ==> routes[n] in items
        decreases left
      {
        var n :| n in left;
        items := items + [routes[n]];
        left := left - {n};
      }
    }

    /** `writeConfigMap`: merges `put` into an existing ConfigMap, and updates it only when that changes it. */
    method WriteConfigMap(cm: NN, put: Data, api: Api) returns (res: WriteResult)
      modifies this`cms
      ensures (State(), res) == WriteCM(old(State()), cm, put, api)
    {
      if api == NoRead {
        return WriteError;
      }
      if cm !in cms {
        return NotFound;
      }
      var was := cms[cm];
      var data, changed := was, false;
      var left := put.Keys;
      while left != {}
        invariant left <= put.Keys && unchanged(this)
        invariant data == Merge(was, map k | k in put && k !in left :: put[k])
        invariant changed <==> data != was
        decreases left
      {
        var k :| k in left;
        MergeOne(was, put, left, k);
        if Lookup(data, k) != put[k] {
          data, changed := data[k := put[k]], true;
        }
        left := left - {k};
      }
      assert data == Merge(was, put) by {
        assert (map k | k in put && k !in left :: put[k]) == put;
      }
      if !changed {
        return Written;
      }
      if api == NoUpdate {
        return WriteError;
      }
      cms := cms[cm := data];
      return Written;
    }

    /** `removeConfigMapKey`. */
    method RemoveConfigMapKey(s: Slot, api: Api) returns (ok: bool)
      modifies this`cms
      ensures (State(), ok) == RemoveKey(old(State()), s, api)
    {
      if api == NoRead {
        return false;
      }
      if s.cm !in cms || s.key !in cms[s.cm] {
        return true;
      }
      if api == NoUpdate {
        return false;
      }
      cms := cms[s.cm := cms[s.cm] - {s.key}];
      return true;
    }

    /** `updateStatus`. */
    method UpdateStatus(n: NN, ok: bool, st: Status)
      requires n in routes
      modifies this`routes
      ensures n in routes && State() == WithStatus(old(State()), n, ok, st)
    {
      if ok {
        routes := routes[n := routes[n].(status := st)];
      }
    }

    /** `setStatus`. */
    method SetStatus(n: NN, e: Env, now: int, cartPeers: nat, ready: bool, reason: string, message: string)
      requires n in routes
      modifies this`routes
      ensures n in routes && State() == SetReady(old(State()), n, e, now, cartPeers, ready, reason, message)
    {
      var st := routes[n].status;
      var backends := if e.backends.Some? then e.backends.value else 0;
      var conds := SetCond(st.conds, Condition("Ready", ready, reason, message, now));
      UpdateStatus(n, e.status.ready, st.(backends := backends, cartPeers := cartPeers, ready := ready, conds := conds));
    }

    method SyncSLOCondition(n: NN, e: Env, now: int)
      requires n in routes
      modifies this`routes
      ensures n in routes && State() == SyncSLO(old(State()), n, e, now)
    {
      var st := routes[n].status;
      var c := Condition(SLO_COND, e.slo.status, e.slo.reason, e.slo.message, now);
      for i := 0 to |st.conds|
        invariant forall k :: 0 <= k < i ==> st.conds[k].(time := now) != c
      {
        if st.conds[i].(time := now) == c {
          return;
        }
      }
      UpdateStatus(n, e.status.slo, st.(conds := SetCond(st.conds, c)));
    }

    method ClearSLOCondition(n: NN, e: Env)
      requires n in routes
      modifies this`routes
      ensures n in routes && State() == ClearSLO(old(State()), n, e)
    {
      var st := routes[n].status;
      if HasCond(st.conds, SLO_COND) {
        UpdateStatus(n, e.status.slo, st.(conds := RemoveCond(st.conds, SLO_COND)));
      }
    }

    /** Whether an orphan reference still denotes an existing key that no other route claims. */
    method OrphanIsLive(n: NN, ref: string) returns (live: bool)
      requires Named(routes) && n in routes
      ensures live <==> KeepOrphan(State(), n, ref)
    {
      var parsed := SplitOrphanRef(ref);
      if parsed == None {
        return false;
      }
      var s := Slot(SplitNSName(parsed.value.0, n.ns), parsed.value.1);
      if s.cm !in cms || s.key !in cms[s.cm] {
        return false;
      }
      var items := List();
      var claimed := KeyClaimedByOther(items, routes[n], s, routes);
      return !claimed;
    }

    method LiveOrphans(n: NN, refs: seq<string>) returns (live: seq<string>)
      requires Named(routes) && n in routes
      ensures live == Kept(State(), n, refs)
    {
      live := [];
      ghost var w := State();
      for i := 0 to |refs|
        invariant live == Kept(w, n, refs[..i])
      {
        assert refs[..i + 1][..i] == refs[..i];
        var keep := OrphanIsLive(n, refs[i]);
        if keep {
          live := live + [refs[i]];
        }
      }
      assert refs[..|refs|] == refs;
    }

    method SyncOrphanCondition(n: NN, e: Env, now: int) returns (stop: Option<Outcome>)
      requires Named(routes) && n in routes
      modifies this`routes
      ensures n in routes && Left(stop) == SyncOrphans(old(State()), n, e, now)
    {
      if !e.syncReads {
        return Some(Failed);
      }
      var st := routes[n].status;
      var live := LiveOrphans(n, st.orphans);
      if |live| != |st.orphans| || (live != []) != HasCond(st.conds, ORPHAN_COND) {
        UpdateStatus(n, e.status.sync, OrphanStatus(st, live, now));
      }
      return None;
    }

    /** The first half of `reconcileRenamedKey`: the slot recorded so far, once left, is listed as an orphan
        unless another route claims it. */
    method NoteRenamedKey(n: NN, e: Env) returns (ok: bool)
      requires Named(routes) && n in routes
      modifies this`routes
      ensures ok <==> !RenameListFails(old(routes[n]), e)
      ensures State() == if ok then NoteOrphan(old(State()), n, e) else old(State())
    {
      var r := routes[n];
      ok := true;
      if r.status.appliedKey != "" && Moved(r) {
        if !e.renameList {
          return false;
        }
        var items := List();
        var claimed := KeyClaimedByOther(items, r, Recorded(r), routes);
        if !claimed {
          var refs := AppendUnique(r.status.orphans, OrphanRef(Recorded(r)));
          UpdateStatus(n, e.status.orphan, r.status.(orphans := refs));
        }
      }
    }

    /** `reconcileRenamedKey`. */
    method ReconcileRenamedKey(n: NN, e: Env, now: int) returns (stop: Option<Outcome>)
      requires Named(routes) && n in routes
      modifies this`routes
      ensures n in routes && Left(stop) == RecordKey(old(State()), n, e, now)
    {
      var r := routes[n];
      var ok := NoteRenamedKey(n, e);
      if !ok {
        return Some(Failed);
      }
      if Moved(r) {
        UpdateStatus(n, e.status.applied, routes[n].status.(appliedKey := Target(r).key, appliedCM := r.spec.cmRef));
      }
      stop := SyncOrphanCondition(n, e, now);
    }

    /** A write to an output ConfigMap, and what becomes of the reconcile when it fails. */
    method WriteOutput(n: NN, e: Env, now: int, cm: NN, put: Data, api: Api, cartPeers: nat)
      returns (stop: Option<Outcome>)
      requires n in routes
      modifies this
      ensures n in routes && Left(stop) == WriteStage(old(State()), n, e, now, cm, put, api, cartPeers)
    {
      var res := WriteConfigMap(cm, put, api);
      match res {
        case Written =>
          return None;
        case NotFound =>
          SetStatus(n, e, now, cartPeers, false, "ConfigMapMissing", "");
          return Some(RequeueAfter);
        case WriteError =>
          return Some(Failed);
      }
    }

    method SyncCart(n: NN, e: Env, now: int) returns (stop: Option<Outcome>)
      requires n in routes
      modifies this
      ensures n in routes && Left(stop) == CartStage(old(State()), n, e, now)
    {
      if routes[n].spec.cart == None {
        return None;
      }
      var c := routes[n].spec.cart.value;
      var cm := SplitNSName(c.cmRef, n.ns);
      var exclusiveBase := c.outputKey == "";
      var readable := e.cartRead && cm in cms;
      if readable && !(exclusiveBase && Lookup(cms[cm], CartKey(c)) == "") {
        if e.cartText == None {
          return Some(Failed);
        }
        stop := WriteOutput(n, e, now, cm, map[CartKey(c) := e.cartText.value], e.cartWrite, 0);
        if stop != None {
          return;
        }
      }
      if e.cartPeers == None {
        SetStatus(n, e, now, 0, false, "DiscoverError", "");
        return Some(RequeueAfter);
      }
      return None;
    }

    method PublishRoute(n: NN, e: Env, now: int) returns (stop: Option<Outcome>)
      requires Named(routes) && n in routes
      modifies this
      ensures n in routes && Left(stop) == OwnerStage(old(State()), n, e, now)
    {
      var r := routes[n];
      if r.spec.slo {
        SyncSLOCondition(n, e, now);
      } else {
        ClearSLOCondition(n, e);
      }
      SLOStageBookkeeping(old(State()), n, e, now);
      if e.conf == None {
        return Some(Failed);
      }
      var s := Target(r);
      ghost var before := State();
      stop := WriteOutput(n, e, now, s.cm, map[s.key := e.conf.value], e.confWrite, CartPeers(r, e));
      WriteStageEffect(before, n, e, now, s, e.conf.value, e.confWrite, CartPeers(r, e));
      if stop == None {
        stop := ReconcileRenamedKey(n, e, now);
      }
    }

    method YieldRoute(n: NN, e: Env, now: int) returns (stop: Option<Outcome>)
      requires Named(routes) && n in routes
      modifies this
      ensures n in routes && Left(stop) == LoserStage(old(State()), n, e, now)
    {
      ClearSLOCondition(n, e);
      SLOStageBookkeeping(old(State()), n, e, now);
      stop := SyncOrphanCondition(n, e, now);
    }

    method SyncMonitor(n: NN, e: Env, now: int) returns (stop: Option<Outcome>)
      requires n in routes
      modifies this
      ensures n in routes && Left(stop) == MonitorStage(old(State()), n, e, now)
    {
      var r := routes[n];
      if r.spec.monitorCM == None {
        return None;
      }
      if !e.monitorPeers {
        SetStatus(n, e, now, CartPeers(r, e), false, "DiscoverError", "");
        return Some(RequeueAfter);
      }
      var cm := SplitNSName(r.spec.monitorCM.value, n.ns);
      stop := WriteOutput(n, e, now, cm, map[MonitorKey(n.name) := e.monitorText], e.monitorWrite, CartPeers(r, e));
    }

    /** The openresty half of `cleanupSharedKeys`. */
    method CleanupRouteKey(n: NN, e: Env) returns (ok: bool)
      requires Named(routes) && n in routes
      modifies this`cms
      ensures (State(), ok) == CleanupRoute(old(State()), n, e)
    {
      var r := routes[n];
      var s := if r.status.appliedKey == "" then Target(r) else Recorded(r);
      if !e.cleanupList {
        return false;
      }
      var items := List();
      var claimed := KeyClaimedByOther(items, r, s, routes);
      if claimed {
        return true;
      }
      ok := RemoveConfigMapKey(s, e.cleanupRemove);
    }

    /** `cleanupSharedKeys`. */
    method CleanupSharedKeys(n: NN, e: Env) returns (ok: bool)
      requires Named(routes) && n in routes
      modifies this`cms
      ensures (State(), ok) == Cleanup(old(State()), n, e)
    {
      var r := routes[n];
      ok := CleanupRouteKey(n, e);
      if ok && r.spec.monitorCM != None {
        ok := RemoveConfigMapKey(Slot(SplitNSName(r.spec.monitorCM.value, n.ns), MonitorKey(n.name)), e.cleanupMonitor);
      }
    }

    /** The rest of a reconcile that got past the openresty stage. */
    method SyncMonitorAndReport(n: NN, e: Env, now: int, conflict: bool, owner: string, ghost o: NN) returns (out: Outcome)
      requires n in routes && owner == QualifiedName(o)
      modifies this
      ensures (State(), out) == Finish(Go(old(State())), n, e, now, conflict, o)
    {
      var stop := SyncMonitor(n, e, now);
      if stop != None {
        return stop.value;
      }
      var cartPeers := CartPeers(routes[n], e);
      if conflict {
        SetStatus(n, e, now, cartPeers, false, "RouteKeyConflict", owner);
      } else {
        SetStatus(n, e, now, cartPeers, true, "Synced", "");
      }
      return RequeueAfter;
    }

    /** A live reconcile from the ownership decision on. */
    method SyncRoute(n: NN, e: Env, now: int) returns (out: Outcome)
      requires Named(routes) && n in routes && !routes[n].deleting
      modifies this
      ensures (State(), out) == Decide(Go(old(State())), n, e, now)
    {
      if !e.ownerList {
        return Failed;
      }
      var items := List();
      ghost var o := OwnerOf(routes, Target(routes[n]));
      var owner, conflict := RouteKeyOwner(items, routes[n], routes);
      var stop;
      if conflict {
        stop := YieldRoute(n, e, now);
      } else {
        stop := PublishRoute(n, e, now);
      }
      if stop != None {
        return stop.value;
      }
      out := SyncMonitorAndReport(n, e, now, conflict, owner, o);
    }

    /** `Reconcile`. */
    method Reconcile(n: NN, e: Env, now: int) returns (out: Outcome)
      requires WellFormed(State())
      modifies this
      ensures (State(), out) == ReconcileStep(old(State()), n, e, now)
      ensures WellFormed(State())
      ensures old(n in routes && !routes[n].deleting && routes[n].finalizer) ==>
        Verdict(old(State()), CartStage(old(State()), n, e, now).w, n, e, now, State(), out)
    {
      if n in routes && !routes[n].deleting && routes[n].finalizer {
        ReconcileTells(State(), n, e, now);
      }
      ApplyKeepsWellFormed(State(), ReconcileOne(n, e, now));
      if n !in routes {
        return Done;
      }
      if routes[n].deleting {
        if routes[n].finalizer {
          var ok := CleanupSharedKeys(n, e);
          if !ok || !e.finalizerWrite {
            return Failed;
          }
          routes := routes[n := routes[n].(finalizer := false)];
        }
        return Done;
      }
      if !routes[n].finalizer {
        if !e.finalizerWrite {
          return Failed;
        }
        routes := routes[n := routes[n].(finalizer := true)];
        return Requeue;
      }
      if e.backends == None {
        SetStatus(n, e, now, 0, false, "DiscoverError", "");
        return RequeueAfter;
      }
      if e.backends.value == 0 {
        SetStatus(n, e, now, 0, false, "NoBackends", "");
        return RequeueAfter;
      }
      ghost var before := State();
      var stop := SyncCart(n, e, now);
      CartStageCalm(before, n, e, now);
      if stop != None {
        return stop.value;
      }
      out := SyncRoute(n, e, now);
    }
  }

  /** One more entry of `put` merged in. */
  lemma MergeOne(data: Data, put: Data, left: set<string>, k: string)
    requires k in left && left <= put.Keys
    ensures var before := Merge(data, map x | x in put && x !in left :: put[x]);
      Merge(data, map x | x in put && x !in left - {k} :: put[x])
        == (if Lookup(before, k) != put[k] then before[k := put[k]] else before)
    ensures var before := Merge(data, map x | x in put && x !in left :: put[x]);
      Lookup(before, k) != put[k] ==> before[k := put[k]] != data
  {
  }
}
