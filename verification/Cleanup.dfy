/** Which keys a controller run may delete. */
module CleanupSafety {
  import opened Names
  import opened Cluster
  import opened Reconcile
  import opened Effects
  import opened Runs

  /** The only openresty key a reconcile can make disappear is the one the finalizer of a route being deleted
      recorded (or, never having recorded one, renders), and only while no live route claims it. */
  lemma OnlyDeletion(w: World, n: NN, e: Env, now: int, s: Slot)
    requires WellFormed(w) && IsRouteKey(s.key) && Present(w, s)
    ensures !Present(ReconcileStep(w, n, e, now).0, s) ==>
              && n in w.routes && w.routes[n].deleting && w.routes[n].finalizer
              && s == CleanupSlot(w.routes[n]) && forall m :: !Claims(w.routes, m, s)
  {
    StepIsStepped(w, n, e, now);
    OnlyCleaningDeletes(w, ReconcileStep(w, n, e, now).0, n, e, s);
  }

  lemma OnlyCleaningDeletes(w: World, v: World, n: NN, e: Env, s: Slot)
    requires IsRouteKey(s.key) && Present(w, s) && Stepped(w, v, n, e)
    ensures !Present(v, s) ==>
              && n in w.routes && w.routes[n].deleting && w.routes[n].finalizer
              && s == CleanupSlot(w.routes[n]) && forall m :: !Claims(w.routes, m, s)
  {
    if n in w.routes && w.routes[n].deleting && w.routes[n].finalizer {
      assert forall m :: Claims(w.routes, m, s) ==> m != n;
    }
  }

  /** No controller run makes a live route's present key disappear. */
  lemma LiveKeySurvives(w: World, n: NN, e: Env, now: int, m: NN)
    requires WellFormed(w) && LiveReconcile(w, m) && Present(w, Target(w.routes[m]))
    ensures Present(ReconcileStep(w, n, e, now).0, Target(w.routes[m]))
  {
    var s := Target(w.routes[m]);
    OpenrestyKeyIsRouteKey(NginxRoute(w.routes[m]));
    if !Present(ReconcileStep(w, n, e, now).0, s) {
      OnlyDeletion(w, n, e, now, s);
      assert Claims(w.routes, m, s);
    }
  }

  /** When a finalizer completes, the key it answered for is gone or claimed by another live route; a key
      the route was only edited towards, without ever recording it, is not touched; and no other route
      changes. */
  lemma FinalizerCompletes(w: World, n: NN, e: Env, now: int)
    requires WellFormed(w) && n in w.routes && w.routes[n].deleting && w.routes[n].finalizer
    ensures var (v, out) := ReconcileStep(w, n, e, now);
      var r := w.routes[n];
      var s := CleanupSlot(r);
      && (out.Done? ==> !Present(v, s) || ClaimedByOther(w.routes, n, s))
      && (r.status.appliedKey != "" && Target(r) != Recorded(r) ==> Content(v, Target(r)) == Content(w, Target(r)))
      && (ClaimedByOther(w.routes, n, s) ==> Content(v, s) == Content(w, s))
      && v.routes == w.routes[n := r.(finalizer := !out.Done?)]
  {
    CleanupEffect(w, n, e);
    OpenrestyKeyIsRouteKey(NginxRoute(w.routes[n]));
  }

  lemma CleanupTouches(w: World, n: NN, e: Env, s: Slot)
    requires n in w.routes && w.routes[n].id == n
    ensures var (v, ok) := Cleanup(w, n, e);
      var r := w.routes[n];
      && (s != CleanupSlot(r) && (r.spec.monitorCM.Some? ==> s != MonitorSlot(r, r.spec.monitorCM.value)) ==>
            Content(v, s) == Content(w, s))
      && (ok && r.spec.monitorCM.Some? ==> !Present(v, MonitorSlot(r, r.spec.monitorCM.value)))
  {
    var r := w.routes[n];
    RemoveKeyEffect(w, CleanupSlot(r), e.cleanupRemove);
    if r.spec.monitorCM.Some? {
      RemoveKeyEffect(CleanupRoute(w, n, e).0, MonitorSlot(r, r.spec.monitorCM.value), e.cleanupMonitor);
    }
  }

  /** Of all the keys of all the ConfigMaps a finalizer touches two: the one it answers for, and the route's own
      in the monitor's ConfigMap. When it completes, the second is gone too. */
  lemma FinalizerTouchesTwoKeys(w: World, n: NN, e: Env, now: int, s: Slot)
    requires WellFormed(w) && n in w.routes && w.routes[n].deleting && w.routes[n].finalizer
    ensures var (v, out) := ReconcileStep(w, n, e, now);
      var r := w.routes[n];
      && (s != CleanupSlot(r) && (r.spec.monitorCM.Some? ==> s != MonitorSlot(r, r.spec.monitorCM.value)) ==>
            Content(v, s) == Content(w, s))
      && (out.Done? && r.spec.monitorCM.Some? ==> !Present(v, MonitorSlot(r, r.spec.monitorCM.value)))
  {
    CleanupTouches(w, n, e, s);
  }
}
