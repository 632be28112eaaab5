/** Over whole runs, which actions make the cluster lose track of an openresty key that is still there. */
module LostKeys {
  import opened Base
  import opened Names
  import opened Cluster
  import opened Ownership
  import opened Reconcile
  import opened Runs
  import opened RenamedKeys

  /** If the key is there, some route records it, lists it as an orphan or renders into it. */
  ghost predicate Known(w: World, s: Slot) {
    Present(w, s) ==> Tracked(w, s)
  }

  /** The status of `n` mentions the key, as its record or in its orphan list. */
  ghost predicate Mentions(w: World, n: NN, s: Slot) {
    n in w.routes && (Holds(w.routes[n], s) || ListsOrphan(w, n, s))
  }

  ghost predicate OnlyTracker(w: World, n: NN, s: Slot) {
    Tracks(w, n, s) && !TrackedByOther(w, n, s)
  }

  /** The action leaves the key behind with nothing that knows it: a spec edit or a deletion takes away the only
      claim to a key that no status mentions; the only route that knows it is collected; a reconcile replaces the
      only record of it without storing the orphan entry; or somebody puts it there that no route knows. */
  ghost predicate Forgets(w: World, a: Action, s: Slot) {
    match a
    case Create(_) => false
    case EditSpec(n, spec) =>
      Present(w, s) && OnlyTracker(w, n, s) && !Mentions(w, n, s) && Target(w.routes[n].(spec := spec)) != s
    case Delete(n) => Present(w, s) && OnlyTracker(w, n, s) && !Mentions(w, n, s)
    case Collect(n) =>
      Present(w, s) && OnlyTracker(w, n, s) && w.routes[n].deleting && !w.routes[n].finalizer
    case ReconcileOne(n, e, _) =>
      Present(w, s) && OnlyTracker(w, n, s) && !w.routes[n].deleting && Forgetful(e) && Rerecords(w, n, e)
      && Holds(w.routes[n], s) && !ListsOrphan(w, n, s) && Target(w.routes[n]) != s
    case EditCM(cm, data) => cm == s.cm && data.Some? && s.key in data.value && !Tracked(w, s)
  }

  lemma TrackedSplits(w: World, n: NN, s: Slot)
    ensures Tracked(w, s) <==> Tracks(w, n, s) || TrackedByOther(w, n, s)
  {
  }

  /** A change of the route `n` alone leaves the others' tracks. */
  lemma OthersTrack(w: World, v: World, n: NN, s: Slot)
    requires forall o :: o != n ==> (o in v.routes <==> o in w.routes) && (o in w.routes ==> v.routes[o] == w.routes[o])
    ensures TrackedByOther(v, n, s) <==> TrackedByOther(w, n, s)
  {
    assert forall o :: o != n ==> (Tracks(v, o, s) <==> Tracks(w, o, s));
  }

  lemma RoutesTrack(w: World, v: World, s: Slot)
    requires v.routes == w.routes
    ensures Tracked(v, s) <==> Tracked(w, s)
  {
    assert forall o :: Tracks(v, o, s) <==> Tracks(w, o, s);
  }

  /** Replacing the route `n` untracks a key exactly when `n` alone tracked it and does so no more. */
  lemma RouteReplaced(w: World, n: NN, r: Route, s: Slot)
    ensures var v := w.(routes := w.routes[n := r]);
      (Present(v, s) <==> Present(w, s)) && (Tracked(v, s) <==> Tracks(v, n, s) || TrackedByOther(w, n, s))
  {
    var v := w.(routes := w.routes[n := r]);
    OthersTrack(w, v, n, s);
    TrackedSplits(v, n, s);
  }

  lemma CreateForgetsNothing(w: World, r: Route, s: Slot)
    requires Known(w, s)
    ensures Known(Apply(w, Create(r)), s)
  {
    if r.id !in w.routes {
      RouteReplaced(w, r.id, r.(deleting := false, status := EMPTY_STATUS), s);
      TrackedSplits(w, r.id, s);
    }
  }

  lemma EditSpecForgets(w: World, n: NN, spec: Spec, s: Slot)
    requires Known(w, s)
    ensures !Known(Apply(w, EditSpec(n, spec)), s) <==> Forgets(w, EditSpec(n, spec), s)
  {
    if n in w.routes {
      var v := w.(routes := w.routes[n := w.routes[n].(spec := spec)]);
      RouteReplaced(w, n, w.routes[n].(spec := spec), s);
      TrackedSplits(w, n, s);
      assert Mentions(v, n, s) <==> Mentions(w, n, s);
    }
  }

  lemma DeleteForgets(w: World, n: NN, s: Slot)
    requires Known(w, s)
    ensures !Known(Apply(w, Delete(n)), s) <==> Forgets(w, Delete(n), s)
  {
    if n in w.routes {
      var v := w.(routes := w.routes[n := w.routes[n].(deleting := true)]);
      RouteReplaced(w, n, w.routes[n].(deleting := true), s);
      TrackedSplits(w, n, s);
      assert Mentions(v, n, s) <==> Mentions(w, n, s);
    }
  }

  lemma CollectForgets(w: World, n: NN, s: Slot)
    requires Known(w, s)
    ensures !Known(Apply(w, Collect(n)), s) <==> Forgets(w, Collect(n), s)
  {
    if n in w.routes && w.routes[n].deleting && !w.routes[n].finalizer {
      var v := w.(routes := w.routes - {n});
      OthersTrack(w, v, n, s);
      TrackedSplits(w, n, s);
      TrackedSplits(v, n, s);
    }
  }

  lemma EditCMForgets(w: World, cm: NN, data: Option<Data>, s: Slot)
    requires Known(w, s)
    ensures !Known(Apply(w, EditCM(cm, data)), s) <==> Forgets(w, EditCM(cm, data), s)
  {
    RoutesTrack(w, Apply(w, EditCM(cm, data)), s);
  }

  /** A turn of a finalizer, and a reconcile of nothing, untrack no key and put none there. */
  lemma DeletingTurnForgetsNothing(w: World, v: World, n: NN, e: Env, s: Slot)
    requires IsRouteKey(s.key) && Known(w, s) && Stepped(w, v, n, e) && !LiveReconcile(w, n)
    ensures Known(v, s)
  {
    if n in w.routes && w.routes[n].finalizer {
      OthersTrack(w, v, n, s);
      TrackedSplits(w, n, s);
      TrackedSplits(v, n, s);
      assert Tracks(v, n, s) <==> Tracks(w, n, s);
    }
  }

  /** A key that a live reconcile puts there is the one it renders into. */
  lemma WrittenKeyIsKnown(w: World, v: World, n: NN, e: Env, s: Slot)
    requires IsRouteKey(s.key) && !Present(w, s) && Stepped(w, v, n, e) && LiveReconcile(w, n)
    ensures Known(v, s)
  {
    if Present(v, s) {
      assert Target(w.routes[n]) == s;
      assert Tracks(v, n, s);
    }
  }

  lemma ReconcileForgets(w: World, n: NN, e: Env, now: int, s: Slot)
    requires WellFormed(w) && IsRouteKey(s.key) && Known(w, s)
    ensures !Known(ReconcileStep(w, n, e, now).0, s) <==> Forgets(w, ReconcileOne(n, e, now), s)
  {
    var v := ReconcileStep(w, n, e, now).0;
    StepIsStepped(w, n, e, now);
    if !LiveReconcile(w, n) {
      DeletingTurnForgetsNothing(w, v, n, e, s);
    } else if Present(w, s) {
      RenamedKeyLostExactly(w, n, e, now, s);
    } else {
      WrittenKeyIsKnown(w, v, n, e, s);
    }
  }

  /** Any action at all, by anybody and with any faults, loses a known key exactly when it forgets it. */
  lemma LostExactly(w: World, a: Action, s: Slot)
    requires WellFormed(w) && IsRouteKey(s.key) && Known(w, s)
    ensures !Known(Apply(w, a), s) <==> Forgets(w, a, s)
  {
    match a
    case Create(r) => CreateForgetsNothing(w, r, s);
    case EditSpec(n, spec) => EditSpecForgets(w, n, spec, s);
    case Delete(n) => DeleteForgets(w, n, s);
    case Collect(n) => CollectForgets(w, n, s);
    case ReconcileOne(n, e, now) => ReconcileForgets(w, n, e, now, s);
    case EditCM(cm, data) => EditCMForgets(w, cm, data, s);
  }

  // ---- Runs ----

  /** No action of the run forgets the key. */
  ghost predicate NothingForgets(w: World, acts: seq<Action>, s: Slot)
    decreases |acts|
  {
    acts != [] ==> !Forgets(w, acts[0], s) && NothingForgets(Apply(w, acts[0]), acts[1..], s)
  }

  ghost predicate KnownThroughout(w: World, acts: seq<Action>, s: Slot)
    decreases |acts|
  {
    Known(w, s) && (acts != [] ==> KnownThroughout(Apply(w, acts[0]), acts[1..], s))
  }

  /** Over any run of creations, edits, deletions, collections, ConfigMap edits and reconciles, with any faults:
      the key is known whenever it is there, at every moment of the run, if and only if no action forgets it. */
  lemma {:induction false} NeverLost(w: World, acts: seq<Action>, s: Slot)
    requires WellFormed(w) && IsRouteKey(s.key) && Known(w, s)
    requires forall a :: a in acts ==> Admissible(a)
    ensures KnownThroughout(w, acts, s) <==> NothingForgets(w, acts, s)
    decreases |acts|
  {
    if acts == [] {
    } else {
      LostExactly(w, acts[0], s);
      ApplyKeepsWellFormed(w, acts[0]);
      if !Forgets(w, acts[0], s) {
        NeverLost(Apply(w, acts[0]), acts[1..], s);
      }
    }
  }
}
