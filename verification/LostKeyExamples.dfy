/** The ways to lose a key that need no fault at all, or one that is not the pair of `RenamedKeys.Forgetful`. */
module LostKeyExamples {
  import opened Base
  import opened Names
  import opened Cluster
  import opened Ownership
  import opened Reconcile
  import opened Effects
  import opened Runs
  import opened CleanupSafety
  import opened RenamedKeys
  import opened LostKeys

  // ---- A reconcile that lists no new orphan ----

  /** The orphan list does not grow. */
  ghost predicate NoNewOrphan(w: World, v: World, n: NN) {
    OnlyStatus(w, v, n) && forall ref :: ref in v.routes[n].status.orphans ==> ref in w.routes[n].status.orphans
  }

  lemma NoNewOrphanTransitive(w: World, u: World, v: World, n: NN)
    requires NoNewOrphan(w, u, n) && NoNewOrphan(u, v, n)
    ensures NoNewOrphan(w, v, n)
  {
    OnlyStatusTransitive(w, u, v, n);
  }

  /** `reconcileRenamedKey` finds nothing to list: the route never recorded a key, or another live route renders
      into the one it recorded. */
  ghost predicate NotesNothing(w: World, n: NN)
    requires n in w.routes
  {
    w.routes[n].status.appliedKey == "" || ClaimedByOther(w.routes, n, Recorded(w.routes[n]))
  }

  lemma NotesNothingStays(w: World, v: World, n: NN)
    requires OnlyStatus(w, v, n) && RecordKept(w, v, n) && NotesNothing(w, n)
    ensures NotesNothing(v, n)
  {
    ClaimsOfOthersKept(w, v, n, Recorded(w.routes[n]));
  }

  lemma SyncListsNothing(w: World, n: NN, e: Env, now: int)
    requires n in w.routes
    ensures NoNewOrphan(w, SyncOrphans(w, n, e, now).w, n)
  {
    SyncOrphansEffect(w, n, e, now);
  }

  lemma RecordKeyListsNothing(w: World, n: NN, e: Env, now: int)
    requires n in w.routes && NotesNothing(w, n)
    ensures NoNewOrphan(w, RecordKey(w, n, e, now).w, n)
  {
    if !RenameListFails(w.routes[n], e) {
      assert NoteOrphan(w, n, e) == w;
      NoteRecordEffect(w, n, e);
      var u := NoteRecord(w, n, e);
      SyncListsNothing(u, n, e, now);
      NoNewOrphanTransitive(w, u, SyncOrphans(u, n, e, now).w, n);
    }
  }

  lemma OwnerStageListsNothing(w: World, n: NN, e: Env, now: int)
    requires n in w.routes && NotesNothing(w, n)
    ensures NoNewOrphan(w, OwnerStage(w, n, e, now).w, n)
  {
    var r := w.routes[n];
    var s := Target(r);
    SLOStageBookkeeping(w, n, e, now);
    var w1 := SLOStage(w, n, e, now);
    NotesNothingStays(w, w1, n);
    if e.conf.Some? {
      WriteStageEffect(w1, n, e, now, s, e.conf.value, e.confWrite, CartPeers(r, e));
      var g := WriteStage(w1, n, e, now, s.cm, map[s.key := e.conf.value], e.confWrite, CartPeers(r, e));
      NoNewOrphanTransitive(w, w1, g.w, n);
      if g.Go? {
        assert NotesNothing(g.w, n);
        RecordKeyListsNothing(g.w, n, e, now);
        NoNewOrphanTransitive(w, g.w, RecordKey(g.w, n, e, now).w, n);
      }
    }
  }

  lemma LoserStageListsNothing(w: World, n: NN, e: Env, now: int)
    requires n in w.routes
    ensures NoNewOrphan(w, LoserStage(w, n, e, now).w, n)
  {
    SLOStageBookkeeping(w, n, e, now);
    var w1 := ClearSLO(w, n, e);
    SyncListsNothing(w1, n, e, now);
    NoNewOrphanTransitive(w, w1, SyncOrphans(w1, n, e, now).w, n);
  }

  lemma DecideListsNothing(w: World, g: Stage, n: NN, e: Env, now: int)
    requires ValidName(n) && n in w.routes && Calm(w, g.w, n) && NotesNothing(w, n)
    ensures NoNewOrphan(w, Decide(g, n, e, now).0, n)
  {
    if g.Go? && e.ownerList {
      var u := g.w;
      var owner := OwnerOf(u.routes, Target(u.routes[n]));
      var routed := if owner == n then OwnerStage(u, n, e, now) else LoserStage(u, n, e, now);
      NotesNothingStays(w, u, n);
      OwnerStageListsNothing(u, n, e, now);
      LoserStageListsNothing(u, n, e, now);
      FinishCalm(routed, n, e, now, owner != n, owner);
      NoNewOrphanTransitive(w, u, routed.w, n);
      NoNewOrphanTransitive(w, routed.w, Decide(g, n, e, now).0, n);
    }
  }

  /** Such a reconcile lists nothing it did not list before. */
  lemma ReconcileListsNothing(w: World, n: NN, e: Env, now: int, s: Slot)
    requires WellFormed(w) && LiveReconcile(w, n) && NotesNothing(w, n)
    ensures var v := ReconcileStep(w, n, e, now).0;
      n in v.routes && (ListsOrphan(v, n, s) ==> ListsOrphan(w, n, s))
  {
    if w.routes[n].finalizer {
      if e.backends.Some? && e.backends.value > 0 {
        CartStageCalm(w, n, e, now);
        DecideListsNothing(w, CartStage(w, n, e, now), n, e, now);
      } else {
        NoBackendsTouchesNoConfigMap(w, n, e, now);
      }
    }
  }

  // ---- Deletion ----

  /** A finalizer that completed has dealt with the recorded key: collecting the route then forgets nothing but
      an entry of its orphan list. */
  lemma DeletionForgetsOnlyOrphans(w: World, n: NN, e: Env, now: int, s: Slot)
    requires WellFormed(w) && n in w.routes && w.routes[n].deleting && w.routes[n].finalizer && IsRouteKey(s.key)
    ensures var (v, out) := ReconcileStep(w, n, e, now);
      out.Done? && Forgets(v, Collect(n), s) ==> ListsOrphan(w, n, s)
  {
    var (v, out) := ReconcileStep(w, n, e, now);
    FinalizerCompletes(w, n, e, now);
    if out.Done? && Holds(w.routes[n], s) {
      assert CleanupSlot(w.routes[n]) == s;
      assert Present(v, s) ==> TrackedByOther(v, n, s) by {
        if o :| o != n && Claims(w.routes, o, s) {
          assert Tracks(v, o, s);
        }
      }
    }
  }

  /** Every call of the cleanup succeeds. */
  predicate CleansUp(e: Env) {
    e.cleanupList && e.cleanupRemove.Fine? && e.cleanupMonitor.Fine? && e.finalizerWrite
  }

  /** And such an entry is forgotten: without any fault, deleting the one route that lists a key as an orphan
      leaves the key in the ConfigMap with nothing that knows it. */
  lemma OrphanDiesWithItsRoute(w: World, n: NN, e: Env, now: int, s: Slot)
    requires WellFormed(w) && LiveReconcile(w, n) && w.routes[n].finalizer && IsRouteKey(s.key)
    requires Present(w, s) && ListsOrphan(w, n, s) && !TrackedByOther(w, n, s) && CleanupSlot(w.routes[n]) != s
    requires CleansUp(e)
    ensures var v := Apply(Apply(Apply(w, Delete(n)), ReconcileOne(n, e, now)), Collect(n)); Present(v, s) && !Tracked(v, s)
  {
    var w1 := Apply(w, Delete(n));
    var w2 := Apply(w1, ReconcileOne(n, e, now));
    var w3 := Apply(w2, Collect(n));
    OthersTrack(w, w1, n, s);
    FinishedFinalizer(w1, n, e, now, s);
    OthersTrack(w1, w2, n, s);
    OthersTrack(w2, w3, n, s);
    TrackedSplits(w3, n, s);
  }

  lemma FinishedFinalizer(w: World, n: NN, e: Env, now: int, s: Slot)
    requires n in w.routes && w.routes[n].deleting && w.routes[n].finalizer && ValidName(n) && IsRouteKey(s.key)
    requires CleanupSlot(w.routes[n]) != s && CleansUp(e)
    ensures var v := ReconcileStep(w, n, e, now).0;
      v.routes == w.routes[n := w.routes[n].(finalizer := false)] && (Present(v, s) <==> Present(w, s))
  {
    CleanupEffect(w, n, e);
  }

  // ---- Spec edits ----

  /** Without any fault: `n` leaves a key that `p` claims but never wrote, so `n` lists nothing; then `p` is
      edited away, and nothing knows the key. */
  lemma ClaimEditedAway(w: World, n: NN, e: Env, now: int, p: NN, spec: Spec, s: Slot)
    requires WellFormed(w) && LiveReconcile(w, n) && IsRouteKey(s.key) && Present(w, s)
    requires Holds(w.routes[n], s) && Target(w.routes[n]) != s && !ListsOrphan(w, n, s) && Rerecords(w, n, e)
    requires p != n && Claims(w.routes, p, s) && !Mentions(w, p, s) && Target(w.routes[p].(spec := spec)) != s
    requires forall o :: o != n && o != p ==> !Tracks(w, o, s)
    ensures Forgets(ReconcileStep(w, n, e, now).0, EditSpec(p, spec), s)
  {
    var v := ReconcileStep(w, n, e, now).0;
    StepIsStepped(w, n, e, now);
    ReconcileListsNothing(w, n, e, now, s);
    OnlyTheClaimIsLeft(w, v, n, e, p, spec, s);
  }

  /** After `n`'s turn nothing but the claim of `p` knows the key. */
  lemma OnlyTheClaimIsLeft(w: World, v: World, n: NN, e: Env, p: NN, spec: Spec, s: Slot)
    requires WellFormed(w) && LiveReconcile(w, n) && IsRouteKey(s.key) && Present(w, s)
    requires Stepped(w, v, n, e) && Rerecords(w, n, e) && Target(w.routes[n]) != s && n in v.routes && !ListsOrphan(v, n, s)
    requires p != n && Claims(w.routes, p, s) && !Mentions(w, p, s) && Target(w.routes[p].(spec := spec)) != s
    requires forall o :: o != n && o != p ==> !Tracks(w, o, s)
    ensures Forgets(v, EditSpec(p, spec), s)
  {
    SteppedKeepsOthers(w, v, n, e, s);
    SteppedKeepsObjects(w, v, n, e);
    LeftBehind(w, v, n, e, s);
    assert forall o :: o != p ==> !Tracks(v, o, s);
  }

  lemma LeftBehind(w: World, v: World, n: NN, e: Env, s: Slot)
    requires LiveReconcile(w, n) && Stepped(w, v, n, e) && Rerecords(w, n, e) && Target(w.routes[n]) != s
    requires n in v.routes && !ListsOrphan(v, n, s)
    ensures !Tracks(v, n, s)
  {
  }

  /** One fault, not the pair: the conf is written but not recorded, and before the next turn could record it
      the spec is edited; the written key is there and nothing knows it. */
  lemma UnrecordedKeyEditedAway(w: World, n: NN, e: Env, now: int, spec: Spec)
    requires WellFormed(w) && LiveReconcile(w, n) && w.routes[n].status.appliedKey == "" && w.routes[n].status.orphans == []
    requires WritesConf(w, n, e) && e.conf.value != "" && !e.status.applied
    requires !TrackedByOther(w, n, Target(w.routes[n])) && Target(w.routes[n].(spec := spec)) != Target(w.routes[n])
    ensures Forgets(ReconcileStep(w, n, e, now).0, EditSpec(n, spec), Target(w.routes[n]))
  {
    var s := Target(w.routes[n]);
    var v := ReconcileStep(w, n, e, now).0;
    StepIsStepped(w, n, e, now);
    ReconcileListsNothing(w, n, e, now, s);
    OnlyTheWriterKnows(w, v, n, e, spec);
  }

  /** After that turn the key is there, and nothing but the spec of `n` knows it. */
  lemma OnlyTheWriterKnows(w: World, v: World, n: NN, e: Env, spec: Spec)
    requires WellFormed(w) && LiveReconcile(w, n) && w.routes[n].status.appliedKey == ""
    requires !TrackedByOther(w, n, Target(w.routes[n]))
    requires Stepped(w, v, n, e) && WritesConf(w, n, e) && e.conf.value != "" && !e.status.applied
    requires n in v.routes && !ListsOrphan(v, n, Target(w.routes[n]))
    requires Target(w.routes[n].(spec := spec)) != Target(w.routes[n])
    ensures Forgets(v, EditSpec(n, spec), Target(w.routes[n]))
  {
    var s := Target(w.routes[n]);
    OpenrestyKeyIsRouteKey(NginxRoute(w.routes[n]));
    SteppedKeepsOthers(w, v, n, e, s);
    WrittenUnrecorded(w, v, n, e);
  }

  lemma WrittenUnrecorded(w: World, v: World, n: NN, e: Env)
    requires LiveReconcile(w, n) && Stepped(w, v, n, e) && WritesConf(w, n, e) && e.conf.value != "" && !e.status.applied
    ensures n in v.routes && Present(v, Target(w.routes[n])) && RecordKept(w, v, n) && v.routes[n].id == w.routes[n].id
    ensures Claims(v.routes, n, Target(w.routes[n]))
  {
  }

  // ---- One cluster for each ----

  const OTHER_ROUTE := NN("a", "p")

  /** The renamed route once it listed its old key and recorded the new one. */
  function ListedExample(): World {
    World(
      map[EXAMPLE_ROUTE := Route(EXAMPLE_ROUTE, 0, false, true, Spec("y", "c", None, None, false),
                                 Status(EXAMPLE_NEW.key, "c", [OrphanRef(EXAMPLE_OLD)], [], 0, 0, true))],
      map[EXAMPLE_OLD.cm := map[EXAMPLE_OLD.key := "old", EXAMPLE_NEW.key := "new"]])
  }

  /** The renamed route, and another that was meanwhile pointed at its old key. */
  function ClaimedExample(): World {
    World(
      RenamedExample().routes[
        OTHER_ROUTE := Route(OTHER_ROUTE, 1, false, true, Spec("x", "c", None, None, false), EMPTY_STATUS)],
      RenamedExample().cms)
  }

  /** A route that was never reconciled. */
  function NewExample(): World {
    World(
      map[EXAMPLE_ROUTE := Route(EXAMPLE_ROUTE, 0, false, true, Spec("x", "c", None, None, false), EMPTY_STATUS)],
      map[EXAMPLE_OLD.cm := map[]])
  }

  function NoFault(): Env {
    OrphanWriteFails().(status := StatusWrites(true, true, true, true, true))
  }

  /** No call fails but the status write that records the new key. */
  function RecordWriteFails(): Env {
    OrphanWriteFails().(status := StatusWrites(true, true, false, true, true))
  }

  lemma ExampleSlots(r: Route)
    requires r.id.ns == "a" && r.spec.cmRef == "c" && (r.spec.route == "x" || r.spec.route == "y")
    ensures Target(r) == if r.spec.route == "x" then EXAMPLE_OLD else EXAMPLE_NEW
    ensures EXAMPLE_OLD != EXAMPLE_NEW && IsRouteKey(EXAMPLE_OLD.key) && IsRouteKey(EXAMPLE_NEW.key)
    ensures EXAMPLE_OLD.key != "" && EXAMPLE_NEW.key != "" && ValidName(EXAMPLE_OLD.cm)
  {
    assert IndexOf("c", '/') == 1;
    OpenrestyKeyIsRouteKey("x");
    OpenrestyKeyIsRouteKey("y");
    if OpenrestyKey("x") == OpenrestyKey("y") {
      OpenrestyKeyInjective("x", "y");
    }
  }

  lemma ListedOrphan()
    ensures ListsOrphan(ListedExample(), EXAMPLE_ROUTE, EXAMPLE_OLD)
  {
    OrphanRefRoundTrip(EXAMPLE_OLD, "a");
    assert ListedExample().routes[EXAMPLE_ROUTE].status.orphans[0] == OrphanRef(EXAMPLE_OLD);
  }

  lemma ListedCleanup()
    ensures var w := ListedExample();
      WellFormed(w) && Present(w, EXAMPLE_OLD) && CleanupSlot(w.routes[EXAMPLE_ROUTE]) == EXAMPLE_NEW != EXAMPLE_OLD
  {
    ExampleSlots(ListedExample().routes[EXAMPLE_ROUTE]);
    assert IndexOf("c", '/') == 1;
  }

  lemma ListedFacts() returns (w: World, n: NN, e: Env, s: Slot)
    ensures WellFormed(w) && LiveReconcile(w, n) && w.routes[n].finalizer && IsRouteKey(s.key) && CleansUp(e)
    ensures Present(w, s) && ListsOrphan(w, n, s) && !TrackedByOther(w, n, s) && CleanupSlot(w.routes[n]) != s
  {
    w, n, e, s := ListedExample(), EXAMPLE_ROUTE, NoFault(), EXAMPLE_OLD;
    OpenrestyKeyIsRouteKey("x");
    ListedOrphan();
    ListedCleanup();
  }

  /** Without any fault: a route is renamed, and then deleted. */
  lemma RenamedThenDeleted() returns (w: World, n: NN, e: Env, s: Slot)
    ensures WellFormed(w) && CleansUp(e) && Tracked(w, s)
    ensures var v := Apply(Apply(Apply(w, Delete(n)), ReconcileOne(n, e, 0)), Collect(n));
      Present(v, s) && !Tracked(v, s)
  {
    w, n, e, s := ListedFacts();
    assert Tracks(w, n, s);
    OrphanDiesWithItsRoute(w, n, e, 0, s);
  }

  lemma ClaimedRerecords()
    ensures Rerecords(ClaimedExample(), EXAMPLE_ROUTE, NoFault())
  {
    var w := ClaimedExample();
    ExampleSlots(w.routes[EXAMPLE_ROUTE]);
    ExampleSlots(w.routes[OTHER_ROUTE]);
  }

  lemma ClaimedFacts() returns (w: World, n: NN, e: Env, p: NN, spec: Spec, s: Slot)
    ensures WellFormed(w) && LiveReconcile(w, n) && IsRouteKey(s.key) && Present(w, s) && !Forgetful(e)
    ensures Holds(w.routes[n], s) && Target(w.routes[n]) != s && !ListsOrphan(w, n, s) && Rerecords(w, n, e)
    ensures p != n && Claims(w.routes, p, s) && !Mentions(w, p, s) && Target(w.routes[p].(spec := spec)) != s
    ensures forall o :: o != n && o != p ==> !Tracks(w, o, s)
  {
    w, n, e, p, s := ClaimedExample(), EXAMPLE_ROUTE, NoFault(), OTHER_ROUTE, EXAMPLE_OLD;
    spec := w.routes[n].spec;
    ClaimedRerecords();
    ExampleSlots(w.routes[n]);
    ExampleSlots(w.routes[p]);
    ExampleSlots(w.routes[p].(spec := spec));
    assert IndexOf("c", '/') == 1;
  }

  /** Without any fault: a route leaves a key that another one only claims, and that one is edited away. */
  lemma ClaimedThenEdited() returns (w: World, n: NN, e: Env, p: NN, spec: Spec, s: Slot)
    ensures WellFormed(w) && Tracked(w, s) && !Forgetful(e)
    ensures Forgets(ReconcileStep(w, n, e, 0).0, EditSpec(p, spec), s)
  {
    w, n, e, p, spec, s := ClaimedFacts();
    assert Tracks(w, n, s);
    ClaimEditedAway(w, n, e, 0, p, spec, s);
  }

  lemma NewWrites()
    ensures var w := NewExample();
      WellFormed(w) && WritesConf(w, EXAMPLE_ROUTE, RecordWriteFails()) && Target(w.routes[EXAMPLE_ROUTE]) == EXAMPLE_OLD
  {
    ExampleSlots(NewExample().routes[EXAMPLE_ROUTE]);
  }

  lemma NewFacts() returns (w: World, n: NN, e: Env, spec: Spec)
    ensures WellFormed(w) && LiveReconcile(w, n) && w.routes[n].status.appliedKey == "" && w.routes[n].status.orphans == []
    ensures WritesConf(w, n, e) && e.conf.value != "" && !e.status.applied && !Forgetful(e)
    ensures !TrackedByOther(w, n, Target(w.routes[n])) && Target(w.routes[n].(spec := spec)) != Target(w.routes[n])
  {
    w, n, e, spec := NewExample(), EXAMPLE_ROUTE, RecordWriteFails(), Spec("y", "c", None, None, false);
    NewWrites();
    ExampleSlots(w.routes[n].(spec := spec));
  }

  /** With the one fault of a record that was not stored: a new route is renamed before its next turn. */
  lemma UnrecordedThenEdited() returns (w: World, n: NN, e: Env, spec: Spec)
    ensures WellFormed(w) && n in w.routes && !Forgetful(e)
    ensures Forgets(ReconcileStep(w, n, e, 0).0, EditSpec(n, spec), Target(w.routes[n]))
  {
    w, n, e, spec := NewFacts();
    UnrecordedKeyEditedAway(w, n, e, 0, spec);
  }
}
