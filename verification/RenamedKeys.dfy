/** What one reconcile of a live route does to the track that is kept of a key left behind by a rename. `LostKeys`
    says what whole runs do to it. */
module RenamedKeys {
  import opened Base
  import opened Names
  import opened Conditions
  import opened Cluster
  import opened Ownership
  import opened Reconcile
  import opened Effects
  import opened Runs

  ghost predicate ListsOrphan(w: World, n: NN, s: Slot)
    requires n in w.routes
  {
    exists ref :: ref in w.routes[n].status.orphans && OrphanSlot(ref, n.ns) == Some(s)
  }

  /** `n` records `s`, lists it as an orphan, or renders into it. */
  ghost predicate Tracks(w: World, n: NN, s: Slot) {
    n in w.routes && (Holds(w.routes[n], s) || ListsOrphan(w, n, s) || Claims(w.routes, n, s))
  }

  ghost predicate Tracked(w: World, s: Slot) {
    exists n :: Tracks(w, n, s)
  }

  ghost predicate TrackedByOther(w: World, n: NN, s: Slot) {
    exists o :: o != n && Tracks(w, o, s)
  }

  /** The one combination of status writes by which a live reconcile forgets a renamed key: the orphan entry is
      not stored but the new record is. The code logs the first failure and goes on. */
  predicate Forgetful(e: Env) {
    !e.status.orphan && e.status.applied
  }

  /** The reconcile replaces `n`'s record. */
  ghost predicate Rerecords(w: World, n: NN, e: Env)
    requires n in w.routes
  {
    RecordsSlot(w, n, e) && Moved(w.routes[n])
  }

  lemma RerecordsExactly(w: World, v: World, n: NN, e: Env)
    requires LiveReconcile(w, n) && Stepped(w, v, n, e)
    ensures n in v.routes && (RecordKept(w, v, n) <==> !Rerecords(w, n, e))
  {
  }

  lemma KeptSlot(w: World, n: NN, refs: seq<string>, s: Slot)
    requires Present(w, s) && !ClaimedByOther(w.routes, n, s)
    ensures (exists ref :: ref in Kept(w, n, refs) && OrphanSlot(ref, n.ns) == Some(s)) <==>
            (exists ref :: ref in refs && OrphanSlot(ref, n.ns) == Some(s))
  {
    if ref :| ref in refs && OrphanSlot(ref, n.ns) == Some(s) {
      assert KeepOrphan(w, n, ref);
      assert ref in Kept(w, n, refs);
    }
  }

  /** Pruning the orphan list keeps every slot that still exists and that nobody took over. */
  lemma SyncKeepsTrack(w: World, n: NN, e: Env, now: int, s: Slot)
    requires n in w.routes && Present(w, s) && !ClaimedByOther(w.routes, n, s)
    ensures var v := SyncOrphans(w, n, e, now).w;
      n in v.routes && (ListsOrphan(v, n, s) <==> ListsOrphan(w, n, s))
  {
    KeptSlot(w, n, w.routes[n].status.orphans, s);
  }

  lemma ClaimsOfOthersKept(w: World, v: World, n: NN, s: Slot)
    requires OnlyStatus(w, v, n)
    ensures ClaimedByOther(v.routes, n, s) <==> ClaimedByOther(w.routes, n, s)
  {
    assert forall o :: o != n ==> Claims(v.routes, o, s) == Claims(w.routes, o, s);
  }

  /** The slot a route is about to stop recording gets listed, exactly when that status write succeeds. */
  lemma NoteOrphanTracks(w: World, n: NN, e: Env, s: Slot)
    requires n in w.routes && ValidName(s.cm) && IsRouteKey(s.key) && !ClaimedByOther(w.routes, n, s)
    ensures var v := NoteOrphan(w, n, e);
      && (ListsOrphan(w, n, s) ==> ListsOrphan(v, n, s))
      && (Holds(w.routes[n], s) && Moved(w.routes[n]) ==>
            (ListsOrphan(v, n, s) <==> ListsOrphan(w, n, s) || e.status.orphan))
      && (!Moved(w.routes[n]) ==> v == w)
  {
    var r := w.routes[n];
    OrphanRefRoundTrip(s, n.ns);
    var refs := AppendUnique(r.status.orphans, OrphanRef(Recorded(r)));
    assert forall x :: x in refs <==> x in r.status.orphans || x == OrphanRef(Recorded(r));
    if Holds(r, s) && Moved(r) && e.status.orphan {
      assert NoteOrphan(w, n, e).routes[n].status.orphans == refs;
    }
  }

  /** Recording a new slot keeps track of the old one, unless the two status writes split the wrong way. */
  lemma RecordKeyTracks(w: World, n: NN, e: Env, now: int, s: Slot)
    requires n in w.routes && ValidName(s.cm) && IsRouteKey(s.key) && Present(w, s)
    requires !ClaimedByOther(w.routes, n, s) && Target(w.routes[n]) != s
    ensures var v := RecordKey(w, n, e, now).w;
      && (ListsOrphan(w, n, s) ==> ListsOrphan(v, n, s))
      && (Holds(w.routes[n], s) && !ListsOrphan(w, n, s) ==>
            (Holds(v.routes[n], s) || ListsOrphan(v, n, s) <==> !Forgetful(e) || RenameListFails(w.routes[n], e)))
  {
    if !RenameListFails(w.routes[n], e) {
      var w1 := NoteOrphan(w, n, e);
      var w2 := NoteRecord(w1, n, e);
      NoteOrphanTracks(w, n, e, s);
      NoteOrphanEffect(w, n, e);
      NoteRecordEffect(w1, n, e);
      OnlyStatusTransitive(w, w1, w2, n);
      ClaimsOfOthersKept(w, w2, n, s);
      SyncKeepsTrack(w2, n, e, now, s);
      SyncOrphansEffect(w2, n, e, now);
    }
  }

  /** What a stage of `n`'s reconcile does to its bookkeeping of a present slot it neither renders nor
      shares: an orphan entry stays; a record survives as record or orphan entry, unless the stage
      replaced it with the status writes going the wrong way. */
  ghost predicate StepTracks(w: World, v: World, n: NN, e: Env, s: Slot) {
    && OnlyStatus(w, v, n) && Content(v, s) == Content(w, s)
    && (ListsOrphan(w, n, s) ==> ListsOrphan(v, n, s))
    && (Holds(w.routes[n], s) && !ListsOrphan(w, n, s) ==>
          (Holds(v.routes[n], s) || ListsOrphan(v, n, s) <==> !Forgetful(e) || RecordKept(w, v, n)))
  }

  /** A present slot with a valid name that `n` does not render and no other live route claims. */
  ghost predicate Abandoned(w: World, n: NN, s: Slot) {
    && n in w.routes && ValidName(s.cm) && IsRouteKey(s.key) && Present(w, s)
    && !ClaimedByOther(w.routes, n, s) && Target(w.routes[n]) != s
  }

  lemma CalmTracks(w: World, v: World, n: NN, e: Env, s: Slot)
    requires Calm(w, v, n) && Abandoned(w, n, s)
    ensures StepTracks(w, v, n, e, s) && Abandoned(v, n, s)
    ensures ListsOrphan(v, n, s) <==> ListsOrphan(w, n, s)
  {
    ClaimsOfOthersKept(w, v, n, s);
  }

  lemma TracksBetweenCalm(w: World, w1: World, w2: World, v: World, n: NN, e: Env, s: Slot)
    requires Calm(w, w1, n) && Calm(w2, v, n) && Abandoned(w, n, s) && Abandoned(w2, n, s)
    requires StepTracks(w1, w2, n, e, s)
    ensures StepTracks(w, v, n, e, s)
  {
    CalmTracks(w, w1, n, e, s);
    CalmTracks(w2, v, n, e, s);
    OnlyStatusTransitive(w, w1, w2, n);
    OnlyStatusTransitive(w, w2, v, n);
  }

  lemma StillAbandoned(w: World, v: World, n: NN, s: Slot)
    requires Abandoned(w, n, s) && OnlyStatus(w, v, n) && Content(v, s) == Content(w, s)
    ensures Abandoned(v, n, s)
  {
    ClaimsOfOthersKept(w, v, n, s);
  }

  lemma RecordKeyStep(w: World, n: NN, e: Env, now: int, s: Slot)
    requires Abandoned(w, n, s)
    ensures StepTracks(w, RecordKey(w, n, e, now).w, n, e, s)
  {
    RecordKeyTracks(w, n, e, now, s);
    RecordKeyEffect(w, n, e, now);
  }

  lemma OwnerStageTracks(w: World, n: NN, e: Env, now: int, s: Slot)
    requires Abandoned(w, n, s)
    ensures StepTracks(w, OwnerStage(w, n, e, now).w, n, e, s)
  {
    var w1 := SLOStage(w, n, e, now);
    SLOStageBookkeeping(w, n, e, now);
    CalmTracks(w, w1, n, e, s);
    if e.conf.Some? {
      OwnerWriteTracks(w, w1, n, e, now, s);
    }
  }

  lemma OwnerWriteTracks(w: World, w1: World, n: NN, e: Env, now: int, s: Slot)
    requires Bookkeeping(w, w1, n) && e.conf.Some? && Abandoned(w, n, s) && Abandoned(w1, n, s)
    ensures var r := w.routes[n];
      var g := WriteStage(w1, n, e, now, Target(r).cm, map[Target(r).key := e.conf.value], e.confWrite, CartPeers(r, e));
      StepTracks(w, if g.Go? then RecordKey(g.w, n, e, now).w else g.w, n, e, s)
  {
    var r := w.routes[n];
    WriteStageEffect(w1, n, e, now, Target(r), e.conf.value, e.confWrite, CartPeers(r, e));
    var g := WriteStage(w1, n, e, now, Target(r).cm, map[Target(r).key := e.conf.value], e.confWrite, CartPeers(r, e));
    if g.Go? {
      StillAbandoned(w1, g.w, n, s);
      RecordKeyStep(g.w, n, e, now, s);
      StepTracksAfterWrite(w, w1, g.w, RecordKey(g.w, n, e, now).w, n, e, s);
    } else {
      OnlyStatusTransitive(w, w1, g.w, n);
      CalmTracks(w, g.w, n, e, s);
    }
  }

  lemma StepTracksAfterWrite(w: World, w1: World, w2: World, v: World, n: NN, e: Env, s: Slot)
    requires Bookkeeping(w, w1, n) && OnlyStatus(w1, w2, n) && w2.routes == w1.routes && Content(w2, s) == Content(w1, s)
    requires StepTracks(w2, v, n, e, s)
    ensures StepTracks(w, v, n, e, s)
  {
    OnlyStatusTransitive(w, w1, w2, n);
    OnlyStatusTransitive(w, w2, v, n);
    assert ListsOrphan(w2, n, s) <==> ListsOrphan(w, n, s);
  }

  lemma LoserStageTracks(w: World, n: NN, e: Env, now: int, s: Slot)
    requires Abandoned(w, n, s)
    ensures StepTracks(w, LoserStage(w, n, e, now).w, n, e, s)
  {
    var w1 := ClearSLO(w, n, e);
    SLOStageBookkeeping(w, n, e, now);
    CalmTracks(w, w1, n, e, s);
    SyncKeepsTrack(w1, n, e, now, s);
    SyncOrphansEffect(w1, n, e, now);
    OnlyStatusTransitive(w, w1, SyncOrphans(w1, n, e, now).w, n);
  }

  lemma DecideTracks(w: World, g: Stage, n: NN, e: Env, now: int, s: Slot)
    requires ValidName(n) && Abandoned(w, n, s) && Calm(w, g.w, n)
    ensures StepTracks(w, Decide(g, n, e, now).0, n, e, s)
  {
    CalmTracks(w, g.w, n, e, s);
    if g.Go? && e.ownerList {
      var u := g.w;
      var owner := OwnerOf(u.routes, Target(u.routes[n]));
      var routed := if owner == n then OwnerStage(u, n, e, now) else LoserStage(u, n, e, now);
      if owner == n {
        OwnerStageTracks(u, n, e, now, s);
      } else {
        LoserStageTracks(u, n, e, now, s);
      }
      FinishCalm(routed, n, e, now, owner != n, owner);
      StillAbandoned(u, routed.w, n, s);
      TracksBetweenCalm(w, u, routed.w, Decide(g, n, e, now).0, n, e, s);
    }
  }

  lemma ReconcileTracks(w: World, n: NN, e: Env, now: int, s: Slot)
    requires WellFormed(w) && LiveReconcile(w, n) && Abandoned(w, n, s)
    ensures var v := ReconcileStep(w, n, e, now).0;
      && n in v.routes && Present(v, s)
      && (Holds(w.routes[n], s) && !ListsOrphan(w, n, s) ==>
            (Holds(v.routes[n], s) || ListsOrphan(v, n, s) <==> !Forgetful(e) || RecordKept(w, v, n)))
      && (ListsOrphan(w, n, s) ==> ListsOrphan(v, n, s))
  {
    if w.routes[n].finalizer {
      if e.backends.Some? && e.backends.value > 0 {
        CartStageCalm(w, n, e, now);
        DecideTracks(w, CartStage(w, n, e, now), n, e, now, s);
      } else {
        NoBackendsTouchesNoConfigMap(w, n, e, now);
        CalmTracks(w, LiveStep(w, n, e, now).0, n, e, s);
      }
    }
  }

  /** A reconcile of a live route forgets a tracked, present key exactly when it replaces the record of that
      very key, the entry in the orphan list cannot be stored while the new record can, and nothing else
      knows the key. Otherwise the key stays tracked, and it stays present in any case. */
  lemma RenamedKeyLostExactly(w: World, n: NN, e: Env, now: int, s: Slot)
    requires WellFormed(w) && LiveReconcile(w, n) && IsRouteKey(s.key)
    requires Tracked(w, s) && Present(w, s)
    ensures var v, r := ReconcileStep(w, n, e, now).0, w.routes[n];
      && Present(v, s)
      && (!Tracked(v, s) <==>
            Forgetful(e) && Rerecords(w, n, e) && Holds(r, s) && Target(r) != s
            && !ListsOrphan(w, n, s) && !TrackedByOther(w, n, s))
  {
    var v := ReconcileStep(w, n, e, now).0;
    StepIsStepped(w, n, e, now);
    SteppedKeepsOthers(w, v, n, e, s);
    RerecordsExactly(w, v, n, e);
    if Claims(w.routes, n, s) {
      assert Tracks(v, n, s);
    } else if TrackedByOther(w, n, s) {
      var o :| o != n && Tracks(w, o, s);
      assert Tracks(v, o, s);
    } else {
      assert Tracks(w, n, s);
      forall o | o != n
        ensures !Claims(w.routes, o, s)
      {
        assert !Tracks(w, o, s);
      }
      ReconcileTracks(w, n, e, now, s);
      assert Tracks(v, n, s) <==> Tracked(v, s);
    }
  }

  lemma SteppedKeepsOthers(w: World, v: World, n: NN, e: Env, s: Slot)
    requires WellFormed(w) && LiveReconcile(w, n) && IsRouteKey(s.key) && Stepped(w, v, n, e)
    ensures Claims(v.routes, n, s) <==> Claims(w.routes, n, s)
    ensures forall o :: o != n ==> (Tracks(v, o, s) <==> Tracks(w, o, s))
    ensures Present(w, s) ==> Present(v, s)
  {
    SteppedKeepsObjects(w, v, n, e);
    SteppedKeepsPresent(w, v, n, e, s);
  }

  lemma SteppedKeepsObjects(w: World, v: World, n: NN, e: Env)
    requires LiveReconcile(w, n) && Stepped(w, v, n, e)
    ensures LiveReconcile(v, n) && v.routes.Keys == w.routes.Keys && Target(v.routes[n]) == Target(w.routes[n])
    ensures forall o :: o in w.routes && o != n ==> v.routes[o] == w.routes[o]
  {
  }

  lemma SteppedKeepsPresent(w: World, v: World, n: NN, e: Env, s: Slot)
    requires LiveReconcile(w, n) && IsRouteKey(s.key) && Stepped(w, v, n, e)
    ensures Present(w, s) ==> Present(v, s)
  {
  }

  const EXAMPLE_ROUTE := NN("a", "m")
  const EXAMPLE_OLD := Slot(NN("a", "c"), OpenrestyKey("x"))
  const EXAMPLE_NEW := Slot(NN("a", "c"), OpenrestyKey("y"))

  /** A route renamed from "x" to "y", not yet reconciled since. */
  function RenamedExample(): World {
    World(
      map[EXAMPLE_ROUTE := Route(EXAMPLE_ROUTE, 0, false, true, Spec("y", "c", None, None, false),
                                 Status(EXAMPLE_OLD.key, "c", [], [], 0, 0, false))],
      map[EXAMPLE_OLD.cm := map[EXAMPLE_OLD.key := "old"]])
  }

  /** Everything succeeds but the status write that lists the orphan. */
  function OrphanWriteFails(): Env {
    Env(Some(1), true, None, Fine, None, true, SLOOutcome(true, "", ""), Some("new"), Fine, true, true,
        true, "", Fine, true, Fine, Fine, true, StatusWrites(true, false, true, true, true))
  }

  lemma RenamedExampleFacts()
    ensures var w := RenamedExample();
      var r := w.routes[EXAMPLE_ROUTE];
      && WellFormed(w) && LiveReconcile(w, EXAMPLE_ROUTE) && IsRouteKey(EXAMPLE_OLD.key)
      && Recorded(r) == EXAMPLE_OLD && Target(r).cm == EXAMPLE_OLD.cm && Target(r).key != EXAMPLE_OLD.key
      && IsOwner(w.routes, Target(r), EXAMPLE_ROUTE)
  {
    assert IndexOf("c", '/') == 1;
    OpenrestyKeyIsRouteKey("x");
    if OpenrestyKey("x") == OpenrestyKey("y") {
      OpenrestyKeyInjective("x", "y");
    }
  }

  /** The failing case exists: the first status write of a rename fails, the second succeeds, and the old key
      stays in the ConfigMap with nothing pointing at it. */
  lemma ForgetfulWritesLoseAKey()
    ensures var w, v := RenamedExample(), ReconcileStep(RenamedExample(), EXAMPLE_ROUTE, OrphanWriteFails(), 0).0;
      && WellFormed(w) && LiveReconcile(w, EXAMPLE_ROUTE) && Forgetful(OrphanWriteFails())
      && Tracked(w, EXAMPLE_OLD) && Present(v, EXAMPLE_OLD) && !Tracked(v, EXAMPLE_OLD)
  {
    var w, e := RenamedExample(), OrphanWriteFails();
    RenamedExampleFacts();
    assert Tracks(w, EXAMPLE_ROUTE, EXAMPLE_OLD);
    assert Rerecords(w, EXAMPLE_ROUTE, e);
    assert !TrackedByOther(w, EXAMPLE_ROUTE, EXAMPLE_OLD);
    RenamedKeyLostExactly(w, EXAMPLE_ROUTE, e, 0, EXAMPLE_OLD);
  }

  /** The key exists, and no other live route renders into it. */
  ghost predicate StillOrphan(w: World, n: NN, s: Slot) {
    && s.cm in w.cms && s.key in w.cms[s.cm]
    && forall o :: o in w.routes && o != n && !w.routes[o].deleting ==> Target(w.routes[o]) != s
  }

  lemma KeepOrphanMeans(w: World, n: NN, ref: string)
    ensures KeepOrphan(w, n, ref) <==> exists s :: OrphanSlot(ref, n.ns) == Some(s) && StillOrphan(w, n, s)
  {
    forall s
      ensures StillOrphan(w, n, s) <==> Present(w, s) && !ClaimedByOther(w.routes, n, s)
    {
      if o :| o in w.routes && o != n && !w.routes[o].deleting && Target(w.routes[o]) == s {
        assert Claims(w.routes, o, s);
      }
    }
  }

  lemma KeptMeans(w: World, n: NN, refs: seq<string>)
    ensures forall ref :: ref in Kept(w, n, refs) <==>
      ref in refs && exists s :: OrphanSlot(ref, n.ns) == Some(s) && StillOrphan(w, n, s)
  {
    forall ref
      ensures KeepOrphan(w, n, ref) <==> exists s :: OrphanSlot(ref, n.ns) == Some(s) && StillOrphan(w, n, s)
    {
      KeepOrphanMeans(w, n, ref);
    }
  }

  /** Whenever the orphan list was brought up to date, its condition is present exactly when it is non-empty; and
      of what was listed stayed what can be read, is a key that exists, and is no other live route's. */
  lemma OrphanConditionMatchesList(w: World, n: NN, e: Env, now: int)
    requires n in w.routes && e.syncReads && e.status.sync
    ensures var st := SyncOrphans(w, n, e, now).w.routes[n].status;
      && (HasCond(st.conds, ORPHAN_COND) <==> st.orphans != [])
      && forall ref :: ref in st.orphans <==>
           ref in w.routes[n].status.orphans && exists s :: OrphanSlot(ref, n.ns) == Some(s) && StillOrphan(w, n, s)
  {
    var st := w.routes[n].status;
    var live := Kept(w, n, st.orphans);
    KeptAll(w, n, st.orphans);
    FindFails(RemoveCond(st.conds, ORPHAN_COND), ORPHAN_COND);
    SetCondPresent(st.conds, Condition(ORPHAN_COND, true, "Orphaned", OrphanMessage(live), now));
    KeptMeans(w, n, st.orphans);
  }

  /** The condition's message names every entry of the list, in order, separated by commas. */
  lemma {:induction false} OrphanMessageLists(refs: seq<string>, ref: string)
    ensures OrphanMessage(refs + [ref]) == if refs == [] then ref else OrphanMessage(refs) + ", " + ref
  {
    if refs == [] {
    } else {
      assert (refs + [ref])[1..] == refs[1..] + [ref];
      OrphanMessageLists(refs[1..], ref);
    }
  }

  lemma {:induction false} KeptAll(w: World, n: NN, refs: seq<string>)
    ensures |Kept(w, n, refs)| == |refs| ==> Kept(w, n, refs) == refs
  {
    if refs == [] {
    } else {
      KeptAll(w, n, refs[..|refs| - 1]);
    }
  }

  lemma {:induction false} SetCondPresent(cs: seq<Condition>, c: Condition)
    ensures HasCond(SetCond(cs, c), c.typ)
  {
    if cs == [] || cs[0].typ == c.typ {
    } else {
      SetCondPresent(cs[1..], c);
      assert SetCond(cs, c)[1..] == SetCond(cs[1..], c);
    }
  }
}
