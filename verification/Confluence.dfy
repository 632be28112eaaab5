/** With specs, deletions and what every route would render frozen, neither the order of the reconciles nor the
    failures along the way matter. */
module Confluence {
  import opened Base
  import opened Names
  import opened Cluster
  import opened Ownership
  import opened Reconcile
  import opened Effects
  import opened Runs

  /** One turn of a schedule: the route reconciled, what the outside answers this time, and the time. */
  datatype Visit = Visit(n: NN, e: Env, now: int)

  type Schedule = seq<Visit>

  ghost function Play(w: World, sched: Schedule): World
    decreases |sched|
  {
    if sched == [] then w else Play(ReconcileStep(w, sched[0].n, sched[0].e, sched[0].now).0, sched[1..])
  }

  /** What every route would render is frozen; everything else the outside answers may differ at every turn. */
  ghost predicate Renders(sched: Schedule, conf: NN -> Option<string>) {
    forall i :: 0 <= i < |sched| ==> sched[i].e.conf == conf(sched[i].n)
  }

  /** How many turns of the schedule, played from `w`, write the conf of `n`. */
  ghost function Writings(w: World, sched: Schedule, n: NN): nat
    requires n in w.routes
    decreases |sched|
  {
    if sched == [] then 0
    else
      var (m, e) := (sched[0].n, sched[0].e);
      var v := ReconcileStep(w, m, e, sched[0].now).0;
      (if m == n && LiveReconcile(w, n) && WritesConf(w, n, e) then 1 else 0)
      + if n in v.routes then Writings(v, sched[1..], n) else 0
  }

  /** How many turns record the slot of `n` in its status. */
  ghost function Recordings(w: World, sched: Schedule, n: NN): nat
    requires n in w.routes
    decreases |sched|
  {
    if sched == [] then 0
    else
      var (m, e) := (sched[0].n, sched[0].e);
      var v := ReconcileStep(w, m, e, sched[0].now).0;
      (if m == n && LiveReconcile(w, n) && RecordsSlot(w, n, e) then 1 else 0)
      + if n in v.routes then Recordings(v, sched[1..], n) else 0
  }

  /** What a schedule never changes. */
  ghost predicate SameShape(w: World, v: World) {
    && v.routes.Keys == w.routes.Keys && v.cms.Keys == w.cms.Keys
    && forall n :: n in w.routes ==>
      v.routes[n] == w.routes[n].(status := v.routes[n].status, finalizer := v.routes[n].finalizer)
  }

  lemma SteppedShape(w: World, v: World, n: NN, e: Env)
    requires Stepped(w, v, n, e)
    ensures SameShape(w, v)
  {
  }

  lemma StepShape(w: World, n: NN, e: Env, now: int)
    requires WellFormed(w)
    ensures SameShape(w, ReconcileStep(w, n, e, now).0)
    ensures WellFormed(ReconcileStep(w, n, e, now).0)
  {
    var v := ReconcileStep(w, n, e, now).0;
    StepIsStepped(w, n, e, now);
    SteppedShape(w, v, n, e);
    SteppedKeepsWellFormed(w, v, n, e);
  }

  /** `m` is `n`, owns its slot, and its record became that slot. */
  ghost predicate RecordsItsOwn(w: World, v: World, n: NN, m: NN)
    requires m in w.routes && m in v.routes
  {
    && m == n && !w.routes[n].deleting && IsOwner(w.routes, Target(w.routes[n]), n)
    && v.routes[n].status.appliedKey == Target(w.routes[n]).key
    && v.routes[n].status.appliedCM == w.routes[n].spec.cmRef
  }

  /** The records other than `n`'s are untouched by a reconcile of `n`, and `n`'s too unless it is the owner,
      in which case it is untouched or becomes the slot `n` owns. */
  lemma StepRecords(w: World, v: World, n: NN, e: Env)
    requires WellFormed(w) && Stepped(w, v, n, e)
    ensures v.routes.Keys == w.routes.Keys
    ensures forall m :: m in w.routes ==> RecordKept(w, v, m) || RecordsItsOwn(w, v, n, m)
  {
  }

  lemma OwnerStaysOwner(w: World, v: World, n: NN, e: Env, s: Slot, o: NN)
    requires WellFormed(w) && Stepped(w, v, n, e) && IsOwner(w.routes, s, o)
    ensures IsOwner(v.routes, s, o)
  {
    SteppedShape(w, v, n, e);
    StepRecords(w, v, n, e);
    if Claims(w.routes, n, s) && IsOwner(w.routes, s, n) {
      OwnerUnique(w.routes, s, n, o);
    }
    forall c | c != o && Claims(v.routes, c, s)
      ensures Beats(v.routes[o], v.routes[c], s)
    {
      assert Claims(w.routes, c, s) && Beats(w.routes[o], w.routes[c], s);
      assert RecordKept(w, v, c);
    }
  }

  /** Ownership of every slot is the same before and after any reconcile. */
  lemma OwnersConstant(w: World, n: NN, e: Env, now: int, s: Slot, o: NN)
    requires WellFormed(w)
    ensures IsOwner(ReconcileStep(w, n, e, now).0.routes, s, o) <==> IsOwner(w.routes, s, o)
  {
    var v := ReconcileStep(w, n, e, now).0;
    StepIsStepped(w, n, e, now);
    StepShape(w, n, e, now);
    if IsOwner(w.routes, s, o) {
      OwnerStaysOwner(w, v, n, e, s, o);
    } else if IsOwner(v.routes, s, o) {
      var p := ExactlyOneOwner(w.routes, s, o);
      OwnerStaysOwner(w, v, n, e, s, p);
      OwnerUnique(v.routes, s, p, o);
    }
  }

  /** Nobody but the owner of a slot writes or deletes it, while the owner is live. */
  lemma OthersKeepSlot(w: World, v: World, n: NN, e: Env, s: Slot, o: NN)
    requires WellFormed(w) && IsRouteKey(s.key) && IsOwner(w.routes, s, o) && n != o && Stepped(w, v, n, e)
    ensures Content(v, s) == Content(w, s)
  {
    if n in w.routes {
      if w.routes[n].deleting {
        assert Claims(w.routes, o, s);
      } else if Target(w.routes[n]) == s && IsOwner(w.routes, s, n) {
        OwnerUnique(w.routes, s, n, o);
      }
    }
  }

  /** What the owner publishes is untouched by anybody else's turn. */
  lemma OthersLeaveOwner(w: World, v: World, n: NN, e: Env, o: NN)
    requires WellFormed(w) && LiveReconcile(w, o) && IsOwner(w.routes, Target(w.routes[o]), o) && n != o
    requires Stepped(w, v, n, e)
    ensures o in v.routes && v.routes[o] == w.routes[o] && LocalOf(v, o) == LocalOf(w, o)
  {
    OpenrestyKeyIsRouteKey(NginxRoute(w.routes[o]));
    OthersKeepSlot(w, v, n, e, Target(w.routes[o]), o);
    OthersKeepRoute(w, v, n, e, o);
  }

  lemma OthersKeepRoute(w: World, v: World, n: NN, e: Env, o: NN)
    requires o in w.routes && n != o && Stepped(w, v, n, e)
    ensures o in v.routes && v.routes[o] == w.routes[o]
  {
  }

  /** A live route that owns the slot it renders into. */
  ghost predicate OwnsItsSlot(w: World, m: NN) {
    LiveReconcile(w, m) && IsOwner(w.routes, Target(w.routes[m]), m)
  }

  /** The record a route's status ends up with: its slot, or what it was. */
  predicate HasRecord(r: Route, key: string, cmRef: string) {
    r.status.appliedKey == key && r.status.appliedCM == cmRef
  }

  /** One turn of anybody, seen from the owner `o`: the content of its slot changes only by a turn of its own
      that writes its conf, and its record only by one that records its slot. */
  lemma SettlingStep(w: World, v: World, n: NN, e: Env, o: NN)
    requires WellFormed(w) && OwnsItsSlot(w, o) && Stepped(w, v, n, e)
    ensures LiveReconcile(v, o) && Target(v.routes[o]) == Target(w.routes[o]) && v.routes[o].spec == w.routes[o].spec
    ensures Content(v, Target(w.routes[o])) ==
            if n == o && WritesConf(w, o, e) then WriteValue(Content(w, Target(w.routes[o])), e.conf.value)
            else Content(w, Target(w.routes[o]))
    ensures if n == o && RecordsSlot(w, o, e) then HasRecord(v.routes[o], Target(w.routes[o]).key, w.routes[o].spec.cmRef)
            else RecordKept(w, v, o)
  {
    SteppedShape(w, v, n, e);
    if n != o {
      OthersLeaveOwner(w, v, n, e, o);
    } else {
      OwnTurn(w, v, o, e);
    }
  }

  lemma OwnTurn(w: World, v: World, o: NN, e: Env)
    requires OwnsItsSlot(w, o) && Stepped(w, v, o, e)
    ensures LocalOf(v, o) == if w.routes[o].finalizer && ReachesDecision(w, o, e)
                             then Publish(LocalOf(w, o), w.routes[o], Target(w.routes[o]).cm in w.cms, e)
                             else LocalOf(w, o)
  {
  }

  /** After any schedule, whatever turns the others take and whichever calls fail, the owner still owns its
      slot, which holds its conf exactly when some turn wrote it, and is as it was otherwise. */
  lemma {:induction false} OwnerSettles(w: World, conf: NN -> Option<string>, sched: Schedule, o: NN)
    requires WellFormed(w) && OwnsItsSlot(w, o) && Renders(sched, conf)
    ensures var v, s := Play(w, sched), Target(w.routes[o]);
      && IsOwner(v.routes, s, o)
      && (Writings(w, sched, o) > 0 ==> conf(o).Some? && s.cm in w.cms)
      && Content(v, s) == (if Writings(w, sched, o) > 0 then WriteValue(Content(w, s), conf(o).value) else Content(w, s))
    decreases |sched|
  {
    if sched == [] {
    } else {
      var n, e, now := sched[0].n, sched[0].e, sched[0].now;
      var v := ReconcileStep(w, n, e, now).0;
      StepIsStepped(w, n, e, now);
      StepShape(w, n, e, now);
      OwnersConstant(w, n, e, now, Target(w.routes[o]), o);
      SettlingStep(w, v, n, e, o);
      assert e.conf == conf(n) && Renders(sched[1..], conf);
      OwnerSettles(v, conf, sched[1..], o);
    }
  }

  /** And its status records its slot exactly when some turn recorded it, and what it did before otherwise. */
  lemma {:induction false} OwnerRecordSettles(w: World, sched: Schedule, o: NN)
    requires WellFormed(w) && OwnsItsSlot(w, o)
    ensures var v, r := Play(w, sched), w.routes[o];
      && o in v.routes
      && if Recordings(w, sched, o) > 0 then HasRecord(v.routes[o], Target(r).key, r.spec.cmRef) else RecordKept(w, v, o)
    decreases |sched|
  {
    if sched == [] {
    } else {
      var n, e, now := sched[0].n, sched[0].e, sched[0].now;
      var v := ReconcileStep(w, n, e, now).0;
      StepIsStepped(w, n, e, now);
      StepShape(w, n, e, now);
      OwnersConstant(w, n, e, now, Target(w.routes[o]), o);
      SettlingStep(w, v, n, e, o);
      OwnerRecordSettles(v, sched[1..], o);
    }
  }

  /** A route that does not own its key, or is being deleted, never records anything. */
  lemma {:induction false} OthersRecordNothing(w: World, sched: Schedule, m: NN)
    requires WellFormed(w) && m in w.routes && !OwnsItsSlot(w, m)
    ensures var v := Play(w, sched); m in v.routes && RecordKept(w, v, m)
    decreases |sched|
  {
    if sched == [] {
    } else {
      var n, e, now := sched[0].n, sched[0].e, sched[0].now;
      var v := ReconcileStep(w, n, e, now).0;
      StepIsStepped(w, n, e, now);
      StepShape(w, n, e, now);
      StepRecords(w, v, n, e);
      OwnersConstant(w, n, e, now, Target(w.routes[m]), m);
      OthersRecordNothing(v, sched[1..], m);
    }
  }

  /** A live owner that has something to write, and a ConfigMap to write it to. */
  ghost predicate CanPublish(w: World, conf: NN -> Option<string>, o: NN) {
    OwnsItsSlot(w, o) && conf(o).Some? && Target(w.routes[o]).cm in w.cms
  }

  /** Every owner that can publish does so at some turn, whatever failed at others. */
  ghost predicate Publishes(w: World, conf: NN -> Option<string>, sched: Schedule) {
    Renders(sched, conf) && forall o :: CanPublish(w, conf, o) ==> Writings(w, sched, o) > 0
  }

  /** And is recorded at some turn. */
  ghost predicate Records(w: World, conf: NN -> Option<string>, sched: Schedule) {
    Renders(sched, conf) && forall o :: CanPublish(w, conf, o) ==> Recordings(w, sched, o) > 0
  }

  /** Confluence: any two schedules by which every owner publishes end with the same owner of every claimed
      openresty key and the same content there. */
  lemma SchedulesAgree(w: World, conf: NN -> Option<string>, s1: Schedule, s2: Schedule, m: NN)
    requires WellFormed(w) && LiveReconcile(w, m)
    requires Publishes(w, conf, s1) && Publishes(w, conf, s2)
    ensures var v1, v2, s := Play(w, s1), Play(w, s2), Target(w.routes[m]);
      && Content(v1, s) == Content(v2, s)
      && (forall o :: IsOwner(v1.routes, s, o) <==> IsOwner(v2.routes, s, o))
  {
    var s := Target(w.routes[m]);
    var o := ExactlyOneOwner(w.routes, s, m);
    OwnerSettles(w, conf, s1, o);
    OwnerSettles(w, conf, s2, o);
    OwnersAfter(w, s1, s, o);
    OwnersAfter(w, s2, s, o);
  }

  /** The owner a slot has is its only owner ever after. */
  lemma OwnersAfter(w: World, sched: Schedule, s: Slot, o: NN)
    requires WellFormed(w) && IsOwner(Play(w, sched).routes, s, o)
    ensures forall p :: IsOwner(Play(w, sched).routes, s, p) <==> p == o
  {
    PlayKeepsWellFormed(w, sched);
    forall p | IsOwner(Play(w, sched).routes, s, p)
      ensures p == o
    {
      OwnerUnique(Play(w, sched).routes, s, p, o);
    }
  }

  lemma {:induction false} RecordingsWrite(w: World, sched: Schedule, n: NN)
    requires n in w.routes && Recordings(w, sched, n) > 0
    ensures Writings(w, sched, n) > 0
    decreases |sched|
  {
    if sched == [] {
    } else {
      var v := ReconcileStep(w, sched[0].n, sched[0].e, sched[0].now).0;
      if n in v.routes && Recordings(v, sched[1..], n) > 0 {
        RecordingsWrite(v, sched[1..], n);
      }
    }
  }

  /** And any two schedules by which every owner is recorded end with the same record in every status, those of
      routes being deleted included. */
  lemma SchedulesAgreeOnRecords(w: World, conf: NN -> Option<string>, s1: Schedule, s2: Schedule, m: NN)
    requires WellFormed(w) && m in w.routes
    requires Records(w, conf, s1) && Records(w, conf, s2)
    ensures var v1, v2 := Play(w, s1), Play(w, s2);
      && m in v1.routes && m in v2.routes
      && v1.routes[m].status.appliedKey == v2.routes[m].status.appliedKey
      && v1.routes[m].status.appliedCM == v2.routes[m].status.appliedCM
  {
    if OwnsItsSlot(w, m) {
      OwnerSettles(w, conf, s1, m);
      OwnerSettles(w, conf, s2, m);
      OwnerRecordSettles(w, s1, m);
      OwnerRecordSettles(w, s2, m);
      if Recordings(w, s1, m) > 0 { RecordingsWrite(w, s1, m); }
      if Recordings(w, s2, m) > 0 { RecordingsWrite(w, s2, m); }
    } else {
      OthersRecordNothing(w, s1, m);
      OthersRecordNothing(w, s2, m);
    }
  }

  lemma {:induction false} PlayKeepsWellFormed(w: World, sched: Schedule)
    requires WellFormed(w)
    ensures WellFormed(Play(w, sched))
    decreases |sched|
  {
    if sched == [] {
    } else {
      StepShape(w, sched[0].n, sched[0].e, sched[0].now);
      PlayKeepsWellFormed(ReconcileStep(w, sched[0].n, sched[0].e, sched[0].now).0, sched[1..]);
    }
  }
}
