/** What one reconcile can change, stage by stage: the facts all the whole-run theorems rest on. */
module Effects {
  import opened Base
  import opened Names
  import opened Cluster
  import opened Ownership
  import opened Reconcile

  /** What every stage of a live reconcile of `n` leaves alone: all other routes, everything of `n` but its
      status, and the set of ConfigMaps, none of which is ever created or deleted. */
  ghost predicate OnlyStatus(w: World, v: World, n: NN) {
    && n in w.routes && n in v.routes
    && v.routes == w.routes[n := w.routes[n].(status := v.routes[n].status)]
    && v.cms.Keys == w.cms.Keys
  }

  lemma OnlyStatusTransitive(u: World, v: World, w: World, n: NN)
    requires OnlyStatus(u, v, n) && OnlyStatus(v, w, n)
    ensures OnlyStatus(u, w, n)
  {
  }

  /** No openresty key of any ConfigMap changed, appeared or disappeared, `except` apart. */
  ghost predicate RouteKeysKept(w: World, v: World, except: set<Slot>) {
    forall s: Slot :: IsRouteKey(s.key) && s !in except ==> Content(v, s) == Content(w, s)
  }

  ghost predicate RecordKept(w: World, v: World, n: NN)
    requires n in w.routes && n in v.routes
  {
    && v.routes[n].status.appliedKey == w.routes[n].status.appliedKey
    && v.routes[n].status.appliedCM == w.routes[n].status.appliedCM
  }

  /** A stage that touches neither openresty keys nor the bookkeeping of renames. */
  ghost predicate Calm(w: World, v: World, n: NN) {
    && OnlyStatus(w, v, n) && RouteKeysKept(w, v, {}) && RecordKept(w, v, n)
    && v.routes[n].status.orphans == w.routes[n].status.orphans
  }

  /** The value a write leaves at a key: an empty value does not create the key. */
  function WriteValue(before: Option<string>, value: string): Option<string> {
    if before.None? && value == "" then None else Some(value)
  }

  lemma WriteCMEffect(w: World, s: Slot, value: string, api: Api)
    ensures var (v, res) := WriteCM(w, s.cm, map[s.key := value], api);
      && v.routes == w.routes && v.cms.Keys == w.cms.Keys
      && (forall t: Slot :: t != s ==> Content(v, t) == Content(w, t))
      && Content(v, s) == (if res.Written? then WriteValue(Content(w, s), value) else Content(w, s))
      && (res.Written? <==>
            !api.NoRead? && s.cm in w.cms && (api.Fine? || WriteValue(Content(w, s), value) == Content(w, s)))
  {
    var put := map[s.key := value];
    if s.cm in w.cms {
      var d := w.cms[s.cm];
      var m := Merge(d, put);
      assert m == d <==> WriteValue(Content(w, s), value) == Content(w, s) by {
        if WriteValue(Content(w, s), value) == Content(w, s) {
          assert m.Keys == d.Keys;
        } else {
          assert s.key in m && m[s.key] == value;
        }
      }
      assert forall k :: k != s.key ==> (k in m <==> k in d) && (k in d ==> m[k] == d[k]);
    }
  }

  lemma RemoveKeyEffect(w: World, s: Slot, api: Api)
    ensures var (v, ok) := RemoveKey(w, s, api);
      && v.routes == w.routes && v.cms.Keys == w.cms.Keys
      && (forall t: Slot :: t != s ==> Content(v, t) == Content(w, t))
      && Content(v, s) == (if ok then None else Content(w, s))
  {
  }

  lemma SyncOrphansEffect(w: World, n: NN, e: Env, now: int)
    requires n in w.routes
    ensures var v := SyncOrphans(w, n, e, now).w;
      OnlyStatus(w, v, n) && v.cms == w.cms && RecordKept(w, v, n)
  {
  }

  /** What a route publishes: the content of its slot and the record of it in status. */
  datatype Local = Local(content: Option<string>, key: string, cmRef: string)

  function LocalOf(w: World, n: NN): Local
    requires n in w.routes
  {
    var r := w.routes[n];
    Local(Content(w, Target(r)), r.status.appliedKey, r.status.appliedCM)
  }

  /** The effect of one owner's turn on what it publishes; `cmThere` says its ConfigMap exists. */
  function Publish(l: Local, r: Route, cmThere: bool, e: Env): Local {
    if e.conf.None? || !cmThere || e.confWrite.NoRead? then l
    else
      var c := WriteValue(l.content, e.conf.value);
      if e.confWrite.NoUpdate? && c != l.content then l
      else
        var moved := l.key != Target(r).key || l.cmRef != r.spec.cmRef;
        if moved && !(l.key != "" && !e.renameList) && e.status.applied then Local(c, Target(r).key, r.spec.cmRef)
        else l.(content := c)
  }

  /** A step that writes no ConfigMap and neither the record nor the orphan list. */
  ghost predicate Bookkeeping(w: World, v: World, n: NN) {
    && OnlyStatus(w, v, n) && v.cms == w.cms && RecordKept(w, v, n)
    && v.routes[n].status.orphans == w.routes[n].status.orphans
  }

  lemma SLOStageBookkeeping(w: World, n: NN, e: Env, now: int)
    requires n in w.routes
    ensures Bookkeeping(w, SLOStage(w, n, e, now), n)
    ensures Bookkeeping(w, ClearSLO(w, n, e), n)
  {
  }

  lemma WriteStageEffect(w: World, n: NN, e: Env, now: int, s: Slot, value: string, api: Api, cartPeers: nat)
    requires n in w.routes
    ensures var g := WriteStage(w, n, e, now, s.cm, map[s.key := value], api, cartPeers);
      && (g.Go? <==>
            !api.NoRead? && s.cm in w.cms && (api.Fine? || WriteValue(Content(w, s), value) == Content(w, s)))
      && (g.Go? ==> Wrote(w, g.w, s, value))
      && (g.Stop? ==> Bookkeeping(w, g.w, n))
  {
    WriteCMEffect(w, s, value, api);
  }

  /** What `RecordKey` does to the record: nothing, or it becomes the current slot. */
  ghost predicate RecordUpdated(w: World, v: World, n: NN, e: Env) {
    && OnlyStatus(w, v, n) && v.cms == w.cms
    && var r := w.routes[n];
       if Moved(r) && !RenameListFails(r, e) && e.status.applied
       then v.routes[n].status.appliedKey == Target(r).key && v.routes[n].status.appliedCM == r.spec.cmRef
       else RecordKept(w, v, n)
  }

  lemma NoteOrphanEffect(w: World, n: NN, e: Env)
    requires n in w.routes
    ensures var v := NoteOrphan(w, n, e);
      OnlyStatus(w, v, n) && v.cms == w.cms && RecordKept(w, v, n)
  {
  }

  lemma NoteRecordEffect(w: World, n: NN, e: Env)
    requires n in w.routes
    ensures var v, r := NoteRecord(w, n, e), w.routes[n];
      && OnlyStatus(w, v, n) && v.cms == w.cms
      && v.routes[n].status.orphans == r.status.orphans
      && (if Moved(r) && e.status.applied
          then v.routes[n].status.appliedKey == Target(r).key && v.routes[n].status.appliedCM == r.spec.cmRef
          else RecordKept(w, v, n))
  {
  }

  lemma RecordKeyEffect(w: World, n: NN, e: Env, now: int)
    requires n in w.routes
    ensures RecordUpdated(w, RecordKey(w, n, e, now).w, n, e)
  {
    if !RenameListFails(w.routes[n], e) {
      NoteOrphanEffect(w, n, e);
      var w1 := NoteOrphan(w, n, e);
      NoteRecordEffect(w1, n, e);
      var w2 := NoteRecord(w1, n, e);
      SyncOrphansEffect(w2, n, e, now);
      OnlyStatusTransitive(w, w1, w2, n);
      OnlyStatusTransitive(w, w2, SyncOrphans(w2, n, e, now).w, n);
    }
  }

  /** `v` is `w` after a successful write of `value` at `s`. */
  ghost predicate Wrote(w: World, v: World, s: Slot, value: string) {
    && v.routes == w.routes && v.cms.Keys == w.cms.Keys
    && Content(v, s) == WriteValue(Content(w, s), value)
    && forall t: Slot :: t != s ==> Content(v, t) == Content(w, t)
  }

  /** What the owner's stage does, whichever way it ends. */
  ghost predicate Published(w: World, v: World, n: NN, e: Env) {
    && OnlyStatus(w, v, n)
    && (forall t: Slot :: t != Target(w.routes[n]) ==> Content(v, t) == Content(w, t))
    && LocalOf(v, n) == Publish(LocalOf(w, n), w.routes[n], Target(w.routes[n]).cm in w.cms, e)
  }

  lemma PublishedWhenWritten(w: World, w1: World, w2: World, v: World, n: NN, e: Env)
    requires Bookkeeping(w, w1, n) && e.conf.Some? && !e.confWrite.NoRead?
    requires var s := Target(w.routes[n]);
      && s.cm in w.cms && Wrote(w1, w2, s, e.conf.value)
      && (e.confWrite.Fine? || WriteValue(Content(w, s), e.conf.value) == Content(w, s))
    requires RecordUpdated(w2, v, n, e)
    ensures Published(w, v, n, e)
  {
    forall t: Slot | t != Target(w.routes[n])
      ensures Content(v, t) == Content(w, t)
    {
      assert Content(v, t) == Content(w2, t) == Content(w1, t) == Content(w, t);
    }
  }

  lemma PublishedWhenKept(w: World, v: World, n: NN, e: Env)
    requires Bookkeeping(w, v, n)
    requires Publish(LocalOf(w, n), w.routes[n], Target(w.routes[n]).cm in w.cms, e) == LocalOf(w, n)
    ensures Published(w, v, n, e)
  {
  }

  /** A write that does not succeed publishes nothing. */
  lemma NotPublished(w: World, n: NN, e: Env)
    requires n in w.routes
    requires var s := Target(w.routes[n]);
      || e.conf.None? || e.confWrite.NoRead? || s.cm !in w.cms
      || !(e.confWrite.Fine? || WriteValue(Content(w, s), e.conf.value) == Content(w, s))
    ensures Publish(LocalOf(w, n), w.routes[n], Target(w.routes[n]).cm in w.cms, e) == LocalOf(w, n)
  {
  }

  lemma OwnerStageEffect(w: World, n: NN, e: Env, now: int)
    requires n in w.routes
    ensures Published(w, OwnerStage(w, n, e, now).w, n, e)
  {
    var w1 := SLOStage(w, n, e, now);
    SLOStageBookkeeping(w, n, e, now);
    if e.conf.None? {
      NotPublished(w, n, e);
      PublishedWhenKept(w, w1, n, e);
    } else {
      OwnerWriteEffect(w, w1, n, e, now);
    }
  }

  lemma OwnerWriteEffect(w: World, w1: World, n: NN, e: Env, now: int)
    requires Bookkeeping(w, w1, n) && e.conf.Some?
    ensures var r := w.routes[n];
      var g := WriteStage(w1, n, e, now, Target(r).cm, map[Target(r).key := e.conf.value], e.confWrite, CartPeers(r, e));
      Published(w, if g.Go? then RecordKey(g.w, n, e, now).w else g.w, n, e)
  {
    var r := w.routes[n];
    var s := Target(r);
    WriteStageEffect(w1, n, e, now, s, e.conf.value, e.confWrite, CartPeers(r, e));
    var g := WriteStage(w1, n, e, now, s.cm, map[s.key := e.conf.value], e.confWrite, CartPeers(r, e));
    if g.Go? {
      RecordKeyEffect(g.w, n, e, now);
      PublishedWhenWritten(w, w1, g.w, RecordKey(g.w, n, e, now).w, n, e);
    } else {
      NotPublished(w, n, e);
      OnlyStatusTransitive(w, w1, g.w, n);
      PublishedWhenKept(w, g.w, n, e);
    }
  }

  lemma SetReadyBookkeeping(w: World, n: NN, e: Env, now: int, peers: nat, ready: bool, reason: string, message: string)
    requires n in w.routes
    ensures Bookkeeping(w, SetReady(w, n, e, now, peers, ready, reason, message), n)
  {
  }

  lemma WriteStageCalm(w: World, n: NN, e: Env, now: int, s: Slot, value: string, api: Api, cartPeers: nat)
    requires n in w.routes && !IsRouteKey(s.key)
    ensures var g := WriteStage(w, n, e, now, s.cm, map[s.key := value], api, cartPeers);
      Calm(w, g.w, n) && (g.Go? ==> g.w.routes == w.routes)
  {
    WriteStageEffect(w, n, e, now, s, value, api, cartPeers);
  }

  lemma CalmTransitive(w: World, u: World, v: World, n: NN)
    requires Calm(w, u, n) && Calm(u, v, n)
    ensures Calm(w, v, n)
  {
  }

  lemma CartWriteCalm(w: World, n: NN, e: Env, now: int)
    requires WellFormed(w) && n in w.routes && w.routes[n].spec.cart.Some?
    ensures var g := CartWrite(w, n, e, now);
      Calm(w, g.w, n) && (g.Go? ==> g.w.routes == w.routes)
  {
    if e.cartText.Some? {
      var c := w.routes[n].spec.cart.value;
      WriteStageCalm(w, n, e, now, Slot(SplitNSName(c.cmRef, n.ns), CartKey(c)), e.cartText.value, e.cartWrite, 0);
    }
  }

  lemma CartStageCalm(w: World, n: NN, e: Env, now: int)
    requires WellFormed(w) && n in w.routes
    ensures var g := CartStage(w, n, e, now);
      Calm(w, g.w, n) && (g.Go? ==> g.w.routes == w.routes)
  {
    if w.routes[n].spec.cart.Some? {
      CartWriteCalm(w, n, e, now);
      var u := CartWrite(w, n, e, now).w;
      SetReadyBookkeeping(u, n, e, now, 0, false, "DiscoverError", "");
      CalmTransitive(w, u, CartStage(w, n, e, now).w, n);
    }
  }

  lemma MonitorStageCalm(w: World, n: NN, e: Env, now: int)
    requires ValidName(n) && n in w.routes
    ensures Calm(w, MonitorStage(w, n, e, now).w, n)
  {
    var ref := w.routes[n].spec.monitorCM;
    if ref.Some? {
      MonitorKeyIsNotRouteKey(n.name);
      var s := Slot(SplitNSName(ref.value, n.ns), MonitorKey(n.name));
      WriteStageCalm(w, n, e, now, s, e.monitorText, e.monitorWrite, CartPeers(w.routes[n], e));
      SetReadyBookkeeping(w, n, e, now, CartPeers(w.routes[n], e), false, "DiscoverError", "");
    }
  }

  lemma FinishCalm(g: Stage, n: NN, e: Env, now: int, conflict: bool, owner: NN)
    requires ValidName(n) && n in g.w.routes
    ensures Calm(g.w, Finish(g, n, e, now, conflict, owner).0, n)
  {
    if g.Go? {
      MonitorStageCalm(g.w, n, e, now);
      ReportCalm(MonitorStage(g.w, n, e, now), n, e, now, conflict, owner);
      CalmTransitive(g.w, MonitorStage(g.w, n, e, now).w, Finish(g, n, e, now, conflict, owner).0, n);
    }
  }

  lemma ReportCalm(g: Stage, n: NN, e: Env, now: int, conflict: bool, owner: NN)
    requires n in g.w.routes
    ensures Calm(g.w, Report(g, n, e, now, conflict, owner).0, n)
  {
    var cartPeers := CartPeers(g.w.routes[n], e);
    SetReadyBookkeeping(g.w, n, e, now, cartPeers, false, "RouteKeyConflict", QualifiedName(owner));
    SetReadyBookkeeping(g.w, n, e, now, cartPeers, true, "Synced", "");
  }

  lemma LoserStageEffect(w: World, n: NN, e: Env, now: int)
    requires n in w.routes
    ensures var v := LoserStage(w, n, e, now).w;
      OnlyStatus(w, v, n) && v.cms == w.cms && RecordKept(w, v, n)
  {
    SLOStageBookkeeping(w, n, e, now);
    SyncOrphansEffect(ClearSLO(w, n, e), n, e, now);
  }

  /** The CART write is skipped, as there is nothing to render over, or it succeeds. */
  predicate CartWriteGoes(w: World, n: NN, c: CartSpec, e: Env) {
    var cm := SplitNSName(c.cmRef, n.ns);
    || !e.cartRead || cm !in w.cms || (c.outputKey == "" && Lookup(w.cms[cm], CartKey(c)) == "")
    || (e.cartText.Some? && !e.cartWrite.NoRead?
        && (e.cartWrite.Fine? || Merge(w.cms[cm], map[CartKey(c) := e.cartText.value]) == w.cms[cm]))
  }

  /** The CART stage lets the reconcile go on: there is no cart, or its write is skipped or succeeds and its
      peers are found. */
  predicate CartGoes(w: World, n: NN, e: Env)
    requires n in w.routes
  {
    match w.routes[n].spec.cart
    case None => true
    case Some(c) => e.cartPeers.Some? && CartWriteGoes(w, n, c, e)
  }

  /** The reconcile gets as far as deciding who owns the key. */
  predicate ReachesDecision(w: World, n: NN, e: Env)
    requires n in w.routes
  {
    e.backends.Some? && e.backends.value > 0 && e.ownerList && CartGoes(w, n, e)
  }

  lemma CartStageGoes(w: World, n: NN, e: Env, now: int)
    requires n in w.routes
    ensures CartStage(w, n, e, now).Go? <==> CartGoes(w, n, e)
  {
  }

  /** A reconcile of the live route `n` gets its conf written: it has its finalizer, reaches the decision, owns
      its slot, and the write succeeds or finds the conf already there. */
  ghost predicate WritesConf(w: World, n: NN, e: Env)
    requires n in w.routes
  {
    var r := w.routes[n];
    var s := Target(r);
    && r.finalizer && ReachesDecision(w, n, e) && IsOwner(w.routes, s, n)
    && e.conf.Some? && s.cm in w.cms && !e.confWrite.NoRead?
    && (e.confWrite.Fine? || WriteValue(Content(w, s), e.conf.value) == Content(w, s))
  }

  /** And its status then records its slot, whether or not it did before. */
  ghost predicate RecordsSlot(w: World, n: NN, e: Env)
    requires n in w.routes
  {
    WritesConf(w, n, e) && !RenameListFails(w.routes[n], e) && e.status.applied
  }

  /** One turn of `n`: nobody else's object changes and no openresty key but the route's own; that one and
      its record only if `n` owns it and the reconcile reaches the decision, and then exactly as `Publish`
      says. */
  ghost predicate Turn(w: World, v: World, n: NN, e: Env, reached: bool)
    requires n in w.routes
  {
    var r := w.routes[n];
    var owns := IsOwner(w.routes, Target(r), n);
    var published := Publish(LocalOf(w, n), r, Target(r).cm in w.cms, e);
    && OnlyStatus(w, v, n)
    && RouteKeysKept(w, v, if owns then {Target(r)} else {})
    && LocalOf(v, n) == if owns && reached then published else LocalOf(w, n)
  }

  lemma CalmIsTurn(w: World, v: World, n: NN, e: Env)
    requires n in w.routes && Calm(w, v, n)
    ensures Turn(w, v, n, e, false)
  {
    OpenrestyKeyIsRouteKey(NginxRoute(w.routes[n]));
  }

  lemma TurnComposes(w: World, w1: World, w2: World, v: World, n: NN, e: Env, reached: bool)
    requires n in w.routes && Calm(w, w1, n) && w1.routes == w.routes
    requires Turn(w1, w2, n, e, reached) && Calm(w2, v, n)
    ensures Turn(w, v, n, e, reached)
  {
    OpenrestyKeyIsRouteKey(NginxRoute(w.routes[n]));
  }

  lemma DecideTurn(w: World, g: Stage, n: NN, e: Env, now: int)
    requires WellFormed(w) && n in w.routes && !w.routes[n].deleting
    requires Calm(w, g.w, n) && (g.Go? ==> g.w.routes == w.routes)
    ensures Turn(w, Decide(g, n, e, now).0, n, e, g.Go? && e.ownerList)
  {
    if g.Go? && e.ownerList {
      var u := g.w;
      OwnerOfIsOwner(u.routes, n);
      var owner := OwnerOf(u.routes, Target(u.routes[n]));
      if owner == n {
        OwnerStageEffect(u, n, e, now);
        FinishCalm(OwnerStage(u, n, e, now), n, e, now, false, owner);
        TurnComposes(w, u, OwnerStage(u, n, e, now).w, Decide(g, n, e, now).0, n, e, true);
      } else {
        LoserStageEffect(u, n, e, now);
        FinishCalm(LoserStage(u, n, e, now), n, e, now, true, owner);
        TurnComposes(w, u, LoserStage(u, n, e, now).w, Decide(g, n, e, now).0, n, e, true);
      }
    } else {
      CalmIsTurn(w, g.w, n, e);
    }
  }

  /** Fail-safe: with discovery failing or finding no backend, no ConfigMap changes at all. */
  lemma NoBackendsTouchesNoConfigMap(w: World, n: NN, e: Env, now: int)
    requires n in w.routes && (e.backends.None? || e.backends.value == 0)
    ensures Bookkeeping(w, LiveStep(w, n, e, now).0, n)
    ensures LiveStep(w, n, e, now).1 == RequeueAfter
  {
    SetReadyBookkeeping(w, n, e, now, 0, false, "DiscoverError", "");
    SetReadyBookkeeping(w, n, e, now, 0, false, "NoBackends", "");
  }

  lemma LiveStepTurn(w: World, n: NN, e: Env, now: int)
    requires WellFormed(w) && n in w.routes && !w.routes[n].deleting
    ensures Turn(w, LiveStep(w, n, e, now).0, n, e, ReachesDecision(w, n, e))
  {
    if e.backends.Some? && e.backends.value > 0 {
      CartStageCalm(w, n, e, now);
      DecideTurn(w, CartStage(w, n, e, now), n, e, now);
      CartStageGoes(w, n, e, now);
    } else {
      NoBackendsTouchesNoConfigMap(w, n, e, now);
      CalmIsTurn(w, LiveStep(w, n, e, now).0, n, e);
    }
  }

  lemma CleanupEffect(w: World, n: NN, e: Env)
    requires n in w.routes && ValidName(n)
    ensures var (v, ok) := Cleanup(w, n, e);
      var s := CleanupSlot(w.routes[n]);
      && v.routes == w.routes && v.cms.Keys == w.cms.Keys
      && RouteKeysKept(w, v, if ClaimedByOther(w.routes, n, s) then {} else {s})
      && (IsRouteKey(s.key) ==> Content(v, s) == Content(w, s) || Content(v, s).None?)
      && (ok && IsRouteKey(s.key) ==> Content(v, s).None? || ClaimedByOther(w.routes, n, s))
  {
    RemoveKeyEffect(w, CleanupSlot(w.routes[n]), e.cleanupRemove);
    var w1 := CleanupRoute(w, n, e).0;
    var ref := w.routes[n].spec.monitorCM;
    if ref.Some? {
      RemoveKeyEffect(w1, Slot(SplitNSName(ref.value, n.ns), MonitorKey(n.name)), e.cleanupMonitor);
      MonitorKeyIsNotRouteKey(n.name);
    }
  }
}
