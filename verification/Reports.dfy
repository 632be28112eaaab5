/** What a route's status says after the controller reported something in it. */
module Reports {
  import opened Base
  import opened Names
  import opened Conditions
  import opened Cluster
  import opened Reconcile

  /** The condition of that type that a route carries. */
  function Reported(w: World, n: NN, typ: string): Option<Condition>
    requires n in w.routes
  {
    Find(w.routes[n].status.conds, typ)
  }

  /** Only the condition `typ` of `n`, and none of its record, orphan list, spec or finalizer, may differ; no
      other object does. */
  ghost predicate OnlyCondition(w: World, v: World, n: NN, typ: string) {
    && n in w.routes && n in v.routes && v.cms == w.cms
    && v.routes == w.routes[n := w.routes[n].(status := v.routes[n].status)]
    && v.routes[n].status.appliedKey == w.routes[n].status.appliedKey
    && v.routes[n].status.appliedCM == w.routes[n].status.appliedCM
    && v.routes[n].status.orphans == w.routes[n].status.orphans
    && (UniqueTypes(w.routes[n].status.conds) ==> UniqueTypes(v.routes[n].status.conds))
    && forall t :: t != typ ==> Reported(v, n, t) == Reported(w, n, t)
  }

  /** Since when `n` has had a condition with this status. */
  function Since(w: World, n: NN, typ: string, status: bool, now: int): int
    requires n in w.routes
  {
    var before := Reported(w, n, typ);
    if before.Some? && before.value.status == status then before.value.time else now
  }

  /** After `setStatus`, the Ready condition says what was reported, since the moment readiness last changed,
      and the counts are those of this reconcile; when its write fails, nothing changed. */
  lemma ReadyReported(w: World, n: NN, e: Env, now: int, cartPeers: nat, ready: bool, reason: string, message: string)
    requires n in w.routes
    ensures var v := SetReady(w, n, e, now, cartPeers, ready, reason, message);
      && OnlyCondition(w, v, n, "Ready")
      && (!e.status.ready ==> v == w)
      && (e.status.ready ==>
            var st := v.routes[n].status;
            && Reported(v, n, "Ready") == Some(Condition("Ready", ready, reason, message, Since(w, n, "Ready", ready, now)))
            && st.ready == ready && st.cartPeers == cartPeers
            && st.backends == (if e.backends.Some? then e.backends.value else 0))
  {
    SetCondEffect(w.routes[n].status.conds, Condition("Ready", ready, reason, message, now));
  }

  /** After `syncSLOCondition`, the SLO condition carries the outcome's status, reason and message, since its
      status last changed, unless the write that was needed failed. */
  lemma SLOReported(w: World, n: NN, e: Env, now: int)
    requires n in w.routes && UniqueTypes(w.routes[n].status.conds)
    ensures var v := SyncSLO(w, n, e, now);
      var c := Condition(SLO_COND, e.slo.status, e.slo.reason, e.slo.message, Since(w, n, SLO_COND, e.slo.status, now));
      && OnlyCondition(w, v, n, SLO_COND)
      && (e.status.slo ==> Reported(v, n, SLO_COND) == Some(c))
      && (!e.status.slo ==> v == w)
      && (Reported(w, n, SLO_COND) == Some(c) ==> v == w)
  {
    var cs := w.routes[n].status.conds;
    var c := Condition(SLO_COND, e.slo.status, e.slo.reason, e.slo.message, now);
    SetCondEffect(cs, c);
    SaidBefore(cs, c);
  }

  /** The loop of `syncSLOCondition` looks for an entry that differs in time only; as types are unique, it can
      only be the one that is found by type. */
  lemma SaidBefore(cs: seq<Condition>, c: Condition)
    requires UniqueTypes(cs)
    ensures (exists d :: d in cs && d.(time := c.time) == c) <==>
            Find(cs, c.typ).Some? && Find(cs, c.typ).value.(time := c.time) == c
  {
    forall d | d in cs
      ensures Find(cs, d.typ) == Some(d)
    {
      FindUnique(cs, d);
    }
    FindMember(cs, c.typ);
  }

  /** After `clearSLOCondition` there is no SLO condition, unless there was one and the write failed. */
  lemma SLOCleared(w: World, n: NN, e: Env)
    requires n in w.routes
    ensures var v := ClearSLO(w, n, e);
      && OnlyCondition(w, v, n, SLO_COND)
      && (Reported(v, n, SLO_COND) == None <==> e.status.slo || Reported(w, n, SLO_COND) == None)
      && (!e.status.slo ==> v == w)
  {
    RemoveCondEffect(w.routes[n].status.conds, SLO_COND);
  }

  lemma {:induction false} FindUnique(cs: seq<Condition>, d: Condition)
    requires UniqueTypes(cs) && d in cs
    ensures Find(cs, d.typ) == Some(d)
  {
    if cs[0] == d {
    } else {
      assert d in cs[1..];
      FindUnique(cs[1..], d);
    }
  }

  lemma {:induction false} FindMember(cs: seq<Condition>, typ: string)
    ensures Find(cs, typ).Some? ==> Find(cs, typ).value in cs && Find(cs, typ).value.typ == typ
  {
    if cs == [] {
    } else {
      FindMember(cs[1..], typ);
    }
  }
}
