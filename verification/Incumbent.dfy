/** An incumbent route cannot be displaced: not by newer routes, not by older ones that are renamed onto its
    key, and not by the finalizer of any other route. */
module Incumbents {
  import opened Names
  import opened Cluster
  import opened Ownership
  import opened Reconcile
  import opened Effects
  import opened Runs

  /** `m` is live, renders into `s`, holds it in status, and every other live holder is later. */
  ghost predicate Incumbent(w: World, m: NN, s: Slot) {
    && Claims(w.routes, m, s) && Holds(w.routes[m], s)
    && forall o :: o != m && LiveReconcile(w, o) && Holds(w.routes[o], s) ==> EarlierThan(w.routes[m], w.routes[o])
  }

  /** The action neither deletes `m` nor edits it away from `s`. */
  ghost predicate Spares(w: World, a: Action, m: NN, s: Slot) {
    match a
    case Delete(n) => n != m
    case EditSpec(n, spec) => n == m && m in w.routes ==> Target(w.routes[m].(spec := spec)) == s
    case _ => true
  }

  lemma IncumbentOwns(w: World, m: NN, s: Slot)
    requires WellFormed(w) && Incumbent(w, m, s)
    ensures IsOwner(w.routes, s, m)
    ensures forall o :: IsOwner(w.routes, s, o) ==> o == m
  {
    forall o | IsOwner(w.routes, s, o)
      ensures o == m
    {
      OwnerUnique(w.routes, s, o, m);
    }
  }

  lemma OthersStepped(w: World, v: World, m: NN, s: Slot, n: NN, e: Env)
    requires WellFormed(w) && Incumbent(w, m, s) && n != m && Stepped(w, v, n, e)
    ensures Incumbent(v, m, s) && Content(v, s) == Content(w, s)
  {
    if LiveReconcile(w, n) && w.routes[n].finalizer {
      OthersTurn(w, v, m, s, n, e);
    } else {
      OthersCleaning(w, v, m, s, n, e);
    }
  }

  lemma OthersTurn(w: World, v: World, m: NN, s: Slot, n: NN, e: Env)
    requires WellFormed(w) && Incumbent(w, m, s) && n != m && n in w.routes && Turn(w, v, n, e, ReachesDecision(w, n, e))
    ensures Incumbent(v, m, s) && Content(v, s) == Content(w, s)
  {
    IncumbentOwns(w, m, s);
    OpenrestyKeyIsRouteKey(NginxRoute(w.routes[m]));
  }

  lemma OthersCleaning(w: World, v: World, m: NN, s: Slot, n: NN, e: Env)
    requires WellFormed(w) && Incumbent(w, m, s) && n != m && Stepped(w, v, n, e)
    requires !(LiveReconcile(w, n) && w.routes[n].finalizer)
    ensures Incumbent(v, m, s) && Content(v, s) == Content(w, s)
  {
    OpenrestyKeyIsRouteKey(NginxRoute(w.routes[m]));
  }

  /** A reconcile of another route leaves the incumbent in place and its key alone. */
  lemma OthersReconcile(w: World, m: NN, s: Slot, n: NN, e: Env, now: int)
    requires WellFormed(w) && Incumbent(w, m, s) && n != m
    ensures var v := ReconcileStep(w, n, e, now).0;
      Incumbent(v, m, s) && Content(v, s) == Content(w, s)
  {
    StepIsStepped(w, n, e, now);
    OthersStepped(w, ReconcileStep(w, n, e, now).0, m, s, n, e);
  }

  lemma OwnStepped(w: World, v: World, m: NN, s: Slot, e: Env)
    requires WellFormed(w) && Incumbent(w, m, s) && Stepped(w, v, m, e)
    ensures Incumbent(v, m, s)
    ensures Content(v, s) == Content(w, s) || (e.conf.Some? && Content(v, s) == WriteValue(Content(w, s), e.conf.value))
  {
    IncumbentOwns(w, m, s);
  }

  /** The incumbent's own reconcile keeps it in place; it may only refresh the key with its own conf. */
  lemma OwnReconcile(w: World, m: NN, s: Slot, e: Env, now: int)
    requires WellFormed(w) && Incumbent(w, m, s)
    ensures var v := ReconcileStep(w, m, e, now).0;
      && Incumbent(v, m, s)
      && (Content(v, s) == Content(w, s) || (e.conf.Some? && Content(v, s) == WriteValue(Content(w, s), e.conf.value)))
  {
    StepIsStepped(w, m, e, now);
    OwnStepped(w, ReconcileStep(w, m, e, now).0, m, s, e);
  }

  /** Writing one route other than `m`, without making it a live holder, keeps the incumbent. */
  lemma OtherRouteWritten(w: World, m: NN, s: Slot, n: NN, r: Route)
    requires Incumbent(w, m, s) && n != m
    requires !r.deleting && Holds(r, s) ==>
             LiveReconcile(w, n) && Holds(w.routes[n], s) && r.id == w.routes[n].id && r.created == w.routes[n].created
    ensures Incumbent(w.(routes := w.routes[n := r]), m, s)
  {
  }

  lemma OtherRouteGone(w: World, m: NN, s: Slot, n: NN)
    requires Incumbent(w, m, s) && n != m
    ensures Incumbent(w.(routes := w.routes - {n}), m, s)
  {
  }

  lemma OwnSpecEdited(w: World, m: NN, s: Slot, spec: Spec)
    requires Incumbent(w, m, s) && Target(w.routes[m].(spec := spec)) == s
    ensures Incumbent(w.(routes := w.routes[m := w.routes[m].(spec := spec)]), m, s)
  {
  }

  lemma UserActionsKeepIncumbent(w: World, m: NN, s: Slot, a: Action)
    requires WellFormed(w) && Incumbent(w, m, s) && Spares(w, a, m, s) && !a.ReconcileOne?
    ensures Incumbent(Apply(w, a), m, s)
  {
    match a
    case Create(r) =>
      OpenrestyKeyIsRouteKey(NginxRoute(w.routes[m]));
      if r.id != m { OtherRouteWritten(w, m, s, r.id, r.(deleting := false, status := EMPTY_STATUS)); }
    case EditSpec(n, spec) =>
      if n == m { OwnSpecEdited(w, m, s, spec); }
      else if n in w.routes { OtherRouteWritten(w, m, s, n, w.routes[n].(spec := spec)); }
    case Delete(n) =>
      if n in w.routes { OtherRouteWritten(w, m, s, n, w.routes[n].(deleting := true)); }
    case Collect(n) =>
      if n != m { OtherRouteGone(w, m, s, n); }
    case EditCM(_, _) =>
  }

  lemma UserActionsKeepContent(w: World, s: Slot, a: Action)
    requires !a.ReconcileOne? && !(a.EditCM? && a.cm == s.cm)
    ensures Content(Apply(w, a), s) == Content(w, s)
  {
  }

  lemma IncumbentStep(w: World, m: NN, s: Slot, a: Action)
    requires WellFormed(w) && Incumbent(w, m, s) && Spares(w, a, m, s)
    ensures var v := Apply(w, a);
      Incumbent(v, m, s) && (Content(v, s) == Content(w, s) || MayWrite(w, a, v, m, s))
  {
    if !a.ReconcileOne? {
      UserActionsKeepIncumbent(w, m, s, a);
      if !(a.EditCM? && a.cm == s.cm) {
        UserActionsKeepContent(w, s, a);
      }
    } else if a.n == m {
      OwnReconcile(w, m, s, a.e, a.now);
    } else {
      OthersReconcile(w, m, s, a.n, a.e, a.now);
    }
  }

  /** The only actions that may change what is at `s`: an edit of the ConfigMap by hand, and a reconcile of
      `m`, which writes its own conf there. */
  ghost predicate MayWrite(w: World, a: Action, v: World, m: NN, s: Slot) {
    match a
    case EditCM(cm, _) => cm == s.cm
    case ReconcileOne(n, e, _) =>
      n == m && e.conf.Some? && Content(v, s) == WriteValue(Content(w, s), e.conf.value)
    case _ => false
  }

  /** Every action of the run spares the incumbent. */
  ghost predicate AllSpare(w: World, acts: seq<Action>, m: NN, s: Slot)
    decreases |acts|
  {
    acts != [] ==> Admissible(acts[0]) && Spares(w, acts[0], m, s) && AllSpare(Apply(w, acts[0]), acts[1..], m, s)
  }

  /** Along the run, `s` changes only by the actions that may write it. */
  ghost predicate OnlyWrittenBy(w: World, acts: seq<Action>, m: NN, s: Slot)
    decreases |acts|
  {
    acts != [] ==>
      var v := Apply(w, acts[0]);
      (Content(v, s) == Content(w, s) || MayWrite(w, acts[0], v, m, s)) && OnlyWrittenBy(v, acts[1..], m, s)
  }

  /** Incumbent safety over whole runs: after any creations, edits and deletions of other routes, edits of
      ConfigMaps by others, and reconciles in any order, `m` still owns `s`, and no controller run but
      `m`'s own ever wrote or removed it. */
  lemma {:induction false} IncumbentSafety(w: World, m: NN, s: Slot, acts: seq<Action>)
    requires WellFormed(w) && Incumbent(w, m, s) && AllSpare(w, acts, m, s)
    ensures Incumbent(Run(w, acts), m, s) && IsOwner(Run(w, acts).routes, s, m)
    ensures OnlyWrittenBy(w, acts, m, s)
    decreases |acts|
  {
    if acts == [] {
      IncumbentOwns(w, m, s);
    } else {
      IncumbentStep(w, m, s, acts[0]);
      ApplyKeepsWellFormed(w, acts[0]);
      IncumbentSafety(Apply(w, acts[0]), m, s, acts[1..]);
    }
  }

  /** Once present, the incumbent's key stays present unless somebody edits that ConfigMap by hand. */
  lemma {:induction false} IncumbentKeyStaysPresent(w: World, m: NN, s: Slot, acts: seq<Action>)
    requires WellFormed(w) && Incumbent(w, m, s) && AllSpare(w, acts, m, s)
    requires forall a :: a in acts ==> !(a.EditCM? && a.cm == s.cm)
    ensures Present(w, s) ==> Present(Run(w, acts), s)
    decreases |acts|
  {
    if acts == [] {
    } else {
      IncumbentStep(w, m, s, acts[0]);
      ApplyKeepsWellFormed(w, acts[0]);
      IncumbentKeyStaysPresent(Apply(w, acts[0]), m, s, acts[1..]);
    }
  }
}
