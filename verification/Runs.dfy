/** Whole runs: any mix of user edits, ConfigMap edits by others and reconciles of any route. */
module Runs {
  import opened Base
  import opened Names
  import opened Cluster
  import opened Reconcile
  import opened Effects

  datatype Action =
    | Create(route: Route)                        // a user creates a route; its status starts empty
    | EditSpec(n: NN, spec: Spec)                 // a user edits a spec
    | Delete(n: NN)                               // a user deletes a route: it is marked, not removed
    | Collect(n: NN)                              // the API server drops a marked route without finalizer
    | ReconcileOne(n: NN, e: Env, now: int)       // the controller
    | EditCM(cm: NN, data: Option<Data>)          // the chart or a person creates, edits or deletes a ConfigMap

  ghost function Apply(w: World, a: Action): World {
    match a
    case Create(r) =>
      if r.id in w.routes then w
      else w.(routes := w.routes[r.id := r.(deleting := false, status := EMPTY_STATUS)])
    case EditSpec(n, spec) =>
      if n in w.routes then w.(routes := w.routes[n := w.routes[n].(spec := spec)]) else w
    case Delete(n) =>
      if n in w.routes then w.(routes := w.routes[n := w.routes[n].(deleting := true)]) else w
    case Collect(n) =>
      if n in w.routes && w.routes[n].deleting && !w.routes[n].finalizer then w.(routes := w.routes - {n}) else w
    case ReconcileOne(n, e, now) => ReconcileStep(w, n, e, now).0
    case EditCM(cm, Some(data)) => w.(cms := w.cms[cm := data])
    case EditCM(cm, None) => w.(cms := w.cms - {cm})
  }

  ghost function Run(w: World, acts: seq<Action>): World
    decreases |acts|
  {
    if acts == [] then w else Run(Apply(w, acts[0]), acts[1..])
  }

  /** Others edit ConfigMaps as they like, and a new route has been through nothing yet. */
  lemma WhatOthersDo(w: World, s: Slot, data: Option<Data>, r: Route)
    ensures Content(Apply(w, EditCM(s.cm, data)), s) ==
            if data.Some? && s.key in data.value then Some(data.value[s.key]) else None
    ensures r.id !in w.routes ==>
            r.id in Apply(w, Create(r)).routes &&
            Apply(w, Create(r)).routes[r.id] == Route(r.id, r.created, false, r.finalizer, r.spec, EMPTY_STATUS)
  {
  }

  /** What API validation lets through. */
  ghost predicate Admissible(a: Action) {
    match a
    case Create(r) => ValidName(r.id) && ValidSpec(r.spec)
    case EditSpec(_, spec) => ValidSpec(spec)
    case EditCM(cm, _) => ValidName(cm)
    case _ => true
  }

  /** A reconcile of a route that is not being deleted. */
  ghost predicate LiveReconcile(w: World, n: NN) {
    n in w.routes && !w.routes[n].deleting
  }

  /** What the finalizer's turn does: at most it deletes the key it answers for, and drops itself. */
  ghost predicate Cleaned(w: World, v: World, n: NN)
    requires n in w.routes
  {
    var r := w.routes[n];
    var s := CleanupSlot(r);
    && (v.routes == w.routes || v.routes == w.routes[n := r.(finalizer := false)])
    && v.cms.Keys == w.cms.Keys
    && RouteKeysKept(w, v, if ClaimedByOther(w.routes, n, s) then {} else {s})
    && (IsRouteKey(s.key) ==> Content(v, s) == Content(w, s) || Content(v, s).None?)
  }

  /** What a reconcile of `n` does, told by its effects: a live route takes a turn, or gets its finalizer
      first; a route being deleted cleans up; anything else stays as it is. */
  ghost predicate Stepped(w: World, v: World, n: NN, e: Env) {
    if n !in w.routes then v == w
    else if !w.routes[n].deleting then
      if w.routes[n].finalizer then Turn(w, v, n, e, ReachesDecision(w, n, e))
      else
        && v.cms == w.cms
        && v.routes == if e.finalizerWrite then w.routes[n := w.routes[n].(finalizer := true)] else w.routes
    else if w.routes[n].finalizer then Cleaned(w, v, n)
    else v == w
  }

  lemma StepIsStepped(w: World, n: NN, e: Env, now: int)
    requires WellFormed(w)
    ensures Stepped(w, ReconcileStep(w, n, e, now).0, n, e)
  {
    if LiveReconcile(w, n) {
      if w.routes[n].finalizer {
        LiveStepTurn(w, n, e, now);
      }
    } else if n in w.routes && w.routes[n].finalizer {
      CleanupEffect(w, n, e);
    }
  }

  lemma SteppedKeepsWellFormed(w: World, v: World, n: NN, e: Env)
    requires WellFormed(w) && Stepped(w, v, n, e)
    ensures WellFormed(v)
  {
    if n in w.routes {
      OpenrestyKeyIsRouteKey(NginxRoute(w.routes[n]));
    }
  }

  lemma ReconcileKeepsWellFormed(w: World, n: NN, e: Env, now: int)
    requires WellFormed(w)
    ensures WellFormed(ReconcileStep(w, n, e, now).0)
  {
    StepIsStepped(w, n, e, now);
    SteppedKeepsWellFormed(w, ReconcileStep(w, n, e, now).0, n, e);
  }

  lemma ApplyKeepsWellFormed(w: World, a: Action)
    requires WellFormed(w) && Admissible(a)
    ensures WellFormed(Apply(w, a))
  {
    if a.ReconcileOne? {
      ReconcileKeepsWellFormed(w, a.n, a.e, a.now);
    }
  }

  lemma {:induction false} RunKeepsWellFormed(w: World, acts: seq<Action>)
    requires WellFormed(w) && forall a :: a in acts ==> Admissible(a)
    ensures WellFormed(Run(w, acts))
    decreases |acts|
  {
    if acts == [] {
    } else {
      ApplyKeepsWellFormed(w, acts[0]);
      RunKeepsWellFormed(Apply(w, acts[0]), acts[1..]);
    }
  }
}
