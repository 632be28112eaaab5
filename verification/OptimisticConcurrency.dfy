/** The Get / Update / retry loops of `writeConfigMap` and `removeConfigMapKey`, interleaved call by call with
    each other and with anybody else who edits the ConfigMaps. Reads go through a cache, so a Get may answer with
    any version an object ever had, or with none at all; the API server refuses an Update whose resource version
    is not the current one. */
module OptimisticConcurrency {
  import opened Base
  import opened Names
  import opened Cluster
  import opened Reconcile

  datatype Obj = Obj(version: nat, data: Data)

  datatype Op = Put(entries: Data) | Del(key: string)

  /** `retry.DefaultRetry` makes at most five attempts. */
  const ATTEMPTS: Attempts := 5

  type Attempts = t: nat | t > 0 witness 1

  /** Where a writer's loop stands, and which attempts it has left: about to Get, about to Update what it
      got, or returned. */
  datatype Phase = Fresh(tries: Attempts) | Holding(tries: Attempts, snapshot: Obj) | Returned(ok: bool)

  datatype Writer = Writer(cm: NN, op: Op, phase: Phase)

  /** The successful writes so far, in order: by a writer, or by somebody else. */
  datatype Entry = Wrote(cm: NN, op: Op) | Edited(cm: NN, data: Option<Data>)

  /** `revision` is the store's global counter, from which every write takes its resource version; `past` holds
      every version that was ever stored, under its name. */
  datatype Server = Server(
    revision: nat, cms: map<NN, Obj>, past: set<(NN, Obj)>, writers: map<nat, Writer>, log: seq<Entry>)

  /** A Get and what it answers; an Update; a call that fails; an edit by somebody else. */
  datatype Step = Get(id: nat, seen: Option<Obj>) | Update(id: nat) | Fault(id: nat) | Edit(cm: NN, data: Option<Data>)

  function Effect(op: Op, data: Data): Data {
    match op
    case Put(entries) => Merge(data, entries)
    case Del(key) => data - {key}
  }

  function OwnKeys(op: Op): set<string> {
    match op
    case Put(entries) => entries.Keys
    case Del(key) => {key}
  }

  /** A step is a call some writer is ready to make, or an edit by somebody else. */
  predicate Enabled(s: Server, step: Step) {
    match step
    case Get(id, seen) =>
      id in s.writers && s.writers[id].phase.Fresh? && (seen.Some? ==> (s.writers[id].cm, seen.value) in s.past)
    case Update(id) => id in s.writers && s.writers[id].phase.Holding?
    case Fault(id) => id in s.writers && !s.writers[id].phase.Returned?
    case Edit(_, _) => true
  }

  /** Whatever comes next is possible at any time: any call may fail, a Get may see any version there ever was, or
      none, and anybody may edit. */
  lemma AnythingMayHappen(s: Server, id: nat, seen: Option<Obj>, cm: NN, data: Option<Data>)
    requires id in s.writers && (seen.Some? ==> (s.writers[id].cm, seen.value) in s.past)
    ensures Enabled(s, Edit(cm, data))
    ensures Enabled(s, Fault(id)) <==> !s.writers[id].phase.Returned?
    ensures Enabled(s, Get(id, seen)) <==> s.writers[id].phase.Fresh?
    ensures Enabled(s, Update(id)) <==> s.writers[id].phase.Holding?
  {
  }

  function To(s: Server, id: nat, phase: Phase): Server
    requires id in s.writers
  {
    s.(writers := s.writers[id := s.writers[id].(phase := phase)])
  }

  /** The store takes a new version. */
  function Stores(s: Server, cm: NN, o: Obj, entry: Entry): Server {
    s.(revision := s.revision + 1, cms := s.cms[cm := o], past := s.past + {(cm, o)}, log := s.log + [entry])
  }

  function Next(s: Server, step: Step): Server
    requires Enabled(s, step)
  {
    match step
    case Get(id, seen) =>
      var x := s.writers[id];
      if seen.None? then To(s, id, Returned(x.op.Del?))
      else if Effect(x.op, seen.value.data) == seen.value.data then To(s, id, Returned(true))
      else To(s, id, Holding(x.phase.tries, seen.value))
    case Update(id) =>
      var x := s.writers[id];
      if x.cm !in s.cms then To(s, id, Returned(false))
      else if s.cms[x.cm].version == x.phase.snapshot.version then
        var saved := Obj(s.revision + 1, Effect(x.op, x.phase.snapshot.data));
        Stores(To(s, id, Returned(true)), x.cm, saved, Wrote(x.cm, x.op))
      else if x.phase.tries == 1 then To(s, id, Returned(false))
      else To(s, id, Fresh(x.phase.tries - 1))
    case Fault(id) => To(s, id, Returned(false))
    case Edit(cm, Some(data)) => Stores(s, cm, Obj(s.revision + 1, data), Edited(cm, Some(data)))
    case Edit(cm, None) =>
      s.(revision := s.revision + 1, cms := s.cms - {cm}, log := s.log + [Edited(cm, None)])
  }

  ghost predicate EnabledAll(s: Server, steps: seq<Step>)
    decreases |steps|
  {
    steps != [] ==> Enabled(s, steps[0]) && EnabledAll(Next(s, steps[0]), steps[1..])
  }

  ghost function Play(s: Server, steps: seq<Step>): Server
    requires EnabledAll(s, steps)
    decreases |steps|
  {
    if steps == [] then s else Play(Next(s, steps[0]), steps[1..])
  }

  /** Every current version and every snapshot was stored; versions never exceed the counter; and a version that
      was ever stored under the number of the current one is the current one. */
  ghost predicate Inv(s: Server) {
    && (forall cm :: cm in s.cms ==> (cm, s.cms[cm]) in s.past)
    && (forall cm, o :: (cm, o) in s.past ==>
          o.version <= s.revision && (cm in s.cms && s.cms[cm].version == o.version ==> s.cms[cm] == o))
    && (forall id :: id in s.writers && s.writers[id].phase.Holding? ==>
          (s.writers[id].cm, s.writers[id].phase.snapshot) in s.past)
  }

  lemma ToKeepsInv(s: Server, id: nat, phase: Phase)
    requires Inv(s) && id in s.writers && (phase.Holding? ==> (s.writers[id].cm, phase.snapshot) in s.past)
    ensures Inv(To(s, id, phase))
  {
  }

  lemma StoresKeepsInv(s: Server, cm: NN, o: Obj, entry: Entry)
    requires Inv(s) && o.version == s.revision + 1
    ensures Inv(Stores(s, cm, o, entry))
  {
  }

  lemma NextKeepsInv(s: Server, step: Step)
    requires Inv(s) && Enabled(s, step)
    ensures Inv(Next(s, step))
  {
    match step
    case Get(id, seen) => ToKeepsInv(s, id, Next(s, step).writers[id].phase);
    case Update(id) =>
      var x, phase := s.writers[id], Next(s, step).writers[id].phase;
      ToKeepsInv(s, id, phase);
      if phase == Returned(true) {
        var saved := Obj(s.revision + 1, Effect(x.op, x.phase.snapshot.data));
        StoresKeepsInv(To(s, id, phase), x.cm, saved, Wrote(x.cm, x.op));
      }
    case Fault(id) => ToKeepsInv(s, id, Returned(false));
    case Edit(cm, Some(data)) => StoresKeepsInv(s, cm, Obj(s.revision + 1, data), Edited(cm, Some(data)));
    case Edit(cm, None) =>
  }

  // ---- Refinement: the interleaved loops are atomic read-modify-writes ----

  function Stored(s: Server): map<NN, Data> {
    map cm | cm in s.cms :: s.cms[cm].data
  }

  /** What one step does to the stored data, had it been an atomic write: the writer's whole
      read-modify-write on the data as it is now, somebody's edit, or nothing. */
  function Atomic(d: map<NN, Data>, e: Entry): map<NN, Data> {
    match e
    case Wrote(cm, op) => if cm in d then d[cm := Effect(op, d[cm])] else d
    case Edited(cm, Some(data)) => d[cm := data]
    case Edited(cm, None) => d - {cm}
  }

  lemma StoredAfter(s: Server, cm: NN, o: Obj, entry: Entry)
    ensures Stored(Stores(s, cm, o, entry)) == Stored(s)[cm := o.data]
  {
  }

  lemma UpdateIsAtomic(s: Server, id: nat)
    requires Inv(s) && Enabled(s, Update(id))
    ensures var t, x := Next(s, Update(id)), s.writers[id];
      || (t.log == s.log && Stored(t) == Stored(s))
      || (t.log == s.log + [Wrote(x.cm, x.op)] && Stored(t) == Atomic(Stored(s), Wrote(x.cm, x.op)))
  {
    var x := s.writers[id];
    if x.cm in s.cms && s.cms[x.cm].version == x.phase.snapshot.version {
      assert s.cms[x.cm] == x.phase.snapshot;
      var saved := Obj(s.revision + 1, Effect(x.op, x.phase.snapshot.data));
      StoredAfter(To(s, id, Returned(true)), x.cm, saved, Wrote(x.cm, x.op));
    }
  }

  /** Every step either leaves the data and the log alone, or logs one write and has its atomic effect. */
  lemma StepIsAtomic(s: Server, step: Step)
    requires Inv(s) && Enabled(s, step)
    ensures var t := Next(s, step);
      || (t.log == s.log && Stored(t) == Stored(s))
      || (exists e :: t.log == s.log + [e] && Stored(t) == Atomic(Stored(s), e))
  {
    match step
    case Update(id) => UpdateIsAtomic(s, id);
    case Edit(cm, Some(data)) => StoredAfter(s, cm, Obj(s.revision + 1, data), Edited(cm, Some(data)));
    case Edit(cm, None) => assert Stored(Next(s, step)) == Atomic(Stored(s), Edited(cm, None));
    case _ =>
  }

  function Replay(d: map<NN, Data>, log: seq<Entry>): map<NN, Data> {
    if log == [] then d else Atomic(Replay(d, log[..|log| - 1]), log[|log| - 1])
  }

  /** The data of every ConfigMap is the log of successful writes applied one after the other. */
  lemma {:induction false} Serializable(init: map<NN, Data>, s: Server, steps: seq<Step>)
    requires Inv(s) && EnabledAll(s, steps) && Stored(s) == Replay(init, s.log)
    ensures Inv(Play(s, steps)) && Stored(Play(s, steps)) == Replay(init, Play(s, steps).log)
    decreases |steps|
  {
    if steps == [] {
    } else {
      var t := Next(s, steps[0]);
      NextKeepsInv(s, steps[0]);
      StepIsAtomic(s, steps[0]);
      if t.log != s.log {
        assert t.log[..|t.log| - 1] == s.log;
      }
      Serializable(init, t, steps[1..]);
    }
  }

  // ---- No lost update ----

  /** The value the last successful write to (cm, key) gave it: what a reader would have to see. */
  function LastValue(init: map<NN, Data>, log: seq<Entry>, cm: NN, key: string): string {
    if log == [] then if cm in init then Lookup(init[cm], key) else ""
    else
      var before := LastValue(init, log[..|log| - 1], cm, key);
      match log[|log| - 1]
      case Wrote(c, Put(entries)) => if c == cm && key in entries then entries[key] else before
      case Wrote(c, Del(k)) => if c == cm && k == key then "" else before
      case Edited(c, data) =>
        if c != cm then before else if data.Some? then Lookup(data.value, key) else ""
  }

  lemma {:induction false} LastValueIsStored(init: map<NN, Data>, log: seq<Entry>, cm: NN, key: string)
    requires cm in Replay(init, log)
    requires forall i :: 0 <= i < |log| && log[i].Wrote? ==> log[i].cm in Replay(init, log[..i])
    ensures Lookup(Replay(init, log)[cm], key) == LastValue(init, log, cm, key)
  {
    if log == [] {
    } else {
      var before, e := log[..|log| - 1], log[|log| - 1];
      assert forall i :: 0 <= i < |before| ==> before[..i] == log[..i];
      if cm in Replay(init, before) {
        LastValueIsStored(init, before, cm, key);
      }
    }
  }

  /** Writers only ever logged writes to ConfigMaps that existed at that point. */
  ghost predicate NoPhantoms(init: map<NN, Data>, log: seq<Entry>) {
    forall i :: 0 <= i < |log| && log[i].Wrote? ==> log[i].cm in Replay(init, log[..i])
  }

  lemma PhantomsAppended(init: map<NN, Data>, log: seq<Entry>, e: Entry)
    requires NoPhantoms(init, log) && (e.Wrote? ==> e.cm in Replay(init, log))
    ensures NoPhantoms(init, log + [e])
  {
    assert forall i :: 0 <= i <= |log| ==> (log + [e])[..i] == log[..i];
    assert log[..|log|] == log;
  }

  lemma {:induction false} RunsHaveNoPhantoms(init: map<NN, Data>, s: Server, steps: seq<Step>)
    requires Inv(s) && EnabledAll(s, steps) && Stored(s) == Replay(init, s.log) && NoPhantoms(init, s.log)
    ensures NoPhantoms(init, Play(s, steps).log)
    decreases |steps|
  {
    if steps == [] {
    } else {
      var t := Next(s, steps[0]);
      NextKeepsInv(s, steps[0]);
      StepIsAtomic(s, steps[0]);
      if t.log != s.log {
        var e := t.log[|s.log|];
        assert t.log == s.log + [e] && (e.Wrote? ==> e.cm in Stored(s));
        PhantomsAppended(init, s.log, e);
      }
      RunsHaveNoPhantoms(init, t, steps[1..]);
    }
  }

  /** No lost update: whatever the interleaving, every key of every ConfigMap holds the value of its last
      successful writer. */
  lemma NoLostUpdate(s: Server, steps: seq<Step>, cm: NN, key: string)
    requires Inv(s) && s.log == [] && EnabledAll(s, steps) && cm in Play(s, steps).cms
    ensures var t := Play(s, steps);
      Lookup(t.cms[cm].data, key) == LastValue(Stored(s), t.log, cm, key)
  {
    Serializable(Stored(s), s, steps);
    RunsHaveNoPhantoms(Stored(s), s, steps);
    LastValueIsStored(Stored(s), Play(s, steps).log, cm, key);
  }

  /** A writer changes no key outside its own set, no other ConfigMap, and creates or deletes none. */
  lemma WriterStaysInItsKeys(s: Server, step: Step, cm: NN, key: string)
    requires Inv(s) && Enabled(s, step) && !step.Edit?
    ensures var t, x := Next(s, step), s.writers[step.id];
      && t.cms.Keys == s.cms.Keys
      && (cm in s.cms && (cm != x.cm || key !in OwnKeys(x.op)) ==>
            (key in t.cms[cm].data <==> key in s.cms[cm].data) &&
            (key in s.cms[cm].data ==> t.cms[cm].data[key] == s.cms[cm].data[key]))
  {
  }

  /** A writer that returns successfully without writing saw its entries in place already; in a stale version
      they may have been replaced since, in the current one they are there. */
  lemma SkippedWriteWasThere(s: Server, id: nat, seen: Option<Obj>, key: string)
    requires Enabled(s, Get(id, seen)) && s.writers[id].op.Put? && key in s.writers[id].op.entries
    requires Next(s, Get(id, seen)).writers[id].phase == Returned(true)
    ensures seen.Some? && Lookup(seen.value.data, key) == s.writers[id].op.entries[key]
  {
    var put, data := s.writers[id].op.entries, seen.value.data;
    assert Merge(data, put) == data;
    assert key in Merge(data, put) ==> Merge(data, put)[key] == put[key];
    assert put[key] != "" ==> key in Merge(data, put);
  }

  // ---- What a return means ----

  /** The operation has nothing left to do on this data: its entries are readable, or its key is absent. */
  ghost predicate InPlace(data: Data, op: Op) {
    match op
    case Put(entries) => forall k :: k in entries ==> Lookup(data, k) == entries[k]
    case Del(key) => key !in data
  }

  /** `v` is `data` but for the keys of the operation, which are in place. */
  ghost predicate Done(data: Data, v: Data, op: Op) {
    && InPlace(v, op)
    && forall k :: k !in OwnKeys(op) ==> (k in v <==> k in data) && (k in data ==> v[k] == data[k])
  }

  lemma EffectIsDone(data: Data, op: Op)
    ensures Done(data, Effect(op, data), op)
    ensures Effect(op, data) == data <==> InPlace(data, op)
  {
    match op
    case Put(entries) =>
      var v := Merge(data, entries);
      assert forall k :: k in entries ==> (k in v ==> v[k] == entries[k]) && (entries[k] != "" ==> k in v);
      assert InPlace(v, op);
      if InPlace(data, op) {
        assert v.Keys == data.Keys;
        assert v == data;
      }
    case Del(key) =>
  }

  /** A Get that finds no ConfigMap ends a Put with an error and a Del with success; one that sees the operation
      in place ends it with success; any other one goes on to an Update of what it saw. It stores nothing. */
  lemma GetOutcome(s: Server, id: nat, seen: Option<Obj>)
    requires Enabled(s, Get(id, seen))
    ensures var x, t := s.writers[id], Next(s, Get(id, seen));
      && t.cms == s.cms && t.log == s.log && t.writers == s.writers[id := t.writers[id]]
      && t.writers[id] == x.(phase := t.writers[id].phase)
      && (if seen.None? then t.writers[id].phase == Returned(!x.op.Put?)
          else if InPlace(seen.value.data, x.op) then t.writers[id].phase == Returned(true)
          else t.writers[id].phase == Holding(x.phase.tries, seen.value))
  {
    if seen.Some? {
      EffectIsDone(seen.value.data, s.writers[id].op);
    }
  }

  /** An Update that returns success has stored the operation over the current data, under a higher version, and
      nothing else; one that does not has stored nothing, and is tried again while attempts are left and the
      ConfigMap exists. */
  lemma UpdateOutcome(s: Server, id: nat)
    requires Inv(s) && Enabled(s, Update(id))
    ensures var x, t := s.writers[id], Next(s, Update(id));
      && t.writers == s.writers[id := x.(phase := t.writers[id].phase)]
      && (t.writers[id].phase == Returned(true) <==>
            x.cm in s.cms && s.cms[x.cm].version == x.phase.snapshot.version)
      && (if t.writers[id].phase == Returned(true) then
            && x.cm in t.cms && t.cms[x.cm].version > s.cms[x.cm].version
            && Done(s.cms[x.cm].data, t.cms[x.cm].data, x.op)
            && t.cms == s.cms[x.cm := t.cms[x.cm]] && t.log == s.log + [Wrote(x.cm, x.op)]
          else
            && t.cms == s.cms && t.log == s.log
            && t.writers[id].phase ==
               if x.cm in s.cms && x.phase.tries > 1 then Fresh(x.phase.tries - 1) else Returned(false))
  {
    EffectIsDone(s.writers[id].phase.snapshot.data, s.writers[id].op);
  }

  /** The entry that an Update which returns success accounts for. */
  ghost function SavedBy(s: Server, step: Step): seq<Entry>
    requires Enabled(s, step)
  {
    if step.Update? && Next(s, step).writers[step.id].phase == Returned(true)
    then [Wrote(s.writers[step.id].cm, s.writers[step.id].op)]
    else []
  }

  ghost function Saved(s: Server, steps: seq<Step>): seq<Entry>
    requires EnabledAll(s, steps)
    decreases |steps|
  {
    if steps == [] then [] else SavedBy(s, steps[0]) + Saved(Next(s, steps[0]), steps[1..])
  }

  function Writes(log: seq<Entry>): seq<Entry> {
    Filter(log, (e: Entry) => e.Wrote?)
  }

  lemma WritesAppended(log: seq<Entry>, e: Entry)
    ensures Writes(log + [e]) == Writes(log) + if e.Wrote? then [e] else []
  {
    FilterConcat(log, [e], (e: Entry) => e.Wrote?);
  }

  lemma StepLogs(s: Server, step: Step)
    requires Inv(s) && Enabled(s, step)
    ensures Writes(Next(s, step).log) == Writes(s.log) + SavedBy(s, step)
  {
    match step
    case Update(id) =>
      UpdateOutcome(s, id);
      WritesAppended(s.log, Wrote(s.writers[id].cm, s.writers[id].op));
    case Edit(cm, data) => WritesAppended(s.log, Edited(cm, data));
    case _ =>
  }

  lemma Regroup<T>(a: seq<T>, b: seq<T>, c: seq<T>)
    ensures (a + b) + c == a + (b + c)
  {
  }

  /** Successful Updates and logged writes correspond one to one, in order. */
  lemma {:induction false} ReturnsAreLogged(s: Server, steps: seq<Step>)
    requires Inv(s) && EnabledAll(s, steps)
    ensures Writes(Play(s, steps).log) == Writes(s.log) + Saved(s, steps)
    decreases |steps|
  {
    if steps == [] {
    } else {
      NextKeepsInv(s, steps[0]);
      StepLogs(s, steps[0]);
      ReturnsAreLogged(Next(s, steps[0]), steps[1..]);
      Regroup(Writes(s.log), SavedBy(s, steps[0]), Saved(Next(s, steps[0]), steps[1..]));
    }
  }

  /** This step of the writer stores its operation, or sees it in place, or sees no ConfigMap to delete from. */
  ghost predicate EarnsNow(s: Server, step: Step, id: nat)
    requires Enabled(s, step) && id in s.writers
  {
    var x := s.writers[id];
    || (step == Update(id) && x.cm in s.cms && x.cm in Next(s, step).cms
        && Done(s.cms[x.cm].data, Next(s, step).cms[x.cm].data, x.op)
        && Next(s, step).cms[x.cm].version > s.cms[x.cm].version)
    || (step.Get? && step.id == id && (if step.seen.Some? then InPlace(step.seen.value.data, x.op) else x.op.Del?))
  }

  ghost predicate Earns(s: Server, steps: seq<Step>, id: nat)
    requires EnabledAll(s, steps) && id in s.writers
    decreases |steps|
  {
    steps != [] && (EarnsNow(s, steps[0], id)
      || (id in Next(s, steps[0]).writers && Earns(Next(s, steps[0]), steps[1..], id)))
  }

  lemma StepReturns(s: Server, step: Step, id: nat)
    requires Inv(s) && Enabled(s, step) && id in s.writers && !s.writers[id].phase.Returned?
    ensures id in Next(s, step).writers
    ensures Next(s, step).writers[id].phase == Returned(true) ==> EarnsNow(s, step, id)
  {
    match step
    case Get(i, seen) => GetOutcome(s, i, seen);
    case Update(i) => UpdateOutcome(s, i);
    case _ =>
  }

  lemma {:induction false} ReturnedStays(s: Server, steps: seq<Step>, id: nat)
    requires EnabledAll(s, steps) && id in s.writers && s.writers[id].phase.Returned?
    ensures id in Play(s, steps).writers && Play(s, steps).writers[id] == s.writers[id]
    decreases |steps|
  {
    if steps == [] {
    } else {
      ReturnedStays(Next(s, steps[0]), steps[1..], id);
    }
  }

  /** A loop that returns success did store its operation at some step, or saw it in place. */
  lemma {:induction false} SuccessIsEarned(s: Server, steps: seq<Step>, id: nat)
    requires Inv(s) && EnabledAll(s, steps) && id in s.writers && !s.writers[id].phase.Returned?
    requires id in Play(s, steps).writers && Play(s, steps).writers[id].phase == Returned(true)
    ensures Earns(s, steps, id)
    decreases |steps|
  {
    if steps == [] {
    } else {
      var t := Next(s, steps[0]);
      NextKeepsInv(s, steps[0]);
      StepReturns(s, steps[0], id);
      if t.writers[id].phase.Returned? {
        ReturnedStays(t, steps[1..], id);
      } else {
        SuccessIsEarned(t, steps[1..], id);
      }
    }
  }

  // ---- Termination ----

  /** How many more calls the writer can make. */
  function CallsLeft(p: Phase): nat {
    match p
    case Fresh(t) => 2 * t
    case Holding(t, _) => 2 * t - 1
    case Returned(_) => 0
  }

  function CallsBy(steps: seq<Step>, id: nat): nat {
    if steps == [] then 0
    else (if !steps[0].Edit? && steps[0].id == id then 1 else 0) + CallsBy(steps[1..], id)
  }

  /** Each retry loop terminates: however the others interleave, a writer that starts with five attempts makes
      at most ten more calls, and until it has returned it always has one to make. */
  lemma {:induction false} RetryLoopEnds(s: Server, steps: seq<Step>, id: nat)
    requires EnabledAll(s, steps) && id in s.writers
    ensures id in Play(s, steps).writers
    ensures CallsBy(steps, id) + CallsLeft(Play(s, steps).writers[id].phase) <= CallsLeft(s.writers[id].phase)
    ensures s.writers[id].phase == Fresh(ATTEMPTS) ==> CallsBy(steps, id) <= 10
    ensures !Play(s, steps).writers[id].phase.Returned? ==>
      Enabled(Play(s, steps), Get(id, None)) || Enabled(Play(s, steps), Update(id))
    decreases |steps|
  {
    if steps == [] {
    } else {
      RetryLoopEnds(Next(s, steps[0]), steps[1..], id);
    }
  }
}
