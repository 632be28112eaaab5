/** The hagate sidecar: N pods, each with a label loop, a signal handler and a leader flag, interleaved at
    single loads, stores and API calls. */
module Hagate {
  import opened Base

  /** The label loop's program counter, with the values the iteration has computed so far. */
  datatype PC =
    | Top                                   // about to load `terminating`
    | LoadLeader                            // `terminating` was false: about to load `leader`
    | Dial                                  // `leader` was true: about to dial the application
    | Read(want: bool)                      // about to read the pod's label
    | Write(want: bool)                     // the label differs: about to patch it
    | Wait                                  // in the select
    | FinalRead                             // the context is done: `reconcile(true)`
    | FinalWrite
    | Exited

  /** A pod. `tag` is the value of its active label; the fields from `ok` on record history. */
  datatype Pod = Pod(
    leader: bool, terminating: bool, cancelled: bool, tag: Option<string>, pc: PC,
    ok: bool,            // the API calls of the current iteration succeeded so far
    afresh: bool,         // the leader flag has been down since the current iteration started
    clean: bool,         // a whole error-free iteration ran since the flag last fell
    disturbed: bool)     // somebody else changed the label since the current iteration read it

  datatype Step =
    | Advance(dialOK: bool, apiOK: bool, applied: bool)  // the loop's next action; a failing patch may be applied
    | Drain                                              // the select takes the ctx.Done branch
    | Signal                                             // the handler stores `terminating`
    | Cancel                                             // the handler then cancels the context
    | Raise                                              // the elector sets the leader flag
    | Fall                                               // the elector clears it
    | Outside(tag: Option<string>)                       // somebody else changes the label

  // ---- The label patch ----

  datatype Json = Null | Str(s: string) | Obj(m: map<string, Json>)

  /** The value of a field, null when it is missing. */
  function Field(fields: map<string, Json>, name: string): Json {
    if name in fields then fields[name] else Null
  }

  /** RFC 7396, section 2. */
  function MergePatch(target: Json, patch: Json): Json
    decreases patch
  {
    if !patch.Obj? then patch
    else
      var t := if target.Obj? then target.m else map[];
      Obj(map k | k in t.Keys + patch.m.Keys && !(k in patch.m && patch.m[k] == Null) ::
            if k in patch.m then MergePatch(Field(t, k), patch.m[k]) else t[k])
  }

  /** `setPodLabel`: the value to add the label, null to delete it. */
  function LabelPatch(key: string, val: string, want: bool): Json {
    Obj(map["metadata" := Obj(map["labels" := Obj(map[key := if want then Str(val) else Null])])])
  }

  /** A pod's metadata, which has no labels object when there is no label. */
  function Metadata(labels: Option<map<string, string>>, meta: map<string, Json>): Json {
    Obj(if labels.Some? then meta["labels" := LabelsObject(labels.value)] else meta - {"labels"})
  }

  function PodDocument(labels: Option<map<string, string>>, meta: map<string, Json>, rest: map<string, Json>): Json {
    Obj(rest["metadata" := Metadata(labels, meta)])
  }

  function LabelsOf(labels: Option<map<string, string>>): map<string, string> {
    if labels.Some? then labels.value else map[]
  }

  function LabelsObject(labels: map<string, string>): Json {
    Obj(map k | k in labels :: Str(labels[k]))
  }

  function SetLabel(labels: map<string, string>, key: string, val: string, want: bool): map<string, string> {
    if want then labels[key := val] else labels - {key}
  }

  /** Patching the pod changes that one label and nothing else of the pod, whether or not it had any label. */
  lemma PatchChangesOneLabel(labels: Option<map<string, string>>, meta: map<string, Json>, rest: map<string, Json>,
                             key: string, val: string, want: bool)
    requires forall k :: k in meta ==> meta[k] != Null
    requires forall k :: k in rest ==> rest[k] != Null
    ensures MergePatch(PodDocument(labels, meta, rest), LabelPatch(key, val, want))
         == PodDocument(Some(SetLabel(LabelsOf(labels), key, val, want)), meta, rest)
  {
    var before := Metadata(labels, meta);
    var after := Metadata(Some(SetLabel(LabelsOf(labels), key, val, want)), meta);
    PatchMetadata(labels, meta, key, val, want);
    var patch := Obj(map["labels" := Obj(map[key := if want then Str(val) else Null])]);
    PatchField(rest["metadata" := before], "metadata", patch);
    assert rest["metadata" := before]["metadata" := after] == rest["metadata" := after];
  }

  lemma PatchMetadata(labels: Option<map<string, string>>, meta: map<string, Json>, key: string, val: string, want: bool)
    requires forall k :: k in meta ==> meta[k] != Null
    ensures MergePatch(Metadata(labels, meta), Obj(map["labels" := Obj(map[key := if want then Str(val) else Null])]))
         == Metadata(Some(SetLabel(LabelsOf(labels), key, val, want)), meta)
  {
    var patch := Obj(map[key := if want then Str(val) else Null]);
    var after := LabelsObject(SetLabel(LabelsOf(labels), key, val, want));
    var before := Metadata(labels, meta).m;
    PatchLabels(LabelsOf(labels), key, val, want);
    PatchField(before, "labels", patch);
    assert before["labels" := after] == meta["labels" := after];
  }

  lemma PatchLabels(labels: map<string, string>, key: string, val: string, want: bool)
    ensures var patch := Obj(map[key := if want then Str(val) else Null]);
      var after := LabelsObject(SetLabel(labels, key, val, want));
      && MergePatch(LabelsObject(labels), patch) == after
      && (labels == map[] ==> MergePatch(Null, patch) == after)
  {
    var patch := map[key := if want then Str(val) else Null];
    var after := LabelsObject(SetLabel(labels, key, val, want)).m;
    assert MergePatch(LabelsObject(labels), Obj(patch)).m == after;
    assert labels == map[] ==> MergePatch(Null, Obj(patch)).m == after;
  }

  /** Patching one field of an object patches that field, or adds it, and keeps the others. */
  lemma PatchField(fields: map<string, Json>, name: string, patch: Json)
    requires forall k :: k in fields ==> fields[k] != Null
    requires patch.Obj?
    ensures MergePatch(Obj(fields), Obj(map[name := patch])) == Obj(fields[name := MergePatch(Field(fields, name), patch)])
  {
    var p := map[name := patch];
    var m, n := MergePatch(Obj(fields), Obj(p)).m, fields[name := MergePatch(Field(fields, name), patch)];
    assert p.Keys == {name} && p[name] == patch;
    assert m.Keys == n.Keys;
    forall k | k in n
      ensures m[k] == n[k]
    {
      assert k in p <==> k == name;
    }
    assert m == n;
  }

  // ---- One pod ----

  predicate Active(p: Pod, val: string) {
    p.tag == Some(val)
  }

  predicate Enabled(p: Pod, step: Step) {
    match step
    case Advance(_, _, _) => !p.pc.Exited?
    case Drain => p.pc.Wait? && p.cancelled
    case Cancel => p.terminating
    case Raise => !p.leader
    case _ => true
  }

  /** The iteration is over: if it was whole, error-free and began with the flag down, it cleaned the pod. */
  function EndIteration(p: Pod): Pod {
    p.(pc := Wait, clean := p.clean || (p.ok && p.afresh))
  }

  /** `podHasLabel`, on the way to a patch only when the label is not as wanted. */
  function AfterRead(p: Pod, want: bool, apiOK: bool, val: string): Pod {
    if !apiOK then EndIteration(p.(ok := false))
    else if Active(p, val) == want then EndIteration(p.(disturbed := false))
    else p.(disturbed := false, pc := Write(want))
  }

  /** `setPodLabel`, issued; `lands` says whether the patch took effect. */
  function Patched(p: Pod, want: bool, lands: bool, val: string): Pod {
    p.(tag := if !lands then p.tag else if want then Some(val) else None)
  }

  function AfterWrite(p: Pod, want: bool, apiOK: bool, applied: bool, val: string): Pod {
    EndIteration(Patched(p, want, apiOK || applied, val).(ok := p.ok && apiOK))
  }

  /** A new iteration loads `terminating`. */
  function Begin(p: Pod): Pod {
    p.(ok := true, afresh := !p.leader, pc := if p.terminating then Read(true) else LoadLeader)
  }

  /** The rest of computing the wanted label; and the end of the wait. */
  function DecidedPC(p: Pod, dialOK: bool): PC {
    if p.pc.LoadLeader? then if p.leader then Dial else Read(false)
    else if p.pc.Dial? then Read(dialOK)
    else Top
  }

  /** `reconcile(true)` before the loop returns. */
  function LastIteration(p: Pod, apiOK: bool, applied: bool, val: string): Pod {
    if p.pc.FinalWrite? then Patched(p, true, apiOK || applied, val).(ok := p.ok && apiOK, pc := Exited)
    else if !apiOK then p.(ok := false, pc := Exited)
    else p.(disturbed := false, pc := if Active(p, val) then Exited else FinalWrite)
  }

  function Advanced(p: Pod, dialOK: bool, apiOK: bool, applied: bool, val: string): Pod {
    if p.pc.Read? then AfterRead(p, p.pc.want, apiOK, val)
    else if p.pc.Write? then AfterWrite(p, p.pc.want, apiOK, applied, val)
    else if p.pc.FinalRead? || p.pc.FinalWrite? then LastIteration(p, apiOK, applied, val)
    else if p.pc.Top? then Begin(p)
    else p.(pc := DecidedPC(p, dialOK))
  }

  function Next(p: Pod, step: Step, val: string): Pod
    requires Enabled(p, step)
  {
    match step
    case Advance(dialOK, apiOK, applied) => Advanced(p, dialOK, apiOK, applied, val)
    case Drain => p.(ok := true, pc := FinalRead)
    case Signal => p.(terminating := true)
    case Cancel => p.(cancelled := true)
    case Raise => p.(leader := true, afresh := false, clean := false)
    case Fall => p.(leader := false)
    case Outside(tag) => p.(tag := tag, disturbed := true)
  }

  /** The iteration may still issue a removal. */
  predicate Removing(pc: PC) {
    pc.LoadLeader? || pc.Dial? || ((pc.Read? || pc.Write?) && !pc.want)
  }

  /** The iteration may still put the label on. */
  predicate Adding(pc: PC) {
    pc.Dial? || ((pc.Read? || pc.Write?) && pc.want)
  }

  predicate Draining(pc: PC) {
    pc.FinalRead? || pc.FinalWrite? || pc.Exited?
  }

  // ---- Draining ----

  /** What holds of a pod at every moment, whatever the lease, the API and other people do. */
  ghost predicate DrainInv(p: Pod, val: string) {
    && (p.cancelled ==> p.terminating) && (Draining(p.pc) ==> p.cancelled)
    && (p.pc.FinalRead? || p.pc.FinalWrite? ==> p.ok)
    && (p.pc.Exited? && p.ok && !p.disturbed ==> Active(p, val))
  }

  function Start(tag: Option<string>, clean: bool): Pod {
    Pod(false, false, false, tag, Top, true, true, clean, true)
  }

  ghost predicate EnabledAll(p: Pod, steps: seq<Step>, val: string)
    decreases |steps|
  {
    steps != [] ==> Enabled(p, steps[0]) && EnabledAll(Next(p, steps[0], val), steps[1..], val)
  }

  ghost function Play(p: Pod, steps: seq<Step>, val: string): Pod
    requires EnabledAll(p, steps, val)
    decreases |steps|
  {
    if steps == [] then p else Play(Next(p, steps[0], val), steps[1..], val)
  }

  lemma BeginKeepsDrainInv(p: Pod, val: string)
    requires DrainInv(p, val) && p.pc.Top?
    ensures DrainInv(Begin(p), val)
  {
  }

  lemma DecideKeepsDrainInv(p: Pod, dialOK: bool, val: string)
    requires DrainInv(p, val) && (p.pc.LoadLeader? || p.pc.Dial? || p.pc.Wait?)
    ensures DrainInv(p.(pc := DecidedPC(p, dialOK)), val)
  {
  }

  lemma ReadKeepsDrainInv(p: Pod, apiOK: bool, val: string)
    requires DrainInv(p, val) && p.pc.Read?
    ensures DrainInv(AfterRead(p, p.pc.want, apiOK, val), val)
  {
  }

  lemma WriteKeepsDrainInv(p: Pod, apiOK: bool, applied: bool, val: string)
    requires DrainInv(p, val) && p.pc.Write?
    ensures DrainInv(AfterWrite(p, p.pc.want, apiOK, applied, val), val)
  {
  }

  lemma LastKeepsDrainInv(p: Pod, apiOK: bool, applied: bool, val: string)
    requires DrainInv(p, val) && (p.pc.FinalRead? || p.pc.FinalWrite?)
    ensures DrainInv(LastIteration(p, apiOK, applied, val), val)
  {
  }

  lemma AdvanceKeepsDrainInv(p: Pod, dialOK: bool, apiOK: bool, applied: bool, val: string)
    requires DrainInv(p, val) && !p.pc.Exited?
    ensures DrainInv(Advanced(p, dialOK, apiOK, applied, val), val)
  {
    if p.pc.Read? {
      ReadKeepsDrainInv(p, apiOK, val);
    } else if p.pc.Write? {
      WriteKeepsDrainInv(p, apiOK, applied, val);
    } else if p.pc.FinalRead? || p.pc.FinalWrite? {
      LastKeepsDrainInv(p, apiOK, applied, val);
    } else if p.pc.Top? {
      BeginKeepsDrainInv(p, val);
    } else {
      DecideKeepsDrainInv(p, dialOK, val);
    }
  }

  lemma NextKeepsDrainInv(p: Pod, step: Step, val: string)
    requires DrainInv(p, val) && Enabled(p, step)
    ensures DrainInv(Next(p, step, val), val)
  {
    if step.Advance? {
      AdvanceKeepsDrainInv(p, step.dialOK, step.apiOK, step.applied, val);
    }
  }

  lemma {:induction false} PlayKeepsDrainInv(p: Pod, steps: seq<Step>, val: string)
    requires DrainInv(p, val) && EnabledAll(p, steps, val)
    ensures DrainInv(Play(p, steps, val), val)
    decreases |steps|
  {
    if steps == [] {
    } else {
      NextKeepsDrainInv(p, steps[0], val);
      PlayKeepsDrainInv(Next(p, steps[0], val), steps[1..], val);
    }
  }

  /** How many removals a run issues after `terminating` was stored. */
  ghost function StaleRemovals(p: Pod, steps: seq<Step>, val: string): nat
    requires EnabledAll(p, steps, val)
    decreases |steps|
  {
    if steps == [] then 0
    else
      (if steps[0].Advance? && p.pc == Write(false) && p.terminating then 1 else 0)
        + StaleRemovals(Next(p, steps[0], val), steps[1..], val)
  }

  lemma ReadStaysKeeping(p: Pod, apiOK: bool, val: string)
    requires p.pc == Read(true)
    ensures var q := AfterRead(p, true, apiOK, val); q.terminating == p.terminating && !Removing(q.pc)
  {
  }

  lemma WriteStaysKeeping(p: Pod, want: bool, apiOK: bool, applied: bool, val: string)
    ensures var q := AfterWrite(p, want, apiOK, applied, val); q.terminating == p.terminating && q.pc.Wait?
  {
  }

  lemma AdvanceStaysKeeping(p: Pod, dialOK: bool, apiOK: bool, applied: bool, val: string)
    requires p.terminating && (!Removing(p.pc) || p.pc == Write(false))
    ensures var q := Advanced(p, dialOK, apiOK, applied, val); q.terminating && !Removing(q.pc)
  {
    if p.pc.Read? {
      ReadStaysKeeping(p, apiOK, val);
    } else if p.pc.Write? {
      WriteStaysKeeping(p, p.pc.want, apiOK, applied, val);
    }
  }

  lemma StaysKeeping(p: Pod, step: Step, val: string)
    requires Enabled(p, step) && p.terminating && (!Removing(p.pc) || (step.Advance? && p.pc == Write(false)))
    ensures Next(p, step, val).terminating && !Removing(Next(p, step, val).pc)
  {
    if step.Advance? {
      AdvanceStaysKeeping(p, step.dialOK, step.apiOK, step.applied, val);
    }
  }

  /** Once terminating and not on the way to a removal, in particular between iterations, a pod never issues one. */
  lemma {:induction false} NoMoreRemovals(p: Pod, steps: seq<Step>, val: string)
    requires EnabledAll(p, steps, val) && p.terminating && !Removing(p.pc)
    ensures StaleRemovals(p, steps, val) == 0 && !Removing(Play(p, steps, val).pc)
    decreases |steps|
  {
    if steps == [] {
    } else {
      StaysKeeping(p, steps[0], val);
      NoMoreRemovals(Next(p, steps[0], val), steps[1..], val);
    }
  }

  lemma {:induction false} FewStaleRemovals(p: Pod, steps: seq<Step>, val: string)
    requires EnabledAll(p, steps, val)
    ensures StaleRemovals(p, steps, val) <= 1
    decreases |steps|
  {
    if steps == [] {
    } else {
      var q := Next(p, steps[0], val);
      if steps[0].Advance? && p.pc == Write(false) && p.terminating {
        StaysKeeping(p, steps[0], val);
        NoMoreRemovals(q, steps[1..], val);
      } else {
        FewStaleRemovals(q, steps[1..], val);
      }
    }
  }

  /** Under every interleaving of the signal with the loop at most one removal is issued after the signal, from an
      iteration that was under way by then; and when the loop has returned with its last API calls successful the
      pod carries the active label, unless somebody else changed it since. */
  lemma GracefulDrain(tag: Option<string>, clean: bool, steps: seq<Step>, val: string)
    requires EnabledAll(Start(tag, clean), steps, val)
    ensures StaleRemovals(Start(tag, clean), steps, val) <= 1
    ensures var p := Play(Start(tag, clean), steps, val);
      p.pc.Exited? && p.ok && !p.disturbed ==> Active(p, val)
  {
    PlayKeepsDrainInv(Start(tag, clean), steps, val);
    FewStaleRemovals(Start(tag, clean), steps, val);
  }

  /** What the surroundings of a loop may do at any time: the elector and other people, whatever it is doing. */
  lemma AnythingMayHappen(p: Pod, tag: Option<string>, val: string)
    ensures Enabled(p, Fall) && !Next(p, Fall, val).leader
    ensures Enabled(p, Raise) <==> !p.leader
    ensures Enabled(p, Outside(tag)) && Next(p, Outside(tag), val).tag == tag && Next(p, Outside(tag), val).disturbed
    ensures Enabled(p, Signal) && (p.terminating ==> Enabled(p, Cancel))
  {
  }

  // ---- The label follows leadership ----

  /** What the loop wants the label to be: on while draining, or while leading an application that answers. */
  predicate Wanted(p: Pod, dialOK: bool) {
    p.terminating || (p.leader && dialOK)
  }

  /** The loop runs on its own: every API call succeeds, the application keeps answering the same, nobody else
      changes the label, and neither flag changes. */
  predicate Undisturbed(steps: seq<Step>, dialOK: bool) {
    forall s :: s in steps ==> s.Advance? && s.dialOK == dialOK && s.apiOK
  }

  /** What the iteration has computed so far is right, and in the wait the label is as wanted; and an iteration
      that ran with the flag down has cleaned the pod. */
  predicate OnTrack(p: Pod, dialOK: bool, val: string) {
    && (p.pc.Top? || (p.ok && p.afresh == !p.leader))
    && match p.pc
       case Top => true
       case LoadLeader => !p.terminating
       case Dial => !p.terminating && p.leader
       case Read(want) => want == Wanted(p, dialOK)
       case Write(want) => want == Wanted(p, dialOK) != Active(p, val)
       case Wait => Active(p, val) == Wanted(p, dialOK) && (p.leader || p.clean)
       case _ => false
  }

  /** How many patches a run issues. */
  ghost function Patches(p: Pod, steps: seq<Step>, val: string): nat
    requires EnabledAll(p, steps, val)
    decreases |steps|
  {
    if steps == [] then 0
    else (if steps[0].Advance? && p.pc.Write? then 1 else 0) + Patches(Next(p, steps[0], val), steps[1..], val)
  }

  /** How many actions the iteration has left before the wait, at most. */
  function ActionsLeft(pc: PC): nat {
    match pc
    case Top => 5
    case LoadLeader => 4
    case Dial => 3
    case Read(_) => 2
    case Write(_) => 1
    case _ => 0
  }

  lemma PatchStaysOnTrack(p: Pod, dialOK: bool, applied: bool, val: string)
    requires OnTrack(p, dialOK, val) && p.pc.Write?
    ensures var q, want := AfterWrite(p, p.pc.want, true, applied, val), Wanted(p, dialOK);
      && q.pc.Wait? && Active(q, val) == want && q.terminating == p.terminating && q.leader == p.leader
      && q.tag == if want then Some(val) else None
  {
  }

  lemma ReadStaysOnTrack(p: Pod, dialOK: bool, val: string)
    requires OnTrack(p, dialOK, val) && p.pc.Read?
    ensures var q := AfterRead(p, p.pc.want, true, val);
      && OnTrack(q, dialOK, val) && ActionsLeft(q.pc) < ActionsLeft(p.pc)
      && q.terminating == p.terminating && q.leader == p.leader && q.tag == p.tag
  {
  }

  lemma StepStaysOnTrack(p: Pod, dialOK: bool, applied: bool, val: string)
    requires OnTrack(p, dialOK, val) && !p.pc.Exited?
    ensures var q := Advanced(p, dialOK, true, applied, val);
      && OnTrack(q, dialOK, val) && q.terminating == p.terminating && q.leader == p.leader
      && (!p.pc.Wait? ==> ActionsLeft(q.pc) < ActionsLeft(p.pc))
      && q.tag == (if !p.pc.Write? then p.tag else if Wanted(p, dialOK) then Some(val) else None)
  {
    if p.pc.Write? {
      PatchStaysOnTrack(p, dialOK, applied, val);
    } else if p.pc.Read? {
      ReadStaysOnTrack(p, dialOK, val);
    }
  }

  lemma {:induction false} RunStaysOnTrack(p: Pod, steps: seq<Step>, dialOK: bool, val: string)
    requires EnabledAll(p, steps, val) && Undisturbed(steps, dialOK) && OnTrack(p, dialOK, val)
    ensures var end, n := Play(p, steps, val), Patches(p, steps, val);
      && OnTrack(end, dialOK, val) && end.terminating == p.terminating && end.leader == p.leader
      && (n == 0 ==> end.tag == p.tag)
      && (n != 0 ==> n == 1 && Active(p, val) != Wanted(p, dialOK) &&
                     end.tag == if Wanted(p, dialOK) then Some(val) else None)
    decreases |steps|
  {
    if steps == [] {
    } else {
      StepStaysOnTrack(p, dialOK, steps[0].applied, val);
      RunStaysOnTrack(Next(p, steps[0], val), steps[1..], dialOK, val);
    }
  }

  lemma FirstStep(p: Pod, step: Step, rest: seq<Step>, val: string)
    requires Enabled(p, step) && EnabledAll(Next(p, step, val), rest, val)
    ensures EnabledAll(p, [step] + rest, val)
    ensures Play(p, [step] + rest, val) == Play(Next(p, step, val), rest, val)
  {
    assert ([step] + rest)[1..] == rest;
  }

  lemma {:induction false} IterationCompletes(p: Pod, dialOK: bool, val: string) returns (steps: seq<Step>)
    requires OnTrack(p, dialOK, val)
    ensures |steps| <= ActionsLeft(p.pc) && Undisturbed(steps, dialOK)
    ensures EnabledAll(p, steps, val) && Play(p, steps, val).pc.Wait?
    decreases ActionsLeft(p.pc)
  {
    if p.pc.Wait? {
      steps := [];
    } else {
      StepStaysOnTrack(p, dialOK, true, val);
      var step := Advance(dialOK, true, true);
      var rest := IterationCompletes(Advanced(p, dialOK, true, true, val), dialOK, val);
      FirstStep(p, step, rest, val);
      steps := [step] + rest;
    }
  }

  /** Left alone, the loop gets the label right: a run that begins at the top of an iteration is in the wait
      after at most five actions, and whenever it is in the wait the pod is labelled active if and only if it
      is terminating, or leads and its application answers; it has patched the label once if that was not so
      when it began, and not at all otherwise. With its flag down it then counts as clean. */
  lemma LabelFollowsLeadership(p: Pod, steps: seq<Step>, dialOK: bool, val: string) returns (whole: seq<Step>)
    requires p.pc.Top? && EnabledAll(p, steps, val) && Undisturbed(steps, dialOK)
    ensures var wanted := p.terminating || (p.leader && dialOK);
      var end := Play(p, steps, val);
      end.pc.Wait? ==>
        && (end.tag == Some(val) <==> wanted) && (!p.leader ==> end.clean)
        && (if (p.tag == Some(val)) == wanted then Patches(p, steps, val) == 0 && end.tag == p.tag
            else Patches(p, steps, val) == 1 && end.tag == if wanted then Some(val) else None)
    ensures |whole| <= 5 && Undisturbed(whole, dialOK) && EnabledAll(p, whole, val) && Play(p, whole, val).pc.Wait?
  {
    RunStaysOnTrack(p, steps, dialOK, val);
    whole := IterationCompletes(p, dialOK, val);
  }

  /** A pod that just started gets its label once it leads and its application answers. */
  lemma StartedPodServes(tag: Option<string>, clean: bool, val: string) returns (steps: seq<Step>)
    ensures EnabledAll(Start(tag, clean), steps, val) && steps != [] && steps[0].Raise?
    ensures var end := Play(Start(tag, clean), steps, val);
      Active(end, val) && end.leader && !end.terminating && end.pc.Wait?
  {
    var p := Start(tag, clean);
    var q := Next(p, Raise, val);
    var whole := LabelFollowsLeadership(q, [], true, val);
    RunStaysOnTrack(q, whole, true, val);
    FirstStep(p, Raise, whole, val);
    steps := [Raise] + whole;
  }

  /** The last iteration: when its calls succeed it leaves the loop with the label on, which it patches only when
      it is missing; a call that fails ends it as well. */
  lemma LastIterationKeepsLabel(p: Pod, readOK: bool, patchOK: bool, applied: bool, val: string)
    requires p.pc.FinalRead?
    ensures var q := Advanced(p, false, readOK, applied, val);
      && q.tag == p.tag && (!readOK ==> q.pc.Exited? && !q.ok)
      && (readOK ==> q.ok == p.ok && !q.disturbed && q.pc == if Active(p, val) then Exited else FinalWrite)
      && (q.pc.FinalWrite? ==>
            var r := Advanced(q, false, patchOK, applied, val);
            && r.pc.Exited? && r.ok == (q.ok && patchOK) && !r.disturbed
            && r.tag == if patchOK || applied then Some(val) else p.tag)
  {
  }

  /** A pod that is told to stop while it waits does so with its label on, if the API answers. */
  lemma SignalledPodDrains(p: Pod, val: string) returns (steps: seq<Step>)
    requires p.pc.Wait?
    ensures EnabledAll(p, steps, val)
    ensures var end := Play(p, steps, val);
      end.pc.Exited? && end.ok && !end.disturbed && end.terminating && Active(end, val)
  {
    var step := Advance(false, true, true);
    var p1 := Next(p, Signal, val);
    var p2 := Next(p1, Cancel, val);
    var p3 := Next(p2, Drain, val);
    LastIterationKeepsLabel(p3, true, true, true, val);
    var p4 := Next(p3, step, val);
    steps := if p4.pc.Exited? then [] else [step];
    FirstStep(p3, step, steps, val);
    FirstStep(p2, Drain, [step] + steps, val);
    FirstStep(p1, Cancel, [Drain] + ([step] + steps), val);
    FirstStep(p, Signal, [Cancel] + ([Drain] + ([step] + steps)), val);
    steps := [Signal] + ([Cancel] + ([Drain] + ([step] + steps)));
  }

  // ---- At most one active pod ----

  type Pods = map<nat, Pod>

  /** The pod may carry the label, or be about to. */
  predicate Exposed(p: Pod) {
    p.leader || !p.clean
  }

  /** What the lease guarantees before it raises a flag: no other flag is up, and every other pod that is not
      terminating ran a whole error-free label iteration since it last lost its own. */
  ghost predicate LeaseAllows(pods: Pods, id: nat) {
    forall q :: q in pods && q != id ==> !pods[q].leader && (pods[q].terminating || pods[q].clean)
  }

  /** A step of one pod; nobody but hagate puts the active label on. */
  ghost predicate SystemEnabled(pods: Pods, id: nat, step: Step, val: string) {
    && id in pods && Enabled(pods[id], step)
    && (step.Raise? ==> LeaseAllows(pods, id))
    && (step.Outside? ==> step.tag != Some(val))
  }

  /** A clean pod without the flag neither carries the label nor is on its way to adding it, and neither is a
      pod whose current iteration began with the flag down. */
  ghost predicate PodInv(p: Pod, val: string) {
    && (p.cancelled ==> p.terminating) && (Draining(p.pc) ==> p.cancelled)
    && (p.afresh ==> !p.leader) && (p.leader ==> !p.clean)
    && (!p.terminating && !Exposed(p) ==> !Active(p, val) && !Adding(p.pc))
    && (!p.terminating && p.afresh ==> !Adding(p.pc))
  }

  ghost predicate SystemInv(pods: Pods, val: string) {
    && (forall id :: id in pods ==> PodInv(pods[id], val))
    && (forall a, b :: a in pods && b in pods && a != b && !pods[a].terminating && !pods[b].terminating ==>
          !Exposed(pods[a]) || !Exposed(pods[b]))
  }

  /** The pod invariant is kept, and only a raised flag exposes a pod that was not. */
  ghost predicate PodStep(p: Pod, q: Pod, val: string) {
    PodInv(q, val) && q.terminating == p.terminating && (!p.terminating && !Exposed(p) ==> !Exposed(q))
  }

  lemma BeginKeepsPodInv(p: Pod, val: string)
    requires PodInv(p, val) && p.pc.Top?
    ensures PodStep(p, Begin(p), val)
  {
  }

  lemma DecideKeepsPodInv(p: Pod, dialOK: bool, val: string)
    requires PodInv(p, val) && (p.pc.LoadLeader? || p.pc.Dial? || p.pc.Wait?)
    ensures PodStep(p, p.(pc := DecidedPC(p, dialOK)), val)
  {
  }

  lemma ReadKeepsPodInv(p: Pod, apiOK: bool, val: string)
    requires PodInv(p, val) && p.pc.Read?
    ensures PodStep(p, AfterRead(p, p.pc.want, apiOK, val), val)
  {
  }

  lemma WriteKeepsPodInv(p: Pod, apiOK: bool, applied: bool, val: string)
    requires PodInv(p, val) && p.pc.Write?
    ensures PodStep(p, AfterWrite(p, p.pc.want, apiOK, applied, val), val)
  {
  }

  lemma LastKeepsPodInv(p: Pod, apiOK: bool, applied: bool, val: string)
    requires PodInv(p, val) && (p.pc.FinalRead? || p.pc.FinalWrite?)
    ensures PodStep(p, LastIteration(p, apiOK, applied, val), val)
  {
  }

  lemma AdvanceKeepsPodInv(p: Pod, dialOK: bool, apiOK: bool, applied: bool, val: string)
    requires PodInv(p, val) && !p.pc.Exited?
    ensures PodStep(p, Advanced(p, dialOK, apiOK, applied, val), val)
  {
    if p.pc.Read? {
      ReadKeepsPodInv(p, apiOK, val);
    } else if p.pc.Write? {
      WriteKeepsPodInv(p, apiOK, applied, val);
    } else if p.pc.FinalRead? || p.pc.FinalWrite? {
      LastKeepsPodInv(p, apiOK, applied, val);
    } else if p.pc.Top? {
      BeginKeepsPodInv(p, val);
    } else {
      DecideKeepsPodInv(p, dialOK, val);
    }
  }

  lemma NextKeepsPodInv(p: Pod, step: Step, val: string)
    requires PodInv(p, val) && Enabled(p, step) && (step.Outside? ==> step.tag != Some(val))
    ensures var q := Next(p, step, val);
      && PodInv(q, val) && (q.terminating ==> p.terminating || step.Signal?) && (p.terminating ==> q.terminating)
      && (!step.Raise? && !p.terminating && !Exposed(p) ==> !Exposed(q))
  {
    if step.Advance? {
      AdvanceKeepsPodInv(p, step.dialOK, step.apiOK, step.applied, val);
    }
  }

  lemma StepKeepsSystemInv(pods: Pods, id: nat, step: Step, val: string)
    requires SystemInv(pods, val) && SystemEnabled(pods, id, step, val)
    ensures SystemInv(pods[id := Next(pods[id], step, val)], val)
  {
    NextKeepsPodInv(pods[id], step, val);
    var after := pods[id := Next(pods[id], step, val)];
    forall a, b | a in after && b in after && a != b && !after[a].terminating && !after[b].terminating
      ensures !Exposed(after[a]) || !Exposed(after[b])
    {
      assert !pods[a].terminating && !pods[b].terminating;
    }
  }

  ghost predicate SystemEnabledAll(pods: Pods, steps: seq<(nat, Step)>, val: string)
    decreases |steps|
  {
    steps != [] ==>
      var (id, step) := steps[0];
      && SystemEnabled(pods, id, step, val)
      && SystemEnabledAll(pods[id := Next(pods[id], step, val)], steps[1..], val)
  }

  ghost function PlaySystem(pods: Pods, steps: seq<(nat, Step)>, val: string): Pods
    requires SystemEnabledAll(pods, steps, val)
    decreases |steps|
  {
    if steps == [] then pods
    else PlaySystem(pods[steps[0].0 := Next(pods[steps[0].0], steps[0].1, val)], steps[1..], val)
  }

  /** Any number of pods at the top of their loops, of which at most one still carries the label from an
      earlier life of its container. */
  ghost predicate Initial(pods: Pods, val: string) {
    && (forall id :: id in pods ==> exists tag, clean :: pods[id] == Start(tag, clean) && (clean ==> tag != Some(val)))
    && (forall a, b :: a in pods && b in pods && a != b ==> pods[a].clean || pods[b].clean)
  }

  lemma {:induction false} RunKeepsSystemInv(pods: Pods, steps: seq<(nat, Step)>, val: string)
    requires SystemInv(pods, val) && SystemEnabledAll(pods, steps, val)
    ensures SystemInv(PlaySystem(pods, steps, val), val)
    decreases |steps|
  {
    if steps == [] {
    } else {
      StepKeepsSystemInv(pods, steps[0].0, steps[0].1, val);
      RunKeepsSystemInv(pods[steps[0].0 := Next(pods[steps[0].0], steps[0].1, val)], steps[1..], val);
    }
  }

  /** Over every run of N pods, although an iteration may write a value it computed before its flag fell, no
      two pods that are not terminating are ever both labelled active. */
  lemma SingleActive(pods: Pods, steps: seq<(nat, Step)>, val: string, a: nat, b: nat)
    requires Initial(pods, val) && SystemEnabledAll(pods, steps, val)
    requires var end := PlaySystem(pods, steps, val);
      a in end && b in end && a != b && !end[a].terminating && !end[b].terminating
    ensures var end := PlaySystem(pods, steps, val);
      !(Active(end[a], val) && Active(end[b], val))
  {
    InitialSatisfiesInv(pods, val);
    RunKeepsSystemInv(pods, steps, val);
  }

  lemma InitialSatisfiesInv(pods: Pods, val: string)
    requires Initial(pods, val)
    ensures SystemInv(pods, val)
  {
    forall id | id in pods
      ensures PodInv(pods[id], val) && (Exposed(pods[id]) <==> !pods[id].clean)
    {
      var tag, clean :| pods[id] == Start(tag, clean) && (clean ==> tag != Some(val));
    }
  }
}
