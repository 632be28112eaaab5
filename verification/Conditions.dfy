/** The status condition list kept by `setCondition` and `removeCondition`. */
module Conditions {
  import opened Base

  datatype Condition = Condition(typ: string, status: bool, reason: string, message: string, time: int)

  function Find(cs: seq<Condition>, typ: string): Option<Condition> {
    if cs == [] then None
    else if cs[0].typ == typ then Some(cs[0])
    else Find(cs[1..], typ)
  }

  predicate HasCond(cs: seq<Condition>, typ: string) {
    Find(cs, typ).Some?
  }

  /** `c`, keeping the transition time of the entry it replaces when the status did not change. */
  function Carry(old_: Option<Condition>, c: Condition): Condition {
    if old_.Some? && old_.value.status == c.status then c.(time := old_.value.time) else c
  }

  function SetCond(cs: seq<Condition>, c: Condition): seq<Condition> {
    if cs == [] then [c]
    else if cs[0].typ == c.typ then [Carry(Some(cs[0]), c)] + cs[1..]
    else [cs[0]] + SetCond(cs[1..], c)
  }

  function OtherThan(typ: string): Condition -> bool {
    (c: Condition) => c.typ != typ
  }

  function RemoveCond(cs: seq<Condition>, typ: string): seq<Condition> {
    Filter(cs, OtherThan(typ))
  }

  predicate UniqueTypes(cs: seq<Condition>) {
    forall i, j :: 0 <= i < j < |cs| ==> cs[i].typ != cs[j].typ
  }

  lemma {:induction false} FindFails(cs: seq<Condition>, typ: string)
    ensures Find(cs, typ).None? <==> forall c :: c in cs ==> c.typ != typ
  {
    if cs == [] {
    } else {
      FindFails(cs[1..], typ);
      assert forall c :: c in cs <==> c == cs[0] || c in cs[1..];
    }
  }

  lemma {:induction false} SetCondFinds(cs: seq<Condition>, c: Condition, t: string)
    ensures Find(SetCond(cs, c), t) == if t == c.typ then Some(Carry(Find(cs, t), c)) else Find(cs, t)
  {
    if cs == [] {
    } else {
      SetCondFinds(cs[1..], c, t);
      assert cs[0].typ != c.typ ==> SetCond(cs, c)[1..] == SetCond(cs[1..], c);
      assert cs[0].typ == c.typ ==> SetCond(cs, c)[1..] == cs[1..];
    }
  }

  lemma {:induction false} SetCondEffect(cs: seq<Condition>, c: Condition)
    ensures UniqueTypes(cs) ==> UniqueTypes(SetCond(cs, c))
    ensures forall d :: d in SetCond(cs, c) ==> d.typ == c.typ || d in cs
    ensures forall t ::
      Find(SetCond(cs, c), t) == if t == c.typ then Some(Carry(Find(cs, t), c)) else Find(cs, t)
  {
    forall t
      ensures Find(SetCond(cs, c), t) == if t == c.typ then Some(Carry(Find(cs, t), c)) else Find(cs, t)
    {
      SetCondFinds(cs, c, t);
    }
    if cs == [] {
    } else if cs[0].typ != c.typ {
      SetCondEffect(cs[1..], c);
      var r := SetCond(cs[1..], c);
      assert SetCond(cs, c)[1..] == r;
      assert UniqueTypes(cs) ==> forall d :: d in r ==> d.typ != cs[0].typ;
    } else {
      assert SetCond(cs, c)[1..] == cs[1..];
    }
  }

  lemma {:induction false} RemoveCondFinds(cs: seq<Condition>, typ: string, t: string)
    ensures Find(RemoveCond(cs, typ), t) == if t == typ then None else Find(cs, t)
  {
    if cs == [] {
    } else {
      RemoveCondFinds(cs[1..], typ, t);
      assert cs[0].typ != typ ==> RemoveCond(cs, typ)[1..] == RemoveCond(cs[1..], typ);
    }
  }

  lemma {:induction false} RemoveCondEffect(cs: seq<Condition>, typ: string)
    ensures UniqueTypes(cs) ==> UniqueTypes(RemoveCond(cs, typ))
    ensures forall t :: Find(RemoveCond(cs, typ), t) == if t == typ then None else Find(cs, t)
  {
    forall t
      ensures Find(RemoveCond(cs, typ), t) == if t == typ then None else Find(cs, t)
    {
      RemoveCondFinds(cs, typ, t);
    }
    if cs == [] {
    } else {
      RemoveCondEffect(cs[1..], typ);
      var r := RemoveCond(cs[1..], typ);
      assert cs[0].typ != typ ==> RemoveCond(cs, typ) == [cs[0]] + r;
      assert UniqueTypes(cs) ==> forall d :: d in r ==> d in cs[1..] && d.typ != cs[0].typ;
    }
  }

  // ---- The history of a list built by a sequence of calls ----

  datatype Call = Set(c: Condition) | Remove(typ: string)

  function Touched(call: Call): string {
    match call case Set(c) => c.typ case Remove(t) => t
  }

  function Replay(calls: seq<Call>): seq<Condition> {
    if calls == [] then []
    else
      var before := Replay(calls[..|calls| - 1]);
      match calls[|calls| - 1]
      case Set(c) => SetCond(before, c)
      case Remove(t) => RemoveCond(before, t)
  }

  /** `i` is the last of the first `bound` calls that concerns `typ`. */
  ghost predicate IsLast(calls: seq<Call>, bound: nat, typ: string, i: nat) {
    && i < bound <= |calls| && Touched(calls[i]) == typ
    && forall k :: i < k < bound ==> Touched(calls[k]) != typ
  }

  /** `i` opens the current unbroken run of calls that set `typ` to `status`. */
  ghost predicate OpensRun(calls: seq<Call>, typ: string, status: bool, i: nat) {
    && i < |calls| && calls[i].Set? && calls[i].c.typ == typ && calls[i].c.status == status
    && (forall k :: i < k < |calls| && Touched(calls[k]) == typ ==> calls[k].Set? && calls[k].c.status == status)
    && (forall k: nat :: IsLast(calls, i, typ, k) ==> calls[k].Remove? || calls[k].c.status != status)
  }

  /** `e` is the entry for `typ` that the calls account for: none when no call concerns `typ` or the last
      one removed it, else the last call's status, reason and message with the time of call `first`. */
  ghost predicate Explains(calls: seq<Call>, typ: string, e: Option<Condition>, last: nat, first: nat) {
    if e.None? then forall i: nat :: IsLast(calls, |calls|, typ, i) ==> calls[i].Remove?
    else
      && IsLast(calls, |calls|, typ, last) && calls[last].Set?
      && OpensRun(calls, typ, e.value.status, first)
      && e.value == calls[last].c.(time := calls[first].c.time)
  }

  lemma LastOfPrefix(calls: seq<Call>, call: Call)
    ensures forall b: nat, t, i: nat | b <= |calls| ::
      IsLast(calls + [call], b, t, i) == IsLast(calls, b, t, i)
  {
    var all := calls + [call];
    forall b: nat, t, i: nat | b <= |calls|
      ensures IsLast(all, b, t, i) == IsLast(calls, b, t, i)
    {
      assert forall k :: 0 <= k < b ==> all[k] == calls[k];
    }
  }

  lemma ExplainsUntouched(calls: seq<Call>, call: Call, typ: string, e: Option<Condition>, last: nat, first: nat)
    requires Explains(calls, typ, e, last, first) && Touched(call) != typ
    ensures Explains(calls + [call], typ, e, last, first)
  {
    LastOfPrefix(calls, call);
    var all := calls + [call];
    assert forall i: nat :: IsLast(all, |all|, typ, i) ==> IsLast(calls, |calls|, typ, i);
  }

  lemma ExplainsSet(calls: seq<Call>, c: Condition, e: Option<Condition>, last: nat, first: nat)
    requires Explains(calls, c.typ, e, last, first)
    ensures var kept := e.Some? && e.value.status == c.status;
      Explains(calls + [Set(c)], c.typ, Some(Carry(e, c)), |calls|, if kept then first else |calls|)
  {
    LastOfPrefix(calls, Set(c));
    var all := calls + [Set(c)];
    assert IsLast(all, |all|, c.typ, |calls|);
    if e.Some? {
      assert forall k: nat :: IsLast(calls, |calls|, c.typ, k) ==> k == last;
    }
  }

  /** Types are unique, and every entry is the one the history of calls accounts for. */
  lemma {:induction false} ConditionHistory(calls: seq<Call>, typ: string) returns (last: nat, first: nat)
    ensures UniqueTypes(Replay(calls))
    ensures Explains(calls, typ, Find(Replay(calls), typ), last, first)
  {
    last, first := 0, 0;
    if calls == [] {
    } else {
      var before, call := calls[..|calls| - 1], calls[|calls| - 1];
      assert calls == before + [call];
      last, first := ConditionHistory(before, typ);
      var e := Find(Replay(before), typ);
      if call.Set? {
        SetCondEffect(Replay(before), call.c);
      } else {
        RemoveCondEffect(Replay(before), call.typ);
      }
      if Touched(call) != typ {
        ExplainsUntouched(before, call, typ, e, last, first);
      } else if call.Set? {
        ExplainsSet(before, call.c, e, last, first);
        last, first := |before|, if e.Some? && e.value.status == call.c.status then first else |before|;
      } else {
        assert IsLast(calls, |calls|, typ, |before|);
      }
    }
  }

  lemma RemoveCondStep(cs: seq<Condition>, i: nat, typ: string)
    requires i < |cs|
    ensures RemoveCond(cs[..i + 1], typ) == RemoveCond(cs[..i], typ) + if cs[i].typ != typ then [cs[i]] else []
  {
    assert cs[..i + 1] == cs[..i] + [cs[i]];
    FilterConcat(cs[..i], [cs[i]], OtherThan(typ));
  }

  lemma {:induction false} SetCondAt(cs: seq<Condition>, c: Condition, i: nat)
    requires i <= |cs| && (forall k :: 0 <= k < i ==> cs[k].typ != c.typ) && (i < |cs| ==> cs[i].typ == c.typ)
    ensures SetCond(cs, c) == if i < |cs| then cs[i := Carry(Some(cs[i]), c)] else cs + [c]
  {
    if i == 0 {
    } else {
      SetCondAt(cs[1..], c, i - 1);
      assert cs == [cs[0]] + cs[1..];
    }
  }

  // ---- The slice the code edits in place ----

  class ConditionSlice {
    var items: array<Condition>
    var len: nat

    ghost predicate Valid()
      reads this
    {
      len <= items.Length
    }

    ghost function Contents(): seq<Condition>
      reads this, items
      requires Valid()
    {
      items[..len]
    }

    constructor ()
      ensures Valid() && fresh(items) && Contents() == []
    {
      items := new Condition[0];
      len := 0;
    }

    /** Replaces the entry of the same type, or appends, growing the backing array when it is full. */
    method Set(c: Condition)
      requires Valid()
      modifies this, items
      ensures Valid() && (items == old(items) || fresh(items))
      ensures Contents() == SetCond(old(Contents()), c)
    {
      ghost var was := Contents();
      var i := 0;
      while i < len
        invariant i <= len == |was| <= items.Length && items == old(items) && Contents() == was
        invariant forall k :: 0 <= k < i ==> was[k].typ != c.typ
      {
        if items[i].typ == c.typ {
          SetCondAt(was, c, i);
          items[i] := if items[i].status == c.status then c.(time := items[i].time) else c;
          return;
        }
        i := i + 1;
      }
      SetCondAt(was, c, len);
      if len == items.Length {
        Grow(c);
      }
      items[len] := c;
      len := len + 1;
    }

    /** Moves the contents to a larger backing array, as Go's append does when it is full. */
    method Grow(filler: Condition)
      requires Valid()
      modifies this`items
      ensures Valid() && fresh(items) && items.Length > len && Contents() == old(Contents())
    {
      var grown := new Condition[2 * len + 1](_ => filler);
      forall k | 0 <= k < len {
        grown[k] := items[k];
      }
      items := grown;
    }

    /** Compacts the slice over its own backing array, keeping the order of what stays. */
    method Remove(typ: string)
      requires Valid()
      modifies this`len, items
      ensures Valid() && items == old(items)
      ensures Contents() == RemoveCond(old(Contents()), typ)
    {
      ghost var was := Contents();
      var n := 0;
      for i := 0 to len
        invariant n == |RemoveCond(was[..i], typ)| <= i && len == |was| <= items.Length
        invariant forall k :: i <= k < len ==> items[k] == was[k]
        invariant forall k :: 0 <= k < n ==> items[k] == RemoveCond(was[..i], typ)[k]
      {
        RemoveCondStep(was, i, typ);
        if items[i].typ != typ {
          items[n] := items[i];
          n := n + 1;
        }
      }
      assert was[..len] == was;
      len := n;
      assert Contents() == RemoveCond(was, typ);
    }
  }
}
