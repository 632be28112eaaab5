/** Who may write a slot when several routes render into it. */
module Ownership {
  import opened Base
  import opened Names
  import opened Cluster

  /** Older objects first, then by "ns/name". */
  predicate EarlierThan(a: Route, b: Route) {
    if a.created != b.created then a.created < b.created
    else StringLess(QualifiedName(a.id), QualifiedName(b.id))
  }

  /** `holdsKey`: the route's status records this very slot. */
  predicate Holds(r: Route, s: Slot) {
    Recorded(r) == s
  }

  /** The precedence between two claimants of `s`: whoever holds it, then the earlier one. */
  predicate Beats(a: Route, b: Route, s: Slot) {
    if Holds(a, s) != Holds(b, s) then Holds(a, s) else EarlierThan(a, b)
  }

  /** `o` owns `s`: it is a live claimant that beats every other live claimant. */
  ghost predicate IsOwner(rs: Routes, s: Slot, o: NN) {
    && Claims(rs, o, s)
    && forall c :: c != o && Claims(rs, c, s) ==> Beats(rs[o], rs[c], s)
  }

  ghost predicate Named(rs: Routes) {
    forall n :: n in rs ==> rs[n].id == n && ValidName(n)
  }

  /** `EarlierThan` is a strict total order on routes with distinct names, although it breaks ties on
      the concatenated string. */
  lemma EarlierThanIsStrictTotalOrder(a: Route, b: Route, c: Route)
    requires ValidName(a.id) && ValidName(b.id)
    ensures !EarlierThan(a, a)
    ensures EarlierThan(a, b) && EarlierThan(b, c) ==> EarlierThan(a, c)
    ensures a.id != b.id ==> EarlierThan(a, b) != EarlierThan(b, a)
  {
    var qa, qb, qc := QualifiedName(a.id), QualifiedName(b.id), QualifiedName(c.id);
    StringLessIrreflexive(qa);
    if StringLess(qa, qb) && StringLess(qb, qc) {
      StringLessTransitive(qa, qb, qc);
    }
    if StringLess(qa, qb) && StringLess(qb, qa) {
      StringLessTransitive(qa, qb, qa);
    }
    StringLessTotal(qa, qb);
    if qa == qb {
      QualifiedNameInjective(a.id, b.id);
    }
  }

  lemma BeatsIsStrictTotalOrder(a: Route, b: Route, c: Route, s: Slot)
    requires ValidName(a.id) && ValidName(b.id)
    ensures !Beats(a, a, s)
    ensures Beats(a, b, s) && Beats(b, c, s) ==> Beats(a, c, s)
    ensures a.id != b.id ==> Beats(a, b, s) != Beats(b, a, s)
  {
    EarlierThanIsStrictTotalOrder(a, b, c);
  }

  lemma {:induction false} BestOf(rs: Routes, s: Slot, cands: set<NN>) returns (o: NN)
    requires Named(rs) && cands != {} && forall c :: c in cands ==> Claims(rs, c, s)
    ensures o in cands && cands <= rs.Keys && forall c :: c in cands && c != o ==> Beats(rs[o], rs[c], s)
  {
    var x :| x in cands;
    var rest := cands - {x};
    assert cands == rest + {x};
    if rest == {} {
      o := x;
    } else {
      var best := BestOf(rs, s, rest);
      BeatsIsStrictTotalOrder(rs[x], rs[best], rs[x], s);
      o := if Beats(rs[x], rs[best], s) then x else best;
      forall c | c in cands && c != o
        ensures Beats(rs[o], rs[c], s)
      {
        if o == x && c != best {
          BeatsIsStrictTotalOrder(rs[x], rs[best], rs[c], s);
        }
      }
    }
  }

  lemma OwnerUnique(rs: Routes, s: Slot, a: NN, b: NN)
    requires Named(rs) && IsOwner(rs, s, a) && IsOwner(rs, s, b)
    ensures a == b
  {
    BeatsIsStrictTotalOrder(rs[a], rs[b], rs[a], s);
  }

  /** Every slot with a live claimant has exactly one owner. */
  lemma ExactlyOneOwner(rs: Routes, s: Slot, claimant: NN) returns (o: NN)
    requires Named(rs) && Claims(rs, claimant, s)
    ensures IsOwner(rs, s, o)
    ensures forall x :: IsOwner(rs, s, x) ==> x == o
  {
    var claimants := set n | n in rs && Claims(rs, n, s);
    assert claimant in claimants;
    o := BestOf(rs, s, claimants);
    forall x | IsOwner(rs, s, x)
      ensures x == o
    {
      OwnerUnique(rs, s, x, o);
    }
  }

  /** The status fields name the slot. */
  predicate Records(r: Route, s: Slot) {
    r.status.appliedKey == s.key && SplitNSName(r.status.appliedCM, r.id.ns) == s.cm
  }

  ghost predicate SomeRecords(rs: Routes, s: Slot) {
    exists c :: Claims(rs, c, s) && Records(rs[c], s)
  }

  /** `o` is a claimant of `s` with the slot in its status, if any claimant has it there, and among those
      like it the one created first or, of several created then, the one whose "ns/name" comes first. */
  ghost predicate FirstInLine(rs: Routes, s: Slot, o: NN) {
    && Claims(rs, o, s) && (SomeRecords(rs, s) ==> Records(rs[o], s))
    && forall c :: c != o && Claims(rs, c, s) && (SomeRecords(rs, s) ==> Records(rs[c], s)) ==>
         || rs[o].created < rs[c].created
         || (rs[o].created == rs[c].created && ComesBefore(QualifiedName(o), QualifiedName(c)))
  }

  /** The owner, said on the fields of the objects alone. */
  lemma OwnerIsFirstInLine(rs: Routes, s: Slot, o: NN)
    requires Named(rs)
    ensures IsOwner(rs, s, o) <==> FirstInLine(rs, s, o)
  {
    forall c | c in rs && o in rs
      ensures EarlierThan(rs[o], rs[c]) <==>
        || rs[o].created < rs[c].created
        || (rs[o].created == rs[c].created && ComesBefore(QualifiedName(o), QualifiedName(c)))
    {
      StringLessMeans(QualifiedName(o), QualifiedName(c));
    }
    assert forall c :: c in rs ==> (Holds(rs[c], s) <==> Records(rs[c], s));
  }

  /** The owner reported to a claimant of `s`. */
  ghost function OwnerOf(rs: Routes, s: Slot): NN {
    if exists o :: IsOwner(rs, s, o) then
      var o :| IsOwner(rs, s, o);
      o
    else s.cm
  }

  lemma OwnerOfIsOwner(rs: Routes, n: NN)
    requires Named(rs) && n in rs && !rs[n].deleting
    ensures var s := Target(rs[n]);
      IsOwner(rs, s, OwnerOf(rs, s)) && forall o :: IsOwner(rs, s, o) <==> o == OwnerOf(rs, s)
  {
    var o := ExactlyOneOwner(rs, Target(rs[n]), n);
  }

  /** A new best that is earlier than the previous one is earlier than all that one had beaten. */
  lemma Supplants(cands: seq<Route>, i: nat, best: Option<Route>, x: Route)
    requires i <= |cands|
    requires best.Some? ==> ValidName(x.id) && ValidName(best.value.id) && EarlierThan(x, best.value)
    ensures best.Some? ==> forall k :: 0 <= k < i && EarlierThan(best.value, cands[k]) ==> EarlierThan(x, cands[k])
  {
    if best.Some? {
      forall k | 0 <= k < i && EarlierThan(best.value, cands[k])
        ensures EarlierThan(x, cands[k])
      {
        EarlierThanIsStrictTotalOrder(x, best.value, cands[k]);
      }
    }
  }

  /** Every route that renders `rb`'s slot, `rb` included. */
  method Candidates(items: seq<Route>, rb: Route, ghost rs: Routes) returns (cands: seq<Route>)
    requires Named(rs) && Lists(items, rs) && rb.id in rs && rs[rb.id] == rb && !rb.deleting
    ensures rb in cands
    ensures forall c :: c in cands ==> Claims(rs, c.id, Target(rb)) && rs[c.id] == c
    ensures forall n :: Claims(rs, n, Target(rb)) ==> rs[n] in cands
  {
    cands := [rb];
    for i := 0 to |items|
      invariant rb in cands
      invariant forall c :: c in cands ==> Claims(rs, c.id, Target(rb)) && rs[c.id] == c
      invariant forall k :: 0 <= k < i && Claims(rs, items[k].id, Target(rb)) ==> items[k] in cands
    {
      var o := items[i];
      if o.id != rb.id && !o.deleting && Target(o) == Target(rb) {
        cands := cands + [o];
      }
    }
  }

  /** The earliest candidate among those that hold the slot, or among all of them. */
  method Earliest(cands: seq<Route>, slot: Slot, holdersOnly: bool) returns (best: Option<Route>)
    requires forall c :: c in cands ==> ValidName(c.id)
    requires forall c, d :: c in cands && d in cands && c.id == d.id ==> c == d
    ensures best.Some? ==> best.value in cands && (holdersOnly ==> Holds(best.value, slot))
    ensures forall c :: c in cands && (holdersOnly ==> Holds(c, slot)) ==>
      best.Some? && (c == best.value || EarlierThan(best.value, c))
  {
    best := None;
    for i := 0 to |cands|
      invariant best.Some? ==> best.value in cands && (holdersOnly ==> Holds(best.value, slot))
      invariant forall k :: 0 <= k < i && (holdersOnly ==> Holds(cands[k], slot)) ==>
        best.Some? && (cands[k] == best.value || EarlierThan(best.value, cands[k]))
    {
      var c := cands[i];
      if holdersOnly && !Holds(c, slot) {
        continue;
      }
      if best.Some? {
        EarlierThanIsStrictTotalOrder(c, best.value, c);
      }
      if best == None || EarlierThan(c, best.value) {
        Supplants(cands, i, best, c);
        best := Some(c);
      }
    }
  }

  /** `routeKeyOwner`, over the routes in the order the list call returned them. */
  method RouteKeyOwner(items: seq<Route>, rb: Route, ghost rs: Routes) returns (owner: string, conflict: bool)
    requires Named(rs) && Lists(items, rs) && rb.id in rs && rs[rb.id] == rb && !rb.deleting
    ensures var o := OwnerOf(rs, Target(rb));
      && IsOwner(rs, Target(rb), o) && FirstInLine(rs, Target(rb), o)
      && owner == QualifiedName(o) && conflict == (o != rb.id)
  {
    var slot := Target(rb);
    var cands := Candidates(items, rb, rs);
    var best := Earliest(cands, slot, true);
    if best == None {
      best := Earliest(cands, slot, false);
    }
    assert IsOwner(rs, slot, best.value.id);
    OwnerOfIsOwner(rs, rb.id);
    OwnerIsFirstInLine(rs, slot, best.value.id);
    owner := QualifiedName(best.value.id);
    conflict := best.value.id != rb.id;
  }

  /** `keyClaimedByOther`. */
  method KeyClaimedByOther(items: seq<Route>, rb: Route, slot: Slot, ghost rs: Routes) returns (claimed: bool)
    requires Named(rs) && Lists(items, rs)
    ensures claimed <==> ClaimedByOther(rs, rb.id, slot)
  {
    for i := 0 to |items|
      invariant forall k :: 0 <= k < i ==> items[k].id == rb.id || !Claims(rs, items[k].id, slot)
    {
      var o := items[i];
      if o.id != rb.id && !o.deleting && Target(o) == slot {
        return true;
      }
    }
    return false;
  }

  /** In any snapshot exactly one claimant of a slot is without conflict, and the name every claimant is
      told identifies that one: the answer depends neither on the listing order nor on who asks. */
  lemma SingleOwnerAgreement(rs: Routes, s: Slot, a: NN)
    requires Named(rs) && Claims(rs, a, s)
    ensures Claims(rs, OwnerOf(rs, s), s)
    ensures forall n :: Claims(rs, n, s) ==>
      (IsOwner(rs, s, n) <==> n == OwnerOf(rs, s)) &&
      (n == OwnerOf(rs, s) <==> QualifiedName(n) == QualifiedName(OwnerOf(rs, s)))
  {
    OwnerOfIsOwner(rs, a);
    forall n | Claims(rs, n, s) && QualifiedName(n) == QualifiedName(OwnerOf(rs, s))
      ensures n == OwnerOf(rs, s)
    {
      QualifiedNameInjective(n, OwnerOf(rs, s));
    }
  }
}
