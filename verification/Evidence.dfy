/** The optional source evidence of an inspection and the filter that bounds it
    (`limit_source_evidence` in pi_host/dsh_ydmap/install.py): a byte budget in reading order,
    then removal until every reused source is defined by something that is kept. */
module Evidence {
  import opened Effects

  const MAX_BYTES: nat := 128 * 1024

  datatype Component = Component(index: nat, name: Option<string>, matchedCells: nat, methods: map<string, bool>)

  /** One renderer method; a `reused` one carries no source and refers to another by name and hash. */
  datatype Method = Method(refs: seq<nat>, name: string, kind: string, sha: string, source: string,
                           originalBytes: nat, emittedBytes: nat, truncated: bool, redacted: bool, reused: bool)

  datatype CellSample = CellSample(court: string, start: string, end: string, classes: seq<string>,
                                   online: Option<string>, flags: seq<bool>)

  datatype Evidence = Evidence(sourceCells: nat, matchedCells: nat, unmatchedCells: nat,
                               coverageComplete: bool, scanTruncated: bool, sourceTruncated: bool,
                               components: seq<Component>, methods: seq<Method>, samples: seq<CellSample>)

  /** The groups of the inspections in reading order; `None` is a group without evidence. */
  type Slots = seq<Option<Evidence>>

  datatype Ref = Ref(name: string, sha: string)

  function RefOf(m: Method): Ref {
    Ref(m.name, m.sha)
  }

  predicate Defines(e: Evidence, r: Ref) {
    exists m :: m in e.methods && !m.reused && RefOf(m) == r
  }

  predicate Needs(e: Evidence, r: Ref) {
    exists m :: m in e.methods && m.reused && RefOf(m) == r
  }

  // ----- Reference definitions -----

  /** The byte budget: an entry that does not fit is dropped and later ones may still fit. */
  function Admit(slots: Slots, budget: nat, size: Evidence -> nat): (r: Slots)
    ensures |r| == |slots|
    ensures forall i :: 0 <= i < |slots| ==> r[i] == slots[i] || r[i] == None
  {
    if slots == [] then []
    else if slots[0].Some? && size(slots[0].value) <= budget then
      [slots[0]] + Admit(slots[1..], budget - size(slots[0].value), size)
    else [None] + Admit(slots[1..], budget, size)
  }

  function Total(slots: Slots, size: Evidence -> nat): nat {
    if slots == [] then 0
    else (if slots[0].Some? then size(slots[0].value) else 0) + Total(slots[1..], size)
  }

  predicate DefinedIn(a: Slots, kept: set<nat>, r: Ref) {
    exists j :: j in kept && j < |a| && a[j].Some? && Defines(a[j].value, r)
  }

  /** A set of entries whose every reused source is defined inside the set. */
  ghost predicate Closed(a: Slots, kept: set<nat>) {
    && (forall i :: i in kept ==> i < |a| && a[i].Some?)
    && (forall i, r :: i in kept && Needs(a[i].value, r) ==> DefinedIn(a, kept, r))
  }

  ghost predicate InSomeClosed(a: Slots, i: nat) {
    exists s: set<nat> :: Closed(a, s) && i in s
  }

  /** Every entry that belongs to some closed set: the union of all of them. */
  ghost function Closure(a: Slots): set<nat> {
    set i: nat | i < |a| && InSomeClosed(a, i)
  }

  function Restrict(a: Slots, kept: set<nat>): (r: Slots)
    ensures |r| == |a|
    ensures forall i :: 0 <= i < |a| ==> r[i] == if i in kept then a[i] else None
  {
    seq(|a|, i requires 0 <= i < |a| => if i in kept then a[i] else None)
  }

  ghost function Limited(slots: Slots, size: Evidence -> nat): Slots {
    var a := Admit(slots, MAX_BYTES, size);
    Restrict(a, Closure(a))
  }

  /** The union of closed sets is closed, and contains every closed set. */
  lemma ClosureIsGreatest(a: Slots)
    ensures Closed(a, Closure(a))
    ensures forall s :: Closed(a, s) ==> s <= Closure(a)
  {
    var k := Closure(a);
    forall s | Closed(a, s) ensures s <= k {
      forall i | i in s ensures i in k { assert InSomeClosed(a, i); }
    }
    forall i, r | i in k && Needs(a[i].value, r) ensures DefinedIn(a, k, r) {
      var s :| Closed(a, s) && i in s;
      assert DefinedIn(a, s, r);
      var j :| j in s && j < |a| && a[j].Some? && Defines(a[j].value, r);
      assert InSomeClosed(a, j);
    }
  }

  // ----- Budget facts -----

  /** The entry fits beside everything kept in front of it. */
  predicate Fits(kept: Slots, i: nat, e: Evidence, budget: nat, size: Evidence -> nat)
    requires i <= |kept|
  {
    Total(kept[..i], size) + size(e) <= budget
  }

  /** Exactly the entries are kept that fit beside what is kept in front of them; one that does
      not fit takes nothing away from the later ones. */
  lemma {:induction false} AdmitKeeps(slots: Slots, budget: nat, size: Evidence -> nat, i: nat)
    requires i < |slots|
    ensures var a := Admit(slots, budget, size);
      && (slots[i].None? ==> a[i].None?)
      && (slots[i].Some? ==>
            a[i] == if Total(a[..i], size) + size(slots[i].value) <= budget then slots[i] else None)
  {
    var a := Admit(slots, budget, size);
    var kept := slots[0].Some? && size(slots[0].value) <= budget;
    if i > 0 {
      AdmitKeeps(slots[1..], if kept then budget - size(slots[0].value) else budget, size, i - 1);
      assert a[..i][1..] == a[1..][..i - 1];
    }
  }

  lemma {:induction false} AdmitFits(slots: Slots, budget: nat, size: Evidence -> nat)
    ensures Total(Admit(slots, budget, size), size) <= budget
  {
    if slots != [] {
      if slots[0].Some? && size(slots[0].value) <= budget {
        AdmitFits(slots[1..], budget - size(slots[0].value), size);
      } else {
        AdmitFits(slots[1..], budget, size);
      }
      assert Admit(slots, budget, size)[1..] == if slots[0].Some? && size(slots[0].value) <= budget
        then Admit(slots[1..], budget - size(slots[0].value), size) else Admit(slots[1..], budget, size);
    }
  }

  lemma {:induction false} AdmitAll(slots: Slots, budget: nat, size: Evidence -> nat)
    requires Total(slots, size) <= budget
    ensures Admit(slots, budget, size) == slots
  {
    if slots != [] {
      AdmitAll(slots[1..], if slots[0].Some? then budget - size(slots[0].value) else budget, size);
    }
  }

  lemma {:induction false} DroppingShrinks(a: Slots, b: Slots, size: Evidence -> nat)
    requires |a| == |b| && forall i :: 0 <= i < |a| ==> b[i] == a[i] || b[i] == None
    ensures Total(b, size) <= Total(a, size)
  {
    if a != [] { DroppingShrinks(a[1..], b[1..], size); }
  }

  // ----- Main results about the reference definition -----

  lemma LimitedFits(slots: Slots, size: Evidence -> nat)
    ensures Total(Limited(slots, size), size) <= 131072
  {
    var a := Admit(slots, MAX_BYTES, size);
    AdmitFits(slots, MAX_BYTES, size);
    DroppingShrinks(a, Limited(slots, size), size);
  }

  /** Restricting to the closure changes nothing about the closure. */
  lemma ClosureStable(a: Slots)
    ensures Closure(Restrict(a, Closure(a))) == Closure(a)
  {
    var k := Closure(a);
    var b := Restrict(a, k);
    ClosureIsGreatest(a);
    ClosureIsGreatest(b);
    assert Closed(b, k) by {
      forall i, r | i in k && Needs(b[i].value, r) ensures DefinedIn(b, k, r) {
        assert DefinedIn(a, k, r);
        var j :| j in k && j < |a| && a[j].Some? && Defines(a[j].value, r);
        assert b[j] == a[j];
      }
    }
    forall i | i in Closure(b) ensures i in k {
      assert b[i].Some?;
    }
  }

  /** A second pass over a filtered result removes nothing. */
  lemma LimitIdempotent(slots: Slots, size: Evidence -> nat)
    ensures Limited(Limited(slots, size), size) == Limited(slots, size)
  {
    var once := Limited(slots, size);
    LimitedFits(slots, size);
    AdmitAll(once, MAX_BYTES, size);
    ClosureStable(Admit(slots, MAX_BYTES, size));
  }

  // ----- The filter as the program runs it -----

  function Available(a: Slots): set<Ref> {
    set i, m | 0 <= i < |a| && a[i].Some? && m in a[i].value.methods && !m.reused :: RefOf(m)
  }

  predicate Unresolved(e: Evidence, available: set<Ref>) {
    exists m :: m in e.methods && m.reused && RefOf(m) !in available
  }

  function Count(a: Slots): nat {
    if a == [] then 0 else (if a[0].Some? then 1 else 0) + Count(a[1..])
  }

  /** `b` keeps everything that must be kept of `a`, and nothing that `a` does not have. */
  ghost predicate Between(a: Slots, b: Slots) {
    && |a| == |b|
    && (forall i :: 0 <= i < |a| ==> b[i] == a[i] || b[i] == None)
    && (forall i :: i in Closure(a) ==> i < |b| && b[i] == a[i])
  }

  /** Anything that still has a member of the closure can define what the closure needs. */
  lemma ClosureStaysResolved(a: Slots, b: Slots, i: nat)
    requires Between(a, b) && i in Closure(a)
    ensures b[i].Some? && !Unresolved(b[i].value, Available(b))
  {
    ClosureIsGreatest(a);
    var k := Closure(a);
    assert a[i].Some?;
    forall m | m in b[i].value.methods && m.reused ensures RefOf(m) in Available(b) {
      assert Needs(a[i].value, RefOf(m));
      assert DefinedIn(a, k, RefOf(m));
      var j :| j in k && j < |a| && a[j].Some? && Defines(a[j].value, RefOf(m));
      var d :| d in a[j].value.methods && !d.reused && RefOf(d) == RefOf(m);
      assert b[j] == a[j];
      assert RefOf(d) in Available(b);
    }
  }

  /** When no entry is unresolved any more, what is left is exactly the closure. */
  lemma ResolvedIsClosure(a: Slots, b: Slots)
    requires Between(a, b)
    requires forall i :: 0 <= i < |b| && b[i].Some? ==> !Unresolved(b[i].value, Available(b))
    ensures b == Restrict(a, Closure(a))
  {
    ClosureIsGreatest(a);
    var kept := set i: nat | i < |b| && b[i].Some?;
    assert Closed(a, kept) by {
      forall i, r | i in kept && Needs(a[i].value, r) ensures DefinedIn(a, kept, r) {
        var m :| m in a[i].value.methods && m.reused && RefOf(m) == r;
        assert r in Available(b);
        var j, d :| 0 <= j < |b| && b[j].Some? && d in b[j].value.methods && !d.reused && RefOf(d) == r;
        assert j in kept && Defines(a[j].value, r);
      }
    }
    assert kept <= Closure(a);
  }

  lemma {:induction false} CountDrop(a: Slots, b: Slots)
    requires |a| == |b| && forall i :: 0 <= i < |a| ==> b[i] == a[i] || b[i] == None
    ensures Count(b) <= Count(a)
    ensures (exists i :: 0 <= i < |a| && a[i].Some? && b[i].None?) ==> Count(b) < Count(a)
  {
    if a != [] {
      CountDrop(a[1..], b[1..]);
      if i :| 0 <= i < |a| && a[i].Some? && b[i].None? {
        if i > 0 { assert a[1..][i - 1].Some? && b[1..][i - 1].None?; }
      }
    }
  }

  predicate Partial(e: Evidence) {
    e.sourceTruncated || e.scanTruncated
  }

  /** Something was cut short: already by its producer, or by the budget here. */
  predicate Truncates(slots: Slots, size: Evidence -> nat) {
    var after := Admit(slots, MAX_BYTES, size);
    exists k :: 0 <= k < |slots| && slots[k].Some? && (Partial(slots[k].value) || after[k].None?)
  }

  /** First pass: the byte budget, in reading order and in place. */
  method ApplyBudget(slots: array<Option<Evidence>>, size: Evidence -> nat) returns (truncated: bool)
    modifies slots
    ensures slots[..] == Admit(old(slots[..]), MAX_BYTES, size)
    ensures truncated <==> Truncates(old(slots[..]), size)
    ensures forall i :: 0 <= i < slots.Length && old(slots[i]).Some? ==>
              slots[i] == if Fits(slots[..], i, old(slots[i]).value, 131072, size) then old(slots[i]) else None
    ensures forall i :: 0 <= i < slots.Length && old(slots[i]).None? ==> slots[i].None?
    ensures truncated <==> exists i :: 0 <= i < slots.Length && old(slots[i]).Some?
                                       && (Partial(old(slots[i]).value)
                                           || !Fits(slots[..], i, old(slots[i]).value, 131072, size))
  {
    var budget: nat := MAX_BYTES;
    truncated := false;
    ghost var before := slots[..];
    ghost var after := Admit(before, MAX_BYTES, size);
    for i := 0 to slots.Length
      invariant forall k :: i <= k < slots.Length ==> slots[k] == before[k]
      invariant forall k :: 0 <= k < i ==> slots[k] == after[k]
      invariant after[i..] == Admit(before[i..], budget, size)
      invariant truncated <==> exists k :: 0 <= k < i && before[k].Some? && (Partial(before[k].value) || after[k].None?)
    {
      ghost var tail := before[i..];
      assert tail[0] == before[i] && tail[1..] == before[i + 1..];
      assert after[i] == after[i..][0] && after[i + 1..] == after[i..][1..];
      if slots[i].Some? {
        var e := slots[i].value;
        truncated := truncated || e.sourceTruncated || e.scanTruncated;
        if size(e) > budget {
          slots[i] := None;
          truncated := true;
        } else {
          budget := budget - size(e);
        }
      }
    }
    assert slots[..] == after;
    BudgetFacts(before, size);
  }

  /** `AdmitKeeps` for every entry at once. */
  lemma BudgetFacts(slots: Slots, size: Evidence -> nat)
    ensures var a := Admit(slots, MAX_BYTES, size);
      && (forall i :: 0 <= i < |slots| && slots[i].Some? ==>
            a[i] == if Fits(a, i, slots[i].value, MAX_BYTES, size) then slots[i] else None)
      && (forall i :: 0 <= i < |slots| && slots[i].None? ==> a[i].None?)
  {
    var a := Admit(slots, MAX_BYTES, size);
    forall i | 0 <= i < |slots| && slots[i].Some?
      ensures a[i] == if Fits(a, i, slots[i].value, MAX_BYTES, size) then slots[i] else None
    {
      AdmitKeeps(slots, MAX_BYTES, size, i);
    }
  }

  /** One sweep against a fixed set of available sources. */
  method Sweep(slots: array<Option<Evidence>>, available: set<Ref>) returns (changed: bool)
    modifies slots
    ensures forall i :: 0 <= i < slots.Length ==>
              slots[i] == if old(slots[i]).Some? && Unresolved(old(slots[i]).value, available) then None
                          else old(slots[i])
    ensures changed <==> slots[..] != old(slots[..])
  {
    changed := false;
    for i := 0 to slots.Length
      invariant forall k :: i <= k < slots.Length ==> slots[k] == old(slots[k])
      invariant forall k :: 0 <= k < i ==>
        slots[k] == if old(slots[k]).Some? && Unresolved(old(slots[k]).value, available) then None else old(slots[k])
      invariant changed <==> exists k :: 0 <= k < i && slots[k] != old(slots[k])
    {
      if slots[i].Some? && Unresolved(slots[i].value, available) {
        slots[i] := None;
        changed := true;
      }
    }
    assert forall k :: 0 <= k < slots.Length ==> slots[..][k] == slots[k] && old(slots[..])[k] == old(slots[k]);
  }

  /** Second pass: sweep until nothing changes. Ends in the greatest closed part. */
  method Resolve(slots: array<Option<Evidence>>) returns (rejected: bool)
    modifies slots
    ensures slots[..] == Restrict(old(slots[..]), Closure(old(slots[..])))
    ensures rejected <==> slots[..] != old(slots[..])
  {
    ghost var a := slots[..];
    var changed := true;
    rejected := false;
    ClosureIsGreatest(a);
    while changed
      invariant Between(a, slots[..])
      invariant rejected <==> slots[..] != a
      invariant !changed ==> forall i :: 0 <= i < slots.Length && slots[i].Some? ==>
                               !Unresolved(slots[i].value, Available(slots[..]))
      decreases Count(slots[..]), changed
    {
      ghost var b := slots[..];
      forall i | i in Closure(a) ensures i < |b| && b[i].Some? && !Unresolved(b[i].value, Available(b)) {
        ClosureStaysResolved(a, b, i);
      }
      changed := Sweep(slots, Available(slots[..]));
      rejected := rejected || changed;
      if changed {
        assert exists i :: 0 <= i < |b| && b[i].Some? && slots[..][i].None?;
      }
      CountDrop(b, slots[..]);
    }
    ResolvedIsClosure(a, slots[..]);
  }

  /** `limit_source_evidence`: budget, then closure; the two flags say exactly what happened. */
  method LimitSourceEvidence(slots: array<Option<Evidence>>, size: Evidence -> nat,
                             wasTruncated: bool, wasRejected: bool)
    returns (truncated: bool, rejected: bool)
    modifies slots
    ensures slots[..] == Limited(old(slots[..]), size)
    ensures truncated <==> wasTruncated || Truncates(old(slots[..]), size)
    ensures rejected <==> wasRejected || slots[..] != Admit(old(slots[..]), MAX_BYTES, size)
  {
    var over := ApplyBudget(slots, size);
    truncated := wasTruncated || over;
    var unresolved := Resolve(slots);
    rejected := wasRejected || unresolved;
  }
}
