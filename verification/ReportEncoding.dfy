/** What the installer prints and the runner prints again (`encode_report` in
    pi_host/dsh_ydmap/install.py): every report is re-read on its own, then one evidence budget
    and one closure run over all of them together. */
module ReportEncoding {
  import opened Effects
  import opened Evidence
  import opened Inspection

  /** The evidence of several reports in reading order. */
  function ReportSlots(rs: seq<Report>): Slots {
    if rs == [] then [] else SlotsOf(rs[0].days) + ReportSlots(rs[1..])
  }

  function WithReportSlots(rs: seq<Report>, slots: Slots): (out: seq<Report>)
    requires |slots| == |ReportSlots(rs)|
    ensures |out| == |rs|
  {
    if rs == [] then []
    else
      var n := |SlotsOf(rs[0].days)|;
      [FirstWith(rs, slots)] + WithReportSlots(rs[1..], slots[n..])
  }

  ghost function Encode(rules: Rules, rs: seq<Report>): seq<Report> {
    var safe := Safe(rules, rs, true);
    WithReportSlots(safe, Limited(ReportSlots(safe), rules.size))
  }

  /** Every reused source in a report is defined by evidence kept in that same report. */
  predicate SelfContained(r: Report) {
    var slots := SlotsOf(r.days);
    forall i :: 0 <= i < |slots| && slots[i].Some? ==> !Unresolved(slots[i].value, Available(slots))
  }

  /** `t` is `s` with some entries gone. */
  predicate Fewer(s: Slots, t: Slots) {
    |t| == |s| && forall i :: 0 <= i < |s| ==> t[i] == s[i] || t[i] == None
  }

  // ----- Filtering alone and together -----

  lemma LimitedIsFewer(s: Slots, size: Evidence -> nat)
    ensures Fewer(s, Limited(s, size))
  {}

  lemma FewerBothWays(s: Slots, t: Slots)
    requires Fewer(s, t) && Fewer(t, s)
    ensures s == t
  {
    assert forall i :: 0 <= i < |s| ==> s[i] == t[i];
  }

  /** The filter leaves a list alone exactly when it fits and refers only to itself. */
  lemma FixedIff(s: Slots, size: Evidence -> nat)
    requires Total(s, size) <= MAX_BYTES
    ensures Limited(s, size) == s <==>
            forall i :: 0 <= i < |s| && s[i].Some? ==> !Unresolved(s[i].value, Available(s))
  {
    AdmitAll(s, MAX_BYTES, size);
    if forall i :: 0 <= i < |s| && s[i].Some? ==> !Unresolved(s[i].value, Available(s)) {
      ResolvedIsClosure(s, s);
    } else if Limited(s, size) == s {
      forall i | 0 <= i < |s| && s[i].Some? ensures !Unresolved(s[i].value, Available(s)) {
        assert Restrict(s, Closure(s))[i].Some?;
        ClosureStaysResolved(s, s, i);
      }
    }
  }

  lemma {:induction false} TotalAppend(s: Slots, t: Slots, size: Evidence -> nat)
    ensures Total(s + t, size) == Total(s, size) + Total(t, size)
  {
    if s == [] {
      assert s + t == t;
    } else {
      TotalAppend(s[1..], t, size);
      assert (s + t)[1..] == s[1..] + t;
    }
  }

  lemma {:induction false} PartFits(rs: seq<Report>, i: nat, size: Evidence -> nat)
    requires i < |rs|
    ensures Total(SlotsOf(rs[i].days), size) <= Total(ReportSlots(rs), size)
  {
    TotalAppend(SlotsOf(rs[0].days), ReportSlots(rs[1..]), size);
    if i > 0 { PartFits(rs[1..], i - 1, size); }
  }

  // ----- Taking the slots of several reports apart and putting them back -----

  lemma ReportSlotsCons(r: Report, rs: seq<Report>)
    ensures ReportSlots([r] + rs) == SlotsOf(r.days) + ReportSlots(rs)
  {
    assert ([r] + rs)[1..] == rs;
  }

  /** The first report with its share of the slots. */
  function FirstWith(rs: seq<Report>, slots: Slots): Report
    requires rs != [] && |slots| == |ReportSlots(rs)|
  {
    rs[0].(days := WithSlots(rs[0].days, slots[..|SlotsOf(rs[0].days)|]))
  }

  lemma FirstKeepsItsSlots(rs: seq<Report>, slots: Slots)
    requires rs != [] && |slots| == |ReportSlots(rs)|
    ensures SlotsOf(FirstWith(rs, slots).days) == slots[..|SlotsOf(rs[0].days)|]
  {
    SlotsOfWithSlots(rs[0].days, slots[..|SlotsOf(rs[0].days)|]);
  }

  lemma {:induction false} ReportSlotsOfWith(rs: seq<Report>, slots: Slots)
    requires |slots| == |ReportSlots(rs)|
    ensures ReportSlots(WithReportSlots(rs, slots)) == slots
  {
    if rs != [] {
      var n := |SlotsOf(rs[0].days)|;
      var rest := WithReportSlots(rs[1..], slots[n..]);
      FirstKeepsItsSlots(rs, slots);
      ReportSlotsOfWith(rs[1..], slots[n..]);
      ReportSlotsCons(FirstWith(rs, slots), rest);
      calc {
        ReportSlots(WithReportSlots(rs, slots));
        ReportSlots([FirstWith(rs, slots)] + rest);
        slots[..n] + slots[n..];
        slots;
      }
    }
  }

  lemma {:induction false} WithOwnReportSlots(rs: seq<Report>)
    ensures WithReportSlots(rs, ReportSlots(rs)) == rs
  {
    if rs != [] {
      var n := |SlotsOf(rs[0].days)|;
      var slots := ReportSlots(rs);
      assert slots[..n] == SlotsOf(rs[0].days) && slots[n..] == ReportSlots(rs[1..]);
      WithOwnSlots(rs[0].days);
      WithOwnReportSlots(rs[1..]);
      assert rs == [rs[0]] + rs[1..];
    }
  }

  /** Report by report, only evidence is gone. */
  ghost predicate Thinned(r: Report, r': Report) {
    exists slots :: Fewer(SlotsOf(r.days), slots) && r' == r.(days := WithSlots(r.days, slots))
  }

  lemma FewerParts(s: Slots, t: Slots, n: nat)
    requires Fewer(s, t) && n <= |s|
    ensures Fewer(s[..n], t[..n]) && Fewer(s[n..], t[n..])
  {}

  lemma {:induction false} WithFewerThins(rs: seq<Report>, slots: Slots, i: nat)
    requires Fewer(ReportSlots(rs), slots) && i < |rs|
    ensures Thinned(rs[i], WithReportSlots(rs, slots)[i])
  {
    var n := |SlotsOf(rs[0].days)|;
    var all := ReportSlots(rs);
    assert all[..n] == SlotsOf(rs[0].days) && all[n..] == ReportSlots(rs[1..]);
    FewerParts(all, slots, n);
    if i > 0 { WithFewerThins(rs[1..], slots[n..], i - 1); }
  }

  // ----- Thinned reports re-read -----

  lemma ThinnedGroups(rules: Rules, products: map<string, Product>, d: Day, d': Day)
    requires CanonicalDay(rules, products, d, true) && Dropped(d, d')
    ensures CanonicalDay(rules, products, d', true)
  {
    forall j | 0 <= j < |d.groups|
      ensures SameIdentity(d.groups[j], d'.groups[j]) && CanonicalGroup(rules, d'.groups[j], true)
    {
      assert CanonicalGroup(rules, d.groups[j], true);
    }
    GroupsOkTransfers(rules, products, d.date, d.groups, d'.groups);
  }

  /** Losing evidence does not spoil a report's form. */
  lemma ThinnedWellFormed(rules: Rules, r: Report, r': Report)
    requires WellFormed(rules, r, true) && Thinned(r, r')
    ensures WellFormed(rules, r', true)
    ensures Fewer(SlotsOf(r.days), SlotsOf(r'.days))
  {
    var slots :| Fewer(SlotsOf(r.days), slots) && r' == r.(days := WithSlots(r.days, slots));
    SlotsOfWithSlots(r.days, slots);
    WithSlotsDrops(r.days, slots);
    forall d | d in r'.days ensures CanonicalDay(rules, rules.products[r.venue], d, true) {
      var i :| 0 <= i < |r'.days| && r'.days[i] == d;
      ThinnedGroups(rules, rules.products[r.venue], r.days[i], d);
    }
  }

  /** What re-reading does to a well-formed report: its evidence is filtered on its own. */
  lemma RereadSlots(rules: Rules, r: Report)
    requires WellFormed(rules, r, true)
    ensures SafeReport(rules, r, true).Some?
    ensures SlotsOf(SafeReport(rules, r, true).value.days) == Limited(SlotsOf(r.days), rules.size)
  {
    RereadOk(rules, r, true);
    var c := CleanDays(rules, Reread(r.days), true);
    SlotsIgnoreCounts(c, r.days);
    SlotsOfWithSlots(c, Limited(SlotsOf(c), rules.size));
    forall d | d in r.days ensures 0 <= d.courtCount <= 100 && 0 <= d.slotCount <= 100000 {
      assert CanonicalDay(rules, rules.products[r.venue], d, true);
    }
    var s := Inspect(rules, ReportPayload(r), r.venue, Dates(r.days), true).value;
    SlotsIgnoreCounts(SafeReport(rules, r, true).value.days, s.days);
  }

  /** A thinned report that fits and refers only to itself is left alone. */
  lemma ThinnedCanonical(rules: Rules, r: Report, r': Report)
    requires Canonical(rules, r, true) && Thinned(r, r')
    requires Total(SlotsOf(r'.days), rules.size) <= MAX_BYTES && SelfContained(r')
    ensures Canonical(rules, r', true)
  {
    ThinnedWellFormed(rules, r, r');
    var s, t := SlotsOf(r.days), SlotsOf(r'.days);
    FixedIff(t, rules.size);
    AdmitAll(t, MAX_BYTES, rules.size);
    if k :| 0 <= k < |t| && t[k].Some? && (Partial(t[k].value) || Admit(t, MAX_BYTES, rules.size)[k].None?) {
      assert s[k] == t[k];
    }
  }

  /** The reports of an encoding, each against the re-read report it comes from. */
  lemma EncodedParts(rules: Rules, rs: seq<Report>, i: nat)
    requires i < |Encode(rules, rs)|
    ensures |Encode(rules, rs)| == |Safe(rules, rs, true)| <= 2
    ensures Canonical(rules, Safe(rules, rs, true)[i], true)
    ensures Thinned(Safe(rules, rs, true)[i], Encode(rules, rs)[i])
    ensures Total(SlotsOf(Encode(rules, rs)[i].days), rules.size) <= MAX_BYTES
  {
    var safe := Safe(rules, rs, true);
    var slots := Limited(ReportSlots(safe), rules.size);
    SafeCanonical(rules, rs[i], true);
    LimitedIsFewer(ReportSlots(safe), rules.size);
    WithFewerThins(safe, slots, i);
    LimitedFits(ReportSlots(safe), rules.size);
    ReportSlotsOfWith(safe, slots);
    PartFits(Encode(rules, rs), i, rules.size);
  }

  // ----- Main results -----

  /** All the evidence in an encoding fits one budget, and every reuse in it is defined in it. */
  lemma EncodeFits(rules: Rules, rs: seq<Report>)
    ensures var slots := ReportSlots(Encode(rules, rs));
      && Total(slots, rules.size) <= 131072
      && forall i :: 0 <= i < |slots| && slots[i].Some? ==> !Unresolved(slots[i].value, Available(slots))
  {
    var all := ReportSlots(Safe(rules, rs, true));
    var slots := Limited(all, rules.size);
    ReportSlotsOfWith(Safe(rules, rs, true), slots);
    LimitedFits(all, rules.size);
    LimitIdempotent(all, rules.size);
    FixedIff(slots, rules.size);
  }

  /** An encoding whose reports refer only to themselves survives being encoded again. */
  lemma SelfContainedStays(rules: Rules, rs: seq<Report>)
    requires forall r :: r in Encode(rules, rs) ==> SelfContained(r)
    ensures Encode(rules, Encode(rules, rs)) == Encode(rules, rs)
  {
    var out := Encode(rules, rs);
    forall i | 0 <= i < |out| ensures Canonical(rules, out[i], true) {
      EncodedParts(rules, rs, i);
      assert out[i] in out;
      ThinnedCanonical(rules, Safe(rules, rs, true)[i], out[i]);
    }
    assert |out| <= 2 by { if out != [] { EncodedParts(rules, rs, 0); } }
    CanonicalListStays(rules, out, true);
    var safe := Safe(rules, rs, true);
    ReportSlotsOfWith(safe, Limited(ReportSlots(safe), rules.size));
    LimitIdempotent(ReportSlots(safe), rules.size);
    WithOwnReportSlots(out);
  }

  /** The part of an encoding that comes from one report cannot outlive its own closure. */
  lemma StaysSelfContained(rules: Rules, rs: seq<Report>, i: nat)
    requires Encode(rules, Encode(rules, rs)) == Encode(rules, rs) && i < |Encode(rules, rs)|
    ensures SelfContained(Encode(rules, rs)[i])
  {
    var out := Encode(rules, rs);
    EncodedParts(rules, rs, i);
    ThinnedWellFormed(rules, Safe(rules, rs, true)[i], out[i]);
    RereadSlots(rules, out[i]);
    EncodedParts(rules, out, i);
    var again := Safe(rules, out, true)[i];
    assert again == SafeReport(rules, out[i], true).value;
    ThinnedWellFormed(rules, again, out[i]);
    LimitedIsFewer(SlotsOf(out[i].days), rules.size);
    FewerBothWays(SlotsOf(again.days), SlotsOf(out[i].days));
    FixedIff(SlotsOf(out[i].days), rules.size);
  }

  /** The runner prints what the Pi printed exactly when no report leans on evidence of another. */
  lemma EncodeStableIff(rules: Rules, rs: seq<Report>)
    ensures Encode(rules, Encode(rules, rs)) == Encode(rules, rs)
       <==> forall r :: r in Encode(rules, rs) ==> SelfContained(r)
  {
    var out := Encode(rules, rs);
    if Encode(rules, out) == out {
      forall r | r in out ensures SelfContained(r) {
        var i :| 0 <= i < |out| && out[i] == r;
        StaysSelfContained(rules, rs, i);
      }
    } else if forall r :: r in out ==> SelfContained(r) {
      SelfContainedStays(rules, rs);
    }
  }

  /** With one report the joint pass finds nothing left to do. */
  lemma SingleEncode(rules: Rules, rs: seq<Report>)
    requires |rs| <= 1
    ensures Encode(rules, rs) == Safe(rules, rs, true)
  {
    var safe := Safe(rules, rs, true);
    if safe == [] {
      assert Encode(rules, rs) == [];
    } else {
      SafeCanonical(rules, rs[0], true);
      assert safe[1..] == [];
      assert ReportSlots(safe) == SlotsOf(safe[0].days) + ReportSlots(safe[1..]) == SlotsOf(safe[0].days);
      WithOwnReportSlots(safe);
    }
  }

  /** A single inspection survives any number of encodings unchanged. */
  lemma SingleReportStable(rules: Rules, rs: seq<Report>)
    requires |rs| <= 1
    ensures Encode(rules, Encode(rules, rs)) == Encode(rules, rs) == Safe(rules, rs, true)
  {
    SingleEncode(rules, rs);
    SingleEncode(rules, Safe(rules, rs, true));
    SafeIdempotent(rules, rs, true);
  }

  // ----- Two reports that lean on each other, under any rules -----

  /** A day whose one group carries `e`. */
  predicate Carries(rules: Rules, venue: string, d: Day, e: Evidence) {
    && venue in rules.products && CanonicalDay(rules, rules.products[venue], d, true)
    && |d.groups| == 1 && d.groups[0].evidence == Some(e)
  }

  /** `big` stands alone, `small` reuses a source that `big` defines; they fit together, and
      `big` does not fit twice. */
  ghost predicate Leans(rules: Rules, small: Evidence, big: Evidence) {
    && (forall r :: Needs(big, r) ==> Defines(big, r))
    && (forall r :: Needs(small, r) ==> Defines(big, r) || Defines(small, r))
    && (exists r :: Needs(small, r) && !Defines(small, r))
    && rules.size(big) + rules.size(small) <= MAX_BYTES < 2 * rules.size(big) + rules.size(small)
  }

  function ReportWith(venue: string, days: seq<Day>, partial: bool): Report {
    Report(venue, true, days, map[], Some(Flags(partial, false)))
  }

  lemma DefinedIsAvailable(slots: Slots, j: nat, r: Ref)
    requires j < |slots| && slots[j].Some? && Defines(slots[j].value, r)
    ensures r in Available(slots)
  {
    var m :| m in slots[j].value.methods && !m.reused && RefOf(m) == r;
  }

  lemma ResolvedBy(slots: Slots, j: nat, small: Evidence, big: Evidence)
    requires forall i :: 0 <= i < |slots| ==> slots[i] in {None, Some(small), Some(big)}
    requires j < |slots| && slots[j] == Some(big)
    requires forall r :: Needs(big, r) ==> Defines(big, r)
    requires forall r :: Needs(small, r) ==> Defines(big, r) || Defines(small, r)
    ensures forall i :: 0 <= i < |slots| && slots[i].Some? ==> !Unresolved(slots[i].value, Available(slots))
  {
    forall i, m | 0 <= i < |slots| && slots[i].Some? && m in slots[i].value.methods && m.reused
      ensures RefOf(m) in Available(slots)
    {
      assert Needs(slots[i].value, RefOf(m));
      DefinedIsAvailable(slots, if Defines(big, RefOf(m)) then j else i, RefOf(m));
    }
  }

  /** Without `big` the reuse has nothing to refer to. */
  lemma LonelyReuse(small: Evidence)
    requires exists r :: Needs(small, r) && !Defines(small, r)
    ensures Unresolved(small, Available([Some(small), None]))
  {
    var slots := [Some(small), None];
    var r :| Needs(small, r) && !Defines(small, r);
    assert r !in Available(slots);
  }

  lemma FrontSize(e: Evidence, slots: Slots, size: Evidence -> nat)
    ensures Total([Some(e)] + slots, size) == size(e) + Total(slots, size)
  {
    assert ([Some(e)] + slots)[1..] == slots;
  }

  /** The budget drops the third entry, and the closure keeps the other two. */
  lemma JointlyLimited(rules: Rules, small: Evidence, big: Evidence)
    requires Leans(rules, small, big)
    ensures Limited([Some(big)] + [Some(small), Some(big)], rules.size) == [Some(big)] + [Some(small), None]
  {
    var slots, a := [Some(big), Some(small), Some(big)], [Some(big), Some(small), None];
    var rest := MAX_BYTES - rules.size(big);
    var left := rest - rules.size(small);
    assert slots[1..] == [Some(small), Some(big)] && slots[1..][1..] == [Some(big)];
    assert Admit([Some(big)], left, rules.size) == [None];
    assert Admit([Some(small), Some(big)], rest, rules.size) == [Some(small), None];
    assert Admit(slots, MAX_BYTES, rules.size) == a;
    ResolvedBy(a, 0, small, big);
    ResolvedIsClosure(a, a);
    assert [Some(big)] + [Some(small), Some(big)] == slots && [Some(big)] + [Some(small), None] == a;
  }

  lemma DaySlots(d: Day, ds: seq<Day>)
    requires |d.groups| == 1
    ensures SlotsOf([d] + ds) == [d.groups[0].evidence] + SlotsOf(ds)
  {
    assert ([d] + ds)[1..] == ds;
    assert GroupSlots(d.groups) == [d.groups[0].evidence];
  }

  /** A report whose evidence fits and refers to itself, and which owns up to partial entries. */
  lemma FittingReport(rules: Rules, venue: string, days: seq<Day>, partial: bool)
    requires venue in rules.products && 1 <= |days| <= 7
    requires forall d :: d in days ==> CanonicalDay(rules, rules.products[venue], d, true)
    requires Total(SlotsOf(days), rules.size) <= MAX_BYTES && SelfContained(ReportWith(venue, days, partial))
    requires forall i :: 0 <= i < |SlotsOf(days)| && SlotsOf(days)[i].Some? ==>
               Partial(SlotsOf(days)[i].value) ==> partial
    ensures Canonical(rules, ReportWith(venue, days, partial), true)
  {
    FixedIff(SlotsOf(days), rules.size);
    AdmitAll(SlotsOf(days), MAX_BYTES, rules.size);
  }

  lemma BigReport(rules: Rules, venue: string, big: Day, b: Evidence, partial: bool)
    requires Carries(rules, venue, big, b) && rules.size(b) <= MAX_BYTES && (Partial(b) ==> partial)
    requires forall r :: Needs(b, r) ==> Defines(b, r)
    ensures SlotsOf([big]) == [Some(b)] && Canonical(rules, ReportWith(venue, [big], partial), true)
  {
    DaySlots(big, []);
    assert [big] + [] == [big] && [Some(b)] + [] == [Some(b)];
    FrontSize(b, [], rules.size);
    ResolvedBy([Some(b)], 0, b, b);
    FittingReport(rules, venue, [big], partial);
  }

  lemma LeaningReport(rules: Rules, venue: string, small: Day, big: Day, u: Evidence, b: Evidence, partial: bool)
    requires Carries(rules, venue, small, u) && Carries(rules, venue, big, b) && Leans(rules, u, b)
    requires Partial(u) || Partial(b) ==> partial
    ensures SlotsOf([small, big]) == [Some(u), Some(b)]
    ensures Canonical(rules, ReportWith(venue, [small, big], partial), true)
  {
    BigReport(rules, venue, big, b, partial);
    DaySlots(small, [big]);
    assert [small] + [big] == [small, big] && [Some(u)] + [Some(b)] == [Some(u), Some(b)];
    FrontSize(u, [Some(b)], rules.size);
    FrontSize(b, [], rules.size);
    assert [Some(b)] + [] == [Some(b)];
    ResolvedBy([Some(u), Some(b)], 1, u, b);
    FittingReport(rules, venue, [small, big], partial);
  }

  /** Two reports taken apart: their slots, and what is left of the second. */
  lemma SecondPart(a: Report, b: Report, first: Slots, second: Slots)
    requires |first| == |SlotsOf(a.days)| && |second| == |SlotsOf(b.days)|
    ensures ReportSlots([a, b]) == SlotsOf(a.days) + SlotsOf(b.days)
    ensures SlotsOf(WithReportSlots([a, b], first + second)[1].days) == second
  {
    var kept := first + second;
    assert [a, b][1..] == [b] && [b][1..] == [];
    assert ReportSlots([b]) == SlotsOf(b.days) + [];
    assert kept[|first|..] == second && second[..|second|] == second;
    SlotsOfWithSlots(b.days, second);
  }

  lemma EncodeOfSafe(rules: Rules, rs: seq<Report>, kept: Slots)
    requires Safe(rules, rs, true) == rs && Limited(ReportSlots(rs), rules.size) == kept
    ensures Encode(rules, rs) == WithReportSlots(rs, kept)
  {}

  function LeaningPair(venue: string, small: Day, big: Day, partial: bool): seq<Report> {
    [ReportWith(venue, [big], partial), ReportWith(venue, [small, big], partial)]
  }

  lemma PairIsSafe(rules: Rules, venue: string, small: Day, big: Day, u: Evidence, b: Evidence)
    requires Carries(rules, venue, small, u) && Carries(rules, venue, big, b) && Leans(rules, u, b)
    ensures var rs := LeaningPair(venue, small, big, Partial(u) || Partial(b));
            && Safe(rules, rs, true) == rs
            && SlotsOf(rs[0].days) == [Some(b)] && SlotsOf(rs[1].days) == [Some(u), Some(b)]
  {
    var partial := Partial(u) || Partial(b);
    BigReport(rules, venue, big, b, partial);
    LeaningReport(rules, venue, small, big, u, b, partial);
    CanonicalListStays(rules, LeaningPair(venue, small, big, partial), true);
  }

  lemma NotSelfContained(rules: Rules, rs: seq<Report>, i: nat, u: Evidence)
    requires i < |Encode(rules, rs)| && SlotsOf(Encode(rules, rs)[i].days) == [Some(u), None]
    requires Unresolved(u, Available([Some(u), None]))
    ensures Encode(rules, Encode(rules, rs)) != Encode(rules, rs)
  {
    var out := Encode(rules, rs);
    assert SlotsOf(out[i].days)[0] == Some(u);
    assert !SelfContained(out[i]) && out[i] in out;
    EncodeStableIff(rules, rs);
  }

  /** Two accepted reports lose evidence when the runner prints again what the Pi has printed: for
      every measure, hash and product table, whenever one definition fits beside its reuse and not
      a second time. */
  lemma TwoReportsLose(rules: Rules, venue: string, small: Day, big: Day, u: Evidence, b: Evidence)
    requires Carries(rules, venue, small, u) && Carries(rules, venue, big, b) && Leans(rules, u, b)
    ensures var rs := LeaningPair(venue, small, big, Partial(u) || Partial(b));
            && Safe(rules, rs, true) == rs
            && Encode(rules, Encode(rules, rs)) != Encode(rules, rs)
  {
    var rs := LeaningPair(venue, small, big, Partial(u) || Partial(b));
    PairIsSafe(rules, venue, small, big, u, b);
    JointlyLimited(rules, u, b);
    SecondPart(rs[0], rs[1], [Some(b)], [Some(u), None]);
    EncodeOfSafe(rules, rs, [Some(b)] + [Some(u), None]);
    LonelyReuse(u);
    NotSelfContained(rules, rs, 1, u);
  }

  // ----- Such a pair exists, with an injective hash and sizes in source bytes -----

  function SourceBytes(ms: seq<Method>): nat {
    if ms == [] then 0 else SourceBytes(ms[..|ms| - 1]) + ms[|ms| - 1].emittedBytes
  }

  const BY_BYTES := Rules(map["dsh" := map["" := Product("100000", "")]],
                          _ => true, _ => true, (_, _) => true, (_, _) => true, _ => true, _ => true, _ => true,
                          (s: string) => |s|, (s: string) => s, _ => true, {"m"},
                          (e: Evidence) => SourceBytes(e.methods))

  const TEXT: string := seq(4096, _ => 'x')

  function Sourced(methods: seq<Method>): Evidence {
    Evidence(1, 1, 0, true, false, false, [Component(0, None, 0, map["m" := true])], methods, [])
  }

  const DEFINITION := Method([0], "m", "method", TEXT, TEXT, 4096, 4096, false, false, false)
  const REUSE := Method([0], "m", "method", TEXT, "", 4096, 0, false, false, true)
  const BIG := Sourced(seq(20, _ => DEFINITION))
  const SMALL := Sourced([REUSE])

  function DayWith(e: Evidence): Day {
    Day("d", [Group("", "100000", "d", "d", ["c"], 1, "p", HOST, SALES, 1, map["platforms" := 1, "orders" := 1],
                    FRESHNESS, Some(e))], 0, 0)
  }

  lemma SourcedOk(methods: seq<Method>)
    requires |methods| <= 24 && forall m :: m in methods ==> m == DEFINITION || m == REUSE
    ensures SafeEvidence(BY_BYTES, Sourced(methods), 1) == Some(Sourced(methods))
  {
    var e := Sourced(methods);
    assert Clean(BY_BYTES, e).components == e.components by {
      assert CleanComponent(BY_BYTES, e.components[0]) == e.components[0];
    }
    assert 0 in Indices(e) by { assert e.components[0] in e.components; }
    assert |TEXT| == 4096 && TEXT != "";
  }

  lemma DayOk(methods: seq<Method>)
    requires |methods| <= 24 && forall m :: m in methods ==> m == DEFINITION || m == REUSE
    ensures Carries(BY_BYTES, "dsh", DayWith(Sourced(methods)), Sourced(methods))
  {
    var d := DayWith(Sourced(methods));
    var products := BY_BYTES.products["dsh"];
    SourcedOk(methods);
    assert Ids(products) == {"100000"} by { assert "" in products && products[""].id == "100000"; }
    assert GroupIds(d.groups) == {"100000"} by { assert d.groups[0].salesItem == "100000"; }
    assert GroupKeys(d.groups) == {""} by { assert d.groups[0].key == ""; }
    assert Pick(d.groups[0].versions, VERSION_KEYS) == d.groups[0].versions;
  }

  lemma {:induction false} SameBytes(ms: seq<Method>)
    requires forall i :: 0 <= i < |ms| ==> ms[i] == DEFINITION
    ensures SourceBytes(ms) == 4096 * |ms|
  {
    if ms != [] { SameBytes(ms[..|ms| - 1]); }
  }

  /** 20 definitions of 4096 bytes each fit once, and not twice. */
  lemma LeaningPairExists()
    ensures Carries(BY_BYTES, "dsh", DayWith(SMALL), SMALL) && Carries(BY_BYTES, "dsh", DayWith(BIG), BIG)
    ensures Leans(BY_BYTES, SMALL, BIG)
  {
    DayOk([REUSE]);
    DayOk(seq(20, _ => DEFINITION));
    SameBytes(BIG.methods);
    assert SourceBytes(SMALL.methods) == 0 by { assert SMALL.methods[..0] == []; }
    assert BIG.methods[0] in BIG.methods && Defines(BIG, RefOf(DEFINITION));
    assert REUSE in SMALL.methods && Needs(SMALL, RefOf(REUSE));
    assert RefOf(REUSE) == RefOf(DEFINITION);
  }

  /** The evidence part of `encode_report`: the two flags beside the inspections tell whether
      anything was cut short or rejected, here, in a report, or already in the incoming flags. */
  method EncodeInspections(rules: Rules, rs: seq<Report>, wasTruncated: bool, wasRejected: bool)
    returns (out: seq<Report>, truncated: bool, rejected: bool)
    ensures out == Encode(rules, rs)
    ensures var safe := Safe(rules, rs, true);
      && (truncated <==>
            || wasTruncated || (exists r :: r in safe && Claimed(r).truncated)
            || Truncates(ReportSlots(safe), rules.size))
      && (rejected <==>
            || wasRejected || (exists r :: r in safe && Claimed(r).rejected)
            || Unresolvable(ReportSlots(safe), rules.size))
  {
    var safe := SafeInspections(rules, rs, true);
    var found := ReportSlots(safe);
    var slots := new Option<Evidence>[|found|](i requires 0 <= i < |found| => found[i]);
    assert slots[..] == found;
    truncated, rejected := LimitSourceEvidence(slots, rules.size,
      exists r :: r in safe && Claimed(r).truncated, exists r :: r in safe && Claimed(r).rejected);
    truncated, rejected := truncated || wasTruncated, rejected || wasRejected;
    out := WithReportSlots(safe, slots[..]);
  }
}
