/** The two validators of the Pi installer (`inspect_evidence` and `safe_inspections` in
    pi_host/dsh_ydmap/install.py). The first turns a scraper payload into a report; the second
    re-reads reports before they are printed. Payloads are typed records; regular expressions,
    hashing and JSON size are arbitrary functions in `Rules`. */
module Inspection {
  import opened Effects
  import opened Evidence

  datatype Product = Product(id: string, caption: string)

  /** Diagnostic values are flags or short texts. */
  datatype Diag = Flag(on: bool) | Text(text: string)

  datatype Rules = Rules(
    products: map<string, map<string, Product>>,
    isoDate: string -> bool,
    publicText: string -> bool,
    labelIn: (string, string) -> bool,
    diagnosticOk: (string, Diag) -> bool,
    componentName: string -> bool,
    hex64: string -> bool,
    safeSource: string -> bool,
    bytes: string -> nat,
    sha256: string -> string,
    sampleOk: CellSample -> bool,
    rendererMethods: set<string>,
    size: Evidence -> nat)

  const HOST := "wxsports.ydmap.cn"
  const SALES := "100220"
  const FRESHNESS := "both_source_arrays_replaced_after_date_selection"
  const VERSION_KEYS: set<string> := {"platforms", "orders"}
  const DIAGNOSTIC_KEYS: set<string> := {
    "verificationAttempted", "verificationOutcome", "verificationControl", "browserVersion", "driverVersion",
    "driverMajorMatchesBrowser", "userAgentVersionMatchesBrowser", "userAgentOverrideEnabled",
    "profileResetBeforeScrape"}

  /** The same shape in a payload and in a report. */
  datatype Group = Group(key: string, salesItem: string, sourceDate: string, selectedDate: string,
                         courtNames: seq<string>, cellCount: int, productName: string, host: string, salesId: string,
                         generation: int, versions: map<string, int>, freshness: string, evidence: Option<Evidence>)

  datatype Clock = Clock(hours: nat, minutes: nat)
  datatype Range = Range(start: Clock, end: Clock)
  datatype Court = Court(name: string, ranges: seq<Range>)

  datatype PayloadDay = PayloadDay(date: string, groups: seq<Group>, courts: seq<Court>)
  datatype Payload = Payload(ok: bool, captcha: bool, schema: int, venue: string, days: seq<PayloadDay>,
                             diagnostics: map<string, Diag>)

  datatype Flags = Flags(truncated: bool, rejected: bool)
  datatype Day = Day(date: string, groups: seq<Group>, courtCount: int, slotCount: int)
  datatype Report = Report(venue: string, verified: bool, days: seq<Day>, diagnostics: map<string, Diag>,
                           flags: Option<Flags>)

  // ----- Single checks -----

  predicate PublicNames(rules: Rules, names: seq<string>) {
    1 <= |names| <= 100 && forall n :: n in names ==> rules.publicText(n)
  }

  predicate ClockOk(c: Clock, end: bool) {
    (c.hours <= 23 && c.minutes <= 59) || (end && c == Clock(24, 0))
  }

  predicate Before(a: Clock, b: Clock) {
    a.hours < b.hours || (a.hours == b.hours && a.minutes < b.minutes)
  }

  predicate RangeOk(r: Range) {
    ClockOk(r.start, false) && ClockOk(r.end, true) && Before(r.start, r.end)
  }

  predicate CourtOk(rules: Rules, c: Court, known: set<string>) {
    && c.name in known && rules.publicText(c.name)
    && |c.ranges| <= 1000 && forall r :: r in c.ranges ==> RangeOk(r)
  }

  predicate CourtsOk(rules: Rules, courts: seq<Court>, known: set<string>) {
    |courts| <= 100 && forall c :: c in courts ==> CourtOk(rules, c, known)
  }

  function SlotTotal(courts: seq<Court>): nat {
    if courts == [] then 0 else SlotTotal(courts[..|courts| - 1]) + |courts[|courts| - 1].ranges|
  }

  function Minutes(c: Clock): nat {
    60 * c.hours + c.minutes
  }

  /** An accepted range is a non-empty stretch of one day. */
  lemma RangeIsProper(r: Range)
    ensures RangeOk(r) <==>
      && r.start.minutes < 60 && r.end.minutes < 60
      && Minutes(r.start) < Minutes(r.end) <= 24 * 60
  {}

  /** The slots of a day: each court's position with the position of one of its ranges. */
  function SlotPairs(courts: seq<Court>): set<(nat, nat)> {
    set i: nat, j: nat | i < |courts| && j < |courts[i].ranges| :: (i, j)
  }

  lemma {:induction false} PairsOfOne(i: nat, n: nat)
    ensures |set j: nat | j < n :: (i, j)| == n
  {
    if n > 0 {
      PairsOfOne(i, n - 1);
      assert (set j: nat | j < n :: (i, j)) == (set j: nat | j < n - 1 :: (i, j)) + {(i, n - 1)};
    }
  }

  /** The total counts every range of every court once. */
  lemma {:induction false} SlotTotalCounts(courts: seq<Court>)
    ensures SlotTotal(courts) == |SlotPairs(courts)|
  {
    if courts == [] {
      assert SlotPairs(courts) == {};
    } else {
      var last := |courts| - 1;
      var front, rest := SlotPairs(courts[..last]), set j: nat | j < |courts[last].ranges| :: (last, j);
      SlotTotalCounts(courts[..last]);
      PairsOfOne(last, |courts[last].ranges|);
      assert SlotPairs(courts) == front + rest && front !! rest;
    }
  }

  /** `validate_slots`: the counts it returns always fit the bounds the second validator demands. */
  method ValidateSlots(rules: Rules, courts: seq<Court>, known: set<string>) returns (r: Option<(nat, nat)>)
    ensures r.Some? <==> CourtsOk(rules, courts, known)
    ensures r.Some? ==> r.value == (|courts|, SlotTotal(courts)) && r.value.0 <= 100 && r.value.1 <= 100000
  {
    if |courts| > 100 { return None; }
    var total := 0;
    for i := 0 to |courts|
      invariant forall k :: 0 <= k < i ==> CourtOk(rules, courts[k], known)
      invariant total == SlotTotal(courts[..i]) && total <= 1000 * i
    {
      var c := courts[i];
      assert c in courts;
      if c.name !in known || !rules.publicText(c.name) || |c.ranges| > 1000 { return None; }
      for j := 0 to |c.ranges|
        invariant total == SlotTotal(courts[..i]) + j
        invariant forall k :: 0 <= k < j ==> RangeOk(c.ranges[k])
      {
        if !RangeOk(c.ranges[j]) {
          assert c.ranges[j] in c.ranges;
          return None;
        }
        total := total + 1;
      }
      assert courts[..i + 1][..i] == courts[..i];
    }
    assert courts[..|courts|] == courts;
    r := Some((|courts|, total));
  }

  function Pick<V>(m: map<string, V>, keys: set<string>): map<string, V> {
    map k | k in m && k in keys :: m[k]
  }

  // ----- Optional evidence -----

  function CleanComponent(rules: Rules, c: Component): Component {
    c.(methods := Pick(c.methods, rules.rendererMethods))
  }

  function Clean(rules: Rules, e: Evidence): Evidence {
    e.(components := seq(|e.components|, i requires 0 <= i < |e.components| => CleanComponent(rules, e.components[i])))
  }

  predicate ComponentOk(rules: Rules, c: Component, cells: int) {
    && c.index <= 15 && c.matchedCells <= cells
    && (c.name.Some? ==> rules.componentName(c.name.value))
    && rules.rendererMethods <= c.methods.Keys
  }

  predicate MethodOk(rules: Rules, m: Method, indices: set<nat>, sourceTruncated: bool) {
    && m.name in rules.rendererMethods && (m.kind == "method" || m.kind == "computed")
    && 1 <= |m.refs| <= 16 && (forall r :: r in m.refs ==> r in indices)
    && (forall i, j :: 0 <= i < j < |m.refs| ==> m.refs[i] != m.refs[j])
    && rules.hex64(m.sha) && rules.safeSource(m.source)
    && m.originalBytes <= 1000000 && m.emittedBytes <= 4096 && m.emittedBytes == rules.bytes(m.source)
    && (m.truncated ==> sourceTruncated)
    && (if m.reused then m.source == "" && m.emittedBytes == 0
        else (m.source != "" || m.truncated) && rules.sha256(m.source) == m.sha)
  }

  function Indices(e: Evidence): set<nat> {
    set c | c in e.components :: c.index
  }

  predicate EvidenceOk(rules: Rules, e: Evidence, cells: int) {
    && e.sourceCells <= 100000 && e.matchedCells <= 100000 && e.unmatchedCells <= 100000
    && e.sourceCells == cells && e.matchedCells + e.unmatchedCells == cells
    && (e.coverageComplete ==> e.unmatchedCells == 0 && !e.scanTruncated)
    && |e.components| <= 16 && |e.methods| <= 24 && |e.samples| <= 2
    && (forall c :: c in e.components ==> ComponentOk(rules, c, cells))
    && (forall i, j :: 0 <= i < j < |e.components| ==> e.components[i].index != e.components[j].index)
    && (forall m :: m in e.methods ==> MethodOk(rules, m, Indices(e), e.sourceTruncated))
    && (forall s :: s in e.samples ==> rules.sampleOk(s))
  }

  /** `safe_source_evidence`: keep the diagnostic facts or nothing. */
  function SafeEvidence(rules: Rules, e: Evidence, cells: int): Option<Evidence> {
    if EvidenceOk(rules, e, cells) then Some(Clean(rules, e)) else None
  }

  lemma SafeEvidenceStable(rules: Rules, e: Evidence, cells: int)
    requires EvidenceOk(rules, e, cells)
    ensures SafeEvidence(rules, Clean(rules, e), cells) == Some(Clean(rules, e))
  {
    var d := Clean(rules, e);
    forall c | c in d.components ensures ComponentOk(rules, c, cells) && CleanComponent(rules, c) == c {
      var i :| 0 <= i < |d.components| && d.components[i] == c;
      assert ComponentOk(rules, e.components[i], cells);
    }
    assert Indices(d) == Indices(e) by {
      forall i | 0 <= i < |e.components| ensures d.components[i].index == e.components[i].index {}
      assert forall x :: x in Indices(e) ==> exists i :: 0 <= i < |e.components| && d.components[i].index == x;
    }
    assert Clean(rules, d).components == d.components;
  }

  // ----- Groups and days -----

  predicate GroupOk(rules: Rules, products: map<string, Product>, date: string, g: Group) {
    && g.sourceDate == date && g.selectedDate == date
    && 0 < g.cellCount <= 100000
    && g.key in products && g.salesItem == products[g.key].id
    && rules.publicText(g.productName)
    && (products[g.key].caption == "" || rules.labelIn(products[g.key].caption, g.productName))
    && g.host == HOST && g.salesId == SALES && g.freshness == FRESHNESS
    && 1 <= g.generation <= 1000000
    && (forall k :: k in VERSION_KEYS ==> k in g.versions && 1 <= g.versions[k] <= 1000000)
    && PublicNames(rules, g.courtNames)
  }

  function CleanGroup(rules: Rules, g: Group, evidence: bool): Group {
    g.(versions := Pick(g.versions, VERSION_KEYS),
       evidence := if evidence && g.evidence.Some? then SafeEvidence(rules, g.evidence.value, g.cellCount) else None)
  }

  function CleanGroups(rules: Rules, gs: seq<Group>, evidence: bool): seq<Group> {
    seq(|gs|, i requires 0 <= i < |gs| => CleanGroup(rules, gs[i], evidence))
  }

  predicate Rejects(rules: Rules, g: Group, evidence: bool) {
    evidence && g.evidence.Some? && !EvidenceOk(rules, g.evidence.value, g.cellCount)
  }

  function Ids(products: map<string, Product>): set<string> {
    set k | k in products :: products[k].id
  }

  function GroupIds(gs: seq<Group>): set<string> {
    set j | 0 <= j < |gs| :: gs[j].salesItem
  }

  function GroupKeys(gs: seq<Group>): set<string> {
    set j | 0 <= j < |gs| :: gs[j].key
  }

  predicate GroupsOk(rules: Rules, products: map<string, Product>, date: string, gs: seq<Group>) {
    && |gs| == |Ids(products)|
    && GroupIds(gs) == Ids(products)
    && GroupKeys(gs) == products.Keys
    && forall g :: g in gs ==> GroupOk(rules, products, date, g)
  }

  function KnownNames(gs: seq<Group>): set<string> {
    set g, n | g in gs && n in g.courtNames :: n
  }

  predicate PayloadDayOk(rules: Rules, products: map<string, Product>, d: PayloadDay) {
    GroupsOk(rules, products, d.date, d.groups) && CourtsOk(rules, d.courts, KnownNames(d.groups))
  }

  function CleanDay(rules: Rules, d: PayloadDay, evidence: bool): Day {
    Day(d.date, CleanGroups(rules, d.groups, evidence), |d.courts|, SlotTotal(d.courts))
  }

  function CleanDays(rules: Rules, ds: seq<PayloadDay>, evidence: bool): seq<Day> {
    seq(|ds|, i requires 0 <= i < |ds| => CleanDay(rules, ds[i], evidence))
  }

  // ----- Reading order of the evidence in a report -----

  function GroupSlots(gs: seq<Group>): Slots {
    seq(|gs|, i requires 0 <= i < |gs| => gs[i].evidence)
  }

  function SlotsOf(ds: seq<Day>): Slots {
    if ds == [] then [] else GroupSlots(ds[0].groups) + SlotsOf(ds[1..])
  }

  function WithGroupSlots(gs: seq<Group>, slots: Slots): seq<Group>
    requires |slots| == |gs|
  {
    seq(|gs|, i requires 0 <= i < |gs| => gs[i].(evidence := slots[i]))
  }

  /** The same days with the evidence replaced, in reading order. */
  function WithSlots(ds: seq<Day>, slots: Slots): (r: seq<Day>)
    requires |slots| == |SlotsOf(ds)|
    ensures |r| == |ds|
  {
    if ds == [] then []
    else
      var n := |ds[0].groups|;
      [ds[0].(groups := WithGroupSlots(ds[0].groups, slots[..n]))] + WithSlots(ds[1..], slots[n..])
  }

  lemma SlotsCons(d: Day, ds: seq<Day>)
    ensures SlotsOf([d] + ds) == GroupSlots(d.groups) + SlotsOf(ds)
  {
    assert ([d] + ds)[1..] == ds;
  }

  lemma GroupSlotsOfWith(gs: seq<Group>, slots: Slots)
    requires |slots| == |gs|
    ensures GroupSlots(WithGroupSlots(gs, slots)) == slots
  {}

  lemma {:induction false} SlotsOfWithSlots(ds: seq<Day>, slots: Slots)
    requires |slots| == |SlotsOf(ds)|
    ensures SlotsOf(WithSlots(ds, slots)) == slots
  {
    if ds != [] {
      var n := |ds[0].groups|;
      var head := ds[0].(groups := WithGroupSlots(ds[0].groups, slots[..n]));
      SlotsOfWithSlots(ds[1..], slots[n..]);
      SlotsCons(head, WithSlots(ds[1..], slots[n..]));
      GroupSlotsOfWith(ds[0].groups, slots[..n]);
      assert slots[..n] + slots[n..] == slots;
    }
  }

  lemma {:induction false} WithOwnSlots(ds: seq<Day>)
    ensures WithSlots(ds, SlotsOf(ds)) == ds
  {
    if ds != [] {
      var n := |ds[0].groups|;
      WithOwnSlots(ds[1..]);
      assert SlotsOf(ds)[..n] == GroupSlots(ds[0].groups) && SlotsOf(ds)[n..] == SlotsOf(ds[1..]);
      assert WithGroupSlots(ds[0].groups, GroupSlots(ds[0].groups)) == ds[0].groups;
    }
  }

  // ----- The two validators -----

  predicate PayloadOk(rules: Rules, p: Payload, venue: string, dates: seq<string>) {
    && venue in rules.products && p.ok && !p.captcha && p.schema == 2 && p.venue == venue
    && 1 <= |p.days| <= 7 && |dates| == |p.days|
    && (forall i :: 0 <= i < |dates| ==> p.days[i].date == dates[i] && rules.isoDate(dates[i]))
    && (forall d :: d in p.days ==> PayloadDayOk(rules, rules.products[venue], d))
  }

  function CleanDiagnostics(rules: Rules, d: map<string, Diag>): map<string, Diag> {
    map k | k in d && k in DIAGNOSTIC_KEYS && rules.diagnosticOk(k, d[k]) :: d[k]
  }

  predicate AnyRejected(rules: Rules, ds: seq<PayloadDay>, evidence: bool) {
    exists i, j :: 0 <= i < |ds| && 0 <= j < |ds[i].groups| && Rejects(rules, ds[i].groups[j], evidence)
  }

  ghost function Bounded(ds: seq<Day>, size: Evidence -> nat): seq<Day> {
    WithSlots(ds, Limited(SlotsOf(ds), size))
  }

  ghost predicate Unresolvable(slots: Slots, size: Evidence -> nat) {
    Limited(slots, size) != Admit(slots, MAX_BYTES, size)
  }

  /** What `inspect_evidence` returns; `None` is any of its failures. */
  ghost function Inspect(rules: Rules, p: Payload, venue: string, dates: seq<string>, evidence: bool): Option<Report> {
    if !PayloadOk(rules, p, venue, dates) then None
    else
      var days := CleanDays(rules, p.days, evidence);
      if !evidence then Some(Report(venue, true, days, map[], None))
      else Some(Report(venue, true, Bounded(days, rules.size), CleanDiagnostics(rules, p.diagnostics),
                       Some(Flags(Truncates(SlotsOf(days), rules.size),
                                  AnyRejected(rules, p.days, true) || Unresolvable(SlotsOf(days), rules.size)))))
  }

  function Reread(ds: seq<Day>): seq<PayloadDay> {
    seq(|ds|, i requires 0 <= i < |ds| => PayloadDay(ds[i].date, ds[i].groups, []))
  }

  function Dates(ds: seq<Day>): seq<string> {
    seq(|ds|, i requires 0 <= i < |ds| => ds[i].date)
  }

  function WithCounts(ds: seq<Day>, counts: seq<Day>): seq<Day>
    requires |ds| == |counts|
  {
    seq(|ds|, i requires 0 <= i < |ds| =>
      ds[i].(courtCount := counts[i].courtCount, slotCount := counts[i].slotCount))
  }

  predicate CountsOk(ds: seq<Day>) {
    forall d :: d in ds ==> 0 <= d.courtCount <= 100 && 0 <= d.slotCount <= 100000
  }

  function ReportPayload(r: Report): Payload {
    Payload(true, false, 2, r.venue, Reread(r.days), Pick(r.diagnostics, DIAGNOSTIC_KEYS))
  }

  function Claimed(r: Report): Flags {
    if r.flags.Some? then r.flags.value else Flags(false, false)
  }

  /** One report through `safe_inspections`. */
  ghost function SafeReport(rules: Rules, r: Report, evidence: bool): Option<Report> {
    if !r.verified || r.venue !in rules.products || !(1 <= |r.days| <= 7) then None
    else match Inspect(rules, ReportPayload(r), r.venue, Dates(r.days), evidence)
      case None => None
      case Some(s) =>
        if !CountsOk(r.days) then None
        else Some(s.(days := WithCounts(s.days, r.days),
                     flags := if evidence then Some(Flags(Claimed(s).truncated || Claimed(r).truncated,
                                                          Claimed(s).rejected || Claimed(r).rejected)) else s.flags))
  }

  /** `safe_inspections`: all reports pass, or nothing is shown. */
  ghost function Safe(rules: Rules, rs: seq<Report>, evidence: bool): seq<Report> {
    if |rs| > 2 || (exists i :: 0 <= i < |rs| && SafeReport(rules, rs[i], evidence).None?) then []
    else seq(|rs|, i requires 0 <= i < |rs| && SafeReport(rules, rs[i], evidence).Some? =>
               SafeReport(rules, rs[i], evidence).value)
  }

  // ----- Reports that the second validator leaves alone -----

  predicate CanonicalGroup(rules: Rules, g: Group, evidence: bool) {
    CleanGroup(rules, g, evidence) == g && !Rejects(rules, g, evidence)
  }

  predicate CanonicalDay(rules: Rules, products: map<string, Product>, d: Day, evidence: bool) {
    && rules.isoDate(d.date) && GroupsOk(rules, products, d.date, d.groups)
    && (forall g :: g in d.groups ==> CanonicalGroup(rules, g, evidence))
    && 0 <= d.courtCount <= 100 && 0 <= d.slotCount <= 100000
  }

  predicate WellFormed(rules: Rules, r: Report, evidence: bool) {
    && r.verified && r.venue in rules.products && 1 <= |r.days| <= 7
    && forall d :: d in r.days ==> CanonicalDay(rules, rules.products[r.venue], d, evidence)
  }

  ghost predicate Canonical(rules: Rules, r: Report, evidence: bool) {
    && WellFormed(rules, r, evidence)
    && (if evidence then
          && CleanDiagnostics(rules, r.diagnostics) == r.diagnostics
          && Limited(SlotsOf(r.days), rules.size) == SlotsOf(r.days)
          && r.flags.Some? && (Truncates(SlotsOf(r.days), rules.size) ==> r.flags.value.truncated)
        else r.diagnostics == map[] && r.flags == None)
  }

  /** Same day, some evidence gone. */
  predicate Dropped(d: Day, d': Day) {
    && d'.date == d.date && d'.courtCount == d.courtCount && d'.slotCount == d.slotCount
    && |d'.groups| == |d.groups|
    && forall j :: 0 <= j < |d.groups| ==> d'.groups[j] == d.groups[j] || d'.groups[j] == d.groups[j].(evidence := None)
  }

  lemma {:induction false} WithSlotsDrops(ds: seq<Day>, slots: Slots)
    requires |slots| == |SlotsOf(ds)|
    requires forall k :: 0 <= k < |slots| ==> slots[k] == SlotsOf(ds)[k] || slots[k] == None
    ensures forall i :: 0 <= i < |ds| ==> Dropped(ds[i], WithSlots(ds, slots)[i])
  {
    if ds != [] {
      var n := |ds[0].groups|;
      var rest := slots[n..];
      forall k | 0 <= k < |rest| ensures rest[k] == SlotsOf(ds[1..])[k] || rest[k] == None {
        assert rest[k] == slots[n + k] && SlotsOf(ds)[n + k] == SlotsOf(ds[1..])[k];
      }
      WithSlotsDrops(ds[1..], rest);
      forall j | 0 <= j < n ensures slots[..n][j] == ds[0].groups[j].evidence || slots[..n][j] == None {
        assert SlotsOf(ds)[j] == GroupSlots(ds[0].groups)[j];
      }
    }
  }

  lemma CleanGroupStable(rules: Rules, g: Group, evidence: bool)
    ensures CanonicalGroup(rules, CleanGroup(rules, g, evidence), evidence)
    ensures CanonicalGroup(rules, CleanGroup(rules, g, evidence).(evidence := None), evidence)
  {
    if evidence && g.evidence.Some? && EvidenceOk(rules, g.evidence.value, g.cellCount) {
      SafeEvidenceStable(rules, g.evidence.value, g.cellCount);
    }
    assert Pick(Pick(g.versions, VERSION_KEYS), VERSION_KEYS) == Pick(g.versions, VERSION_KEYS);
  }

  /** Group by group the same identity: all that the day-level checks look at. */
  predicate SameIdentity(a: Group, b: Group) {
    && b.key == a.key && b.salesItem == a.salesItem && b.sourceDate == a.sourceDate && b.selectedDate == a.selectedDate
    && b.courtNames == a.courtNames && b.cellCount == a.cellCount && b.productName == a.productName && b.host == a.host
    && b.salesId == a.salesId && b.generation == a.generation && b.freshness == a.freshness
    && forall k :: k in VERSION_KEYS && k in a.versions ==> k in b.versions && b.versions[k] == a.versions[k]
  }

  lemma GroupsOkTransfers(rules: Rules, products: map<string, Product>, date: string, gs: seq<Group>, hs: seq<Group>)
    requires GroupsOk(rules, products, date, gs) && |hs| == |gs|
    requires forall j :: 0 <= j < |gs| ==> SameIdentity(gs[j], hs[j])
    ensures GroupsOk(rules, products, date, hs)
  {
    forall h | h in hs ensures GroupOk(rules, products, date, h) {
      var j :| 0 <= j < |hs| && hs[j] == h;
      assert GroupOk(rules, products, date, gs[j]);
    }
    assert GroupIds(hs) == GroupIds(gs) && GroupKeys(hs) == GroupKeys(gs);
  }

  /** A cleaned day, with or without some of its evidence, is canonical. */
  lemma CleanDayCanonical(rules: Rules, products: map<string, Product>, p: PayloadDay, d: Day, evidence: bool)
    requires PayloadDayOk(rules, products, p) && rules.isoDate(p.date)
    requires Dropped(CleanDay(rules, p, evidence), d)
    ensures rules.isoDate(d.date) && GroupsOk(rules, products, d.date, d.groups)
    ensures forall g :: g in d.groups ==> CanonicalGroup(rules, g, evidence)
  {
    forall j | 0 <= j < |d.groups|
      ensures SameIdentity(p.groups[j], d.groups[j]) && CanonicalGroup(rules, d.groups[j], evidence)
    {
      CleanGroupStable(rules, p.groups[j], evidence);
    }
    GroupsOkTransfers(rules, products, p.date, p.groups, d.groups);
  }

  lemma {:induction false} SlotTotalBound(rules: Rules, courts: seq<Court>, known: set<string>)
    requires forall c :: c in courts ==> CourtOk(rules, c, known)
    ensures SlotTotal(courts) <= 1000 * |courts|
  {
    if courts != [] {
      SlotTotalBound(rules, courts[..|courts| - 1], known);
      assert courts[|courts| - 1] in courts;
    }
  }

  /** The days the first validator produces, before counts are looked at. */
  lemma InspectedDays(rules: Rules, p: Payload, venue: string, dates: seq<string>, evidence: bool)
    requires PayloadOk(rules, p, venue, dates)
    ensures var r := Inspect(rules, p, venue, dates, evidence).value;
      && |r.days| == |p.days|
      && forall i :: 0 <= i < |p.days| ==>
           && r.days[i].date == p.days[i].date && rules.isoDate(r.days[i].date)
           && r.days[i].courtCount == |p.days[i].courts| && r.days[i].slotCount == SlotTotal(p.days[i].courts)
           && GroupsOk(rules, rules.products[venue], r.days[i].date, r.days[i].groups)
           && forall g :: g in r.days[i].groups ==> CanonicalGroup(rules, g, evidence)
  {
    var r := Inspect(rules, p, venue, dates, evidence).value;
    var days := CleanDays(rules, p.days, evidence);
    if evidence { WithSlotsDrops(days, Limited(SlotsOf(days), rules.size)); }
    forall i | 0 <= i < |p.days|
      ensures && r.days[i].date == p.days[i].date && rules.isoDate(r.days[i].date)
              && r.days[i].courtCount == |p.days[i].courts| && r.days[i].slotCount == SlotTotal(p.days[i].courts)
              && GroupsOk(rules, rules.products[venue], r.days[i].date, r.days[i].groups)
              && forall g :: g in r.days[i].groups ==> CanonicalGroup(rules, g, evidence)
    {
      assert Dropped(days[i], r.days[i]);
      CleanDayCanonical(rules, rules.products[venue], p.days[i], r.days[i], evidence);
    }
  }

  /** A filtered list that is cut short was cut short before. */
  lemma TruncatesBackwards(slots: Slots, size: Evidence -> nat)
    ensures Truncates(Limited(slots, size), size) ==> Truncates(slots, size)
  {
    var once := Limited(slots, size);
    LimitedFits(slots, size);
    AdmitAll(once, MAX_BYTES, size);
    if k :| 0 <= k < |once| && once[k].Some? && (Partial(once[k].value) || Admit(once, MAX_BYTES, size)[k].None?) {
      assert slots[k] == once[k];
    }
  }

  /** Evidence, flags and diagnostics of an inspected report are what re-reading yields again. */
  lemma InspectedEvidence(rules: Rules, p: Payload, venue: string, dates: seq<string>)
    requires PayloadOk(rules, p, venue, dates)
    ensures var r := Inspect(rules, p, venue, dates, true).value;
      && CleanDiagnostics(rules, r.diagnostics) == r.diagnostics
      && Limited(SlotsOf(r.days), rules.size) == SlotsOf(r.days)
      && r.flags.Some? && (Truncates(SlotsOf(r.days), rules.size) ==> r.flags.value.truncated)
  {
    var days := CleanDays(rules, p.days, true);
    var slots := SlotsOf(days);
    SlotsOfWithSlots(days, Limited(slots, rules.size));
    LimitIdempotent(slots, rules.size);
    TruncatesBackwards(slots, rules.size);
  }

  lemma InspectCanonical(rules: Rules, p: Payload, venue: string, dates: seq<string>, evidence: bool)
    requires Inspect(rules, p, venue, dates, evidence).Some?
    ensures Canonical(rules, Inspect(rules, p, venue, dates, evidence).value, evidence)
  {
    var r := Inspect(rules, p, venue, dates, evidence).value;
    InspectedDays(rules, p, venue, dates, evidence);
    if evidence { InspectedEvidence(rules, p, venue, dates); }
    forall d | d in r.days ensures CanonicalDay(rules, rules.products[venue], d, evidence) {
      var i :| 0 <= i < |r.days| && r.days[i] == d;
      assert PayloadDayOk(rules, rules.products[venue], p.days[i]);
      SlotTotalBound(rules, p.days[i].courts, KnownNames(p.days[i].groups));
    }
  }

  lemma {:induction false} SlotsIgnoreCounts(a: seq<Day>, b: seq<Day>)
    requires |a| == |b| && forall i :: 0 <= i < |a| ==> a[i].groups == b[i].groups
    ensures SlotsOf(a) == SlotsOf(b)
  {
    if a != [] { SlotsIgnoreCounts(a[1..], b[1..]); }
  }

  /** Whatever the second validator lets through is canonical. */
  lemma SafeCanonical(rules: Rules, r: Report, evidence: bool)
    requires SafeReport(rules, r, evidence).Some?
    ensures Canonical(rules, SafeReport(rules, r, evidence).value, evidence)
  {
    var s := Inspect(rules, ReportPayload(r), r.venue, Dates(r.days), evidence).value;
    var t := SafeReport(rules, r, evidence).value;
    InspectedDays(rules, ReportPayload(r), r.venue, Dates(r.days), evidence);
    if evidence { InspectedEvidence(rules, ReportPayload(r), r.venue, Dates(r.days)); }
    SlotsIgnoreCounts(s.days, t.days);
    forall d | d in t.days ensures CanonicalDay(rules, rules.products[r.venue], d, evidence) {
      var i :| 0 <= i < |t.days| && t.days[i] == d;
      assert d.groups == s.days[i].groups && r.days[i] in r.days;
    }
  }

  lemma CanonicalGroupsStay(rules: Rules, gs: seq<Group>, evidence: bool)
    requires forall g :: g in gs ==> CanonicalGroup(rules, g, evidence)
    ensures CleanGroups(rules, gs, evidence) == gs
  {
    forall j | 0 <= j < |gs| ensures CleanGroups(rules, gs, evidence)[j] == gs[j] {
      assert CanonicalGroup(rules, gs[j], evidence);
    }
  }

  lemma RereadOk(rules: Rules, r: Report, evidence: bool)
    requires WellFormed(rules, r, evidence)
    ensures PayloadOk(rules, ReportPayload(r), r.venue, Dates(r.days))
    ensures var c := CleanDays(rules, Reread(r.days), evidence);
            |c| == |r.days| && forall i :: 0 <= i < |c| ==> c[i] == Day(r.days[i].date, r.days[i].groups, 0, 0)
    ensures !AnyRejected(rules, Reread(r.days), evidence)
  {
    forall i | 0 <= i < |r.days|
      ensures PayloadDayOk(rules, rules.products[r.venue], Reread(r.days)[i])
      ensures CleanGroups(rules, r.days[i].groups, evidence) == r.days[i].groups
      ensures rules.isoDate(r.days[i].date)
    {
      assert CanonicalDay(rules, rules.products[r.venue], r.days[i], evidence);
      CanonicalGroupsStay(rules, r.days[i].groups, evidence);
    }
    forall i, j | 0 <= i < |r.days| && 0 <= j < |r.days[i].groups|
      ensures !Rejects(rules, r.days[i].groups[j], evidence)
    {
      assert CanonicalDay(rules, rules.products[r.venue], r.days[i], evidence);
      assert CanonicalGroup(rules, r.days[i].groups[j], evidence);
    }
  }

  lemma FixedIsAdmitted(slots: Slots, size: Evidence -> nat)
    requires Limited(slots, size) == slots
    ensures Admit(slots, MAX_BYTES, size) == slots && !Unresolvable(slots, size)
  {
    var a := Admit(slots, MAX_BYTES, size);
    forall i | 0 <= i < |slots| ensures a[i] == slots[i] { assert Limited(slots, size)[i] == slots[i]; }
  }

  /** Canonical reports are exactly the ones `safe_inspections` leaves untouched. */
  lemma CanonicalIsFixed(rules: Rules, r: Report, evidence: bool)
    ensures Canonical(rules, r, evidence) <==> SafeReport(rules, r, evidence) == Some(r)
  {
    if SafeReport(rules, r, evidence) == Some(r) {
      SafeCanonical(rules, r, evidence);
    } else if Canonical(rules, r, evidence) {
      CanonicalUntouched(rules, r, evidence);
    }
  }

  lemma CanonicalReread(rules: Rules, r: Report)
    requires Canonical(rules, r, true)
    ensures var s := Inspect(rules, ReportPayload(r), r.venue, Dates(r.days), true);
      && s.Some? && s.value.days == CleanDays(rules, Reread(r.days), true)
      && s.value.diagnostics == r.diagnostics
      && s.value.flags == Some(Flags(Truncates(SlotsOf(r.days), rules.size), false))
  {
    RereadOk(rules, r, true);
    var c := CleanDays(rules, Reread(r.days), true);
    SlotsIgnoreCounts(c, r.days);
    WithOwnSlots(c);
    FixedIsAdmitted(SlotsOf(r.days), rules.size);
    assert CleanDiagnostics(rules, Pick(r.diagnostics, DIAGNOSTIC_KEYS)) == CleanDiagnostics(rules, r.diagnostics);
  }

  lemma CanonicalUntouched(rules: Rules, r: Report, evidence: bool)
    requires Canonical(rules, r, evidence)
    ensures SafeReport(rules, r, evidence) == Some(r)
  {
    RereadOk(rules, r, evidence);
    if evidence { CanonicalReread(rules, r); }
    assert WithCounts(CleanDays(rules, Reread(r.days), evidence), r.days) == r.days;
    forall d | d in r.days ensures 0 <= d.courtCount <= 100 && 0 <= d.slotCount <= 100000 {
      assert CanonicalDay(rules, rules.products[r.venue], d, evidence);
    }
  }

  lemma CanonicalListStays(rules: Rules, rs: seq<Report>, evidence: bool)
    requires |rs| <= 2 && forall i :: 0 <= i < |rs| ==> Canonical(rules, rs[i], evidence)
    ensures Safe(rules, rs, evidence) == rs
  {
    forall i | 0 <= i < |rs| ensures SafeReport(rules, rs[i], evidence) == Some(rs[i]) {
      CanonicalUntouched(rules, rs[i], evidence);
    }
  }

  // ----- Main results -----

  /** Every report the first validator accepts passes the second one unchanged, counts, flags,
      diagnostics and optional evidence included, alone or together with another. */
  lemma RoundTrip(rules: Rules, p: Payload, venue: string, dates: seq<string>, evidence: bool, others: seq<Report>)
    requires Inspect(rules, p, venue, dates, evidence).Some?
    requires |others| <= 1 && forall o :: o in others ==> Canonical(rules, o, evidence)
    ensures var r := Inspect(rules, p, venue, dates, evidence).value;
            Safe(rules, [r] + others, evidence) == [r] + others
  {
    var r := Inspect(rules, p, venue, dates, evidence).value;
    InspectCanonical(rules, p, venue, dates, evidence);
    CanonicalListStays(rules, [r] + others, evidence);
  }

  /** Reading twice is reading once, for any list of reports whatever its origin. */
  lemma SafeIdempotent(rules: Rules, rs: seq<Report>, evidence: bool)
    ensures Safe(rules, Safe(rules, rs, evidence), evidence) == Safe(rules, rs, evidence)
  {
    var once := Safe(rules, rs, evidence);
    forall i | 0 <= i < |once| ensures Canonical(rules, once[i], evidence) {
      SafeCanonical(rules, rs[i], evidence);
    }
    CanonicalListStays(rules, once, evidence);
  }

  /** A group's evidence before and after: malformed evidence is gone, the rest is cleaned. */
  predicate EvidenceKept(rules: Rules, before: Group, after: Group) {
    match before.evidence
    case None => after.evidence.None?
    case Some(e) => EvidenceOk(rules, e, before.cellCount) && after.evidence == Some(Clean(rules, e)) && !Partial(e)
  }

  predicate SameShape(a: seq<Day>, b: seq<Day>) {
    |a| == |b| && forall i :: 0 <= i < |a| ==> |a[i].groups| == |b[i].groups|
  }

  /** The slot of a group, at the same position for days of the same shape. */
  lemma {:induction false} SlotOfGroup(a: seq<Day>, b: seq<Day>, i: nat, j: nat) returns (k: nat)
    requires SameShape(a, b) && i < |a| && j < |a[i].groups|
    ensures k < |SlotsOf(a)| == |SlotsOf(b)|
    ensures SlotsOf(a)[k] == a[i].groups[j].evidence && SlotsOf(b)[k] == b[i].groups[j].evidence
  {
    SameSlotCount(a, b);
    if i == 0 {
      k := j;
      assert GroupSlots(a[0].groups)[j] == a[0].groups[j].evidence;
      assert GroupSlots(b[0].groups)[j] == b[0].groups[j].evidence;
    } else {
      var r := SlotOfGroup(a[1..], b[1..], i - 1, j);
      k := |a[0].groups| + r;
    }
  }

  lemma {:induction false} SameSlotCount(a: seq<Day>, b: seq<Day>)
    requires SameShape(a, b)
    ensures |SlotsOf(a)| == |SlotsOf(b)|
  {
    if a != [] { SameSlotCount(a[1..], b[1..]); }
  }

  /** The group of a slot, likewise. */
  lemma {:induction false} GroupOfSlot(a: seq<Day>, b: seq<Day>, k: nat) returns (i: nat, j: nat)
    requires SameShape(a, b) && k < |SlotsOf(a)|
    ensures i < |a| && j < |a[i].groups| && k < |SlotsOf(b)|
    ensures SlotsOf(a)[k] == a[i].groups[j].evidence && SlotsOf(b)[k] == b[i].groups[j].evidence
  {
    SameSlotCount(a, b);
    var n := |a[0].groups|;
    if k < n {
      i, j := 0, k;
      assert GroupSlots(a[0].groups)[k] == a[0].groups[k].evidence;
      assert GroupSlots(b[0].groups)[k] == b[0].groups[k].evidence;
    } else {
      var r, c := GroupOfSlot(a[1..], b[1..], k - n);
      i, j := r + 1, c;
    }
  }

  /** Both flags of the filter are off exactly if it changes nothing and meets nothing partial. */
  lemma FilterSilent(slots: Slots, size: Evidence -> nat)
    ensures !Truncates(slots, size) && !Unresolvable(slots, size) <==>
            Limited(slots, size) == slots && forall k :: 0 <= k < |slots| && slots[k].Some? ==> !Partial(slots[k].value)
  {
    var a := Admit(slots, MAX_BYTES, size);
    if !Truncates(slots, size) {
      BudgetFacts(slots, size);
      forall k | 0 <= k < |slots| ensures a[k] == slots[k] {}
      assert a == slots;
    }
    if Limited(slots, size) == slots { FixedIsAdmitted(slots, size); }
  }

  ghost predicate AllKept(rules: Rules, before: seq<PayloadDay>, after: seq<Day>)
    requires |before| == |after| && forall i :: 0 <= i < |before| ==> |before[i].groups| == |after[i].groups|
  {
    forall i, j :: 0 <= i < |before| && 0 <= j < |before[i].groups| ==>
      EvidenceKept(rules, before[i].groups[j], after[i].groups[j])
  }

  lemma SilentKeeps(rules: Rules, ds: seq<PayloadDay>)
    requires !AnyRejected(rules, ds, true)
    requires var slots := SlotsOf(CleanDays(rules, ds, true));
             forall k :: 0 <= k < |slots| && slots[k].Some? ==> !Partial(slots[k].value)
    ensures AllKept(rules, ds, CleanDays(rules, ds, true))
  {
    var days := CleanDays(rules, ds, true);
    forall i, j | 0 <= i < |ds| && 0 <= j < |ds[i].groups|
      ensures EvidenceKept(rules, ds[i].groups[j], days[i].groups[j])
    {
      assert !Rejects(rules, ds[i].groups[j], true);
      var k := SlotOfGroup(days, days, i, j);
    }
  }

  lemma KeptIsSilent(rules: Rules, ds: seq<PayloadDay>, after: seq<Day>)
    requires SameShape(CleanDays(rules, ds, true), after) && AllKept(rules, ds, after)
    ensures !AnyRejected(rules, ds, true) && SlotsOf(after) == SlotsOf(CleanDays(rules, ds, true))
    ensures forall k :: 0 <= k < |SlotsOf(after)| && SlotsOf(after)[k].Some? ==> !Partial(SlotsOf(after)[k].value)
  {
    var days := CleanDays(rules, ds, true);
    SameSlotCount(days, after);
    forall k | 0 <= k < |SlotsOf(after)|
      ensures SlotsOf(after)[k] == SlotsOf(days)[k]
      ensures SlotsOf(after)[k].Some? ==> !Partial(SlotsOf(after)[k].value)
    {
      var i, j := GroupOfSlot(days, after, k);
      assert EvidenceKept(rules, ds[i].groups[j], after[i].groups[j]);
    }
    forall i, j | 0 <= i < |ds| && 0 <= j < |ds[i].groups| ensures !Rejects(rules, ds[i].groups[j], true) {
      assert EvidenceKept(rules, ds[i].groups[j], after[i].groups[j]);
    }
  }

  lemma BoundedShape(days: seq<Day>, size: Evidence -> nat)
    ensures SameShape(days, Bounded(days, size)) && SlotsOf(Bounded(days, size)) == Limited(SlotsOf(days), size)
  {
    var slots := Limited(SlotsOf(days), size);
    WithSlotsDrops(days, slots);
    SlotsOfWithSlots(days, slots);
    forall i | 0 <= i < |days| ensures |days[i].groups| == |Bounded(days, size)[i].groups| {
      assert Dropped(days[i], Bounded(days, size)[i]);
    }
  }

  /** The two flags tell all: they are both off exactly if every group's evidence is well-formed,
      complete and still there, cleaned. */
  lemma FlagsTellAll(rules: Rules, p: Payload, venue: string, dates: seq<string>)
    requires Inspect(rules, p, venue, dates, true).Some?
    ensures var r := Inspect(rules, p, venue, dates, true).value;
      && r.flags.Some? && |r.days| == |p.days|
      && (forall i :: 0 <= i < |p.days| ==> |r.days[i].groups| == |p.days[i].groups|)
      && (!r.flags.value.truncated && !r.flags.value.rejected <==> AllKept(rules, p.days, r.days))
  {
    var r := Inspect(rules, p, venue, dates, true).value;
    var days := CleanDays(rules, p.days, true);
    BoundedShape(days, rules.size);
    FilterSilent(SlotsOf(days), rules.size);
    if !r.flags.value.truncated && !r.flags.value.rejected {
      SilentKeeps(rules, p.days);
      WithOwnSlots(days);
    } else if AllKept(rules, p.days, r.days) {
      KeptIsSilent(rules, p.days, r.days);
    }
  }

  /** An accepted payload is a verified scrape of this venue for exactly these dates, with every
      product once, and its slot counts are those of its courts. */
  lemma AcceptedPayload(rules: Rules, p: Payload, venue: string, dates: seq<string>, evidence: bool)
    requires Inspect(rules, p, venue, dates, evidence).Some?
    ensures venue in rules.products && p.ok && !p.captcha && p.schema == 2 && p.venue == venue
    ensures 1 <= |p.days| == |dates| <= 7
    ensures var r, products := Inspect(rules, p, venue, dates, evidence).value, rules.products[venue];
      && r.venue == venue && r.verified && |r.days| == |dates|
      && forall i :: 0 <= i < |dates| ==>
           && p.days[i].date == r.days[i].date == dates[i] && rules.isoDate(dates[i])
           && GroupKeys(p.days[i].groups) == products.Keys
           && (forall g :: g in p.days[i].groups ==> products[g.key].id == g.salesItem)
           && r.days[i].courtCount == |p.days[i].courts| <= 100
           && r.days[i].slotCount == |SlotPairs(p.days[i].courts)| <= 100000
           && forall c :: c in p.days[i].courts ==> c.name in KnownNames(p.days[i].groups) && |c.ranges| <= 1000
  {
    InspectedDays(rules, p, venue, dates, evidence);
    forall i | 0 <= i < |dates|
      ensures PayloadDayOk(rules, rules.products[venue], p.days[i])
      ensures SlotTotal(p.days[i].courts) == |SlotPairs(p.days[i].courts)| <= 100000
    {
      assert p.days[i] in p.days;
      SlotTotalCounts(p.days[i].courts);
      SlotTotalBound(rules, p.days[i].courts, KnownNames(p.days[i].groups));
    }
    forall i, g | 0 <= i < |dates| && g in p.days[i].groups
      ensures g.key in rules.products[venue] && rules.products[venue][g.key].id == g.salesItem
    {
      assert GroupOk(rules, rules.products[venue], p.days[i].date, g);
    }
  }

  /** Evidence that is shown accounts for every cell of its group, and every source it shows hashes
      to the value it carries. */
  lemma ShownEvidence(rules: Rules, g: Group)
    requires CanonicalGroup(rules, g, true) && g.evidence.Some?
    ensures var e := g.evidence.value;
      && e.sourceCells == g.cellCount && e.matchedCells + e.unmatchedCells == e.sourceCells <= 100000
      && (e.coverageComplete ==> e.unmatchedCells == 0 && !e.scanTruncated)
      && |e.components| <= 16 && |e.methods| <= 24 && |e.samples| <= 2
      && (forall c :: c in e.components ==> c.index <= 15 && c.methods.Keys == rules.rendererMethods)
      && (forall m :: m in e.methods && !m.reused ==>
            rules.sha256(m.source) == m.sha && rules.bytes(m.source) == m.emittedBytes <= 4096)
      && (forall m :: m in e.methods && m.reused ==> m.source == "" && m.emittedBytes == 0)
      && (forall m, r :: m in e.methods && r in m.refs ==> exists c :: c in e.components && c.index == r)
  {
    var e := g.evidence.value;
    assert Clean(rules, e) == e;
    forall c | c in e.components ensures c.index <= 15 && c.methods.Keys == rules.rendererMethods {
      var i :| 0 <= i < |e.components| && e.components[i] == c;
      assert ComponentOk(rules, c, g.cellCount) && CleanComponent(rules, c) == Clean(rules, e).components[i] == c;
    }
  }

  /** What every shown group is, whatever its origin. */
  lemma ShownGroup(rules: Rules, products: map<string, Product>, d: Day, evidence: bool, g: Group)
    requires CanonicalDay(rules, products, d, evidence) && g in d.groups
    ensures g.sourceDate == g.selectedDate == d.date && g.key in products && g.salesItem == products[g.key].id
    ensures 0 < g.cellCount <= 100000 && 1 <= g.generation <= 1000000
    ensures g.host == "wxsports.ydmap.cn" && g.salesId == "100220"
    ensures g.freshness == "both_source_arrays_replaced_after_date_selection"
    ensures g.versions.Keys == {"platforms", "orders"}
    ensures forall v :: v in g.versions ==> 1 <= g.versions[v] <= 1000000
    ensures 1 <= |g.courtNames| <= 100 && rules.publicText(g.productName)
    ensures forall n :: n in g.courtNames ==> rules.publicText(n)
    ensures products[g.key].caption != "" ==> rules.labelIn(products[g.key].caption, g.productName)
    ensures !evidence ==> g.evidence.None?
  {
    assert GroupOk(rules, products, d.date, g) && CanonicalGroup(rules, g, evidence);
  }

  // ----- The validators as the program runs them -----

  /** The groups of one day, cleaned; a single bad identity fails the whole payload. */
  method InspectGroups(rules: Rules, products: map<string, Product>, date: string, gs: seq<Group>, evidence: bool)
    returns (ok: bool, groups: seq<Group>, rejected: bool)
    ensures ok <==> forall g :: g in gs ==> GroupOk(rules, products, date, g)
    ensures ok ==> groups == CleanGroups(rules, gs, evidence)
    ensures ok ==> (rejected <==> exists j :: 0 <= j < |gs| && Rejects(rules, gs[j], evidence))
  {
    ok, groups, rejected := true, [], false;
    for j := 0 to |gs|
      invariant |groups| == j && forall k :: 0 <= k < j ==> groups[k] == CleanGroup(rules, gs[k], evidence)
      invariant forall k :: 0 <= k < j ==> GroupOk(rules, products, date, gs[k])
      invariant rejected <==> exists k :: 0 <= k < j && Rejects(rules, gs[k], evidence)
    {
      if !GroupOk(rules, products, date, gs[j]) {
        assert gs[j] in gs;
        return false, [], false;
      }
      rejected := rejected || Rejects(rules, gs[j], evidence);
      groups := groups + [CleanGroup(rules, gs[j], evidence)];
    }
  }

  /** One day of a payload: identity checks, cleaned groups, slot counts. */
  method InspectDay(rules: Rules, products: map<string, Product>, d: PayloadDay, evidence: bool)
    returns (r: Option<Day>, rejected: bool)
    ensures r.Some? <==> PayloadDayOk(rules, products, d)
    ensures r.Some? ==> r.value == CleanDay(rules, d, evidence)
    ensures r.Some? ==> (rejected <==> exists j :: 0 <= j < |d.groups| && Rejects(rules, d.groups[j], evidence))
  {
    r, rejected := None, false;
    if |d.groups| != |Ids(products)| || GroupIds(d.groups) != Ids(products) || GroupKeys(d.groups) != products.Keys {
      return;
    }
    var ok, groups, bad := InspectGroups(rules, products, d.date, d.groups, evidence);
    if !ok { return; }
    var counts := ValidateSlots(rules, d.courts, KnownNames(d.groups));
    if counts.Some? {
      r, rejected := Some(Day(d.date, groups, counts.value.0, counts.value.1)), bad;
    }
  }

  /** All days of a payload, or the first failure. */
  method InspectDays(rules: Rules, p: Payload, products: map<string, Product>, dates: seq<string>, evidence: bool)
    returns (ok: bool, days: seq<Day>, rejected: bool)
    requires |dates| == |p.days|
    ensures ok <==> forall i :: 0 <= i < |p.days| ==>
              p.days[i].date == dates[i] && rules.isoDate(dates[i]) && PayloadDayOk(rules, products, p.days[i])
    ensures ok ==> days == CleanDays(rules, p.days, evidence)
    ensures ok ==> (rejected <==> AnyRejected(rules, p.days, evidence))
  {
    ok, days, rejected := true, [], false;
    for i := 0 to |p.days|
      invariant days == CleanDays(rules, p.days[..i], evidence)
      invariant forall k :: 0 <= k < i ==>
        p.days[k].date == dates[k] && rules.isoDate(dates[k]) && PayloadDayOk(rules, products, p.days[k])
      invariant rejected <==> exists k, j :: 0 <= k < i && 0 <= j < |p.days[k].groups|
                                            && Rejects(rules, p.days[k].groups[j], evidence)
    {
      if p.days[i].date != dates[i] || !rules.isoDate(dates[i]) { return false, days, rejected; }
      var day, bad := InspectDay(rules, products, p.days[i], evidence);
      if day.None? { return false, days, rejected; }
      rejected := rejected || bad;
      days := days + [day.value];
    }
    assert p.days[..|p.days|] == p.days;
  }

  /** `inspect_evidence`. */
  method InspectEvidence(rules: Rules, p: Payload, venue: string, dates: seq<string>, evidence: bool)
    returns (r: Option<Report>)
    ensures r == Inspect(rules, p, venue, dates, evidence)
  {
    if venue !in rules.products || !p.ok || p.captcha || p.schema != 2 || p.venue != venue
       || !(1 <= |p.days| <= 7) || |dates| != |p.days| {
      return None;
    }
    var ok, days, rejected := InspectDays(rules, p, rules.products[venue], dates, evidence);
    if !ok { return None; }
    if !evidence { return Some(Report(venue, true, days, map[], None)); }
    var found := SlotsOf(days);
    var slots := new Option<Evidence>[|found|](i requires 0 <= i < |found| => found[i]);
    assert slots[..] == found;
    var truncated, unresolved := LimitSourceEvidence(slots, rules.size, false, false);
    r := Some(Report(venue, true, WithSlots(days, slots[..]), CleanDiagnostics(rules, p.diagnostics),
                     Some(Flags(truncated, rejected || unresolved))));
  }

  /** One report of `safe_inspections`. */
  method SafeInspection(rules: Rules, r: Report, evidence: bool) returns (s: Option<Report>)
    ensures s == SafeReport(rules, r, evidence)
  {
    if !r.verified || r.venue !in rules.products || !(1 <= |r.days| <= 7) { return None; }
    s := InspectEvidence(rules, ReportPayload(r), r.venue, Dates(r.days), evidence);
    if s.None? || !CountsOk(r.days) { return None; }
    var flags := s.value.flags;
    if evidence {
      flags := Some(Flags(Claimed(s.value).truncated || Claimed(r).truncated,
                          Claimed(s.value).rejected || Claimed(r).rejected));
    }
    s := Some(s.value.(days := WithCounts(s.value.days, r.days), flags := flags));
  }

  /** `safe_inspections`. */
  method SafeInspections(rules: Rules, rs: seq<Report>, evidence: bool) returns (out: seq<Report>)
    ensures out == Safe(rules, rs, evidence)
  {
    if |rs| > 2 { return []; }
    out := [];
    for i := 0 to |rs|
      invariant |out| == i
      invariant forall k :: 0 <= k < i ==> SafeReport(rules, rs[k], evidence) == Some(out[k])
    {
      var s := SafeInspection(rules, rs[i], evidence);
      if s.None? { return []; }
      out := out + [s.value];
    }
  }
}
