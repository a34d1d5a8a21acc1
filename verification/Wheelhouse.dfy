/** The offline wheelhouse (scripts/sender_wheelhouse.py): which manifests are accepted, and that
    the archive written for an accepted manifest always passes the staging checks. Archive records
    follow sections 4.3.7, 4.3.12 and 4.3.16 of the PKWARE ZIP APPNOTE. */
module Wheelhouse {
  import opened Effects

  const MAX_WHEEL_SIZE: nat := 32 * 1024 * 1024
  const MAX_TOTAL_SIZE: nat := 64 * 1024 * 1024

  datatype Wheel = Wheel(requirement: string, filename: string, size: int, sha: string, url: string, tags: seq<string>)

  /** Pattern and parsing checks on one pin or one wheel. */
  datatype Rules = Rules(pin: string -> bool, normalized: string -> string, wheel: Wheel -> bool)

  // ----- Which manifests are accepted -----

  predicate Distinct(s: seq<string>) {
    forall i, j :: 0 <= i < j < |s| ==> s[i] != s[j]
  }

  function Names(rules: Rules, pins: seq<string>): seq<string> {
    seq(|pins|, i requires 0 <= i < |pins| => rules.normalized(pins[i]))
  }

  predicate LockOk(rules: Rules, pins: seq<string>) {
    1 <= |pins| <= 64 && (forall p :: p in pins ==> rules.pin(p)) && Distinct(Names(rules, pins))
  }

  predicate WheelOk(rules: Rules, w: Wheel) {
    rules.wheel(w) && 5 <= |w.filename| <= 204 && 0 < w.size <= MAX_WHEEL_SIZE
  }

  function Requirements(ws: seq<Wheel>): seq<string> {
    seq(|ws|, i requires 0 <= i < |ws| => ws[i].requirement)
  }

  function Filenames(ws: seq<Wheel>): seq<string> {
    seq(|ws|, i requires 0 <= i < |ws| => ws[i].filename)
  }

  function TotalSize(ws: seq<Wheel>): int {
    if ws == [] then 0 else TotalSize(ws[..|ws| - 1]) + ws[|ws| - 1].size
  }

  /** The manifest read declaratively. Nothing here says that every pin has a wheel. */
  predicate ManifestOk(rules: Rules, pins: seq<string>, ws: seq<Wheel>) {
    && LockOk(rules, pins) && |ws| == |pins|
    && (forall w :: w in ws ==> w.requirement in pins && WheelOk(rules, w))
    && Distinct(Requirements(ws)) && Distinct(Filenames(ws)) && TotalSize(ws) <= MAX_TOTAL_SIZE
  }

  function ToSet(s: seq<string>): set<string> {
    set x | x in s
  }

  /** A list has no duplicate exactly if its set is as large as the list. */
  lemma {:induction false} DistinctBySet(s: seq<string>)
    ensures |ToSet(s)| <= |s|
    ensures |ToSet(s)| == |s| <==> Distinct(s)
  {
    if s != [] {
      var front, last := s[..|s| - 1], s[|s| - 1];
      DistinctBySet(front);
      assert s == front + [last];
      assert ToSet(s) == ToSet(front) + {last};
      if last in front {
        var i :| 0 <= i < |front| && front[i] == last;
        assert s[i] == s[|s| - 1];
      }
    }
  }

  lemma SameSizeSubset(a: set<string>, b: set<string>)
    requires a <= b && |a| >= |b|
    ensures a == b
  {
    assert |b - a| == |b| - |a|;
  }

  /** Pigeonhole: as many wheels as pins, each for a pin and no two for the same, so every pin has
      exactly one wheel; the equality test at the end of the loop can never fail. */
  lemma PinsAndWheelsMatch(pins: seq<string>, ws: seq<Wheel>)
    requires |ws| == |pins| && Distinct(Requirements(ws)) && forall w :: w in ws ==> w.requirement in pins
    ensures ToSet(Requirements(ws)) == ToSet(pins)
    ensures forall p :: p in pins ==> exists i :: 0 <= i < |ws| && ws[i].requirement == p
    ensures forall i, j :: 0 <= i < j < |ws| ==> ws[i].requirement != ws[j].requirement
  {
    var rs := Requirements(ws);
    DistinctBySet(rs);
    DistinctBySet(pins);
    forall r | r in ToSet(rs) ensures r in ToSet(pins) {
      var i :| 0 <= i < |rs| && rs[i] == r;
      assert ws[i] in ws;
    }
    SameSizeSubset(ToSet(rs), ToSet(pins));
    forall p | p in pins ensures exists i :: 0 <= i < |ws| && ws[i].requirement == p {
      assert p in ToSet(rs);
      var i :| 0 <= i < |rs| && rs[i] == p;
      assert ws[i].requirement == p;
    }
    forall i, j | 0 <= i < j < |ws| ensures ws[i].requirement != ws[j].requirement {
      assert rs[i] != rs[j];
    }
  }

  lemma DistinctSnoc(s: seq<string>, x: string)
    ensures Distinct(s + [x]) <==> Distinct(s) && x !in s
  {
    var t := s + [x];
    assert t[|s|] == x && t[..|s|] == s;
    if Distinct(t) {
      forall i, j | 0 <= i < j < |s| ensures s[i] != s[j] { assert t[i] == s[i] && t[j] == s[j]; }
      forall i | 0 <= i < |s| ensures s[i] != x { assert t[i] == s[i]; }
    }
  }

  /** A wheel that repeats a pin or a file name spoils the whole list. */
  lemma RepeatSpoils(ws: seq<Wheel>, i: nat)
    requires i < |ws|
    requires ws[i].requirement in Requirements(ws[..i]) || ws[i].filename in Filenames(ws[..i])
    ensures !(Distinct(Requirements(ws)) && Distinct(Filenames(ws)))
  {
    if ws[i].requirement in Requirements(ws[..i]) {
      var k :| 0 <= k < i && Requirements(ws[..i])[k] == ws[i].requirement;
      assert Requirements(ws)[k] == Requirements(ws)[i];
    } else {
      var k :| 0 <= k < i && Filenames(ws[..i])[k] == ws[i].filename;
      assert Filenames(ws)[k] == Filenames(ws)[i];
    }
  }

  /** One more wheel, field by field. */
  lemma WheelSnoc(ws: seq<Wheel>, i: nat)
    requires i < |ws|
    ensures Requirements(ws[..i + 1]) == Requirements(ws[..i]) + [ws[i].requirement]
    ensures Filenames(ws[..i + 1]) == Filenames(ws[..i]) + [ws[i].filename]
    ensures TotalSize(ws[..i + 1]) == TotalSize(ws[..i]) + ws[i].size
  {
    assert ws[..i + 1][..i] == ws[..i];
  }

  /** The loop of `read_manifest` over the wheels. */
  method CheckWheels(rules: Rules, pins: seq<string>, wheels: seq<Wheel>)
    returns (ok: bool, requirements: set<string>, total: int)
    ensures ok <==> && (forall w :: w in wheels ==> w.requirement in pins && WheelOk(rules, w))
                    && Distinct(Requirements(wheels)) && Distinct(Filenames(wheels))
    ensures ok ==> requirements == ToSet(Requirements(wheels)) && total == TotalSize(wheels)
  {
    var filenames: set<string> := {};
    requirements, total := {}, 0;
    for i := 0 to |wheels|
      invariant requirements == ToSet(Requirements(wheels[..i])) && filenames == ToSet(Filenames(wheels[..i]))
      invariant total == TotalSize(wheels[..i])
      invariant Distinct(Requirements(wheels[..i])) && Distinct(Filenames(wheels[..i]))
      invariant forall k :: 0 <= k < i ==> wheels[k].requirement in pins && WheelOk(rules, wheels[k])
    {
      var w := wheels[i];
      WheelSnoc(wheels, i);
      DistinctSnoc(Requirements(wheels[..i]), w.requirement);
      DistinctSnoc(Filenames(wheels[..i]), w.filename);
      if w.requirement !in pins || !WheelOk(rules, w) {
        assert w in wheels;
        return false, {}, 0;
      }
      if w.requirement in requirements || w.filename in filenames {
        RepeatSpoils(wheels, i);
        return false, {}, 0;
      }
      total := total + w.size;
      filenames := filenames + {w.filename};
      requirements := requirements + {w.requirement};
    }
    ok := true;
    assert wheels[..|wheels|] == wheels;
  }

  lemma DistinctFields(rules: Rules, pins: seq<string>, ws: seq<Wheel>)
    requires |ws| == |pins|
    ensures Distinct(Requirements(ws)) <==>
            forall i, j :: 0 <= i < j < |ws| ==> ws[i].requirement != ws[j].requirement
    ensures Distinct(Filenames(ws)) <==> forall i, j :: 0 <= i < j < |ws| ==> ws[i].filename != ws[j].filename
    ensures Distinct(Names(rules, pins)) <==>
            forall i, j :: 0 <= i < j < |pins| ==> rules.normalized(pins[i]) != rules.normalized(pins[j])
  {
    var rs, fs, ns := Requirements(ws), Filenames(ws), Names(rules, pins);
    assert forall i :: 0 <= i < |ws| ==> rs[i] == ws[i].requirement && fs[i] == ws[i].filename;
    assert forall i :: 0 <= i < |pins| ==> ns[i] == rules.normalized(pins[i]);
  }

  /** The accepted manifests spelt out, in both directions. */
  lemma ManifestMeans(rules: Rules, pins: seq<string>, ws: seq<Wheel>)
    ensures ManifestOk(rules, pins, ws) <==>
      && 1 <= |pins| <= 64 && |ws| == |pins| && TotalSize(ws) <= 67108864
      && (forall p :: p in pins ==> rules.pin(p))
      && (forall w :: w in ws ==>
            w.requirement in pins && rules.wheel(w) && 0 < w.size <= 33554432 && 5 <= |w.filename| <= 204)
      && (forall i, j :: 0 <= i < j < |pins| ==> rules.normalized(pins[i]) != rules.normalized(pins[j]))
      && (forall i, j :: 0 <= i < j < |ws| ==> ws[i].requirement != ws[j].requirement)
      && (forall i, j :: 0 <= i < j < |ws| ==> ws[i].filename != ws[j].filename)
  {
    if |ws| == |pins| { DistinctFields(rules, pins, ws); }
  }

  /** `read_manifest`. */
  method ReadManifest(rules: Rules, pins: seq<string>, wheels: seq<Wheel>) returns (r: Option<seq<Wheel>>)
    ensures r.Some? <==> ManifestOk(rules, pins, wheels)
    ensures r.Some? ==> r.value == wheels && ToSet(Requirements(wheels)) == ToSet(pins)
  {
    if !(1 <= |pins| <= 64) || exists p :: p in pins && !rules.pin(p) { return None; }
    DistinctBySet(Names(rules, pins));
    if |ToSet(Names(rules, pins))| != |pins| { return None; }
    if |wheels| != |pins| { return None; }
    var ok, requirements, total := CheckWheels(rules, pins, wheels);
    if !ok { return None; }
    PinsAndWheelsMatch(pins, wheels);
    if requirements != ToSet(pins) || total > MAX_TOTAL_SIZE { return None; }
    r := Some(wheels);
  }

  // ----- Archive layout -----

  type Byte = b: int | 0 <= b < 256

  /** Little-endian 16- and 32-bit fields. */
  function U16(n: nat): seq<Byte>
    requires n < 65536
  {
    [n % 256, n / 256]
  }

  function U32(n: nat): seq<Byte>
    requires n < 4294967296
  {
    U16(n % 65536) + U16(n / 65536)
  }

  function Get16(b: seq<Byte>, at: nat): nat
    requires at + 2 <= |b|
  {
    (b[at] as int) + 256 * (b[at + 1] as int)
  }

  function Get32(b: seq<Byte>, at: nat): nat
    requires at + 4 <= |b|
  {
    Get16(b, at) + 65536 * Get16(b, at + 2)
  }

  const END_SIGNATURE: seq<Byte> := [80, 75, 5, 6]

  function EndRecord(count: nat, size: nat, offset: nat): (r: seq<Byte>)
    requires count < 65536 && size < 4294967296 && offset < 4294967296
    ensures |r| == 22
  {
    END_SIGNATURE + U16(0) + U16(0) + U16(count) + U16(count) + U32(size) + U32(offset) + U16(0)
  }

  /** A stored member: header bytes are free except for their lengths of 30 and 46. */
  datatype Member = Member(local: seq<Byte>, central: seq<Byte>, name: seq<Byte>, data: seq<Byte>)

  predicate MemberFor(m: Member, w: Wheel) {
    |m.local| == 30 && |m.central| == 46 && |m.name| == |w.filename| && |m.data| == w.size
  }

  predicate MembersFor(ms: seq<Member>, ws: seq<Wheel>) {
    |ms| == |ws| && forall i :: 0 <= i < |ws| ==> MemberFor(ms[i], ws[i])
  }

  function Bodies(ms: seq<Member>): seq<Byte> {
    if ms == [] then [] else Bodies(ms[..|ms| - 1]) + ms[|ms| - 1].local + ms[|ms| - 1].name + ms[|ms| - 1].data
  }

  function Directory(ms: seq<Member>): seq<Byte> {
    if ms == [] then [] else Directory(ms[..|ms| - 1]) + ms[|ms| - 1].central + ms[|ms| - 1].name
  }

  function DirectorySize(ws: seq<Wheel>): nat {
    if ws == [] then 0 else DirectorySize(ws[..|ws| - 1]) + 46 + |ws[|ws| - 1].filename|
  }

  lemma {:induction false} LayoutSizes(rules: Rules, ms: seq<Member>, ws: seq<Wheel>)
    requires MembersFor(ms, ws) && forall w :: w in ws ==> WheelOk(rules, w)
    ensures |Directory(ms)| == DirectorySize(ws) <= 250 * |ws|
    ensures TotalSize(ws) <= |Bodies(ms)|
    ensures TotalSize(ws) + 86 * |ws| <= |Bodies(ms)| + |Directory(ms)| <= TotalSize(ws) + 484 * |ws|
  {
    if ws != [] {
      LayoutSizes(rules, ms[..|ms| - 1], ws[..|ws| - 1]);
      assert ws[|ws| - 1] in ws;
    }
  }

  /** The size limit of `stage_wheelhouse`. */
  function Limit(ws: seq<Wheel>): int {
    TotalSize(ws) + |ws| * 512 + 22
  }

  /** The end-record check of `verify_archive`, on raw bytes. */
  predicate EndOk(archive: seq<Byte>, ws: seq<Wheel>)
    requires |archive| >= 22
  {
    var end := archive[|archive| - 22..];
    && end[..4] == END_SIGNATURE && Get16(end, 4) == 0 && Get16(end, 6) == 0 && Get16(end, 20) == 0
    && Get16(end, 8) == |ws| && Get16(end, 10) == Get16(end, 8)
    && Get32(end, 12) == DirectorySize(ws)
    && Get32(end, 16) + Get32(end, 12) + 22 == |archive|
  }

  lemma EndRecordDecodes(count: nat, size: nat, offset: nat)
    requires count < 65536 && size < 4294967296 && offset < 4294967296
    ensures var end := EndRecord(count, size, offset);
      && end[..4] == END_SIGNATURE && Get16(end, 4) == 0 && Get16(end, 6) == 0 && Get16(end, 20) == 0
      && Get16(end, 8) == count && Get16(end, 10) == count && Get32(end, 12) == size && Get32(end, 16) == offset
  {
    var end := EndRecord(count, size, offset);
    assert end[8] == U16(count)[0] && end[9] == U16(count)[1] && end[10] == U16(count)[0] && end[11] == U16(count)[1];
    assert end[12] == U32(size)[0] && end[13] == U32(size)[1] && end[14] == U32(size)[2] && end[15] == U32(size)[3];
    assert end[16] == U32(offset)[0] && end[17] == U32(offset)[1];
    assert end[18] == U32(offset)[2] && end[19] == U32(offset)[3];
  }

  lemma Same16(a: seq<Byte>, b: seq<Byte>, at: nat)
    requires at + 2 <= |a| && at + 2 <= |b| && Get16(a, at) == Get16(b, at)
    ensures a[at] == b[at] && a[at + 1] == b[at + 1]
  {}

  lemma Same32(a: seq<Byte>, b: seq<Byte>, at: nat)
    requires at + 4 <= |a| && at + 4 <= |b| && Get32(a, at) == Get32(b, at)
    ensures a[at] == b[at] && a[at + 1] == b[at + 1] && a[at + 2] == b[at + 2] && a[at + 3] == b[at + 3]
  {
    assert Get16(a, at) == Get16(b, at) && Get16(a, at + 2) == Get16(b, at + 2);
    Same16(a, b, at);
    Same16(a, b, at + 2);
  }

  /** Twenty-two bytes are their signature and their fields. */
  lemma SameEnd(a: seq<Byte>, b: seq<Byte>)
    requires |a| == |b| == 22 && a[..4] == b[..4] && Get16(a, 4) == Get16(b, 4) && Get16(a, 6) == Get16(b, 6)
    requires Get16(a, 8) == Get16(b, 8) && Get16(a, 10) == Get16(b, 10) && Get32(a, 12) == Get32(b, 12)
    requires Get32(a, 16) == Get32(b, 16) && Get16(a, 20) == Get16(b, 20)
    ensures a == b
  {
    assert a[0] == a[..4][0] && a[1] == a[..4][1] && a[2] == a[..4][2] && a[3] == a[..4][3];
    assert b[0] == b[..4][0] && b[1] == b[..4][1] && b[2] == b[..4][2] && b[3] == b[..4][3];
    Same16(a, b, 4);
    Same16(a, b, 6);
    Same16(a, b, 8);
    Same16(a, b, 10);
    Same32(a, b, 12);
    Same32(a, b, 16);
    Same16(a, b, 20);
  }

  /** Nothing else passes: the last 22 bytes of an accepted archive are the end record of just these
      wheels, whose directory lies directly in front of it. */
  lemma EndOkMeans(archive: seq<Byte>, ws: seq<Wheel>)
    requires |archive| >= 22 && EndOk(archive, ws)
    ensures var offset := |archive| - 22 - DirectorySize(ws);
            && |ws| < 65536 && DirectorySize(ws) < 4294967296 && 0 <= offset < 4294967296
            && archive[|archive| - 22..] == EndRecord(|ws|, DirectorySize(ws), offset)
  {
    var end := archive[|archive| - 22..];
    var offset := |archive| - 22 - DirectorySize(ws);
    EndRecordDecodes(|ws|, DirectorySize(ws), offset);
    SameEnd(end, EndRecord(|ws|, DirectorySize(ws), offset));
  }

  /** Whatever the wheels contain: the archive laid out for an accepted manifest fits the staging
      limit, fits the 16- and 32-bit fields, and passes the end-record check. */
  lemma ArchiveAlwaysStages(rules: Rules, pins: seq<string>, ws: seq<Wheel>, ms: seq<Member>)
    requires ManifestOk(rules, pins, ws) && MembersFor(ms, ws)
    ensures |ws| < 65536 && |Directory(ms)| < 4294967296 && |Bodies(ms)| < 4294967296
    ensures var archive := Bodies(ms) + Directory(ms) + EndRecord(|ws|, |Directory(ms)|, |Bodies(ms)|);
            && 22 <= |archive| <= Limit(ws) <= |archive| + 426 * |ws|
            && EndOk(archive, ws)
  {
    LayoutSizes(rules, ms, ws);
    var end := EndRecord(|ws|, |Directory(ms)|, |Bodies(ms)|);
    var archive := Bodies(ms) + Directory(ms) + end;
    assert archive[|archive| - 22..] == end;
    EndRecordDecodes(|ws|, |Directory(ms)|, |Bodies(ms)|);
  }
}
