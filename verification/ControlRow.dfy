/** The singleton runtime control row and the two compare-and-swap writes on it: `mutate` of
    scripts/email_recovery_probe.py and the fence of scripts/host_core_production.py. */
module ControlRow {
  import opened Effects

  datatype Phase = Prepared | Active | Paused | Other

  datatype Row = Row(commit: string, delivery: bool, wechat: bool, activatedAt: Option<int>, updatedAt: int,
                     phase: Phase)

  /** Checkpoints outside the row: schema, migration state, email settings, container identity. */
  datatype Checkpoints = Checkpoints(schema: bool, migrated: bool, settings: bool, container: string)

  // ----- Enable and pause -----

  predicate MayMutate(row: Row, c: Checkpoints, expected: string, enable: bool, stamp: int) {
    && c.container == expected && c.schema
    && row.commit == expected && !row.wechat && row.updatedAt == stamp && row.delivery == !enable
    && (enable ==> row.activatedAt.Some? && c.migrated && c.settings)
  }

  function Mutated(row: Row, enable: bool, now: int): Row {
    row.(delivery := enable, phase := if enable then Active else Paused, updatedAt := now)
  }

  // ----- The recovery fence -----

  predicate MayFence(row: Row, c: Checkpoints, expected: string, stamp: int) {
    && c.container == expected && c.schema && c.settings && c.migrated
    && row.commit == expected && row.updatedAt == stamp
    && row.delivery && !row.wechat && row.phase == Active && row.activatedAt.Some?
  }

  function Fenced(row: Row, target: string, now: int): Row {
    row.(delivery := false, wechat := false, phase := Prepared, commit := target, updatedAt := now)
  }

  // ----- The row over time -----

  datatype Author = Recovery | Fencing | Operator

  /** A row the table held, and who wrote it. */
  datatype Entry = Entry(row: Row, author: Author)

  /** Timestamps grow, so a timestamp names one row. */
  predicate Increasing(h: seq<Entry>) {
    forall i, j :: 0 <= i < j < |h| ==> h[i].row.updatedAt < h[j].row.updatedAt
  }

  predicate Held(h: seq<Entry>, row: Row) {
    exists i :: 0 <= i < |h| && h[i].row == row
  }

  lemma SameStampSameRow(h: seq<Entry>, i: nat, j: nat)
    requires Increasing(h) && i < |h| && j < |h| && h[i].row.updatedAt == h[j].row.updatedAt
    ensures i == j
  {}

  /** The table; each method is one transaction under the delivery lock and the row lock. The
      database clock hands out strictly increasing write timestamps. */
  class ControlTable {
    var row: Row
    var clock: int

    ghost predicate Valid()
      reads this
    {
      row.updatedAt <= clock
    }

    method Mutate(c: Checkpoints, expected: string, enable: bool, stamp: int) returns (token: Option<int>)
      requires Valid()
      modifies this
      ensures Valid()
      ensures token.Some? <==> MayMutate(old(row), c, expected, enable, stamp)
      ensures token.Some? ==> row == Mutated(old(row), enable, token.value) && token.value > old(clock) >= stamp
      ensures token.Some? ==> row.delivery == enable && row.phase == (if enable then Active else Paused)
                              && row.updatedAt == token.value && row.commit == old(row.commit) == expected
                              && row.wechat == old(row.wechat) == false && row.activatedAt == old(row.activatedAt)
      ensures token.Some? <==> c.container == expected && c.schema && old(row.commit) == expected
                               && !old(row.wechat) && old(row.updatedAt) == stamp && old(row.delivery) != enable
                               && (enable ==> old(row.activatedAt).Some? && c.migrated && c.settings)
      ensures token.None? ==> row == old(row)
    {
      if c.container != expected || !c.schema || row.commit != expected || row.wechat
         || row.updatedAt != stamp || row.delivery != !enable {
        return None;
      }
      if enable && (row.activatedAt.None? || !c.migrated || !c.settings) { return None; }
      clock := clock + 1;
      row := row.(delivery := enable, phase := if enable then Active else Paused, updatedAt := clock);
      return Some(clock);
    }

    method Fence(c: Checkpoints, expected: string, stamp: int, target: string) returns (at: Option<int>)
      requires Valid()
      modifies this
      ensures Valid()
      ensures at.Some? <==> MayFence(old(row), c, expected, stamp)
      ensures at.Some? ==> row == Fenced(old(row), target, at.value) && at.value > old(clock)
      ensures at.Some? ==> !MayFence(row, c, expected, stamp)
      ensures at.Some? ==> !row.delivery && !row.wechat && row.phase == Prepared && row.commit == target
                           && row.updatedAt == at.value && row.activatedAt == old(row.activatedAt)
      ensures at.Some? <==> c.container == expected && c.schema && c.settings && c.migrated
                            && old(row.commit) == expected && old(row.updatedAt) == stamp
                            && old(row.delivery) && !old(row.wechat) && old(row.phase) == Active
                            && old(row.activatedAt).Some?
      ensures at.None? ==> row == old(row)
    {
      if c.container != expected || !c.schema || !c.settings || !c.migrated || row.commit != expected
         || row.updatedAt != stamp || !row.delivery || row.wechat || row.phase != Active || row.activatedAt.None? {
        return None;
      }
      clock := clock + 1;
      row := row.(delivery := false, wechat := false, phase := Prepared, commit := target, updatedAt := clock);
      return Some(clock);
    }
  }
}
