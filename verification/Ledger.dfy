/** The durable sender ledger (sender_agent/ledger.py): one row per idempotency key.
    The payload itself stands for its SHA-256 hash, which is taken to be injective. */
module Ledger {
  import opened Effects

  type Key = string

  datatype Payload = Payload(device: string, receiver: string, messages: seq<string>)

  datatype Status = Preparing | Dispatching | Sent | SubmissionUnknown | NotSubmitted

  /** The parts of `result_json` that anyone reads back. */
  datatype Receipt = Receipt(success: bool, sentCount: nat)

  datatype Row = Row(payload: Payload, status: Status, result: Option<Receipt>)

  type Table = map<Key, Row>

  datatype ClaimPhase = Claimed | AlreadySent(result: Option<Receipt>) | Conflict | Unknown

  /** What the status endpoint may tell a caller about a key. */
  datatype View = NotFound | Found(status: Status, confirmed: bool, sentCount: nat)

  // ----- The three transactions as functions on the table -----

  function ClaimPhaseOf(t: Table, key: Key, payload: Payload, preparing: bool): ClaimPhase {
    if key !in t then Claimed
    else if t[key].payload != payload then Conflict
    else if t[key].status == Sent then AlreadySent(t[key].result)
    else if preparing && (t[key].status == Preparing || t[key].status == NotSubmitted) then Claimed
    else Unknown
  }

  function ClaimTable(t: Table, key: Key, payload: Payload, preparing: bool): Table {
    if ClaimPhaseOf(t, key, payload, preparing) != Claimed then t
    else if key in t then t[key := t[key].(status := Preparing, result := None)]
    else t[key := Row(payload, if preparing then Preparing else Dispatching, None)]
  }

  predicate CanMark(t: Table, key: Key) {
    key in t && t[key].status == Preparing
  }

  function MarkTable(t: Table, key: Key): Table
    requires CanMark(t, key)
  {
    t[key := t[key].(status := Dispatching)]
  }

  predicate Final(status: Status) {
    status == Sent || status == SubmissionUnknown || status == NotSubmitted
  }

  function FinishTable(t: Table, key: Key, status: Status, result: Option<Receipt>): Table {
    if key in t
       && (t[key].status == Preparing || t[key].status == Dispatching)
       && (status != NotSubmitted || t[key].status == Preparing)
    then t[key := t[key].(status := status, result := result)]
    else t
  }

  /** The row has crossed the irreversible boundary. */
  predicate Crossed(status: Status) {
    status == Dispatching || status == Sent || status == SubmissionUnknown
  }

  // ----- What no transaction may undo -----

  /** Everything a later table must still agree with: keys stay, payloads stay, a crossed
      row stays crossed, and a `Sent` or `SubmissionUnknown` row is frozen. */
  ghost predicate Evolves(t: Table, t': Table) {
    forall k :: k in t ==>
      && k in t'
      && t'[k].payload == t[k].payload
      && (Crossed(t[k].status) ==> Crossed(t'[k].status))
      && ((t[k].status == Sent || t[k].status == SubmissionUnknown) ==> t'[k] == t[k])
  }

  lemma EvolvesTransitive(a: Table, b: Table, c: Table)
    requires Evolves(a, b) && Evolves(b, c)
    ensures Evolves(a, c)
  {
    forall k | k in a
      ensures k in c && c[k].payload == a[k].payload
              && (Crossed(a[k].status) ==> Crossed(c[k].status))
              && ((a[k].status == Sent || a[k].status == SubmissionUnknown) ==> c[k] == a[k])
    {
      assert k in b;
    }
  }

  lemma ClaimEvolves(t: Table, key: Key, payload: Payload, preparing: bool)
    ensures Evolves(t, ClaimTable(t, key, payload, preparing))
  {}

  lemma FinishEvolves(t: Table, key: Key, status: Status, result: Option<Receipt>)
    requires Final(status)
    ensures Evolves(t, FinishTable(t, key, status, result))
  {}

  /** The table behind `WECHAT_IDEMPOTENCY_PATH`; each method is one SQLite transaction. */
  class SenderLedger {
    var rows: Table

    constructor ()
      ensures rows == map[]
    {
      rows := map[];
    }

    method Claim(key: Key, payload: Payload, preparing: bool) returns (phase: ClaimPhase)
      modifies this
      ensures phase == ClaimPhaseOf(old(rows), key, payload, preparing)
      ensures rows == ClaimTable(old(rows), key, payload, preparing)
      ensures Evolves(old(rows), rows)
      ensures phase == Claimed ==> key in rows && rows[key].payload == payload && rows[key].result == None
      ensures phase == Claimed && preparing ==> rows[key].status == Preparing
      ensures phase != Claimed ==> rows == old(rows)
      ensures phase == Claimed <==>
                || key !in old(rows)
                || (&& old(rows)[key].payload == payload && preparing
                    && (old(rows)[key].status == Preparing || old(rows)[key].status == NotSubmitted))
      ensures phase == Conflict <==> key in old(rows) && old(rows)[key].payload != payload
      ensures phase.AlreadySent? <==>
                key in old(rows) && old(rows)[key].payload == payload && old(rows)[key].status == Sent
      ensures phase.AlreadySent? ==> phase.result == old(rows)[key].result
      ensures phase == Claimed ==> rows - {key} == old(rows) - {key}
      ensures phase == Claimed && !preparing ==> rows[key].status == Dispatching
      ensures phase == Claimed && key in old(rows) ==> !Crossed(old(rows)[key].status)
    {
      if key in rows {
        var row := rows[key];
        if row.payload != payload {
          phase := Conflict;
        } else if row.status == Sent {
          phase := AlreadySent(row.result);
        } else if preparing && (row.status == Preparing || row.status == NotSubmitted) {
          rows := rows[key := row.(status := Preparing, result := None)];
          phase := Claimed;
        } else {
          phase := Unknown;
        }
      } else {
        rows := rows[key := Row(payload, if preparing then Preparing else Dispatching, None)];
        phase := Claimed;
      }
    }

    /** Crosses the irreversible boundary; the checkpoint must be acknowledged by one changed row. */
    method MarkSubmitting(key: Key) returns (acknowledged: bool)
      modifies this
      ensures acknowledged == CanMark(old(rows), key)
      ensures acknowledged ==> rows == MarkTable(old(rows), key)
      ensures acknowledged <==> key in old(rows) && old(rows)[key].status == Preparing
      ensures acknowledged ==> key in rows && rows[key] == old(rows)[key].(status := Dispatching)
                               && rows - {key} == old(rows) - {key}
      ensures !acknowledged ==> rows == old(rows)
      ensures Evolves(old(rows), rows)
    {
      acknowledged := key in rows && rows[key].status == Preparing;
      if acknowledged {
        rows := rows[key := rows[key].(status := Dispatching)];
      }
    }

    /** `accepted` is false for the `ValueError` of a status that is not an outcome. */
    method Finish(key: Key, status: Status, result: Option<Receipt>) returns (accepted: bool)
      modifies this
      ensures accepted == Final(status)
      ensures rows == if accepted then FinishTable(old(rows), key, status, result) else old(rows)
      ensures accepted <==> status in {Sent, SubmissionUnknown, NotSubmitted}
      ensures rows - {key} == old(rows) - {key} && (key in rows <==> key in old(rows))
      ensures key in rows ==>
                var was := old(rows)[key];
                var open := was.status == Preparing || (was.status == Dispatching && status != NotSubmitted);
                rows[key] == if accepted && open then Row(was.payload, status, result) else was
      ensures Evolves(old(rows), rows)
    {
      accepted := status == Sent || status == SubmissionUnknown || status == NotSubmitted;
      if accepted && key in rows {
        var row := rows[key];
        if (row.status == Preparing || row.status == Dispatching)
           && (status != NotSubmitted || row.status == Preparing) {
          rows := rows[key := row.(status := status, result := result)];
        }
      }
    }

    /** Reads evidence for exactly this key and payload; another payload's row is invisible. */
    method Lookup(key: Key, payload: Payload) returns (view: View)
      ensures view.NotFound? <==> key !in rows || rows[key].payload != payload
      ensures view.Found? ==> view.status == rows[key].status
      ensures view.Found? ==>
                && (view.confirmed <==>
                      rows[key].status == Sent && rows[key].result.Some? && rows[key].result.value.success)
                && view.sentCount == if rows[key].result.Some? then rows[key].result.value.sentCount else 0
    {
      if key !in rows || rows[key].payload != payload {
        view := NotFound;
      } else {
        var row := rows[key];
        view := match row.result
          case None => Found(row.status, false, 0)
          case Some(r) => Found(row.status, row.status == Sent && r.success, r.sentCount);
      }
    }
  }
}
