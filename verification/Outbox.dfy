/** Charge records and the reporting of charges and refunds to the channel.
    A report the platform does not acknowledge goes to an outbox, from which a
    replay sends it again. */
module Outbox {
  import opened Options

  datatype ChannelStatus = Skipped | Waiting | Delivered | Undelivered

  datatype Record = Record(eventId: string, refunded: bool, channel: ChannelStatus)

  datatype Report =
    | ChargeReport(record: Id)
    | RefundReport(record: Id, refundEvent: string, amount: int)

  datatype EntryStatus = Pending | Processing | Succeeded | Failed

  datatype Entry = Entry(report: Report, status: EntryStatus, attempts: nat, availableAt: nat) {
    predicate Open() {
      status == Pending || status == Failed
    }
  }

  // The two tables, and which reports were sent to and acknowledged by the platform.
  datatype Books = Books(
    records: map<Id, Record>,
    outbox: map<Id, Entry>,
    issued: set<Report>,
    acknowledged: set<Report>)

  // What happens during one report: the platform's answer, the id and time of
  // the outbox row, and whether inserting that row succeeds (its failure is
  // only logged).
  datatype Delivery = Delivery(platformOk: bool, entry: Id, now: nat, enqueueOk: bool)

  datatype Tally = Tally(processed: nat, succeeded: nat, failed: nat)

  const DEFAULT_LIMIT := 20
  const RETRY_DELAY := 1

  // ---- Specification ----

  predicate Recorded(b: Books, eventId: string) {
    exists id :: id in b.records && b.records[id].eventId == eventId
  }

  function SetChannel(b: Books, id: Id, channel: ChannelStatus): Books
    requires id in b.records
  {
    b.(records := b.records[id := b.records[id].(channel := channel)])
  }

  // syncChannelCharge and syncChannelRefund: report, and queue the report on an error.
  function Sync(b: Books, report: Report, d: Delivery): Books
    requires report.record in b.records
  {
    var sent := b.(issued := b.issued + {report});
    if d.platformOk then
      SetChannel(sent.(acknowledged := sent.acknowledged + {report}), report.record, Delivered)
    else
      var marked := SetChannel(sent, report.record, Undelivered);
      if d.enqueueOk then marked.(outbox := marked.outbox[d.entry := Entry(report, Pending, 0, d.now)]) else marked
  }

  function RecordCharge(b: Books, newId: Id, eventId: string, reported: bool, d: Delivery): Books {
    if Recorded(b, eventId) then b
    else
      var added := b.(records := b.records[newId := Record(eventId, false, if reported then Waiting else Skipped)]);
      if reported then Sync(added, ChargeReport(newId), d) else added
  }

  function RefundCharge(b: Books, id: Id, refundEvent: string, amount: int, d: Delivery): Books {
    if id !in b.records then b
    else
      var refunded := b.(records := b.records[id := b.records[id].(refunded := true)]);
      Sync(refunded, RefundReport(id, refundEvent, amount), d)
  }

  function SetEntry(b: Books, id: Id, entry: Entry): Books {
    b.(outbox := b.outbox[id := entry])
  }

  // replayOutboxEvent for one row.
  function ReplayEntry(b: Books, id: Id, platformOk: bool, now: nat): Books
    requires id in b.outbox
  {
    var tried := b.outbox[id].(attempts := b.outbox[id].attempts + 1);
    var record := tried.report.record;
    if record !in b.records then SetEntry(b, id, tried.(status := Failed))
    else if !platformOk then
      SetEntry(b.(issued := b.issued + {tried.report}), id, tried.(status := Failed, availableAt := now + RETRY_DELAY))
    else
      var acked := b.(issued := b.issued + {tried.report}, acknowledged := b.acknowledged + {tried.report});
      SetEntry(SetChannel(acked, record, Delivered), id, tried.(status := Succeeded))
  }

  predicate ReplaySucceeds(b: Books, id: Id, platformOk: bool)
    requires id in b.outbox
  {
    b.outbox[id].report.record in b.records && platformOk
  }

  // The rows of one replay, in order; answers(id) is the platform's answer.
  function ReplayAll(b: Books, ids: seq<Id>, answers: Id -> bool, now: nat): (Books, Tally)
    requires forall id :: id in ids ==> id in b.outbox
    ensures ReplayAll(b, ids, answers, now).0.outbox.Keys == b.outbox.Keys
  {
    if ids == [] then (b, Tally(0, 0, 0))
    else
      var init, last := ids[..|ids| - 1], ids[|ids| - 1];
      var (c, t) := ReplayAll(b, init, answers, now);
      assert last in ids;
      (ReplayEntry(c, last, answers(last), now),
       if ReplaySucceeds(c, last, answers(last)) then Tally(t.processed + 1, t.succeeded + 1, t.failed)
       else Tally(t.processed + 1, t.succeeded, t.failed + 1))
  }

  // ---- Selecting the rows to replay ----

  function Replayable(outbox: map<Id, Entry>, now: nat): set<Id> {
    set id | id in outbox && outbox[id].Open() && outbox[id].availableAt <= now
  }

  // Order by available_at, then by creation.
  predicate Before(outbox: map<Id, Entry>, x: Id, y: Id)
    requires x in outbox && y in outbox
  {
    outbox[x].availableAt < outbox[y].availableAt || (outbox[x].availableAt == outbox[y].availableAt && x <= y)
  }

  predicate IsFirst(outbox: map<Id, Entry>, ids: set<Id>, x: Id)
    requires ids <= outbox.Keys
  {
    x in ids && forall y :: y in ids ==> Before(outbox, x, y)
  }

  lemma FirstExists(outbox: map<Id, Entry>, ids: set<Id>)
    requires ids <= outbox.Keys && ids != {}
    ensures exists x :: IsFirst(outbox, ids, x)
  {
    var x :| x in ids;
    if ids == {x} {
      assert IsFirst(outbox, ids, x);
    } else {
      FirstExists(outbox, ids - {x});
      var y :| IsFirst(outbox, ids - {x}, y);
      var first := if Before(outbox, x, y) then x else y;
      forall z | z in ids
        ensures Before(outbox, first, z)
      {
        if z != x {
          assert z in ids - {x};
          assert Before(outbox, y, z);
        }
      }
      assert IsFirst(outbox, ids, first);
    }
  }

  // The selection answered by the repository: at most limit replayable rows,
  // each one first among those that remain.
  ghost predicate Selection(outbox: map<Id, Entry>, ids: set<Id>, limit: nat, picked: seq<Id>)
    requires ids <= outbox.Keys
    decreases limit
  {
    if limit == 0 || ids == {} then picked == []
    else picked != [] && IsFirst(outbox, ids, picked[0]) && Selection(outbox, ids - {picked[0]}, limit - 1, picked[1..])
  }

  lemma {:induction false} SelectionIsDistinct(outbox: map<Id, Entry>, ids: set<Id>, limit: nat, picked: seq<Id>)
    requires ids <= outbox.Keys && Selection(outbox, ids, limit, picked)
    ensures |picked| == if |ids| <= limit then |ids| else limit
    ensures forall id :: id in picked ==> id in ids
    ensures forall i, j :: 0 <= i < j < |picked| ==> picked[i] != picked[j]
    decreases limit
  {
    if limit != 0 && ids != {} {
      SelectionIsDistinct(outbox, ids - {picked[0]}, limit - 1, picked[1..]);
      assert picked == [picked[0]] + picked[1..];
      assert forall i :: 1 <= i < |picked| ==> picked[i] == picked[1..][i - 1];
    }
  }

  function Limit(limit: int): nat {
    if limit <= 0 then DEFAULT_LIMIT else limit
  }

  method PickFirst(outbox: map<Id, Entry>, ids: set<Id>, limit: nat) returns (picked: seq<Id>)
    requires ids <= outbox.Keys
    ensures Selection(outbox, ids, limit, picked)
    decreases limit
  {
    if limit == 0 || ids == {} {
      return [];
    }
    FirstExists(outbox, ids);
    var x :| x in ids && IsFirst(outbox, ids, x);
    var rest := PickFirst(outbox, ids - {x}, limit - 1);
    picked := [x] + rest;
    assert picked[1..] == rest;
  }

  // ---- The service ----

  class BillingService {
    var records: map<Id, Record>
    var outbox: map<Id, Entry>
    ghost var issued: set<Report>
    ghost var acknowledged: set<Report>

    ghost function Tables(): Books
      reads this
    {
      Books(records, outbox, issued, acknowledged)
    }

    constructor ()
      ensures Tables() == Books(map[], map[], {}, {})
    {
      records, outbox, issued, acknowledged := map[], map[], {}, {};
    }

    // Ask the platform to book a report and note the answer on the record.
    method TryChannel(report: Report, platformOk: bool)
      requires report.record in records
      modifies this`records, this`issued, this`acknowledged
      ensures Tables() == if platformOk
                          then SetChannel(old(Tables()).(issued := old(issued) + {report}, acknowledged := old(acknowledged) + {report}), report.record, Delivered)
                          else old(Tables()).(issued := old(issued) + {report})
    {
      issued := issued + {report};
      if platformOk {
        acknowledged := acknowledged + {report};
        records := records[report.record := records[report.record].(channel := Delivered)];
      }
    }

    method SyncChannel(report: Report, d: Delivery)
      requires report.record in records
      modifies this
      ensures Tables() == Sync(old(Tables()), report, d)
    {
      TryChannel(report, d.platformOk);
      if !d.platformOk {
        records := records[report.record := records[report.record].(channel := Undelivered)];
        if d.enqueueOk {
          outbox := outbox[d.entry := Entry(report, Pending, 0, d.now)];
        }
      }
    }

    method RecordChargeEvent(newId: Id, eventId: string, reported: bool, d: Delivery)
      modifies this
      ensures Tables() == RecordCharge(old(Tables()), newId, eventId, reported, d)
    {
      if exists id :: id in records && records[id].eventId == eventId {
        return;
      }
      records := records[newId := Record(eventId, false, if reported then Waiting else Skipped)];
      if reported {
        SyncChannel(ChargeReport(newId), d);
      }
    }

    method RefundChargeRecord(id: Id, refundEvent: string, amount: int, d: Delivery) returns (found: bool)
      modifies this
      ensures found == (id in old(records))
      ensures Tables() == RefundCharge(old(Tables()), id, refundEvent, amount, d)
    {
      if id !in records {
        return false;
      }
      records := records[id := records[id].(refunded := true)];
      SyncChannel(RefundReport(id, refundEvent, amount), d);
      return true;
    }

    method ListReplayable(limit: int, now: nat) returns (picked: seq<Id>)
      ensures Selection(outbox, Replayable(outbox, now), Limit(limit), picked)
    {
      picked := PickFirst(outbox, Replayable(outbox, now), Limit(limit));
    }

    // A row is saved as processing first, and leaves that state before the call ends.
    method ReplayOutboxEvent(id: Id, platformOk: bool, now: nat) returns (ok: bool)
      requires id in outbox
      modifies this
      ensures Tables() == ReplayEntry(old(Tables()), id, platformOk, now)
      ensures ok == ReplaySucceeds(old(Tables()), id, platformOk)
    {
      var item := outbox[id].(attempts := outbox[id].attempts + 1, status := Processing);
      outbox := outbox[id := item];
      if item.report.record !in records {
        outbox := outbox[id := item.(status := Failed)];
        return false;
      }
      TryChannel(item.report, platformOk);
      if !platformOk {
        outbox := outbox[id := item.(status := Failed, availableAt := now + RETRY_DELAY)];
        return false;
      }
      outbox := outbox[id := item.(status := Succeeded)];
      return true;
    }

    method ReplayItems(items: seq<Id>, now: nat, answers: Id -> bool) returns (tally: Tally)
      requires forall id :: id in items ==> id in outbox
      modifies this
      ensures (Tables(), tally) == ReplayAll(old(Tables()), items, answers, now)
    {
      hide ReplayEntry;
      ghost var before := Tables();
      tally := Tally(0, 0, 0);
      var i := 0;
      while i < |items|
        invariant 0 <= i <= |items|
        invariant (Tables(), tally) == ReplayAll(before, items[..i], answers, now)
      {
        ReplayAllStep(before, items, i, answers, now);
        var ok := ReplayOutboxEvent(items[i], answers(items[i]), now);
        if ok {
          tally := Tally(tally.processed + 1, tally.succeeded + 1, tally.failed);
        } else {
          tally := Tally(tally.processed + 1, tally.succeeded, tally.failed + 1);
        }
        i := i + 1;
      }
      assert items[..i] == items;
    }

    method ReplayOutbox(limit: int, now: nat, answers: Id -> bool) returns (ghost picked: seq<Id>, tally: Tally)
      modifies this
      ensures Selection(old(outbox), Replayable(old(outbox), now), Limit(limit), picked)
      ensures forall id :: id in picked ==> id in old(outbox)
      ensures (Tables(), tally) == ReplayAll(old(Tables()), picked, answers, now)
    {
      var items := ListReplayable(limit, now);
      picked := items;
      SelectionIsDistinct(outbox, Replayable(outbox, now), Limit(limit), items);
      tally := ReplayItems(items, now, answers);
    }
  }

  lemma ReplayAllStep(b: Books, ids: seq<Id>, i: nat, answers: Id -> bool, now: nat)
    requires i < |ids| && forall id :: id in ids ==> id in b.outbox
    ensures var (c, t) := ReplayAll(b, ids[..i], answers, now);
            && ids[i] in c.outbox
            && ReplayAll(b, ids[..i + 1], answers, now)
            == (ReplayEntry(c, ids[i], answers(ids[i]), now),
                if ReplaySucceeds(c, ids[i], answers(ids[i])) then Tally(t.processed + 1, t.succeeded + 1, t.failed)
                else Tally(t.processed + 1, t.succeeded, t.failed + 1))
  {
    assert ids[..i + 1][..i] == ids[..i];
    assert ids[i] in ids;
  }

  // ---- Runs ----

  datatype Step =
    | Charge(newId: Id, eventId: string, reported: bool, delivery: Delivery)
    | Refund(id: Id, refundEvent: string, amount: int, delivery: Delivery)
    | Replay(picked: seq<Id>, answers: Id -> bool, now: nat)

  // Generated ids are new; a replay picks existing rows.
  predicate Enabled(b: Books, s: Step) {
    match s
    case Charge(newId, _, _, d) => newId !in b.records && d.entry !in b.outbox
    case Refund(_, _, _, d) => d.entry !in b.outbox
    case Replay(picked, _, _) => forall id :: id in picked ==> id in b.outbox
  }

  function Apply(b: Books, s: Step): Books
    requires Enabled(b, s)
  {
    match s
    case Charge(newId, eventId, reported, d) => RecordCharge(b, newId, eventId, reported, d)
    case Refund(id, refundEvent, amount, d) => RefundCharge(b, id, refundEvent, amount, d)
    case Replay(picked, answers, now) => ReplayAll(b, picked, answers, now).0
  }

  // The books after every call of a run.
  ghost predicate IsRun(trace: seq<Books>, steps: seq<Step>) {
    && |trace| == |steps| + 1
    && trace[0] == Books(map[], map[], {}, {})
    && forall i :: 0 <= i < |steps| ==> Enabled(trace[i], steps[i]) && trace[i + 1] == Apply(trace[i], steps[i])
  }

  ghost predicate HasOpenEntry(b: Books, report: Report) {
    exists e :: e in b.outbox && b.outbox[e].report == report && b.outbox[e].Open()
  }

  ghost predicate RecordHasOpenEntry(b: Books, id: Id) {
    exists e :: e in b.outbox && b.outbox[e].report.record == id && b.outbox[e].Open()
  }

  // Every issued report is acknowledged or waits in an open entry; no entry is
  // left processing; a record marked undelivered has an open entry.
  ghost predicate NothingLost(b: Books) {
    && (forall r :: r in b.issued ==> r in b.acknowledged || HasOpenEntry(b, r))
    && (forall e :: e in b.outbox ==> b.outbox[e].status != Processing && b.outbox[e].report in b.issued && b.outbox[e].report.record in b.records)
    && (forall id :: id in b.records && b.records[id].channel == Undelivered ==> RecordHasOpenEntry(b, id))
  }

  predicate EventsUnique(b: Books) {
    forall x, y :: x in b.records && y in b.records && b.records[x].eventId == b.records[y].eventId ==> x == y
  }

  lemma SyncLosesNothing(b: Books, report: Report, d: Delivery)
    requires NothingLost(b) && report.record in b.records && d.entry !in b.outbox
    requires d.platformOk || d.enqueueOk
    ensures NothingLost(Sync(b, report, d))
  {
    var c := Sync(b, report, d);
    assert forall e :: e in b.outbox ==> e in c.outbox && c.outbox[e] == b.outbox[e];
    forall r | r in c.issued
      ensures r in c.acknowledged || HasOpenEntry(c, r)
    {
      if r == report && !d.platformOk {
        assert c.outbox[d.entry].report == report && c.outbox[d.entry].Open();
      } else if r in b.issued && r !in b.acknowledged {
        var e :| e in b.outbox && b.outbox[e].report == r && b.outbox[e].Open();
        assert c.outbox[e].report == r;
      }
    }
    forall id | id in c.records && c.records[id].channel == Undelivered
      ensures RecordHasOpenEntry(c, id)
    {
      if id == report.record {
        assert c.outbox[d.entry].report.record == id && c.outbox[d.entry].Open();
      } else {
        var e :| e in b.outbox && b.outbox[e].report.record == id && b.outbox[e].Open();
        assert c.outbox[e].report.record == id;
      }
    }
  }

  lemma ReplayEntryLosesNothing(b: Books, id: Id, platformOk: bool, now: nat)
    requires NothingLost(b) && id in b.outbox
    ensures NothingLost(ReplayEntry(b, id, platformOk, now))
  {
    var c := ReplayEntry(b, id, platformOk, now);
    var report := b.outbox[id].report;
    forall r | r in c.issued
      ensures r in c.acknowledged || HasOpenEntry(c, r)
    {
      if r !in c.acknowledged {
        var e :| e in b.outbox && b.outbox[e].report == r && b.outbox[e].Open();
        assert c.outbox[e].report == r && c.outbox[e].Open();
      }
    }
    forall x | x in c.records && c.records[x].channel == Undelivered
      ensures RecordHasOpenEntry(c, x)
    {
      assert b.records[x].channel == Undelivered;
      var e :| e in b.outbox && b.outbox[e].report.record == x && b.outbox[e].Open();
      assert c.outbox[e].report.record == x && c.outbox[e].Open();
    }
  }

  lemma {:induction false} ReplayAllLosesNothing(b: Books, ids: seq<Id>, answers: Id -> bool, now: nat)
    requires NothingLost(b) && forall id :: id in ids ==> id in b.outbox
    ensures NothingLost(ReplayAll(b, ids, answers, now).0)
  {
    if ids != [] {
      var init, last := ids[..|ids| - 1], ids[|ids| - 1];
      assert last in ids;
      ReplayAllLosesNothing(b, init, answers, now);
      ReplayEntryLosesNothing(ReplayAll(b, init, answers, now).0, last, answers(last), now);
    }
  }

  lemma {:induction false} ReplayAllKeepsEvents(b: Books, ids: seq<Id>, answers: Id -> bool, now: nat)
    requires EventsUnique(b) && forall id :: id in ids ==> id in b.outbox
    ensures EventsUnique(ReplayAll(b, ids, answers, now).0)
  {
    if ids != [] {
      assert ids[|ids| - 1] in ids;
      ReplayAllKeepsEvents(b, ids[..|ids| - 1], answers, now);
    }
  }

  // Replay counts add up, and count the rows picked.
  lemma {:induction false} ReplayCounts(b: Books, ids: seq<Id>, answers: Id -> bool, now: nat)
    requires forall id :: id in ids ==> id in b.outbox
    ensures var t := ReplayAll(b, ids, answers, now).1;
            t.processed == |ids| && t.processed == t.succeeded + t.failed
  {
    if ids != [] {
      ReplayCounts(b, ids[..|ids| - 1], answers, now);
    }
  }

  // The row of a queued report can always be inserted.
  predicate Enqueues(s: Step) {
    match s
    case Charge(_, _, _, d) => d.enqueueOk
    case Refund(_, _, _, d) => d.enqueueOk
    case Replay(_, _, _) => true
  }

  // Writing records without marking any undelivered loses nothing.
  lemma RecordsLoseNothing(b: Books, records: map<Id, Record>)
    requires NothingLost(b) && b.records.Keys <= records.Keys
    requires forall id :: id in records && records[id].channel == Undelivered ==> id in b.records && b.records[id].channel == Undelivered
    ensures NothingLost(b.(records := records))
  {
    var c := b.(records := records);
    assert forall r :: HasOpenEntry(b, r) ==> HasOpenEntry(c, r);
    assert forall id :: RecordHasOpenEntry(b, id) ==> RecordHasOpenEntry(c, id);
  }

  lemma StepLosesNothing(b: Books, s: Step)
    requires NothingLost(b) && Enabled(b, s) && Enqueues(s)
    ensures NothingLost(Apply(b, s))
  {
    hide NothingLost, Sync, ReplayAll;
    match s
    case Charge(newId, eventId, reported, d) =>
      if !Recorded(b, eventId) {
        var records := b.records[newId := Record(eventId, false, if reported then Waiting else Skipped)];
        RecordsLoseNothing(b, records);
        if reported {
          SyncLosesNothing(b.(records := records), ChargeReport(newId), d);
        }
      }
    case Refund(id, refundEvent, amount, d) =>
      if id in b.records {
        var records := b.records[id := b.records[id].(refunded := true)];
        RecordsLoseNothing(b, records);
        SyncLosesNothing(b.(records := records), RefundReport(id, refundEvent, amount), d);
      }
    case Replay(picked, answers, now) =>
      ReplayAllLosesNothing(b, picked, answers, now);
  }

  lemma StepKeepsEventsUnique(b: Books, s: Step)
    requires EventsUnique(b) && Enabled(b, s)
    ensures EventsUnique(Apply(b, s))
  {
    if s.Replay? {
      ReplayAllKeepsEvents(b, s.picked, s.answers, s.now);
    }
  }

  // No channel report is lost: the invariant holds at every call boundary of every run.
  lemma {:induction false} NoReportIsLost(trace: seq<Books>, steps: seq<Step>, n: nat)
    requires IsRun(trace, steps) && n <= |steps|
    requires forall s :: s in steps ==> Enqueues(s)
    ensures NothingLost(trace[n]) && EventsUnique(trace[n])
  {
    if n > 0 {
      NoReportIsLost(trace, steps, n - 1);
      assert steps[n - 1] in steps;
      StepLosesNothing(trace[n - 1], steps[n - 1]);
      StepKeepsEventsUnique(trace[n - 1], steps[n - 1]);
    }
  }

  // ---- Which reports are lost ----

  ghost predicate Covered(b: Books, report: Report) {
    report in b.acknowledged || HasOpenEntry(b, report)
  }

  // The report a call makes first-hand, if any.
  function Sends(b: Books, s: Step): Option<(Report, Delivery)> {
    match s
    case Charge(newId, eventId, reported, d) => if !Recorded(b, eventId) && reported then Some((ChargeReport(newId), d)) else None
    case Refund(id, refundEvent, amount, d) => if id in b.records then Some((RefundReport(id, refundEvent, amount), d)) else None
    case Replay(_, _, _) => None
  }

  predicate SendsReport(b: Books, s: Step, report: Report) {
    Sends(b, s).Some? && Sends(b, s).value.0 == report
  }

  // The platform or the outbox took it.
  predicate Takes(b: Books, s: Step, report: Report) {
    SendsReport(b, s, report) && (Sends(b, s).value.1.platformOk || Sends(b, s).value.1.enqueueOk)
  }

  // Entries stand for issued reports, and are open until acknowledged.
  predicate EntriesAnswered(b: Books) {
    && (forall e :: e in b.outbox ==> b.outbox[e].report in b.issued && (b.outbox[e].Open() || b.outbox[e].report in b.acknowledged))
    && b.acknowledged <= b.issued
  }

  lemma SyncCovers(b: Books, report: Report, d: Delivery, r: Report)
    requires EntriesAnswered(b) && report.record in b.records && d.entry !in b.outbox
    ensures var c := Sync(b, report, d);
            && EntriesAnswered(c) && c.issued == b.issued + {report}
            && (Covered(c, r) <==> Covered(b, r) || (r == report && (d.platformOk || d.enqueueOk)))
  {
    var c := Sync(b, report, d);
    assert forall e :: e in b.outbox ==> e in c.outbox && c.outbox[e] == b.outbox[e];
    if !d.platformOk && d.enqueueOk {
      assert c.outbox[d.entry].report == report && c.outbox[d.entry].Open();
    }
  }

  lemma ReplayEntryCovers(b: Books, id: Id, platformOk: bool, now: nat, r: Report)
    requires EntriesAnswered(b) && id in b.outbox
    ensures var c := ReplayEntry(b, id, platformOk, now);
            EntriesAnswered(c) && c.issued == b.issued && (Covered(c, r) <==> Covered(b, r))
  {
    var c := ReplayEntry(b, id, platformOk, now);
    if HasOpenEntry(b, r) {
      var e :| e in b.outbox && b.outbox[e].report == r && b.outbox[e].Open();
      assert c.outbox[e].report == r;
    }
    if HasOpenEntry(c, r) {
      var e :| e in c.outbox && c.outbox[e].report == r && c.outbox[e].Open();
      assert b.outbox[e].report == r;
    }
  }

  lemma {:induction false} ReplayAllCovers(b: Books, ids: seq<Id>, answers: Id -> bool, now: nat, r: Report)
    requires EntriesAnswered(b) && forall id :: id in ids ==> id in b.outbox
    ensures var c := ReplayAll(b, ids, answers, now).0;
            EntriesAnswered(c) && c.issued == b.issued && (Covered(c, r) <==> Covered(b, r))
  {
    hide EntriesAnswered, ReplayEntry, Covered;
    if ids != [] {
      var init, last := ids[..|ids| - 1], ids[|ids| - 1];
      assert last in ids;
      ReplayAllCovers(b, init, answers, now, r);
      ReplayEntryCovers(ReplayAll(b, init, answers, now).0, last, answers(last), now, r);
    }
  }

  // A step covers the report it sends if that is taken, and uncovers none.
  lemma StepCovers(b: Books, s: Step, r: Report)
    requires EntriesAnswered(b) && Enabled(b, s)
    ensures var c := Apply(b, s);
            && EntriesAnswered(c)
            && (r in c.issued <==> r in b.issued || SendsReport(b, s, r))
            && (Covered(c, r) <==> Covered(b, r) || Takes(b, s, r))
  {
    hide Sync, ReplayAll, Recorded;
    match s
    case Charge(newId, eventId, reported, d) =>
      var added := b.(records := b.records[newId := Record(eventId, false, if reported then Waiting else Skipped)]);
      assert Covered(added, r) == Covered(b, r);
      SyncCovers(added, ChargeReport(newId), d, r);
    case Refund(id, refundEvent, amount, d) =>
      if id in b.records {
        var refunded := b.(records := b.records[id := b.records[id].(refunded := true)]);
        assert Covered(refunded, r) == Covered(b, r);
        SyncCovers(refunded, RefundReport(id, refundEvent, amount), d, r);
      }
    case Replay(picked, answers, now) =>
      ReplayAllCovers(b, picked, answers, now, r);
  }

  lemma {:induction false} RunCovers(trace: seq<Books>, steps: seq<Step>, n: nat, r: Report)
    requires IsRun(trace, steps) && n <= |steps|
    ensures EntriesAnswered(trace[n])
    ensures r in trace[n].issued <==> exists i: nat :: i < n && SendsReport(trace[i], steps[i], r)
    ensures Covered(trace[n], r) <==> exists i: nat :: i < n && Takes(trace[i], steps[i], r)
  {
    hide EntriesAnswered, Apply, Sends, Enabled;
    if n == 0 {
      NothingYet(trace[0], r);
    } else {
      RunCovers(trace, steps, n - 1, r);
      StepCovers(trace[n - 1], steps[n - 1], r);
    }
  }

  lemma NothingYet(b: Books, r: Report)
    requires b == Books(map[], map[], {}, {})
    ensures EntriesAnswered(b) && !Covered(b, r)
  {
  }

  // Whatever fails: a report is neither acknowledged nor waiting after a run
  // exactly when it was sent and neither platform nor outbox took any sending.
  lemma ReportIsLostIff(trace: seq<Books>, steps: seq<Step>, n: nat, r: Report)
    requires IsRun(trace, steps) && n <= |steps|
    ensures r in trace[n].issued && !Covered(trace[n], r) <==>
              && (exists i: nat :: i < n && SendsReport(trace[i], steps[i], r))
              && (forall i: nat :: i < n ==> !Takes(trace[i], steps[i], r))
  {
    hide IsRun, Covered, Takes, SendsReport;
    RunCovers(trace, steps, n, r);
  }

  // The report of one charge, which the platform refuses while the outbox row
  // cannot be inserted.
  lemma RefusedReportIsLost()
    ensures var start, step := Books(map[], map[], {}, {}), Charge(1, "event", true, Delivery(false, 2, 0, false));
            && Enabled(start, step)
            && IsRun([start, Apply(start, step)], [step])
            && ChargeReport(1) in Apply(start, step).issued && !Covered(Apply(start, step), ChargeReport(1))
  {
    var start, step := Books(map[], map[], {}, {}), Charge(1, "event", true, Delivery(false, 2, 0, false));
    assert !Recorded(start, "event") && !Takes(start, step, ChargeReport(1));
    NothingYet(start, ChargeReport(1));
    StepCovers(start, step, ChargeReport(1));
  }

  // A record's event id identifies it, so recording the event again changes
  // nothing and issues nothing.
  lemma RecordingAgainIssuesNothing(b: Books, first: Step, again: Step)
    requires first.Charge? && again.Charge? && first.eventId == again.eventId
    requires Enabled(b, first) && Enabled(Apply(b, first), again)
    ensures Apply(Apply(b, first), again) == Apply(b, first)
  {
    var c := Apply(b, first);
    if Recorded(b, first.eventId) {
      assert c == b;
    } else {
      assert c.records[first.newId].eventId == first.eventId;
    }
  }

  // ---- What a call writes ----

  // A report is sent; the record and the books note the platform's answer, and
  // a refused report gets a pending row when that can be inserted. Nothing
  // else changes.
  lemma SyncReports(b: Books, report: Report, d: Delivery)
    requires report.record in b.records
    ensures var c := Sync(b, report, d);
            && c.issued == b.issued + {report}
            && c.acknowledged == b.acknowledged + (if d.platformOk then {report} else {})
            && c.records.Keys == b.records.Keys
            && (forall x :: x in b.records && x != report.record ==> c.records[x] == b.records[x])
            && c.records[report.record].channel == (if d.platformOk then Delivered else Undelivered)
            && c.records[report.record].eventId == b.records[report.record].eventId
            && c.records[report.record].refunded == b.records[report.record].refunded
            && c.outbox == if d.platformOk || !d.enqueueOk then b.outbox else b.outbox[d.entry := Entry(report, Pending, 0, d.now)]
  {
  }

  // A charge is recorded unless its event was, and reported when asked; a
  // refund marks its record, if there is one, and is reported.
  lemma CallsReport(b: Books, id: Id, event: string, reported: bool, amount: int, d: Delivery)
    ensures var c := RecordCharge(b, id, event, reported, d);
            var known := exists x :: x in b.records && b.records[x].eventId == event;
            && (known ==> c == b)
            && (!known ==>
                  && c.records.Keys == b.records.Keys + {id}
                  && c.records[id].eventId == event && !c.records[id].refunded
                  && c.records[id].channel == (if !reported then Skipped else if d.platformOk then Delivered else Undelivered)
                  && c.issued == b.issued + (if reported then {ChargeReport(id)} else {})
                  && c.acknowledged == b.acknowledged + (if reported && d.platformOk then {ChargeReport(id)} else {}))
    ensures var c := RefundCharge(b, id, event, amount, d);
            && (id !in b.records ==> c == b)
            && (id in b.records ==>
                  && c.records.Keys == b.records.Keys
                  && c.records[id].refunded && c.records[id].channel == (if d.platformOk then Delivered else Undelivered)
                  && c.records[id].eventId == b.records[id].eventId
                  && c.issued == b.issued + {RefundReport(id, event, amount)}
                  && c.acknowledged == b.acknowledged + (if d.platformOk then {RefundReport(id, event, amount)} else {}))
  {
    hide Sync;
    if !Recorded(b, event) && reported {
      SyncReports(b.(records := b.records[id := Record(event, false, Waiting)]), ChargeReport(id), d);
    }
    if id in b.records {
      SyncReports(b.(records := b.records[id := b.records[id].(refunded := true)]), RefundReport(id, event, amount), d);
    }
  }

  // A replayed row counts one more attempt. It ends succeeded, its report
  // acknowledged and its record delivered, iff its record exists and the
  // platform took the report; otherwise it has failed, a refused one with a
  // later time, and no record changes.
  lemma ReplayReports(b: Books, id: Id, platformOk: bool, now: nat)
    requires id in b.outbox
    ensures var c := ReplayEntry(b, id, platformOk, now);
            var row, found := b.outbox[id], b.outbox[id].report.record in b.records;
            && c.outbox.Keys == b.outbox.Keys
            && (forall x :: x in b.outbox && x != id ==> c.outbox[x] == b.outbox[x])
            && c.outbox[id].report == row.report && c.outbox[id].attempts == row.attempts + 1
            && c.outbox[id].status == (if found && platformOk then Succeeded else Failed)
            && c.outbox[id].availableAt == (if found && !platformOk then now + RETRY_DELAY else row.availableAt)
            && c.issued == b.issued + (if found then {row.report} else {})
            && c.acknowledged == b.acknowledged + (if found && platformOk then {row.report} else {})
            && c.records == (if found && platformOk then b.records[row.report.record := b.records[row.report.record].(channel := Delivered)] else b.records)
            && (ReplaySucceeds(b, id, platformOk) <==> found && platformOk)
  {
  }

  // x is tried before y.
  predicate Earlier(outbox: map<Id, Entry>, x: Id, y: Id) {
    && x in outbox && y in outbox
    && (outbox[x].availableAt < outbox[y].availableAt || (outbox[x].availableAt == outbox[y].availableAt && x < y))
  }

  lemma {:induction false} SelectionIsInOrder(outbox: map<Id, Entry>, ids: set<Id>, limit: nat, picked: seq<Id>)
    requires ids <= outbox.Keys && Selection(outbox, ids, limit, picked)
    ensures forall i, j :: 0 <= i < j < |picked| ==> Earlier(outbox, picked[i], picked[j])
    ensures forall i, z :: 0 <= i < |picked| && z in ids && z !in picked ==> Earlier(outbox, picked[i], z)
    decreases limit
  {
    SelectionIsDistinct(outbox, ids, limit, picked);
    if limit != 0 && ids != {} {
      SelectionIsInOrder(outbox, ids - {picked[0]}, limit - 1, picked[1..]);
      assert forall i :: 1 <= i < |picked| ==> picked[i] == picked[1..][i - 1];
      assert forall z :: z in ids && z != picked[0] ==> Earlier(outbox, picked[0], z);
      assert forall z :: z in picked[1..] ==> z in picked;
      assert picked[0] in picked;
    }
  }

  // Picked are the pending and failed rows whose time has come, by time and
  // age, all of them or as many as the limit allows: 20 when none is given.
  lemma ReplayPicks(outbox: map<Id, Entry>, limit: int, now: nat, picked: seq<Id>)
    requires Selection(outbox, Replayable(outbox, now), Limit(limit), picked)
    ensures forall z :: z in picked ==>
              z in outbox && outbox[z].availableAt <= now && (outbox[z].status == Pending || outbox[z].status == Failed)
    ensures |picked| <= if limit <= 0 then 20 else limit
    ensures forall z :: z in outbox && (outbox[z].status == Pending || outbox[z].status == Failed) && outbox[z].availableAt <= now && z !in picked ==>
              && |picked| == (if limit <= 0 then 20 else limit)
              && forall i :: 0 <= i < |picked| ==> Earlier(outbox, picked[i], z)
    ensures forall i, j :: 0 <= i < j < |picked| ==> Earlier(outbox, picked[i], picked[j])
  {
    var ids := Replayable(outbox, now);
    SelectionIsDistinct(outbox, ids, Limit(limit), picked);
    SelectionIsInOrder(outbox, ids, Limit(limit), picked);
    if |ids| <= Limit(limit) {
      AllArePicked(ids, picked);
    }
  }

  lemma {:induction false} AllArePicked(ids: set<Id>, picked: seq<Id>)
    requires |picked| == |ids| && forall id :: id in picked ==> id in ids
    requires forall i, j :: 0 <= i < j < |picked| ==> picked[i] != picked[j]
    ensures forall id :: id in ids ==> id in picked
  {
    if picked != [] {
      var rest := picked[1..];
      assert picked == [picked[0]] + rest;
      assert forall i :: 0 <= i < |rest| ==> rest[i] == picked[i + 1];
      AllArePicked(ids - {picked[0]}, rest);
    }
  }
}
