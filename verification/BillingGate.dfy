/** The billing gate in front of the platform: reserve before the work, commit
    when it succeeded, release when it did not. The platform is a ledger; each
    of its calls may be applied, refused, or applied behind a reported error. */
module BillingGate {
  import opened Options

  datatype ReservationState = Open | Consumed | Released
  datatype SessionStatus = Created | Reserved | Settled | Closed

  // What the platform holds for one organisation. Finalizations carry an id
  // derived from their source, and a repeated one is answered without effect.
  datatype Ledger = Ledger(
    granted: nat,
    available: nat,
    consumed: nat,
    reservations: map<Id, ReservationState>,
    sessions: map<Id, SessionStatus>,
    settlements: set<Id>,
    releaseRequests: seq<Id>)

  // A charge in progress; blank ids are None.
  datatype Context = Context(source: Id, session: Option<Id>, reservation: Option<Id>)

  datatype Reply = Applied | Refused | AppliedButLost {
    predicate Took() {
      this != Refused
    }
  }

  // Lost: the platform made it, but the caller got an error. The id of an
  // opened session may be blank.
  datatype SessionAnswer = SessionRefused | SessionLost(lost: Id) | SessionOpened(id: Option<Id>)

  // Lost also stands for an answer without an id.
  datatype ReserveAnswer = ReserveRefused | ReserveLost(lost: Id) | ReserveMade(id: Id) {
    function Made(): Option<Id> {
      match this
      case ReserveRefused => None
      case ReserveLost(r) => Some(r)
      case ReserveMade(r) => Some(r)
    }
  }

  // ---- Platform calls ----

  function ReserveResources(l: Ledger, id: Id): Ledger
    requires l.available > 0
  {
    l.(available := l.available - 1, reservations := l.reservations[id := Open])
  }

  predicate IsOpen(l: Ledger, id: Id) {
    id in l.reservations && l.reservations[id] == Open
  }

  function FinalizeMetering(l: Ledger, ctx: Context, finalize: Reply): (Ledger, bool) {
    if finalize == Refused then (l, false)
    else if ctx.source in l.settlements then (l, finalize == Applied)
    else
      match ctx.reservation
      case None => (l.(settlements := l.settlements + {ctx.source}), finalize == Applied)
      case Some(r) =>
        if IsOpen(l, r) then
          (l.(settlements := l.settlements + {ctx.source}, reservations := l.reservations[r := Consumed], consumed := l.consumed + 1),
           finalize == Applied)
        else (l, false)
  }

  function ReleaseReservation(l: Ledger, id: Id, release: Reply): Ledger {
    var asked := l.(releaseRequests := l.releaseRequests + [id]);
    if release.Took() && IsOpen(l, id) then asked.(reservations := l.reservations[id := Released], available := l.available + 1) else asked
  }

  function UpdateSession(l: Ledger, id: Id, status: SessionStatus, update: Reply): Ledger {
    if update.Took() then l.(sessions := l.sessions[id := status]) else l
  }

  // ---- Gate ----

  function OpenSession(l: Ledger, id: Option<Id>): Ledger {
    match id
    case None => l
    case Some(s) => UpdateSession(l, s, Created, Applied)
  }

  // A reservation made behind an error is not released.
  function Reserve(l: Ledger, source: Id, session: Option<Id>, reserve: ReserveAnswer): (Ledger, Option<Context>) {
    if l.available == 0 then (l, None)
    else
      match reserve
      case ReserveRefused => (l, None)
      case ReserveLost(r) => (ReserveResources(l, r), None)
      case ReserveMade(r) => (ReserveResources(l, r), Some(Context(source, session, Some(r))))
  }

  function Begin(l: Ledger, source: Id, session: SessionAnswer, reserve: ReserveAnswer): (Ledger, Option<Context>) {
    match session
    case SessionRefused => (l, None)
    case SessionLost(s) => (UpdateSession(l, s, Created, Applied), None)
    case SessionOpened(s) => Reserve(OpenSession(l, s), source, s, reserve)
  }

  function MarkReserved(l: Ledger, ctx: Context, mark: Reply): (Ledger, bool) {
    match ctx.session
    case None => (l, false)
    case Some(s) => (UpdateSession(l, s, Reserved, mark), mark == Applied)
  }

  function Commit(l: Ledger, ctx: Context, finalize: Reply, settle: Reply): (Ledger, bool) {
    match ctx.session
    case None => (l, false)
    case Some(s) =>
      var (finalized, ok) := FinalizeMetering(l, ctx, finalize);
      if ok then (UpdateSession(finalized, s, Settled, settle), settle == Applied) else (finalized, false)
  }

  // Errors of the two calls are ignored.
  function Release(l: Ledger, ctx: Context, release: Reply, close: Reply): Ledger {
    var released := match ctx.reservation
      case None => l
      case Some(r) => ReleaseReservation(l, r, release);
    match ctx.session
    case None => released
    case Some(s) => UpdateSession(released, s, Closed, close)
  }

  class Gate {
    var ledger: Ledger

    constructor (l: Ledger)
      ensures ledger == l
    {
      ledger := l;
    }

    method BeginCharge(source: Id, session: SessionAnswer, reserve: ReserveAnswer) returns (ctx: Option<Context>)
      modifies this
      ensures (ledger, ctx) == Begin(old(ledger), source, session, reserve)
    {
      if session.SessionRefused? {
        return None;
      }
      if session.SessionLost? {
        ledger := UpdateSession(ledger, session.lost, Created, Applied);
        return None;
      }
      ledger := OpenSession(ledger, session.id);
      if ledger.available == 0 || reserve.ReserveRefused? {
        return None;
      }
      ledger := ReserveResources(ledger, reserve.Made().value);
      if reserve.ReserveLost? {
        return None;
      }
      return Some(Context(source, session.id, Some(reserve.id)));
    }

    method MarkChargeReserved(ctx: Context, mark: Reply) returns (done: bool)
      modifies this
      ensures (ledger, done) == MarkReserved(old(ledger), ctx, mark)
    {
      if ctx.session.None? {
        return false;
      }
      ledger := UpdateSession(ledger, ctx.session.value, Reserved, mark);
      return mark == Applied;
    }

    method CommitCharge(ctx: Context, finalize: Reply, settle: Reply) returns (done: bool)
      modifies this
      ensures (ledger, done) == Commit(old(ledger), ctx, finalize, settle)
    {
      if ctx.session.None? {
        return false;
      }
      var (finalized, ok) := FinalizeMetering(ledger, ctx, finalize);
      ledger := finalized;
      if !ok {
        return false;
      }
      ledger := UpdateSession(ledger, ctx.session.value, Settled, settle);
      return settle == Applied;
    }

    method ReleaseCharge(ctx: Context, release: Reply, close: Reply)
      modifies this
      ensures ledger == Release(old(ledger), ctx, release, close)
    {
      if ctx.reservation.Some? {
        ledger := ReleaseReservation(ledger, ctx.reservation.value, release);
      }
      if ctx.session.Some? {
        ledger := UpdateSession(ledger, ctx.session.value, Closed, close);
      }
    }

    // Mark the session and commit; release on any error.
    method CommitRowCharge(ctx: Context, a: Answers) returns (stage: Stage)
      modifies this
      ensures (ledger, stage) == CommitRow(old(ledger), ctx, a)
    {
      var isMarked := MarkChargeReserved(ctx, a.mark);
      if !isMarked {
        ReleaseCharge(ctx, a.release, a.close);
        return MarkFailed;
      }
      var committed := CommitCharge(ctx, a.finalize, a.settle);
      if !committed {
        ReleaseCharge(ctx, a.release, a.close);
        return CommitFailed;
      }
      return Billed;
    }
  }

  // ---- A billed row ----

  // The answers met while a row is created behind the gate.
  datatype Answers = Answers(
    session: SessionAnswer,
    reserve: ReserveAnswer,
    rowOk: bool,
    mark: Reply,
    finalize: Reply,
    settle: Reply,
    release: Reply,
    close: Reply)

  // Every call up to the settled session succeeds.
  predicate Willing(a: Answers) {
    && a.session.SessionOpened? && a.session.id.Some? && a.reserve.ReserveMade? && a.rowOk
    && a.mark == Applied && a.finalize == Applied && a.settle == Applied
  }

  datatype Stage = NotReserved | RowFailed | MarkFailed | CommitFailed | Billed {
    predicate RowExists() {
      MarkFailed? || CommitFailed? || Billed?
    }

    predicate FailedAfterReserve() {
      RowFailed? || MarkFailed? || CommitFailed?
    }
  }

  function CommitRow(l: Ledger, ctx: Context, a: Answers): (Ledger, Stage) {
    var (marked, isMarked) := MarkReserved(l, ctx, a.mark);
    if !isMarked then (Release(marked, ctx, a.release, a.close), MarkFailed)
    else
      var (committed, done) := Commit(marked, ctx, a.finalize, a.settle);
      if !done then (Release(committed, ctx, a.release, a.close), CommitFailed) else (committed, Billed)
  }

  // Insert the row, mark the session, commit; release on any error.
  function FinishRow(l: Ledger, ctx: Context, a: Answers): (Ledger, Stage) {
    if !a.rowOk then (Release(l, ctx, a.release, a.close), RowFailed) else CommitRow(l, ctx, a)
  }

  function BillRow(l: Ledger, source: Id, a: Answers): (Ledger, Stage) {
    var (reserved, begun) := Begin(l, source, a.session, a.reserve);
    match begun
    case None => (reserved, NotReserved)
    case Some(ctx) => FinishRow(reserved, ctx, a)
  }

  // ---- Properties ----

  function OpenIds(l: Ledger): set<Id> {
    set r | r in l.reservations && l.reservations[r] == Open
  }

  // Every granted unit is available, consumed or held by an open reservation.
  predicate Conserved(l: Ledger) {
    l.granted == l.available + l.consumed + |OpenIds(l)|
  }

  // Generated ids are new.
  predicate FreshFor(l: Ledger, source: Id, a: Answers) {
    source !in l.settlements && (a.reserve.Made().Some? ==> a.reserve.Made().value !in l.reservations)
  }

  lemma MakeConserves(l: Ledger, id: Id)
    requires l.available > 0 && id !in l.reservations
    ensures OpenIds(ReserveResources(l, id)) == OpenIds(l) + {id}
    ensures Conserved(l) ==> Conserved(ReserveResources(l, id))
  {
    var m := ReserveResources(l, id);
    forall r ensures r in OpenIds(m) <==> r in OpenIds(l) || r == id {
    }
    assert OpenIds(m) == OpenIds(l) + {id} && id !in OpenIds(l);
  }

  lemma SessionConserves(l: Ledger, id: Id, status: SessionStatus, update: Reply)
    ensures OpenIds(UpdateSession(l, id, status, update)) == OpenIds(l)
    ensures Conserved(l) ==> Conserved(UpdateSession(l, id, status, update))
  {
    assert OpenIds(UpdateSession(l, id, status, update)) == OpenIds(l);
  }

  lemma BeginConserves(l: Ledger, source: Id, session: SessionAnswer, reserve: ReserveAnswer)
    requires reserve.Made().Some? ==> reserve.Made().value !in l.reservations
    ensures var (m, ctx) := Begin(l, source, session, reserve);
            var lost := session.SessionOpened? && reserve.ReserveLost? && l.available > 0;
            && (Conserved(l) ==> Conserved(m))
            && (ctx.Some? ==> reserve.ReserveMade? && ctx.value == Context(source, session.id, Some(reserve.id)) && IsOpen(m, reserve.id))
            && OpenIds(m) == OpenIds(l) + (if ctx.Some? || lost then {reserve.Made().value} else {})
            && m.settlements == l.settlements
  {
    hide OpenIds, Conserved;
    match session
    case SessionRefused =>
    case SessionLost(s) => SessionConserves(l, s, Created, Applied);
    case SessionOpened(id) =>
      if id.Some? {
        SessionConserves(l, id.value, Created, Applied);
      }
      var started := OpenSession(l, id);
      if l.available > 0 && !reserve.ReserveRefused? {
        MakeConserves(started, reserve.Made().value);
      }
  }

  lemma CommitConserves(l: Ledger, ctx: Context, finalize: Reply, settle: Reply)
    requires ctx.session.Some? && ctx.reservation.Some? && IsOpen(l, ctx.reservation.value) && ctx.source !in l.settlements
    ensures var (m, done) := Commit(l, ctx, finalize, settle);
            && (Conserved(l) ==> Conserved(m))
            && OpenIds(m) == (if finalize == Refused then OpenIds(l) else OpenIds(l) - {ctx.reservation.value})
  {
    var m := Commit(l, ctx, finalize, settle).0;
    if finalize == Refused {
      assert m.reservations == l.reservations;
    } else {
      assert OpenIds(m) == OpenIds(l) - {ctx.reservation.value};
    }
  }

  lemma ReleaseReservationConserves(l: Ledger, r: Id, release: Reply)
    ensures var m := ReleaseReservation(l, r, release);
            && (Conserved(l) ==> Conserved(m))
            && OpenIds(m) == (if release.Took() then OpenIds(l) - {r} else OpenIds(l))
  {
    var m := ReleaseReservation(l, r, release);
    if release.Took() && IsOpen(l, r) {
      assert r in OpenIds(l);
      assert OpenIds(m) == OpenIds(l) - {r};
    } else {
      assert OpenIds(m) == OpenIds(l);
    }
  }

  lemma ReleaseConserves(l: Ledger, ctx: Context, release: Reply, close: Reply)
    ensures var m := Release(l, ctx, release, close);
            && (Conserved(l) ==> Conserved(m))
            && OpenIds(m) == (if release.Took() && ctx.reservation.Some? then OpenIds(l) - {ctx.reservation.value} else OpenIds(l))
  {
    hide OpenIds, Conserved, ReleaseReservation, UpdateSession;
    var released := l;
    if ctx.reservation.Some? {
      ReleaseReservationConserves(l, ctx.reservation.value, release);
      released := ReleaseReservation(l, ctx.reservation.value, release);
    }
    if ctx.session.Some? {
      SessionConserves(released, ctx.session.value, Closed, close);
    }
  }

  // The row was created and billed exactly when the commit succeeded; on every
  // error after the reservation that reservation is released once, on success never.
  lemma BillRowReleasesOnce(l: Ledger, source: Id, a: Answers)
    requires FreshFor(l, source, a)
    ensures var (m, stage) := BillRow(l, source, a);
            && (stage == Billed <==> l.available > 0 && Willing(a))
            && (stage.FailedAfterReserve() ==> a.reserve.ReserveMade?)
            && m.releaseRequests == l.releaseRequests + (if stage.FailedAfterReserve() then [a.reserve.id] else [])
            && (stage == Billed ==> source in m.settlements && a.session.id.value in m.sessions && m.sessions[a.session.id.value] == Settled)
  {
  }

  // m holds nothing that l did not, but for the finalization of source.
  predicate Within(l: Ledger, m: Ledger, source: Id) {
    && m.settlements <= l.settlements + {source}
    && (forall r :: r in m.reservations ==> r in l.reservations)
    && m.available >= l.available
  }

  lemma ReleaseWithin(l: Ledger, m: Ledger, ctx: Context, release: Reply, close: Reply)
    requires Within(l, m, ctx.source)
    ensures Within(l, Release(m, ctx, release, close), ctx.source)
  {
  }

  lemma CommitWithin(l: Ledger, m: Ledger, ctx: Context, finalize: Reply, settle: Reply)
    requires Within(l, m, ctx.source)
    ensures Within(l, Commit(m, ctx, finalize, settle).0, ctx.source)
  {
  }

  lemma FinishRowGrows(l: Ledger, ctx: Context, a: Answers)
    ensures Within(l, FinishRow(l, ctx, a).0, ctx.source)
  {
    hide Release, Commit;
    ReleaseWithin(l, l, ctx, a.release, a.close);
    if a.rowOk {
      var marked := MarkReserved(l, ctx, a.mark).0;
      assert Within(l, marked, ctx.source);
      ReleaseWithin(l, marked, ctx, a.release, a.close);
      CommitWithin(l, marked, ctx, a.finalize, a.settle);
      ReleaseWithin(l, Commit(marked, ctx, a.finalize, a.settle).0, ctx, a.release, a.close);
    }
  }

  // A row touches the finalization of its own source and its own reservation only.
  lemma BillRowGrows(l: Ledger, source: Id, a: Answers)
    ensures var m := BillRow(l, source, a).0;
            && m.settlements <= l.settlements + {source}
            && (forall r :: r in m.reservations ==> r in l.reservations || a.reserve.Made() == Some(r))
            && m.available + 1 >= l.available
  {
    hide FinishRow;
    var (reserved, begun) := Begin(l, source, a.session, a.reserve);
    if begun.Some? {
      FinishRowGrows(reserved, begun.value, a);
    }
  }

  // The finalization is reached and consumes the reservation.
  predicate Consumes(a: Answers) {
    a.rowOk && a.session.SessionOpened? && a.session.id.Some? && a.mark == Applied && a.finalize.Took()
  }

  lemma MarkConserves(l: Ledger, ctx: Context, mark: Reply)
    ensures var m := MarkReserved(l, ctx, mark).0;
            && (Conserved(l) ==> Conserved(m))
            && OpenIds(m) == OpenIds(l) && m.reservations == l.reservations && m.settlements == l.settlements
  {
    assert OpenIds(MarkReserved(l, ctx, mark).0) == OpenIds(l);
  }

  lemma FinishRowConserves(l: Ledger, ctx: Context, a: Answers)
    requires ctx.reservation.Some? && IsOpen(l, ctx.reservation.value) && ctx.source !in l.settlements && Conserved(l)
    requires a.session.SessionOpened? && ctx.session == a.session.id
    ensures var m := FinishRow(l, ctx, a).0;
            && Conserved(m)
            && OpenIds(m) == (if a.release == Refused && !Consumes(a) then OpenIds(l) else OpenIds(l) - {ctx.reservation.value})
  {
    hide Release, OpenIds, Conserved;
    if !a.rowOk {
      ReleaseConserves(l, ctx, a.release, a.close);
    } else {
      MarkConserves(l, ctx, a.mark);
      var (marked, isMarked) := MarkReserved(l, ctx, a.mark);
      if !isMarked {
        ReleaseConserves(marked, ctx, a.release, a.close);
      } else {
        CommitConserves(marked, ctx, a.finalize, a.settle);
        var (committed, done) := Commit(marked, ctx, a.finalize, a.settle);
        if !done {
          ReleaseConserves(committed, ctx, a.release, a.close);
        }
      }
    }
  }

  // The reservation one row leaves open: one lost behind an error of the
  // reserve call, or its own when the release was refused and no finalization
  // had consumed it.
  function LeftBy(l: Ledger, a: Answers): set<Id> {
    if l.available == 0 || !a.session.SessionOpened? then {}
    else
      match a.reserve
      case ReserveRefused => {}
      case ReserveLost(r) => {r}
      case ReserveMade(r) => if a.release == Refused && !Consumes(a) then {r} else {}
  }

  // Units are conserved, and the reservations open afterwards are those before
  // and what the row leaves.
  lemma BillRowConserves(l: Ledger, source: Id, a: Answers)
    requires FreshFor(l, source, a) && Conserved(l)
    ensures Conserved(BillRow(l, source, a).0)
    ensures OpenIds(BillRow(l, source, a).0) == OpenIds(l) + LeftBy(l, a)
  {
    hide FinishRow, Conserved;
    var (reserved, begun) := Begin(l, source, a.session, a.reserve);
    BeginConserves(l, source, a.session, a.reserve);
    if begun.Some? {
      FinishRowConserves(reserved, begun.value, a);
      assert a.reserve.id !in OpenIds(l);
    }
  }

  // Without a lost reserve and with releases that take effect nothing is left.
  lemma NothingLeft(l: Ledger, a: Answers)
    requires !a.reserve.ReserveLost? && a.release.Took()
    ensures LeftBy(l, a) == {}
  {
  }

  // ---- The ledger after a row, field by field ----

  // The platform opened a session and had a unit, and the caller got both.
  predicate Reserves(l: Ledger, a: Answers) {
    a.session.SessionOpened? && l.available > 0 && a.reserve.ReserveMade?
  }

  predicate Pays(a: Answers) {
    Consumes(a) && a.finalize == Applied && a.settle == Applied
  }

  function ReservationAfter(a: Answers): ReservationState {
    if Consumes(a) then Consumed else if a.release == Refused then Open else Released
  }

  // The last update of the session that took: opened, marked, settled, closed.
  function SessionAfter(l: Ledger, a: Answers): SessionStatus {
    if Reserves(l, a) && !Pays(a) && a.close != Refused then Closed
    else if Reserves(l, a) && Consumes(a) && a.finalize == Applied && a.settle != Refused then Settled
    else if Reserves(l, a) && a.rowOk && a.mark != Refused then Reserved
    else Created
  }

  predicate UnitsAfter(l: Ledger, m: Ledger, source: Id, a: Answers) {
    var taken := a.session.SessionOpened? && l.available > 0;
    && m.granted == l.granted
    && m.available == l.available - (if (taken && a.reserve.ReserveLost?) || (Reserves(l, a) && ReservationAfter(a) != Released) then 1 else 0)
    && m.consumed == l.consumed + (if Reserves(l, a) && Consumes(a) then 1 else 0)
    && m.settlements == l.settlements + (if Reserves(l, a) && Consumes(a) then {source} else {})
    && m.reservations == (if taken && a.reserve.ReserveLost? then l.reservations[a.reserve.lost := Open]
                          else if Reserves(l, a) then l.reservations[a.reserve.id := ReservationAfter(a)] else l.reservations)
  }

  predicate CallsAfter(l: Ledger, m: Ledger, a: Answers) {
    && m.releaseRequests == l.releaseRequests + (if Reserves(l, a) && !Pays(a) then [a.reserve.id] else [])
    && m.sessions == (match a.session
         case SessionRefused => l.sessions
         case SessionLost(s) => l.sessions[s := Created]
         case SessionOpened(id) => if id.Some? then l.sessions[id.value := SessionAfter(l, a)] else l.sessions)
  }

  predicate StageAfter(l: Ledger, a: Answers, stage: Stage) {
    && (stage == NotReserved <==> !Reserves(l, a))
    && (stage == RowFailed <==> Reserves(l, a) && !a.rowOk)
    && (stage == MarkFailed <==> Reserves(l, a) && a.rowOk && (a.session.id.None? || a.mark != Applied))
    && (stage == Billed <==> Reserves(l, a) && Pays(a))
  }

  // A session that was opened and then updated by the calls that took.
  predicate SessionBecomes(l: Ledger, m: Ledger, session: Option<Id>, status: SessionStatus) {
    m.sessions == if session.Some? then l.sessions[session.value := status] else l.sessions
  }

  lemma FinishRowAfter(l: Ledger, ctx: Context, a: Answers)
    requires a.session.SessionOpened? && a.session.id == ctx.session && (ctx.session.Some? ==> ctx.session.value in l.sessions && l.sessions[ctx.session.value] == Created)
    requires ctx.reservation.Some? && IsOpen(l, ctx.reservation.value) && ctx.source !in l.settlements
    ensures var (m, stage) := FinishRow(l, ctx, a);
            && m.granted == l.granted && m.available == l.available + (if ReservationAfter(a) == Released then 1 else 0)
            && m.consumed == l.consumed + (if Consumes(a) then 1 else 0)
            && m.settlements == l.settlements + (if Consumes(a) then {ctx.source} else {})
            && m.reservations == l.reservations[ctx.reservation.value := ReservationAfter(a)]
            && m.releaseRequests == l.releaseRequests + (if Pays(a) then [] else [ctx.reservation.value])
    ensures var (m, stage) := FinishRow(l, ctx, a);
            && (stage == RowFailed <==> !a.rowOk) && (stage == MarkFailed <==> a.rowOk && (a.session.id.None? || a.mark != Applied))
            && (stage == Billed <==> Pays(a)) && stage != NotReserved
            && SessionBecomes(l, m, ctx.session,
                 if !Pays(a) && a.close != Refused then Closed
                 else if Consumes(a) && a.finalize == Applied && a.settle != Refused then Settled
                 else if a.rowOk && a.mark != Refused then Reserved else Created)
  {
    var r := ctx.reservation.value;
    assert l.reservations[r := Open] == l.reservations;
    if ctx.session.Some? {
      assert l.sessions[ctx.session.value := Created] == l.sessions;
    }
  }

  // Everything a row does to the platform, by the answers it got.
  lemma BillRowLedger(l: Ledger, source: Id, a: Answers)
    requires FreshFor(l, source, a)
    ensures var (m, stage) := BillRow(l, source, a);
            UnitsAfter(l, m, source, a) && CallsAfter(l, m, a) && StageAfter(l, a, stage)
  {
    hide FinishRow;
    var (reserved, begun) := Begin(l, source, a.session, a.reserve);
    if begun.Some? {
      FinishRowAfter(reserved, begun.value, a);
      var r := a.reserve.id;
      assert l.reservations[r := Open][r := ReservationAfter(a)] == l.reservations[r := ReservationAfter(a)];
    }
  }

  // An error of the reserve call behind which the platform made the
  // reservation: nothing asks for its release, and it stays open.
  lemma LostReserveStaysOpen()
    ensures var l := Ledger(1, 1, 0, map[], map[], {}, []);
            var a := Answers(SessionOpened(Some(5)), ReserveLost(7), true, Applied, Applied, Applied, Applied, Applied);
            var (m, stage) := BillRow(l, 3, a);
            stage == NotReserved && OpenIds(m) == {7} && m.available == 0 && m.releaseRequests == []
  {
    var l := Ledger(1, 1, 0, map[], map[], {}, []);
    var a := Answers(SessionOpened(Some(5)), ReserveLost(7), true, Applied, Applied, Applied, Applied, Applied);
    assert OpenIds(l) == {};
    BillRowConserves(l, 3, a);
  }

  // ---- Several rows in a row ----

  predicate FreshBatch(l: Ledger, sources: seq<Id>, answers: seq<Answers>) {
    && |sources| == |answers|
    && (forall i :: 0 <= i < |sources| ==> FreshFor(l, sources[i], answers[i]))
    && (forall i, j :: 0 <= i < j < |sources| ==> sources[i] != sources[j])
    && (forall i, j :: 0 <= i < j < |sources| && answers[i].reserve.Made().Some? ==>
          answers[i].reserve.Made() != answers[j].reserve.Made())
  }

  // No reserve is lost and every release takes effect.
  predicate Quiet(answers: seq<Answers>) {
    forall i :: 0 <= i < |answers| ==> !answers[i].reserve.ReserveLost? && answers[i].release.Took()
  }

  // What the first i rows of the batch may have added.
  predicate Grown(l: Ledger, m: Ledger, sources: seq<Id>, answers: seq<Answers>, i: nat)
    requires i <= |sources| && i <= |answers|
  {
    && (forall x :: x in m.settlements ==> x in l.settlements || exists j :: 0 <= j < i && sources[j] == x)
    && (forall r :: r in m.reservations ==> r in l.reservations || exists j :: 0 <= j < i && answers[j].reserve.Made() == Some(r))
  }

  lemma GrownStaysFresh(l: Ledger, m: Ledger, sources: seq<Id>, answers: seq<Answers>, i: nat)
    requires FreshBatch(l, sources, answers) && i < |sources| && Grown(l, m, sources, answers, i)
    ensures FreshFor(m, sources[i], answers[i])
  {
    assert FreshFor(l, sources[i], answers[i]);
  }

  lemma GrowsByRow(l: Ledger, m: Ledger, sources: seq<Id>, answers: seq<Answers>, i: nat)
    requires i < |sources| && i < |answers| && Grown(l, m, sources, answers, i)
    ensures Grown(l, BillRow(m, sources[i], answers[i]).0, sources, answers, i + 1)
  {
    hide BillRow;
    BillRowGrows(m, sources[i], answers[i]);
  }
}
