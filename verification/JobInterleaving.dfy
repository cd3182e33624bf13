/** The creator of an image job still binds the runtime job to it while
    callbacks for the job may already arrive. */
module JobInterleaving {
  import opened Options
  import opened Text
  import opened BillingGate
  import opened ProductCenter
  import opened ImageJobs
  import opened ImageResults
  import PA = ProductAssets

  // ---- Callbacks ----

  datatype Callback =
    | RuntimeCall(u: RuntimeUpdate, release: Reply, close: Reply)
    | ResultsCall(input: ResultInput, answers: ResultAnswers)
    | CancelCall(cancelError: Option<string>)

  predicate WellAnswered(cb: Callback) {
    cb.ResultsCall? ==> |cb.input.variants| <= |cb.answers.writes| && |cb.input.variants| <= |cb.answers.rids|
  }

  function Handle(w: World, j: Id, cb: Callback): World
    requires WellAnswered(cb)
  {
    match cb
    case RuntimeCall(u, release, close) => RecordRuntime(w, j, u, release, close).0
    case ResultsCall(input, answers) => RecordResults(w, j, input, answers).0
    case CancelCall(cancelError) => RecordCancel(w, j, cancelError).0
  }

  // ---- The creator after dispatch ----

  // item is the creator's copy of the row.
  datatype Creator = BeforeRead(item: Job) | HasRead(item: Job) | HasBound(item: Job) | Finished(written: bool)

  // Read the row again, bind the charge into the copy and mark the session,
  // write three columns. A failed read goes on with the copy.
  function CreatorStep(w: World, j: Id, c: Creator, b: Binding, ok: bool): (World, Creator) {
    match c
    case BeforeRead(item) =>
      var latest := if ok && j in w.jobs then w.jobs[j] else item;
      var provider := if ok && j in w.jobs && Blank(b.providerJob) then latest.providerJob else b.providerJob;
      (w, HasRead(latest.(runtimeJob := Some(b.runtimeJob), providerJob := provider)))
    case HasRead(item) =>
      var ledger := MarkReserved(w.store.ledger, b.ctx, if ok then Applied else Refused).0;
      (w.(store := w.store.(ledger := ledger)), HasBound(item.(meta := BoundMeta(item.meta, b))))
    case HasBound(item) =>
      if ok && j in w.jobs then (w.(jobs := w.jobs[j := BindingWrite(w.jobs[j], b, item.providerJob, item.meta)]), Finished(true))
      else (w, Finished(false))
    case Finished(_) => (w, c)
  }

  // ---- Interleavings ----

  datatype Event = Call(cb: Callback) | Create(ok: bool)

  datatype Machine = Machine(w: World, c: Creator)

  predicate AllAnswered(events: seq<Event>) {
    forall i :: 0 <= i < |events| && events[i].Call? ==> WellAnswered(events[i].cb)
  }

  function Interleaved(m: Machine, j: Id, b: Binding, events: seq<Event>, n: nat): Machine
    requires n <= |events| && AllAnswered(events)
  {
    if n == 0 then m
    else
      var before := Interleaved(m, j, b, events, n - 1);
      match events[n - 1]
      case Call(cb) => before.(w := Handle(before.w, j, cb))
      case Create(ok) =>
        var (w, c) := CreatorStep(before.w, j, before.c, b, ok);
        Machine(w, c)
  }

  // The same callbacks without the creator.
  function CallbacksAlone(w: World, j: Id, events: seq<Event>, n: nat): World
    requires n <= |events| && AllAnswered(events)
  {
    if n == 0 then w
    else
      var before := CallbacksAlone(w, j, events, n - 1);
      if events[n - 1].Call? then Handle(before, j, events[n - 1].cb) else before
  }

  // ---- What the callbacks decide ----

  const RESERVED := {ChargeSessionKey, ReservationKey, BillableItemKey, ResourceTypeKey, UsageUnitsKey, ProductKey, SkuKey, PromptContractKey}

  predicate SameReserved(a: Meta, b: Meta) {
    forall k :: k in RESERVED ==> (k in a <==> k in b) && (k in a ==> a[k] == b[k])
  }

  predicate LeavesReserved(meta: Meta) {
    forall k :: k in RESERVED ==> k !in meta
  }

  predicate Polite(cb: Callback) {
    match cb
    case RuntimeCall(u, _, _) => LeavesReserved(u.meta)
    case ResultsCall(input, _) => LeavesReserved(input.meta)
    case CancelCall(_) => true
  }

  // Every column but the runtime and provider job ids and unreserved metadata.
  predicate SameRow(a: Job, b: Job) {
    && a.role == b.role
    && a.status == b.status && a.stage == b.stage && a.message == b.message && a.progress == b.progress
    && a.errorCode == b.errorCode && a.errorMessage == b.errorMessage
    && a.selected == b.selected && a.completedAt == b.completedAt && a.canceledAt == b.canceledAt
    && SameReserved(a.meta, b.meta)
  }

  // Everything but the status of charge sessions.
  predicate SameLedger(l: Ledger, m: Ledger) {
    l == m.(sessions := l.sessions)
  }

  predicate SameStore(s: Store, t: Store) {
    s == t.(ledger := s.ledger) && SameLedger(s.ledger, t.ledger)
  }

  predicate Alike(v: World, w: World, j: Id) {
    && v.assets == w.assets && v.charges == w.charges && SameStore(v.store, w.store)
    && j in v.jobs && j in w.jobs && v.jobs == w.jobs[j := v.jobs[j]]
    && SameRow(v.jobs[j], w.jobs[j])
  }

  // ---- Callbacks keep worlds alike ----

  lemma MergesAlike(a: Meta, b: Meta, more: Meta)
    requires SameReserved(a, b) && LeavesReserved(more)
    ensures SameReserved(a + more, b + more) && SameReserved(a + more, a)
  {
  }

  lemma SameContext(a: Meta, b: Meta, j: Id)
    requires SameReserved(a, b)
    ensures ContextOf(j, a) == ContextOf(j, b) && IdIn(a, ProductKey) == IdIn(b, ProductKey)
  {
    assert ChargeSessionKey in RESERVED && ReservationKey in RESERVED && ProductKey in RESERVED;
  }

  lemma ReleaseAlike(l: Ledger, m: Ledger, ctx: Context, release: Reply, close: Reply)
    requires SameLedger(l, m)
    ensures SameLedger(Release(l, ctx, release, close), Release(m, ctx, release, close))
  {
  }

  lemma FinalizeMeteringAlike(l: Ledger, m: Ledger, ctx: Context, finalize: Reply)
    requires SameLedger(l, m)
    ensures SameLedger(FinalizeMetering(l, ctx, finalize).0, FinalizeMetering(m, ctx, finalize).0)
    ensures FinalizeMetering(l, ctx, finalize).1 == FinalizeMetering(m, ctx, finalize).1
  {
  }

  lemma CommitAlike(l: Ledger, m: Ledger, ctx: Context, finalize: Reply, settle: Reply)
    requires SameLedger(l, m)
    ensures SameLedger(Commit(l, ctx, finalize, settle).0, Commit(m, ctx, finalize, settle).0)
    ensures Commit(l, ctx, finalize, settle).1 == Commit(m, ctx, finalize, settle).1
  {
    FinalizeMeteringAlike(l, m, ctx, finalize);
    hide FinalizeMetering;
  }

  lemma ProgressedAlike(a: Job, b: Job, u: RuntimeUpdate)
    requires SameRow(a, b) && LeavesReserved(u.meta)
    ensures SameRow(Progressed(a, u), Progressed(b, u)) && SameReserved(Progressed(a, u).meta, a.meta)
    ensures Progressed(a, u).runtimeJob == a.runtimeJob
  {
    hide Clamp, Or;
    MergesAlike(a.meta, b.meta, u.meta);
  }

  lemma DatedAlike(a: Job, b: Job)
    requires SameRow(a, b)
    ensures SameRow(Dated(a), Dated(b)) && Dated(a).meta == a.meta && Dated(a).status == a.status && Dated(a).runtimeJob == a.runtimeJob
  {
    hide Or, SameReserved;
  }

  lemma RuntimeRowAlike(a: Job, b: Job, u: RuntimeUpdate)
    requires SameRow(a, b) && LeavesReserved(u.meta)
    ensures SameRow(RuntimeRow(a, u), RuntimeRow(b, u)) && RuntimeReleases(a, u) == RuntimeReleases(b, u)
    ensures SameReserved(RuntimeRow(a, u).meta, a.meta) && RuntimeRow(a, u).runtimeJob == a.runtimeJob
  {
    hide Trim, Terminal, Progressed, Dated;
    ProgressedAlike(a, b, u);
    DatedAlike(Progressed(a, u), Progressed(b, u));
  }

  lemma RuntimeAlike(v: World, w: World, j: Id, u: RuntimeUpdate, release: Reply, close: Reply)
    requires Alike(v, w, j) && LeavesReserved(u.meta)
    ensures Alike(RecordRuntime(v, j, u, release, close).0, RecordRuntime(w, j, u, release, close).0, j)
  {
    hide RuntimeRow, RuntimeReleases, Release, SameReserved;
    RuntimeRowAlike(v.jobs[j], w.jobs[j], u);
    SameContext(RuntimeRow(v.jobs[j], u).meta, RuntimeRow(w.jobs[j], u).meta, j);
    ReleaseAlike(v.store.ledger, w.store.ledger, ContextOf(j, RuntimeRow(v.jobs[j], u).meta), release, close);
  }

  lemma CancelRowAlike(a: Job, b: Job, cancelError: Option<string>)
    requires SameRow(a, b)
    ensures SameRow(CanceledRow(a, cancelError), CanceledRow(b, cancelError))
    ensures SameReserved(CanceledRow(a, cancelError).meta, a.meta) && CanceledRow(a, cancelError).runtimeJob == a.runtimeJob
  {
    assert CancelErrorKey !in RESERVED;
  }

  lemma CancelAlike(v: World, w: World, j: Id, cancelError: Option<string>)
    requires Alike(v, w, j)
    ensures Alike(RecordCancel(v, j, cancelError).0, RecordCancel(w, j, cancelError).0, j)
  {
    hide CanceledRow, SameReserved;
    CancelRowAlike(v.jobs[j], w.jobs[j], cancelError);
  }

  // ---- Results ----

  predicate SameDelivery(d: Delivery, e: Delivery) {
    d.assets == e.assets && d.selected == e.selected && d.ok == e.ok && SameStore(d.store, e.store)
  }

  lemma ArchiveAlike(s: Store, t: Store, p: Option<Id>, rid: Id, asset: Id, role: Role, selected: bool, index: int, w: PA.Writes)
    requires SameStore(s, t)
    ensures var x, y := PA.Archive(s, p, rid, asset, role, selected, index, w), PA.Archive(t, p, rid, asset, role, selected, index, w);
            SameStore(x.0, y.0) && x.1 == y.1
  {
  }

  lemma {:induction false} DeliverAlike(d: Delivery, e: Delivery, j: Id, a: Job, b: Job, variants: seq<Variant>, o: ResultAnswers, n: nat)
    requires n <= |variants| <= |o.writes| && |variants| <= |o.rids|
    requires SameDelivery(d, e) && a.role == b.role && IdIn(a.meta, ProductKey) == IdIn(b.meta, ProductKey)
    ensures SameDelivery(Deliver(d, j, a, variants, o, n), Deliver(e, j, b, variants, o, n))
  {
    hide PA.Archive, FindAsset;
    if n > 0 {
      DeliverAlike(d, e, j, a, b, variants, o, n - 1);
      var before, other := Deliver(d, j, a, variants, o, n - 1), Deliver(e, j, b, variants, o, n - 1);
      var v := variants[n - 1];
      ArchiveAlike(before.store, other.store, IdIn(a.meta, ProductKey), o.rids[n - 1], AssetFor(before.assets, j, v), a.role,
                   v.selected, v.index, o.writes[n - 1].archive);
    }
  }

  lemma StampedAlike(a: Job, b: Job, input: ResultInput)
    requires SameRow(a, b) && LeavesReserved(input.meta)
    ensures SameRow(Stamped(a, input), Stamped(b, input)) && SameReserved(Stamped(a, input).meta, a.meta)
    ensures Stamped(a, input).runtimeJob == a.runtimeJob
  {
    hide StageFor, DefaultMessage, Trim, Clamp;
    MergesAlike(a.meta, b.meta, input.meta);
  }

  lemma FailureMetaIsPolite(selected: Option<Id>, complaint: string)
    ensures LeavesReserved(FailureMeta(selected, complaint))
  {
  }

  lemma QuarantinedAlike(a: Job, b: Job, complaint: string)
    requires SameRow(a, b)
    ensures SameRow(Quarantined(a, complaint), Quarantined(b, complaint)) && SameReserved(Quarantined(a, complaint).meta, a.meta)
    ensures Quarantined(a, complaint).runtimeJob == a.runtimeJob
  {
    hide Clamp, FailureMeta, SameReserved;
    FailureMetaIsPolite(a.selected, complaint);
    MergesAlike(a.meta, b.meta, FailureMeta(a.selected, complaint));
  }

  lemma FinalizeAlike(l: Ledger, m: Ledger, ctx: Context, status: string, o: ResultAnswers)
    requires SameLedger(l, m)
    ensures SameLedger(FinalizeCharge(l, ctx, status, o).0, FinalizeCharge(m, ctx, status, o).0)
    ensures FinalizeCharge(l, ctx, status, o).1 == FinalizeCharge(m, ctx, status, o).1
  {
    hide Commit, Release, SameLedger;
    ReleaseAlike(l, m, ctx, o.release, o.close);
    CommitAlike(l, m, ctx, o.finalize, o.settle);
  }

  lemma SettleAlike(v: World, w: World, j: Id, a: Job, b: Job, status: string, o: ResultAnswers)
    requires Alike(v, w, j) && SameRow(a, b)
    ensures Alike(SettleResults(v, j, a, status, o).0, SettleResults(w, j, b, status, o).0, j)
  {
    hide FinalizeCharge, Quarantined, Persist, SameReserved;
    SameContext(a.meta, b.meta, j);
    FinalizeAlike(v.store.ledger, w.store.ledger, ContextOf(j, a.meta), status, o);
    QuarantinedAlike(a, b, o.complaint);
  }

  lemma ResultsAlike(v: World, w: World, j: Id, input: ResultInput, o: ResultAnswers)
    requires Alike(v, w, j) && LeavesReserved(input.meta) && |input.variants| <= |o.writes| && |input.variants| <= |o.rids|
    ensures Alike(RecordResults(v, j, input, o).0, RecordResults(w, j, input, o).0, j)
  {
    hide Stamped, Deliver, SettleResults, SameReserved;
    StampedAlike(v.jobs[j], w.jobs[j], input);
    var a, b := Stamped(v.jobs[j], input), Stamped(w.jobs[j], input);
    SameContext(a.meta, b.meta, j);
    var d, e := Delivery(v.assets, v.store, None, true), Delivery(w.assets, w.store, None, true);
    DeliverAlike(d, e, j, a, b, input.variants, o, |input.variants|);
    var x, y := Deliver(d, j, a, input.variants, o, |input.variants|), Deliver(e, j, b, input.variants, o, |input.variants|);
    if x.ok && o.saveOk {
      var p := if x.selected.Some? then a.(selected := x.selected) else a;
      var q := if y.selected.Some? then b.(selected := y.selected) else b;
      SettleAlike(v.(assets := x.assets, store := x.store), w.(assets := y.assets, store := y.store), j, p, q, input.status, o);
    }
  }

  lemma HandleAlike(v: World, w: World, j: Id, cb: Callback)
    requires Alike(v, w, j) && WellAnswered(cb) && Polite(cb)
    ensures Alike(Handle(v, j, cb), Handle(w, j, cb), j)
  {
    hide Alike, RecordRuntime, RecordResults, RecordCancel;
    match cb
    case RuntimeCall(u, release, close) => RuntimeAlike(v, w, j, u, release, close);
    case ResultsCall(input, answers) => ResultsAlike(v, w, j, input, answers);
    case CancelCall(cancelError) => CancelAlike(v, w, j, cancelError);
  }

  // What a polite callback leaves of a row: its reserved metadata and its runtime job.
  predicate Keeps(w: World, t: World, j: Id)
    requires j in w.jobs
  {
    j in t.jobs && SameReserved(t.jobs[j].meta, w.jobs[j].meta) && t.jobs[j].runtimeJob == w.jobs[j].runtimeJob
  }

  lemma ResultsKeep(w: World, j: Id, input: ResultInput, o: ResultAnswers)
    requires j in w.jobs && LeavesReserved(input.meta) && |input.variants| <= |o.writes| && |input.variants| <= |o.rids|
    ensures Keeps(w, RecordResults(w, j, input, o).0, j)
  {
    hide Stamped, Deliver, Quarantined, FinalizeCharge, Persist;
    StampedAlike(w.jobs[j], w.jobs[j], input);
    var a := Stamped(w.jobs[j], input);
    QuarantinedAlike(a, a, o.complaint);
    var d := Deliver(Delivery(w.assets, w.store, None, true), j, a, input.variants, o, |input.variants|);
    var row := a.(selected := d.selected);
    QuarantinedAlike(row, row, o.complaint);
  }

  lemma HandleKeeps(w: World, j: Id, cb: Callback)
    requires j in w.jobs && WellAnswered(cb) && Polite(cb)
    ensures Keeps(w, Handle(w, j, cb), j)
  {
    hide RuntimeRow, CanceledRow, RecordResults, Release;
    match cb
    case RuntimeCall(u, release, close) => RuntimeRowAlike(w.jobs[j], w.jobs[j], u);
    case ResultsCall(input, answers) => ResultsKeep(w, j, input, answers);
    case CancelCall(cancelError) => CancelRowAlike(w.jobs[j], w.jobs[j], cancelError);
  }

  // ---- The creator keeps worlds alike ----

  // base is the metadata the job was created with.
  predicate CarriesCharge(base: Meta, b: Binding) {
    forall k :: k in ChargeMeta(b.ctx) ==> k in base && base[k] == ChargeMeta(b.ctx)[k]
  }

  predicate CopyAgrees(c: Creator, base: Meta) {
    !c.Finished? ==> SameReserved(c.item.meta, base)
  }

  lemma BindingKeepsReserved(meta: Meta, base: Meta, b: Binding)
    requires SameReserved(meta, base) && CarriesCharge(base, b)
    ensures SameReserved(BoundMeta(meta, b), base)
  {
    hide Trim;
    assert ProviderCodeKey !in RESERVED;
  }

  ghost predicate Invisible(m: Machine, alone: World, j: Id, b: Binding, base: Meta) {
    && Alike(m.w, alone, j)
    && SameReserved(m.w.jobs[j].meta, base)
    && CopyAgrees(m.c, base)
    && (m.c == Finished(true) ==> m.w.jobs[j].runtimeJob == Some(b.runtimeJob))
  }

  lemma CreatorIsInvisible(m: Machine, alone: World, j: Id, b: Binding, base: Meta, ok: bool)
    requires Invisible(m, alone, j, b, base) && CarriesCharge(base, b)
    ensures var (w, c) := CreatorStep(m.w, j, m.c, b, ok); Invisible(Machine(w, c), alone, j, b, base)
  {
    hide BoundMeta, Trim;
    if m.c.HasRead? {
      BindingKeepsReserved(m.c.item.meta, base, b);
    }
  }

  lemma CallbackIsSeen(m: Machine, alone: World, j: Id, b: Binding, base: Meta, cb: Callback)
    requires Invisible(m, alone, j, b, base) && WellAnswered(cb) && Polite(cb)
    ensures Invisible(m.(w := Handle(m.w, j, cb)), Handle(alone, j, cb), j, b, base)
  {
    hide Handle;
    HandleAlike(m.w, alone, j, cb);
    HandleKeeps(m.w, j, cb);
  }

  // A job as it stands at dispatch, and the creator's copy of it.
  ghost predicate Dispatched(m: Machine, j: Id, b: Binding) {
    && m.c.BeforeRead?
    && j in m.w.jobs
    && m.c.item.meta == m.w.jobs[j].meta
    && exists role, product, other ::
         ChargeSessionKey !in other && ReservationKey !in other && m.w.jobs[j] == NewJob(role, product, b.ctx, other)
  }

  // Whatever the interleaving of the creator's steps with the callbacks, the
  // callbacks alone decide the row, the assets, the links and the ledger.
  lemma {:induction false} InterleavingIsInvisible(m: Machine, j: Id, b: Binding, events: seq<Event>, n: nat)
    requires Dispatched(m, j, b) && n <= |events| && AllAnswered(events)
    requires forall i :: 0 <= i < |events| && events[i].Call? ==> Polite(events[i].cb)
    ensures Invisible(Interleaved(m, j, b, events, n), CallbacksAlone(m.w, j, events, n), j, b, m.w.jobs[j].meta)
  {
    hide Handle, CreatorStep, Invisible;
    var base := m.w.jobs[j].meta;
    if n == 0 {
      StartIsInvisible(m, j, b);
    } else {
      InterleavingIsInvisible(m, j, b, events, n - 1);
      var before, alone := Interleaved(m, j, b, events, n - 1), CallbacksAlone(m.w, j, events, n - 1);
      match events[n - 1]
      case Call(cb) => CallbackIsSeen(before, alone, j, b, base, cb);
      case Create(ok) =>
        DispatchedCarriesCharge(m, j, b);
        CreatorIsInvisible(before, alone, j, b, base, ok);
    }
  }

  lemma StartIsInvisible(m: Machine, j: Id, b: Binding)
    requires Dispatched(m, j, b)
    ensures Invisible(m, m.w, j, b, m.w.jobs[j].meta)
  {
  }

  lemma DispatchedCarriesCharge(m: Machine, j: Id, b: Binding)
    requires Dispatched(m, j, b)
    ensures CarriesCharge(m.w.jobs[j].meta, b)
    ensures IdIn(m.w.jobs[j].meta, ChargeSessionKey) == b.ctx.session && IdIn(m.w.jobs[j].meta, ReservationKey) == b.ctx.reservation
  {
  }

  // The final row is the callbacks' own, at every point the charge of the job
  // can be found in it, and once the creator has written, the runtime job is bound.
  lemma CallbacksDecide(m: Machine, j: Id, b: Binding, events: seq<Event>)
    requires Dispatched(m, j, b) && AllAnswered(events)
    requires forall i :: 0 <= i < |events| && events[i].Call? ==> Polite(events[i].cb)
    ensures var end, alone := Interleaved(m, j, b, events, |events|), CallbacksAlone(m.w, j, events, |events|);
            && j in end.w.jobs && j in alone.jobs
            && SameRow(end.w.jobs[j], alone.jobs[j])
            && end.w.assets == alone.assets && end.w.charges == alone.charges && SameStore(end.w.store, alone.store)
            && ContextOf(j, end.w.jobs[j].meta) == Context(j, b.ctx.session, b.ctx.reservation)
            && (end.c == Finished(true) ==> end.w.jobs[j].runtimeJob == Some(b.runtimeJob))
  {
    hide Interleaved, CallbacksAlone, SameReserved;
    InterleavingIsInvisible(m, j, b, events, |events|);
    DispatchedCarriesCharge(m, j, b);
    SameContext(Interleaved(m, j, b, events, |events|).w.jobs[j].meta, m.w.jobs[j].meta, j);
  }

  function CreatorSteps(events: seq<Event>, n: nat): nat
    requires n <= |events|
  {
    if n == 0 then 0 else CreatorSteps(events, n - 1) + (if events[n - 1].Create? then 1 else 0)
  }

  // Three successful steps of the creator finish it.
  lemma {:induction false} CreatorFinishes(m: Machine, j: Id, b: Binding, events: seq<Event>, n: nat)
    requires Dispatched(m, j, b) && n <= |events| && AllAnswered(events)
    requires forall i :: 0 <= i < |events| && events[i].Call? ==> Polite(events[i].cb)
    requires forall i :: 0 <= i < |events| && events[i].Create? ==> events[i].ok
    ensures var c, k := Interleaved(m, j, b, events, n).c, CreatorSteps(events, n);
            (k == 0 ==> c.BeforeRead?) && (k == 1 ==> c.HasRead?) && (k == 2 ==> c.HasBound?) && (k >= 3 ==> c == Finished(true))
  {
    hide Handle, Dispatched, Invisible, BoundMeta, Alike;
    StartIsBeforeRead(m, j, b);
    if n > 0 {
      CreatorFinishes(m, j, b, events, n - 1);
      InterleavingIsInvisible(m, j, b, events, n - 1);
      RowIsThere(Interleaved(m, j, b, events, n - 1), CallbacksAlone(m.w, j, events, n - 1), j, b, m);
    }
  }

  lemma StartIsBeforeRead(m: Machine, j: Id, b: Binding)
    requires Dispatched(m, j, b)
    ensures m.c.BeforeRead? && j in m.w.jobs
  {
  }

  lemma RowIsThere(before: Machine, alone: World, j: Id, b: Binding, m: Machine)
    requires j in m.w.jobs && Invisible(before, alone, j, b, m.w.jobs[j].meta)
    ensures j in before.w.jobs
  {
  }
}
