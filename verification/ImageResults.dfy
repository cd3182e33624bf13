/** Result callbacks: every variant becomes an asset linked to the product, the
    charge is settled, and the result is quarantined when settlement fails. */
module ImageResults {
  import opened Options
  import opened Text
  import opened BillingGate
  import opened ProductCenter
  import opened ImageJobs
  import PA = ProductAssets

  // ---- Rows ----

  // result is the job and variant index an asset was generated for.
  datatype Asset = Asset(source: string, storage: string, result: Option<(Id, int)>)

  datatype Variant = Variant(index: int, selected: bool, source: string, storage: string)

  datatype ResultInput = ResultInput(
    status: string,
    progress: int,
    message: string,
    errorCode: string,
    errorMessage: string,
    meta: Meta,
    variants: seq<Variant>)

  datatype VariantWrites = VariantWrites(create: bool, archive: PA.Writes)

  // The answers met by one callback, the ids drawn for the links it makes, and
  // the text of a failed settlement.
  datatype ResultAnswers = ResultAnswers(
    writes: seq<VariantWrites>,
    rids: seq<Id>,
    saveOk: bool,
    finalize: Reply,
    settle: Reply,
    release: Reply,
    close: Reply,
    settled: bool,
    chargeOk: bool,
    saveAgainOk: bool,
    complaint: string)

  // A billing charge row; its event id is the job's.
  datatype Charge = Charge(event: Id, session: Option<Id>)

  // An asset's id is its position: ids are drawn in time order and assets are
  // never deleted here.
  datatype World = World(jobs: map<Id, Job>, assets: seq<Asset>, store: Store, charges: seq<Charge>)

  const GENERATED := "generated"

  // ---- Finding or creating the asset of a variant ----

  function AssetSource(v: Variant): string {
    if Blank(v.source) then GENERATED else v.source
  }

  function ResultAssets(assets: seq<Asset>, j: Id, index: int): set<Id> {
    set a: Id | a < |assets| && assets[a].source == GENERATED && assets[a].result == Some((j, index))
  }

  function StorageAssets(assets: seq<Asset>, storage: string): set<Id> {
    set a: Id | a < |assets| && assets[a].storage == storage
  }

  function FindAsset(assets: seq<Asset>, j: Id, v: Variant): Option<Id> {
    var results := ResultAssets(assets, j, v.index);
    if results != {} then Some(Least(results))
    else
      var stored := StorageAssets(assets, v.storage);
      if !Blank(v.storage) && stored != {} then Some(Least(stored)) else None
  }

  function NewAsset(j: Id, v: Variant): Asset {
    Asset(AssetSource(v), v.storage, Some((j, v.index)))
  }

  function WithAsset(assets: seq<Asset>, j: Id, v: Variant): seq<Asset> {
    if FindAsset(assets, j, v).Some? then assets else assets + [NewAsset(j, v)]
  }

  function AssetFor(assets: seq<Asset>, j: Id, v: Variant): Id {
    var found := FindAsset(assets, j, v);
    if found.Some? then found.value else |assets|
  }

  // ---- Delivering the variants ----

  datatype Delivery = Delivery(assets: seq<Asset>, store: Store, selected: Option<Id>, ok: bool)

  // Nothing more happens after an error.
  function VariantStep(d: Delivery, j: Id, job: Job, v: Variant, first: bool, w: VariantWrites, rid: Id): Delivery {
    if !d.ok then d
    else if FindAsset(d.assets, j, v).None? && !w.create then d.(ok := false)
    else
      var asset := AssetFor(d.assets, j, v);
      var (store, outcome) := PA.Archive(d.store, IdIn(job.meta, ProductKey), rid, asset, job.role, v.selected, v.index, w.archive);
      Delivery(WithAsset(d.assets, j, v), store,
               if outcome == PA.Done && (v.selected || (d.selected.None? && first)) then Some(asset) else d.selected,
               outcome == PA.Done)
  }

  // The delivery after its first n variants.
  function Deliver(d: Delivery, j: Id, job: Job, variants: seq<Variant>, o: ResultAnswers, n: nat): Delivery
    requires n <= |variants| <= |o.writes| && |variants| <= |o.rids|
  {
    if n == 0 then d
    else VariantStep(Deliver(d, j, job, variants, o, n - 1), j, job, variants[n - 1], n == 1, o.writes[n - 1], o.rids[n - 1])
  }

  // ---- Recording the results ----

  function StageFor(status: string): string {
    if status == COMPLETED then COMPLETED
    else if status == FAILED then FAILED
    else if status == CANCELED then CANCELED
    else if status == PROCESSING then PROVIDER_COMPLETED
    else if Blank(status) then "updated"
    else status
  }

  function DefaultMessage(stage: string, status: string): string {
    if stage == COMPLETED then "Image job completed successfully"
    else if stage == FAILED then "Image job failed"
    else if stage == CANCELED then "Image job canceled"
    else if Blank(status) then "Image job updated"
    else status
  }

  // The row before its variants are delivered.
  function Stamped(job: Job, input: ResultInput): Job {
    var stage := StageFor(input.status);
    job.(status := input.status, progress := Clamp(input.progress, input.status), stage := stage,
         message := if Blank(input.message) then DefaultMessage(stage, input.status) else Trim(input.message),
         errorCode := input.errorCode, errorMessage := input.errorMessage, meta := job.meta + input.meta,
         completedAt := job.completedAt || input.status == COMPLETED, canceledAt := job.canceledAt || input.status == CANCELED)
  }

  function FailureMeta(selected: Option<Id>, complaint: string): Meta {
    map[MeteringStatusKey := TextValue(FAILED), MeteringErrorKey := TextValue(complaint)] +
    (match selected case Some(a) => map[QuarantinedKey := IdValue(a)] case None => map[])
  }

  function Quarantined(job: Job, complaint: string): Job {
    job.(status := FAILED, stage := METERING_FAILED,
         message := "Image generation could not be completed because billing settlement failed",
         progress := Clamp(job.progress, FAILED), completedAt := false, selected := None,
         errorCode := "METERING_FINALIZATION_FAILED", errorMessage := complaint,
         meta := job.meta + FailureMeta(job.selected, complaint))
  }

  // The charge of a job without a session needs no settlement; that of a job
  // which did not complete is released.
  function FinalizeCharge(l: Ledger, ctx: Context, status: string, o: ResultAnswers): (Ledger, bool) {
    if ctx.session.None? then (l, true)
    else if status == COMPLETED then Commit(l, ctx, o.finalize, o.settle)
    else (Release(l, ctx, o.release, o.close), true)
  }

  predicate HasEvent(charges: seq<Charge>, event: Id) {
    exists i :: 0 <= i < |charges| && charges[i].event == event
  }

  // The event id is unique: inserting it again fails, and the error is ignored.
  function Persist(charges: seq<Charge>, ctx: Context, status: string, o: ResultAnswers): seq<Charge> {
    if ctx.session.Some? && status == COMPLETED && o.settled && o.chargeOk && !HasEvent(charges, ctx.source)
    then charges + [Charge(ctx.source, ctx.session)] else charges
  }

  // None stands for an error of the call.
  function RecordResults(w: World, j: Id, input: ResultInput, o: ResultAnswers): (World, Option<Job>)
    requires |input.variants| <= |o.writes| && |input.variants| <= |o.rids|
  {
    if j !in w.jobs then (w, None)
    else
      var stamped := Stamped(w.jobs[j], input);
      var d := Deliver(Delivery(w.assets, w.store, None, true), j, stamped, input.variants, o, |input.variants|);
      var delivered := w.(assets := d.assets, store := d.store);
      if !d.ok || !o.saveOk then (delivered, None)
      else SettleResults(delivered, j, if d.selected.Some? then stamped.(selected := d.selected) else stamped, input.status, o)
  }

  function SettleResults(w: World, j: Id, row: Job, status: string, o: ResultAnswers): (World, Option<Job>) {
    var ctx := ContextOf(j, row.meta);
    var (ledger, settled) := FinalizeCharge(w.store.ledger, ctx, status, o);
    var saved := w.(jobs := w.jobs[j := row], store := w.store.(ledger := ledger));
    if settled then (saved.(charges := Persist(w.charges, ctx, status, o)), Some(row))
    else if o.saveAgainOk then (saved.(jobs := w.jobs[j := Quarantined(row, o.complaint)]), Some(Quarantined(row, o.complaint)))
    else (saved, Some(Quarantined(row, o.complaint)))
  }

  // ---- The other callbacks ----

  function RecordRuntime(w: World, j: Id, u: RuntimeUpdate, release: Reply, close: Reply): (World, Option<Job>) {
    if j !in w.jobs then (w, None)
    else
      var row := RuntimeRow(w.jobs[j], u);
      var ledger := if RuntimeReleases(w.jobs[j], u) then Release(w.store.ledger, ContextOf(j, row.meta), release, close) else w.store.ledger;
      (w.(jobs := w.jobs[j := row], store := w.store.(ledger := ledger)), Some(row))
  }

  function RecordCancel(w: World, j: Id, cancelError: Option<string>): (World, Option<Job>) {
    if j !in w.jobs then (w, None)
    else (w.(jobs := w.jobs[j := CanceledRow(w.jobs[j], cancelError)]), Some(CanceledRow(w.jobs[j], cancelError)))
  }

  // ---- The service ----

  class ImageRuntime {
    var jobs: map<Id, Job>
    var assets: seq<Asset>
    var charges: seq<Charge>
    const core: ProductCore

    function Contents(): World
      reads this, core
    {
      World(jobs, assets, core.Contents(), charges)
    }

    constructor (core: ProductCore, w: World)
      requires core.Contents() == w.store
      ensures Contents() == w && this.core == core
    {
      this.core := core;
      jobs, assets, charges := w.jobs, w.assets, w.charges;
    }

    method FindOrCreateResultAsset(j: Id, v: Variant, create: bool) returns (asset: Option<Id>)
      modifies this
      ensures jobs == old(jobs) && charges == old(charges)
      ensures asset.None? <==> FindAsset(old(assets), j, v).None? && !create
      ensures assets == if asset.None? then old(assets) else WithAsset(old(assets), j, v)
      ensures asset.Some? ==> asset.value == AssetFor(old(assets), j, v)
    {
      asset := FindAsset(assets, j, v);
      if asset.Some? {
        return;
      }
      if !create {
        return None;
      }
      assets := assets + [NewAsset(j, v)];
      return Some(|assets| - 1);
    }

    // The loop stops at the first error.
    method DeliverVariants(j: Id, job: Job, variants: seq<Variant>, o: ResultAnswers) returns (selected: Option<Id>, ok: bool)
      requires |variants| <= |o.writes| && |variants| <= |o.rids|
      modifies this, core
      ensures jobs == old(jobs) && charges == old(charges)
      ensures Delivery(assets, core.Contents(), selected, ok)
           == Deliver(Delivery(old(assets), old(core.Contents()), None, true), j, job, variants, o, |variants|)
    {
      hide PA.Archive, FindAsset;
      selected, ok := None, true;
      ghost var start := Delivery(assets, core.Contents(), None, true);
      var i := 0;
      while i < |variants| && ok
        invariant 0 <= i <= |variants|
        invariant jobs == old(jobs) && charges == old(charges)
        invariant Delivery(assets, core.Contents(), selected, ok) == Deliver(start, j, job, variants, o, i)
      {
        var v, w := variants[i], o.writes[i];
        var asset := FindOrCreateResultAsset(j, v, w.create);
        if asset.None? {
          ok := false;
        } else {
          var outcome := PA.ArchiveGeneratedAsset(core, IdIn(job.meta, ProductKey), o.rids[i], asset.value, job.role, v.selected, v.index, w.archive);
          ok := outcome == PA.Done;
          if ok && (v.selected || (selected.None? && i == 0)) {
            selected := asset;
          }
        }
        i := i + 1;
      }
      FailedDeliveryStops(start, j, job, variants, o, i, |variants|);
    }

    method FinalizeChargeForJob(j: Id, row: Job, status: string, o: ResultAnswers) returns (settled: bool)
      modifies this`charges, core
      ensures var ctx := ContextOf(j, row.meta);
              && core.Contents() == old(core.Contents()).(ledger := core.ledger)
              && (core.ledger, settled) == FinalizeCharge(old(core.ledger), ctx, status, o)
              && charges == if settled then Persist(old(charges), ctx, status, o) else old(charges)
    {
      var ctx := ContextOf(j, row.meta);
      if ctx.session.None? {
        return true;
      }
      var gate := new Gate(core.ledger);
      if status != COMPLETED {
        gate.ReleaseCharge(ctx, o.release, o.close);
        core.ledger := gate.ledger;
        return true;
      }
      settled := gate.CommitCharge(ctx, o.finalize, o.settle);
      core.ledger := gate.ledger;
      if settled {
        charges := Persist(charges, ctx, status, o);
      }
    }

    // The row is saved, then the charge is settled; a failure quarantines the result.
    method SettleJob(j: Id, row: Job, status: string, o: ResultAnswers) returns (item: Job)
      modifies this`jobs, this`charges, core
      ensures (Contents(), Some(item)) == SettleResults(old(Contents()), j, row, status, o)
    {
      hide FinalizeCharge, Persist, Quarantined;
      item := row;
      jobs := jobs[j := item];
      var settled := FinalizeChargeForJob(j, item, status, o);
      if !settled {
        item := Quarantined(item, o.complaint);
        if o.saveAgainOk {
          jobs := jobs[j := item];
          assert jobs == old(jobs)[j := item];
        }
      }
    }

    method RecordJobResults(j: Id, input: ResultInput, o: ResultAnswers) returns (row: Option<Job>)
      requires |input.variants| <= |o.writes| && |input.variants| <= |o.rids|
      modifies this, core
      ensures (Contents(), row) == RecordResults(old(Contents()), j, input, o)
    {
      hide Deliver, SettleResults, Stamped;
      if j !in jobs {
        return None;
      }
      var item := Stamped(jobs[j], input);
      var selected, ok := DeliverVariants(j, item, input.variants, o);
      if !ok || !o.saveOk {
        return None;
      }
      if selected.Some? {
        item := item.(selected := selected);
      }
      item := SettleJob(j, item, input.status, o);
      return Some(item);
    }

    method UpdateJobRuntime(j: Id, u: RuntimeUpdate, release: Reply, close: Reply) returns (row: Option<Job>)
      modifies this, core
      ensures (Contents(), row) == RecordRuntime(old(Contents()), j, u, release, close)
    {
      if j !in jobs {
        return None;
      }
      var item := RuntimeRow(jobs[j], u);
      if RuntimeReleases(jobs[j], u) {
        var gate := new Gate(core.ledger);
        gate.ReleaseCharge(ContextOf(j, item.meta), release, close);
        core.ledger := gate.ledger;
      }
      jobs := jobs[j := item];
      return Some(item);
    }

    method CancelJob(j: Id, cancelError: Option<string>) returns (row: Option<Job>)
      modifies this
      ensures (Contents(), row) == RecordCancel(old(Contents()), j, cancelError)
    {
      if j !in jobs {
        return None;
      }
      jobs := jobs[j := CanceledRow(jobs[j], cancelError)];
      return Some(jobs[j]);
    }
  }

  lemma {:induction false} FailedDeliveryStops(d: Delivery, j: Id, job: Job, variants: seq<Variant>, o: ResultAnswers, i: nat, n: nat)
    requires i <= n <= |variants| <= |o.writes| && |variants| <= |o.rids|
    requires i == n || !Deliver(d, j, job, variants, o, i).ok
    ensures Deliver(d, j, job, variants, o, n) == Deliver(d, j, job, variants, o, i)
  {
    hide PA.Archive;
    if i < n {
      FailedDeliveryStops(d, j, job, variants, o, i, n - 1);
    }
  }

  // ---- Settlement ----

  // The merged metadata of a callback name the charge session and reservation.
  predicate Charged(meta: Meta, session: Id, reservation: Option<Id>) {
    && ChargeSessionKey in meta && meta[ChargeSessionKey] == IdValue(session)
    && (match reservation
        case Some(r) => ReservationKey in meta && meta[ReservationKey] == IdValue(r)
        case None => ReservationKey !in meta || !meta[ReservationKey].IdValue?)
  }

  // The reservation is there to be released or consumed.
  predicate Holds(l: Ledger, reservation: Option<Id>) {
    reservation.Some? && reservation.value in l.reservations && l.reservations[reservation.value] == Open
  }

  // The ledger after a charge was given up: its release is requested once, and
  // the unit is back if that takes; the session is closed if that update does.
  predicate GivenUp(l: Ledger, m: Ledger, session: Id, reservation: Option<Id>, release: Reply, close: Reply) {
    && m.releaseRequests == l.releaseRequests + (if reservation.Some? then [reservation.value] else [])
    && m.granted == l.granted && m.consumed == l.consumed && m.settlements == l.settlements
    && (if Holds(l, reservation) && release != Refused
        then m.reservations == l.reservations[reservation.value := Released] && m.available == l.available + 1
        else m.reservations == l.reservations && m.available == l.available)
    && m.sessions == if close == Refused then l.sessions else l.sessions[session := Closed]
  }

  // The ledger after a charge was settled: the unit is consumed once, unless
  // that was done before, and the session settled unless the caller saw an error.
  predicate PaidFor(l: Ledger, m: Ledger, j: Id, session: Id, reservation: Option<Id>, o: ResultAnswers) {
    var known := j in l.settlements;
    var settles := o.finalize != Refused && (known || reservation.None? || Holds(l, reservation));
    && m.releaseRequests == l.releaseRequests && m.granted == l.granted && m.available == l.available
    && m.settlements == (if settles then l.settlements + {j} else l.settlements)
    && (if settles && !known && reservation.Some?
        then m.reservations == l.reservations[reservation.value := Consumed] && m.consumed == l.consumed + 1
        else m.reservations == l.reservations && m.consumed == l.consumed)
    && m.sessions == if settles && o.finalize == Applied && o.settle != Refused then l.sessions[session := Settled] else l.sessions
  }

  lemma ReleaseGivesUp(l: Ledger, j: Id, session: Id, reservation: Option<Id>, release: Reply, close: Reply)
    ensures GivenUp(l, Release(l, Context(j, Some(session), reservation), release, close), session, reservation, release, close)
  {
  }

  lemma CommitPays(l: Ledger, j: Id, session: Id, reservation: Option<Id>, o: ResultAnswers)
    ensures PaidFor(l, Commit(l, Context(j, Some(session), reservation), o.finalize, o.settle).0, j, session, reservation, o)
  {
  }

  lemma ChargedContext(j: Id, meta: Meta, session: Id, reservation: Option<Id>)
    requires Charged(meta, session, reservation)
    ensures ContextOf(j, meta) == Context(j, Some(session), reservation)
  {
  }

  // What a callback that saved its row does to the platform's ledger: the charge
  // of a job that did not complete is given up, that of a completed one settled.
  lemma ResultsLedger(w: World, j: Id, input: ResultInput, o: ResultAnswers, session: Id, reservation: Option<Id>)
    requires |input.variants| <= |o.writes| && |input.variants| <= |o.rids|
    requires j in w.jobs && Charged(w.jobs[j].meta + input.meta, session, reservation) && RecordResults(w, j, input, o).1.Some?
    ensures var l, m := w.store.ledger, RecordResults(w, j, input, o).0.store.ledger;
            if input.status == COMPLETED then PaidFor(l, m, j, session, reservation, o)
            else GivenUp(l, m, session, reservation, o.release, o.close)
  {
    hide Deliver, StageFor, DefaultMessage, Clamp, Blank, Trim, Persist, Quarantined, PaidFor, GivenUp, Commit, Release, Charged, ContextOf;
    var stamped := Stamped(w.jobs[j], input);
    DeliveryKeepsLedger(Delivery(w.assets, w.store, None, true), j, stamped, input.variants, o, |input.variants|);
    ChargedContext(j, stamped.meta, session, reservation);
    ReleaseGivesUp(w.store.ledger, j, session, reservation, o.release, o.close);
    CommitPays(w.store.ledger, j, session, reservation, o);
  }

  // A runtime report that makes the job failed gives its charge up as well; any
  // other leaves the ledger alone.
  lemma RuntimeLedger(w: World, j: Id, u: RuntimeUpdate, release: Reply, close: Reply, session: Id, reservation: Option<Id>)
    requires j in w.jobs && Charged(w.jobs[j].meta + u.meta, session, reservation)
    ensures var l, m := w.store.ledger, RecordRuntime(w, j, u, release, close).0.store.ledger;
            if Accepts(w.jobs[j], u) && (if u.status != "" then u.status else w.jobs[j].status) == FAILED
            then GivenUp(l, m, session, reservation, release, close) else m == l
  {
    hide GivenUp, Release, Charged, ContextOf, Accepts;
    ChargedContext(j, w.jobs[j].meta + u.meta, session, reservation);
    ReleaseGivesUp(w.store.ledger, j, session, reservation, release, close);
  }

  // A callback that saves no row, or is about a job without a charge session,
  // leaves the ledger alone.
  lemma OtherwiseLedgerStays(w: World, j: Id, input: ResultInput, o: ResultAnswers)
    requires |input.variants| <= |o.writes| && |input.variants| <= |o.rids|
    requires j in w.jobs && RecordResults(w, j, input, o).1.Some? ==>
               var meta := w.jobs[j].meta + input.meta; ChargeSessionKey !in meta || !meta[ChargeSessionKey].IdValue?
    ensures RecordResults(w, j, input, o).0.store.ledger == w.store.ledger
  {
    hide Deliver, StageFor, DefaultMessage, Clamp, Blank, Trim, Persist, Quarantined;
    if j in w.jobs {
      var stamped := Stamped(w.jobs[j], input);
      DeliveryKeepsLedger(Delivery(w.assets, w.store, None, true), j, stamped, input.variants, o, |input.variants|);
    }
  }

  // ---- The row, field by field ----

  predicate StageShows(status: string, stage: string) {
    stage == (if status == "processing" then "provider_completed" else if Trim(status) == "" then "updated" else status)
  }

  predicate MessageShows(input: ResultInput, message: string) {
    message == (if Trim(input.message) != "" then Trim(input.message)
                else if input.status == "completed" then "Image job completed successfully"
                else if input.status == "failed" then "Image job failed"
                else if input.status == "canceled" then "Image job canceled"
                else if Trim(input.status) == "" then "Image job updated" else input.status)
  }

  predicate ProgressShows(given: int, status: string, progress: int) {
    progress == if status == "completed" || given > 100 then 100 else if given < 0 then 0 else given
  }

  // The row as the callback asked for it.
  predicate Reports(job: Job, input: ResultInput, row: Job) {
    && row.status == input.status && StageShows(input.status, row.stage) && MessageShows(input, row.message)
    && ProgressShows(input.progress, input.status, row.progress)
    && row.errorCode == input.errorCode && row.errorMessage == input.errorMessage && row.meta == job.meta + input.meta
    && row.completedAt == (job.completedAt || input.status == "completed") && row.canceledAt == (job.canceledAt || input.status == "canceled")
    && row.role == job.role && row.runtimeJob == job.runtimeJob && row.providerJob == job.providerJob
  }

  // The same row after its settlement failed: the selection moves to the metadata.
  predicate Withheld(row: Job, complaint: string, q: Job) {
    && q.status == "failed" && q.stage == "metering_failed" && q.selected.None? && !q.completedAt
    && q.message == "Image generation could not be completed because billing settlement failed"
    && q.errorCode == "METERING_FINALIZATION_FAILED" && q.errorMessage == complaint
    && ProgressShows(row.progress, "failed", q.progress) && q.canceledAt == row.canceledAt
    && q.meta == (row.meta[MeteringStatusKey := TextValue("failed")][MeteringErrorKey := TextValue(complaint)]
                  + (if row.selected.Some? then map[QuarantinedKey := IdValue(row.selected.value)] else map[]))
    && q.role == row.role && q.runtimeJob == row.runtimeJob && q.providerJob == row.providerJob
  }

  // The charge of a completed job with a session is settled when the platform
  // said so to both calls.
  predicate Paid(l: Ledger, j: Id, reservation: Option<Id>, o: ResultAnswers) {
    && o.finalize == Applied && o.settle == Applied
    && (j in l.settlements || reservation.None? || Holds(l, reservation))
  }

  lemma StampedReports(job: Job, input: ResultInput)
    ensures Reports(job, input, Stamped(job, input)) && Stamped(job, input).selected == job.selected
  {
    hide Trim;
    TrimmedIsFixed(COMPLETED);
    TrimmedIsFixed(FAILED);
    TrimmedIsFixed(CANCELED);
    TrimmedIsFixed(PROCESSING);
  }

  lemma QuarantinedWithholds(row: Job, complaint: string)
    ensures Withheld(row, complaint, Quarantined(row, complaint))
  {
  }

  lemma CommitReturns(l: Ledger, j: Id, session: Id, reservation: Option<Id>, o: ResultAnswers)
    ensures Commit(l, Context(j, Some(session), reservation), o.finalize, o.settle).1 <==> Paid(l, j, reservation, o)
  {
  }

  // What a callback leaves of its job: nothing if a variant or the row could not
  // be saved; else the row it reports, with the selected asset; if the charge
  // of a completed job could not be settled, the row withheld, which is returned
  // even where it could not be saved again.
  lemma ResultsRow(w: World, j: Id, input: ResultInput, o: ResultAnswers)
    requires |input.variants| <= |o.writes| && |input.variants| <= |o.rids| && j in w.jobs
    ensures var (t, row) := RecordResults(w, j, input, o);
            var d := Deliver(Delivery(w.assets, w.store, None, true), j, Stamped(w.jobs[j], input), input.variants, o, |input.variants|);
            && (row.Some? <==> d.ok && o.saveOk)
            && (row.None? ==> t.jobs == w.jobs && t.charges == w.charges)
            && t.assets == d.assets && t.store == d.store.(ledger := t.store.ledger)
            && (row.Some? ==> exists asked: Job ::
                  && Reports(w.jobs[j], input, asked) && asked.selected == (if d.selected.Some? then d.selected else w.jobs[j].selected)
                  && Saves(w, t, j, input, o, asked, row.value))
  {
    hide Deliver, Reports, Stamped, Saves, SettleResults;
    var stamped := Stamped(w.jobs[j], input);
    var d := Deliver(Delivery(w.assets, w.store, None, true), j, stamped, input.variants, o, |input.variants|);
    StampedReports(w.jobs[j], input);
    DeliveryKeepsLedger(Delivery(w.assets, w.store, None, true), j, stamped, input.variants, o, |input.variants|);
    if d.ok && o.saveOk {
      var asked := if d.selected.Some? then stamped.(selected := d.selected) else stamped;
      SelectionAside(w.jobs[j], input, stamped, d.selected);
      assert Reports(w.jobs[j], input, asked);
      SettleSaves(w.(assets := d.assets, store := d.store), w, j, input, o, asked);
    }
  }

  lemma SelectionAside(job: Job, input: ResultInput, row: Job, selected: Option<Id>)
    requires Reports(job, input, row)
    ensures Reports(job, input, row.(selected := selected))
  {
  }

  // The saved rows, the returned row and the charge rows, after the row asked for.
  ghost predicate Saves(w: World, t: World, j: Id, input: ResultInput, o: ResultAnswers, asked: Job, row: Job) {
    var ctx := ContextOf(j, asked.meta);
    var settled := ctx.session.None? || input.status != "completed" || Paid(w.store.ledger, j, ctx.reservation, o);
    && (settled ==> row == asked && t.jobs == w.jobs[j := asked])
    && (!settled ==> Withheld(asked, o.complaint, row) && t.jobs == w.jobs[j := if o.saveAgainOk then row else asked])
    && t.charges == w.charges + (if settled && ctx.session.Some? && input.status == "completed" && o.settled && o.chargeOk
                                    && (forall i :: 0 <= i < |w.charges| ==> w.charges[i].event != j)
                                 then [Charge(j, ctx.session)] else [])
  }

  lemma SettleSaves(v: World, w: World, j: Id, input: ResultInput, o: ResultAnswers, asked: Job)
    requires v.jobs == w.jobs && v.charges == w.charges && v.store.ledger == w.store.ledger
    ensures var (t, row) := SettleResults(v, j, asked, input.status, o);
            && row.Some? && Saves(w, t, j, input, o, asked, row.value)
            && t.assets == v.assets && t.store == v.store.(ledger := t.store.ledger)
  {
    hide Commit, Quarantined, Withheld, Release, Paid;
    var ctx := ContextOf(j, asked.meta);
    if ctx.session.Some? {
      CommitReturns(v.store.ledger, j, ctx.session.value, ctx.reservation, o);
    }
    QuarantinedWithholds(asked, o.complaint);
  }

  // A job with a charge session is reported completed exactly when that was
  // asked for and both the finalization and the settled update succeeded;
  // otherwise the result is quarantined.
  lemma CompletedMeansSettled(w: World, j: Id, input: ResultInput, o: ResultAnswers, session: Id, reservation: Option<Id>)
    requires |input.variants| <= |o.writes| && |input.variants| <= |o.rids|
    requires j in w.jobs && Charged(w.jobs[j].meta + input.meta, session, reservation)
    ensures var (t, row) := RecordResults(w, j, input, o);
            row.Some? ==>
              && (row.value.status == "completed" <==> input.status == "completed" && Paid(w.store.ledger, j, reservation, o))
              && (row.value.status == "completed" ==>
                    && j in t.store.ledger.settlements
                    && session in t.store.ledger.sessions && t.store.ledger.sessions[session] == Settled)
              && (input.status == "completed" && row.value.status != "completed" ==>
                    && row.value.status == "failed" && row.value.stage == "metering_failed"
                    && row.value.selected.None? && !row.value.completedAt)
              && (input.status != "completed" ==> row.value.status == input.status && t.store.ledger.settlements == w.store.ledger.settlements)
  {
    hide Deliver, Stamped, Charged, ContextOf, RecordResults;
    ResultsRow(w, j, input, o);
    if RecordResults(w, j, input, o).1.Some? {
      ChargedContext(j, w.jobs[j].meta + input.meta, session, reservation);
      ResultsLedger(w, j, input, o, session, reservation);
    }
  }

  lemma StepKeepsLedger(d: Delivery, j: Id, job: Job, v: Variant, first: bool, w: VariantWrites, rid: Id)
    ensures var e := VariantStep(d, j, job, v, first, w, rid);
            && e.store.ledger == d.store.ledger && e.store.listings == d.store.listings && e.store.tasks == d.store.tasks
            && e.store.products.Keys == d.store.products.Keys
  {
  }

  lemma {:induction false} DeliveryKeepsLedger(d: Delivery, j: Id, job: Job, variants: seq<Variant>, o: ResultAnswers, n: nat)
    requires n <= |variants| <= |o.writes| && |variants| <= |o.rids|
    ensures var e := Deliver(d, j, job, variants, o, n);
            && e.store.ledger == d.store.ledger && e.store.listings == d.store.listings && e.store.tasks == d.store.tasks
            && e.store.products.Keys == d.store.products.Keys
  {
    hide VariantStep;
    if n > 0 {
      DeliveryKeepsLedger(d, j, job, variants, o, n - 1);
      StepKeepsLedger(Deliver(d, j, job, variants, o, n - 1), j, job, variants[n - 1], n == 1, o.writes[n - 1], o.rids[n - 1]);
    }
  }

  predicate UniqueEvents(charges: seq<Charge>) {
    forall a, b :: 0 <= a < b < |charges| ==> charges[a].event != charges[b].event
  }

  // One unit at most is consumed for a source, and none once it is settled.
  predicate ConsumedOnce(l: Ledger, m: Ledger, source: Id) {
    && l.consumed <= m.consumed <= l.consumed + 1
    && (source in l.settlements ==> m.consumed == l.consumed)
    && (m.consumed > l.consumed ==> source in m.settlements)
    && l.settlements <= m.settlements <= l.settlements + {source}
  }

  lemma FinalizeConsumesOnce(l: Ledger, ctx: Context, status: string, o: ResultAnswers)
    ensures ConsumedOnce(l, FinalizeCharge(l, ctx, status, o).0, ctx.source)
  {
  }

  lemma PersistKeepsUnique(charges: seq<Charge>, ctx: Context, status: string, o: ResultAnswers)
    requires UniqueEvents(charges)
    ensures UniqueEvents(Persist(charges, ctx, status, o)) && charges <= Persist(charges, ctx, status, o)
  {
  }

  // One callback settles its job at most once, and never again afterwards.
  lemma ResultsSettleOnce(w: World, j: Id, input: ResultInput, o: ResultAnswers)
    requires |input.variants| <= |o.writes| && |input.variants| <= |o.rids| && UniqueEvents(w.charges)
    ensures var t := RecordResults(w, j, input, o).0;
            ConsumedOnce(w.store.ledger, t.store.ledger, j) && UniqueEvents(t.charges) && w.charges <= t.charges
  {
    hide Deliver, FinalizeCharge, Persist, Quarantined;
    if j in w.jobs {
      var stamped := Stamped(w.jobs[j], input);
      var start := Delivery(w.assets, w.store, None, true);
      var d := Deliver(start, j, stamped, input.variants, o, |input.variants|);
      DeliveryKeepsLedger(start, j, stamped, input.variants, o, |input.variants|);
      var ctx := ContextOf(j, stamped.meta);
      FinalizeConsumesOnce(d.store.ledger, ctx, input.status, o);
      PersistKeepsUnique(w.charges, ctx, input.status, o);
    }
  }

  datatype ResultCall = ResultCall(input: ResultInput, answers: ResultAnswers)

  predicate Answered(c: ResultCall) {
    |c.input.variants| <= |c.answers.writes| && |c.input.variants| <= |c.answers.rids|
  }

  function RecordAll(w: World, j: Id, calls: seq<ResultCall>, n: nat): World
    requires n <= |calls| && forall i :: 0 <= i < |calls| ==> Answered(calls[i])
  {
    if n == 0 then w else RecordResults(RecordAll(w, j, calls, n - 1), j, calls[n - 1].input, calls[n - 1].answers).0
  }

  // However often the results of a job arrive, a platform that recognises the
  // finalization id consumes at most one unit for it, and one charge row exists.
  lemma {:induction false} SettledAtMostOnce(w: World, j: Id, calls: seq<ResultCall>, n: nat)
    requires n <= |calls| && (forall i :: 0 <= i < |calls| ==> Answered(calls[i])) && UniqueEvents(w.charges)
    ensures var t := RecordAll(w, j, calls, n);
            && UniqueEvents(t.charges)
            && w.store.ledger.consumed <= t.store.ledger.consumed <= w.store.ledger.consumed + 1
            && (t.store.ledger.consumed > w.store.ledger.consumed ==> j in t.store.ledger.settlements)
            && (j in w.store.ledger.settlements ==> t.store.ledger.consumed == w.store.ledger.consumed)
            && w.store.ledger.settlements <= t.store.ledger.settlements
  {
    hide RecordResults;
    if n > 0 {
      SettledAtMostOnce(w, j, calls, n - 1);
      assert Answered(calls[n - 1]);
      ResultsSettleOnce(RecordAll(w, j, calls, n - 1), j, calls[n - 1].input, calls[n - 1].answers);
    }
  }

  // ---- One variant ----

  // The asset a variant stands for: the first one generated for its index, or
  // else, if it names a storage key, the first one stored under it.
  predicate StandsFor(assets: seq<Asset>, j: Id, v: Variant, a: Id) {
    && a < |assets|
    && if exists x: Id :: x < |assets| && assets[x].source == "generated" && assets[x].result == Some((j, v.index))
       then assets[a].source == "generated" && assets[a].result == Some((j, v.index))
            && forall x: Id :: x < a ==> assets[x].source != "generated" || assets[x].result != Some((j, v.index))
       else Trim(v.storage) != "" && assets[a].storage == v.storage && forall x: Id :: x < a ==> assets[x].storage != v.storage
  }

  lemma FindAssetIff(assets: seq<Asset>, j: Id, v: Variant)
    ensures FindAsset(assets, j, v).Some? ==> StandsFor(assets, j, v, FindAsset(assets, j, v).value)
    ensures forall a: Id :: StandsFor(assets, j, v, a) ==> FindAsset(assets, j, v) == Some(a)
  {
    hide Trim;
    var results, stored := ResultAssets(assets, j, v.index), StorageAssets(assets, v.storage);
    assert forall a: Id :: a in results <==> a < |assets| && assets[a].source == "generated" && assets[a].result == Some((j, v.index));
    assert forall a: Id :: a in stored <==> a < |assets| && assets[a].storage == v.storage;
    forall a: Id | StandsFor(assets, j, v, a) ensures FindAsset(assets, j, v) == Some(a) {
      if results != {} {
        assert a in results;
      } else {
        assert a in stored;
      }
    }
  }

  // A variant that stands for no asset becomes one, unless that fails; the
  // asset is linked, and selected when it is flagged, or the first and only
  // as long as none is. An error changes no selection and ends the delivery.
  lemma VariantReports(d: Delivery, j: Id, job: Job, v: Variant, first: bool, w: VariantWrites, rid: Id)
    ensures var e := VariantStep(d, j, job, v, first, w, rid);
            var known := exists a: Id :: StandsFor(d.assets, j, v, a);
            if !d.ok || (!known && !w.create) then e == d.(ok := false)
            else
              && (known ==> e.assets == d.assets)
              && (!known ==> e.assets == d.assets + [Asset(if Trim(v.source) == "" then "generated" else v.source, v.storage, Some((j, v.index)))])
              && exists a: Id ::
                   && (if known then StandsFor(d.assets, j, v, a) else a == |d.assets|)
                   && var (t, outcome) := PA.Archive(d.store, IdIn(job.meta, ProductKey), rid, a, job.role, v.selected, v.index, w.archive);
                   && e.store == t && (e.ok <==> outcome == PA.Done)
                   && e.selected == if e.ok && (v.selected || (first && d.selected.None?)) then Some(a) else d.selected
  {
    hide StandsFor, FindAsset, PA.Archive, Trim;
    FindAssetIff(d.assets, j, v);
  }

  // ---- The calls that deliver nothing ----

  // They write the row of their job and, for a report that makes it failed, the
  // ledger; an unknown job is an error.
  lemma OtherCallsReport(w: World, j: Id, u: RuntimeUpdate, release: Reply, close: Reply, cancelError: Option<string>)
    ensures var (t, row) := RecordRuntime(w, j, u, release, close);
            && (row.Some? <==> j in w.jobs)
            && t == w.(jobs := t.jobs, store := w.store.(ledger := t.store.ledger))
            && t.jobs == (if j in w.jobs then w.jobs[j := RuntimeRow(w.jobs[j], u)] else w.jobs)
            && (row.Some? ==> row.value == t.jobs[j])
    ensures var (t, row) := RecordCancel(w, j, cancelError);
            && (row.Some? <==> j in w.jobs)
            && t == w.(jobs := if j in w.jobs then w.jobs[j := CanceledRow(w.jobs[j], cancelError)] else w.jobs)
            && (row.Some? ==> row.value == t.jobs[j])
  {
    hide RuntimeRow, CanceledRow, Release;
  }
}
