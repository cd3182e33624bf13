/** The image job row: its creation, the runtime's progress callbacks, the
    user's cancellation, and the partial write that binds the runtime job. */
module ImageJobs {
  import opened Options
  import opened Text
  import opened BillingGate
  import opened ProductCenter

  // ---- Rows ----

  // The keys the service itself reads back from a job's metadata are named.
  datatype Key =
    | ChargeSessionKey | ReservationKey | BillableItemKey | ResourceTypeKey | UsageUnitsKey
    | ProductKey | SkuKey | PromptContractKey
    | ProviderCodeKey | CancelErrorKey | MeteringStatusKey | MeteringErrorKey | QuarantinedKey
    | OtherKey(name: string)

  datatype Value = IdValue(id: Id) | TextValue(text: string) | NumberValue(n: int)

  type Meta = map<Key, Value>

  datatype Job = Job(
    role: Role,
    status: string,
    stage: string,
    message: string,
    progress: int,
    runtimeJob: Option<Id>,
    providerJob: string,
    selected: Option<Id>,
    errorCode: string,
    errorMessage: string,
    meta: Meta,
    completedAt: bool,
    canceledAt: bool)

  const QUEUED := "queued"
  const PROCESSING := "processing"
  const COMPLETED := "completed"
  const FAILED := "failed"
  const CANCELED := "canceled"
  const PROVIDER_COMPLETED := "provider_completed"
  const METERING_FAILED := "metering_failed"

  function IdIn(meta: Meta, k: Key): Option<Id> {
    if k in meta && meta[k].IdValue? then Some(meta[k].id) else None
  }

  function ContextOf(j: Id, meta: Meta): Context {
    Context(j, IdIn(meta, ChargeSessionKey), IdIn(meta, ReservationKey))
  }

  function Clamp(progress: int, status: string): int {
    if status == COMPLETED then 100 else if progress < 0 then 0 else if progress > 100 then 100 else progress
  }

  predicate Terminal(status: string) {
    var s := Trim(status);
    s == COMPLETED || s == FAILED || s == CANCELED
  }

  // ---- Creation ----

  // What the charge contributes to the metadata; blank ids are left out.
  function ChargeMeta(ctx: Context): Meta {
    (match ctx.session case Some(s) => map[ChargeSessionKey := IdValue(s)] case None => map[]) +
    (match ctx.reservation case Some(r) => map[ReservationKey := IdValue(r)] case None => map[]) +
    map[BillableItemKey := TextValue("ecommerce.image.generate"), ResourceTypeKey := TextValue("quota"), UsageUnitsKey := NumberValue(1)]
  }

  function NewJob(role: Role, product: Id, ctx: Context, other: Meta): Job {
    Job(role, QUEUED, QUEUED, "Image job created and waiting for runtime dispatch", 0, None, "", None, "", "",
        other + map[ProductKey := IdValue(product)] + ChargeMeta(ctx), false, false)
  }

  // ---- Runtime callbacks ----

  // Blank texts and None leave a field alone.
  datatype RuntimeUpdate = RuntimeUpdate(
    status: string,
    stage: string,
    message: string,
    progress: Option<int>,
    providerJob: string,
    errorCode: string,
    errorMessage: string,
    meta: Meta)

  function Or(value: string, fallback: string): string {
    if value != "" then value else fallback
  }

  // A terminal job accepts only a repetition of its own status.
  predicate Accepts(job: Job, u: RuntimeUpdate) {
    Terminal(job.status) ==> Trim(u.status) != "" && Trim(u.status) == job.status
  }

  function Progressed(job: Job, u: RuntimeUpdate): Job {
    var status := Or(u.status, job.status);
    job.(status := status,
         stage := Or(u.stage, job.stage),
         message := Or(u.message, job.message),
         progress := if u.progress.Some? then Clamp(u.progress.value, status) else job.progress,
         providerJob := Or(u.providerJob, job.providerJob),
         errorCode := Or(u.errorCode, job.errorCode),
         errorMessage := Or(u.errorMessage, job.errorMessage),
         meta := job.meta + u.meta)
  }

  function Dated(job: Job): Job {
    if job.status == COMPLETED then job.(completedAt := true, canceledAt := false)
    else if job.status == CANCELED then job.(canceledAt := true)
    else if job.status == FAILED then job.(stage := Or(job.stage, FAILED), errorMessage := Or(job.errorMessage, job.message))
    else job
  }

  function RuntimeRow(job: Job, u: RuntimeUpdate): Job {
    if Accepts(job, u) then Dated(Progressed(job, u)) else job
  }

  // A failure asks for the reservation to be released.
  predicate RuntimeReleases(job: Job, u: RuntimeUpdate) {
    Accepts(job, u) && RuntimeRow(job, u).status == FAILED
  }

  // cancelError is the platform's complaint about the cancellation, if any.
  function CanceledRow(job: Job, cancelError: Option<string>): Job {
    if job.status == COMPLETED || job.status == FAILED || job.status == CANCELED then job
    else
      job.(meta := if job.runtimeJob.Some? && cancelError.Some? then job.meta[CancelErrorKey := TextValue(cancelError.value)] else job.meta,
           status := CANCELED, stage := CANCELED, message := "Image job canceled by user",
           progress := Clamp(job.progress, CANCELED), canceledAt := true)
  }

  // ---- Binding ----

  datatype Binding = Binding(runtimeJob: Id, providerJob: string, providerCode: string, ctx: Context)

  // The creator's copy of the row after the charge was bound into it.
  function BoundMeta(meta: Meta, b: Binding): Meta {
    meta + ChargeMeta(b.ctx) + (if Trim(b.providerCode) != "" then map[ProviderCodeKey := TextValue(Trim(b.providerCode))] else map[])
  }

  // Three columns are written; the rest of the row keeps what is there.
  function BindingWrite(row: Job, b: Binding, providerJob: string, meta: Meta): Job {
    row.(runtimeJob := Some(b.runtimeJob), meta := meta, providerJob := Or(providerJob, row.providerJob))
  }

  // ---- Properties ----

  predicate Percent(job: Job) {
    0 <= job.progress <= 100
  }

  // Dates, stage and error text that go with the status.
  predicate Consistent(job: Job) {
    && (job.status == COMPLETED ==> job.completedAt && !job.canceledAt)
    && (job.status == CANCELED ==> job.canceledAt)
    && (job.status == FAILED ==> job.stage != "" && (job.errorMessage == "" ==> job.message == ""))
  }

  // An accepted callback leaves a consistent row that shows what was given and
  // keeps what was not.
  lemma AcceptedRowReports(job: Job, u: RuntimeUpdate)
    requires Accepts(job, u)
    ensures var r := RuntimeRow(job, u);
            && Consistent(r)
            && r.status == (if u.status != "" then u.status else job.status)
            && r.stage == (if u.stage != "" then u.stage else if job.stage != "" || r.status != "failed" then job.stage else "failed")
            && r.message == (if u.message != "" then u.message else job.message)
            && r.errorCode == (if u.errorCode != "" then u.errorCode else job.errorCode)
            && r.errorMessage == (if u.errorMessage != "" then u.errorMessage else if job.errorMessage != "" || r.status != "failed" then job.errorMessage else r.message)
            && r.completedAt == (job.completedAt || r.status == "completed")
            && r.canceledAt == (if r.status == "completed" then false else job.canceledAt || r.status == "canceled")
            && r.providerJob == (if u.providerJob != "" then u.providerJob else job.providerJob)
            && r.role == job.role && r.selected == job.selected && r.runtimeJob == job.runtimeJob
  {
    hide Trim, Terminal, Clamp;
  }

  // Its progress is the given one as a percentage, and its metadata are merged.
  lemma AcceptedRowProgresses(job: Job, u: RuntimeUpdate)
    requires Accepts(job, u)
    ensures var r := RuntimeRow(job, u);
            && (u.progress.None? ==> r.progress == job.progress)
            && (u.progress.Some? ==> r.progress == if r.status == "completed" || u.progress.value > 100 then 100
                                                   else if u.progress.value < 0 then 0 else u.progress.value)
            && (Percent(job) ==> Percent(r))
            && (forall k :: k in u.meta ==> k in r.meta && r.meta[k] == u.meta[k])
            && (forall k :: k in job.meta && k !in u.meta ==> k in r.meta && r.meta[k] == job.meta[k])
            && r.meta.Keys == job.meta.Keys + u.meta.Keys
  {
    hide Trim, Terminal;
  }

  // A report a finished job does not accept changes nothing.
  lemma RefusedReport(job: Job, u: RuntimeUpdate)
    ensures Accepts(job, u) <==> Trim(job.status) !in {"completed", "failed", "canceled"} || (Trim(u.status) != "" && Trim(u.status) == job.status)
    ensures !Accepts(job, u) ==> RuntimeRow(job, u) == job && !RuntimeReleases(job, u)
  {
    hide Trim;
  }

  // A cancellation ends every job that has not ended; the platform's complaint
  // is kept where it was asked to cancel.
  lemma CancellationReports(job: Job, cancelError: Option<string>)
    ensures var r := CanceledRow(job, cancelError);
            if job.status in {"completed", "failed", "canceled"} then r == job
            else
              && r.status == "canceled" && r.stage == "canceled" && r.canceledAt && Percent(r)
              && r.message == "Image job canceled by user"
              && (Percent(job) ==> r.progress == job.progress)
              && r.meta == (if job.runtimeJob.Some? && cancelError.Some? then job.meta[CancelErrorKey := TextValue(cancelError.value)] else job.meta)
              && r == job.(status := r.status, stage := r.stage, canceledAt := true, message := r.message, progress := r.progress, meta := r.meta)
  {
  }

  // ---- Finished jobs ----

  predicate Ended(job: Job) {
    job.status == COMPLETED || job.status == FAILED || job.status == CANCELED
  }

  datatype Touch = Report(u: RuntimeUpdate) | Cancel(cancelError: Option<string>)

  function Touched(job: Job, t: Touch): Job {
    match t
    case Report(u) => RuntimeRow(job, u)
    case Cancel(cancelError) => CanceledRow(job, cancelError)
  }

  function AfterTouches(job: Job, ts: seq<Touch>, n: nat): Job
    requires n <= |ts|
  {
    if n == 0 then job else Touched(AfterTouches(job, ts, n - 1), ts[n - 1])
  }

  // A report of the given status with spaces around it.
  predicate Pads(status: string, t: Touch) {
    t.Report? && Trim(t.u.status) == status && t.u.status != status
  }

  // A finished job is not cancelled and takes no report of another status.
  lemma EndedTouched(job: Job, t: Touch)
    requires Ended(job)
    ensures Touched(job, t).status == job.status <==> !Pads(job.status, t)
    ensures t.Cancel? || Trim(t.u.status) != job.status ==> Touched(job, t) == job
    ensures t.Report? ==> !RuntimeReleases(job, t.u) || job.status == FAILED
  {
    hide Trim, Clamp;
    TrimmedIsFixed(job.status);
    TrimmedIsFixed("");
    TrimmedIsFixed(FAILED);
  }

  // The status shown all along.
  predicate Steady(job: Job, ts: seq<Touch>, n: nat)
    requires n <= |ts|
  {
    forall i: nat :: i <= n ==> AfterTouches(job, ts, i).status == job.status
  }

  predicate NeverPadded(status: string, ts: seq<Touch>, n: nat)
    requires n <= |ts|
  {
    forall i: nat :: i < n ==> !Pads(status, ts[i])
  }

  // Whatever reports and cancellations follow, a finished job shows its status
  // all along exactly when none of the reports pads it.
  lemma {:induction false} EndedStaysIff(job: Job, ts: seq<Touch>, n: nat)
    requires Ended(job) && n <= |ts|
    ensures Steady(job, ts, n) <==> NeverPadded(job.status, ts, n)
  {
    hide Touched, Pads;
    if n > 0 {
      EndedStaysIff(job, ts, n - 1);
      var before := AfterTouches(job, ts, n - 1);
      assert AfterTouches(job, ts, n) == Touched(before, ts[n - 1]);
      assert Steady(job, ts, n) <==> Steady(job, ts, n - 1) && Touched(before, ts[n - 1]).status == job.status;
      assert NeverPadded(job.status, ts, n) <==> NeverPadded(job.status, ts, n - 1) && !Pads(job.status, ts[n - 1]);
      if Steady(job, ts, n - 1) {
        EndedTouched(before, ts[n - 1]);
      }
    }
  }

  // The spaces are stored, and the cancellation, which compares the status as
  // it is stored, then takes the completed job for a running one.
  lemma PaddedJobIsCanceled(job: Job, u: RuntimeUpdate, cancelError: Option<string>)
    requires job.status == COMPLETED && job.completedAt && u.status == [' '] + COMPLETED
    ensures var row := AfterTouches(job, [Report(u), Cancel(cancelError)], 2);
            row.status == CANCELED && row.completedAt && row.canceledAt
  {
    hide Trim, Clamp;
    TrimmedIsFixed(COMPLETED);
    TrimDropsLeadingSpace(COMPLETED);
    var ts := [Report(u), Cancel(cancelError)];
    assert u.status != COMPLETED && u.status[0] == ' ' && Trim(u.status) == COMPLETED;
    assert AfterTouches(job, ts, 0) == job;
    assert AfterTouches(job, ts, 1) == RuntimeRow(job, u);
    assert AfterTouches(job, ts, 2) == CanceledRow(RuntimeRow(job, u), cancelError);
  }
}
