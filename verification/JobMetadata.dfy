/** What the creator's late write does to the metadata that callbacks added to
    the row in the meantime. */
module JobMetadata {
  import opened Options
  import opened Text
  import opened BillingGate
  import opened ImageJobs
  import opened ImageResults
  import opened JobInterleaving

  // ---- What a callback adds ----

  // The results of a call that got to saving the row, with those of a failed
  // settlement if these were saved too.
  function ResultsWritten(w: World, j: Id, input: ResultInput, o: ResultAnswers): Meta
    requires j in w.jobs && |input.variants| <= |o.writes| && |input.variants| <= |o.rids|
  {
    var stamped := Stamped(w.jobs[j], input);
    var d := Deliver(Delivery(w.assets, w.store, None, true), j, stamped, input.variants, o, |input.variants|);
    if !d.ok || !o.saveOk then map[]
    else
      var settled := FinalizeCharge(d.store.ledger, ContextOf(j, stamped.meta), input.status, o).1;
      if settled || !o.saveAgainOk then input.meta
      else input.meta + FailureMeta(if d.selected.Some? then d.selected else stamped.selected, o.complaint)
  }

  function CancelWritten(job: Job, cancelError: Option<string>): Meta {
    if job.status != COMPLETED && job.status != FAILED && job.status != CANCELED && job.runtimeJob.Some? && cancelError.Some?
    then map[CancelErrorKey := TextValue(cancelError.value)] else map[]
  }

  function Written(w: World, j: Id, cb: Callback): Meta
    requires WellAnswered(cb)
  {
    if j !in w.jobs then map[]
    else
      match cb
      case RuntimeCall(u, _, _) => if Accepts(w.jobs[j], u) then u.meta else map[]
      case ResultsCall(input, answers) => ResultsWritten(w, j, input, answers)
      case CancelCall(cancelError) => CancelWritten(w.jobs[j], cancelError)
  }

  lemma MergesAssociate(a: Meta, b: Meta, c: Meta)
    ensures a + b + c == a + (b + c)
  {
  }

  lemma StampedMeta(job: Job, input: ResultInput)
    ensures Stamped(job, input).meta == job.meta + input.meta
  {
    hide StageFor, DefaultMessage, Clamp, Trim, Blank;
  }

  lemma QuarantinedMeta(job: Job, complaint: string)
    ensures Quarantined(job, complaint).meta == job.meta + FailureMeta(job.selected, complaint)
  {
    hide Clamp, FailureMeta;
  }

  lemma ResultsWrite(w: World, j: Id, input: ResultInput, o: ResultAnswers)
    requires j in w.jobs && |input.variants| <= |o.writes| && |input.variants| <= |o.rids|
    ensures var t := RecordResults(w, j, input, o).0;
            j in t.jobs && t.jobs[j].meta == w.jobs[j].meta + ResultsWritten(w, j, input, o)
  {
    hide Deliver, FinalizeCharge, Persist, FailureMeta, Stamped, Quarantined, ContextOf;
    var stamped := Stamped(w.jobs[j], input);
    var d := Deliver(Delivery(w.assets, w.store, None, true), j, stamped, input.variants, o, |input.variants|);
    var row := if d.selected.Some? then stamped.(selected := d.selected) else stamped;
    StampedMeta(w.jobs[j], input);
    QuarantinedMeta(row, o.complaint);
    MergesAssociate(w.jobs[j].meta, input.meta, FailureMeta(row.selected, o.complaint));
  }

  // A callback adds to the metadata and takes nothing away.
  lemma HandleWrites(w: World, j: Id, cb: Callback)
    requires j in w.jobs && WellAnswered(cb)
    ensures var t := Handle(w, j, cb);
            j in t.jobs && t.jobs[j].meta == w.jobs[j].meta + Written(w, j, cb)
  {
    hide RecordResults, ResultsWritten, Release, Trim, Terminal, Or, Clamp;
    match cb
    case RuntimeCall(u, release, close) =>
    case ResultsCall(input, answers) => ResultsWrite(w, j, input, answers);
    case CancelCall(cancelError) =>
  }

  // ---- The creator's copy ----

  // What binding adds to the copy.
  function Bound(b: Binding): Meta {
    ChargeMeta(b.ctx) + (if Trim(b.providerCode) != "" then map[ProviderCodeKey := TextValue(Trim(b.providerCode))] else map[])
  }

  // kept is everything that was added, in the order it was; copy is the metadata
  // in the creator's hands, window what callbacks added since that was current
  // (since dispatch if the row could not be read again) and until it was
  // written, later what they added after that.
  datatype Track = Track(kept: Meta, copy: Meta, window: Meta, later: Meta)

  function CreatorTracks(t: Track, c: Creator, b: Binding, ok: bool): Track {
    if !ok then t
    else if c.BeforeRead? then t.(copy := t.kept, window := map[])
    else if c.HasBound? then t.(kept := t.kept + Bound(b))
    else t
  }

  function CallTracks(t: Track, c: Creator, added: Meta): Track {
    if c == Finished(true) then t.(kept := t.kept + added, later := t.later + added)
    else t.(kept := t.kept + added, window := t.window + added)
  }

  ghost predicate Tracked(m: Machine, j: Id, b: Binding, t: Track) {
    && j in m.w.jobs
    && (m.c == Finished(true) ==> m.w.jobs[j].meta == t.copy + Bound(b) + t.later && t.kept == t.copy + t.window + Bound(b) + t.later)
    && (m.c != Finished(true) ==> m.w.jobs[j].meta == t.kept && t.kept == t.copy + t.window && t.later == map[])
    && (m.c.BeforeRead? || m.c.HasRead? ==> m.c.item.meta == t.copy)
    && (m.c.HasBound? ==> m.c.item.meta == t.copy + Bound(b))
  }

  lemma CallKeepsTrack(m: Machine, j: Id, b: Binding, t: Track, cb: Callback)
    requires Tracked(m, j, b, t) && WellAnswered(cb)
    ensures Tracked(m.(w := Handle(m.w, j, cb)), j, b, CallTracks(t, m.c, Written(m.w, j, cb)))
  {
    hide Handle, Written, Bound;
    var added := Written(m.w, j, cb);
    HandleWrites(m.w, j, cb);
    MergesAssociate(t.copy, t.window, added);
    MergesAssociate(t.copy + Bound(b), t.later, added);
    MergesAssociate(t.copy + t.window + Bound(b), t.later, added);
  }

  lemma CreatorKeepsTrack(m: Machine, j: Id, b: Binding, t: Track, ok: bool)
    requires Tracked(m, j, b, t)
    ensures var (w, c) := CreatorStep(m.w, j, m.c, b, ok); Tracked(Machine(w, c), j, b, CreatorTracks(t, m.c, b, ok))
  {
    hide MarkReserved, BoundMeta, Bound, Blank, Or;
    BoundMetaAdds(t.copy, b);
  }

  lemma BoundMetaAdds(meta: Meta, b: Binding)
    ensures BoundMeta(meta, b) == meta + Bound(b)
  {
    hide ChargeMeta, Trim;
  }

  function TrackOf(m: Machine, j: Id, b: Binding, events: seq<Event>, n: nat): Track
    requires n <= |events| && AllAnswered(events) && j in m.w.jobs
  {
    if n == 0 then Track(m.w.jobs[j].meta, m.w.jobs[j].meta, map[], map[])
    else
      var t, before := TrackOf(m, j, b, events, n - 1), Interleaved(m, j, b, events, n - 1);
      match events[n - 1]
      case Call(cb) => CallTracks(t, before.c, Written(before.w, j, cb))
      case Create(ok) => CreatorTracks(t, before.c, b, ok)
  }

  lemma {:induction false} RunKeepsTrack(m: Machine, j: Id, b: Binding, events: seq<Event>, n: nat)
    requires n <= |events| && AllAnswered(events) && Dispatched(m, j, b)
    ensures j in m.w.jobs && Tracked(Interleaved(m, j, b, events, n), j, b, TrackOf(m, j, b, events, n))
  {
    hide Handle, CreatorStep, Written, CallTracks, CreatorTracks, Tracked, Dispatched;
    StartIsTracked(m, j, b);
    if n > 0 {
      RunKeepsTrack(m, j, b, events, n - 1);
      var t, before := TrackOf(m, j, b, events, n - 1), Interleaved(m, j, b, events, n - 1);
      match events[n - 1]
      case Call(cb) => CallKeepsTrack(before, j, b, t, cb);
      case Create(ok) => CreatorKeepsTrack(before, j, b, t, ok);
    }
  }

  lemma StartIsTracked(m: Machine, j: Id, b: Binding)
    requires Dispatched(m, j, b)
    ensures j in m.w.jobs && Tracked(m, j, b, Track(m.w.jobs[j].meta, m.w.jobs[j].meta, map[], map[]))
  {
    hide NewJob;
  }

  // ---- What survives ----

  predicate Agree(a: Meta, b: Meta, k: Key) {
    (k in a <==> k in b) && (k in a ==> a[k] == b[k])
  }

  // No callback wrote the key between the read and the write, or else a later
  // one wrote it again, or the last of them wrote what the copy already had.
  predicate Survives(t: Track, k: Key) {
    k !in t.window || k in t.later || (k in t.copy && t.copy[k] == t.window[k])
  }

  // Before the creator's write nothing is lost. After it a key is as the
  // callbacks and the binding left it exactly when it survives or is bound anew.
  lemma KeptIff(m: Machine, j: Id, b: Binding, events: seq<Event>, n: nat, k: Key)
    requires n <= |events| && AllAnswered(events) && Dispatched(m, j, b)
    ensures var end, t := Interleaved(m, j, b, events, n), TrackOf(m, j, b, events, n);
            && j in end.w.jobs
            && (end.c != Finished(true) ==> end.w.jobs[j].meta == t.kept)
            && (end.c == Finished(true) ==> (Agree(end.w.jobs[j].meta, t.kept, k) <==> k in Bound(b) || Survives(t, k)))
  {
    hide Interleaved, TrackOf, Dispatched, Bound;
    RunKeepsTrack(m, j, b, events, n);
  }

  // ---- The callbacks alone ----

  // The platform is asked to cancel only once its job is bound, so its complaint
  // is not among what callbacks alone would write.
  ghost predicate AgreeButCancel(a: Meta, b: Meta) {
    forall k :: k != CancelErrorKey ==> Agree(a, b, k)
  }

  lemma ResultsWriteAlike(v: World, w: World, j: Id, input: ResultInput, o: ResultAnswers)
    requires Alike(v, w, j) && LeavesReserved(input.meta) && |input.variants| <= |o.writes| && |input.variants| <= |o.rids|
    ensures ResultsWritten(v, j, input, o) == ResultsWritten(w, j, input, o)
  {
    hide Stamped, Deliver, FinalizeCharge, FailureMeta, SameReserved;
    StampedAlike(v.jobs[j], w.jobs[j], input);
    var a, b := Stamped(v.jobs[j], input), Stamped(w.jobs[j], input);
    SameContext(a.meta, b.meta, j);
    var d, e := Delivery(v.assets, v.store, None, true), Delivery(w.assets, w.store, None, true);
    DeliverAlike(d, e, j, a, b, input.variants, o, |input.variants|);
    var x, y := Deliver(d, j, a, input.variants, o, |input.variants|), Deliver(e, j, b, input.variants, o, |input.variants|);
    FinalizeAlike(x.store.ledger, y.store.ledger, ContextOf(j, a.meta), input.status, o);
  }

  lemma WrittenAlike(v: World, w: World, j: Id, cb: Callback)
    requires Alike(v, w, j) && WellAnswered(cb) && Polite(cb)
    ensures AgreeButCancel(Written(v, j, cb), Written(w, j, cb))
  {
    hide ResultsWritten, Terminal, Trim;
    match cb
    case RuntimeCall(u, _, _) =>
    case ResultsCall(input, answers) => ResultsWriteAlike(v, w, j, input, answers);
    case CancelCall(cancelError) =>
  }

  // The binding repeats what the job was created with, and adds the provider's code.
  predicate Comparable(k: Key) {
    k != CancelErrorKey && k != ProviderCodeKey
  }

  ghost predicate AgreeOn(a: Meta, b: Meta) {
    forall k :: Comparable(k) ==> Agree(a, b, k)
  }

  lemma CallAgrees(t: Track, c: Creator, alone: Meta, added: Meta, addedAlone: Meta)
    requires AgreeOn(t.kept, alone) && AgreeButCancel(added, addedAlone)
    ensures AgreeOn(CallTracks(t, c, added).kept, alone + addedAlone)
  {
    forall k | Comparable(k) ensures Agree(t.kept + added, alone + addedAlone, k) {
      assert Agree(t.kept, alone, k) && Agree(added, addedAlone, k);
    }
  }

  lemma CreatorAgrees(t: Track, c: Creator, b: Binding, ok: bool, alone: Meta, base: Meta)
    requires AgreeOn(t.kept, alone) && SameReserved(alone, base) && CarriesCharge(base, b)
    ensures AgreeOn(CreatorTracks(t, c, b, ok).kept, alone)
  {
    hide Trim;
    assert forall k :: k in ChargeMeta(b.ctx) ==> k in RESERVED;
  }

  // What was added in an interleaving is what the callbacks alone would have
  // added to the metadata.
  lemma {:induction false} KeptIsTheCallbacks(m: Machine, j: Id, b: Binding, events: seq<Event>, n: nat)
    requires Dispatched(m, j, b) && n <= |events| && AllAnswered(events)
    requires forall i :: 0 <= i < |events| && events[i].Call? ==> Polite(events[i].cb)
    ensures var alone := CallbacksAlone(m.w, j, events, n);
            j in m.w.jobs && j in alone.jobs && AgreeOn(TrackOf(m, j, b, events, n).kept, alone.jobs[j].meta)
  {
    hide Handle, CreatorStep, Written, CallTracks, CreatorTracks, Dispatched, Invisible, AgreeOn, CarriesCharge, Alike, Polite;
    StartIsTracked(m, j, b);
    var base := m.w.jobs[j].meta;
    if n == 0 {
      AgreesWithItself(base);
    } else {
      KeptIsTheCallbacks(m, j, b, events, n - 1);
      InterleavingIsInvisible(m, j, b, events, n - 1);
      var before, alone, t := Interleaved(m, j, b, events, n - 1), CallbacksAlone(m.w, j, events, n - 1), TrackOf(m, j, b, events, n - 1);
      InvisibleMeans(before, alone, j, b, base);
      match events[n - 1]
      case Call(cb) =>
        WrittenAlike(before.w, alone, j, cb);
        HandleWrites(alone, j, cb);
        CallAgrees(t, before.c, alone.jobs[j].meta, Written(before.w, j, cb), Written(alone, j, cb));
      case Create(ok) =>
        DispatchedCarriesCharge(m, j, b);
        CreatorAgrees(t, before.c, b, ok, alone.jobs[j].meta, base);
    }
  }

  lemma AgreesWithItself(a: Meta)
    ensures AgreeOn(a, a)
  {
  }

  lemma InvisibleMeans(m: Machine, alone: World, j: Id, b: Binding, base: Meta)
    requires Invisible(m, alone, j, b, base)
    ensures Alike(m.w, alone, j) && j in alone.jobs && SameReserved(alone.jobs[j].meta, base)
  {
  }

  lemma WrittenIsPolite(w: World, j: Id, cb: Callback)
    requires WellAnswered(cb) && Polite(cb)
    ensures LeavesReserved(Written(w, j, cb))
  {
    hide Deliver, Stamped, FinalizeCharge, Trim, Terminal;
    assert CancelErrorKey !in RESERVED && MeteringStatusKey !in RESERVED && MeteringErrorKey !in RESERVED && QuarantinedKey !in RESERVED;
  }

  // Polite callbacks leave the bound keys alone.
  lemma {:induction false} WindowIsPolite(m: Machine, j: Id, b: Binding, events: seq<Event>, n: nat)
    requires n <= |events| && AllAnswered(events) && j in m.w.jobs
    requires forall i :: 0 <= i < |events| && events[i].Call? ==> Polite(events[i].cb)
    ensures LeavesReserved(TrackOf(m, j, b, events, n).window)
  {
    hide Handle, CreatorStep, Written, Polite;
    if n > 0 {
      WindowIsPolite(m, j, b, events, n - 1);
      if events[n - 1].Call? {
        WrittenIsPolite(Interleaved(m, j, b, events, n - 1).w, j, events[n - 1].cb);
      }
    }
  }

  lemma BoundIsReserved(b: Binding, k: Key)
    requires k in Bound(b) && Comparable(k)
    ensures k in RESERVED
  {
    hide Trim;
  }

  // In every interleaving, and for every key but the two the creator's side
  // brings in: the row shows what the callbacks alone would leave there, unless
  // the creator has written and the key does not survive that write.
  lemma MetadataSurvivesIff(m: Machine, j: Id, b: Binding, events: seq<Event>, n: nat, k: Key)
    requires Dispatched(m, j, b) && n <= |events| && AllAnswered(events) && Comparable(k)
    requires forall i :: 0 <= i < |events| && events[i].Call? ==> Polite(events[i].cb)
    ensures var end, alone := Interleaved(m, j, b, events, n), CallbacksAlone(m.w, j, events, n);
            && j in end.w.jobs && j in alone.jobs
            && (Agree(end.w.jobs[j].meta, alone.jobs[j].meta, k)
                <==> end.c != Finished(true) || Survives(TrackOf(m, j, b, events, n), k))
  {
    hide Interleaved, CallbacksAlone, TrackOf, Dispatched, Polite, Bound;
    KeptIff(m, j, b, events, n, k);
    KeptIsTheCallbacks(m, j, b, events, n);
    StartIsTracked(m, j, b);
    WindowIsPolite(m, j, b, events, n);
    if k in Bound(b) {
      BoundIsReserved(b, k);
    }
  }

  // An input for the loss: a new key, added between the creator's read and its write.
  lemma MetadataBetweenReadAndWriteIsLost(m: Machine, j: Id, b: Binding, u: RuntimeUpdate, k: Key, v: Value)
    requires Dispatched(m, j, b) && k !in RESERVED && k != ProviderCodeKey && k !in m.w.jobs[j].meta
    requires u.meta == map[k := v]
    ensures var (w1, c1) := CreatorStep(m.w, j, m.c, b, true);
            var (w2, c2) := CreatorStep(w1, j, c1, b, true);
            var w3 := Handle(w2, j, RuntimeCall(u, Applied, Applied));
            var (w4, c4) := CreatorStep(w3, j, c2, b, true);
            var alone := Handle(m.w, j, RuntimeCall(u, Applied, Applied));
            && c4 == Finished(true) && j in w4.jobs && k !in w4.jobs[j].meta
            && j in alone.jobs && k in alone.jobs[j].meta
  {
    hide Trim, Or, Clamp, Release;
    DispatchedIsQueued(m, j, b);
    assert k !in ChargeMeta(b.ctx);
  }

  lemma DispatchedIsQueued(m: Machine, j: Id, b: Binding)
    requires Dispatched(m, j, b)
    ensures j in m.w.jobs && !Terminal(m.w.jobs[j].status)
  {
    TrimmedIsFixed(QUEUED);
  }
}
