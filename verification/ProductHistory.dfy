/** What the history of a product must contain before it is published. */
module ProductHistory {
  import opened Options
  import opened BillingGate
  import opened ProductCenter
  import Assets = ProductAssets
  import Versions = Listings
  import Exports

  // The product centre's own calls that write its tables; a batch is a run of these.
  datatype Step =
    | Create(p: Id, sku: string, title: string)
    | Edit(p: Id, sku: string, title: string)
    | Drop(p: Id)
    | AssetCall(asset: Assets.AssetStep)
    | NewVersion(p: Id, raw: ListingText, vid: Id, a: Answers, preview: bool)
    | AdoptVersion(p: Id, vid: Id, lost: set<Id>, saveOk: bool)
    | DropVersion(p: Id, vid: Id)
    | Export(p: Id, market: Market, ids: seq<Option<Id>>, tid: Id, a: Answers)
    | SetTask(p: Id, tid: Id, status: TaskStatus)
    | ManualStatus(p: Id, to: Option<ProductStatus>)

  predicate Possible(s: Store, step: Step) {
    match step
    case Create(p, _, _) => p !in s.products
    case AssetCall(asset) => Assets.Possible(s, asset)
    case NewVersion(p, _, _, _, _) => p in s.products
    case _ => true
  }

  ghost function Next(s: Store, step: Step): Store
    requires Possible(s, step)
  {
    match step
    case Create(p, sku, title) => CreateProduct(s, p, sku, title)
    case Edit(p, sku, title) => EditProduct(s, p, sku, title).0
    case Drop(p) => DeleteProduct(s, p)
    case AssetCall(asset) => Assets.ApplyStep(s, asset)
    case NewVersion(p, raw, vid, a, preview) => Versions.CreateListing(s, p, raw, vid, a, preview).0
    case AdoptVersion(p, vid, lost, saveOk) => Versions.Adopt(s, p, vid, lost, saveOk).0
    case DropVersion(p, vid) => Versions.DeleteListing(s, p, vid).0
    case Export(p, market, ids, tid, a) => Exports.CreateExport(s, p, market, ids, tid, a).0
    case SetTask(p, tid, status) => Exports.SetTaskStatus(s, p, tid, status).0
    case ManualStatus(p, to) => SetStatus(s, p, to).0
  }

  // ---- Milestones ----

  datatype Milestone = Linked | Adopted | Exported

  const ALL := {Linked, Adopted, Exported}

  predicate Reached(s: Store, p: Id, m: Milestone) {
    match m
    case Linked => RelationsOf(s.relations, p) != {}
    case Adopted => AdoptedOf(s.listings, p) != {}
    case Exported => HasSucceededTask(s.tasks, p)
  }

  function Now(s: Store, p: Id): set<Milestone> {
    set m | m in ALL && Reached(s, p, m)
  }

  // Milestones reached by state i, since the product was created.
  function Had(states: seq<Store>, i: nat, p: Id): set<Milestone>
    requires i < |states|
  {
    if p !in states[i].products then {}
    else Now(states[i], p) + (if i == 0 then {} else Had(states, i - 1, p))
  }

  // Statuses that rest on the milestones in had.
  predicate Backed(row: Product, had: set<Milestone>) {
    && (row.assets != Missing ==> Linked in had)
    && (row.listing == Ready ==> Adopted in had)
    && (row.exports != ExportPending ==> Exported in had)
    && (row.status == AssetsReady ==> Linked in had)
    && (row.status == ListingReady ==> Linked in had && Adopted in had)
    && (row.status == ExportReady || row.status == Published ==> had == ALL)
  }

  // ---- Automatic changes ----

  // Sub-statuses move only with the rows they count, and the main status of a
  // row neither published nor archived only to the one they make of it.
  predicate Follows(row: Product, next: Product, now: set<Milestone>) {
    && (next.assets == row.assets || next.assets == Missing || Linked in now)
    && (next.listing == row.listing || next.listing != Ready || Adopted in now)
    && (next.exports == row.exports || Exported in now)
    && (next.status == row.status || (row.status != Published && row.status != Archived && MainFits(next)))
  }

  predicate FollowsIn(s: Store, t: Store, q: Id) {
    q in t.products ==> q in s.products && Follows(s.products[q], t.products[q], Now(t, q))
  }

  lemma RefreshAssetsFollows(s: Store, p: Id, w: Assets.Writes, q: Id)
    ensures FollowsIn(s, Assets.Refreshed(s, p, w), q)
  {
    var t := Assets.Refreshed(s, p, w);
    assert Now(t, q) == Now(s, q);
  }

  lemma RefreshListingFollows(s: Store, p: Id, q: Id)
    ensures FollowsIn(s, RefreshMainStatus(RefreshListingStatus(s, p), p), q)
  {
    var t := RefreshMainStatus(RefreshListingStatus(s, p), p);
    assert Now(t, q) == Now(s, q);
  }

  lemma PreparedFollows(s: Store, p: Id, q: Id)
    requires HasSucceededTask(s.tasks, p)
    ensures FollowsIn(s, SetExportPrepared(s, p), q)
  {
    var t := SetExportPrepared(s, p);
    assert Now(t, q) == Now(s, q);
  }

  lemma {:induction false} GovernAllFollows(s: Store, ids: seq<Id>, patch: Assets.Patch, ws: seq<Assets.Writes>, n: nat)
    requires n <= |ids| <= |ws|
    ensures Assets.GovernAll(s, ids, patch, ws, n).0.products == s.products
  {
    if n > 0 {
      GovernAllFollows(s, ids, patch, ws, n - 1);
    }
  }

  lemma ArchiveFollows(s: Store, p: Option<Id>, rid: Id, asset: Id, role: Role, selected: bool, index: int, w: Assets.Writes, q: Id)
    ensures FollowsIn(s, Assets.Archive(s, p, rid, asset, role, selected, index, w).0, q)
  {
    if p.Some? && p.value in s.products {
      var linked := s.(relations := Assets.Archive(s, p, rid, asset, role, selected, index, w).0.relations);
      SyncIsAssetThenMain(linked, p.value);
      RefreshAssetsFollows(linked, p.value, Assets.Writes(true, true, true, true, true), q);
    }
  }

  lemma UntouchedFollows(s: Store, t: Store, q: Id)
    requires t.products == s.products
    ensures FollowsIn(s, t, q)
  {
  }

  lemma AssetCallFollows(s: Store, step: Assets.AssetStep, q: Id)
    requires Assets.Possible(s, step)
    ensures FollowsIn(s, Assets.ApplyStep(s, step), q)
  {
    hide Follows, Now;
    var t := Assets.ApplyStep(s, step);
    if t.products == s.products {
      UntouchedFollows(s, t, q);
    }
    match step
    case Add(library, p, rid, input, w) => RefreshAssetsFollows(s.(relations := t.relations), p, w, q);
    case Update(p, rid, patch, w) => RefreshAssetsFollows(s.(relations := t.relations), p, w, q);
    case Delete(p, rid, w) => RefreshAssetsFollows(s.(relations := t.relations), p, w, q);
    case GovernOne(rid, patch, w) =>
    case GovernMany(ids, patch, ws) =>
      GovernAllFollows(s, Assets.Sanitized(ids), patch, ws, |Assets.Sanitized(ids)|);
      assert t.products == s.products;
    case ArchiveOne(p, rid, asset, role, selected, index, w) =>
      ArchiveFollows(s, p, rid, asset, role, selected, index, w, q);
  }

  lemma NewVersionFollows(s: Store, p: Id, raw: ListingText, vid: Id, a: Answers, preview: bool, q: Id)
    requires p in s.products
    ensures FollowsIn(s, Versions.CreateListing(s, p, raw, vid, a, preview).0, q)
  {
    var t := Versions.CreateListing(s, p, raw, vid, a, preview).0;
    RefreshListingFollows(s.(listings := t.listings, ledger := t.ledger), p, q);
  }

  lemma AdoptFollows(s: Store, p: Id, vid: Id, lost: set<Id>, saveOk: bool, q: Id)
    ensures FollowsIn(s, Versions.Adopt(s, p, vid, lost, saveOk).0, q)
  {
    RefreshListingFollows(s.(listings := Versions.Adopt(s, p, vid, lost, saveOk).0.listings), p, q);
  }

  lemma ExportFollows(s: Store, p: Id, market: Market, ids: seq<Option<Id>>, tid: Id, a: Answers, q: Id)
    ensures FollowsIn(s, Exports.CreateExport(s, p, market, ids, tid, a).0, q)
  {
    var (t, reply) := Exports.CreateExport(s, p, market, ids, tid, a);
    Exports.TaskLedger(s, p, market, ids, tid, a);
    if reply.NewTask? {
      PreparedFollows(s.(tasks := t.tasks, ledger := t.ledger), p, q);
    }
  }

  lemma SetTaskFollows(s: Store, p: Id, tid: Id, status: TaskStatus, q: Id)
    ensures FollowsIn(s, Exports.SetTaskStatus(s, p, tid, status).0, q)
  {
    var t := Exports.SetTaskStatus(s, p, tid, status).0;
    if t != s && status == TaskSucceeded {
      assert t.tasks[tid].product == p && t.tasks[tid].status == TaskSucceeded;
      PreparedFollows(s.(tasks := t.tasks), p, q);
    }
  }

  // Every call but a creation and a manual change only follows.
  lemma StepFollows(s: Store, step: Step, q: Id)
    requires Possible(s, step) && !step.ManualStatus? && !(step.Create? && step.p == q)
    ensures FollowsIn(s, Next(s, step), q)
  {
    match step
    case Create(p, _, _) =>
    case Edit(p, _, _) =>
    case Drop(p) =>
    case AssetCall(asset) => AssetCallFollows(s, asset, q);
    case NewVersion(p, raw, vid, a, preview) => NewVersionFollows(s, p, raw, vid, a, preview, q);
    case AdoptVersion(p, vid, lost, saveOk) => AdoptFollows(s, p, vid, lost, saveOk, q);
    case DropVersion(p, vid) => RefreshListingFollows(s.(listings := Next(s, step).listings), p, q);
    case Export(p, market, ids, tid, a) => ExportFollows(s, p, market, ids, tid, a, q);
    case SetTask(p, tid, status) => SetTaskFollows(s, p, tid, status, q);
  }

  // ---- Runs ----

  lemma FollowingStaysBacked(row: Product, next: Product, had: set<Milestone>, now: set<Milestone>)
    requires Backed(row, had) && Follows(row, next, now) && now <= ALL && had <= ALL
    ensures Backed(next, now + had)
  {
  }

  lemma ManualStaysBacked(s: Store, p: Id, to: ProductStatus, had: set<Milestone>)
    requires SetStatus(s, p, Some(to)).1 && Backed(s.products[p], had) && Now(s, p) <= had <= ALL
    ensures Backed(SetStatus(s, p, Some(to)).0.products[p], had)
  {
    assert forall m :: Reached(s, p, m) && m in ALL ==> m in had;
  }

  // A run from any state; one from no products at all.
  ghost predicate IsRunOn(states: seq<Store>, steps: seq<Step>) {
    && |states| == |steps| + 1
    && forall i :: 0 <= i < |steps| ==> Possible(states[i], steps[i]) && states[i + 1] == Next(states[i], steps[i])
  }

  ghost predicate IsRun(states: seq<Store>, steps: seq<Step>) {
    IsRunOn(states, steps) && states[0].products == map[]
  }

  lemma {:induction false} HadAtMostAll(states: seq<Store>, i: nat, p: Id)
    requires i < |states|
    ensures Had(states, i, p) <= ALL
  {
    if i > 0 {
      HadAtMostAll(states, i - 1, p);
    }
  }

  // One more state: its products rest on what the run has seen.
  lemma StepStaysBacked(states: seq<Store>, steps: seq<Step>, i: nat, p: Id)
    requires IsRun(states, steps) && i < |steps|
    requires p in states[i].products ==> Backed(states[i].products[p], Had(states, i, p))
    ensures p in states[i + 1].products ==> Backed(states[i + 1].products[p], Had(states, i + 1, p))
  {
    var s, t, step := states[i], states[i + 1], steps[i];
    HadAtMostAll(states, i, p);
    if step.ManualStatus? {
      if p in t.products {
        assert Now(t, p) == Now(s, p);
        assert Had(states, i + 1, p) == Had(states, i, p);
        if t != s && p == step.p {
          ManualStaysBacked(s, p, step.to.value, Had(states, i, p));
        }
      }
    } else if !(step.Create? && step.p == p) {
      StepFollows(s, step, p);
      if p in t.products {
        FollowingStaysBacked(s.products[p], t.products[p], Had(states, i, p), Now(t, p));
      }
    }
  }

  lemma {:induction false} RunStaysBacked(states: seq<Store>, steps: seq<Step>, i: nat, p: Id)
    requires IsRun(states, steps) && i <= |steps|
    ensures p in states[i].products ==> Backed(states[i].products[p], Had(states, i, p))
  {
    if i > 0 {
      RunStaysBacked(states, steps, i - 1, p);
      StepStaysBacked(states, steps, i - 1, p);
    }
  }

  // The milestone was reached at state j, and the product has been there
  // through state i.
  predicate ReachedSince(states: seq<Store>, j: nat, i: nat, p: Id, m: Milestone)
    requires j <= i < |states|
  {
    Reached(states[j], p, m) && forall k :: j <= k <= i ==> p in states[k].products
  }

  predicate Earned(states: seq<Store>, i: nat, p: Id, m: Milestone)
    requires i < |states|
  {
    exists j :: 0 <= j <= i && ReachedSince(states, j, i, p, m)
  }

  lemma {:induction false} HadIsEarned(states: seq<Store>, i: nat, p: Id, m: Milestone)
    requires i < |states| && m in Had(states, i, p)
    ensures Earned(states, i, p, m)
  {
    if m in Now(states[i], p) {
      assert ReachedSince(states, i, i, p, m);
    } else {
      HadIsEarned(states, i - 1, p, m);
      var j :| 0 <= j <= i - 1 && ReachedSince(states, j, i - 1, p, m);
      assert ReachedSince(states, j, i, p, m);
    }
  }

  lemma OnlyManualStepPublishes(s: Store, step: Step, p: Id)
    requires Possible(s, step) && p in Next(s, step).products && Next(s, step).products[p].status == Published
    requires p in s.products ==> s.products[p].status != Published
    ensures step == ManualStatus(p, Some(Published)) && p in s.products && s.products[p].status == ExportReady
  {
    if !step.ManualStatus? && !step.Create? {
      StepFollows(s, step, p);
    }
  }

  // In every run, a product becomes published by a manual step from
  // export_ready only, and since its creation it had an asset relation, an
  // adopted listing version and a succeeded export task.
  lemma PublishedWasEarned(states: seq<Store>, steps: seq<Step>, i: nat, p: Id)
    requires IsRun(states, steps) && i < |steps|
    requires p in states[i + 1].products && states[i + 1].products[p].status == Published
    requires p in states[i].products ==> states[i].products[p].status != Published
    ensures steps[i] == ManualStatus(p, Some(Published))
    ensures p in states[i].products && states[i].products[p].status == ExportReady
    ensures Earned(states, i, p, Linked) && Earned(states, i, p, Adopted) && Earned(states, i, p, Exported)
  {
    OnlyManualStepPublishes(states[i], steps[i], p);
    RunStaysBacked(states, steps, i, p);
    HadIsEarned(states, i, p, Linked);
    HadIsEarned(states, i, p, Adopted);
    HadIsEarned(states, i, p, Exported);
  }

  // ---- Listing versions ----

  // New versions get unused ids, and where an adoption is saved, every demotion
  // of another adopted version took.
  predicate Careful(s: Store, step: Step) {
    match step
    case NewVersion(_, _, vid, _, _) => vid !in s.listings
    case AdoptVersion(p, vid, lost, saveOk) => saveOk ==> AdoptedOf(s.listings, p) * lost <= {vid}
    case _ => true
  }

  predicate VersionsSound(s: Store) {
    Versions.UniqueAdopted(s.listings) && Versions.DistinctNumbers(s.listings)
  }

  // Versions never move between products, and of the product calls only a
  // deletion touches them.
  lemma OtherStepsKeepVersions(s: Store, step: Step)
    requires Possible(s, step) && !step.NewVersion? && !step.AdoptVersion? && !step.DropVersion?
    ensures Next(s, step).listings == if step.Drop? then DeleteProduct(s, step.p).listings else s.listings
  {
    match step
    case Create(p, _, _) =>
    case Edit(p, _, _) =>
    case Drop(p) =>
    case AssetCall(asset) => AssetCallKeepsListings(s, asset);
    case Export(p, market, ids, tid, a) => Exports.TaskLedger(s, p, market, ids, tid, a);
    case SetTask(p, tid, status) =>
    case ManualStatus(p, to) =>
  }

  lemma AssetCallKeepsListings(s: Store, step: Assets.AssetStep)
    requires Assets.Possible(s, step)
    ensures Assets.ApplyStep(s, step).listings == s.listings
  {
    if step.GovernMany? {
      GovernAllKeepsListings(s, Assets.Sanitized(step.ids), step.patch, step.ws, |Assets.Sanitized(step.ids)|);
    }
  }

  lemma {:induction false} GovernAllKeepsListings(s: Store, ids: seq<Id>, patch: Assets.Patch, ws: seq<Assets.Writes>, n: nat)
    requires n <= |ids| <= |ws|
    ensures Assets.GovernAll(s, ids, patch, ws, n).0.listings == s.listings
  {
    if n > 0 {
      GovernAllKeepsListings(s, ids, patch, ws, n - 1);
    }
  }

  // Fewer versions are as sound.
  lemma FewerStaySound(s: Store, t: Store)
    requires VersionsSound(s) && forall v :: v in t.listings ==> v in s.listings && t.listings[v] == s.listings[v]
    ensures VersionsSound(t)
  {
  }

  lemma NewVersionStaysSound(s: Store, p: Id, raw: ListingText, vid: Id, a: Answers)
    requires p in s.products && vid !in s.listings && VersionsSound(s)
    ensures VersionsSound(Versions.CreateListing(s, p, raw, vid, a, false).0)
  {
    var t := Versions.CreateListing(s, p, raw, vid, a, false).0;
    Versions.CreateKeepsNumbers(s, p, raw, vid, a);
    Versions.UniqueMeansOnePerProduct(s.listings);
    Versions.UniqueMeansOnePerProduct(t.listings);
    forall q { Versions.CreateKeepsAdopted(s, p, raw, vid, a, q); }
  }

  lemma StepKeepsVersions(s: Store, step: Step)
    requires Possible(s, step) && Careful(s, step) && VersionsSound(s)
    ensures VersionsSound(Next(s, step))
  {
    match step {
      case NewVersion(p, raw, vid, a, preview) =>
        if !preview {
          NewVersionStaysSound(s, p, raw, vid, a);
        }
      case AdoptVersion(p, vid, lost, saveOk) =>
        Versions.AdoptRenumbersNothing(s, p, vid, lost, saveOk);
        if vid in VersionsOf(s.listings, p) {
          Versions.AdoptKeepsUniqueIff(s, p, vid, lost, saveOk);
        }
      case DropVersion(p, vid) => FewerStaySound(s, Next(s, step));
      case _ =>
        OtherStepsKeepVersions(s, step);
        FewerStaySound(s, Next(s, step));
    }
  }

  // Whatever the calls, no product gets two adopted versions or two versions of
  // one number.
  lemma {:induction false} RunKeepsVersions(states: seq<Store>, steps: seq<Step>, i: nat)
    requires IsRunOn(states, steps) && i <= |steps| && VersionsSound(states[0])
    requires forall k :: 0 <= k < |steps| ==> Careful(states[k], steps[k])
    ensures VersionsSound(states[i])
  {
    hide Careful, VersionsSound, Possible;
    if i > 0 {
      RunKeepsVersions(states, steps, i - 1);
      StepKeepsVersions(states[i - 1], steps[i - 1]);
    }
  }

  // The step neither drops the product nor demotes its adopted version without
  // saving another.
  predicate Spares(s: Store, step: Step, q: Id) {
    match step
    case Drop(p) => p != q
    case AdoptVersion(p, vid, lost, saveOk) => p == q && vid in VersionsOf(s.listings, p) && !saveOk ==> AdoptedOf(s.listings, q) * (lost + {vid}) != {}
    case _ => true
  }

  lemma StepKeepsAdopted(s: Store, step: Step, q: Id)
    requires Possible(s, step) && Careful(s, step) && AdoptedOf(s.listings, q) != {}
    ensures AdoptedOf(Next(s, step).listings, q) != {} <==> Spares(s, step, q)
  {
    hide DerivedStatus, Manual, ListingRecount;
    var t := Next(s, step);
    match step {
      case NewVersion(p, raw, vid, a, preview) =>
        if !preview {
          Versions.CreateKeepsAdopted(s, p, raw, vid, a, q);
        }
      case AdoptVersion(p, vid, lost, saveOk) =>
        if vid in VersionsOf(s.listings, p) && p == q {
          Versions.AdoptLosesIff(s, p, vid, lost, saveOk);
        } else {
          assert AdoptedOf(t.listings, q) == AdoptedOf(s.listings, q);
        }
      case DropVersion(p, vid) => assert AdoptedOf(t.listings, q) == AdoptedOf(s.listings, q);
      case Drop(p) =>
        OtherStepsKeepVersions(s, step);
        assert AdoptedOf(t.listings, q) == if p == q then {} else AdoptedOf(s.listings, q);
      case _ => OtherStepsKeepVersions(s, step);
    }
  }

  // A product that has an adopted version keeps exactly one, and its listing
  // status, when recomputed, stays ready, for as long as the steps spare it.
  lemma {:induction false} RunKeepsReady(states: seq<Store>, steps: seq<Step>, i: nat, q: Id)
    requires IsRunOn(states, steps) && i <= |steps| && VersionsSound(states[0]) && AdoptedOf(states[0].listings, q) != {}
    requires forall k :: 0 <= k < |steps| ==> Careful(states[k], steps[k]) && Spares(states[k], steps[k], q)
    ensures AdoptedOf(states[i].listings, q) != {} && ListingRecount(states[i].listings, q) == Ready
    ensures exists v :: AdoptedOf(states[i].listings, q) == {v}
  {
    hide Careful, Spares, Possible, AdoptedOf, ListingRecount;
    if i > 0 {
      RunKeepsReady(states, steps, i - 1, q);
      StepKeepsAdopted(states[i - 1], steps[i - 1], q);
    }
    RunKeepsVersions(states, steps, i);
    OneAdoptedIsReady(states[i], q);
  }

  lemma OneAdoptedIsReady(s: Store, q: Id)
    requires VersionsSound(s) && AdoptedOf(s.listings, q) != {}
    ensures ListingRecount(s.listings, q) == Ready && exists v :: AdoptedOf(s.listings, q) == {v}
  {
    Versions.UniqueMeansOnePerProduct(s.listings);
    var v :| v in AdoptedOf(s.listings, q);
    assert AdoptedOf(s.listings, q) == {v};
  }
}
