/** Which calls keep the recounted statuses of every product in step with its
    rows, over whole runs. */
module ProductStatuses {
  import opened Options
  import opened BillingGate
  import opened ProductCenter
  import opened ProductHistory
  import Assets = ProductAssets
  import Versions = Listings
  import Exports

  // ---- Calls that go through ----

  // What is linked is counted again; no relation another product needs is
  // deleted; governance, which counts nothing, keeps the roles.
  predicate AssetCallSettles(s: Store, step: Assets.AssetStep) {
    match step
    case Add(library, p, rid, input, w) => w.assetStatus
    case Update(p, rid, patch, w) => w.assetStatus
    case Delete(p, rid, w) => w.assetStatus && (rid in s.relations ==> s.relations[rid].owner == p || !Assets.Needed(s.relations, rid))
    case GovernOne(rid, patch, w) => patch.role.None?
    case GovernMany(ids, patch, ws) => patch.role.None?
    case ArchiveOne(p, rid, asset, role, selected, index, w) => w.activity && w.assetStatus
  }

  // A version that was inserted was also paid for, and an adoption was saved.
  predicate Settles(s: Store, step: Step) {
    match step
    case AssetCall(asset) => AssetCallSettles(s, asset)
    case NewVersion(p, raw, vid, a, preview) => vid !in s.listings && (preview || !a.rowOk || Willing(a))
    case AdoptVersion(p, vid, lost, saveOk) => saveOk
    case _ => true
  }

  predicate Counted(s: Store, q: Id) {
    AssetsCounted(s, q) && ListingCounted(s, q)
  }

  // ---- Asset calls ----

  // Writing one relation of p leaves the recounts of the others alone, and its
  // own if the row is not stored or keeps its role.
  lemma WriteKeepsRecounts(relations: map<Id, Relation>, rid: Id, row: Relation, makePrimary: bool, w: Assets.Writes, q: Id)
    requires rid in relations ==> relations[rid].owner == row.owner
    requires var outcome := Assets.WriteRelation(relations, rid, row, makePrimary, w).1;
             q != row.owner || outcome != Assets.Done || (rid in relations && relations[rid].role == row.role)
    ensures AssetRecount(Assets.WriteRelation(relations, rid, row, makePrimary, w).0, q) == AssetRecount(relations, q)
  {
    hide AssetRecount;
    var after := Assets.WriteRelation(relations, rid, row, makePrimary, w).0;
    assert RelationsOf(after, q) == RelationsOf(relations, q);
    Assets.RecountFrame(relations, after, q);
  }

  lemma RefreshedInStep(s: Store, p: Id, w: Assets.Writes, q: Id)
    ensures var t := Assets.Refreshed(s, p, w);
            && t.relations == s.relations && (q in t.products <==> q in s.products)
            && (q in s.products && (q != p || !w.assetStatus) ==> t.products[q].assets == s.products[q].assets)
            && (q == p && w.assetStatus ==> AssetsCounted(t, q))
  {
    hide AssetRecount;
  }

  lemma DeleteKeepsInStep(s: Store, p: Id, rid: Id, w: Assets.Writes, q: Id)
    requires AssetsCounted(s, q) && AssetCallSettles(s, Assets.Delete(p, rid, w))
    ensures AssetsCounted(Assets.DeleteAsset(s, p, rid, w).0, q)
  {
    hide AssetRecount, Assets.Needed;
    var cut := s.relations - {rid};
    RefreshedInStep(s.(relations := cut), p, w, q);
    if q != p {
      if rid in s.relations && s.relations[rid].owner == q {
        Assets.RecountNeeds(s.relations, rid);
      } else {
        assert RelationsOf(cut, q) == RelationsOf(s.relations, q);
        Assets.RecountFrame(s.relations, cut, q);
      }
    }
  }

  lemma GovernKeepsInStep(s: Store, rid: Id, patch: Assets.Patch, w: Assets.Writes, q: Id)
    requires AssetsCounted(s, q) && patch.role.None?
    ensures AssetsCounted(Assets.Govern(s, rid, patch, w).0, q)
  {
    hide AssetRecount;
    if rid in s.relations {
      WriteKeepsRecounts(s.relations, rid, Assets.Patched(s.relations[rid], patch.(kind := None)), patch.primary == Some(true), w, q);
    }
  }

  lemma {:induction false} GovernAllKeepsInStep(s: Store, ids: seq<Id>, patch: Assets.Patch, ws: seq<Assets.Writes>, n: nat, q: Id)
    requires n <= |ids| <= |ws| && AssetsCounted(s, q) && patch.role.None?
    ensures AssetsCounted(Assets.GovernAll(s, ids, patch, ws, n).0, q)
  {
    hide AssetsCounted, Assets.Govern;
    if n > 0 {
      GovernAllKeepsInStep(s, ids, patch, ws, n - 1, q);
      GovernKeepsInStep(Assets.GovernAll(s, ids, patch, ws, n - 1).0, ids[n - 1], patch, ws[n - 1], q);
    }
  }

  lemma ArchiveKeepsInStep(s: Store, p: Option<Id>, rid: Id, asset: Id, role: Role, selected: bool, index: int, w: Assets.Writes, q: Id)
    requires AssetsCounted(s, q) && rid !in s.relations && w.activity && w.assetStatus
    ensures AssetsCounted(Assets.Archive(s, p, rid, asset, role, selected, index, w).0, q)
  {
    hide AssetRecount, Assets.Linked, Assets.HasPrimary;
    var t := Assets.Archive(s, p, rid, asset, role, selected, index, w).0;
    if p != Some(q) {
      assert RelationsOf(t.relations, q) == RelationsOf(s.relations, q);
      Assets.RecountFrame(s.relations, t.relations, q);
    }
  }

  lemma AssetCallKeepsInStep(s: Store, step: Assets.AssetStep, q: Id)
    requires Assets.Possible(s, step) && AssetsCounted(s, q) && AssetCallSettles(s, step)
    ensures AssetsCounted(Assets.ApplyStep(s, step), q)
  {
    hide AssetRecount, Assets.Linked, Assets.WriteRelation, Assets.GovernAll, Assets.Sanitized, Assets.Archive, Assets.DeleteAsset, Assets.Govern;
    match step
    case Add(library, p, rid, input, w) =>
      if Assets.AddAsset(s, library, p, rid, input, w).0 != s {
        var row := Relation(input.asset.value, p, input.kind.value, input.role.value, input.primary, input.sortOrder);
        WrittenKeepsInStep(s, rid, row, input.primary, w, q);
      }
    case Update(p, rid, patch, w) =>
      if Assets.UpdateAsset(s, p, rid, patch, w).0 != s {
        WrittenKeepsInStep(s, rid, Assets.Patched(s.relations[rid], patch), patch.primary == Some(true), w, q);
      }
    case Delete(p, rid, w) => DeleteKeepsInStep(s, p, rid, w, q);
    case GovernOne(rid, patch, w) => GovernKeepsInStep(s, rid, patch, w, q);
    case GovernMany(ids, patch, ws) => GovernAllKeepsInStep(s, Assets.Sanitized(ids), patch, ws, |Assets.Sanitized(ids)|, q);
    case ArchiveOne(p, rid, asset, role, selected, index, w) => ArchiveKeepsInStep(s, p, rid, asset, role, selected, index, w, q);
  }

  lemma WrittenKeepsInStep(s: Store, rid: Id, row: Relation, makePrimary: bool, w: Assets.Writes, q: Id)
    requires AssetsCounted(s, q) && w.assetStatus && (rid in s.relations ==> s.relations[rid].owner == row.owner)
    ensures var (relations, outcome) := Assets.WriteRelation(s.relations, rid, row, makePrimary, w);
            AssetsCounted(if outcome == Assets.Done then Assets.Refreshed(s.(relations := relations), row.owner, w) else s.(relations := relations), q)
  {
    hide AssetRecount, Assets.WriteRelation, Assets.Refreshed;
    var (relations, outcome) := Assets.WriteRelation(s.relations, rid, row, makePrimary, w);
    RefreshedInStep(s.(relations := relations), row.owner, w, q);
    if q != row.owner || outcome != Assets.Done {
      WriteKeepsRecounts(s.relations, rid, row, makePrimary, w, q);
    }
  }

  // ---- Listing calls ----

  lemma ListingFrame(a: map<Id, Listing>, b: map<Id, Listing>, q: Id)
    requires forall v :: (v in a && a[v].product == q) || (v in b && b[v].product == q) ==> v in a && v in b && a[v] == b[v]
    ensures ListingRecount(a, q) == ListingRecount(b, q)
  {
    assert AdoptedOf(a, q) == AdoptedOf(b, q);
    assert VersionsOf(a, q) == VersionsOf(b, q);
  }

  // The listing and main status of p are refreshed after its versions changed.
  lemma RecountedListing(s: Store, listings: map<Id, Listing>, ledger: Ledger, p: Id, q: Id)
    requires Counted(s, q)
    requires q != p ==> ListingRecount(listings, q) == ListingRecount(s.listings, q)
    ensures Counted(RefreshMainStatus(RefreshListingStatus(s.(listings := listings, ledger := ledger), p), p), q)
  {
    hide AssetRecount, ListingRecount;
  }

  lemma NewVersionKeepsInStep(s: Store, p: Id, raw: ListingText, vid: Id, a: Answers, preview: bool, q: Id)
    requires Counted(s, q) && p in s.products && Settles(s, NewVersion(p, raw, vid, a, preview))
    ensures Counted(Versions.CreateListing(s, p, raw, vid, a, preview).0, q)
  {
    hide AssetRecount, ListingRecount, Versions.Validate, Versions.Normalised, BillRow;
    var t := Versions.CreateListing(s, p, raw, vid, a, preview).0;
    var text := Versions.Normalised(raw);
    if Versions.Validate(s.products[p], text, Versions.AssetReady(s, p)).None? && !preview {
      var row := Listing(p, Versions.NextVersionNo(s.listings, p), text, DraftVersion);
      BilledOrNoRow(s.ledger, vid, a);
      if q != p {
        ListingFrame(s.listings[vid := row], s.listings, q);
      }
      RecountedListing(s, s.listings[vid := row], BillRow(s.ledger, vid, a).0, p, q);
    }
  }

  lemma BilledOrNoRow(l: Ledger, source: Id, a: Answers)
    requires !a.rowOk || Willing(a)
    ensures BillRow(l, source, a).1 == Billed || !BillRow(l, source, a).1.RowExists()
  {
  }

  lemma AdoptKeepsInStep(s: Store, p: Id, vid: Id, lost: set<Id>, q: Id)
    requires Counted(s, q)
    ensures Counted(Versions.Adopt(s, p, vid, lost, true).0, q)
  {
    hide AssetRecount, ListingRecount;
    if vid in VersionsOf(s.listings, p) {
      var listings := Versions.Demote(s.listings, p, vid, lost)[vid := s.listings[vid].(status := AdoptedVersion)];
      if q != p {
        ListingFrame(listings, s.listings, q);
      }
      RecountedListing(s, listings, s.ledger, p, q);
    }
  }

  lemma DropVersionKeepsInStep(s: Store, p: Id, vid: Id, q: Id)
    requires Counted(s, q)
    ensures Counted(Versions.DeleteListing(s, p, vid).0, q)
  {
    hide AssetRecount, ListingRecount;
    if vid !in AdoptedOf(s.listings, p) {
      var cut := if vid in VersionsOf(s.listings, p) then s.listings - {vid} else s.listings;
      if q != p {
        ListingFrame(cut, s.listings, q);
      }
      RecountedListing(s, cut, s.ledger, p, q);
    }
  }

  // ---- Rows and their products ----

  // No relation and no version is without its product.
  predicate Owned(s: Store) {
    && (forall r :: r in s.relations ==> s.relations[r].owner in s.products)
    && (forall v :: v in s.listings ==> s.listings[v].product in s.products)
  }

  // A step adds rows of existing products only, and but for a deletion keeps
  // the products.
  predicate AddsOwned(s: Store, t: Store) {
    && (forall r :: r in t.relations ==> (r in s.relations && t.relations[r].owner == s.relations[r].owner) || t.relations[r].owner in s.products)
    && (forall v :: v in t.listings ==> (v in s.listings && t.listings[v].product == s.listings[v].product) || t.listings[v].product in s.products)
    && s.products.Keys <= t.products.Keys
  }

  lemma AddingKeepsOwned(s: Store, t: Store)
    requires Owned(s) && AddsOwned(s, t)
    ensures Owned(t)
  {
  }

  lemma GovernAddsOwned(s: Store, rid: Id, patch: Assets.Patch, w: Assets.Writes)
    ensures AddsOwned(s, Assets.Govern(s, rid, patch, w).0)
  {
  }

  lemma {:induction false} GovernAllAddsOwned(s: Store, ids: seq<Id>, patch: Assets.Patch, ws: seq<Assets.Writes>, n: nat)
    requires n <= |ids| <= |ws|
    ensures AddsOwned(s, Assets.GovernAll(s, ids, patch, ws, n).0)
  {
    hide Assets.Govern;
    if n > 0 {
      GovernAllFollows(s, ids, patch, ws, n - 1);
      GovernAllAddsOwned(s, ids, patch, ws, n - 1);
      GovernAddsOwned(Assets.GovernAll(s, ids, patch, ws, n - 1).0, ids[n - 1], patch, ws[n - 1]);
    }
  }

  lemma WriteAddsOwned(s: Store, rid: Id, row: Relation, makePrimary: bool, w: Assets.Writes)
    requires row.owner in s.products
    ensures AddsOwned(s, s.(relations := Assets.WriteRelation(s.relations, rid, row, makePrimary, w).0))
  {
  }

  lemma RefreshingKeepsRows(s: Store, p: Id, w: Assets.Writes)
    ensures var t := Assets.Refreshed(s, p, w);
            t.relations == s.relations && t.listings == s.listings && s.products.Keys <= t.products.Keys
  {
    hide AssetRecount, DerivedStatus;
  }

  lemma AddingAddsOwned(s: Store, step: Assets.AssetStep)
    requires Assets.Possible(s, step) && step.Add?
    ensures AddsOwned(s, Assets.ApplyStep(s, step))
  {
    hide AssetRecount, Assets.Linked, Assets.HasPrimary, Assets.WriteRelation, Assets.Refreshed, DerivedStatus, Assets.Patched;
    var Add(_, p, rid, input, w) := step;
    if Assets.ApplyStep(s, step) != s {
      var row := Relation(input.asset.value, p, input.kind.value, input.role.value, input.primary, input.sortOrder);
      WriteAddsOwned(s, rid, row, input.primary, w);
      RefreshingKeepsRows(s.(relations := WrittenRelations(s, rid, row, input.primary, w)), p, w);
    }
  }

  lemma UpdatingAddsOwned(s: Store, step: Assets.AssetStep)
    requires Assets.Possible(s, step) && step.Update?
    ensures AddsOwned(s, Assets.ApplyStep(s, step))
  {
    hide AssetRecount, Assets.Linked, Assets.HasPrimary, Assets.WriteRelation, Assets.Refreshed, DerivedStatus, Assets.Patched;
    var Update(p, rid, patch, w) := step;
    if Assets.ApplyStep(s, step) != s {
      var row := Assets.Patched(s.relations[rid], patch);
      PatchingKeepsOwner(s.relations[rid], patch);
      WriteAddsOwned(s, rid, row, patch.primary == Some(true), w);
      RefreshingKeepsRows(s.(relations := WrittenRelations(s, rid, row, patch.primary == Some(true), w)), p, w);
    }
  }

  lemma DeletingAddsOwned(s: Store, step: Assets.AssetStep)
    requires step.Delete?
    ensures AddsOwned(s, Assets.ApplyStep(s, step))
  {
    hide AssetRecount, Assets.Refreshed, DerivedStatus;
    RefreshingKeepsRows(s.(relations := s.relations - {step.rid}), step.p, step.w);
  }

  lemma GoverningAddsOwned(s: Store, step: Assets.AssetStep)
    requires Assets.Possible(s, step) && (step.GovernOne? || step.GovernMany?)
    ensures AddsOwned(s, Assets.ApplyStep(s, step))
  {
    hide AddsOwned, Assets.GovernAll, Assets.Govern, Assets.Patched;
    StaysOwned(s);
    match step
    case GovernOne(rid, patch, w) => GovernAddsOwned(s, rid, patch, w);
    case GovernMany(ids, patch, ws) => GovernAllAddsOwned(s, Assets.Sanitized(ids), patch, ws, |Assets.Sanitized(ids)|);
  }

  lemma StaysOwned(s: Store)
    ensures AddsOwned(s, s)
  {
  }

  lemma ArchivingAddsOwned(s: Store, step: Assets.AssetStep)
    requires Assets.Possible(s, step) && step.ArchiveOne?
    ensures AddsOwned(s, Assets.ApplyStep(s, step))
  {
    hide AssetRecount, Assets.Linked, Assets.HasPrimary, DerivedStatus;
  }

  lemma AssetCallAddsOwned(s: Store, step: Assets.AssetStep)
    requires Assets.Possible(s, step)
    ensures AddsOwned(s, Assets.ApplyStep(s, step))
  {
    hide Assets.ApplyStep, Assets.Possible, AddsOwned;
    if step.Add? {
      AddingAddsOwned(s, step);
    } else if step.Update? {
      UpdatingAddsOwned(s, step);
    } else if step.Delete? {
      DeletingAddsOwned(s, step);
    } else if step.ArchiveOne? {
      ArchivingAddsOwned(s, step);
    } else {
      GoverningAddsOwned(s, step);
    }
  }

  function WrittenRelations(s: Store, rid: Id, row: Relation, makePrimary: bool, w: Assets.Writes): map<Id, Relation> {
    Assets.WriteRelation(s.relations, rid, row, makePrimary, w).0
  }

  lemma PatchingKeepsOwner(row: Relation, patch: Assets.Patch)
    ensures Assets.Patched(row, patch).owner == row.owner
  {
  }

  lemma NewVersionAddsOwned(s: Store, p: Id, raw: ListingText, vid: Id, a: Answers, preview: bool)
    requires p in s.products
    ensures AddsOwned(s, Versions.CreateListing(s, p, raw, vid, a, preview).0)
  {
    hide BillRow, ListingRecount, Versions.Validate, Versions.Normalised;
  }

  lemma ExportAddsOwned(s: Store, p: Id, market: Market, ids: seq<Option<Id>>, tid: Id, a: Answers)
    ensures AddsOwned(s, Exports.CreateExport(s, p, market, ids, tid, a).0)
  {
    hide BillRow, Exports.BuildManifest, Exports.AdoptedFor;
  }

  lemma StepKeepsOwned(s: Store, step: Step)
    requires Possible(s, step) && Owned(s)
    ensures Owned(Next(s, step))
  {
    hide AssetRecount, ListingRecount, Assets.ApplyStep, Exports.CreateExport, Versions.CreateListing, Owned, AddsOwned;
    var t := Next(s, step);
    if step.Drop? {
      DropKeepsOwned(s, step.p);
    } else {
      match step {
        case AssetCall(asset) => AssetCallAddsOwned(s, asset);
        case NewVersion(p, raw, vid, a, preview) => NewVersionAddsOwned(s, p, raw, vid, a, preview);
        case Export(p, market, ids, tid, a) => ExportAddsOwned(s, p, market, ids, tid, a);
        case _ => OtherStepAddsOwned(s, step);
      }
      AddingKeepsOwned(s, t);
    }
  }

  lemma DropKeepsOwned(s: Store, p: Id)
    requires Owned(s)
    ensures Owned(DeleteProduct(s, p))
  {
  }

  lemma OtherStepAddsOwned(s: Store, step: Step)
    requires Possible(s, step) && !step.Drop? && !step.AssetCall? && !step.NewVersion? && !step.Export?
    ensures AddsOwned(s, Next(s, step))
  {
    hide Versions.Adopt, Versions.DeleteListing, DerivedStatus, IsValidTransition, MeetsPrecondition, HasSucceededTask;
    match step
    case Create(_, _, _) =>
    case Edit(_, _, _) =>
    case AdoptVersion(p, vid, lost, saveOk) => AdoptAddsOwned(s, p, vid, lost, saveOk);
    case DropVersion(p, vid) => DropVersionAddsOwned(s, p, vid);
    case SetTask(_, _, _) =>
    case ManualStatus(_, _) =>
  }

  lemma AdoptAddsOwned(s: Store, p: Id, vid: Id, lost: set<Id>, saveOk: bool)
    ensures AddsOwned(s, Versions.Adopt(s, p, vid, lost, saveOk).0)
  {
    hide ListingRecount, DerivedStatus, AdoptedOf;
  }

  lemma DropVersionAddsOwned(s: Store, p: Id, vid: Id)
    ensures AddsOwned(s, Versions.DeleteListing(s, p, vid).0)
  {
    hide ListingRecount, DerivedStatus, AdoptedOf;
  }

  lemma OwnedHasNoOthers(s: Store, p: Id)
    requires Owned(s) && p !in s.products
    ensures RelationsOf(s.relations, p) == {} && VersionsOf(s.listings, p) == {}
  {
  }

  // ---- Runs ----

  lemma DropKeepsInStep(s: Store, p: Id, q: Id)
    requires Counted(s, q)
    ensures Counted(DeleteProduct(s, p), q)
  {
    hide AssetRecount, ListingRecount;
    var t := DeleteProduct(s, p);
    if q != p {
      assert RelationsOf(t.relations, q) == RelationsOf(s.relations, q);
      Assets.RecountFrame(s.relations, t.relations, q);
      ListingFrame(t.listings, s.listings, q);
    }
  }

  lemma AssetCallKeepsRest(s: Store, step: Assets.AssetStep, q: Id)
    requires Assets.Possible(s, step)
    ensures var t := Assets.ApplyStep(s, step);
            t.listings == s.listings && (q in t.products <==> q in s.products) && (q in s.products ==> t.products[q].listing == s.products[q].listing)
  {
    hide AssetRecount, Assets.WriteRelation, Assets.Linked, Assets.HasPrimary, Assets.GovernAll;
    AssetCallKeepsListings(s, step);
    if step.GovernMany? {
      GovernAllFollows(s, Assets.Sanitized(step.ids), step.patch, step.ws, |Assets.Sanitized(step.ids)|);
    }
  }

  lemma ExportKeepsInStep(s: Store, p: Id, market: Market, ids: seq<Option<Id>>, tid: Id, a: Answers, q: Id)
    requires Counted(s, q)
    ensures Counted(Exports.CreateExport(s, p, market, ids, tid, a).0, q)
  {
    hide AssetRecount, ListingRecount, BillRow, Exports.BuildManifest, Exports.AdoptedFor;
  }

  lemma StepKeepsInStep(s: Store, step: Step, q: Id)
    requires Possible(s, step) && Counted(s, q) && Settles(s, step) && Owned(s)
    ensures Counted(Next(s, step), q)
  {
    hide AssetRecount, ListingRecount, AssetCallSettles, Assets.ApplyStep, Exports.CreateExport, Versions.CreateListing, Versions.Adopt, Versions.DeleteListing, DeleteProduct;
    match step
    case Create(p, sku, title) =>
      OwnedHasNoOthers(s, p);
      CreatedIsInStep(s, p, sku, title, q);
    case Edit(p, sku, title) =>
    case Drop(p) => DropKeepsInStep(s, p, q);
    case AssetCall(asset) =>
      AssetCallKeepsInStep(s, asset, q);
      AssetCallKeepsRest(s, asset, q);
    case NewVersion(p, raw, vid, a, preview) => NewVersionKeepsInStep(s, p, raw, vid, a, preview, q);
    case AdoptVersion(p, vid, lost, saveOk) => AdoptKeepsInStep(s, p, vid, lost, q);
    case DropVersion(p, vid) => DropVersionKeepsInStep(s, p, vid, q);
    case Export(p, market, ids, tid, a) => ExportKeepsInStep(s, p, market, ids, tid, a, q);
    case SetTask(p, tid, status) =>
    case ManualStatus(p, to) =>
  }

  lemma CreatedIsInStep(s: Store, p: Id, sku: string, title: string, q: Id)
    requires Counted(s, q) && RelationsOf(s.relations, p) == {} && VersionsOf(s.listings, p) == {}
    ensures Counted(CreateProduct(s, p, sku, title), q)
  {
    assert AdoptedOf(s.listings, p) <= VersionsOf(s.listings, p);
  }

  // Whatever fails, every relation and version keeps having its product.
  lemma {:induction false} RunKeepsOwned(states: seq<Store>, steps: seq<Step>, i: nat)
    requires IsRunOn(states, steps) && i <= |steps| && Owned(states[0])
    ensures Owned(states[i])
  {
    hide Owned, Possible;
    if i > 0 {
      RunKeepsOwned(states, steps, i - 1);
      StepKeepsOwned(states[i - 1], steps[i - 1]);
    }
  }

  lemma {:induction false} RunKeepsCounted(states: seq<Store>, steps: seq<Step>, i: nat, q: Id)
    requires IsRunOn(states, steps) && i <= |steps| && Counted(states[0], q) && Owned(states[0])
    requires forall k :: 0 <= k < |steps| ==> Settles(states[k], steps[k])
    ensures Counted(states[i], q)
  {
    hide Counted, Settles, Possible, Owned;
    if i > 0 {
      RunKeepsOwned(states, steps, i - 1);
      RunKeepsCounted(states, steps, i - 1, q);
      StepKeepsInStep(states[i - 1], steps[i - 1], q);
    }
  }

  // As long as the calls of a run go through, every product's asset and listing
  // status is what its rows count up to, whatever product the calls are about.
  lemma RunKeepsInStep(states: seq<Store>, steps: seq<Step>, i: nat, q: Id)
    requires IsRunOn(states, steps) && i <= |steps| && Owned(states[0])
    requires AssetsInStep(states[0], q) && ListingInStep(states[0], q)
    requires forall k :: 0 <= k < |steps| ==> Settles(states[k], steps[k])
    ensures AssetsInStep(states[i], q) && ListingInStep(states[i], q)
  {
    hide AssetsInStep, ListingInStep, AssetsCounted, ListingCounted, Settles, Owned;
    AssetsInStepMeans(states[0], q);
    ListingInStepMeans(states[0], q);
    RunKeepsCounted(states, steps, i, q);
    AssetsInStepMeans(states[i], q);
    ListingInStepMeans(states[i], q);
  }

  // ---- Calls that return without an error ----

  predicate AssetCallReturns(s: Store, step: Assets.AssetStep, p: Id) {
    match step
    case Add(library, q, rid, input, w) => q == p && w.assetStatus && w.mainStatus && Assets.AddAsset(s, library, p, rid, input, w).1 == Assets.Done
    case Update(q, rid, patch, w) => q == p && w.assetStatus && w.mainStatus && Assets.UpdateAsset(s, p, rid, patch, w).1 == Assets.Done
    case Delete(q, rid, w) => q == p && w.assetStatus && w.mainStatus && Assets.DeleteAsset(s, p, rid, w).1 == Assets.Done
    case ArchiveOne(q, rid, asset, role, selected, index, w) =>
      q == Some(p) && !Assets.Linked(s.relations, p, asset) && Assets.Archive(s, q, rid, asset, role, selected, index, w).1 == Assets.Done
    case _ => false
  }

  ghost predicate ListingCallReturns(s: Store, step: Step, p: Id)
    requires Possible(s, step)
  {
    match step
    case NewVersion(q, raw, vid, a, preview) => q == p && Versions.CreateListing(s, p, raw, vid, a, preview).1.NewVersion?
    case AdoptVersion(q, vid, lost, saveOk) => q == p && Versions.Adopt(s, p, vid, lost, saveOk).1 == Versions.NowAdopted
    case DropVersion(q, vid) => q == p && Versions.DeleteListing(s, p, vid).1
    case _ => false
  }

  predicate ExportCallReturns(s: Store, step: Step, p: Id) {
    match step
    case Export(q, market, ids, tid, a) => q == p && Exports.CreateExport(s, p, market, ids, tid, a).1.NewTask?
    case SetTask(q, tid, status) => q == p && status == TaskSucceeded && Exports.SetTaskStatus(s, p, tid, status).1
    case _ => false
  }

  lemma ArchiveReturnsFitting(s: Store, p: Id, rid: Id, asset: Id, role: Role, selected: bool, index: int, w: Assets.Writes)
    requires !Assets.Linked(s.relations, p, asset) && Assets.Archive(s, Some(p), rid, asset, role, selected, index, w).1 == Assets.Done
    ensures var t := Assets.Archive(s, Some(p), rid, asset, role, selected, index, w).0; AssetsInStep(t, p) && MainInStep(t, p)
  {
    hide AssetsInStep, MainInStep, OnlyStatusesOf, ListingInStep, AssetRecount, DerivedStatus, Assets.Linked, Assets.HasPrimary;
    var linked := s.(relations := Assets.Archive(s, Some(p), rid, asset, role, selected, index, w).0.relations);
    SyncIsAssetThenMain(linked, p);
    RefreshAssetsRepairs(linked, p);
  }

  lemma ExportReturnsFitting(s: Store, step: Step, p: Id)
    requires Possible(s, step) && ExportCallReturns(s, step, p)
    ensures var t := Next(s, step); MainInStep(t, p) && (p in t.products ==> t.products[p].exports == ExportPrepared)
  {
    hide DerivedStatus, MainFits, BillRow, Exports.BuildManifest, Exports.AdoptedFor;
    if p in s.products {
      DerivedFits(s.products[p].(exports := ExportPrepared));
    }
  }

  // Whatever the drift before, a call that returned without an error leaves the
  // statuses it recomputes, and the main status, what the rows make of them.
  lemma ReturnedCallFits(s: Store, step: Step, p: Id)
    requires Possible(s, step)
    ensures step.AssetCall? && AssetCallReturns(s, step.asset, p) ==> AssetsInStep(Next(s, step), p) && MainInStep(Next(s, step), p)
    ensures ListingCallReturns(s, step, p) ==> ListingInStep(Next(s, step), p) && MainInStep(Next(s, step), p)
    ensures ExportCallReturns(s, step, p) ==> MainInStep(Next(s, step), p) && (p in Next(s, step).products ==> Next(s, step).products[p].exports == ExportPrepared)
  {
    hide AssetsInStep, ListingInStep, MainInStep, Assets.AddAsset, Assets.UpdateAsset, Assets.DeleteAsset, Assets.Archive, Assets.Linked,
      Versions.CreateListing, Versions.Adopt, Versions.DeleteListing, Exports.CreateExport, Exports.SetTaskStatus, DeleteProduct;
    if ExportCallReturns(s, step, p) {
      ExportReturnsFitting(s, step, p);
    }
    match step {
      case AssetCall(asset) =>
        if AssetCallReturns(s, asset, p) {
          AssetReturnsFitting(s, asset, p);
        }
      case NewVersion(q, raw, vid, a, preview) =>
        if !preview {
          Versions.CreationRepairs(s, q, raw, vid, a);
        } else {
          PreviewIsNoVersion(s, q, raw, vid, a);
        }
      case AdoptVersion(q, vid, lost, saveOk) => Versions.AdoptionRepairs(s, q, vid, lost, saveOk);
      case DropVersion(q, vid) => Versions.DeletionRepairs(s, q, vid);
      case _ =>
    }
  }

  lemma PreviewIsNoVersion(s: Store, p: Id, raw: ListingText, vid: Id, a: Answers)
    requires p in s.products
    ensures !Versions.CreateListing(s, p, raw, vid, a, true).1.NewVersion?
  {
  }

  lemma AssetReturnsFitting(s: Store, step: Assets.AssetStep, p: Id)
    requires Assets.Possible(s, step) && AssetCallReturns(s, step, p)
    ensures AssetsInStep(Assets.ApplyStep(s, step), p) && MainInStep(Assets.ApplyStep(s, step), p)
  {
    hide AssetsInStep, MainInStep, Assets.AddAsset, Assets.UpdateAsset, Assets.DeleteAsset, Assets.Archive, Assets.Linked;
    var noInput := Assets.AssetInput(None, None, None, false, 0);
    var noPatch := Assets.Patch(None, None, None, None);
    match step
    case Add(library, q, rid, input, w) => Assets.NilMeansInStep(s, library, p, rid, input, noPatch, w);
    case Update(q, rid, patch, w) => Assets.NilMeansInStep(s, {}, p, rid, noInput, patch, w);
    case Delete(q, rid, w) => Assets.NilMeansInStep(s, {}, p, rid, noInput, noPatch, w);
    case ArchiveOne(q, rid, asset, role, selected, index, w) => ArchiveReturnsFitting(s, p, rid, asset, role, selected, index, w);
  }
}
