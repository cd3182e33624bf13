/** Export tasks, and packages that create one task for each listed product. */
module Exports {
  import opened Options
  import opened Text
  import opened BillingGate
  import opened ProductCenter

  // ---- One task ----

  datatype ManifestError = ForeignAsset | NoAsset

  datatype Manifest = Manifest(relations: set<Id>) | NoManifest(error: ManifestError)

  // Blank ids are None and are skipped.
  function Chosen(ids: seq<Option<Id>>): set<Id> {
    set i | 0 <= i < |ids| && ids[i].Some? :: ids[i].value
  }

  function BuildManifest(relations: map<Id, Relation>, p: Id, ids: seq<Option<Id>>): Manifest {
    var owned := RelationsOf(relations, p);
    if ids != [] && !(Chosen(ids) <= owned) then NoManifest(ForeignAsset)
    else
      var kept := if ids != [] then Chosen(ids) else owned;
      if kept == {} then NoManifest(NoAsset) else Manifest(kept)
  }

  function AdoptedFor(listings: map<Id, Listing>, p: Id, market: Market): set<Id> {
    set v | v in AdoptedOf(listings, p) && Market(listings[v].text.platform, listings[v].text.site, listings[v].text.locale) == market
  }

  datatype ExportReply =
    | NewTask(id: Id, row: ExportTask) | UnknownProduct | BadManifest(error: ManifestError) | NoAdoptedListing | ExportNotBilled(stage: Stage)

  function CreateExport(s: Store, p: Id, market: Market, ids: seq<Option<Id>>, tid: Id, a: Answers): (Store, ExportReply) {
    if p !in s.products then (s, UnknownProduct)
    else
      match BuildManifest(s.relations, p, ids)
      case NoManifest(e) => (s, BadManifest(e))
      case Manifest(kept) =>
        var adopted := AdoptedFor(s.listings, p, market);
        if adopted == {} then (s, NoAdoptedListing)
        else
          var v := Least(adopted);
          CreateBilledTask(s, p, ExportTask(p, TaskSucceeded, market, v, s.listings[v].text.name, kept, None), tid, a)
  }

  function CreateBilledTask(s: Store, p: Id, row: ExportTask, tid: Id, a: Answers): (Store, ExportReply) {
    var (ledger, stage) := BillRow(s.ledger, tid, a);
    var stored := s.(ledger := ledger, tasks := if stage.RowExists() then s.tasks[tid := row] else s.tasks);
    if stage != Billed then (stored, ExportNotBilled(stage)) else (SetExportPrepared(stored, p), NewTask(tid, row))
  }

  // Any text may be given as the new status.
  function SetTaskStatus(s: Store, p: Id, t: Id, status: TaskStatus): (Store, bool) {
    if t !in s.tasks || s.tasks[t].product != p then (s, false)
    else
      var stored := s.(tasks := s.tasks[t := s.tasks[t].(status := status)]);
      (if status == TaskSucceeded then SetExportPrepared(stored, p) else stored, true)
  }

  // ---- Packages ----

  // A blank product id is None.
  datatype PackageItem = PackageItem(product: Option<Id>, sku: string)

  datatype Blocker = ProductRequired | ProductNotFound | DuplicateProduct | AssetMissing | ListingMissing | CreateFailed(reply: ExportReply)

  datatype PackageResult = PackageResult(product: Option<Id>, success: bool, task: Option<Id>, blockers: seq<Blocker>)

  datatype Progress = Progress(store: Store, seen: set<Id>, results: seq<PackageResult>, made: seq<Id>)

  function Precheck(s: Store, p: Id, market: Market): seq<Blocker> {
    (if BuildManifest(s.relations, p, []).NoManifest? then [AssetMissing] else []) +
    (if AdoptedFor(s.listings, p, market) == {} then [ListingMissing] else [])
  }

  // What keeps an item from being tried; seen holds the earlier products.
  function Blockers(s: Store, seen: set<Id>, market: Market, item: PackageItem): (b: seq<Blocker>)
    ensures b == [] ==> FindProduct(s.products, item.product, item.sku).Some?
  {
    if item.product.None? && Trim(item.sku) == "" then [ProductRequired]
    else
      match FindProduct(s.products, item.product, item.sku)
      case None => [ProductNotFound]
      case Some(p) => if p in seen then [DuplicateProduct] else Precheck(s, p, market)
  }

  // The product an item stands for, if any.
  function Resolved(s: Store, item: PackageItem): Option<Id> {
    if item.product.None? && Trim(item.sku) == "" then None else FindProduct(s.products, item.product, item.sku)
  }

  function Shown(s: Store, item: PackageItem): Option<Id> {
    if Resolved(s, item).Some? then Resolved(s, item) else item.product
  }

  function Marked(seen: set<Id>, p: Option<Id>): set<Id> {
    if p.Some? then seen + {p.value} else seen
  }

  function Attach(s: Store, t: Id, package: Id, ok: bool): Store {
    if ok && t in s.tasks then s.(tasks := s.tasks[t := s.tasks[t].(package := Some(package))]) else s
  }

  // The product is marked as seen even when the item is blocked; a failed
  // attachment of an export task to its package is ignored.
  function ItemStep(d: Progress, market: Market, item: PackageItem, package: Id, tid: Id, a: Answers, attachOk: bool): Progress {
    var resolved := Resolved(d.store, item);
    var shown := Shown(d.store, item);
    var blockers := Blockers(d.store, d.seen, market, item);
    var seen := Marked(d.seen, resolved);
    if blockers != [] then Progress(d.store, seen, d.results + [PackageResult(shown, false, None, blockers)], d.made)
    else
      var (t, reply) := CreateExport(d.store, resolved.value, market, [], tid, a);
      if !reply.NewTask? then Progress(t, seen, d.results + [PackageResult(shown, false, None, [CreateFailed(reply)])], d.made)
      else Progress(Attach(t, tid, package, attachOk), seen, d.results + [PackageResult(shown, true, Some(tid), [])], d.made + [tid])
  }

  // The package after its first n items.
  function PackageRun(s: Store, market: Market, items: seq<PackageItem>, package: Id, tids: seq<Id>, answers: seq<Answers>, attachOk: seq<bool>,
                      n: nat): Progress
    requires n <= |items| <= |tids| && |items| <= |answers| && |items| <= |attachOk|
  {
    if n == 0 then Progress(s, {}, [], [])
    else
      var before := PackageRun(s, market, items, package, tids, answers, attachOk, n - 1);
      ItemStep(before, market, items[n - 1], package, tids[n - 1], answers[n - 1], attachOk[n - 1])
  }

  datatype PackageStatus = PackageFailed | PackagePartial | PackageSucceeded

  datatype Package = Package(
    status: PackageStatus,
    total: nat,
    succeeded: nat,
    failed: int,
    manifestTasks: seq<Id>,
    manifestBlockers: seq<(Option<Id>, seq<Blocker>)>)

  function ManifestBlockers(results: seq<PackageResult>): seq<(Option<Id>, seq<Blocker>)> {
    if results == [] then []
    else
      var last := results[|results| - 1];
      ManifestBlockers(results[..|results| - 1]) + (if !last.success && last.blockers != [] then [(last.product, last.blockers)] else [])
  }

  function Assemble(d: Progress, total: nat): Package {
    var succeeded := |d.made|;
    Package(if succeeded == 0 then PackageFailed else if total - succeeded > 0 then PackagePartial else PackageSucceeded,
            total, succeeded, total - succeeded, d.made, ManifestBlockers(d.results))
  }

  // ---- The service ----

  // Each relation of the product is taken once if it was asked for, and
  // crossed off; whatever is left over belongs to another product.
  method BuildAssetManifest(core: ProductCore, p: Id, ids: seq<Option<Id>>) returns (m: Manifest)
    ensures m == BuildManifest(core.relations, p, ids)
  {
    var owned := RelationsOf(core.relations, p);
    var kept := owned;
    if ids != [] {
      var asked := Chosen(ids);
      var allowed, rest := asked, owned;
      kept := {};
      while rest != {}
        invariant rest <= owned
        invariant kept == asked * (owned - rest)
        invariant allowed == asked - (owned - rest)
      {
        var r :| r in rest;
        if r in allowed {
          kept := kept + {r};
          allowed := allowed - {r};
        }
        assert owned - (rest - {r}) == (owned - rest) + {r};
        rest := rest - {r};
      }
      if allowed != {} {
        return NoManifest(ForeignAsset);
      }
      assert asked <= owned && kept == asked;
    }
    if kept == {} {
      return NoManifest(NoAsset);
    }
    return Manifest(kept);
  }

  method BillTask(core: ProductCore, p: Id, row: ExportTask, tid: Id, a: Answers) returns (reply: ExportReply)
    modifies core
    ensures (core.Contents(), reply) == CreateBilledTask(old(core.Contents()), p, row, tid, a)
  {
    var gate := new Gate(core.ledger);
    var begun := gate.BeginCharge(tid, a.session, a.reserve);
    core.ledger := gate.ledger;
    if begun.None? {
      return ExportNotBilled(NotReserved);
    }
    if !a.rowOk {
      gate.ReleaseCharge(begun.value, a.release, a.close);
      core.ledger := gate.ledger;
      return ExportNotBilled(RowFailed);
    }
    core.tasks := core.tasks[tid := row];
    var stage := gate.CommitRowCharge(begun.value, a);
    core.ledger := gate.ledger;
    if stage != Billed {
      return ExportNotBilled(stage);
    }
    core.MarkExportPrepared(p);
    return NewTask(tid, row);
  }

  method CreateExportTask(core: ProductCore, p: Id, market: Market, ids: seq<Option<Id>>, tid: Id, a: Answers) returns (reply: ExportReply)
    modifies core
    ensures (core.Contents(), reply) == CreateExport(old(core.Contents()), p, market, ids, tid, a)
  {
    if p !in core.products {
      return UnknownProduct;
    }
    var manifest := BuildAssetManifest(core, p, ids);
    if manifest.NoManifest? {
      return BadManifest(manifest.error);
    }
    var adopted := AdoptedFor(core.listings, p, market);
    if adopted == {} {
      return NoAdoptedListing;
    }
    var v := Least(adopted);
    reply := BillTask(core, p, ExportTask(p, TaskSucceeded, market, v, core.listings[v].text.name, manifest.relations, None), tid, a);
  }

  method UpdateExportTaskStatus(core: ProductCore, p: Id, t: Id, status: TaskStatus) returns (done: bool)
    modifies core
    ensures (core.Contents(), done) == SetTaskStatus(old(core.Contents()), p, t, status)
  {
    if t !in core.tasks || core.tasks[t].product != p {
      return false;
    }
    core.tasks := core.tasks[t := core.tasks[t].(status := status)];
    if status == TaskSucceeded {
      core.MarkExportPrepared(p);
    }
    return true;
  }

  method TryItem(core: ProductCore, ghost d: Progress, seen: set<Id>, market: Market, item: PackageItem, package: Id, tid: Id, a: Answers, attachOk: bool)
    returns (taken: set<Id>, result: PackageResult)
    requires d.store == core.Contents() && d.seen == seen
    modifies core
    ensures Progress(core.Contents(), taken, d.results + [result], d.made + (if result.success then [tid] else []))
         == ItemStep(d, market, item, package, tid, a, attachOk)
    ensures result.success ==> result.task == Some(tid)
  {
    var resolved := Resolved(core.Contents(), item);
    var shown := Shown(core.Contents(), item);
    var blockers := Blockers(core.Contents(), seen, market, item);
    taken := Marked(seen, resolved);
    if blockers != [] {
      return taken, PackageResult(shown, false, None, blockers);
    }
    var reply := CreateExportTask(core, resolved.value, market, [], tid, a);
    if !reply.NewTask? {
      return taken, PackageResult(shown, false, None, [CreateFailed(reply)]);
    }
    if attachOk && tid in core.tasks {
      core.tasks := core.tasks[tid := core.tasks[tid].(package := Some(package))];
    }
    return taken, PackageResult(shown, true, Some(tid), []);
  }

  method FillPackage(core: ProductCore, market: Market, items: seq<PackageItem>, package: Id,
                     tids: seq<Id>, answers: seq<Answers>, attachOk: seq<bool>)
    returns (seen: set<Id>, results: seq<PackageResult>, made: seq<Id>)
    requires |items| <= |tids| && |items| <= |answers| && |items| <= |attachOk|
    modifies core
    ensures Progress(core.Contents(), seen, results, made)
         == PackageRun(old(core.Contents()), market, items, package, tids, answers, attachOk, |items|)
  {
    hide ItemStep;
    results, made, seen := [], [], {};
    var i := 0;
    while i < |items|
      invariant 0 <= i <= |items|
      invariant Progress(core.Contents(), seen, results, made)
             == PackageRun(old(core.Contents()), market, items, package, tids, answers, attachOk, i)
    {
      var result;
      seen, result := TryItem(core, Progress(core.Contents(), seen, results, made), seen, market, items[i], package, tids[i], answers[i], attachOk[i]);
      results := results + [result];
      made := made + (if result.success then [tids[i]] else []);
      i := i + 1;
    }
  }

  // An empty request is refused.
  method CreateExportPackage(core: ProductCore, market: Market, items: seq<PackageItem>, package: Id,
                             tids: seq<Id>, answers: seq<Answers>, attachOk: seq<bool>)
    returns (accepted: bool, results: seq<PackageResult>, pkg: Package)
    requires |items| <= |tids| && |items| <= |answers| && |items| <= |attachOk|
    modifies core
    ensures accepted <==> items != []
    ensures var d := PackageRun(old(core.Contents()), market, items, package, tids, answers, attachOk, |items|);
            core.Contents() == d.store && results == d.results && pkg == Assemble(d, |items|)
  {
    accepted := items != [];
    var seen, made;
    seen, results, made := FillPackage(core, market, items, package, tids, answers, attachOk);
    pkg := Assemble(Progress(core.Contents(), seen, results, made), |items|);
  }

  // ---- Charging ----

  lemma BilledTaskInserts(s: Store, p: Id, row: ExportTask, tid: Id, a: Answers)
    ensures var (t, reply) := CreateBilledTask(s, p, row, tid, a);
            && t.tasks == (if reply.NewTask? || (reply.ExportNotBilled? && reply.stage.RowExists()) then s.tasks[tid := row] else s.tasks)
            && t.ledger == BillRow(s.ledger, tid, a).0
            && (reply.NewTask? || reply.ExportNotBilled?)
            && (reply.NewTask? <==> BillRow(s.ledger, tid, a).1 == Billed)
            && (reply.NewTask? ==> reply.row == row && reply.id == tid)
            && (reply.ExportNotBilled? ==> reply.stage == BillRow(s.ledger, tid, a).1)
            && SameSkus(s, t) && t.relations == s.relations && t.listings == s.listings
  {
  }

  // A task is created exactly when the product has the assets asked for and an
  // adopted version for the market, and every answer up to the settled session
  // was good; any later failure releases its reservation once.
  lemma TaskIsCharged(s: Store, p: Id, market: Market, ids: seq<Option<Id>>, tid: Id, a: Answers)
    requires FreshFor(s.ledger, tid, a)
    ensures var (t, reply) := CreateExport(s, p, market, ids, tid, a);
            && (reply.NewTask? <==>
                  && p in s.products && BuildManifest(s.relations, p, ids).Manifest? && AdoptedFor(s.listings, p, market) != {}
                  && s.ledger.available > 0 && Willing(a))
            && (!reply.NewTask? && !reply.ExportNotBilled? ==> t == s)
            && (reply.NewTask? ==>
                  && tid in t.tasks && t.tasks[tid].product == p && t.tasks[tid].status == TaskSucceeded
                  && {} < t.tasks[tid].manifest <= RelationsOf(s.relations, p)
                  && t.tasks[tid].listing in AdoptedOf(s.listings, p))
            && t.ledger.releaseRequests ==
                 s.ledger.releaseRequests +
                 (if reply.ExportNotBilled? && reply.stage.FailedAfterReserve() && a.reserve.ReserveMade? then [a.reserve.id] else [])
  {
    if p in s.products && BuildManifest(s.relations, p, ids).Manifest? && AdoptedFor(s.listings, p, market) != {} {
      var v := Least(AdoptedFor(s.listings, p, market));
      var row := ExportTask(p, TaskSucceeded, market, v, s.listings[v].text.name, BuildManifest(s.relations, p, ids).relations, None);
      BilledTaskInserts(s, p, row, tid, a);
      BillRowReleasesOnce(s.ledger, tid, a);
    }
  }

  lemma TaskLedger(s: Store, p: Id, market: Market, ids: seq<Option<Id>>, tid: Id, a: Answers)
    ensures var (t, reply) := CreateExport(s, p, market, ids, tid, a);
            && t.ledger == (if reply.NewTask? || reply.ExportNotBilled? then BillRow(s.ledger, tid, a).0 else s.ledger)
            && (t.tasks == s.tasks || (tid in t.tasks && t.tasks == s.tasks[tid := t.tasks[tid]]))
            && (reply.NewTask? ==> tid in t.tasks && t.tasks[tid].product == p && t.tasks[tid].status == TaskSucceeded && t.tasks[tid].package == None)
            && SameSkus(s, t) && t.relations == s.relations && t.listings == s.listings
  {
    if p in s.products && BuildManifest(s.relations, p, ids).Manifest? && AdoptedFor(s.listings, p, market) != {} {
      var v := Least(AdoptedFor(s.listings, p, market));
      var row := ExportTask(p, TaskSucceeded, market, v, s.listings[v].text.name, BuildManifest(s.relations, p, ids).relations, None);
      BilledTaskInserts(s, p, row, tid, a);
    }
  }

  // The ledger after one item: after one billed row if its task went as far as
  // the gate, otherwise as it was.
  lemma ItemLedger(d: Progress, market: Market, item: PackageItem, package: Id, tid: Id, a: Answers, attachOk: bool)
    ensures var e := ItemStep(d, market, item, package, tid, a, attachOk);
            && e.results != []
            && e.store.ledger == if WasBilled(e.results[|e.results| - 1]) then BillRow(d.store.ledger, tid, a).0 else d.store.ledger
  {
    hide CreateExport;
    BlockersAreNotReplies(d.store, d.seen, market, item);
    if Resolved(d.store, item).Some? {
      TaskLedger(d.store, Resolved(d.store, item).value, market, [], tid, a);
    }
  }

  lemma BlockersAreNotReplies(s: Store, seen: set<Id>, market: Market, item: PackageItem)
    ensures var b := Blockers(s, seen, market, item); b != [] ==> !b[0].CreateFailed?
  {
  }

  // The result of an item whose task went as far as the gate.
  predicate WasBilled(r: PackageResult) {
    r.success || (r.blockers != [] && r.blockers[0].CreateFailed? && r.blockers[0].reply.ExportNotBilled?)
  }

  // The reservations the first n items leave open.
  function PackageLeft(s: Store, market: Market, items: seq<PackageItem>, package: Id, tids: seq<Id>, answers: seq<Answers>, attachOk: seq<bool>,
                       n: nat): set<Id>
    requires n <= |items| <= |tids| && |items| <= |answers| && |items| <= |attachOk|
  {
    if n == 0 then {}
    else
      var before := PackageRun(s, market, items, package, tids, answers, attachOk, n - 1);
      var after := PackageRun(s, market, items, package, tids, answers, attachOk, n);
      PackageLeft(s, market, items, package, tids, answers, attachOk, n - 1) +
      (if after.results != [] && WasBilled(after.results[|after.results| - 1]) then LeftBy(before.store.ledger, answers[n - 1]) else {})
  }

  lemma {:induction false} PackageGrows(s: Store, market: Market, items: seq<PackageItem>, package: Id,
                                        tids: seq<Id>, answers: seq<Answers>, attachOk: seq<bool>, n: nat)
    requires n <= |items| <= |tids| && |items| <= |answers| && |items| <= |attachOk|
    ensures Grown(s.ledger, PackageRun(s, market, items, package, tids, answers, attachOk, n).store.ledger, tids, answers, n)
  {
    hide ItemStep, BillRow;
    if n > 0 {
      var k := n - 1;
      PackageGrows(s, market, items, package, tids, answers, attachOk, k);
      var d := PackageRun(s, market, items, package, tids, answers, attachOk, k);
      GrowsByRow(s.ledger, d.store.ledger, tids, answers, k);
      ItemLedger(d, market, items[k], package, tids[k], answers[k], attachOk[k]);
    }
  }

  // Whatever fails, the units are conserved, and the reservations a package
  // leaves open are those lost behind an error of the reserve call and those
  // whose release was refused.
  lemma {:induction false} PackageLeavesExactly(s: Store, market: Market, items: seq<PackageItem>, package: Id,
                                                tids: seq<Id>, answers: seq<Answers>, attachOk: seq<bool>, n: nat)
    requires n <= |items| <= |tids| && |items| <= |attachOk| && FreshBatch(s.ledger, tids, answers) && Conserved(s.ledger)
    ensures var l := PackageRun(s, market, items, package, tids, answers, attachOk, n).store.ledger;
            && Conserved(l)
            && OpenIds(l) == OpenIds(s.ledger) + PackageLeft(s, market, items, package, tids, answers, attachOk, n)
  {
    hide ItemStep, BillRow, LeftBy, OpenIds, Conserved;
    if n > 0 {
      var k := n - 1;
      PackageLeavesExactly(s, market, items, package, tids, answers, attachOk, k);
      PackageGrows(s, market, items, package, tids, answers, attachOk, k);
      var d := PackageRun(s, market, items, package, tids, answers, attachOk, k);
      GrownStaysFresh(s.ledger, d.store.ledger, tids, answers, k);
      BillRowConserves(d.store.ledger, tids[k], answers[k]);
      ItemLedger(d, market, items[k], package, tids[k], answers[k], attachOk[k]);
    }
  }

  lemma {:induction false} NothingIsLeft(s: Store, market: Market, items: seq<PackageItem>, package: Id,
                                         tids: seq<Id>, answers: seq<Answers>, attachOk: seq<bool>, n: nat)
    requires n <= |items| <= |tids| && |items| <= |answers| && |items| <= |attachOk| && Quiet(answers)
    ensures PackageLeft(s, market, items, package, tids, answers, attachOk, n) == {}
  {
    hide PackageRun, LeftBy;
    if n > 0 {
      NothingIsLeft(s, market, items, package, tids, answers, attachOk, n - 1);
      NothingLeft(PackageRun(s, market, items, package, tids, answers, attachOk, n - 1).store.ledger, answers[n - 1]);
    }
  }

  // So with no lost reserve and releases that take effect, whatever else
  // fails, it leaves no reservation of its own open.
  lemma PackageLeavesNothingOpen(s: Store, market: Market, items: seq<PackageItem>, package: Id,
                                 tids: seq<Id>, answers: seq<Answers>, attachOk: seq<bool>, n: nat)
    requires n <= |items| <= |tids| && |items| <= |attachOk| && FreshBatch(s.ledger, tids, answers) && Conserved(s.ledger) && Quiet(answers)
    ensures OpenIds(PackageRun(s, market, items, package, tids, answers, attachOk, n).store.ledger) == OpenIds(s.ledger)
  {
    hide PackageRun, OpenIds, Conserved, PackageLeft, Quiet;
    PackageLeavesExactly(s, market, items, package, tids, answers, attachOk, n);
    NothingIsLeft(s, market, items, package, tids, answers, attachOk, n);
  }

  // ---- Conservation ----

  function Successes(results: seq<PackageResult>): nat {
    if results == [] then 0
    else Successes(results[..|results| - 1]) + (if results[|results| - 1].success then 1 else 0)
  }

  // A result carries its task, or says what blocked it.
  predicate WellFormed(r: PackageResult) {
    if r.success then r.product.Some? && r.task.Some? && r.blockers == [] else r.task.None? && r.blockers != []
  }

  predicate Tallies(d: Progress) {
    && |d.made| == Successes(d.results) <= |d.results|
    && |ManifestBlockers(d.results)| == |d.results| - |d.made|
    && (forall i :: 0 <= i < |d.results| ==> WellFormed(d.results[i]))
  }

  predicate NoProductTwice(d: Progress) {
    && (forall i :: 0 <= i < |d.results| && d.results[i].success ==> d.results[i].product.Some? && d.results[i].product.value in d.seen)
    && (forall i, j :: 0 <= i < j < |d.results| && d.results[i].success && d.results[j].success ==> d.results[i].product != d.results[j].product)
  }

  lemma ItemAppends(d: Progress, market: Market, item: PackageItem, package: Id, tid: Id, a: Answers, attachOk: bool)
    ensures var e := ItemStep(d, market, item, package, tid, a, attachOk);
            && d.results <= e.results && |e.results| == |d.results| + 1
            && e.made == d.made + (if e.results[|d.results|].success then [tid] else [])
            && WellFormed(e.results[|d.results|])
            && d.seen <= e.seen
            && (e.results[|d.results|].success ==> e.results[|d.results|].product.value in e.seen - d.seen)
  {
    hide CreateExport;
  }

  lemma AppendTallies(d: Progress, e: Progress)
    requires Tallies(d) && NoProductTwice(d)
    requires d.results <= e.results && |e.results| == |d.results| + 1 && |e.made| == |d.made| + (if e.results[|d.results|].success then 1 else 0)
    requires WellFormed(e.results[|d.results|]) && d.seen <= e.seen
    requires e.results[|d.results|].success ==> e.results[|d.results|].product.value in e.seen - d.seen
    ensures Tallies(e) && NoProductTwice(e)
  {
    assert e.results[..|d.results|] == d.results;
  }

  lemma {:induction false} PackageTallies(s: Store, market: Market, items: seq<PackageItem>, package: Id,
                                          tids: seq<Id>, answers: seq<Answers>, attachOk: seq<bool>, n: nat)
    requires n <= |items| <= |tids| && |items| <= |answers| && |items| <= |attachOk|
    ensures var d := PackageRun(s, market, items, package, tids, answers, attachOk, n);
            Tallies(d) && NoProductTwice(d) && |d.results| == n
  {
    hide ItemStep;
    if n > 0 {
      var k := n - 1;
      PackageTallies(s, market, items, package, tids, answers, attachOk, k);
      var d := PackageRun(s, market, items, package, tids, answers, attachOk, k);
      ItemAppends(d, market, items[k], package, tids[k], answers[k], attachOk[k]);
      AppendTallies(d, PackageRun(s, market, items, package, tids, answers, attachOk, n));
    }
  }

  // Results match the items one to one, the counts and the manifest add up,
  // and no product succeeds twice.
  lemma PackageIsConserved(s: Store, market: Market, items: seq<PackageItem>, package: Id,
                           tids: seq<Id>, answers: seq<Answers>, attachOk: seq<bool>)
    requires |items| <= |tids| && |items| <= |answers| && |items| <= |attachOk|
    ensures var d := PackageRun(s, market, items, package, tids, answers, attachOk, |items|);
            var pkg := Assemble(d, |items|);
            && NoProductTwice(d) && |d.results| == |items|
            && pkg.succeeded == Successes(d.results) && pkg.failed >= 0 && pkg.succeeded + pkg.failed == pkg.total == |items|
            && (items != [] ==> (pkg.status == PackageFailed <==> pkg.succeeded == 0) && (pkg.status == PackageSucceeded <==> pkg.failed == 0))
            && |pkg.manifestTasks| == pkg.succeeded && |pkg.manifestBlockers| == pkg.failed
  {
    PackageTallies(s, market, items, package, tids, answers, attachOk, |items|);
  }

  predicate SameSkus(s: Store, t: Store) {
    t.products.Keys == s.products.Keys && forall p :: p in s.products ==> t.products[p].sku == s.products[p].sku
  }

  lemma SameSkusShowTheSame(s: Store, t: Store, item: PackageItem)
    requires SameSkus(s, t)
    ensures Shown(t, item) == Shown(s, item) && Resolved(t, item) == Resolved(s, item)
  {
    assert WithSku(t.products, Trim(item.sku)) == WithSku(s.products, Trim(item.sku));
  }

  lemma ItemShows(d: Progress, market: Market, item: PackageItem, package: Id, tid: Id, a: Answers, attachOk: bool)
    ensures var e := ItemStep(d, market, item, package, tid, a, attachOk);
            && d.results <= e.results && |e.results| == |d.results| + 1
            && e.results[|d.results|].product == Shown(d.store, item)
            && (e.results[|d.results|].success ==> Shown(d.store, item) == Resolved(d.store, item))
            && SameSkus(d.store, e.store)
  {
    hide CreateExport;
    if Resolved(d.store, item).Some? {
      TaskLedger(d.store, Resolved(d.store, item).value, market, [], tid, a);
    }
  }

  // Each result is about the product its own item names.
  predicate Match(s: Store, results: seq<PackageResult>, items: seq<PackageItem>) {
    |results| <= |items| && forall i :: 0 <= i < |results| ==>
      && results[i].product == Shown(s, items[i])
      && (results[i].success ==> results[i].product == Resolved(s, items[i]))
  }

  lemma AppendMatches(s: Store, t: Store, before: seq<PackageResult>, after: seq<PackageResult>, items: seq<PackageItem>)
    requires Match(s, before, items) && SameSkus(s, t)
    requires |before| < |items| && before <= after && |after| == |before| + 1
    requires after[|before|].product == Shown(t, items[|before|])
    requires after[|before|].success ==> Shown(t, items[|before|]) == Resolved(t, items[|before|])
    ensures Match(s, after, items)
  {
    SameSkusShowTheSame(s, t, items[|before|]);
  }

  lemma {:induction false} ResultsMatchItems(s: Store, market: Market, items: seq<PackageItem>, package: Id,
                                             tids: seq<Id>, answers: seq<Answers>, attachOk: seq<bool>, n: nat)
    requires n <= |items| <= |tids| && |items| <= |answers| && |items| <= |attachOk|
    ensures var d := PackageRun(s, market, items, package, tids, answers, attachOk, n);
            |d.results| == n && Match(s, d.results, items) && SameSkus(s, d.store)
  {
    hide ItemStep;
    if n > 0 {
      var k := n - 1;
      ResultsMatchItems(s, market, items, package, tids, answers, attachOk, k);
      var d := PackageRun(s, market, items, package, tids, answers, attachOk, k);
      var e := PackageRun(s, market, items, package, tids, answers, attachOk, n);
      ItemShows(d, market, items[k], package, tids[k], answers[k], attachOk[k]);
      AppendMatches(s, d.store, d.results, e.results, items);
    }
  }

  // The export task of every success stands in the table, for that product, and
  // in the package unless it could not be attached.
  predicate TasksStand(d: Progress, package: Id, attachOk: seq<bool>)
    requires |d.results| <= |attachOk|
  {
    forall i :: 0 <= i < |d.results| && d.results[i].success ==>
      && d.results[i].task.Some? && d.results[i].task.value in d.store.tasks
      && Some(d.store.tasks[d.results[i].task.value].product) == d.results[i].product
      && d.store.tasks[d.results[i].task.value].status == TaskSucceeded
      && d.store.tasks[d.results[i].task.value].package == if attachOk[i] then Some(package) else None
  }

  lemma ItemTasksStand(d: Progress, market: Market, item: PackageItem, package: Id, tid: Id, a: Answers, attachOk: seq<bool>)
    requires |d.results| < |attachOk| && TasksStand(d, package, attachOk) && tid !in d.store.tasks
    ensures var e := ItemStep(d, market, item, package, tid, a, attachOk[|d.results|]);
            && |e.results| == |d.results| + 1
            && TasksStand(e, package, attachOk)
            && (forall t :: t in e.store.tasks ==> t in d.store.tasks || t == tid)
  {
    hide CreateExport;
    if Resolved(d.store, item).Some? {
      TaskLedger(d.store, Resolved(d.store, item).value, market, [], tid, a);
    }
  }

  lemma {:induction false} PackageTasksStand(s: Store, market: Market, items: seq<PackageItem>, package: Id,
                                             tids: seq<Id>, answers: seq<Answers>, attachOk: seq<bool>, n: nat)
    requires n <= |items| <= |tids| && |items| <= |answers| && |items| <= |attachOk|
    requires forall i :: 0 <= i < |tids| ==> tids[i] !in s.tasks
    requires forall i, j :: 0 <= i < j < |tids| ==> tids[i] != tids[j]
    ensures var d := PackageRun(s, market, items, package, tids, answers, attachOk, n);
            && |d.results| == n && TasksStand(d, package, attachOk)
            && (forall t :: t in d.store.tasks ==> t in s.tasks || t in tids[..n])
  {
    hide ItemStep;
    if n > 0 {
      var k := n - 1;
      PackageTasksStand(s, market, items, package, tids, answers, attachOk, k);
      var d := PackageRun(s, market, items, package, tids, answers, attachOk, k);
      ItemTasksStand(d, market, items[k], package, tids[k], answers[k], attachOk);
      assert tids[..n] == tids[..k] + [tids[k]];
    }
  }

  // ---- What a call reports ----

  // An asset asked for that is not p's.
  predicate AsksForeign(s: Store, p: Id, ids: seq<Option<Id>>) {
    exists i :: 0 <= i < |ids| && ids[i].Some? && !(ids[i].value in s.relations && s.relations[ids[i].value].owner == p)
  }

  // An asset of p's that was asked for, or any of p's when nothing was.
  predicate Takes(s: Store, p: Id, ids: seq<Option<Id>>, r: Id) {
    r in s.relations && s.relations[r].owner == p && (ids == [] || exists i :: 0 <= i < |ids| && ids[i] == Some(r))
  }

  // An adopted version of p for the market.
  predicate Sells(s: Store, p: Id, market: Market, v: Id) {
    && v in s.listings && s.listings[v].product == p && s.listings[v].status == AdoptedVersion
    && s.listings[v].text.platform == market.platform && s.listings[v].text.site == market.site && s.listings[v].text.locale == market.locale
  }

  ghost predicate HasAssets(s: Store, p: Id, ids: seq<Option<Id>>) {
    exists r: Id :: Takes(s, p, ids, r)
  }

  ghost predicate HasVersion(s: Store, p: Id, market: Market) {
    exists v: Id :: Sells(s, p, market, v)
  }

  lemma ManifestIff(s: Store, p: Id, ids: seq<Option<Id>>)
    ensures var m := BuildManifest(s.relations, p, ids);
            && (m == NoManifest(ForeignAsset) <==> AsksForeign(s, p, ids))
            && (m == NoManifest(NoAsset) <==> !AsksForeign(s, p, ids) && !HasAssets(s, p, ids))
            && (m.Manifest? <==> !AsksForeign(s, p, ids) && HasAssets(s, p, ids))
            && (m.Manifest? ==> forall r: Id :: r in m.relations <==> Takes(s, p, ids, r))
  {
    forall r: Id ensures r in Chosen(ids) <==> exists i :: 0 <= i < |ids| && ids[i] == Some(r) {
      if i :| 0 <= i < |ids| && ids[i] == Some(r) {
        assert ids[i].value in Chosen(ids);
      }
    }
    AsksForeignIff(s, p, ids);
    if !AsksForeign(s, p, ids) {
      var kept := if ids != [] then Chosen(ids) else RelationsOf(s.relations, p);
      assert forall r: Id :: r in kept <==> Takes(s, p, ids, r);
      if r :| r in kept {
        assert Takes(s, p, ids, r);
      }
    }
  }

  lemma AsksForeignIff(s: Store, p: Id, ids: seq<Option<Id>>)
    ensures Chosen(ids) <= RelationsOf(s.relations, p) <==> !AsksForeign(s, p, ids)
  {
    if i :| 0 <= i < |ids| && ids[i].Some? && !(ids[i].value in s.relations && s.relations[ids[i].value].owner == p) {
      assert ids[i].value in Chosen(ids) && ids[i].value !in RelationsOf(s.relations, p);
    }
  }

  lemma SellsIff(s: Store, p: Id, market: Market, v: Id)
    ensures v in AdoptedFor(s.listings, p, market) <==> Sells(s, p, market, v)
  {
  }

  lemma NoneSells(s: Store, p: Id, market: Market)
    ensures forall v: Id :: v in AdoptedFor(s.listings, p, market) <==> Sells(s, p, market, v)
    ensures AdoptedFor(s.listings, p, market) == {} <==> forall v: Id :: !Sells(s, p, market, v)
  {
    forall v: Id {
      SellsIff(s, p, market, v);
    }
    if v: Id :| v in AdoptedFor(s.listings, p, market) {
      assert Sells(s, p, market, v);
    }
  }

  // What was missing, and what the export task of a call that was billed
  // says.
  lemma TaskReports(s: Store, p: Id, market: Market, ids: seq<Option<Id>>, tid: Id, a: Answers)
    ensures var (t, reply) := CreateExport(s, p, market, ids, tid, a);
            && (reply == UnknownProduct <==> p !in s.products)
            && (reply == BadManifest(ForeignAsset) <==> p in s.products && AsksForeign(s, p, ids))
            && (reply == BadManifest(NoAsset) <==> p in s.products && !AsksForeign(s, p, ids) && !HasAssets(s, p, ids))
            && (reply == NoAdoptedListing <==>
                  p in s.products && !AsksForeign(s, p, ids) && HasAssets(s, p, ids) && !HasVersion(s, p, market))
            && (reply.NewTask? ==> reply.id == tid && t.tasks == s.tasks[tid := reply.row] && RowFits(s, p, market, ids, reply.row))
  {
    hide BillRow, DerivedStatus, BuildManifest, AdoptedFor, AsksForeign, Takes, Sells;
    ManifestIff(s, p, ids);
    NoneSells(s, p, market);
    if p in s.products && BuildManifest(s.relations, p, ids).Manifest? && AdoptedFor(s.listings, p, market) != {} {
      var v := Least(AdoptedFor(s.listings, p, market));
      AdoptedRowExists(s, p, market, v);
      var row := ExportTask(p, TaskSucceeded, market, v, s.listings[v].text.name, BuildManifest(s.relations, p, ids).relations, None);
      BilledTaskInserts(s, p, row, tid, a);
    }
  }

  lemma AdoptedRowExists(s: Store, p: Id, market: Market, v: Id)
    requires v in AdoptedFor(s.listings, p, market)
    ensures v in s.listings
  {
  }

  // A succeeded task for the market with the first version that sells there,
  // the assets taken, and no package yet.
  ghost predicate RowFits(s: Store, p: Id, market: Market, ids: seq<Option<Id>>, row: ExportTask) {
    && row.product == p && row.status == TaskSucceeded && row.market == market && row.package == None
    && (forall r: Id :: r in row.manifest <==> Takes(s, p, ids, r))
    && Sells(s, p, market, row.listing) && row.listing in s.listings && row.listingName == s.listings[row.listing].text.name
    && forall v: Id :: Sells(s, p, market, v) ==> row.listing <= v
  }

  // A task of p takes the status given, whatever it is; success makes p's
  // export status ready.
  lemma TaskStatusReports(s: Store, p: Id, t: Id, status: TaskStatus)
    ensures var (u, done) := SetTaskStatus(s, p, t, status);
            && (done <==> t in s.tasks && s.tasks[t].product == p)
            && (!done ==> u == s)
            && (done ==> u.tasks == s.tasks[t := s.tasks[t].(status := status)])
            && (done && status == TaskSucceeded && p in s.products ==> u.products[p].exports == ExportPrepared)
            && (done && status != TaskSucceeded ==> u.products == s.products)
            && u.relations == s.relations && u.listings == s.listings && u.ledger == s.ledger
  {
  }

  // The product of that id, or else the first with that SKU.
  predicate Names(s: Store, item: PackageItem, p: Id) {
    && p in s.products
    && match item.product
       case Some(q) => p == q
       case None => Trim(item.sku) != "" && s.products[p].sku == Trim(item.sku)
                    && forall q :: q in s.products && s.products[q].sku == Trim(item.sku) ==> p <= q
  }

  lemma ResolvedIff(s: Store, item: PackageItem)
    ensures var r := Resolved(s, item);
            && (r.Some? ==> Names(s, item, r.value))
            && (forall p: Id :: Names(s, item, p) ==> r == Some(p))
  {
    hide Trim;
    FoundBySku(s.products, item.sku);
  }

  lemma ShownIff(s: Store, item: PackageItem)
    ensures forall p: Id :: Names(s, item, p) ==> Shown(s, item) == Some(p)
    ensures (forall p: Id :: !Names(s, item, p)) ==> Shown(s, item) == item.product
  {
    hide Names, Resolved;
    ResolvedIff(s, item);
  }

  // Why an item is not tried: nothing to find it by, no such product, a product
  // met before, or else nothing to export.
  lemma BlockersIff(s: Store, seen: set<Id>, market: Market, item: PackageItem)
    ensures var b := Blockers(s, seen, market, item);
            && (ProductRequired in b <==> item.product.None? && Trim(item.sku) == "")
            && (ProductNotFound in b <==> ProductRequired !in b && forall p: Id :: !Names(s, item, p))
            && (DuplicateProduct in b <==> exists p: Id :: p in seen && Names(s, item, p))
            && (AssetMissing in b <==> exists p: Id :: p !in seen && Names(s, item, p) && forall r: Id :: r in s.relations ==> s.relations[r].owner != p)
            && (ListingMissing in b <==> exists p: Id :: p !in seen && Names(s, item, p) && forall v: Id :: !Sells(s, p, market, v))
            && (forall x :: x in b ==> !x.CreateFailed?)
  {
    hide Trim, Names, Sells, FindProduct;
    ResolvedIff(s, item);
    var r := Resolved(s, item);
    if r.Some? {
      PrecheckIff(s, r.value, market);
    }
  }

  lemma PrecheckIff(s: Store, p: Id, market: Market)
    ensures var b := Precheck(s, p, market);
            && (AssetMissing in b <==> forall r: Id :: r in s.relations ==> s.relations[r].owner != p)
            && (ListingMissing in b <==> forall v: Id :: !Sells(s, p, market, v))
            && (forall x :: x in b ==> x == AssetMissing || x == ListingMissing)
  {
    ManifestIff(s, p, []);
    NoneSells(s, p, market);
    assert forall r: Id :: r in s.relations && s.relations[r].owner == p ==> Takes(s, p, [], r);
  }
}
