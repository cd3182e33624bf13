/** Batches of listing creations, their preview, and batches of adoptions. */
module ListingBatches {
  import opened Options
  import opened Text
  import opened BillingGate
  import opened ProductCenter
  import opened Listings

  // ---- Resolving an entry ----

  // A blank product id is None.
  datatype Entry = Entry(product: Option<Id>, sku: string, raw: ListingText)

  // Case is ignored for the letters that fold to ASCII.
  function Fold(c: char): char {
    if 'A' <= c <= 'Z' then c - 'A' + 'a'
    else if c == '\U{017F}' then 's'
    else if c == '\U{212A}' then 'k'
    else c
  }

  predicate EqualFold(a: string, b: string) {
    |a| == |b| && forall i :: 0 <= i < |a| ==> Fold(a[i]) == Fold(b[i])
  }

  function Resolve(products: map<Id, Product>, e: Entry): (r: Option<Id>)
    ensures r.Some? ==> r.value in products
  {
    FindProduct(products, e.product, e.sku)
  }

  datatype Message = KeyRequired | SkuMismatch | ProductNotFound | DuplicateProduct | Answered(reply: CreateReply)

  datatype Item = Item(product: Option<Id>, name: string, message: Message) {
    predicate Success() {
      message.Answered? && message.reply.Succeeded()
    }
  }

  // Why an entry is turned down before any creation is tried.
  function Refusal(products: map<Id, Product>, seen: set<Id>, e: Entry): (r: Option<Message>)
    ensures r.None? ==> Resolve(products, e).Some?
  {
    var resolved := Resolve(products, e);
    if e.product.None? && Trim(e.sku) == "" then Some(KeyRequired)
    else if e.product.Some? && Trim(e.sku) != "" && resolved.Some? && !EqualFold(products[resolved.value].sku, Trim(e.sku)) then Some(SkuMismatch)
    else if resolved.None? then Some(ProductNotFound)
    else if resolved.value in seen then Some(DuplicateProduct)
    else None
  }

  function ShownProduct(products: map<Id, Product>, e: Entry): Option<Id> {
    var resolved := Resolve(products, e);
    if resolved.Some? then resolved else e.product
  }

  // ---- The batch ----

  datatype Batch = Batch(store: Store, seen: set<Id>, items: seq<Item>)

  ghost function EntryStep(b: Batch, e: Entry, vid: Id, a: Answers, preview: bool): Batch {
    var shown := ShownProduct(b.store.products, e);
    match Refusal(b.store.products, b.seen, e)
    case Some(message) => b.(items := b.items + [Item(shown, Trim(e.raw.name), message)])
    case None =>
      var p := Resolve(b.store.products, e).value;
      var (t, reply) := CreateListing(b.store, p, e.raw, vid, a, preview);
      Batch(t, b.seen + {p}, b.items + [Item(shown, Trim(e.raw.name), Answered(reply))])
  }

  // The batch after its first n entries.
  ghost function BatchRun(s: Store, entries: seq<Entry>, vids: seq<Id>, answers: seq<Answers>, preview: bool, n: nat): Batch
    requires n <= |entries| <= |vids| && |entries| <= |answers|
  {
    if n == 0 then Batch(s, {}, [])
    else EntryStep(BatchRun(s, entries, vids, answers, preview, n - 1), entries[n - 1], vids[n - 1], answers[n - 1], preview)
  }

  function CountSuccess(items: seq<Item>): nat {
    if items == [] then 0
    else CountSuccess(items[..|items| - 1]) + (if items[|items| - 1].Success() then 1 else 0)
  }

  lemma CountAppends(items: seq<Item>, last: Item)
    ensures CountSuccess(items + [last]) == CountSuccess(items) + (if last.Success() then 1 else 0)
  {
    assert (items + [last])[..|items|] == items;
  }

  method CreateEntry(core: ProductCore, seen: set<Id>, ghost items: seq<Item>, e: Entry, vid: Id, a: Answers, preview: bool)
    returns (taken: set<Id>, item: Item)
    modifies core
    ensures Batch(core.Contents(), taken, items + [item]) == EntryStep(Batch(old(core.Contents()), seen, items), e, vid, a, preview)
  {
    var shown := ShownProduct(core.products, e);
    var refusal := Refusal(core.products, seen, e);
    if refusal.Some? {
      return seen, Item(shown, Trim(e.raw.name), refusal.value);
    }
    var p := Resolve(core.products, e).value;
    var reply := CreateListingVersion(core, p, e.raw, vid, a, preview);
    return seen + {p}, Item(shown, Trim(e.raw.name), Answered(reply));
  }

  // An empty request is refused.
  method BatchCreateListingVersions(core: ProductCore, entries: seq<Entry>, vids: seq<Id>, answers: seq<Answers>, preview: bool)
    returns (accepted: bool, items: seq<Item>, succeeded: nat, failed: nat)
    requires |entries| <= |vids| && |entries| <= |answers|
    modifies core
    ensures accepted <==> entries != []
    ensures core.Contents() == BatchRun(old(core.Contents()), entries, vids, answers, preview, |entries|).store
    ensures items == BatchRun(old(core.Contents()), entries, vids, answers, preview, |entries|).items
    ensures succeeded == CountSuccess(items) && succeeded + failed == |items| == |entries|
  {
    items, succeeded, failed := [], 0, 0;
    var seen: set<Id> := {};
    var i := 0;
    while i < |entries|
      invariant 0 <= i <= |entries|
      invariant Batch(core.Contents(), seen, items) == BatchRun(old(core.Contents()), entries, vids, answers, preview, i)
      invariant |items| == i && succeeded == CountSuccess(items) && succeeded + failed == i
    {
      var item;
      seen, item := CreateEntry(core, seen, items, entries[i], vids[i], answers[i], preview);
      CountAppends(items, item);
      items := items + [item];
      if item.Success() {
        succeeded := succeeded + 1;
      } else {
        failed := failed + 1;
      }
      i := i + 1;
    }
    accepted := entries != [];
  }

  // ---- Reservations ----

  // The item of an entry that went as far as the gate.
  predicate WasBilled(item: Item) {
    item.message.Answered? && (item.message.reply.NewVersion? || item.message.reply.NotBilled?)
  }

  // The ledger after one entry: after one billed row if it went as far as the
  // gate, otherwise as it was.
  lemma EntryLedger(b: Batch, e: Entry, vid: Id, a: Answers)
    ensures var c := EntryStep(b, e, vid, a, false);
            && c.items != []
            && c.store.ledger == if WasBilled(c.items[|c.items| - 1]) then BillRow(b.store.ledger, vid, a).0 else b.store.ledger
  {
    hide CreateBilled, Validate, BillRow;
    RefusalIsNoAnswer(b.store.products, b.seen, e);
    if Refusal(b.store.products, b.seen, e).None? {
      var p := Resolve(b.store.products, e).value;
      var text := Normalised(e.raw);
      if Validate(b.store.products[p], text, AssetReady(b.store, p)).None? {
        CreateBilledInserts(b.store, p, Listing(p, NextVersionNo(b.store.listings, p), text, DraftVersion), vid, a);
      }
    }
  }

  lemma RefusalIsNoAnswer(products: map<Id, Product>, seen: set<Id>, e: Entry)
    ensures var r := Refusal(products, seen, e); r.Some? ==> !r.value.Answered?
  {
  }

  lemma {:induction false} BatchGrows(s: Store, entries: seq<Entry>, vids: seq<Id>, answers: seq<Answers>, n: nat)
    requires n <= |entries| <= |vids| && |entries| <= |answers|
    ensures var l := BatchRun(s, entries, vids, answers, false, n).store.ledger;
            Grown(s.ledger, l, vids, answers, n) && l.available + n >= s.ledger.available
  {
    hide EntryStep, BillRow;
    if n > 0 {
      var k := n - 1;
      BatchGrows(s, entries, vids, answers, k);
      var b := BatchRun(s, entries, vids, answers, false, k);
      EntryLedger(b, entries[k], vids[k], answers[k]);
      GrowsByRow(s.ledger, b.store.ledger, vids, answers, k);
      BillRowGrows(b.store.ledger, vids[k], answers[k]);
    }
  }

  // The reservations the first n entries leave open.
  ghost function BatchLeft(s: Store, entries: seq<Entry>, vids: seq<Id>, answers: seq<Answers>, n: nat): set<Id>
    requires n <= |entries| <= |vids| && |entries| <= |answers|
  {
    if n == 0 then {}
    else
      var before, after := BatchRun(s, entries, vids, answers, false, n - 1), BatchRun(s, entries, vids, answers, false, n);
      BatchLeft(s, entries, vids, answers, n - 1) +
      (if after.items != [] && WasBilled(after.items[|after.items| - 1]) then LeftBy(before.store.ledger, answers[n - 1]) else {})
  }

  // Whatever fails, the units are conserved, and the reservations a batch
  // leaves open are those lost behind an error of the reserve call and those
  // whose release was refused.
  lemma {:induction false} BatchLeavesExactly(s: Store, entries: seq<Entry>, vids: seq<Id>, answers: seq<Answers>, n: nat)
    requires n <= |entries| <= |vids| && FreshBatch(s.ledger, vids, answers) && Conserved(s.ledger)
    ensures var l := BatchRun(s, entries, vids, answers, false, n).store.ledger;
            Conserved(l) && OpenIds(l) == OpenIds(s.ledger) + BatchLeft(s, entries, vids, answers, n)
  {
    hide EntryStep, BillRow, LeftBy, OpenIds, Conserved;
    if n > 0 {
      var k := n - 1;
      BatchLeavesExactly(s, entries, vids, answers, k);
      var b := BatchRun(s, entries, vids, answers, false, k);
      BatchGrows(s, entries, vids, answers, k);
      GrownStaysFresh(s.ledger, b.store.ledger, vids, answers, k);
      BillRowConserves(b.store.ledger, vids[k], answers[k]);
      EntryLedger(b, entries[k], vids[k], answers[k]);
    }
  }

  lemma {:induction false} NothingIsLeft(s: Store, entries: seq<Entry>, vids: seq<Id>, answers: seq<Answers>, n: nat)
    requires n <= |entries| <= |vids| && |entries| <= |answers| && Quiet(answers)
    ensures BatchLeft(s, entries, vids, answers, n) == {}
  {
    hide BatchRun, LeftBy;
    if n > 0 {
      NothingIsLeft(s, entries, vids, answers, n - 1);
      NothingLeft(BatchRun(s, entries, vids, answers, false, n - 1).store.ledger, answers[n - 1]);
    }
  }

  // So with no lost reserve and releases that take effect, whatever else
  // fails, it leaves no reservation of its own open.
  lemma BatchLeavesNothingOpen(s: Store, entries: seq<Entry>, vids: seq<Id>, answers: seq<Answers>, n: nat)
    requires n <= |entries| <= |vids| && FreshBatch(s.ledger, vids, answers) && Conserved(s.ledger) && Quiet(answers)
    ensures OpenIds(BatchRun(s, entries, vids, answers, false, n).store.ledger) == OpenIds(s.ledger)
  {
    hide BatchRun, OpenIds, Conserved, BatchLeft, Quiet;
    BatchLeavesExactly(s, entries, vids, answers, n);
    NothingIsLeft(s, entries, vids, answers, n);
  }

  // ---- Preview ----

  // t is s after versions were created for the products in seen.
  predicate Parallel(s: Store, t: Store, seen: set<Id>) {
    && t.products.Keys == s.products.Keys
    && (forall p :: p in s.products ==> SameFacts(s.products[p], t.products[p]))
    && t.relations == s.relations
    && (forall v :: v in s.listings ==> v in t.listings && t.listings[v] == s.listings[v])
    && (forall v :: v in t.listings && v !in s.listings ==> t.listings[v].product in seen)
  }

  predicate SameFacts(a: Product, b: Product) {
    a.sku == b.sku && a.title == b.title && a.assets == b.assets
  }

  lemma ParallelResolves(s: Store, t: Store, seen: set<Id>, e: Entry)
    requires Parallel(s, t, seen)
    ensures Resolve(t.products, e) == Resolve(s.products, e)
    ensures Refusal(t.products, seen, e) == Refusal(s.products, seen, e)
    ensures ShownProduct(t.products, e) == ShownProduct(s.products, e)
  {
    assert WithSku(t.products, Trim(e.sku)) == WithSku(s.products, Trim(e.sku));
  }

  lemma ParallelNumbers(s: Store, t: Store, seen: set<Id>, p: Id)
    requires Parallel(s, t, seen) && p !in seen
    ensures NextVersionNo(t.listings, p) == NextVersionNo(s.listings, p)
  {
    forall n ensures n in NumbersOf(t.listings, p) <==> n in NumbersOf(s.listings, p) {
      if n in NumbersOf(t.listings, p) {
        var v :| v in t.listings && t.listings[v].product == p && t.listings[v].versionNo == n;
        assert v in s.listings;
      }
      if n in NumbersOf(s.listings, p) {
        var v :| v in s.listings && s.listings[v].product == p && s.listings[v].versionNo == n;
        assert v in t.listings;
      }
    }
    assert NumbersOf(t.listings, p) == NumbersOf(s.listings, p);
  }

  lemma ParallelInsert(s: Store, t: Store, seen: set<Id>, p: Id, row: Listing, vid: Id, a: Answers)
    requires Parallel(s, t, seen) && vid !in s.listings && row.product == p
    ensures Parallel(s, CreateBilled(t, p, row, vid, a).0, seen + {p})
  {
    CreateBilledInserts(t, p, row, vid, a);
    CreateBilledKeepsFacts(t, p, row, vid, a);
  }

  lemma CreateBilledKeepsFacts(t: Store, p: Id, row: Listing, vid: Id, a: Answers)
    ensures var u := CreateBilled(t, p, row, vid, a).0;
            && u.products.Keys == t.products.Keys
            && (forall q :: q in t.products ==> SameFacts(t.products[q], u.products[q]))
            && u.relations == t.relations
  {
    var (ledger, stage) := BillRow(t.ledger, vid, a);
    var stored := t.(ledger := ledger, listings := if stage.RowExists() then t.listings[vid := row] else t.listings);
    RefreshListingRepairs(stored, p);
    assert OnlyStatusesOf(stored, RefreshMainStatus(RefreshListingStatus(stored, p), p), p);
  }

  // The same version, or the same complaint.
  predicate Agree(shown: Item, made: Item) {
    && shown.product == made.product && shown.name == made.name
    && (shown.Success() <==> made.Success())
    && (shown.Success() ==> shown.message.reply.id == made.message.reply.id && shown.message.reply.row == made.message.reply.row)
    && (!shown.Success() ==> shown.message == made.message)
  }

  lemma CreationAgrees(s: Store, t: Store, seen: set<Id>, p: Id, raw: ListingText, vid: Id, a: Answers)
    requires Parallel(s, t, seen) && p in s.products && p !in seen && vid !in s.listings
    requires FreshFor(t.ledger, vid, a) && Willing(a) && t.ledger.available > 0
    ensures var shown := CreateListing(s, p, raw, vid, a, true); var made := CreateListing(t, p, raw, vid, a, false);
            && shown.0 == s && Parallel(s, made.0, seen + {p})
            && (shown.1.Invalid? ==> made == (t, shown.1))
            && (!shown.1.Invalid? ==> shown.1.Previewed? && made.1 == NewVersion(shown.1.id, shown.1.row))
  {
    var text := Normalised(raw);
    assert AssetReady(s, p) == AssetReady(t, p);
    assert Validate(s.products[p], text, AssetReady(s, p)) == Validate(t.products[p], text, AssetReady(t, p));
    if Validate(s.products[p], text, AssetReady(s, p)).None? {
      ParallelNumbers(s, t, seen, p);
      var row := Listing(p, NextVersionNo(s.listings, p), text, DraftVersion);
      ParallelInsert(s, t, seen, p, row, vid, a);
      CreateBilledInserts(t, p, row, vid, a);
      BillRowReleasesOnce(t.ledger, vid, a);
    }
  }

  // What holds of a preview and a committed run after the same entries.
  ghost predicate InParallel(s: Store, shown: Batch, made: Batch, n: nat) {
    && shown.store == s && shown.seen == made.seen
    && |shown.items| == |made.items| == n
    && (forall i :: 0 <= i < n ==> Agree(shown.items[i], made.items[i]))
    && Parallel(s, made.store, made.seen)
  }

  lemma ItemAgrees(s: Store, shown: Batch, made: Batch, x: Item, y: Item, t: Store, seen: set<Id>)
    requires InParallel(s, shown, made, |made.items|) && Agree(x, y) && Parallel(s, t, seen)
    ensures InParallel(s, Batch(s, seen, shown.items + [x]), Batch(t, seen, made.items + [y]), |made.items| + 1)
  {
  }

  lemma EntryAgrees(s: Store, shown: Batch, made: Batch, e: Entry, vid: Id, a: Answers)
    requires InParallel(s, shown, made, |made.items|)
    requires vid !in s.listings && FreshFor(made.store.ledger, vid, a) && Willing(a) && made.store.ledger.available > 0
    ensures InParallel(s, EntryStep(shown, e, vid, a, true), EntryStep(made, e, vid, a, false), |made.items| + 1)
  {
    ParallelResolves(s, made.store, made.seen, e);
    var name, product := Trim(e.raw.name), ShownProduct(s.products, e);
    match Refusal(s.products, made.seen, e)
    case Some(message) =>
      ItemAgrees(s, shown, made, Item(product, name, message), Item(product, name, message), made.store, made.seen);
    case None =>
      var p := Resolve(s.products, e).value;
      CreationAgrees(s, made.store, made.seen, p, e.raw, vid, a);
      var foretold := CreateListing(s, p, e.raw, vid, a, true).1;
      var (t, reply) := CreateListing(made.store, p, e.raw, vid, a, false);
      ItemAgrees(s, shown, made, Item(product, name, Answered(foretold)), Item(product, name, Answered(reply)), t, made.seen + {p});
  }

  // When billing and writes succeed a preview foretells the batch entry by
  // entry: success, product, name, version number and text; it changes nothing.
  lemma {:induction false} PreviewPredictsBatch(s: Store, entries: seq<Entry>, vids: seq<Id>, answers: seq<Answers>, n: nat)
    requires n <= |entries| <= |vids| && |entries| <= s.ledger.available
    requires FreshBatch(s.ledger, vids, answers)
    requires forall i :: 0 <= i < |entries| ==> vids[i] !in s.listings && Willing(answers[i])
    ensures InParallel(s, BatchRun(s, entries, vids, answers, true, n), BatchRun(s, entries, vids, answers, false, n), n)
  {
    hide EntryStep;
    if n > 0 {
      var k := n - 1;
      PreviewPredictsBatch(s, entries, vids, answers, k);
      var shown, made := BatchRun(s, entries, vids, answers, true, k), BatchRun(s, entries, vids, answers, false, k);
      BatchGrows(s, entries, vids, answers, k);
      GrownStaysFresh(s.ledger, made.store.ledger, vids, answers, k);
      EntryAgrees(s, shown, made, entries[k], vids[k], answers[k]);
    }
  }

  // ---- Batches of adoptions ----

  // Blank ids are None.
  datatype AdoptEntry = AdoptEntry(product: Option<Id>, version: Option<Id>)

  datatype AdoptMessage = ProductRequired | VersionRequired | UnknownProduct | RepeatedProduct | Adoption(reply: AdoptReply)

  datatype AdoptBatch = AdoptBatch(store: Store, seen: set<Id>, messages: seq<AdoptMessage>)

  function AdoptEntryStep(b: AdoptBatch, e: AdoptEntry): AdoptBatch {
    if e.product.None? then b.(messages := b.messages + [ProductRequired])
    else if e.version.None? then b.(messages := b.messages + [VersionRequired])
    else if e.product.value !in b.store.products then b.(messages := b.messages + [UnknownProduct])
    else if e.product.value in b.seen then b.(messages := b.messages + [RepeatedProduct])
    else
      var (t, reply) := Adopt(b.store, e.product.value, e.version.value, {}, true);
      AdoptBatch(t, b.seen + {e.product.value}, b.messages + [Adoption(reply)])
  }

  // The batch after its first n entries.
  function AdoptRun(s: Store, entries: seq<AdoptEntry>, n: nat): AdoptBatch
    requires n <= |entries|
  {
    if n == 0 then AdoptBatch(s, {}, []) else AdoptEntryStep(AdoptRun(s, entries, n - 1), entries[n - 1])
  }

  method BatchAdoptListingVersions(core: ProductCore, entries: seq<AdoptEntry>) returns (accepted: bool, messages: seq<AdoptMessage>)
    modifies core
    ensures accepted <==> entries != []
    ensures core.Contents() == AdoptRun(old(core.Contents()), entries, |entries|).store
    ensures messages == AdoptRun(old(core.Contents()), entries, |entries|).messages
  {
    messages := [];
    var seen: set<Id> := {};
    var i := 0;
    while i < |entries|
      invariant 0 <= i <= |entries|
      invariant AdoptBatch(core.Contents(), seen, messages) == AdoptRun(old(core.Contents()), entries, i)
    {
      var e := entries[i];
      if e.product.None? {
        messages := messages + [ProductRequired];
      } else if e.version.None? {
        messages := messages + [VersionRequired];
      } else if e.product.value !in core.products {
        messages := messages + [UnknownProduct];
      } else if e.product.value in seen {
        messages := messages + [RepeatedProduct];
      } else {
        seen := seen + {e.product.value};
        var reply := AdoptListingVersion(core, e.product.value, e.version.value, {}, true);
        messages := messages + [Adoption(reply)];
      }
      i := i + 1;
    }
    accepted := entries != [];
  }

  // Every version the batch reports as adopted is its product's only one in
  // the end: no later entry can replace it.
  lemma {:induction false} BatchAdoptionsLast(s: Store, entries: seq<AdoptEntry>, n: nat, k: nat)
    requires k < n <= |entries|
    ensures var b := AdoptRun(s, entries, n);
            && |b.messages| == n
            && (b.messages[k] == Adoption(NowAdopted) ==>
                  && entries[k].product.Some? && entries[k].version.Some? && entries[k].product.value in b.seen
                  && AdoptedOf(b.store.listings, entries[k].product.value) == {entries[k].version.value})
  {
    var b, e := AdoptRun(s, entries, n - 1), entries[n - 1];
    if n > 1 {
      BatchAdoptionsLast(s, entries, n - 1, if k < n - 1 then k else 0);
    }
    if e.product.Some? && e.version.Some? && e.version.value in VersionsOf(b.store.listings, e.product.value) {
      if k < n - 1 && entries[k].product.Some? {
        AdoptLeavesOne(b.store, e.product.value, e.version.value, entries[k].product.value);
      }
      AdoptLeavesOne(b.store, e.product.value, e.version.value, e.product.value);
    }
  }

  // ---- What an entry reports ----

  // The same letter, or one whose other case it is.
  predicate SameLetter(c: char, d: char) {
    || c == d
    || ('a' <= c <= 'z' && d == c - 'a' + 'A') || ('a' <= d <= 'z' && c == d - 'a' + 'A')
    || (c in ['k', 'K', '\U{212A}'] && d in ['k', 'K', '\U{212A}'])
    || (c in ['s', 'S', '\U{017F}'] && d in ['s', 'S', '\U{017F}'])
  }

  lemma EqualFoldIff(a: string, b: string)
    ensures EqualFold(a, b) <==> |a| == |b| && forall i :: 0 <= i < |a| ==> SameLetter(a[i], b[i])
  {
    forall c, d ensures Fold(c) == Fold(d) <==> SameLetter(c, d) {
      FoldsAlike(c, d);
    }
  }

  lemma FoldsAlike(c: char, d: char)
    ensures Fold(c) == Fold(d) <==> SameLetter(c, d)
  {
  }

  // The product of that id, or else the first with that SKU.
  predicate Names(products: map<Id, Product>, e: Entry, p: Id) {
    && p in products
    && match e.product
       case Some(q) => p == q
       case None => products[p].sku == Trim(e.sku) && forall q :: q in products && products[q].sku == Trim(e.sku) ==> p <= q
  }

  lemma ResolvesIff(products: map<Id, Product>, e: Entry)
    ensures var r := Resolve(products, e);
            && (r.Some? ==> Names(products, e, r.value))
            && (forall p: Id :: Names(products, e, p) ==> r == Some(p))
  {
    hide Trim;
    FoundBySku(products, e.sku);
  }

  // Why an entry is turned down, what its item shows, and that one turned down
  // changes nothing; any other is a creation for the product it names.
  lemma EntryReports(b: Batch, e: Entry, vid: Id, a: Answers, preview: bool)
    ensures var c := EntryStep(b, e, vid, a, preview);
            && |c.items| == |b.items| + 1 && b.items <= c.items
            && var item := c.items[|b.items|];
               var products := b.store.products;
            && item.name == Trim(e.raw.name)
            && (forall p: Id :: Names(products, e, p) ==> item.product == Some(p))
            && ((forall p: Id :: !Names(products, e, p)) ==> item.product == e.product)
            && (item.message == KeyRequired <==> e.product.None? && Trim(e.sku) == "")
            && (item.message == SkuMismatch <==>
                  && e.product.Some? && Trim(e.sku) != "" && e.product.value in products
                  && !EqualFold(products[e.product.value].sku, Trim(e.sku)))
            && (item.message == ProductNotFound <==> item.message != KeyRequired && forall p: Id :: !Names(products, e, p))
            && (item.message == DuplicateProduct <==>
                  item.message != KeyRequired && item.message != SkuMismatch && exists p: Id :: p in b.seen && Names(products, e, p))
            && (!item.message.Answered? ==> c.store == b.store && c.seen == b.seen)
            && (item.message.Answered? ==>
                  exists p: Id :: Names(products, e, p) && c.seen == b.seen + {p}
                              && (c.store, item.message.reply) == CreateListing(b.store, p, e.raw, vid, a, preview))
  {
    hide Trim, EqualFold, CreateListing, Names, FindProduct;
    ResolvesIff(b.store.products, e);
    if e.product.Some? {
      ByIdMeans(b.store.products, e);
    }
  }

  lemma ByIdMeans(products: map<Id, Product>, e: Entry)
    requires e.product.Some?
    ensures Resolve(products, e) == if e.product.value in products then e.product else None
  {
  }

  // Why an adoption is turned down; any other is tried and answered.
  lemma AdoptEntryReports(b: AdoptBatch, e: AdoptEntry)
    ensures var c := AdoptEntryStep(b, e);
            && |c.messages| == |b.messages| + 1 && b.messages <= c.messages
            && var m := c.messages[|b.messages|];
            && (m == ProductRequired <==> e.product.None?)
            && (m == VersionRequired <==> e.product.Some? && e.version.None?)
            && (m == UnknownProduct <==> e.product.Some? && e.version.Some? && e.product.value !in b.store.products)
            && (m == RepeatedProduct <==> e.product.Some? && e.version.Some? && e.product.value in b.store.products && e.product.value in b.seen)
            && (!m.Adoption? ==> c.store == b.store && c.seen == b.seen)
            && (m.Adoption? ==>
                  && c.seen == b.seen + {e.product.value}
                  && (m.reply == NowAdopted <==> e.version.value in VersionsOf(b.store.listings, e.product.value))
                  && (m.reply == NowAdopted ==> AdoptedOf(c.store.listings, e.product.value) == {e.version.value})
                  && (m.reply != NowAdopted ==> m.reply == NoSuchVersion && c.store == b.store))
  {
    hide ListingRecount, DerivedStatus;
    if e.product.Some? && e.version.Some? && e.version.value in VersionsOf(b.store.listings, e.product.value) {
      AdoptLeavesOne(b.store, e.product.value, e.version.value, e.product.value);
    }
  }
}
