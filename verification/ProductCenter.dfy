/** The product centre's tables, the three derived sub-statuses, and the main
    status with its guarded transition table. */
module ProductCenter {
  import opened Options
  import opened BillingGate
  import opened Text

  // ---- Rows ----

  datatype Readiness = Missing | Partial | Ready
  datatype ExportStatus = ExportPending | ExportPrepared | ExportDone
  datatype ProductStatus = Draft | AssetsReady | ListingReady | ExportReady | Published | Archived

  datatype Product = Product(
    sku: string,
    title: string,
    status: ProductStatus,
    assets: Readiness,
    listing: Readiness,
    exports: ExportStatus)

  datatype RelationKind = SourceAsset | ResultAsset | PrimaryAsset | PackageItem
  datatype Role = Hero | ModelShot | SceneShot | DetailShot | ListingAttachment

  // A link between an asset and the product that owns it.
  datatype Relation = Relation(asset: Id, owner: Id, kind: RelationKind, role: Role, primary: bool, sortOrder: int)

  datatype ListingText = ListingText(
    name: string,
    title: string,
    description: string,
    bullets: seq<string>,
    keywords: seq<string>,
    platform: string,
    site: string,
    locale: string)

  datatype VersionStatus = DraftVersion | ReadyVersion | AdoptedVersion

  datatype Listing = Listing(product: Id, versionNo: nat, text: ListingText, status: VersionStatus)

  datatype TaskStatus = TaskPending | TaskGenerating | TaskSucceeded | TaskFailed | TaskOther(text: string)

  datatype Market = Market(platform: string, site: string, locale: string)

  datatype ExportTask = ExportTask(
    product: Id,
    status: TaskStatus,
    market: Market,
    listing: Id,
    listingName: string,
    manifest: set<Id>,
    package: Option<Id>)

  datatype Store = Store(
    products: map<Id, Product>,
    relations: map<Id, Relation>,
    listings: map<Id, Listing>,
    tasks: map<Id, ExportTask>,
    ledger: Ledger)

  // ---- Lookups ----

  lemma {:induction false} LeastExists(ids: set<Id>)
    requires ids != {}
    ensures exists p :: p in ids && forall q :: q in ids ==> p <= q
  {
    var x :| x in ids;
    var rest := ids - {x};
    if rest == {} {
      assert ids == {x};
    } else {
      LeastExists(rest);
      var y :| y in rest && forall q :: q in rest ==> y <= q;
      var least := if x <= y then x else y;
      assert forall q :: q in ids ==> q == x || q in rest;
      assert least in ids && forall q :: q in ids ==> least <= q;
    }
  }

  // The first row in primary-key order.
  function Least(ids: set<Id>): Id
    requires ids != {}
  {
    LeastExists(ids);
    var p :| p in ids && forall q :: q in ids ==> p <= q;
    p
  }

  function WithSku(products: map<Id, Product>, sku: string): set<Id> {
    set p | p in products && products[p].sku == sku
  }

  // By id, or else the first row with the SKU.
  function FindProduct(products: map<Id, Product>, product: Option<Id>, sku: string): (r: Option<Id>)
    ensures r.Some? ==> r.value in products
  {
    match product
    case Some(p) => if p in products then Some(p) else None
    case None =>
      var ids := WithSku(products, Trim(sku));
      if ids == {} then None else Some(Least(ids))
  }

  // ---- Recounts ----

  function RelationsOf(relations: map<Id, Relation>, p: Id): set<Id> {
    set r | r in relations && relations[r].owner == p
  }

  predicate HasRole(relations: map<Id, Relation>, p: Id, role: Role) {
    exists r :: r in relations && relations[r].owner == p && relations[r].role == role
  }

  function AssetRecount(relations: map<Id, Relation>, p: Id): Readiness {
    if RelationsOf(relations, p) == {} then Missing
    else if HasRole(relations, p, Hero) && HasRole(relations, p, ModelShot) then Ready
    else Partial
  }

  function VersionsOf(listings: map<Id, Listing>, p: Id): set<Id> {
    set v | v in listings && listings[v].product == p
  }

  function AdoptedOf(listings: map<Id, Listing>, p: Id): set<Id> {
    set v | v in listings && listings[v].product == p && listings[v].status == AdoptedVersion
  }

  function ListingRecount(listings: map<Id, Listing>, p: Id): Readiness {
    if AdoptedOf(listings, p) != {} then Ready
    else if VersionsOf(listings, p) != {} then Partial
    else Missing
  }

  predicate HasSucceededTask(tasks: map<Id, ExportTask>, p: Id) {
    exists t :: t in tasks && tasks[t].product == p && tasks[t].status == TaskSucceeded
  }

  // ---- Derived statuses ----

  function DerivedStatus(row: Product): ProductStatus {
    if row.assets == Ready && row.listing == Ready && row.exports == ExportPrepared then ExportReady
    else if row.assets == Ready && row.listing == Ready then ListingReady
    else if row.assets == Ready then AssetsReady
    else Draft
  }

  predicate Manual(status: ProductStatus) {
    status == Published || status == Archived
  }

  function RefreshAssetStatus(s: Store, p: Id): Store {
    if p !in s.products then s
    else s.(products := s.products[p := s.products[p].(assets := AssetRecount(s.relations, p))])
  }

  function RefreshListingStatus(s: Store, p: Id): Store {
    if p !in s.products then s
    else s.(products := s.products[p := s.products[p].(listing := ListingRecount(s.listings, p))])
  }

  function RefreshMainStatus(s: Store, p: Id): Store {
    if p !in s.products || Manual(s.products[p].status) then s
    else s.(products := s.products[p := s.products[p].(status := DerivedStatus(s.products[p]))])
  }

  function SetExportPrepared(s: Store, p: Id): Store {
    if p !in s.products then s
    else RefreshMainStatus(s.(products := s.products[p := s.products[p].(exports := ExportPrepared)]), p)
  }

  // The image runtime's one-write resynchronisation.
  function SyncStatuses(s: Store, p: Id): Store
    requires p in s.products
  {
    var counted := s.products[p].(assets := AssetRecount(s.relations, p));
    var row := if Manual(counted.status) then counted else counted.(status := DerivedStatus(counted));
    s.(products := s.products[p := row])
  }

  // ---- Manual status changes ----

  predicate IsValidTransition(from: ProductStatus, to: ProductStatus) {
    match from
    case Draft => to == AssetsReady || to == Archived
    case AssetsReady => to == Draft || to == ListingReady || to == Archived
    case ListingReady => to == Draft || to == AssetsReady || to == ExportReady || to == Archived
    case ExportReady => to == Draft || to == AssetsReady || to == ListingReady || to == Published || to == Archived
    case Published => to == Draft || to == AssetsReady || to == ListingReady || to == ExportReady || to == Archived
    case Archived => to == Draft
  }

  predicate MeetsPrecondition(s: Store, p: Id, to: ProductStatus) {
    match to
    case AssetsReady => RelationsOf(s.relations, p) != {}
    case ListingReady => AdoptedOf(s.listings, p) != {}
    case ExportReady => HasSucceededTask(s.tasks, p)
    case _ => true
  }

  // to is None for any text that is not one of the six statuses.
  function SetStatus(s: Store, p: Id, to: Option<ProductStatus>): (Store, bool) {
    if p !in s.products || to.None? || !IsValidTransition(s.products[p].status, to.value) || !MeetsPrecondition(s, p, to.value) then (s, false)
    else (s.(products := s.products[p := s.products[p].(status := to.value)]), true)
  }

  // ---- Product rows ----

  function CreateProduct(s: Store, p: Id, sku: string, title: string): Store {
    s.(products := s.products[p := Product(sku, title, Draft, Missing, Missing, ExportPending)])
  }

  // Blank texts leave the field unchanged.
  function EditProduct(s: Store, p: Id, sku: string, title: string): (Store, bool) {
    if p !in s.products then (s, false)
    else
      var row := s.products[p];
      (s.(products := s.products[p := row.(sku := if sku == "" then row.sku else sku, title := if title == "" then row.title else title)]), true)
  }

  function DeleteProduct(s: Store, p: Id): Store {
    s.(products := s.products - {p},
       relations := s.relations - RelationsOf(s.relations, p),
       listings := s.listings - VersionsOf(s.listings, p),
       tasks := s.tasks - (set t | t in s.tasks && s.tasks[t].product == p))
  }

  // ---- The service ----

  class ProductCore {
    var products: map<Id, Product>
    var relations: map<Id, Relation>
    var listings: map<Id, Listing>
    var tasks: map<Id, ExportTask>
    var ledger: Ledger

    function Contents(): Store
      reads this
    {
      Store(products, relations, listings, tasks, ledger)
    }

    constructor (s: Store)
      ensures Contents() == s
    {
      products, relations, listings, tasks, ledger := s.products, s.relations, s.listings, s.tasks, s.ledger;
    }

    // The flags end as an existential over the relations already visited.
    method UpdateAssetStatus(p: Id)
      modifies this
      ensures Contents() == RefreshAssetStatus(old(Contents()), p)
    {
      if p !in products {
        return;
      }
      var all := RelationsOf(relations, p);
      var status := Missing;
      if all != {} {
        var rest, hasHero, hasModel := all, false, false;
        while rest != {}
          invariant rest <= all
          invariant hasHero <==> exists r :: r in all - rest && relations[r].role == Hero
          invariant hasModel <==> exists r :: r in all - rest && relations[r].role == ModelShot
          invariant Contents() == old(Contents())
        {
          var r :| r in rest;
          hasHero := hasHero || relations[r].role == Hero;
          hasModel := hasModel || relations[r].role == ModelShot;
          assert all - (rest - {r}) == (all - rest) + {r};
          rest := rest - {r};
        }
        status := if hasHero && hasModel then Ready else Partial;
      }
      products := products[p := products[p].(assets := status)];
    }

    method UpdateListingStatus(p: Id)
      modifies this
      ensures Contents() == RefreshListingStatus(old(Contents()), p)
    {
      if p !in products {
        return;
      }
      var all := VersionsOf(listings, p);
      var rest, hasAdopted := all, false;
      while rest != {} && !hasAdopted
        invariant rest <= all
        invariant hasAdopted <==> exists v :: v in AdoptedOf(listings, p) && v !in rest
        invariant Contents() == old(Contents())
        decreases rest
      {
        var v :| v in rest;
        hasAdopted := listings[v].status == AdoptedVersion;
        rest := rest - {v};
      }
      assert !hasAdopted ==> AdoptedOf(listings, p) == {};
      var status := if hasAdopted then Ready else if all != {} then Partial else Missing;
      products := products[p := products[p].(listing := status)];
    }

    method UpdateMainStatus(p: Id)
      modifies this
      ensures Contents() == RefreshMainStatus(old(Contents()), p)
    {
      if p !in products || Manual(products[p].status) {
        return;
      }
      var status := DerivedStatus(products[p]);
      if status != products[p].status {
        products := products[p := products[p].(status := status)];
      } else {
        assert products[p := products[p].(status := status)] == products;
      }
    }

    method MarkExportPrepared(p: Id)
      modifies this
      ensures Contents() == SetExportPrepared(old(Contents()), p)
    {
      if p !in products {
        return;
      }
      products := products[p := products[p].(exports := ExportPrepared)];
      UpdateMainStatus(p);
    }

    method SyncProductStatuses(p: Id)
      requires p in products
      modifies this
      ensures Contents() == SyncStatuses(old(Contents()), p)
    {
      var row := products[p].(assets := AssetRecount(relations, p));
      if !Manual(row.status) {
        row := row.(status := DerivedStatus(row));
      }
      products := products[p := row];
    }

    method UpdateProductStatus(p: Id, to: Option<ProductStatus>) returns (done: bool)
      modifies this
      ensures (Contents(), done) == SetStatus(old(Contents()), p, to)
    {
      if p !in products || to.None? || !IsValidTransition(products[p].status, to.value) {
        return false;
      }
      if !MeetsPrecondition(Contents(), p, to.value) {
        return false;
      }
      products := products[p := products[p].(status := to.value)];
      return true;
    }

    method RemoveProduct(p: Id)
      modifies this
      ensures Contents() == DeleteProduct(old(Contents()), p)
    {
      tasks := tasks - (set t | t in tasks && tasks[t].product == p);
      listings := listings - VersionsOf(listings, p);
      relations := relations - RelationsOf(relations, p);
      products := products - {p};
    }
  }

  // ---- Properties ----

  // One write of the image runtime has the effect of the product centre's two.
  lemma SyncIsAssetThenMain(s: Store, p: Id)
    requires p in s.products
    ensures SyncStatuses(s, p) == RefreshMainStatus(RefreshAssetStatus(s, p), p)
  {
    var counted := RefreshAssetStatus(s, p);
    var row := counted.products[p];
    assert s.products[p := row] == counted.products;
    assert counted.products[p := row.(status := DerivedStatus(row))] == s.products[p := row.(status := DerivedStatus(row))];
  }

  // The statuses of one product are in step with its rows: the assets are ready
  // when a hero and a model shot are linked, and missing when nothing is.
  predicate AssetsInStep(s: Store, p: Id) {
    p in s.products ==>
      && (s.products[p].assets == Ready <==>
            && (exists r :: r in s.relations && s.relations[r].owner == p && s.relations[r].role == Hero)
            && (exists r :: r in s.relations && s.relations[r].owner == p && s.relations[r].role == ModelShot))
      && (s.products[p].assets == Missing <==> forall r :: r in s.relations ==> s.relations[r].owner != p)
  }

  // The listing is ready when a version is adopted, and missing without versions.
  predicate ListingInStep(s: Store, p: Id) {
    p in s.products ==>
      && (s.products[p].listing == Ready <==> exists v :: v in s.listings && s.listings[v].product == p && s.listings[v].status == AdoptedVersion)
      && (s.products[p].listing == Missing <==> forall v :: v in s.listings ==> s.listings[v].product != p)
  }

  // What the sub-statuses make of the main status of a row that is neither
  // published nor archived.
  predicate MainFits(row: Product) {
    && (row.status == ExportReady <==> row.assets == Ready && row.listing == Ready && row.exports == ExportPrepared)
    && (row.status == ListingReady <==> row.assets == Ready && row.listing == Ready && row.exports != ExportPrepared)
    && (row.status == AssetsReady <==> row.assets == Ready && row.listing != Ready)
    && (row.status == Draft <==> row.assets != Ready)
  }

  predicate MainInStep(s: Store, p: Id) {
    p in s.products ==> s.products[p].status == Published || s.products[p].status == Archived || MainFits(s.products[p])
  }

  // The same by the recounts.
  predicate AssetsCounted(s: Store, p: Id) {
    p in s.products ==> s.products[p].assets == AssetRecount(s.relations, p)
  }

  predicate ListingCounted(s: Store, p: Id) {
    p in s.products ==> s.products[p].listing == ListingRecount(s.listings, p)
  }

  lemma AssetsInStepMeans(s: Store, p: Id)
    ensures AssetsInStep(s, p) <==> AssetsCounted(s, p)
  {
    assert RelationsOf(s.relations, p) == {} <==> forall r :: r in s.relations ==> s.relations[r].owner != p by {
      assert forall r :: r in s.relations && s.relations[r].owner == p ==> r in RelationsOf(s.relations, p);
    }
  }

  lemma ListingInStepMeans(s: Store, p: Id)
    ensures ListingInStep(s, p) <==> ListingCounted(s, p)
  {
    assert forall v :: v in s.listings && s.listings[v].product == p ==> v in VersionsOf(s.listings, p);
    assert forall v :: v in s.listings && s.listings[v].product == p && s.listings[v].status == AdoptedVersion ==> v in AdoptedOf(s.listings, p);
  }

  lemma DerivedFits(row: Product)
    ensures MainFits(row.(status := DerivedStatus(row)))
    ensures MainFits(row) ==> row.status == DerivedStatus(row)
  {
  }

  // Read from the rows: the main status of a product whose statuses are in step.
  lemma StatusFromRows(s: Store, p: Id)
    requires p in s.products && AssetsInStep(s, p) && ListingInStep(s, p) && MainInStep(s, p)
    requires s.products[p].status != Published && s.products[p].status != Archived
    ensures var shown := (exists r :: r in s.relations && s.relations[r].owner == p && s.relations[r].role == Hero)
                         && (exists r :: r in s.relations && s.relations[r].owner == p && s.relations[r].role == ModelShot);
            var adopted := exists v :: v in s.listings && s.listings[v].product == p && s.listings[v].status == AdoptedVersion;
            s.products[p].status == (if !shown then Draft else if !adopted then AssetsReady
                                     else if s.products[p].exports == ExportPrepared then ExportReady else ListingReady)
  {
  }

  // Nothing of any other product, and nothing but statuses of p, changes.
  predicate OnlyStatusesOf(s: Store, t: Store, p: Id) {
    && t.products.Keys == s.products.Keys
    && (forall q :: q in s.products && q != p ==> t.products[q] == s.products[q])
    && (p in s.products ==> t.products[p].sku == s.products[p].sku && t.products[p].title == s.products[p].title)
    && (p in s.products ==> t.products[p].exports == s.products[p].exports)
    && (p in s.products && (s.products[p].status == Published || s.products[p].status == Archived) ==> t.products[p].status == s.products[p].status)
    && t.relations == s.relations && t.listings == s.listings && t.tasks == s.tasks && t.ledger == s.ledger
  }

  // Whatever drift there was before, both resynchronisations repair it.
  lemma RefreshAssetsRepairs(s: Store, p: Id)
    ensures var t := RefreshMainStatus(RefreshAssetStatus(s, p), p);
            AssetsInStep(t, p) && MainInStep(t, p) && OnlyStatusesOf(s, t, p) && (ListingInStep(s, p) ==> ListingInStep(t, p))
  {
    hide AssetRecount, AssetsInStep, ListingInStep, DerivedStatus, MainFits, ListingRecount;
    var counted := RefreshAssetStatus(s, p);
    var t := RefreshMainStatus(counted, p);
    AssetsInStepMeans(t, p);
    ListingInStepMeans(s, p);
    ListingInStepMeans(t, p);
    if p in s.products {
      DerivedFits(counted.products[p]);
    }
  }

  lemma RefreshListingRepairs(s: Store, p: Id)
    ensures var t := RefreshMainStatus(RefreshListingStatus(s, p), p);
            ListingInStep(t, p) && MainInStep(t, p) && OnlyStatusesOf(s, t, p) && (AssetsInStep(s, p) ==> AssetsInStep(t, p))
  {
    hide AssetRecount, AssetsInStep, ListingInStep, DerivedStatus, MainFits, ListingRecount;
    var counted := RefreshListingStatus(s, p);
    var t := RefreshMainStatus(counted, p);
    ListingInStepMeans(t, p);
    AssetsInStepMeans(s, p);
    AssetsInStepMeans(t, p);
    if p in s.products {
      DerivedFits(counted.products[p]);
    }
  }

  // A prepared export shows, and the main status follows.
  lemma PreparationShows(s: Store, p: Id)
    ensures var t := SetExportPrepared(s, p);
            && MainInStep(t, p) && t == s.(products := t.products) && t.products.Keys == s.products.Keys
            && (forall q :: q in s.products && q != p ==> t.products[q] == s.products[q])
            && (p in s.products ==> t.products[p] == s.products[p].(exports := ExportPrepared, status := t.products[p].status))
            && (p in s.products && (s.products[p].status == Published || s.products[p].status == Archived) ==> t.products[p].status == s.products[p].status)
  {
    hide DerivedStatus, MainFits;
    if p in s.products {
      DerivedFits(s.products[p].(exports := ExportPrepared));
    }
  }

  // ---- Single calls ----

  // An id names its product, whatever the SKU.
  lemma FoundById(products: map<Id, Product>, p: Id, sku: string)
    ensures FindProduct(products, Some(p), sku).Some? <==> p in products
    ensures p in products ==> FindProduct(products, Some(p), sku) == Some(p)
  {
  }

  // By SKU the first product in key order with the trimmed text is found.
  lemma FoundBySku(products: map<Id, Product>, sku: string)
    ensures var r := FindProduct(products, None, sku);
            && (r.Some? <==> exists p :: p in products && products[p].sku == Trim(sku))
            && (r.Some? ==> products[r.value].sku == Trim(sku) && forall p :: p in products && products[p].sku == Trim(sku) ==> r.value <= p)
  {
    hide Trim;
    assert forall p :: p in products && products[p].sku == Trim(sku) ==> p in WithSku(products, Trim(sku));
  }

  const TRANSITIONS := {
    (Draft, AssetsReady), (Draft, Archived), (AssetsReady, Draft), (AssetsReady, ListingReady), (AssetsReady, Archived),
    (ListingReady, Draft), (ListingReady, AssetsReady), (ListingReady, ExportReady), (ListingReady, Archived),
    (ExportReady, Draft), (ExportReady, AssetsReady), (ExportReady, ListingReady), (ExportReady, Published), (ExportReady, Archived),
    (Published, Draft), (Published, AssetsReady), (Published, ListingReady), (Published, ExportReady), (Published, Archived),
    (Archived, Draft)}

  // What a status set by hand has to show for itself.
  predicate Shown(s: Store, p: Id, status: ProductStatus) {
    && (status == AssetsReady ==> exists r :: r in s.relations && s.relations[r].owner == p)
    && (status == ListingReady ==> exists v :: v in s.listings && s.listings[v].product == p && s.listings[v].status == AdoptedVersion)
    && (status == ExportReady ==> exists t :: t in s.tasks && s.tasks[t].product == p && s.tasks[t].status == TaskSucceeded)
  }

  // A status is set by hand exactly when the table allows the change and the
  // product has something to show for it; nothing else changes.
  lemma ManualChangeIff(s: Store, p: Id, to: Option<ProductStatus>)
    ensures var (t, done) := SetStatus(s, p, to);
            && (done <==> p in s.products && to.Some? && (s.products[p].status, to.value) in TRANSITIONS && Shown(s, p, to.value))
            && t == (if done then s.(products := s.products[p := s.products[p].(status := to.value)]) else s)
  {
    assert forall r :: r in s.relations && s.relations[r].owner == p ==> r in RelationsOf(s.relations, p);
    assert forall v :: v in s.listings && s.listings[v].product == p && s.listings[v].status == AdoptedVersion ==> v in AdoptedOf(s.listings, p);
    if p in s.products && to.Some? {
      TransitionsListed(s.products[p].status, to.value);
    }
  }

  lemma TransitionsListed(from: ProductStatus, to: ProductStatus)
    ensures IsValidTransition(from, to) <==> (from, to) in TRANSITIONS
  {
  }

  // An edit changes the texts that were given and nothing else.
  lemma EditReports(s: Store, p: Id, sku: string, title: string)
    ensures var (t, done) := EditProduct(s, p, sku, title);
            && (done <==> p in s.products) && t == s.(products := t.products) && t.products.Keys == s.products.Keys
            && (forall q :: q in s.products && q != p ==> t.products[q] == s.products[q])
            && (done ==> var row, next := s.products[p], t.products[p];
                  && (sku != "" ==> next.sku == sku) && (sku == "" ==> next.sku == row.sku)
                  && (title != "" ==> next.title == title) && (title == "" ==> next.title == row.title)
                  && next == row.(sku := next.sku, title := next.title))
  {
  }

  // A deleted product leaves no row behind, and every other row stays.
  lemma RemovalIsComplete(s: Store, p: Id)
    ensures var t := DeleteProduct(s, p);
            && p !in t.products && (forall q :: q != p ==> (q in t.products <==> q in s.products) && (q in s.products ==> t.products[q] == s.products[q]))
            && (forall r :: r in t.relations <==> r in s.relations && s.relations[r].owner != p) && (forall r :: r in t.relations ==> t.relations[r] == s.relations[r])
            && (forall v :: v in t.listings <==> v in s.listings && s.listings[v].product != p) && (forall v :: v in t.listings ==> t.listings[v] == s.listings[v])
            && (forall x :: x in t.tasks <==> x in s.tasks && s.tasks[x].product != p) && (forall x :: x in t.tasks ==> t.tasks[x] == s.tasks[x])
            && t.ledger == s.ledger
  {
  }
}
