/** Listing versions of a product: validated, billed, numbered, adopted one at a
    time, created and previewed in batches. */
module Listings {
  import opened Options
  import opened Text
  import opened BillingGate
  import opened ProductCenter

  // ---- Validation ----

  const MAX_TITLE := 200
  const MAX_DESCRIPTION := 2000
  const MAX_BULLETS := 5
  const MAX_BULLET := 250

  const SENSITIVE_WORDS := [
    "counterfeit", "fake", "replica", "knockoff", "weapon", "gun", "drug", "cocaine", "heroin", "porn", "adult only",
    "假货", "仿牌", "高仿", "违禁", "毒品", "枪支", "色情"]

  datatype ListingError =
    | NameRequired | TitleRequired | TitleTooLong | DescriptionTooLong | TooManyBullets | BulletTooLong
    | PlatformRequired | SiteRequired | LocaleRequired | SkuRequired | AssetsNotReady | SensitiveWord

  function SanitizedTexts(values: seq<string>): seq<string> {
    if values == [] then []
    else (if Trim(values[0]) == "" then [] else [Trim(values[0])]) + SanitizedTexts(values[1..])
  }

  function Normalised(t: ListingText): ListingText {
    ListingText(Trim(t.name), Trim(t.title), Trim(t.description), SanitizedTexts(t.bullets), SanitizedTexts(t.keywords),
                Trim(t.platform), Trim(t.site), Trim(t.locale))
  }

  predicate OccursAt(s: string, word: string, i: nat) {
    i + |word| <= |s| && s[i..i + |word|] == word
  }

  predicate Contains(s: string, word: string) {
    exists i :: 0 <= i <= |s| && OccursAt(s, word, i)
  }

  predicate Sensitive(s: string) {
    exists word :: word in SENSITIVE_WORDS && Contains(Lowered(s), word)
  }

  predicate MentionsSensitive(t: ListingText) {
    || Sensitive(t.title) || Sensitive(t.description)
    || (exists b :: b in t.bullets && Sensitive(b))
    || (exists k :: k in t.keywords && Sensitive(k))
  }

  function Validate(row: Product, t: ListingText, assetReady: bool): Option<ListingError> {
    if t.name == "" then Some(NameRequired)
    else if t.title == "" then Some(TitleRequired)
    else if |t.title| > MAX_TITLE then Some(TitleTooLong)
    else if |t.description| > MAX_DESCRIPTION then Some(DescriptionTooLong)
    else if |t.bullets| > MAX_BULLETS then Some(TooManyBullets)
    else if exists b :: b in t.bullets && |b| > MAX_BULLET then Some(BulletTooLong)
    else if t.platform == "" then Some(PlatformRequired)
    else if t.site == "" then Some(SiteRequired)
    else if t.locale == "" then Some(LocaleRequired)
    else if Trim(row.sku) == "" then Some(SkuRequired)
    else if !assetReady then Some(AssetsNotReady)
    else if MentionsSensitive(t) then Some(SensitiveWord)
    else None
  }

  predicate AssetReady(s: Store, p: Id)
    requires p in s.products
  {
    s.products[p].assets == Ready || RelationsOf(s.relations, p) != {}
  }

  // ---- Version numbers ----

  ghost function Largest(nos: set<nat>): nat {
    if nos == {} then 0
    else
      var n :| n in nos;
      var rest := Largest(nos - {n});
      if rest < n then n else rest
  }

  lemma {:induction false} LargestBounds(nos: set<nat>)
    ensures forall n :: n in nos ==> n <= Largest(nos)
    ensures nos != {} ==> Largest(nos) in nos
  {
    if nos == {} {
    } else {
      var n :| n in nos && Largest(nos) == (var rest := Largest(nos - {n}); if rest < n then n else rest);
      LargestBounds(nos - {n});
      assert nos == (nos - {n}) + {n};
    }
  }

  function NumbersOf(listings: map<Id, Listing>, p: Id): set<nat> {
    set v | v in listings && listings[v].product == p :: listings[v].versionNo
  }

  ghost function NextVersionNo(listings: map<Id, Listing>, p: Id): nat {
    Largest(NumbersOf(listings, p)) + 1
  }

  // ---- Creating a version ----

  datatype CreateReply = NewVersion(id: Id, row: Listing) | Previewed(id: Id, row: Listing) | Invalid(error: ListingError) | NotBilled(stage: Stage) {
    predicate Succeeded() {
      NewVersion? || Previewed?
    }
  }

  ghost function CreateListing(s: Store, p: Id, raw: ListingText, vid: Id, a: Answers, preview: bool): (Store, CreateReply)
    requires p in s.products
  {
    var text := Normalised(raw);
    match Validate(s.products[p], text, AssetReady(s, p))
    case Some(e) => (s, Invalid(e))
    case None =>
      var row := Listing(p, NextVersionNo(s.listings, p), text, DraftVersion);
      if preview then (s, Previewed(vid, row)) else CreateBilled(s, p, row, vid, a)
  }

  function CreateBilled(s: Store, p: Id, row: Listing, vid: Id, a: Answers): (Store, CreateReply) {
    var (ledger, stage) := BillRow(s.ledger, vid, a);
    var stored := s.(ledger := ledger, listings := if stage.RowExists() then s.listings[vid := row] else s.listings);
    if stage != Billed then (stored, NotBilled(stage))
    else (RefreshMainStatus(RefreshListingStatus(stored, p), p), NewVersion(vid, row))
  }

  // ---- Adopting and deleting ----

  datatype AdoptReply = NowAdopted | NoSuchVersion | AdoptFailed

  // lost holds the versions whose demotion write fails; those errors are ignored.
  function Demote(listings: map<Id, Listing>, p: Id, v: Id, lost: set<Id>): map<Id, Listing> {
    map x | x in listings ::
      if listings[x].product == p && x != v && listings[x].status == AdoptedVersion && x !in lost
      then listings[x].(status := ReadyVersion) else listings[x]
  }

  function Adopt(s: Store, p: Id, v: Id, lost: set<Id>, saveOk: bool): (Store, AdoptReply) {
    if v !in VersionsOf(s.listings, p) then (s, NoSuchVersion)
    else
      var demoted := Demote(s.listings, p, v, lost);
      if !saveOk then (s.(listings := demoted), AdoptFailed)
      else
        var stored := s.(listings := demoted[v := s.listings[v].(status := AdoptedVersion)]);
        (RefreshMainStatus(RefreshListingStatus(stored, p), p), NowAdopted)
  }

  function DeleteListing(s: Store, p: Id, v: Id): (Store, bool) {
    if v in AdoptedOf(s.listings, p) then (s, false)
    else
      var cut := if v in VersionsOf(s.listings, p) then s.listings - {v} else s.listings;
      (RefreshMainStatus(RefreshListingStatus(s.(listings := cut), p), p), true)
  }

  // ---- The service ----

  method NextNumber(core: ProductCore, p: Id) returns (n: nat)
    ensures n == NextVersionNo(core.listings, p)
  {
    var nos := NumbersOf(core.listings, p);
    var rest, largest := nos, 0;
    while rest != {}
      invariant rest <= nos
      invariant forall m :: m in nos - rest ==> m <= largest
      invariant largest in nos - rest || (largest == 0 && rest == nos)
    {
      var m :| m in rest;
      largest := if largest < m then m else largest;
      assert nos - (rest - {m}) == (nos - rest) + {m};
      rest := rest - {m};
    }
    assert nos - rest == nos;
    LargestBounds(nos);
    return largest + 1;
  }

  method BillListing(core: ProductCore, p: Id, row: Listing, vid: Id, a: Answers) returns (reply: CreateReply)
    modifies core
    ensures (core.Contents(), reply) == CreateBilled(old(core.Contents()), p, row, vid, a)
  {
    var gate := new Gate(core.ledger);
    var begun := gate.BeginCharge(vid, a.session, a.reserve);
    core.ledger := gate.ledger;
    if begun.None? {
      return NotBilled(NotReserved);
    }
    if !a.rowOk {
      gate.ReleaseCharge(begun.value, a.release, a.close);
      core.ledger := gate.ledger;
      return NotBilled(RowFailed);
    }
    core.listings := core.listings[vid := row];
    var stage := gate.CommitRowCharge(begun.value, a);
    core.ledger := gate.ledger;
    if stage != Billed {
      return NotBilled(stage);
    }
    core.UpdateListingStatus(p);
    core.UpdateMainStatus(p);
    return NewVersion(vid, row);
  }

  method CreateListingVersion(core: ProductCore, p: Id, raw: ListingText, vid: Id, a: Answers, preview: bool) returns (reply: CreateReply)
    requires p in core.products
    modifies core
    ensures (core.Contents(), reply) == CreateListing(old(core.Contents()), p, raw, vid, a, preview)
  {
    var text := Normalised(raw);
    var error := Validate(core.products[p], text, AssetReady(core.Contents(), p));
    if error.Some? {
      return Invalid(error.value);
    }
    var n := NextNumber(core, p);
    var row := Listing(p, n, text, DraftVersion);
    if preview {
      return Previewed(vid, row);
    }
    reply := BillListing(core, p, row, vid, a);
  }

  method AdoptListingVersion(core: ProductCore, p: Id, v: Id, lost: set<Id>, saveOk: bool) returns (reply: AdoptReply)
    modifies core
    ensures (core.Contents(), reply) == Adopt(old(core.Contents()), p, v, lost, saveOk)
  {
    if v !in VersionsOf(core.listings, p) {
      return NoSuchVersion;
    }
    ghost var before := core.Contents();
    var all := VersionsOf(core.listings, p);
    var rest := all;
    while rest != {}
      invariant rest <= all
      invariant core.listings.Keys == before.listings.Keys
      invariant forall x :: x in before.listings ==>
        core.listings[x] == if x in all - rest then Demote(before.listings, p, v, lost)[x] else before.listings[x]
      invariant core.Contents() == before.(listings := core.listings)
    {
      var x :| x in rest;
      rest := rest - {x};
      if x != v && core.listings[x].status == AdoptedVersion && x !in lost {
        core.listings := core.listings[x := core.listings[x].(status := ReadyVersion)];
      }
    }
    assert core.listings == Demote(before.listings, p, v, lost);
    if !saveOk {
      return AdoptFailed;
    }
    core.listings := core.listings[v := core.listings[v].(status := AdoptedVersion)];
    core.UpdateListingStatus(p);
    core.UpdateMainStatus(p);
    return NowAdopted;
  }

  method DeleteListingVersion(core: ProductCore, p: Id, v: Id) returns (done: bool)
    modifies core
    ensures (core.Contents(), done) == DeleteListing(old(core.Contents()), p, v)
  {
    if v in AdoptedOf(core.listings, p) {
      return false;
    }
    if v in VersionsOf(core.listings, p) {
      core.listings := core.listings - {v};
    }
    core.UpdateListingStatus(p);
    core.UpdateMainStatus(p);
    return true;
  }

  // ---- Adopted versions and numbers ----

  predicate UniqueAdopted(listings: map<Id, Listing>) {
    forall a, b ::
      a in listings && b in listings && listings[a].product == listings[b].product ==>
      listings[a].status == AdoptedVersion && listings[b].status == AdoptedVersion ==> a == b
  }

  predicate DistinctNumbers(listings: map<Id, Listing>) {
    forall a, b ::
      a in listings && b in listings && listings[a].product == listings[b].product ==>
      listings[a].versionNo == listings[b].versionNo ==> a == b
  }

  // A new version gets the largest number its product has.
  lemma NextNumberIsLargest(listings: map<Id, Listing>, p: Id, v: Id)
    requires v in listings && listings[v].product == p
    ensures listings[v].versionNo < NextVersionNo(listings, p)
  {
    LargestBounds(NumbersOf(listings, p));
    assert listings[v].versionNo in NumbersOf(listings, p);
  }

  // The table gains the new row or stays as it was.
  lemma CreateBilledInserts(s: Store, p: Id, row: Listing, vid: Id, a: Answers)
    ensures var (t, reply) := CreateBilled(s, p, row, vid, a);
            && t.listings == (if reply.NewVersion? || (reply.NotBilled? && reply.stage.RowExists()) then s.listings[vid := row] else s.listings)
            && (reply.NewVersion? ==> reply.row == row)
            && t.ledger == BillRow(s.ledger, vid, a).0
            && (reply.NewVersion? || reply.NotBilled?)
            && (reply.NewVersion? <==> BillRow(s.ledger, vid, a).1 == Billed)
            && (reply.NotBilled? ==> reply.stage == BillRow(s.ledger, vid, a).1)
  {
  }

  lemma NextKeepsNumbers(listings: map<Id, Listing>, vid: Id, row: Listing)
    requires vid !in listings && DistinctNumbers(listings) && row.versionNo == NextVersionNo(listings, row.product)
    ensures DistinctNumbers(listings[vid := row])
    ensures forall v :: v in VersionsOf(listings, row.product) ==> listings[v].versionNo < row.versionNo
  {
    forall v | v in listings && listings[v].product == row.product ensures listings[v].versionNo < row.versionNo {
      NextNumberIsLargest(listings, row.product, v);
    }
  }

  lemma CreateKeepsNumbers(s: Store, p: Id, raw: ListingText, vid: Id, a: Answers)
    requires p in s.products && vid !in s.listings && DistinctNumbers(s.listings)
    ensures var (t, reply) := CreateListing(s, p, raw, vid, a, false);
            && DistinctNumbers(t.listings)
            && (reply.NewVersion? ==>
                  && t.listings == s.listings[vid := reply.row]
                  && reply.row.product == p
                  && forall v :: v in VersionsOf(s.listings, p) ==> s.listings[v].versionNo < reply.row.versionNo)
  {
    var text := Normalised(raw);
    var error := Validate(s.products[p], text, AssetReady(s, p));
    if error.None? {
      var row := Listing(p, NextVersionNo(s.listings, p), text, DraftVersion);
      CreateBilledInserts(s, p, row, vid, a);
      NextKeepsNumbers(s.listings, vid, row);
    }
  }

  lemma CreateKeepsAdopted(s: Store, p: Id, raw: ListingText, vid: Id, a: Answers, q: Id)
    requires p in s.products && vid !in s.listings
    ensures AdoptedOf(CreateListing(s, p, raw, vid, a, false).0.listings, q) == AdoptedOf(s.listings, q)
  {
    var text := Normalised(raw);
    var error := Validate(s.products[p], text, AssetReady(s, p));
    if error.None? {
      var row := Listing(p, NextVersionNo(s.listings, p), text, DraftVersion);
      CreateBilledInserts(s, p, row, vid, a);
      assert AdoptedOf(s.listings[vid := row], q) == AdoptedOf(s.listings, q);
    }
  }

  // Adoption demotes the others and leaves exactly the target adopted.
  lemma AdoptLeavesOne(s: Store, p: Id, v: Id, q: Id)
    requires v in VersionsOf(s.listings, p)
    ensures AdoptedOf(Adopt(s, p, v, {}, true).0.listings, q) == if q == p then {v} else AdoptedOf(s.listings, q)
  {
  }

  lemma UniqueMeansOnePerProduct(listings: map<Id, Listing>)
    ensures UniqueAdopted(listings) <==> forall p, a, b :: a in AdoptedOf(listings, p) && b in AdoptedOf(listings, p) ==> a == b
  {
    if forall p, a, b :: a in AdoptedOf(listings, p) && b in AdoptedOf(listings, p) ==> a == b {
      forall a, b | a in listings && b in listings && listings[a].product == listings[b].product
          && listings[a].status == AdoptedVersion && listings[b].status == AdoptedVersion ensures a == b {
        assert a in AdoptedOf(listings, listings[a].product) && b in AdoptedOf(listings, listings[a].product);
      }
    }
  }

  lemma SameNumbersStayDistinct(before: map<Id, Listing>, after: map<Id, Listing>)
    requires DistinctNumbers(before)
    requires forall x :: x in after ==> x in before && before[x].product == after[x].product && before[x].versionNo == after[x].versionNo
    ensures DistinctNumbers(after)
  {
  }

  lemma AdoptRenumbersNothing(s: Store, p: Id, v: Id, lost: set<Id>, saveOk: bool)
    requires DistinctNumbers(s.listings)
    ensures DistinctNumbers(Adopt(s, p, v, lost, saveOk).0.listings)
  {
    SameNumbersStayDistinct(s.listings, Adopt(s, p, v, lost, saveOk).0.listings);
  }

  // With failing writes: uniqueness survives exactly when no other adopted
  // version keeps its mark while the target gets it.
  lemma AdoptKeepsUniqueIff(s: Store, p: Id, v: Id, lost: set<Id>, saveOk: bool)
    requires UniqueAdopted(s.listings) && v in VersionsOf(s.listings, p)
    ensures UniqueAdopted(Adopt(s, p, v, lost, saveOk).0.listings) <==> !saveOk || AdoptedOf(s.listings, p) * lost <= {v}
  {
    var t := Adopt(s, p, v, lost, saveOk).0;
    if saveOk {
      if !(AdoptedOf(s.listings, p) * lost <= {v}) {
        var x :| x in AdoptedOf(s.listings, p) * lost && x != v;
        assert t.listings[x].status == AdoptedVersion && t.listings[v].status == AdoptedVersion;
      } else {
        forall x | x in AdoptedOf(t.listings, p) ensures x == v {
          assert x == v || x in AdoptedOf(s.listings, p) * lost;
        }
        UniqueElsewhere(s.listings, t.listings, p);
      }
    }
  }

  // Uniqueness needs a fresh look only at the product that changed.
  lemma UniqueElsewhere(before: map<Id, Listing>, after: map<Id, Listing>, p: Id)
    requires UniqueAdopted(before)
    requires forall a, b :: a in AdoptedOf(after, p) && b in AdoptedOf(after, p) ==> a == b
    requires forall x :: x in after && after[x].product != p ==> x in before && before[x] == after[x]
    ensures UniqueAdopted(after)
  {
    forall a, b | a in after && b in after && after[a].product == after[b].product
      && after[a].status == AdoptedVersion && after[b].status == AdoptedVersion ensures a == b
    {
      if after[a].product == p {
        assert a in AdoptedOf(after, p) && b in AdoptedOf(after, p);
      }
    }
  }

  // ... and a product loses its adopted version exactly when the old one was
  // demoted and the new one not saved.
  lemma AdoptLosesIff(s: Store, p: Id, v: Id, lost: set<Id>, saveOk: bool)
    requires v in VersionsOf(s.listings, p)
    ensures AdoptedOf(Adopt(s, p, v, lost, saveOk).0.listings, p) == {} <==> !saveOk && AdoptedOf(s.listings, p) * (lost + {v}) == {}
  {
    var t := Adopt(s, p, v, lost, saveOk).0;
    if saveOk {
      assert v in AdoptedOf(t.listings, p);
    } else {
      assert AdoptedOf(t.listings, p) == AdoptedOf(s.listings, p) * (lost + {v});
    }
  }

  // Two versions of one product, the first adopted, the second to be: a lost
  // demotion leaves both adopted, and a lost save neither.
  lemma FailingAdoptions(s: Store, text: ListingText)
    requires s.listings == map[1 := Listing(5, 1, text, AdoptedVersion), 2 := Listing(5, 2, text, DraftVersion)]
    ensures UniqueAdopted(s.listings)
    ensures !UniqueAdopted(Adopt(s, 5, 2, {1}, true).0.listings)
    ensures AdoptedOf(s.listings, 5) == {1} && AdoptedOf(Adopt(s, 5, 2, {}, false).0.listings, 5) == {}
  {
    assert 2 in VersionsOf(s.listings, 5);
    assert AdoptedOf(s.listings, 5) == {1};
    AdoptKeepsUniqueIff(s, 5, 2, {1}, true);
    AdoptLosesIff(s, 5, 2, {}, false);
  }

  // ---- Charging ----

  // A valid version is created exactly when every answer up to the settled
  // session was good; any later failure releases its reservation once.
  lemma CreationIsCharged(s: Store, p: Id, raw: ListingText, vid: Id, a: Answers)
    requires p in s.products && FreshFor(s.ledger, vid, a)
    ensures var (t, reply) := CreateListing(s, p, raw, vid, a, false);
            && (reply.Invalid? ==> t == s)
            && (!reply.Invalid? ==> (reply.NewVersion? <==> s.ledger.available > 0 && Willing(a)))
            && (reply.NewVersion? ==> vid in t.ledger.settlements)
            && t.ledger.releaseRequests ==
                 s.ledger.releaseRequests +
                 (if reply.NotBilled? && reply.stage.FailedAfterReserve() && a.reserve.ReserveMade? then [a.reserve.id] else [])
  {
    var text := Normalised(raw);
    var error := Validate(s.products[p], text, AssetReady(s, p));
    if error.None? {
      var row := Listing(p, NextVersionNo(s.listings, p), text, DraftVersion);
      CreateBilledInserts(s, p, row, vid, a);
      BillRowReleasesOnce(s.ledger, vid, a);
    }
  }

  // ---- Status resynchronisation ----

  // A listing call that returns without an error repairs the listing and main
  // status.
  lemma CreationRepairs(s: Store, p: Id, raw: ListingText, v: Id, a: Answers)
    requires p in s.products
    ensures var (t, reply) := CreateListing(s, p, raw, v, a, false); reply.Succeeded() ==> ListingInStep(t, p) && MainInStep(t, p)
  {
    hide ListingInStep, MainInStep, AssetsInStep, OnlyStatusesOf, ListingRecount, DerivedStatus, Validate, Normalised, BillRow, AssetReady;
    var text := Normalised(raw);
    var row := Listing(p, NextVersionNo(s.listings, p), text, DraftVersion);
    RefreshListingRepairs(s.(ledger := BillRow(s.ledger, v, a).0, listings := s.listings[v := row]), p);
  }

  lemma AdoptionRepairs(s: Store, p: Id, v: Id, lost: set<Id>, saveOk: bool)
    ensures var (t, reply) := Adopt(s, p, v, lost, saveOk); reply == NowAdopted ==> ListingInStep(t, p) && MainInStep(t, p)
  {
    hide ListingInStep, MainInStep, AssetsInStep, OnlyStatusesOf, ListingRecount, DerivedStatus;
    if v in VersionsOf(s.listings, p) {
      RefreshListingRepairs(s.(listings := Demote(s.listings, p, v, lost)[v := s.listings[v].(status := AdoptedVersion)]), p);
    }
  }

  lemma DeletionRepairs(s: Store, p: Id, v: Id)
    ensures var (t, done) := DeleteListing(s, p, v); done ==> ListingInStep(t, p) && MainInStep(t, p)
  {
    hide ListingInStep, MainInStep, AssetsInStep, OnlyStatusesOf, ListingRecount, DerivedStatus;
    RefreshListingRepairs(s.(listings := if v in VersionsOf(s.listings, p) then s.listings - {v} else s.listings), p);
  }

  // ---- What a version needs ----

  // Where the texts from the nth on are not blank.
  function Given(values: seq<string>, n: nat): set<int> {
    set i | n <= i < |values| && Trim(values[i]) != ""
  }

  ghost predicate Says(text: string, word: string) {
    exists before: string, after: string :: Lowered(text) == before + word + after
  }

  // Some word of the list occurs in a title, description, bullet or keyword,
  // whatever its case.
  ghost predicate SaysSensitive(raw: ListingText) {
    exists word :: word in SENSITIVE_WORDS &&
      (|| Says(Trim(raw.title), word) || Says(Trim(raw.description), word)
       || (exists i :: 0 <= i < |raw.bullets| && Says(Trim(raw.bullets[i]), word))
       || (exists i :: 0 <= i < |raw.keywords| && Says(Trim(raw.keywords[i]), word)))
  }

  // What is wrong with the text that was given, or with its product.
  ghost predicate Fault(s: Store, p: Id, raw: ListingText, e: ListingError)
    requires p in s.products
  {
    match e
    case NameRequired => Trim(raw.name) == ""
    case TitleRequired => Trim(raw.title) == ""
    case TitleTooLong => |Trim(raw.title)| > 200
    case DescriptionTooLong => |Trim(raw.description)| > 2000
    case TooManyBullets => |Given(raw.bullets, 0)| > 5
    case BulletTooLong => exists i :: 0 <= i < |raw.bullets| && |Trim(raw.bullets[i])| > 250
    case PlatformRequired => Trim(raw.platform) == ""
    case SiteRequired => Trim(raw.site) == ""
    case LocaleRequired => Trim(raw.locale) == ""
    case SkuRequired => Trim(s.products[p].sku) == ""
    case AssetsNotReady => s.products[p].assets != Ready && forall r :: r in s.relations ==> s.relations[r].owner != p
    case SensitiveWord => SaysSensitive(raw)
  }

  // The order in which faults are reported.
  function Rank(e: ListingError): nat {
    match e
    case NameRequired => 0
    case TitleRequired => 1
    case TitleTooLong => 2
    case DescriptionTooLong => 3
    case TooManyBullets => 4
    case BulletTooLong => 5
    case PlatformRequired => 6
    case SiteRequired => 7
    case LocaleRequired => 8
    case SkuRequired => 9
    case AssetsNotReady => 10
    case SensitiveWord => 11
  }

  lemma {:induction false} SanitizedMeans(values: seq<string>, n: nat)
    requires n <= |values|
    ensures |SanitizedTexts(values[n..])| == |Given(values, n)|
    ensures forall x :: x in SanitizedTexts(values[n..]) <==> exists i :: i in Given(values, n) && Trim(values[i]) == x
    decreases |values| - n
  {
    hide Trim;
    if n < |values| {
      SanitizedMeans(values, n + 1);
      assert values[n..][1..] == values[n + 1..];
      assert Given(values, n) == Given(values, n + 1) + (if Trim(values[n]) != "" then {n} else {});
    }
  }

  lemma SanitizedAll(values: seq<string>)
    ensures |SanitizedTexts(values)| == |Given(values, 0)|
    ensures forall x :: x in SanitizedTexts(values) <==> x != "" && exists i :: 0 <= i < |values| && Trim(values[i]) == x
  {
    hide Trim;
    SanitizedMeans(values, 0);
    assert values[0..] == values;
    forall i | 0 <= i < |values| && Trim(values[i]) != "" ensures i in Given(values, 0) {}
  }

  lemma ContainsSays(s: string, word: string)
    ensures Contains(Lowered(s), word) <==> Says(s, word)
  {
    hide Lowered;
    var l := Lowered(s);
    if Contains(l, word) {
      var i :| 0 <= i <= |l| && OccursAt(l, word, i);
      assert l == l[..i] + word + l[i + |word|..];
    }
    if Says(s, word) {
      var before: string, after: string :| l == before + word + after;
      assert l[|before|..|before| + |word|] == word;
      assert OccursAt(l, word, |before|);
    }
  }

  lemma SensitiveSays(text: string)
    ensures Sensitive(text) <==> exists word :: word in SENSITIVE_WORDS && Says(text, word)
    ensures text == "" ==> !Sensitive(text)
  {
    hide Lowered, Contains, Says;
    forall word {
      ContainsSays(text, word);
    }
    if text == "" {
      NothingIsSensitive();
    }
  }

  lemma NothingIsSensitive()
    ensures !Sensitive("")
  {
    forall word | word in SENSITIVE_WORDS ensures !Contains(Lowered(""), word) {
      assert |word| > 0 && Lowered("") == "";
    }
  }

  // Blank texts are dropped, and a blank text names no word.
  lemma SanitizedSensitive(values: seq<string>)
    ensures (exists x :: x in SanitizedTexts(values) && Sensitive(x)) <==> exists i :: 0 <= i < |values| && Sensitive(Trim(values[i]))
  {
    hide Trim, Sensitive, SanitizedTexts;
    SanitizedAll(values);
    NothingIsSensitive();
    if i :| 0 <= i < |values| && Sensitive(Trim(values[i])) {
      assert Trim(values[i]) in SanitizedTexts(values);
    }
  }

  lemma SensitiveMeans(raw: ListingText)
    ensures MentionsSensitive(Normalised(raw)) <==> SaysSensitive(raw)
  {
    hide Trim, Sensitive, Says, SanitizedTexts;
    SanitizedSensitive(raw.bullets);
    SanitizedSensitive(raw.keywords);
    forall text {
      SensitiveSays(text);
    }
  }

  // The first fault is reported, and none iff there is none.
  lemma FaultsAreReported(s: Store, p: Id, raw: ListingText)
    requires p in s.products
    ensures var error := Validate(s.products[p], Normalised(raw), AssetReady(s, p));
            && (error.None? <==> forall e :: !Fault(s, p, raw, e))
            && (error.Some? ==> Fault(s, p, raw, error.value) && forall e :: Rank(e) < Rank(error.value) ==> !Fault(s, p, raw, e))
  {
    hide Trim, SaysSensitive, MentionsSensitive, SanitizedTexts, Given, RelationsOf;
    SanitizedAll(raw.bullets);
    SensitiveMeans(raw);
    NoRelations(s, p);
    LongBullets(raw.bullets);
    var error := Validate(s.products[p], Normalised(raw), AssetReady(s, p));
    if error.Some? {
      assert Fault(s, p, raw, error.value);
    }
  }

  lemma NoRelations(s: Store, p: Id)
    ensures RelationsOf(s.relations, p) == {} <==> forall r :: r in s.relations ==> s.relations[r].owner != p
  {
    assert forall r :: r in RelationsOf(s.relations, p) <==> r in s.relations && s.relations[r].owner == p;
  }

  lemma LongBullets(bullets: seq<string>)
    ensures (exists x :: x in SanitizedTexts(bullets) && |x| > 250) <==> exists i :: 0 <= i < |bullets| && |Trim(bullets[i])| > 250
  {
    hide Trim, SanitizedTexts;
    SanitizedAll(bullets);
    if i :| 0 <= i < |bullets| && |Trim(bullets[i])| > 250 {
      assert Trim(bullets[i]) in SanitizedTexts(bullets);
    }
  }

  lemma Associates(x: seq<string>, y: seq<string>, z: seq<string>)
    ensures (x + y) + z == x + (y + z)
  {
  }

  // Sanitizing keeps the order.
  lemma {:induction false} SanitizedInOrder(a: seq<string>, b: seq<string>)
    ensures SanitizedTexts(a + b) == SanitizedTexts(a) + SanitizedTexts(b)
  {
    hide Trim;
    if a == [] {
      assert a + b == b;
    } else {
      SanitizedInOrder(a[1..], b);
      assert (a + b)[1..] == a[1..] + b && (a + b)[0] == a[0];
      Associates(if Trim(a[0]) == "" then [] else [Trim(a[0])], SanitizedTexts(a[1..]), SanitizedTexts(b));
    }
  }

  // ---- What a call reports ----

  // One more than the largest number among p's versions, or the first.
  predicate IsNext(listings: map<Id, Listing>, p: Id, n: nat) {
    && (forall v :: v in listings && listings[v].product == p ==> listings[v].versionNo < n)
    && (n == 1 || exists v :: v in listings && listings[v].product == p && listings[v].versionNo == n - 1)
  }

  lemma NextIsNext(listings: map<Id, Listing>, p: Id)
    ensures IsNext(listings, p, NextVersionNo(listings, p))
  {
    var nos := NumbersOf(listings, p);
    LargestBounds(nos);
    forall v | v in listings && listings[v].product == p ensures listings[v].versionNo < NextVersionNo(listings, p) {
      NextNumberIsLargest(listings, p, v);
    }
  }

  // The version asked for, under the next number and as a draft.
  predicate AsAsked(s: Store, p: Id, raw: ListingText, row: Listing) {
    && IsNext(s.listings, p, row.versionNo) && row.product == p && row.status == DraftVersion
    && row.text.name == Trim(raw.name) && row.text.title == Trim(raw.title) && row.text.description == Trim(raw.description)
    && row.text.bullets == SanitizedTexts(raw.bullets) && row.text.keywords == SanitizedTexts(raw.keywords)
    && row.text.platform == Trim(raw.platform) && row.text.site == Trim(raw.site) && row.text.locale == Trim(raw.locale)
  }

  // A call is refused with the first fault, iff there is a fault, and then
  // changes nothing; neither does a preview. Otherwise the version is shown, or
  // billed and stored.
  lemma CreationReports(s: Store, p: Id, raw: ListingText, vid: Id, a: Answers, preview: bool)
    requires p in s.products
    ensures var (t, reply) := CreateListing(s, p, raw, vid, a, preview);
            && (reply.Invalid? <==> exists e :: Fault(s, p, raw, e))
            && (reply.Invalid? ==> Fault(s, p, raw, reply.error) && forall e :: Rank(e) < Rank(reply.error) ==> !Fault(s, p, raw, e))
            && (reply.Invalid? || preview ==> t == s)
            && (reply.Previewed? <==> preview && !reply.Invalid?)
            && (reply.Succeeded() ==> reply.id == vid && AsAsked(s, p, raw, reply.row))
            && (reply.NewVersion? ==> t.listings == s.listings[vid := reply.row])
  {
    hide Fault, Rank, Validate, AssetReady, BillRow, ListingRecount, DerivedStatus;
    FaultsAreReported(s, p, raw);
    NextIsNext(s.listings, p);
    if !preview && Validate(s.products[p], Normalised(raw), AssetReady(s, p)).None? {
      CreateBilledInserts(s, p, Listing(p, NextVersionNo(s.listings, p), Normalised(raw), DraftVersion), vid, a);
    }
  }

  // An adoption needs a version of p; demoted versions become ready, and no
  // other field and no other version changes.
  lemma AdoptionReports(s: Store, p: Id, v: Id, lost: set<Id>, saveOk: bool)
    ensures var (t, reply) := Adopt(s, p, v, lost, saveOk);
            && (reply == NoSuchVersion <==> !(v in s.listings && s.listings[v].product == p))
            && (reply == NoSuchVersion ==> t == s)
            && (reply == AdoptFailed <==> reply != NoSuchVersion && !saveOk)
            && t.listings.Keys == s.listings.Keys
            && (reply != NoSuchVersion ==>
                  forall x :: x in s.listings ==>
                    && t.listings[x].(status := s.listings[x].status) == s.listings[x]
                    && t.listings[x].status ==
                         if x == v then if saveOk then AdoptedVersion else s.listings[v].status
                         else if s.listings[x].product == p && s.listings[x].status == AdoptedVersion && x !in lost then ReadyVersion
                         else s.listings[x].status)
  {
    hide ListingRecount, DerivedStatus;
  }

  // Only an adopted version of p is refused; otherwise a version of p goes, and
  // nothing else does.
  lemma DeletionReports(s: Store, p: Id, v: Id)
    ensures var (t, done) := DeleteListing(s, p, v);
            var own := v in s.listings && s.listings[v].product == p;
            && (done <==> !(own && s.listings[v].status == AdoptedVersion))
            && (!done ==> t == s)
            && t.listings == if done && own then s.listings - {v} else s.listings
  {
    hide ListingRecount, DerivedStatus;
  }
}
