/** Reconciliation of the template catalogue with the built-in seed: obsolete
    seed rows are deleted with all that depends on them, the remaining seed rows
    are upserted, and their locales, version, schema and examples are rewritten.
    The whole reconciliation is one transaction. */
module TemplateSeed {
  import opened Options

  datatype ManagedSource = SeedBuiltin | OpsManual | OtherSource(name: string)

  datatype Catalog = Catalog(
    slug: string,
    official: bool,
    managed: ManagedSource,
    ownerTeam: string,
    createdBy: string,
    currentVersion: Id,
    content: string)

  datatype Locale = Locale(catalog: Id, text: string)
  datatype Version = Version(catalog: Id, name: string)
  datatype Schema = Schema(version: Id, json: string)
  datatype Example = Example(version: Id, title: string)
  datatype Favorite = Favorite(catalog: Id, user: Id)
  datatype Usage = Usage(catalog: Id, version: Id)

  datatype Tables = Tables(
    catalogs: map<Id, Catalog>,
    locales: map<Id, Locale>,
    versions: map<Id, Version>,
    schemas: map<Id, Schema>,
    examples: map<Id, Example>,
    favorites: map<Id, Favorite>,
    usages: map<Id, Usage>)

  // One entry of the seed. The dependent rows are keyed by their own ids.
  datatype SeedItem = SeedItem(
    id: Id,
    catalog: Catalog,
    locales: map<Id, string>,
    versionId: Id,
    versionLabel: string,
    schemaId: Id,
    schemaJson: string,
    examples: map<Id, string>)

  // ---- Specification ----

  function SeedIds(items: seq<SeedItem>): set<Id> {
    set i | 0 <= i < |items| :: items[i].id
  }

  predicate Obsolete(row: Catalog, id: Id, ids: set<Id>) {
    row.official && row.managed == SeedBuiltin && id !in ids
  }

  function ObsoleteIds(catalogs: map<Id, Catalog>, items: seq<SeedItem>): set<Id> {
    if items == [] then {} else set c | c in catalogs && Obsolete(catalogs[c], c, SeedIds(items))
  }

  function VersionsOf(versions: map<Id, Version>, ids: set<Id>): set<Id> {
    set v | v in versions && versions[v].catalog in ids
  }

  function WithoutVersions(t: Tables, gone: set<Id>): Tables {
    t.(examples := map e | e in t.examples && t.examples[e].version !in gone :: t.examples[e],
       schemas := map s | s in t.schemas && t.schemas[s].version !in gone :: t.schemas[s])
  }

  function WithoutLocales(locales: map<Id, Locale>, ids: set<Id>): map<Id, Locale> {
    map l | l in locales && locales[l].catalog !in ids :: locales[l]
  }

  function RemoveObsolete(t: Tables, items: seq<SeedItem>): Tables {
    var ids := ObsoleteIds(t.catalogs, items);
    var gone := VersionsOf(t.versions, ids);
    WithoutVersions(t, gone).(
      favorites := map f | f in t.favorites && t.favorites[f].catalog !in ids :: t.favorites[f],
      usages := map u | u in t.usages && t.usages[u].catalog !in ids :: t.usages[u],
      locales := WithoutLocales(t.locales, ids),
      versions := t.versions - gone,
      catalogs := t.catalogs - ids)
  }

  function SeedRow(item: SeedItem): Catalog {
    item.catalog.(currentVersion := item.versionId)
  }

  // System-owned official rows that were switched to manual management.
  predicate Drifted(row: Catalog) {
    row.managed == OpsManual && row.official && row.ownerTeam == "agent-ecommerce" && row.createdBy == "system"
  }

  function Repair(row: Catalog): Catalog {
    if Drifted(row) then row.(managed := SeedBuiltin) else row
  }

  predicate SlugTaken(catalogs: map<Id, Catalog>, id: Id, slug: string) {
    exists c :: c in catalogs && c != id && catalogs[c].slug == slug
  }

  // INSERT ... ON CONFLICT (id) DO UPDATE ... WHERE managed_source = 'seed_builtin'
  function Upsert(catalogs: map<Id, Catalog>, item: SeedItem): Option<map<Id, Catalog>> {
    if item.id in catalogs && catalogs[item.id].managed != SeedBuiltin then Some(catalogs)
    else if SlugTaken(catalogs, item.id, item.catalog.slug) then None
    else Some(catalogs[item.id := SeedRow(item)])
  }

  function LocaleRows(item: SeedItem): map<Id, Locale> {
    map l | l in item.locales :: Locale(item.id, item.locales[l])
  }

  function ExampleRows(item: SeedItem): map<Id, Example> {
    map e | e in item.examples :: Example(item.versionId, item.examples[e])
  }

  // A new row needs an unused primary key; a schema also needs an unused version.
  predicate CanInsert(t: Tables, item: SeedItem) {
    && t.locales.Keys !! item.locales.Keys
    && item.versionId !in t.versions
    && item.schemaId !in t.schemas
    && (forall s :: s in t.schemas ==> t.schemas[s].version != item.versionId)
    && t.examples.Keys !! item.examples.Keys
  }

  function Insert(t: Tables, item: SeedItem): Tables {
    t.(locales := t.locales + LocaleRows(item),
       versions := t.versions[item.versionId := Version(item.id, item.versionLabel)],
       schemas := t.schemas[item.schemaId := Schema(item.versionId, item.schemaJson)],
       examples := t.examples + ExampleRows(item))
  }

  function WithoutDependents(t: Tables, id: Id): Tables {
    var gone := VersionsOf(t.versions, {id});
    WithoutVersions(t, gone).(
      locales := WithoutLocales(t.locales, {id}),
      versions := t.versions - gone)
  }

  // The upsert, and the repair of a drifted row.
  function WriteRow(t: Tables, item: SeedItem): Option<Tables> {
    match Upsert(t.catalogs, item)
    case None => None
    case Some(catalogs) => Some(t.(catalogs := catalogs[item.id := Repair(catalogs[item.id])]))
  }

  function RewriteDependents(t: Tables, item: SeedItem): Option<Tables> {
    var cleared := WithoutDependents(t, item.id);
    if CanInsert(cleared, item) then Some(Insert(cleared, item)) else None
  }

  function SeedOne(t: Tables, item: SeedItem): Option<Tables> {
    match WriteRow(t, item)
    case None => None
    case Some(u) => if u.catalogs[item.id].managed != SeedBuiltin then Some(u) else RewriteDependents(u, item)
  }

  // The first n items.
  function SeedAll(t: Tables, items: seq<SeedItem>, n: nat): Option<Tables>
    requires n <= |items|
  {
    if n == 0 then Some(t)
    else
      match SeedAll(t, items, n - 1)
      case None => None
      case Some(u) => SeedOne(u, items[n - 1])
  }

  // The tables after the call, and whether the transaction was committed.
  function Reconcile(t: Tables, items: seq<SeedItem>): (Tables, bool) {
    match SeedAll(RemoveObsolete(t, items), items, |items|)
    case None => (t, false)
    case Some(u) => (u, true)
  }

  // ---- The repository ----

  class TemplateCenterRepository {
    var catalogs: map<Id, Catalog>
    var locales: map<Id, Locale>
    var versions: map<Id, Version>
    var schemas: map<Id, Schema>
    var examples: map<Id, Example>
    var favorites: map<Id, Favorite>
    var usages: map<Id, Usage>

    ghost function All(): Tables
      reads this
    {
      Tables(catalogs, locales, versions, schemas, examples, favorites, usages)
    }

    method DeleteObsolete(items: seq<SeedItem>)
      modifies this
      ensures All() == RemoveObsolete(old(All()), items)
    {
      hide ObsoleteIds, VersionsOf;
      var ids := ObsoleteIds(catalogs, items);
      var gone := VersionsOf(versions, ids);
      examples := map e | e in examples && examples[e].version !in gone :: examples[e];
      schemas := map s | s in schemas && schemas[s].version !in gone :: schemas[s];
      favorites := map f | f in favorites && favorites[f].catalog !in ids :: favorites[f];
      usages := map u | u in usages && usages[u].catalog !in ids :: usages[u];
      locales := map l | l in locales && locales[l].catalog !in ids :: locales[l];
      versions := versions - gone;
      catalogs := catalogs - ids;
    }

    // Delete the rows that depend on one catalogue.
    method DeleteDependents(id: Id)
      modifies this`locales, this`versions, this`schemas, this`examples
      ensures All() == WithoutDependents(old(All()), id)
    {
      locales := WithoutLocales(locales, {id});
      var existing := VersionsOf(versions, {id});
      examples := map e | e in examples && examples[e].version !in existing :: examples[e];
      schemas := map s | s in schemas && schemas[s].version !in existing :: schemas[s];
      versions := versions - existing;
    }

    // Insert the item's rows; a row whose key is taken fails the transaction.
    method InsertDependents(item: SeedItem) returns (ok: bool)
      modifies this`locales, this`versions, this`schemas, this`examples
      ensures ok == CanInsert(old(All()), item)
      ensures ok ==> All() == Insert(old(All()), item)
    {
      if exists l :: l in item.locales && l in locales {
        return false;
      }
      locales := locales + LocaleRows(item);
      if item.versionId in versions {
        return false;
      }
      versions := versions[item.versionId := Version(item.id, item.versionLabel)];
      if item.schemaId in schemas || exists s :: s in schemas && schemas[s].version == item.versionId {
        return false;
      }
      schemas := schemas[item.schemaId := Schema(item.versionId, item.schemaJson)];
      if exists e :: e in item.examples && e in examples {
        return false;
      }
      examples := examples + ExampleRows(item);
      return true;
    }

    method SeedItemRows(item: SeedItem) returns (ok: bool)
      modifies this
      ensures ok == SeedOne(old(All()), item).Some?
      ensures ok ==> All() == SeedOne(old(All()), item).value
    {
      var upserted := Upsert(catalogs, item);
      if upserted.None? {
        return false;
      }
      catalogs := upserted.value;
      var existing := catalogs[item.id];
      if Drifted(existing) {
        existing := existing.(managed := SeedBuiltin);
      }
      catalogs := catalogs[item.id := existing];
      if existing.managed != SeedBuiltin {
        return true;
      }
      DeleteDependents(item.id);
      ok := InsertDependents(item);
    }

    method SeedItems(items: seq<SeedItem>) returns (ok: bool)
      modifies this
      ensures ok == SeedAll(old(All()), items, |items|).Some?
      ensures ok ==> All() == SeedAll(old(All()), items, |items|).value
    {
      hide SeedOne;
      ghost var before := All();
      var i := 0;
      while i < |items|
        invariant 0 <= i <= |items|
        invariant SeedAll(before, items, i) == Some(All())
      {
        var done := SeedItemRows(items[i]);
        i := i + 1;
        if !done {
          FailureIsFinal(before, items, i, |items|);
          return false;
        }
      }
      return true;
    }

    method SeedIfEmpty(items: seq<SeedItem>) returns (ok: bool)
      modifies this
      ensures (All(), ok) == Reconcile(old(All()), items)
    {
      var c, l, v, s, e, f, u := catalogs, locales, versions, schemas, examples, favorites, usages;
      DeleteObsolete(items);
      ok := SeedItems(items);
      if !ok {
        catalogs, locales, versions, schemas, examples, favorites, usages := c, l, v, s, e, f, u;
      }
    }
  }

  lemma {:induction false} FailureIsFinal(t: Tables, items: seq<SeedItem>, i: nat, n: nat)
    requires i <= n <= |items| && SeedAll(t, items, i).None?
    ensures SeedAll(t, items, n).None?
  {
    if i < n {
      FailureIsFinal(t, items, i, n - 1);
    }
  }

  // ---- Frame ----

  // Neither deleted as obsolete nor rewritten as a seed row.
  predicate Unmanaged(t: Tables, items: seq<SeedItem>, c: Id) {
    && c in t.catalogs
    && c !in ObsoleteIds(t.catalogs, items)
    && (c in SeedIds(items) ==> t.catalogs[c].managed != SeedBuiltin && !Drifted(t.catalogs[c]))
  }

  // Rows that belong to catalogue c.
  predicate OwnLocale(t: Tables, c: Id, l: Id) {
    l in t.locales && t.locales[l].catalog == c
  }

  predicate OwnVersion(t: Tables, c: Id, v: Id) {
    v in t.versions && t.versions[v].catalog == c
  }

  predicate OwnSchema(t: Tables, c: Id, s: Id) {
    s in t.schemas && OwnVersion(t, c, t.schemas[s].version)
  }

  predicate OwnExample(t: Tables, c: Id, e: Id) {
    e in t.examples && OwnVersion(t, c, t.examples[e].version)
  }

  predicate OwnFavorite(t: Tables, c: Id, f: Id) {
    f in t.favorites && t.favorites[f].catalog == c
  }

  predicate OwnUsage(t: Tables, c: Id, u: Id) {
    u in t.usages && t.usages[u].catalog == c
  }

  predicate SameRow(t: Tables, u: Tables, c: Id) {
    (c in t.catalogs <==> c in u.catalogs) && (c in t.catalogs ==> u.catalogs[c] == t.catalogs[c])
  }

  ghost predicate SameLocales(t: Tables, u: Tables, c: Id) {
    forall l :: OwnLocale(t, c, l) || OwnLocale(u, c, l) ==> OwnLocale(t, c, l) && OwnLocale(u, c, l) && u.locales[l] == t.locales[l]
  }

  ghost predicate SameVersions(t: Tables, u: Tables, c: Id) {
    forall v :: OwnVersion(t, c, v) || OwnVersion(u, c, v) ==> OwnVersion(t, c, v) && OwnVersion(u, c, v) && u.versions[v] == t.versions[v]
  }

  ghost predicate SameSchemas(t: Tables, u: Tables, c: Id) {
    forall s :: OwnSchema(t, c, s) || OwnSchema(u, c, s) ==> OwnSchema(t, c, s) && OwnSchema(u, c, s) && u.schemas[s] == t.schemas[s]
  }

  ghost predicate SameExamples(t: Tables, u: Tables, c: Id) {
    forall e :: OwnExample(t, c, e) || OwnExample(u, c, e) ==> OwnExample(t, c, e) && OwnExample(u, c, e) && u.examples[e] == t.examples[e]
  }

  ghost predicate SameUses(t: Tables, u: Tables, c: Id) {
    && (forall f :: OwnFavorite(t, c, f) || OwnFavorite(u, c, f) ==> OwnFavorite(t, c, f) && OwnFavorite(u, c, f) && u.favorites[f] == t.favorites[f])
    && (forall x :: OwnUsage(t, c, x) || OwnUsage(u, c, x) ==> OwnUsage(t, c, x) && OwnUsage(u, c, x) && u.usages[x] == t.usages[x])
  }

  // The two tables hold the same dependents of catalogue c.
  ghost predicate SameDependents(t: Tables, u: Tables, c: Id) {
    SameLocales(t, u, c) && SameVersions(t, u, c) && SameSchemas(t, u, c) && SameExamples(t, u, c) && SameUses(t, u, c)
  }

  ghost predicate SameSlice(t: Tables, u: Tables, c: Id) {
    SameRow(t, u, c) && SameDependents(t, u, c)
  }

  lemma FilteringKeepsAttached(t: Tables, u: Tables, gone: set<Id>, c: Id)
    requires SameVersions(t, u, c)
    requires u.schemas == WithoutVersions(t, gone).schemas && u.examples == WithoutVersions(t, gone).examples
    requires forall v :: OwnVersion(t, c, v) ==> v !in gone
    ensures SameSchemas(t, u, c) && SameExamples(t, u, c)
  {
  }

  lemma ClearingKeepsOtherSlices(t: Tables, id: Id, c: Id)
    requires c != id
    ensures SameSlice(t, WithoutDependents(t, id), c)
  {
    var u := WithoutDependents(t, id);
    assert SameVersions(t, u, c) by {
      assert forall v :: OwnVersion(t, c, v) ==> v in u.versions && u.versions[v] == t.versions[v];
    }
    FilteringKeepsAttached(t, u, VersionsOf(t.versions, {id}), c);
  }

  lemma InsertKeepsAttached(t: Tables, item: SeedItem, c: Id)
    requires CanInsert(t, item) && c != item.id
    ensures SameVersions(t, Insert(t, item), c)
    ensures SameSchemas(t, Insert(t, item), c)
    ensures SameExamples(t, Insert(t, item), c)
  {
    hide LocaleRows;
    var u := Insert(t, item);
    assert forall v :: OwnVersion(u, c, v) <==> OwnVersion(t, c, v);
    assert forall s :: OwnSchema(u, c, s) ==> s != item.schemaId;
    assert forall s :: OwnSchema(t, c, s) ==> s != item.schemaId && OwnSchema(u, c, s);
  }

  lemma InsertKeepsOtherSlices(t: Tables, item: SeedItem, c: Id)
    requires CanInsert(t, item) && c != item.id
    ensures SameSlice(t, Insert(t, item), c)
  {
    InsertKeepsAttached(t, item, c);
  }

  lemma SameDependentsIsTransitive(t: Tables, u: Tables, w: Tables, c: Id)
    requires SameDependents(t, u, c) && SameDependents(u, w, c)
    ensures SameDependents(t, w, c)
  {
  }

  lemma SeedOneKeepsOtherSlices(t: Tables, item: SeedItem, c: Id)
    requires SeedOne(t, item).Some? && c != item.id
    ensures SameSlice(t, SeedOne(t, item).value, c)
  {
    var u := WriteRow(t, item).value;
    assert SameDependents(t, u, c);
    if u.catalogs[item.id].managed == SeedBuiltin {
      var cleared := WithoutDependents(u, item.id);
      ClearingKeepsOtherSlices(u, item.id, c);
      InsertKeepsOtherSlices(cleared, item, c);
      SameDependentsIsTransitive(u, cleared, Insert(cleared, item), c);
      SameDependentsIsTransitive(t, u, Insert(cleared, item), c);
    }
  }

  lemma SeedOneSkipsUnmanaged(t: Tables, item: SeedItem)
    requires SeedOne(t, item).Some?
    requires item.id in t.catalogs && t.catalogs[item.id].managed != SeedBuiltin && !Drifted(t.catalogs[item.id])
    ensures SeedOne(t, item).value == t
  {
  }

  lemma {:induction false} SeedAllKeepsUnmanaged(t: Tables, items: seq<SeedItem>, n: nat, c: Id)
    requires n <= |items| && SeedAll(t, items, n).Some?
    requires c in t.catalogs && (c in SeedIds(items) ==> t.catalogs[c].managed != SeedBuiltin && !Drifted(t.catalogs[c]))
    ensures SameSlice(t, SeedAll(t, items, n).value, c)
  {
    hide SeedOne, SameDependents;
    if n == 0 {
      SameSliceIsReflexive(t, c);
    } else {
      SeedAllKeepsUnmanaged(t, items, n - 1, c);
      var u := SeedAll(t, items, n - 1).value;
      if items[n - 1].id == c {
        SeedOneSkipsUnmanaged(u, items[n - 1]);
      } else {
        SeedOneKeepsOtherSlices(u, items[n - 1], c);
        SameDependentsIsTransitive(t, u, SeedAll(t, items, n).value, c);
      }
    }
  }

  lemma SameSliceIsReflexive(t: Tables, c: Id)
    ensures SameSlice(t, t, c)
  {
  }

  lemma PruningKeepsOwned(t: Tables, items: seq<SeedItem>, c: Id)
    requires c !in ObsoleteIds(t.catalogs, items)
    ensures SameRow(t, RemoveObsolete(t, items), c) && SameLocales(t, RemoveObsolete(t, items), c)
    ensures SameVersions(t, RemoveObsolete(t, items), c) && SameUses(t, RemoveObsolete(t, items), c)
  {
    hide ObsoleteIds, WithoutVersions;
    var u := RemoveObsolete(t, items);
    assert SameVersions(t, u, c) by {
      assert forall v :: OwnVersion(t, c, v) ==> v in u.versions && u.versions[v] == t.versions[v];
    }
  }

  lemma RemoveObsoleteKeepsOthers(t: Tables, items: seq<SeedItem>, c: Id)
    requires c !in ObsoleteIds(t.catalogs, items)
    ensures SameSlice(t, RemoveObsolete(t, items), c)
  {
    hide ObsoleteIds, SameLocales, SameVersions, SameSchemas, SameExamples, SameUses, SameRow;
    PruningKeepsOwned(t, items, c);
    FilteringKeepsAttached(t, RemoveObsolete(t, items), VersionsOf(t.versions, ObsoleteIds(t.catalogs, items)), c);
  }

  // Rows managed by anyone else, and all their dependents, are untouched.
  lemma UnmanagedRowsAreUntouched(t: Tables, items: seq<SeedItem>, c: Id)
    requires Unmanaged(t, items, c)
    ensures SameSlice(t, Reconcile(t, items).0, c)
  {
    var pruned := RemoveObsolete(t, items);
    RemoveObsoleteKeepsOthers(t, items, c);
    if SeedAll(pruned, items, |items|).Some? {
      SeedAllKeepsUnmanaged(pruned, items, |items|, c);
      SameDependentsIsTransitive(t, pruned, SeedAll(pruned, items, |items|).value, c);
    }
  }

  // ---- Referential integrity ----

  predicate NothingDangles(t: Tables) {
    && (forall l :: l in t.locales ==> t.locales[l].catalog in t.catalogs)
    && (forall v :: v in t.versions ==> t.versions[v].catalog in t.catalogs)
    && (forall s :: s in t.schemas ==> t.schemas[s].version in t.versions)
    && (forall e :: e in t.examples ==> t.examples[e].version in t.versions)
    && (forall f :: f in t.favorites ==> t.favorites[f].catalog in t.catalogs)
    && (forall u :: u in t.usages ==> t.usages[u].catalog in t.catalogs)
  }

  lemma ClearingKeepsReferences(t: Tables, id: Id)
    requires NothingDangles(t)
    ensures NothingDangles(WithoutDependents(t, id))
  {
  }

  lemma InsertKeepsReferences(t: Tables, item: SeedItem)
    requires NothingDangles(t) && item.id in t.catalogs && CanInsert(t, item)
    ensures NothingDangles(Insert(t, item))
  {
  }

  lemma SeedOneKeepsReferences(t: Tables, item: SeedItem)
    requires NothingDangles(t) && SeedOne(t, item).Some?
    ensures NothingDangles(SeedOne(t, item).value)
  {
    var u := WriteRow(t, item).value;
    assert NothingDangles(u);
    if u.catalogs[item.id].managed == SeedBuiltin {
      ClearingKeepsReferences(u, item.id);
      InsertKeepsReferences(WithoutDependents(u, item.id), item);
    }
  }

  lemma {:induction false} SeedAllKeepsReferences(t: Tables, items: seq<SeedItem>, n: nat)
    requires n <= |items| && NothingDangles(t) && SeedAll(t, items, n).Some?
    ensures NothingDangles(SeedAll(t, items, n).value)
  {
    hide SeedOne, NothingDangles;
    if n > 0 {
      SeedAllKeepsReferences(t, items, n - 1);
      SeedOneKeepsReferences(SeedAll(t, items, n - 1).value, items[n - 1]);
    }
  }

  lemma ReferencesNeverDangle(t: Tables, items: seq<SeedItem>)
    requires NothingDangles(t)
    ensures NothingDangles(Reconcile(t, items).0)
  {
    assert NothingDangles(RemoveObsolete(t, items));
    if SeedAll(RemoveObsolete(t, items), items, |items|).Some? {
      SeedAllKeepsReferences(RemoveObsolete(t, items), items, |items|);
    }
  }

  // ---- Versions of usage rows ----

  // What the first n items make of the row of catalogue c.
  function RowAfter(row: Option<Catalog>, items: seq<SeedItem>, n: nat, c: Id): Option<Catalog>
    requires n <= |items|
  {
    if n == 0 then row
    else
      var before := RowAfter(row, items, n - 1, c);
      if items[n - 1].id != c then before
      else Some(Repair(if before.Some? && before.value.managed != SeedBuiltin then before.value else SeedRow(items[n - 1])))
  }

  // The last of them that finds or makes the row the seed's, and so rewrites
  // its dependents.
  function LastRewriter(row: Option<Catalog>, items: seq<SeedItem>, n: nat, c: Id): Option<SeedItem>
    requires n <= |items|
  {
    if n == 0 then None
    else if items[n - 1].id == c && RowAfter(row, items, n, c).value.managed == SeedBuiltin then Some(items[n - 1])
    else LastRewriter(row, items, n - 1, c)
  }

  function RowIn(t: Tables, c: Id): Option<Catalog> {
    if c in t.catalogs then Some(t.catalogs[c]) else None
  }

  lemma SeedOneRow(t: Tables, item: SeedItem)
    requires SeedOne(t, item).Some?
    ensures var u := SeedOne(t, item).value; RowIn(u, item.id) == RowAfter(RowIn(t, item.id), [item], 1, item.id)
  {
    assert RowAfter(RowIn(t, item.id), [item], 0, item.id) == RowIn(t, item.id);
  }

  lemma SeedOneVersions(t: Tables, item: SeedItem, v: Id)
    requires SeedOne(t, item).Some?
    ensures var u := SeedOne(t, item).value;
            && item.id in u.catalogs
            && (OwnVersion(u, item.id, v) <==> if u.catalogs[item.id].managed == SeedBuiltin then v == item.versionId else OwnVersion(t, item.id, v))
  {
  }

  lemma {:induction false} VersionsFollowRewriter(t: Tables, items: seq<SeedItem>, n: nat, c: Id, v: Id)
    requires n <= |items| && SeedAll(t, items, n).Some?
    ensures var u := SeedAll(t, items, n).value;
            && RowIn(u, c) == RowAfter(RowIn(t, c), items, n, c)
            && (OwnVersion(u, c, v) <==>
                  match LastRewriter(RowIn(t, c), items, n, c) case None => OwnVersion(t, c, v) case Some(item) => v == item.versionId)
  {
    hide SeedOne, Repair, OwnVersion;
    if n > 0 {
      var u, item := SeedAll(t, items, n - 1).value, items[n - 1];
      VersionsFollowRewriter(t, items, n - 1, c, v);
      if item.id == c {
        SeedOneRow(u, item);
        assert RowAfter(RowIn(u, c), [item], 0, c) == RowIn(u, c);
        SeedOneVersions(u, item, v);
      } else {
        SeedOneKeepsOtherSlices(u, item, c);
        SameVersionsMeans(u, SeedOne(u, item).value, c, v);
      }
    }
  }

  lemma SameVersionsMeans(t: Tables, u: Tables, c: Id, v: Id)
    requires SameSlice(t, u, c)
    ensures RowIn(t, c) == RowIn(u, c) && (OwnVersion(t, c, v) <==> OwnVersion(u, c, v))
  {
  }

  lemma {:induction false} SeedAllKeepsUsages(t: Tables, items: seq<SeedItem>, n: nat)
    requires n <= |items| && SeedAll(t, items, n).Some?
    ensures SeedAll(t, items, n).value.usages == t.usages
  {
    if n > 0 {
      SeedAllKeepsUsages(t, items, n - 1);
    }
  }

  // A usage row goes only with its obsolete catalogue. The version it names is
  // kept by its catalogue exactly when no item rewrites the catalogue, or the
  // last one that does brings that version.
  lemma UsageVersionStaysIff(t: Tables, items: seq<SeedItem>, u: Id)
    requires Reconcile(t, items).1 && u in t.usages
    ensures var r, c, v := Reconcile(t, items).0, t.usages[u].catalog, t.usages[u].version;
            && (u in r.usages <==> c !in ObsoleteIds(t.catalogs, items))
            && (u in r.usages ==> r.usages[u] == t.usages[u])
            && (u in r.usages && OwnVersion(t, c, v) ==>
                  (OwnVersion(r, c, v) <==>
                    match LastRewriter(RowIn(t, c), items, |items|, c) case None => true case Some(item) => v == item.versionId))
  {
    hide ObsoleteIds, SeedAll, OwnVersion, SameDependents, RowIn;
    var pruned, c, v := RemoveObsolete(t, items), t.usages[u].catalog, t.usages[u].version;
    SeedAllKeepsUsages(pruned, items, |items|);
    VersionsFollowRewriter(pruned, items, |items|, c, v);
    if c !in ObsoleteIds(t.catalogs, items) {
      RemoveObsoleteKeepsOthers(t, items, c);
      SameVersionsMeans(t, pruned, c, v);
    }
  }

  // ---- Single items ----

  lemma NothingObsoleteIsKept(t: Tables, items: seq<SeedItem>)
    requires ObsoleteIds(t.catalogs, items) == {}
    ensures RemoveObsolete(t, items) == t
  {
    var r := RemoveObsolete(t, items);
    assert VersionsOf(t.versions, {}) == {};
    assert r.examples == t.examples && r.schemas == t.schemas;
    assert r.favorites == t.favorites && r.usages == t.usages && r.locales == t.locales;
  }

  predicate Seedable(t: Tables, item: SeedItem) {
    && (item.id in t.catalogs ==> t.catalogs[item.id].managed == SeedBuiltin)
    && !SlugTaken(t.catalogs, item.id, item.catalog.slug)
    && CanInsert(t, item)
  }

  lemma SeedableIsSeeded(t: Tables, item: SeedItem)
    requires Seedable(t, item)
    ensures SeedOne(t, item).Some?
  {
  }

  lemma SingleItemCommits(t: Tables, item: SeedItem)
    requires Seedable(t, item) && ObsoleteIds(t.catalogs, [item]) == {}
    ensures Reconcile(t, [item]).1
  {
    hide SeedOne, RemoveObsolete, ObsoleteIds, Seedable;
    NothingObsoleteIsKept(t, [item]);
    SeedableIsSeeded(t, item);
    assert SeedAll(t, [item], 0) == Some(t);
    assert SeedAll(t, [item], 1) == SeedOne(t, item);
  }

  // Usage row 0 names version 5 of catalogue 1; the seed brings version 7.
  lemma UsageVersionGoes()
    ensures var t := Tables(map[1 := Catalog("slug", true, SeedBuiltin, "", "", 5, "")], map[], map[5 := Version(1, "v1")],
                            map[], map[], map[], map[0 := Usage(1, 5)]);
            var r := Reconcile(t, [SeedItem(1, Catalog("slug", true, SeedBuiltin, "", "", 0, ""), map[], 7, "v2", 2, "{}", map[])]);
            r.1 && OwnVersion(t, 1, 5) && 0 in r.0.usages && r.0.usages[0] == Usage(1, 5) && !OwnVersion(r.0, 1, 5)
  {
    hide Reconcile;
    var t := Tables(map[1 := Catalog("slug", true, SeedBuiltin, "", "", 5, "")], map[], map[5 := Version(1, "v1")],
                    map[], map[], map[], map[0 := Usage(1, 5)]);
    var item := SeedItem(1, Catalog("slug", true, SeedBuiltin, "", "", 0, ""), map[], 7, "v2", 2, "{}", map[]);
    assert [item][0].id in SeedIds([item]);
    SingleItemCommits(t, item);
    UsageVersionStaysIff(t, [item], 0);
    assert RowAfter(RowIn(t, 1), [item], 0, 1) == RowIn(t, 1);
    assert LastRewriter(RowIn(t, 1), [item], 1, 1) == Some(item);
  }
}
