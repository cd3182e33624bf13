/** Running the reconciliation again: what a second run changes, and why a third
    changes nothing. */
module TemplateRuns {
  import opened Options
  import opened TemplateSeed

  // ---- What a run leaves ----

  predicate NoDrift(t: Tables, items: seq<SeedItem>) {
    forall i :: 0 <= i < |items| && items[i].id in t.catalogs ==> !Drifted(t.catalogs[items[i].id])
  }

  predicate DistinctItems(items: seq<SeedItem>) {
    forall i, j :: 0 <= i < j < |items| ==> items[i].id != items[j].id
  }

  // The row is the one the item would write, or not the seed's to write.
  predicate RowAsSeeded(catalogs: map<Id, Catalog>, item: SeedItem) {
    && item.id in catalogs
    && (if catalogs[item.id].managed != SeedBuiltin then !Drifted(catalogs[item.id])
        else catalogs[item.id] == Repair(SeedRow(item)) && !SlugTaken(catalogs, item.id, item.catalog.slug))
  }

  // The dependents are the rows the item would write, up to stray examples.
  ghost predicate OwnedAsSeeded(t: Tables, item: SeedItem) {
    && (forall l :: OwnLocale(t, item.id, l) <==> l in item.locales)
    && (forall l :: l in item.locales ==> t.locales[l] == Locale(item.id, item.locales[l]))
    && (forall v :: OwnVersion(t, item.id, v) <==> v == item.versionId)
    && item.versionId in t.versions && t.versions[item.versionId] == Version(item.id, item.versionLabel)
  }

  ghost predicate AttachedAsSeeded(t: Tables, item: SeedItem) {
    && (forall s :: OwnSchema(t, item.id, s) <==> s == item.schemaId)
    && item.schemaId in t.schemas && t.schemas[item.schemaId] == Schema(item.versionId, item.schemaJson)
    && (forall e :: e in item.examples ==> e in t.examples && t.examples[e] == Example(item.versionId, item.examples[e]))
  }

  // Examples of the item's version that are not the item's.
  function Strays(t: Tables, item: SeedItem): set<Id> {
    set e | e in t.examples && t.examples[e].version == item.versionId && e !in item.examples
  }

  ghost predicate DependentsAsSeeded(t: Tables, item: SeedItem) {
    OwnedAsSeeded(t, item) && AttachedAsSeeded(t, item)
  }

  ghost predicate AsSeeded(t: Tables, item: SeedItem) {
    && RowAsSeeded(t.catalogs, item)
    && (t.catalogs[item.id].managed == SeedBuiltin ==> DependentsAsSeeded(t, item))
  }

  lemma WriteRowSettles(t: Tables, item: SeedItem)
    requires WriteRow(t, item).Some?
    requires item.id in t.catalogs ==> !Drifted(t.catalogs[item.id])
    ensures RowAsSeeded(WriteRow(t, item).value.catalogs, item)
  {
  }

  lemma InsertSettlesOwned(t: Tables, item: SeedItem)
    requires CanInsert(t, item)
    requires forall l :: l in t.locales ==> t.locales[l].catalog != item.id
    requires forall v :: v in t.versions ==> t.versions[v].catalog != item.id
    ensures OwnedAsSeeded(Insert(t, item), item)
  {
  }

  lemma InsertSettlesAttached(t: Tables, item: SeedItem)
    requires CanInsert(t, item)
    requires forall v :: v in t.versions ==> t.versions[v].catalog != item.id
    ensures AttachedAsSeeded(Insert(t, item), item)
  {
    var u := Insert(t, item);
    assert forall v :: OwnVersion(u, item.id, v) <==> v == item.versionId;
  }

  lemma RewriteSettles(t: Tables, item: SeedItem)
    requires RewriteDependents(t, item).Some?
    ensures DependentsAsSeeded(RewriteDependents(t, item).value, item)
  {
    var cleared := WithoutDependents(t, item.id);
    InsertSettlesOwned(cleared, item);
    InsertSettlesAttached(cleared, item);
  }

  lemma SeedOneSettles(t: Tables, item: SeedItem)
    requires SeedOne(t, item).Some?
    requires item.id in t.catalogs ==> !Drifted(t.catalogs[item.id])
    ensures AsSeeded(SeedOne(t, item).value, item)
  {
    hide RowAsSeeded, DependentsAsSeeded, RewriteDependents, Drifted, Upsert;
    var u := WriteRow(t, item).value;
    WriteRowSettles(t, item);
    if u.catalogs[item.id].managed == SeedBuiltin {
      RewriteSettles(u, item);
      RewriteKeepsCatalogs(u, item);
    }
  }

  lemma RewriteKeepsCatalogs(t: Tables, item: SeedItem)
    requires RewriteDependents(t, item).Some?
    ensures RewriteDependents(t, item).value.catalogs == t.catalogs
  {
  }

  lemma WriteRowIsSettled(t: Tables, item: SeedItem)
    requires RowAsSeeded(t.catalogs, item)
    ensures WriteRow(t, item) == Some(t)
  {
    var catalogs := if t.catalogs[item.id].managed == SeedBuiltin then t.catalogs[item.id := SeedRow(item)] else t.catalogs;
    assert Upsert(t.catalogs, item) == Some(catalogs);
    assert catalogs[item.id := Repair(catalogs[item.id])] == t.catalogs;
  }

  lemma SeededCanBeInserted(t: Tables, item: SeedItem)
    requires DependentsAsSeeded(t, item)
    ensures CanInsert(WithoutDependents(t, item.id), item)
  {
    assert OwnVersion(t, item.id, item.versionId) && OwnSchema(t, item.id, item.schemaId);
    assert forall l :: l in item.locales ==> OwnLocale(t, item.id, l);
    assert forall e :: e in item.examples ==> t.examples[e].version == item.versionId;
    assert forall s :: s in t.schemas && t.schemas[s].version == item.versionId ==> OwnSchema(t, item.id, s);
  }

  lemma LocalesAreSettled(t: Tables, item: SeedItem)
    requires DependentsAsSeeded(t, item)
    ensures Insert(WithoutDependents(t, item.id), item).locales == t.locales
    ensures Insert(WithoutDependents(t, item.id), item).versions == t.versions
  {
    var u := Insert(WithoutDependents(t, item.id), item);
    assert forall l :: l in item.locales ==> OwnLocale(t, item.id, l);
    assert forall l :: l in t.locales && l !in item.locales ==> !OwnLocale(t, item.id, l);
    assert u.locales == t.locales;
    assert forall v :: v in t.versions && v != item.versionId ==> !OwnVersion(t, item.id, v);
    assert u.versions == t.versions;
  }

  lemma SchemasAreSettled(t: Tables, item: SeedItem)
    requires DependentsAsSeeded(t, item)
    ensures Insert(WithoutDependents(t, item.id), item).schemas == t.schemas
  {
    var u := Insert(WithoutDependents(t, item.id), item);
    assert OwnSchema(t, item.id, item.schemaId);
    assert forall s :: s in t.schemas && s != item.schemaId ==> !OwnSchema(t, item.id, s);
    assert u.schemas == t.schemas;
  }

  lemma ExamplesAreSettled(t: Tables, item: SeedItem)
    requires DependentsAsSeeded(t, item)
    ensures Insert(WithoutDependents(t, item.id), item).examples == t.examples - Strays(t, item)
  {
    var cleared := WithoutDependents(t, item.id);
    assert forall v :: v in VersionsOf(t.versions, {item.id}) <==> OwnVersion(t, item.id, v);
    assert forall e :: e in cleared.examples <==> e in t.examples && t.examples[e].version != item.versionId;
    assert (cleared.examples + ExampleRows(item)).Keys == (t.examples - Strays(t, item)).Keys;
    assert cleared.examples + ExampleRows(item) == t.examples - Strays(t, item);
  }

  function WithoutExamples(t: Tables, gone: set<Id>): Tables {
    t.(examples := t.examples - gone)
  }

  lemma RewriteIsSettled(t: Tables, item: SeedItem)
    requires DependentsAsSeeded(t, item)
    ensures RewriteDependents(t, item) == Some(WithoutExamples(t, Strays(t, item)))
  {
    hide DependentsAsSeeded, Strays, WithoutDependents, CanInsert, LocaleRows, ExampleRows;
    SeededCanBeInserted(t, item);
    LocalesAreSettled(t, item);
    SchemasAreSettled(t, item);
    ExamplesAreSettled(t, item);
    ClearingKeepsRest(t, item.id);
  }

  lemma ClearingKeepsRest(t: Tables, id: Id)
    ensures var u := WithoutDependents(t, id); u.catalogs == t.catalogs && u.favorites == t.favorites && u.usages == t.usages
  {
  }

  function RewriteStrays(t: Tables, item: SeedItem): set<Id> {
    if item.id in t.catalogs && t.catalogs[item.id].managed == SeedBuiltin then Strays(t, item) else {}
  }

  // Writing what is already there only removes the strays.
  lemma SeedOneIsSettled(t: Tables, item: SeedItem)
    requires AsSeeded(t, item)
    ensures SeedOne(t, item) == Some(WithoutExamples(t, RewriteStrays(t, item)))
  {
    hide RowAsSeeded, DependentsAsSeeded, RewriteDependents, Strays;
    WriteRowIsSettled(t, item);
    RowIsThere(t.catalogs, item);
    if t.catalogs[item.id].managed == SeedBuiltin {
      RewriteIsSettled(t, item);
    } else {
      assert t.examples - {} == t.examples;
    }
  }

  lemma RowIsThere(catalogs: map<Id, Catalog>, item: SeedItem)
    requires RowAsSeeded(catalogs, item)
    ensures item.id in catalogs && !Drifted(catalogs[item.id])
  {
  }

  lemma WriteRowKeepsAsSeeded(t: Tables, item: SeedItem, other: SeedItem)
    requires RowAsSeeded(t.catalogs, other) && WriteRow(t, item).Some? && item.id != other.id
    ensures RowAsSeeded(WriteRow(t, item).value.catalogs, other)
  {
    var u := WriteRow(t, item).value;
    assert u.catalogs[other.id] == t.catalogs[other.id];
  }

  lemma SameDependentsKeepsSeeded(t: Tables, u: Tables, item: SeedItem)
    requires DependentsAsSeeded(t, item) && SameDependents(t, u, item.id)
    ensures DependentsAsSeeded(u, item)
  {
    assert OwnVersion(t, item.id, item.versionId) && OwnSchema(t, item.id, item.schemaId);
    assert forall l :: l in item.locales ==> OwnLocale(t, item.id, l);
    assert forall e :: e in item.examples ==> OwnExample(t, item.id, e);
  }

  lemma SeedOneKeepsAsSeeded(t: Tables, item: SeedItem, other: SeedItem)
    requires AsSeeded(t, other) && SeedOne(t, item).Some? && item.id != other.id
    ensures AsSeeded(SeedOne(t, item).value, other)
  {
    WriteRowKeepsAsSeeded(t, item, other);
    SeedOneKeepsOtherSlices(t, item, other.id);
    if t.catalogs[other.id].managed == SeedBuiltin {
      SameDependentsKeepsSeeded(t, SeedOne(t, item).value, other);
    }
  }

  ghost predicate AllAsSeeded(t: Tables, items: seq<SeedItem>, n: nat)
    requires n <= |items|
  {
    forall i :: 0 <= i < n ==> AsSeeded(t, items[i])
  }

  // Rows outside the first n items stay as they are.
  lemma {:induction false} SeedAllKeepsOtherSlices(t: Tables, items: seq<SeedItem>, from: nat, n: nat, c: Id)
    requires from <= n <= |items| && SeedAll(t, items, n).Some? && forall i :: from <= i < n ==> items[i].id != c
    ensures SeedAll(t, items, from).Some? && SameSlice(SeedAll(t, items, from).value, SeedAll(t, items, n).value, c)
  {
    hide SeedOne, SameDependents;
    if from == n {
      SameSliceIsReflexive(SeedAll(t, items, n).value, c);
    } else {
      SeedAllKeepsOtherSlices(t, items, from, n - 1, c);
      SeedOneKeepsOtherSlices(SeedAll(t, items, n - 1).value, items[n - 1], c);
      SameDependentsIsTransitive(SeedAll(t, items, from).value, SeedAll(t, items, n - 1).value, SeedAll(t, items, n).value, c);
    }
  }

  lemma SeedOneKeepsAllAsSeeded(t: Tables, items: seq<SeedItem>, n: nat)
    requires DistinctItems(items) && n < |items| && AllAsSeeded(t, items, n) && SeedOne(t, items[n]).Some?
    requires items[n].id in t.catalogs ==> !Drifted(t.catalogs[items[n].id])
    ensures AllAsSeeded(SeedOne(t, items[n]).value, items, n + 1)
  {
    hide AsSeeded, SeedOne;
    SeedOneSettles(t, items[n]);
    forall i | 0 <= i < n
      ensures AsSeeded(SeedOne(t, items[n]).value, items[i])
    {
      SeedOneKeepsAsSeeded(t, items[n], items[i]);
    }
  }

  // After a committed run every row is as seeded, up to strays.
  lemma {:induction false} SeedAllSettles(t: Tables, items: seq<SeedItem>, n: nat)
    requires n <= |items| && DistinctItems(items) && NoDrift(t, items) && SeedAll(t, items, n).Some?
    ensures AllAsSeeded(SeedAll(t, items, n).value, items, n)
  {
    hide SeedOne, AsSeeded, Drifted, SameDependents;
    if n > 0 {
      SeedAllSettles(t, items, n - 1);
      SeedAllKeepsOtherSlices(t, items, 0, n - 1, items[n - 1].id);
      SeedOneKeepsAllAsSeeded(SeedAll(t, items, n - 1).value, items, n - 1);
    }
  }

  // ---- The second run ----

  function StraysOf(t: Tables, items: seq<SeedItem>, n: nat): set<Id>
    requires n <= |items|
  {
    if n == 0 then {} else StraysOf(t, items, n - 1) + RewriteStrays(t, items[n - 1])
  }

  // On tables that are as seeded, a run commits and only removes the strays.
  lemma {:induction false} SeedAllIsSettled(t: Tables, items: seq<SeedItem>, n: nat)
    requires n <= |items| && DistinctItems(items) && AllAsSeeded(t, items, |items|)
    ensures SeedAll(t, items, n) == Some(WithoutExamples(t, StraysOf(t, items, n)))
    ensures AllAsSeeded(SeedAll(t, items, n).value, items, |items|)
  {
    hide SeedOne, AsSeeded, Strays;
    if n == 0 {
      assert t.examples - {} == t.examples;
    } else {
      SeedAllIsSettled(t, items, n - 1);
      var u, item := SeedAll(t, items, n - 1).value, items[n - 1];
      SeedOneIsSettled(u, item);
      StraysAreTaken(t, StraysOf(t, items, n - 1), item);
      forall i | 0 <= i < |items| ensures AsSeeded(SeedOne(u, item).value, items[i]) {
        if i == n - 1 {
          AsSeededHasRow(u, item);
          SeedOneSettles(u, item);
        } else {
          SeedOneKeepsAsSeeded(u, item, items[i]);
        }
      }
    }
  }

  lemma AsSeededHasRow(t: Tables, item: SeedItem)
    requires AsSeeded(t, item)
    ensures item.id in t.catalogs && !Drifted(t.catalogs[item.id])
  {
  }

  lemma StraysAreTaken(t: Tables, gone: set<Id>, item: SeedItem)
    ensures WithoutExamples(WithoutExamples(t, gone), RewriteStrays(WithoutExamples(t, gone), item)) == WithoutExamples(t, gone + RewriteStrays(t, item))
  {
    var u := WithoutExamples(t, gone);
    assert RewriteStrays(u, item) == RewriteStrays(t, item) - gone;
    assert u.examples - RewriteStrays(u, item) == t.examples - (gone + RewriteStrays(t, item));
  }

  lemma {:induction false} StraysOfEach(t: Tables, items: seq<SeedItem>, n: nat)
    requires n <= |items|
    ensures forall e :: e in StraysOf(t, items, n) <==> exists i :: 0 <= i < n && e in RewriteStrays(t, items[i])
  {
    hide RewriteStrays;
    if n > 0 {
      StraysOfEach(t, items, n - 1);
    }
  }

  lemma NothingIsObsolete(t: Tables, items: seq<SeedItem>)
    requires SeedAll(RemoveObsolete(t, items), items, |items|).Some?
    ensures ObsoleteIds(SeedAll(RemoveObsolete(t, items), items, |items|).value.catalogs, items) == {}
  {
    hide SameDependents;
    var pruned := RemoveObsolete(t, items);
    var u := SeedAll(pruned, items, |items|).value;
    forall c | c in u.catalogs && c !in SeedIds(items) ensures items == [] || !Obsolete(u.catalogs[c], c, SeedIds(items)) {
      SeedAllKeepsOtherSlices(pruned, items, 0, |items|, c);
    }
  }

  // An example that waits for the item's version, which is in no table row.
  predicate Orphan(t: Tables, item: SeedItem, e: Id) {
    e !in item.examples && Dangling(t, item.versionId, e)
  }

  predicate Dangling(t: Tables, v: Id, e: Id) {
    e in t.examples && t.examples[e].version == v && v !in t.versions
  }

  lemma PruningKeepsDangling(t: Tables, items: seq<SeedItem>, v: Id, e: Id)
    ensures Dangling(RemoveObsolete(t, items), v, e) <==> Dangling(t, v, e)
  {
  }

  // Seeding an item makes nothing dangle, and ends it only by inserting the version.
  lemma SeedOneDangles(t: Tables, item: SeedItem, v: Id, e: Id)
    requires SeedOne(t, item).Some?
    ensures var u := SeedOne(t, item).value;
            && (Dangling(u, v, e) ==> Dangling(t, v, e))
            && (Dangling(t, v, e) ==> Dangling(u, v, e) || OwnVersion(u, item.id, v))
  {
  }

  ghost predicate Claimed(t: Tables, items: seq<SeedItem>, n: nat, v: Id)
    requires n <= |items|
  {
    exists i :: 0 <= i < n && OwnVersion(t, items[i].id, v)
  }

  lemma {:induction false} SeedAllDangles(t: Tables, items: seq<SeedItem>, n: nat, v: Id, e: Id)
    requires n <= |items| && DistinctItems(items) && SeedAll(t, items, n).Some?
    ensures var u := SeedAll(t, items, n).value;
            && (Dangling(u, v, e) ==> Dangling(t, v, e))
            && (Dangling(t, v, e) ==> Dangling(u, v, e) || Claimed(u, items, n, v))
  {
    hide SeedOne, Dangling, SameDependents, OwnVersion;
    if n > 0 {
      SeedAllDangles(t, items, n - 1, v, e);
      var u, w, item := SeedAll(t, items, n - 1).value, SeedAll(t, items, n).value, items[n - 1];
      SeedOneDangles(u, item, v, e);
      if Claimed(u, items, n - 1, v) {
        var i :| 0 <= i < n - 1 && OwnVersion(u, items[i].id, v);
        SeedOneKeepsOtherSlices(u, item, items[i].id);
        SameVersionsMeans(u, w, items[i].id, v);
      }
    }
  }

  // The strays of an item just written are the orphans it found.
  lemma StraysWereOrphans(t: Tables, item: SeedItem, e: Id)
    requires SeedOne(t, item).Some? && SeedOne(t, item).value.catalogs[item.id].managed == SeedBuiltin
    ensures e in Strays(SeedOne(t, item).value, item) <==> Orphan(t, item, e)
    ensures forall c :: c != item.id ==> !OwnVersion(t, c, item.versionId)
  {
  }

  lemma SameSliceSameStrays(t: Tables, u: Tables, item: SeedItem)
    requires SameSlice(t, u, item.id) && OwnVersion(t, item.id, item.versionId)
    ensures Strays(t, item) == Strays(u, item)
  {
    forall e ensures e in Strays(t, item) <==> e in Strays(u, item) {
      assert OwnExample(t, item.id, e) <==> OwnExample(u, item.id, e);
    }
  }

  // After a run, the strays of an item that was rewritten are its orphans from
  // before the run.
  lemma StraysAreOrphans(t: Tables, items: seq<SeedItem>, i: nat, e: Id)
    requires i < |items| && DistinctItems(items) && Reconcile(t, items).1
    requires items[i].id in Reconcile(t, items).0.catalogs && Reconcile(t, items).0.catalogs[items[i].id].managed == SeedBuiltin
    ensures e in Strays(Reconcile(t, items).0, items[i]) <==> Orphan(t, items[i], e)
  {
    hide SeedOne, Strays, SameDependents, OwnVersion, RemoveObsolete, Dangling;
    var pruned, item := RemoveObsolete(t, items), items[i];
    SeedAllKeepsOtherSlices(pruned, items, i + 1, |items|, item.id);
    var before, after := SeedAll(pruned, items, i).value, SeedAll(pruned, items, i + 1).value;
    SeedOneVersions(before, item, item.versionId);
    SameSliceSameStrays(after, SeedAll(pruned, items, |items|).value, item);
    StraysWereOrphans(before, item, e);
    SeedAllDangles(pruned, items, i, item.versionId, e);
    PruningKeepsDangling(t, items, item.versionId, e);
  }

  // The row ends up the seed's, so that the item's dependents were rewritten.
  predicate EndsBuiltin(t: Tables, items: seq<SeedItem>, i: nat)
    requires i < |items|
  {
    var once := Reconcile(t, items).0;
    items[i].id in once.catalogs && once.catalogs[items[i].id].managed == SeedBuiltin
  }

  // The row is missing or the seed's, and the item leaves it the seed's.
  predicate Writes(t: Tables, item: SeedItem) {
    && (item.id in t.catalogs ==> t.catalogs[item.id].managed == SeedBuiltin)
    && Repair(SeedRow(item)).managed == SeedBuiltin
  }

  // An item that will be written has an orphan.
  ghost predicate TakesOrphan(t: Tables, items: seq<SeedItem>) {
    exists i, e :: 0 <= i < |items| && Writes(t, items[i]) && Orphan(t, items[i], e)
  }

  lemma SeedOneWrites(t: Tables, item: SeedItem)
    requires SeedOne(t, item).Some? && (item.id in t.catalogs ==> !Drifted(t.catalogs[item.id]))
    ensures var u := SeedOne(t, item).value;
            item.id in u.catalogs && (u.catalogs[item.id].managed == SeedBuiltin <==> Writes(t, item))
  {
  }

  lemma SameRowSameWrites(t: Tables, u: Tables, item: SeedItem)
    requires SameSlice(t, u, item.id)
    ensures Writes(t, item) == Writes(u, item)
    ensures item.id in u.catalogs ==> item.id in t.catalogs && u.catalogs[item.id] == t.catalogs[item.id]
  {
  }

  // What a run leaves can be told from the tables before it.
  lemma EndsBuiltinIff(t: Tables, items: seq<SeedItem>, i: nat)
    requires i < |items| && DistinctItems(items) && NoDrift(t, items) && Reconcile(t, items).1
    ensures EndsBuiltin(t, items, i) <==> Writes(t, items[i])
  {
    hide SeedOne, Writes, SameDependents, RemoveObsolete, Drifted;
    var pruned, item := RemoveObsolete(t, items), items[i];
    assert item.id in SeedIds(items);
    RemoveObsoleteKeepsOthers(t, items, item.id);
    SameRowSameWrites(t, pruned, item);
    SeedAllKeepsOtherSlices(pruned, items, i + 1, |items|, item.id);
    SeedAllKeepsOtherSlices(pruned, items, 0, i, item.id);
    SameRowSameWrites(pruned, SeedAll(pruned, items, i).value, item);
    SeedOneWrites(SeedAll(pruned, items, i).value, item);
  }

  lemma SecondRunRemovesStrays(t: Tables, items: seq<SeedItem>)
    requires DistinctItems(items) && NoDrift(t, items) && Reconcile(t, items).1
    ensures var once := Reconcile(t, items).0;
            Reconcile(once, items) == (WithoutExamples(once, StraysOf(once, items, |items|)), true)
  {
    hide SeedAll, RemoveObsolete, ObsoleteIds, StraysOf, Drifted, AllAsSeeded;
    var pruned := RemoveObsolete(t, items);
    PruningKeepsNoDrift(t, items);
    SeedAllSettles(pruned, items, |items|);
    var once := SeedAll(pruned, items, |items|).value;
    NothingIsObsolete(t, items);
    NothingObsoleteIsKept(once, items);
    SeedAllIsSettled(once, items, |items|);
  }

  lemma PruningKeepsNoDrift(t: Tables, items: seq<SeedItem>)
    requires NoDrift(t, items)
    ensures NoDrift(RemoveObsolete(t, items), items)
  {
    hide Drifted;
  }

  lemma CommittedSecondRunIff(t: Tables, items: seq<SeedItem>)
    requires DistinctItems(items) && NoDrift(t, items) && Reconcile(t, items).1
    ensures var once := Reconcile(t, items).0;
            Reconcile(once, items).1 && (Reconcile(once, items).0 == once <==> !TakesOrphan(t, items))
  {
    hide Reconcile, Strays, Orphan, StraysOf, Drifted, Writes;
    var once := Reconcile(t, items).0;
    SecondRunRemovesStrays(t, items);
    StraysOfEach(once, items, |items|);
    forall i, e | 0 <= i < |items| ensures e in RewriteStrays(once, items[i]) <==> Writes(t, items[i]) && Orphan(t, items[i], e) {
      EndsBuiltinIff(t, items, i);
      if EndsBuiltin(t, items, i) {
        StraysAreOrphans(t, items, i, e);
      }
    }
    StraysAreThere(once, items, |items|);
    if TakesOrphan(t, items) {
      var i, e :| 0 <= i < |items| && Writes(t, items[i]) && Orphan(t, items[i], e);
      assert e in RewriteStrays(once, items[i]);
      assert e in StraysOf(once, items, |items|);
    }
    if StraysOf(once, items, |items|) != {} {
      var e :| e in StraysOf(once, items, |items|);
      var i :| 0 <= i < |items| && e in RewriteStrays(once, items[i]);
      assert Writes(t, items[i]) && Orphan(t, items[i], e);
    }
  }

  lemma {:induction false} StraysAreThere(t: Tables, items: seq<SeedItem>, n: nat)
    requires n <= |items|
    ensures StraysOf(t, items, n) <= t.examples.Keys
    ensures WithoutExamples(t, StraysOf(t, items, n)) == t <==> StraysOf(t, items, n) == {}
  {
    if n > 0 {
      StraysAreThere(t, items, n - 1);
    }
    if StraysOf(t, items, n) == {} {
      assert t.examples - {} == t.examples;
    } else {
      var e :| e in StraysOf(t, items, n);
      assert e !in WithoutExamples(t, StraysOf(t, items, n)).examples;
    }
  }

  // A second run commits if the first did, and then changes nothing exactly
  // when no item that is written has an orphan: the first run takes the orphan
  // over with the version, and the second deletes it with the version.
  lemma SecondRunIff(t: Tables, items: seq<SeedItem>)
    requires DistinctItems(items) && NoDrift(t, items)
    ensures var (once, committed) := Reconcile(t, items);
            && Reconcile(once, items).1 == committed
            && (Reconcile(once, items).0 == once <==> !committed || !TakesOrphan(t, items))
  {
    if Reconcile(t, items).1 {
      CommittedSecondRunIff(t, items);
    }
  }

  // One example waits for version 7, and the seed brings it.
  lemma OrphanIsTakenOverAndDeleted()
    ensures var t := Tables(map[], map[], map[], map[], map[0 := Example(7, "sample")], map[], map[]);
            var items := [SeedItem(1, Catalog("slug", true, SeedBuiltin, "", "", 0, ""), map[], 7, "v1", 2, "{}", map[])];
            && NoDrift(t, items) && DistinctItems(items)
            && var once := Reconcile(t, items); once.1 && Reconcile(once.0, items).0 != once.0
  {
    hide Reconcile;
    var t := Tables(map[], map[], map[], map[], map[0 := Example(7, "sample")], map[], map[]);
    var item := SeedItem(1, Catalog("slug", true, SeedBuiltin, "", "", 0, ""), map[], 7, "v1", 2, "{}", map[]);
    SingleItemCommits(t, item);
    SecondRunIff(t, [item]);
    assert [item][0] == item && Orphan(t, [item][0], 0) && Writes(t, [item][0]);
  }

  // An item listed twice: its second rewriting deletes the orphan within the
  // first run, so the second run changes nothing although there was an orphan.
  lemma RepeatedItemLosesItsOrphan(t: Tables, item: SeedItem, e: Id)
    requires Orphan(t, item, e) && ObsoleteIds(t.catalogs, [item, item]) == {}
    requires SeedOne(t, item).Some? && SeedOne(t, item).value.catalogs[item.id].managed == SeedBuiltin
    requires NoDrift(t, [item, item])
    ensures var once := Reconcile(t, [item, item]);
            once.1 && TakesOrphan(t, [item, item]) && Reconcile(once.0, [item, item]) == once
  {
    hide SeedOne, RemoveObsolete, Strays, ObsoleteIds, AsSeeded, Orphan;
    var items := [item, item];
    assert items[0] == item && !(item.id in t.catalogs && Drifted(t.catalogs[item.id]));
    SeedOneSettles(t, item);
    var u := SeedOne(t, item).value;
    AsSeededHasRow(u, item);
    SeedOneIsSettled(u, item);
    SeedOneSettles(u, item);
    var w := SeedOne(u, item).value;
    StraysAreTaken(u, {}, item);
    NoStraysAfter(u, item);
    SeedOneIsSettled(w, item);
    assert w.examples - {} == w.examples;
    NothingObsoleteIsKept(t, items);
    assert SeedAll(t, items, 0) == Some(t) && SeedAll(t, items, 1) == Some(u) && SeedAll(t, items, 2) == Some(w);
    NothingIsObsolete(t, items);
    NothingObsoleteIsKept(w, items);
    assert SeedAll(w, items, 0) == Some(w) && SeedAll(w, items, 1) == Some(w) && SeedAll(w, items, 2) == Some(w);
    SeedOneWrites(t, item);
    assert Writes(t, items[0]) && Orphan(t, items[0], e);
  }

  // With the tables and the item of OrphanIsTakenOverAndDeleted, for one.
  lemma ListedTwice()
    ensures var t := Tables(map[], map[], map[], map[], map[0 := Example(7, "sample")], map[], map[]);
            var item := SeedItem(1, Catalog("slug", true, SeedBuiltin, "", "", 0, ""), map[], 7, "v1", 2, "{}", map[]);
            && NoDrift(t, [item, item]) && TakesOrphan(t, [item, item])
            && var once := Reconcile(t, [item, item]); once.1 && Reconcile(once.0, [item, item]) == once
  {
    hide Reconcile, SeedOne;
    var t := Tables(map[], map[], map[], map[], map[0 := Example(7, "sample")], map[], map[]);
    var item := SeedItem(1, Catalog("slug", true, SeedBuiltin, "", "", 0, ""), map[], 7, "v1", 2, "{}", map[]);
    SeedableIsSeeded(t, item);
    SeedOneWrites(t, item);
    RepeatedItemLosesItsOrphan(t, item, 0);
  }

  lemma NoStraysAfter(u: Tables, item: SeedItem)
    ensures RewriteStrays(WithoutExamples(u, RewriteStrays(u, item)), item) == {}
  {
  }

  // ---- Tables without orphans ----

  predicate NoneDangles(t: Tables) {
    forall e :: e in t.examples ==> t.examples[e].version in t.versions
  }

  // Every run keeps them so.
  lemma RunKeepsNoneDangling(t: Tables, items: seq<SeedItem>)
    requires NoneDangles(t)
    ensures NoneDangles(Reconcile(t, items).0)
  {
    hide SeedAll, RemoveObsolete;
    var u, pruned := Reconcile(t, items).0, RemoveObsolete(t, items);
    forall e | e in u.examples ensures u.examples[e].version in u.versions {
      if Reconcile(t, items).1 && Dangling(u, u.examples[e].version, e) {
        DanglesBackwards(pruned, items, 0, |items|, u.examples[e].version, e);
        NoItemsYet(pruned, items);
        PruningKeepsDangling(t, items, u.examples[e].version, e);
        assert false;
      }
    }
  }

  // The tables after the first n releases of the seed.
  function Released(t: Tables, seeds: seq<seq<SeedItem>>, n: nat): Tables
    requires n <= |seeds|
  {
    if n == 0 then t else Reconcile(Released(t, seeds, n - 1), seeds[n - 1]).0
  }

  lemma {:induction false} ReleasesKeepNoneDangling(t: Tables, seeds: seq<seq<SeedItem>>, n: nat)
    requires n <= |seeds| && NoneDangles(t)
    ensures NoneDangles(Released(t, seeds, n))
  {
    hide NoneDangles, Reconcile;
    if n > 0 {
      ReleasesKeepNoneDangling(t, seeds, n - 1);
      RunKeepsNoneDangling(Released(t, seeds, n - 1), seeds[n - 1]);
    }
  }

  // From tables where no example dangles, such as empty ones, and after any
  // releases of the seed: with no drifted row a second run changes nothing.
  lemma SecondRunIsIdle(t: Tables, seeds: seq<seq<SeedItem>>, n: nat, items: seq<SeedItem>)
    requires n <= |seeds| && NoneDangles(t) && DistinctItems(items) && NoDrift(Released(t, seeds, n), items)
    ensures var once := Reconcile(Released(t, seeds, n), items); Reconcile(once.0, items) == once
  {
    hide Reconcile, Released, Drifted, Writes;
    ReleasesKeepNoneDangling(t, seeds, n);
    SecondRunIff(Released(t, seeds, n), items);
  }

  // ---- The third run ----

  predicate Builtin(t: Tables, c: Id) {
    c in t.catalogs && t.catalogs[c].managed == SeedBuiltin
  }

  // Never written again.
  predicate Stuck(t: Tables, c: Id) {
    c in t.catalogs && t.catalogs[c].managed != SeedBuiltin && !Drifted(t.catalogs[c])
  }

  lemma SeededIsBuiltinOrStuck(t: Tables, item: SeedItem)
    requires SeedOne(t, item).Some?
    ensures var u := SeedOne(t, item).value; Builtin(u, item.id) || Stuck(u, item.id)
  {
  }

  lemma {:induction false} StuckForever(t: Tables, items: seq<SeedItem>, from: nat, n: nat, c: Id)
    requires from <= n <= |items| && SeedAll(t, items, n).Some?
    ensures SeedAll(t, items, from).Some?
    ensures Stuck(SeedAll(t, items, from).value, c) ==> Stuck(SeedAll(t, items, n).value, c)
  {
    hide SeedOne, Drifted, SameDependents;
    if from < n {
      StuckForever(t, items, from, n - 1, c);
      var u := SeedAll(t, items, n - 1).value;
      if items[n - 1].id != c {
        SeedOneKeepsOtherSlices(u, items[n - 1], c);
      } else if Stuck(u, c) {
        SeedOneSkipsUnmanaged(u, items[n - 1]);
      }
    }
  }

  // From some item on for its catalogue, the row is the seed's or stuck.
  lemma {:induction false} RowsAreDecided(t: Tables, items: seq<SeedItem>, n: nat, i: nat)
    requires i < |items| && n <= |items| && SeedAll(t, items, n).Some?
    requires i < n || Builtin(t, items[i].id) || Stuck(t, items[i].id)
    ensures var u := SeedAll(t, items, n).value; Builtin(u, items[i].id) || Stuck(u, items[i].id)
  {
    hide SeedOne, Drifted, SameDependents;
    if n > 0 {
      var u := SeedAll(t, items, n - 1).value;
      if items[n - 1].id == items[i].id {
        SeededIsBuiltinOrStuck(u, items[n - 1]);
      } else {
        RowsAreDecided(t, items, n - 1, i);
        SeedOneKeepsOtherSlices(u, items[n - 1], items[i].id);
      }
    }
  }

  // Nothing starts to dangle.
  lemma SeedOneDanglesBackwards(t: Tables, item: SeedItem, v: Id, e: Id)
    requires SeedOne(t, item).Some? && Dangling(SeedOne(t, item).value, v, e)
    ensures Dangling(t, v, e) && SeedOne(t, item).value.examples[e] == t.examples[e]
  {
  }

  lemma {:induction false} DanglesBackwards(t: Tables, items: seq<SeedItem>, from: nat, n: nat, v: Id, e: Id)
    requires from <= n <= |items| && SeedAll(t, items, n).Some? && Dangling(SeedAll(t, items, n).value, v, e)
    ensures SeedAll(t, items, from).Some? && Dangling(SeedAll(t, items, from).value, v, e)
    ensures SeedAll(t, items, n).value.examples[e] == SeedAll(t, items, from).value.examples[e]
  {
    hide SeedOne;
    if from < n {
      SeedOneDanglesBackwards(SeedAll(t, items, n - 1).value, items[n - 1], v, e);
      DanglesBackwards(t, items, from, n - 1, v, e);
    }
  }

  // What one committed run leaves: every row is decided, and no example waits
  // for the version of an item that will be rewritten.
  ghost predicate Ready(t: Tables, items: seq<SeedItem>) {
    && (forall i :: 0 <= i < |items| ==> Builtin(t, items[i].id) || Stuck(t, items[i].id))
    && (forall i, e :: 0 <= i < |items| && Builtin(t, items[i].id) ==> !Dangling(t, items[i].versionId, e))
  }

  lemma RunLeavesReady(t: Tables, items: seq<SeedItem>)
    requires SeedAll(t, items, |items|).Some?
    ensures Ready(SeedAll(t, items, |items|).value, items)
  {
    hide SeedOne, Drifted, Dangling, Stuck;
    var u := SeedAll(t, items, |items|).value;
    forall i | 0 <= i < |items| ensures Builtin(u, items[i].id) || Stuck(u, items[i].id) {
      RowsAreDecided(t, items, |items|, i);
    }
    forall i, e | 0 <= i < |items| && Builtin(u, items[i].id) ensures !Dangling(u, items[i].versionId, e) {
      RewrittenBindsVersion(t, items, i, e);
    }
  }

  lemma RewrittenBindsVersion(t: Tables, items: seq<SeedItem>, i: nat, e: Id)
    requires i < |items| && SeedAll(t, items, |items|).Some? && Builtin(SeedAll(t, items, |items|).value, items[i].id)
    ensures !Dangling(SeedAll(t, items, |items|).value, items[i].versionId, e)
  {
    hide SeedOne, Drifted;
    var item := items[i];
    StuckForever(t, items, i + 1, |items|, item.id);
    SeededIsBuiltinOrStuck(SeedAll(t, items, i).value, item);
    SeedOneVersions(SeedAll(t, items, i).value, item, item.versionId);
    if Dangling(SeedAll(t, items, |items|).value, item.versionId, e) {
      DanglesBackwards(t, items, i + 1, |items|, item.versionId, e);
    }
  }

  // Rewriting the same item in two tables leaves the same slice.
  lemma SeededSame(t: Tables, u: Tables, item: SeedItem)
    requires DependentsAsSeeded(t, item) && DependentsAsSeeded(u, item) && Strays(t, item) == {} && Strays(u, item) == {}
    requires t.favorites == u.favorites && t.usages == u.usages
    ensures SameDependents(t, u, item.id)
  {
    assert forall e :: OwnExample(t, item.id, e) ==> e in item.examples by {
      forall e | OwnExample(t, item.id, e) ensures e in item.examples {
        assert OwnVersion(t, item.id, t.examples[e].version);
        assert e in item.examples || e in Strays(t, item);
      }
    }
    assert forall e :: OwnExample(u, item.id, e) ==> e in item.examples by {
      forall e | OwnExample(u, item.id, e) ensures e in item.examples {
        assert OwnVersion(u, item.id, u.examples[e].version);
        assert e in item.examples || e in Strays(u, item);
      }
    }
    assert OwnVersion(t, item.id, item.versionId) && OwnVersion(u, item.id, item.versionId);
  }

  lemma RewritesAlike(t: Tables, u: Tables, item: SeedItem)
    requires Builtin(t, item.id) && Builtin(u, item.id) && t.favorites == u.favorites && t.usages == u.usages
    requires SeedOne(t, item).Some? && SeedOne(u, item).Some? && Builtin(SeedOne(t, item).value, item.id)
    requires forall e :: !Dangling(t, item.versionId, e) && !Dangling(u, item.versionId, e)
    ensures SameSlice(SeedOne(t, item).value, SeedOne(u, item).value, item.id)
  {
    hide SeedOne, Dangling, Strays, DependentsAsSeeded, SameDependents, Repair;
    var a, b := SeedOne(t, item).value, SeedOne(u, item).value;
    BuiltinRowIsWritten(t, item);
    BuiltinRowIsWritten(u, item);
    SeedOneSettles(t, item);
    SeedOneSettles(u, item);
    assert Strays(a, item) == {} by {
      forall e ensures e !in Strays(a, item) { StraysWereOrphans(t, item, e); }
    }
    assert Strays(b, item) == {} by {
      forall e ensures e !in Strays(b, item) { StraysWereOrphans(u, item, e); }
    }
    SeedOneKeepsUses(t, item);
    SeedOneKeepsUses(u, item);
    SeededSame(a, b, item);
  }

  lemma BuiltinRowIsWritten(t: Tables, item: SeedItem)
    requires Builtin(t, item.id) && SeedOne(t, item).Some?
    ensures !Drifted(t.catalogs[item.id])
    ensures item.id in SeedOne(t, item).value.catalogs && SeedOne(t, item).value.catalogs[item.id] == Repair(SeedRow(item))
  {
  }

  lemma SeedOneKeepsUses(t: Tables, item: SeedItem)
    requires SeedOne(t, item).Some?
    ensures SeedOne(t, item).value.favorites == t.favorites && SeedOne(t, item).value.usages == t.usages
  {
  }

  lemma {:induction false} SeedAllKeepsUses(t: Tables, items: seq<SeedItem>, n: nat)
    requires n <= |items| && SeedAll(t, items, n).Some?
    ensures SeedAll(t, items, n).value.favorites == t.favorites && SeedAll(t, items, n).value.usages == t.usages
  {
    hide SeedOne;
    if n > 0 {
      SeedAllKeepsUses(t, items, n - 1);
      SeedOneKeepsUses(SeedAll(t, items, n - 1).value, items[n - 1]);
    }
  }

  // While the row ends the seed's, a run that follows another one first leaves
  // the slice as it found it, and then has it as the other one had it.
  lemma {:induction false} SliceIsMirrored(t: Tables, items: seq<SeedItem>, n: nat, c: Id)
    requires n <= |items| && Ready(t, items) && SeedAll(t, items, |items|).Some?
    requires var u := SeedAll(t, items, |items|).value; Ready(u, items) && Builtin(u, c) && SeedAll(u, items, n).Some?
    ensures SeedAll(t, items, n).Some?
    ensures var u := SeedAll(t, items, |items|).value;
            SameSlice(u, SeedAll(u, items, n).value, c) || SameSlice(SeedAll(t, items, n).value, SeedAll(u, items, n).value, c)
  {
    hide SeedOne, SameDependents, Drifted, Dangling, Ready;
    var u := SeedAll(t, items, |items|).value;
    StuckForever(t, items, n, |items|, c);
    if n == 0 {
      SameSliceIsReflexive(u, c);
    } else {
      SliceIsMirrored(t, items, n - 1, c);
      var item, x, y := items[n - 1], SeedAll(t, items, n - 1).value, SeedAll(u, items, n - 1).value;
      if item.id == c {
        BothAreRewritten(t, items, n - 1);
        RewritesAlike(x, y, item);
      } else {
        SeedOneKeepsOtherSlices(x, item, c);
        SeedOneKeepsOtherSlices(y, item, c);
        SlicesCompose(u, y, SeedOne(y, item).value, c);
        SlicesCompose(x, y, SeedOne(y, item).value, c);
        SlicesCompose(SeedOne(x, item).value, x, SeedOne(y, item).value, c);
      }
    }
  }

  // SameSlice is symmetric as well as transitive.
  lemma SlicesCompose(t: Tables, u: Tables, w: Tables, c: Id)
    ensures (SameSlice(t, u, c) || SameSlice(u, t, c)) && SameSlice(u, w, c) ==> SameSlice(t, w, c)
  {
    if SameSlice(t, u, c) && SameSlice(u, w, c) {
      SameDependentsIsTransitive(t, u, w, c);
    } else if SameSlice(u, t, c) && SameSlice(u, w, c) {
      SameDependentsIsTransitive(t, u, w, c);
    }
  }

  // A row that ends the seed's in a run from a ready state is the seed's all along.
  lemma BuiltinAllAlong(t: Tables, items: seq<SeedItem>, n: nat, i: nat)
    requires i < |items| && n <= |items| && Ready(t, items) && SeedAll(t, items, |items|).Some?
    requires Builtin(SeedAll(t, items, |items|).value, items[i].id)
    ensures SeedAll(t, items, n).Some? && Builtin(SeedAll(t, items, n).value, items[i].id)
  {
    hide SeedOne, Drifted, Dangling;
    StuckForever(t, items, n, |items|, items[i].id);
    RowsAreDecided(t, items, n, i);
  }

  lemma NothingWaits(t: Tables, items: seq<SeedItem>, n: nat, i: nat, e: Id)
    requires i < |items| && n <= |items| && Ready(t, items) && SeedAll(t, items, n).Some? && Builtin(t, items[i].id)
    ensures !Dangling(SeedAll(t, items, n).value, items[i].versionId, e)
  {
    hide SeedOne, Dangling;
    if Dangling(SeedAll(t, items, n).value, items[i].versionId, e) {
      DanglesBackwards(t, items, 0, n, items[i].versionId, e);
    }
  }

  lemma BothAreRewritten(t: Tables, items: seq<SeedItem>, i: nat)
    requires i < |items| && Ready(t, items) && SeedAll(t, items, |items|).Some?
    requires SeedAll(t, items, i + 1).Some?
    requires var u := SeedAll(t, items, |items|).value;
             && Ready(u, items) && Builtin(u, items[i].id) && SeedAll(u, items, i + 1).Some?
             && (SameSlice(u, SeedAll(u, items, i).value, items[i].id) || SameSlice(SeedAll(t, items, i).value, SeedAll(u, items, i).value, items[i].id))
    ensures var u := SeedAll(t, items, |items|).value;
            var x, y, item := SeedAll(t, items, i).value, SeedAll(u, items, i).value, items[i];
            && Builtin(x, item.id) && Builtin(y, item.id) && x.favorites == y.favorites && x.usages == y.usages
            && Builtin(SeedOne(x, item).value, item.id)
            && forall e :: !Dangling(x, item.versionId, e) && !Dangling(y, item.versionId, e)
  {
    hide SeedOne, SameDependents, Dangling, Ready;
    var u := SeedAll(t, items, |items|).value;
    BuiltinAllAlong(t, items, 0, i);
    BuiltinAllAlong(t, items, i, i);
    BuiltinAllAlong(t, items, i + 1, i);
    SeedAllKeepsUses(t, items, i);
    SeedAllKeepsUses(t, items, |items|);
    SeedAllKeepsUses(u, items, i);
    var x, y, item := SeedAll(t, items, i).value, SeedAll(u, items, i).value, items[i];
    forall e ensures !Dangling(x, item.versionId, e) && !Dangling(y, item.versionId, e) {
      NothingWaits(t, items, i, i, e);
      NothingWaits(u, items, i, i, e);
    }
  }

  // Rows that no catalogue owns: a committed run keeps them all when it starts
  // from a ready state.
  predicate LooseSchema(t: Tables, s: Id) {
    s in t.schemas && t.schemas[s].version !in t.versions
  }

  predicate KeepsLoose(t: Tables, u: Tables, s: Id) {
    (LooseSchema(t, s) <==> LooseSchema(u, s)) && (LooseSchema(t, s) ==> u.schemas[s] == t.schemas[s])
  }

  predicate KeepsDangling(t: Tables, u: Tables, v: Id, e: Id) {
    (Dangling(t, v, e) <==> Dangling(u, v, e)) && (Dangling(t, v, e) ==> u.examples[e] == t.examples[e])
  }

  lemma SeedOneKeepsLoose(t: Tables, item: SeedItem, s: Id)
    requires SeedOne(t, item).Some?
    ensures KeepsLoose(t, SeedOne(t, item).value, s)
  {
  }

  lemma {:induction false} SeedAllKeepsLoose(t: Tables, items: seq<SeedItem>, n: nat, s: Id)
    requires n <= |items| && SeedAll(t, items, n).Some?
    ensures KeepsLoose(t, SeedAll(t, items, n).value, s)
  {
    hide SeedOne;
    if n > 0 {
      SeedAllKeepsLoose(t, items, n - 1, s);
      SeedOneKeepsLoose(SeedAll(t, items, n - 1).value, items[n - 1], s);
    }
  }

  lemma {:induction false} DanglingStays(t: Tables, items: seq<SeedItem>, n: nat, v: Id, e: Id)
    requires n <= |items| && Ready(t, items) && SeedAll(t, items, n).Some? && Dangling(t, v, e)
    ensures Dangling(SeedAll(t, items, n).value, v, e)
  {
    hide SeedOne, SameDependents, Ready;
    if n > 0 {
      DanglingStays(t, items, n - 1, v, e);
      var u, item := SeedAll(t, items, n - 1).value, items[n - 1];
      SeedOneDangles(u, item, v, e);
      SeedOneVersions(u, item, v);
      if OwnVersion(SeedOne(u, item).value, item.id, v) {
        StillBuiltin(t, items, n);
        NothingWaits(t, items, n - 1, n - 1, e);
      }
    }
  }

  lemma StillBuiltin(t: Tables, items: seq<SeedItem>, n: nat)
    requires 0 < n <= |items| && Ready(t, items) && SeedAll(t, items, n).Some?
    ensures Builtin(SeedAll(t, items, n).value, items[n - 1].id) ==> Builtin(t, items[n - 1].id)
  {
    hide SeedOne, Dangling, Drifted;
    StuckForever(t, items, 0, n, items[n - 1].id);
  }

  // Whatever is owned is in a slice, so same slices and same loose rows make
  // the same tables.
  lemma SlicesMakeTables(t: Tables, u: Tables)
    requires forall c :: SameSlice(t, u, c)
    requires t.favorites == u.favorites && t.usages == u.usages
    requires forall s :: KeepsLoose(t, u, s)
    requires forall v, e :: KeepsDangling(t, u, v, e)
    ensures t == u
  {
    SlicesMakeOwned(t, u);
    forall s ensures (s in t.schemas <==> s in u.schemas) && (s in t.schemas ==> t.schemas[s] == u.schemas[s]) {
      SliceHasSchema(t, u, s);
      assert KeepsLoose(t, u, s);
    }
    forall e ensures (e in t.examples <==> e in u.examples) && (e in t.examples ==> t.examples[e] == u.examples[e]) {
      SliceHasExample(t, u, e);
      assert e in t.examples ==> KeepsDangling(t, u, t.examples[e].version, e);
      assert e in u.examples ==> KeepsDangling(t, u, u.examples[e].version, e);
    }
  }

  lemma SliceHasSchema(t: Tables, u: Tables, s: Id)
    requires forall c :: SameSlice(t, u, c)
    ensures (s in t.schemas && !LooseSchema(t, s)) || (s in u.schemas && !LooseSchema(u, s)) ==>
              s in t.schemas && s in u.schemas && u.schemas[s] == t.schemas[s]
  {
    hide SameLocales, SameExamples, SameUses, SameRow, SameVersions;
    if s in t.schemas && !LooseSchema(t, s) {
      var c := t.versions[t.schemas[s].version].catalog;
      assert SameSlice(t, u, c) && OwnSchema(t, c, s);
    }
    if s in u.schemas && !LooseSchema(u, s) {
      var c := u.versions[u.schemas[s].version].catalog;
      assert SameSlice(t, u, c) && OwnSchema(u, c, s);
    }
  }

  lemma SliceHasExample(t: Tables, u: Tables, e: Id)
    requires forall c :: SameSlice(t, u, c)
    ensures (e in t.examples && !Dangling(t, t.examples[e].version, e)) || (e in u.examples && !Dangling(u, u.examples[e].version, e)) ==>
              e in t.examples && e in u.examples && u.examples[e] == t.examples[e]
  {
    hide SameLocales, SameSchemas, SameUses, SameRow, SameVersions;
    if e in t.examples && !Dangling(t, t.examples[e].version, e) {
      var c := t.versions[t.examples[e].version].catalog;
      assert SameSlice(t, u, c) && OwnExample(t, c, e);
    }
    if e in u.examples && !Dangling(u, u.examples[e].version, e) {
      var c := u.versions[u.examples[e].version].catalog;
      assert SameSlice(t, u, c) && OwnExample(u, c, e);
    }
  }

  lemma SlicesMakeOwned(t: Tables, u: Tables)
    requires forall c :: SameSlice(t, u, c)
    ensures t.catalogs == u.catalogs && t.locales == u.locales && t.versions == u.versions
  {
    hide SameSchemas, SameExamples, SameUses;
    forall c ensures (c in t.catalogs <==> c in u.catalogs) && (c in t.catalogs ==> t.catalogs[c] == u.catalogs[c]) {
      assert SameSlice(t, u, c);
    }
    forall l ensures (l in t.locales <==> l in u.locales) && (l in t.locales ==> t.locales[l] == u.locales[l]) {
      if l in t.locales {
        assert SameSlice(t, u, t.locales[l].catalog) && OwnLocale(t, t.locales[l].catalog, l);
      }
      if l in u.locales {
        assert SameSlice(t, u, u.locales[l].catalog) && OwnLocale(u, u.locales[l].catalog, l);
      }
    }
    forall v ensures (v in t.versions <==> v in u.versions) && (v in t.versions ==> t.versions[v] == u.versions[v]) {
      if v in t.versions {
        assert SameSlice(t, u, t.versions[v].catalog) && OwnVersion(t, t.versions[v].catalog, v);
      }
      if v in u.versions {
        assert SameSlice(t, u, u.versions[v].catalog) && OwnVersion(u, u.versions[v].catalog, v);
      }
    }
  }

  // A committed run from what a committed run from a ready state left changes nothing.
  lemma RunAfterReadyRun(t: Tables, items: seq<SeedItem>)
    requires Ready(t, items) && SeedAll(t, items, |items|).Some?
    requires SeedAll(SeedAll(t, items, |items|).value, items, |items|).Some?
    ensures var u := SeedAll(t, items, |items|).value; SeedAll(u, items, |items|) == Some(u)
  {
    hide SeedOne, SeedAll, Ready, SameSlice, Drifted, KeepsDangling, KeepsLoose;
    var u := SeedAll(t, items, |items|).value;
    var w := SeedAll(u, items, |items|).value;
    RunLeavesReady(t, items);
    SeedAllKeepsUses(u, items, |items|);
    forall c ensures SameSlice(u, w, c) {
      SliceIsFixed(t, items, c);
    }
    forall s ensures KeepsLoose(u, w, s) {
      SeedAllKeepsLoose(u, items, |items|, s);
    }
    forall v, e ensures KeepsDangling(u, w, v, e) {
      DanglingIsFixed(u, items, v, e);
    }
    SlicesMakeTables(u, w);
  }

  lemma DanglingIsFixed(t: Tables, items: seq<SeedItem>, v: Id, e: Id)
    requires Ready(t, items) && SeedAll(t, items, |items|).Some?
    ensures KeepsDangling(t, SeedAll(t, items, |items|).value, v, e)
  {
    hide SeedOne, Ready;
    var w := SeedAll(t, items, |items|).value;
    if Dangling(w, v, e) {
      DanglesBackwards(t, items, 0, |items|, v, e);
    }
    if Dangling(t, v, e) {
      DanglingStays(t, items, |items|, v, e);
    }
  }

  lemma SliceIsFixed(t: Tables, items: seq<SeedItem>, c: Id)
    requires Ready(t, items) && SeedAll(t, items, |items|).Some?
    requires var u := SeedAll(t, items, |items|).value; Ready(u, items) && SeedAll(u, items, |items|).Some?
    ensures var u := SeedAll(t, items, |items|).value; SameSlice(u, SeedAll(u, items, |items|).value, c)
  {
    hide SeedOne, SeedAll, SameSlice, Dangling;
    var u := SeedAll(t, items, |items|).value;
    if c !in SeedIds(items) {
      SeedAllKeepsOtherSlices(u, items, 0, |items|, c);
      NoItemsYet(u, items);
    } else if Stuck(u, c) {
      SeedAllKeepsUnmanaged(u, items, |items|, c);
    } else {
      SliceIsMirrored(t, items, |items|, c);
    }
  }

  lemma NoItemsYet(t: Tables, items: seq<SeedItem>)
    ensures SeedAll(t, items, 0) == Some(t)
  {
  }

  // Whatever the tables and the seed, drifted rows, orphans, repeated items and
  // failing runs included: after two runs the tables are fixed.
  lemma FixedAfterTwoRuns(t: Tables, items: seq<SeedItem>)
    ensures var twice := Reconcile(Reconcile(t, items).0, items).0;
            Reconcile(twice, items).0 == twice
  {
    hide RemoveObsolete, SeedAll, ObsoleteIds, Ready;
    var (once, first) := Reconcile(t, items);
    if first {
      RunLeavesReady(RemoveObsolete(t, items), items);
      NothingIsObsolete(t, items);
      NothingObsoleteIsKept(once, items);
      var (twice, second) := Reconcile(once, items);
      if second {
        NothingIsObsolete(once, items);
        NothingObsoleteIsKept(twice, items);
        if Reconcile(twice, items).1 {
          RunAfterReadyRun(once, items);
        }
      }
    }
  }
}
