/** Which catalogue rows a run of the seed writes, which it leaves, and when it
    is rolled back, by the columns of the rows. */
module TemplateRows {
  import opened Options
  import opened TemplateSeed
  import opened TemplateRuns

  // ---- Whose rows the seed writes ----

  // A row that is not the seed's and differs in one of the four columns from
  // what the system once wrote keeps itself and all its dependents.
  lemma ForeignRowsStay(t: Tables, items: seq<SeedItem>, c: Id)
    requires c in t.catalogs && t.catalogs[c].managed != SeedBuiltin
    requires var row := t.catalogs[c];
             row.managed != OpsManual || !row.official || row.ownerTeam != "agent-ecommerce" || row.createdBy != "system"
    ensures SameSlice(t, Reconcile(t, items).0, c)
  {
    hide Reconcile, SameDependents, ObsoleteIds;
    NotObsolete(t, items, c);
    UnmanagedRowsAreUntouched(t, items, c);
  }

  lemma NotObsolete(t: Tables, items: seq<SeedItem>, c: Id)
    requires c in t.catalogs && t.catalogs[c].managed != SeedBuiltin
    ensures c !in ObsoleteIds(t.catalogs, items)
  {
  }

  // Among the listed rows that are not the seed's, exactly those are touched
  // that agree in all four.
  lemma TakeoverIff(t: Tables, items: seq<SeedItem>, i: nat)
    requires i < |items| && Reconcile(t, items).1
    requires items[i].id in t.catalogs && t.catalogs[items[i].id].managed != SeedBuiltin
    ensures var row := t.catalogs[items[i].id];
            SameSlice(t, Reconcile(t, items).0, items[i].id) <==>
              !(row.managed == OpsManual && row.official && row.ownerTeam == "agent-ecommerce" && row.createdBy == "system")
  {
    hide SeedAll, SameDependents, RemoveObsolete;
    var row := t.catalogs[items[i].id];
    if row.managed == OpsManual && row.official && row.ownerTeam == "agent-ecommerce" && row.createdBy == "system" {
      RowsAreDecided(RemoveObsolete(t, items), items, |items|, i);
    } else {
      ForeignRowsStay(t, items, items[i].id);
    }
  }

  // The item's dependents and no others, up to stray examples.
  lemma DependentsOutcome(t: Tables, items: seq<SeedItem>, i: nat)
    requires i < |items| && DistinctItems(items) && Reconcile(t, items).1 && EndsBuiltin(t, items, i)
    ensures DependentsAsSeeded(Reconcile(t, items).0, items[i])
  {
    hide SeedOne, SameDependents, RemoveObsolete, DependentsAsSeeded;
    var pruned, item := RemoveObsolete(t, items), items[i];
    SeedAllKeepsOtherSlices(pruned, items, i + 1, |items|, item.id);
    var before, after := SeedAll(pruned, items, i).value, SeedAll(pruned, items, i + 1).value;
    SeedOneLeavesDependents(before, item);
    SameDependentsKeepsSeeded(after, SeedAll(pruned, items, |items|).value, item);
  }

  lemma SeedOneLeavesDependents(t: Tables, item: SeedItem)
    requires SeedOne(t, item).Some? && Builtin(SeedOne(t, item).value, item.id)
    ensures DependentsAsSeeded(SeedOne(t, item).value, item)
  {
    hide DependentsAsSeeded, RewriteDependents, Upsert;
    var u := WriteRow(t, item).value;
    if u.catalogs[item.id].managed == SeedBuiltin {
      RewriteSettles(u, item);
      RewriteKeepsCatalogs(u, item);
    }
  }

  // The row of a listed item before and after its own turn is the one before
  // and after the run.
  lemma ItemsTurn(t: Tables, items: seq<SeedItem>, i: nat)
    requires i < |items| && DistinctItems(items) && Reconcile(t, items).1
    ensures var before := SeedAll(RemoveObsolete(t, items), items, i);
            && before.Some? && SeedOne(before.value, items[i]).Some?
            && RowIn(before.value, items[i].id) == RowIn(t, items[i].id)
            && RowIn(Reconcile(t, items).0, items[i].id) == RowIn(SeedOne(before.value, items[i]).value, items[i].id)
  {
    hide SeedOne, SameDependents, RemoveObsolete;
    var pruned, item := RemoveObsolete(t, items), items[i];
    assert item.id in SeedIds(items);
    RemoveObsoleteKeepsOthers(t, items, item.id);
    SeedAllKeepsOtherSlices(pruned, items, 0, i, item.id);
    SeedAllKeepsOtherSlices(pruned, items, i + 1, |items|, item.id);
  }

  // A row the system once wrote is taken over as it is; its dependents are
  // replaced by the item's.
  lemma SystemRowIsTakenOver(t: Tables, items: seq<SeedItem>, i: nat)
    requires i < |items| && DistinctItems(items) && Reconcile(t, items).1 && items[i].id in t.catalogs
    requires var row := t.catalogs[items[i].id];
             row.managed == OpsManual && row.official && row.ownerTeam == "agent-ecommerce" && row.createdBy == "system"
    ensures var r := Reconcile(t, items).0;
            && items[i].id in r.catalogs && r.catalogs[items[i].id] == t.catalogs[items[i].id].(managed := SeedBuiltin)
            && DependentsAsSeeded(r, items[i])
  {
    hide SeedAll, SeedOne, RemoveObsolete, DependentsAsSeeded;
    ItemsTurn(t, items, i);
    TakeoverRow(SeedAll(RemoveObsolete(t, items), items, i).value, items[i]);
    DependentsOutcome(t, items, i);
  }

  lemma TakeoverRow(t: Tables, item: SeedItem)
    requires SeedOne(t, item).Some? && item.id in t.catalogs
    requires var row := t.catalogs[item.id];
             row.managed == OpsManual && row.official && row.ownerTeam == "agent-ecommerce" && row.createdBy == "system"
    ensures var u := SeedOne(t, item).value; item.id in u.catalogs && u.catalogs[item.id] == t.catalogs[item.id].(managed := SeedBuiltin)
  {
  }

  // A missing row, or one of the seed's, becomes the item's, with the item's
  // version as its current one; it is the seed's if the item says so, or if the
  // item has the four columns of a row the system once wrote.
  lemma ListedRowIsWritten(t: Tables, items: seq<SeedItem>, i: nat)
    requires i < |items| && DistinctItems(items) && Reconcile(t, items).1
    requires items[i].id in t.catalogs ==> t.catalogs[items[i].id].managed == SeedBuiltin
    ensures var r, written := Reconcile(t, items).0, items[i].catalog.(currentVersion := items[i].versionId);
            var system := written.managed == OpsManual && written.official && written.ownerTeam == "agent-ecommerce" && written.createdBy == "system";
            && items[i].id in r.catalogs && r.catalogs[items[i].id] == (if system then written.(managed := SeedBuiltin) else written)
            && (r.catalogs[items[i].id].managed == SeedBuiltin ==> DependentsAsSeeded(r, items[i]))
  {
    hide SeedAll, SeedOne, RemoveObsolete, DependentsAsSeeded;
    ItemsTurn(t, items, i);
    WrittenRow(SeedAll(RemoveObsolete(t, items), items, i).value, items[i]);
    if EndsBuiltin(t, items, i) {
      DependentsOutcome(t, items, i);
    }
  }

  lemma WrittenRow(t: Tables, item: SeedItem)
    requires SeedOne(t, item).Some? && (item.id in t.catalogs ==> t.catalogs[item.id].managed == SeedBuiltin)
    ensures var u, written := SeedOne(t, item).value, item.catalog.(currentVersion := item.versionId);
            var system := written.managed == OpsManual && written.official && written.ownerTeam == "agent-ecommerce" && written.createdBy == "system";
            item.id in u.catalogs && u.catalogs[item.id] == if system then written.(managed := SeedBuiltin) else written
  {
  }

  // An unlisted row goes exactly when it is official and the seed's, and then
  // with all its dependents; any other keeps itself and them.
  lemma UnlistedRows(t: Tables, items: seq<SeedItem>, c: Id)
    requires Reconcile(t, items).1 && c in t.catalogs && items != [] && forall i :: 0 <= i < |items| ==> items[i].id != c
    ensures var pruned, r := RemoveObsolete(t, items), Reconcile(t, items).0;
            if t.catalogs[c].official && t.catalogs[c].managed == SeedBuiltin
            then Gone(t, pruned, c) && c !in r.catalogs
                 && (forall x :: !OwnLocale(r, c, x) && !OwnVersion(r, c, x) && !OwnUsage(r, c, x) && !OwnFavorite(r, c, x))
            else SameSlice(t, r, c)
  {
    hide SeedAll, RemoveObsolete, SameDependents;
    var pruned, r := RemoveObsolete(t, items), Reconcile(t, items).0;
    assert c !in SeedIds(items);
    SeedAllKeepsOtherSlices(pruned, items, 0, |items|, c);
    NoItemsYet(pruned, items);
    if t.catalogs[c].official && t.catalogs[c].managed == SeedBuiltin {
      ObsoleteIsGone(t, items, c);
      SameSliceStaysGone(pruned, r, c);
    } else {
      RemoveObsoleteKeepsOthers(t, items, c);
      SameDependentsIsTransitive(t, pruned, r, c);
    }
  }

  // An empty seed leaves every row and all dependents.
  lemma EmptySeedLeavesAll(t: Tables, c: Id)
    ensures Reconcile(t, []).1 && SameSlice(t, Reconcile(t, []).0, c)
  {
    hide RemoveObsolete, SameDependents;
    RemoveObsoleteKeepsOthers(t, [], c);
  }

  // Neither the row nor anything that belonged to it is left.
  ghost predicate Gone(t: Tables, u: Tables, c: Id) {
    && c !in u.catalogs
    && (forall l :: OwnLocale(t, c, l) ==> l !in u.locales) && (forall v :: OwnVersion(t, c, v) ==> v !in u.versions)
    && (forall s :: OwnSchema(t, c, s) ==> s !in u.schemas) && (forall e :: OwnExample(t, c, e) ==> e !in u.examples)
    && (forall x :: OwnUsage(t, c, x) ==> x !in u.usages) && (forall f :: OwnFavorite(t, c, f) ==> f !in u.favorites)
    && (forall x :: !OwnLocale(u, c, x) && !OwnVersion(u, c, x) && !OwnUsage(u, c, x) && !OwnFavorite(u, c, x))
  }

  lemma ObsoleteIsGone(t: Tables, items: seq<SeedItem>, c: Id)
    requires c in t.catalogs && items != [] && c !in SeedIds(items) && t.catalogs[c].official && t.catalogs[c].managed == SeedBuiltin
    ensures Gone(t, RemoveObsolete(t, items), c)
  {
  }

  lemma SameSliceStaysGone(t: Tables, u: Tables, c: Id)
    requires SameSlice(t, u, c) && c !in t.catalogs
    requires forall x :: !OwnLocale(t, c, x) && !OwnVersion(t, c, x) && !OwnUsage(t, c, x) && !OwnFavorite(t, c, x)
    ensures c !in u.catalogs
    ensures forall x :: !OwnLocale(u, c, x) && !OwnVersion(u, c, x) && !OwnUsage(u, c, x) && !OwnFavorite(u, c, x)
  {
  }

  // ---- When a run is rolled back ----

  // Some unique key of the item's row or dependents is held by a row that is
  // not replaced.
  ghost predicate Collides(t: Tables, item: SeedItem) {
    || (exists l :: l in item.locales && l in t.locales && t.locales[l].catalog != item.id)
    || (item.versionId in t.versions && t.versions[item.versionId].catalog != item.id)
    || (exists s :: s in t.schemas && !OwnSchema(t, item.id, s) && (s == item.schemaId || t.schemas[s].version == item.versionId))
    || (exists e :: e in item.examples && e in t.examples && !OwnExample(t, item.id, e))
  }

  // An item fails when it is to be written and another row has its slug, or
  // when its dependents are to be written and collide.
  ghost predicate Fails(t: Tables, item: SeedItem) {
    var free := item.id in t.catalogs ==> t.catalogs[item.id].managed == SeedBuiltin;
    var row := if free then item.catalog else t.catalogs[item.id];
    || (free && exists c :: c in t.catalogs && c != item.id && t.catalogs[c].slug == item.catalog.slug)
    || (&& (|| row.managed == SeedBuiltin
            || (row.managed == OpsManual && row.official && row.ownerTeam == "agent-ecommerce" && row.createdBy == "system"))
        && Collides(t, item))
  }

  lemma RewriteFailsIff(t: Tables, item: SeedItem)
    ensures RewriteDependents(t, item).None? <==> Collides(t, item)
  {
    hide WithoutDependents, OwnSchema, OwnExample;
    var cleared := WithoutDependents(t, item.id);
    ClearedRows(t, item.id);
    assert cleared.locales.Keys !! item.locales.Keys <==> forall l :: l in item.locales ==> l !in cleared.locales;
    assert cleared.examples.Keys !! item.examples.Keys <==> forall e :: e in item.examples ==> e !in cleared.examples;
  }

  lemma ClearedRows(t: Tables, c: Id)
    ensures var u := WithoutDependents(t, c);
            && (forall l :: l in u.locales <==> l in t.locales && t.locales[l].catalog != c)
            && (forall v :: v in u.versions <==> v in t.versions && t.versions[v].catalog != c)
            && (forall s :: s in u.schemas <==> s in t.schemas && !OwnSchema(t, c, s))
            && (forall e :: e in u.examples <==> e in t.examples && !OwnExample(t, c, e))
            && (forall s :: s in u.schemas ==> u.schemas[s] == t.schemas[s])
  {
  }

  lemma ItemFailsIff(t: Tables, item: SeedItem)
    ensures SeedOne(t, item).None? <==> Fails(t, item)
  {
    hide RewriteDependents, Collides;
    var u := WriteRow(t, item);
    if u.Some? {
      RewriteFailsIff(u.value, item);
      CollidesAlike(t, u.value, item);
    }
  }

  lemma CollidesAlike(t: Tables, u: Tables, item: SeedItem)
    requires u == t.(catalogs := u.catalogs)
    ensures Collides(u, item) <==> Collides(t, item)
  {
  }

  // The run is rolled back, leaving the tables as they were, exactly when some
  // item fails on what the items before it left.
  lemma RolledBackIff(t: Tables, items: seq<SeedItem>)
    ensures var (u, ok) := Reconcile(t, items);
            && (!ok ==> u == t)
            && (!ok <==> exists i :: ItemFailsAt(RemoveObsolete(t, items), items, i))
  {
    hide SeedOne, RemoveObsolete, Fails;
    RunFailsIff(RemoveObsolete(t, items), items, |items|);
  }

  ghost predicate ItemFailsAt(t: Tables, items: seq<SeedItem>, i: int) {
    0 <= i < |items| && SeedAll(t, items, i).Some? && Fails(SeedAll(t, items, i).value, items[i])
  }

  lemma {:induction false} RunFailsIff(t: Tables, items: seq<SeedItem>, n: nat)
    requires n <= |items|
    ensures SeedAll(t, items, n).None? <==> exists i :: i < n && ItemFailsAt(t, items, i)
  {
    hide SeedOne, Fails;
    if n > 0 {
      RunFailsIff(t, items, n - 1);
      if SeedAll(t, items, n - 1).Some? {
        ItemFailsIff(SeedAll(t, items, n - 1).value, items[n - 1]);
        assert SeedAll(t, items, n).None? ==> ItemFailsAt(t, items, n - 1);
      }
    }
  }
}
