/** Delivering the results of a job again: after any number of failed attempts
    the assets and product links are those of one undisturbed delivery. */
module Redelivery {
  import opened Options
  import opened Text
  import opened ProductCenter
  import opened ImageJobs
  import opened ImageResults
  import PA = ProductAssets

  // ---- The undisturbed delivery ----

  // What the variants leave behind: the assets, and the relation rows without
  // their ids, which every attempt draws anew.
  datatype Pile = Pile(assets: seq<Asset>, rows: set<Relation>)

  // The parts of a callback that decide it.
  datatype Parcel = Parcel(j: Id, role: Role, product: Option<Id>, variants: seq<Variant>)

  predicate Linked(rows: set<Relation>, p: Id, asset: Id) {
    exists row :: row in rows && row.owner == p && row.asset == asset
  }

  predicate HasPrimary(rows: set<Relation>, p: Id) {
    exists row :: row in rows && row.owner == p && row.primary
  }

  function LinkRow(rows: set<Relation>, p: Id, role: Role, asset: Id, v: Variant): Relation {
    Relation(asset, p, ResultAsset, role, v.selected && !HasPrimary(rows, p), v.index)
  }

  function WithLink(rows: set<Relation>, product: Option<Id>, role: Role, asset: Id, v: Variant): set<Relation> {
    if product.None? || Linked(rows, product.value, asset) then rows else rows + {LinkRow(rows, product.value, role, asset, v)}
  }

  // One variant, when every write succeeds.
  function Placed(x: Pile, c: Parcel, v: Variant): Pile {
    Pile(WithAsset(x.assets, c.j, v), WithLink(x.rows, c.product, c.role, AssetFor(x.assets, c.j, v), v))
  }

  function Ideal(x: Pile, c: Parcel, n: nat): Pile
    requires n <= |c.variants|
  {
    if n == 0 then x else Placed(Ideal(x, c, n - 1), c, c.variants[n - 1])
  }

  // ---- Conditions ----

  // The service can recognise the asset of such a variant again.
  predicate Traceable(v: Variant) {
    AssetSource(v) == GENERATED || !Blank(v.storage)
  }

  predicate AllTraceable(c: Parcel) {
    forall i :: 0 <= i < |c.variants| ==> Traceable(c.variants[i])
  }

  lemma TraceableAt(c: Parcel, i: nat)
    requires AllTraceable(c) && i < |c.variants|
    ensures Traceable(c.variants[i])
  {
    hide Traceable;
  }

  predicate DistinctIndices(c: Parcel) {
    forall i, k :: 0 <= i < k < |c.variants| ==> c.variants[i].index != c.variants[k].index
  }

  // ---- Recognising assets ----

  lemma LeastStays(before: set<Id>, after: set<Id>, bound: nat)
    requires before != {} && before <= after
    requires forall a :: a in before ==> a < bound
    requires forall a :: a in after && a !in before ==> a >= bound
    ensures Least(after) == Least(before)
  {
  }

  lemma ResultAssetsGrow(assets: seq<Asset>, extra: Asset, j: Id, index: int)
    ensures ResultAssets(assets + [extra], j, index) ==
              ResultAssets(assets, j, index) + (if extra.source == GENERATED && extra.result == Some((j, index)) then {|assets|} else {})
  {
    var more := assets + [extra];
    forall a: Id | a < |assets| ensures a in ResultAssets(more, j, index) <==> a in ResultAssets(assets, j, index) {
      assert more[a] == assets[a];
    }
    assert more[|assets|] == extra;
  }

  lemma StorageAssetsGrow(assets: seq<Asset>, extra: Asset, storage: string)
    ensures StorageAssets(assets + [extra], storage) ==
              StorageAssets(assets, storage) + (if extra.storage == storage then {|assets|} else {})
  {
    var more := assets + [extra];
    forall a: Id | a < |assets| ensures a in StorageAssets(more, storage) <==> a in StorageAssets(assets, storage) {
      assert more[a] == assets[a];
    }
    assert more[|assets|] == extra;
  }

  // An asset appended for another variant index leaves a found asset found,
  // and so does any asset once the variant is found by its result key.
  lemma FoundStaysFound(assets: seq<Asset>, extra: Asset, j: Id, v: Variant)
    requires FindAsset(assets, j, v).Some?
    requires ResultAssets(assets, j, v.index) != {} || !(extra.source == GENERATED && extra.result == Some((j, v.index)))
    ensures FindAsset(assets + [extra], j, v) == FindAsset(assets, j, v)
  {
    ResultAssetsGrow(assets, extra, j, v.index);
    StorageAssetsGrow(assets, extra, v.storage);
    if ResultAssets(assets, j, v.index) != {} {
      LeastStays(ResultAssets(assets, j, v.index), ResultAssets(assets + [extra], j, v.index), |assets|);
    } else {
      LeastStays(StorageAssets(assets, v.storage), StorageAssets(assets + [extra], v.storage), |assets|);
    }
  }

  // Otherwise the appended asset takes the place of one found by its storage.
  lemma TwinIsFound(assets: seq<Asset>, extra: Asset, j: Id, v: Variant)
    requires ResultAssets(assets, j, v.index) == {} && extra.source == GENERATED && extra.result == Some((j, v.index))
    ensures FindAsset(assets + [extra], j, v) == Some(|assets|)
  {
    ResultAssetsGrow(assets, extra, j, v.index);
    assert ResultAssets(assets + [extra], j, v.index) == {|assets|};
  }

  // A variant finds the asset it has just created.
  lemma CreatedIsFound(assets: seq<Asset>, j: Id, v: Variant)
    requires Traceable(v) && FindAsset(assets, j, v).None?
    ensures FindAsset(assets + [NewAsset(j, v)], j, v) == Some(|assets|)
  {
    ResultAssetsGrow(assets, NewAsset(j, v), j, v.index);
    StorageAssetsGrow(assets, NewAsset(j, v), v.storage);
    if AssetSource(v) == GENERATED {
      TwinIsFound(assets, NewAsset(j, v), j, v);
    } else {
      assert StorageAssets(assets + [NewAsset(j, v)], v.storage) == {|assets|};
    }
  }

  lemma PlacedFinds(x: Pile, c: Parcel, v: Variant)
    requires Traceable(v)
    ensures FindAsset(Placed(x, c, v).assets, c.j, v) == Some(AssetFor(x.assets, c.j, v))
  {
    hide FindAsset, WithLink;
    if FindAsset(x.assets, c.j, v).None? {
      CreatedIsFound(x.assets, c.j, v);
    }
  }

  // Placing another variant moves a found variant to the new asset at most.
  lemma PlacedMoves(x: Pile, c: Parcel, u: Variant, v: Variant)
    requires FindAsset(x.assets, c.j, u).Some?
    ensures var found := FindAsset(Placed(x, c, v).assets, c.j, u);
            && found.Some?
            && (found == FindAsset(x.assets, c.j, u) || found.value == AssetFor(x.assets, c.j, v))
            && (u.index != v.index ==> found == FindAsset(x.assets, c.j, u))
  {
    hide FindAsset, WithLink, Least;
    if FindAsset(x.assets, c.j, v).None? {
      var extra := NewAsset(c.j, v);
      if ResultAssets(x.assets, c.j, u.index) == {} && extra.source == GENERATED && extra.result == Some((c.j, u.index)) {
        TwinIsFound(x.assets, extra, c.j, u);
      } else {
        FoundStaysFound(x.assets, extra, c.j, u);
      }
    }
  }

  // ---- Links ----

  // The assets linked to the product.
  function LinkedAssets(rows: set<Relation>, product: Option<Id>): set<Id> {
    match product
    case None => {}
    case Some(p) => set row | row in rows && row.owner == p :: row.asset
  }

  lemma LinkedMeans(rows: set<Relation>, p: Id, asset: Id)
    ensures Linked(rows, p, asset) <==> asset in LinkedAssets(rows, Some(p))
  {
  }

  lemma WithLinkLinks(rows: set<Relation>, product: Option<Id>, role: Role, asset: Id, v: Variant)
    ensures LinkedAssets(WithLink(rows, product, role, asset, v), product) ==
              LinkedAssets(rows, product) + (if product.Some? then {asset} else {})
    ensures rows <= WithLink(rows, product, role, asset, v)
    ensures product.None? || asset in LinkedAssets(rows, product) ==> WithLink(rows, product, role, asset, v) == rows
  {
    if product.Some? {
      LinkedMeans(rows, product.value, asset);
      var row := LinkRow(rows, product.value, role, asset, v);
      assert forall r :: r in rows + {row} <==> r in rows || r == row;
    }
  }

  // The variant's asset is found, and linked to the product if there is one.
  predicate Settled(x: Pile, c: Parcel, v: Variant) {
    var found := FindAsset(x.assets, c.j, v);
    found.Some? && (c.product.Some? ==> found.value in LinkedAssets(x.rows, c.product))
  }

  lemma PlacedSettles(x: Pile, c: Parcel, v: Variant)
    requires Traceable(v)
    ensures Settled(Placed(x, c, v), c, v)
  {
    hide FindAsset, WithLink, LinkedAssets, WithAsset, AssetFor, Traceable;
    WithLinkLinks(x.rows, c.product, c.role, AssetFor(x.assets, c.j, v), v);
    PlacedFinds(x, c, v);
  }

  lemma PlacedKeepsSettled(x: Pile, c: Parcel, u: Variant, v: Variant)
    requires Settled(x, c, u)
    ensures Settled(Placed(x, c, v), c, u)
  {
    hide FindAsset, WithLink, LinkedAssets, WithAsset, AssetFor;
    WithLinkLinks(x.rows, c.product, c.role, AssetFor(x.assets, c.j, v), v);
    PlacedMoves(x, c, u, v);
  }

  // The asset of every variant placed so far is found and linked, even if
  // indices are shared.
  lemma {:induction false} IdealSettles(x: Pile, c: Parcel, n: nat, i: nat)
    requires i < n <= |c.variants| && AllTraceable(c)
    ensures Settled(Ideal(x, c, n), c, c.variants[i])
  {
    hide AllTraceable, Traceable, Settled, Placed, Ideal;
    TraceableAt(c, n - 1);
    IdealNext(x, c, n - 1);
    if i == n - 1 {
      PlacedSettles(Ideal(x, c, n - 1), c, c.variants[n - 1]);
    } else {
      IdealSettles(x, c, n - 1, i);
      PlacedKeepsSettled(Ideal(x, c, n - 1), c, c.variants[i], c.variants[n - 1]);
    }
  }

  // ---- Partial states ----

  // The same links; row by row when the indices are distinct.
  predicate SameLinks(f: Pile, g: Pile, c: Parcel) {
    LinkedAssets(f.rows, c.product) == LinkedAssets(g.rows, c.product) && (DistinctIndices(c) ==> f.rows == g.rows)
  }

  // f stands between the k-th and the next state of the undisturbed delivery.
  predicate PartialAt(x: Pile, f: Pile, c: Parcel, k: nat)
    requires k <= |c.variants|
  {
    if k == |c.variants| then f.assets == Ideal(x, c, k).assets && SameLinks(f, Ideal(x, c, k), c)
    else
      var lo, hi := Ideal(x, c, k), Ideal(x, c, k + 1);
      || (f.assets == lo.assets && SameLinks(f, lo, c))
      || (f.assets == hi.assets && (SameLinks(f, lo, c) || SameLinks(f, hi, c)))
  }

  predicate Partial(x: Pile, f: Pile, c: Parcel) {
    exists k :: 0 <= k <= |c.variants| && PartialAt(x, f, c, k)
  }

  // What a write that may fail leaves of placing a variant.
  predicate Between(g: Pile, f: Pile, placed: Pile) {
    (g.assets == f.assets || g.assets == placed.assets) && (g.rows == f.rows || g == placed)
  }

  // A variant from before the interruption is found; its link, if it is not
  // there, is the one of the variant that was interrupted.
  lemma EarlierVariant(x: Pile, f: Pile, g: Pile, c: Parcel, k: nat, i: nat)
    requires AllTraceable(c) && i < k <= |c.variants| && PartialAt(x, f, c, k) && Between(g, f, Placed(f, c, c.variants[i]))
    ensures PartialAt(x, g, c, k)
  {
    hide FindAsset, WithLink, LinkedAssets, Ideal;
    var v, lo := c.variants[i], Ideal(x, c, k);
    IdealSettles(x, c, k, i);
    if k < |c.variants| {
      var hi := Ideal(x, c, k + 1);
      IdealNext(x, c, k);
      PlacedMoves(lo, c, v, c.variants[k]);
      WithLinkLinks(lo.rows, c.product, c.role, AssetFor(lo.assets, c.j, c.variants[k]), c.variants[k]);
    }
    WithLinkLinks(f.rows, c.product, c.role, AssetFor(f.assets, c.j, v), v);
  }

  lemma IdealNext(x: Pile, c: Parcel, k: nat)
    requires k < |c.variants|
    ensures Ideal(x, c, k + 1) == Placed(Ideal(x, c, k), c, c.variants[k])
  {
    hide Placed;
  }

  // The interrupted variant is taken up where it was left.
  lemma InterruptedVariant(x: Pile, f: Pile, g: Pile, c: Parcel, k: nat)
    requires AllTraceable(c) && k < |c.variants| && PartialAt(x, f, c, k) && Between(g, f, Placed(f, c, c.variants[k]))
    ensures PartialAt(x, g, c, k)
    ensures g == Placed(f, c, c.variants[k]) ==> g.assets == Ideal(x, c, k + 1).assets && SameLinks(g, Ideal(x, c, k + 1), c)
  {
    hide FindAsset, WithLink, LinkedAssets, Ideal;
    var v, lo := c.variants[k], Ideal(x, c, k);
    IdealNext(x, c, k);
    PlacedFinds(lo, c, v);
    WithLinkLinks(lo.rows, c.product, c.role, AssetFor(lo.assets, c.j, v), v);
    WithLinkLinks(f.rows, c.product, c.role, AssetFor(f.assets, c.j, v), v);
  }

  lemma ReachesNext(x: Pile, g: Pile, c: Parcel, k: nat)
    requires k < |c.variants| && g.assets == Ideal(x, c, k + 1).assets && SameLinks(g, Ideal(x, c, k + 1), c)
    ensures PartialAt(x, g, c, k + 1)
  {
    hide Ideal, SameLinks;
  }

  // ---- The service's deliveries ----

  function RowsOf(relations: map<Id, Relation>): set<Relation> {
    set r | r in relations :: relations[r]
  }

  function PileOf(d: Delivery): Pile {
    Pile(d.assets, RowsOf(d.store.relations))
  }

  predicate Carries(c: Parcel, job: Job, o: ResultAnswers) {
    && c.role == job.role && c.product == IdIn(job.meta, ProductKey)
    && |c.variants| <= |o.writes| && |c.variants| <= |o.rids|
  }

  // The relation ids drawn by an attempt are new.
  predicate Fresh(d: Delivery, o: ResultAnswers) {
    && (forall i :: 0 <= i < |o.rids| ==> o.rids[i] !in d.store.relations)
    && (forall i, k :: 0 <= i < k < |o.rids| ==> o.rids[i] != o.rids[k])
  }

  lemma RowsLink(relations: map<Id, Relation>, p: Id, asset: Id)
    ensures PA.Linked(relations, p, asset) <==> Linked(RowsOf(relations), p, asset)
    ensures PA.HasPrimary(relations, p) <==> HasPrimary(RowsOf(relations), p)
  {
    if PA.Linked(relations, p, asset) {
      var r :| r in relations && relations[r].owner == p && relations[r].asset == asset;
      assert relations[r] in RowsOf(relations);
    }
    if PA.HasPrimary(relations, p) {
      var r :| r in relations && relations[r].owner == p && relations[r].primary;
      assert relations[r] in RowsOf(relations);
    }
  }

  lemma RowsGrow(relations: map<Id, Relation>, rid: Id, row: Relation)
    requires rid !in relations
    ensures RowsOf(relations[rid := row]) == RowsOf(relations) + {row}
  {
    var more := relations[rid := row];
    forall x ensures x in RowsOf(more) <==> x in RowsOf(relations) + {row} {
      if x in RowsOf(relations) {
        var r :| r in relations && relations[r] == x;
        assert more[r] == x;
      }
      assert more[rid] == row;
    }
  }

  // A step of the service leaves something between the pile it found and that
  // pile with the variant placed; one that succeeds leaves the latter.
  lemma StepPlaces(d: Delivery, c: Parcel, job: Job, v: Variant, first: bool, w: VariantWrites, rid: Id)
    requires d.ok && rid !in d.store.relations && c.role == job.role && c.product == IdIn(job.meta, ProductKey)
    ensures var e := VariantStep(d, c.j, job, v, first, w, rid);
            && Between(PileOf(e), PileOf(d), Placed(PileOf(d), c, v))
            && (e.ok ==> PileOf(e) == Placed(PileOf(d), c, v))
            && (forall r :: r in e.store.relations ==> r in d.store.relations || r == rid)
  {
    hide FindAsset, PA.HasPrimary, PA.Linked, HasPrimary, Linked, RowsOf;
    if c.product.Some? {
      var asset := AssetFor(d.assets, c.j, v);
      RowsLink(d.store.relations, c.product.value, asset);
      RowsGrow(d.store.relations, rid, LinkRow(RowsOf(d.store.relations), c.product.value, c.role, asset, v));
    }
  }

  lemma {:induction false} DeliveryDrawsIds(d: Delivery, c: Parcel, job: Job, o: ResultAnswers, n: nat)
    requires Carries(c, job, o) && n <= |c.variants| && Fresh(d, o)
    ensures forall i :: n <= i < |o.rids| ==> o.rids[i] !in Deliver(d, c.j, job, c.variants, o, n).store.relations
  {
    hide VariantStep;
    if n > 0 {
      DeliveryDrawsIds(d, c, job, o, n - 1);
      var before := Deliver(d, c.j, job, c.variants, o, n - 1);
      if before.ok {
        StepPlaces(before, c, job, c.variants[n - 1], n == 1, o.writes[n - 1], o.rids[n - 1]);
      } else {
        FailedDeliveryStops(d, c.j, job, c.variants, o, n - 1, n);
      }
    }
  }

  // An attempt from a partial state does nothing up to where the last one was
  // interrupted, goes on with the undisturbed delivery from there, and leaves
  // a partial state wherever it fails.
  lemma {:induction false} AttemptResumes(x: Pile, d: Delivery, c: Parcel, job: Job, o: ResultAnswers, k: nat, n: nat) returns (end: nat)
    requires d.ok && Carries(c, job, o) && AllTraceable(c) && Fresh(d, o)
    requires k <= |c.variants| && n <= |c.variants| && PartialAt(x, PileOf(d), c, k)
    ensures var e := Deliver(d, c.j, job, c.variants, o, n);
            && end <= |c.variants| && PartialAt(x, PileOf(e), c, end)
            && (e.ok ==> end == if n <= k then k else n)
  {
    hide VariantStep, Placed, PartialAt, PileOf, Between;
    if n == 0 {
      end := k;
    } else {
      var i := n - 1;
      end := AttemptResumes(x, d, c, job, o, k, i);
      var before, after, v := Deliver(d, c.j, job, c.variants, o, i), Deliver(d, c.j, job, c.variants, o, n), c.variants[i];
      if before.ok {
        DeliveryDrawsIds(d, c, job, o, i);
        StepPlaces(before, c, job, v, n == 1, o.writes[i], o.rids[i]);
        if i < k {
          EarlierVariant(x, PileOf(before), PileOf(after), c, k, i);
        } else {
          InterruptedVariant(x, PileOf(before), PileOf(after), c, i);
          if after.ok {
            ReachesNext(x, PileOf(after), c, i);
            end := n;
          }
        }
      } else {
        FailedDeliveryStops(d, c.j, job, c.variants, o, i, n);
      }
    }
  }

  // Whatever failed before, and however often: an attempt that succeeds leaves
  // the assets and links of one undisturbed delivery, and one that fails a
  // state from which that still holds.
  lemma AttemptsConverge(x: Pile, d: Delivery, c: Parcel, job: Job, o: ResultAnswers)
    requires d.ok && Carries(c, job, o) && AllTraceable(c) && Fresh(d, o) && Partial(x, PileOf(d), c)
    ensures var e := Deliver(d, c.j, job, c.variants, o, |c.variants|);
            && Partial(x, PileOf(e), c)
            && (e.ok ==> e.assets == Ideal(x, c, |c.variants|).assets && SameLinks(PileOf(e), Ideal(x, c, |c.variants|), c))
  {
    hide Deliver, Ideal, SameLinks, Fresh, AllTraceable;
    var k :| 0 <= k <= |c.variants| && PartialAt(x, PileOf(d), c, k);
    var end := AttemptResumes(x, d, c, job, o, k, |c.variants|);
  }

  // ---- Attempts in a row ----

  // The state before any attempt is partial.
  lemma StartIsPartial(x: Pile, c: Parcel)
    ensures Partial(x, x, c)
  {
    hide Placed, LinkedAssets;
    assert Ideal(x, c, 0) == x;
    assert PartialAt(x, x, c, 0);
  }

  // Each attempt starts afresh from what the one before left.
  function Attempts(d: Delivery, c: Parcel, job: Job, os: seq<ResultAnswers>, n: nat): Delivery
    requires n <= |os| && forall i :: 0 <= i < |os| ==> Carries(c, job, os[i])
  {
    if n == 0 then d
    else Deliver(Attempts(d, c, job, os, n - 1).(selected := None, ok := true), c.j, job, c.variants, os[n - 1], |c.variants|)
  }

  predicate AllFresh(d: Delivery, c: Parcel, job: Job, os: seq<ResultAnswers>)
    requires forall i :: 0 <= i < |os| ==> Carries(c, job, os[i])
  {
    forall i :: 0 <= i < |os| ==> Fresh(Attempts(d, c, job, os, i), os[i])
  }

  predicate SomeSucceeded(d: Delivery, c: Parcel, job: Job, os: seq<ResultAnswers>, n: nat)
    requires n <= |os| && forall i :: 0 <= i < |os| ==> Carries(c, job, os[i])
  {
    n > 0 && (Attempts(d, c, job, os, n).ok || SomeSucceeded(d, c, job, os, n - 1))
  }

  lemma FinishedStaysFinished(x: Pile, d: Delivery, c: Parcel, job: Job, o: ResultAnswers)
    requires d.ok && Carries(c, job, o) && AllTraceable(c) && Fresh(d, o)
    requires PartialAt(x, PileOf(d), c, |c.variants|)
    ensures PartialAt(x, PileOf(Deliver(d, c.j, job, c.variants, o, |c.variants|)), c, |c.variants|)
  {
    hide Fresh, AllTraceable, PartialAt;
    FinishedPrefix(x, d, c, job, o, |c.variants|);
  }

  lemma {:induction false} FinishedPrefix(x: Pile, d: Delivery, c: Parcel, job: Job, o: ResultAnswers, n: nat)
    requires d.ok && Carries(c, job, o) && AllTraceable(c) && Fresh(d, o) && n <= |c.variants|
    requires PartialAt(x, PileOf(d), c, |c.variants|)
    ensures PartialAt(x, PileOf(Deliver(d, c.j, job, c.variants, o, n)), c, |c.variants|)
  {
    hide VariantStep, Placed, PartialAt, PileOf, Between;
    if n > 0 {
      var i := n - 1;
      FinishedPrefix(x, d, c, job, o, i);
      var before, after := Deliver(d, c.j, job, c.variants, o, i), Deliver(d, c.j, job, c.variants, o, n);
      if before.ok {
        DeliveryDrawsIds(d, c, job, o, i);
        StepPlaces(before, c, job, c.variants[i], n == 1, o.writes[i], o.rids[i]);
        EarlierVariant(x, PileOf(before), PileOf(after), c, |c.variants|, i);
      } else {
        FailedDeliveryStops(d, c.j, job, c.variants, o, i, n);
      }
    }
  }

  // From the first success on, and whatever fails before or after, the assets
  // and links are those of one undisturbed delivery.
  lemma {:induction false} AttemptsInARow(x: Pile, d: Delivery, c: Parcel, job: Job, os: seq<ResultAnswers>, n: nat)
    requires n <= |os| && (forall i :: 0 <= i < |os| ==> Carries(c, job, os[i])) && AllFresh(d, c, job, os)
    requires AllTraceable(c) && PileOf(d) == x
    ensures Partial(x, PileOf(Attempts(d, c, job, os, n)), c)
    ensures SomeSucceeded(d, c, job, os, n) ==> PartialAt(x, PileOf(Attempts(d, c, job, os, n)), c, |c.variants|)
  {
    hide Deliver, Ideal, Partial, PartialAt, Fresh, AllTraceable;
    if n == 0 {
      StartIsPartial(x, c);
    } else {
      AttemptsInARow(x, d, c, job, os, n - 1);
      var last := Attempts(d, c, job, os, n - 1);
      var before := last.(selected := None, ok := true);
      assert Fresh(last, os[n - 1]);
      FreshIgnoresOutcome(last, os[n - 1]);
      AttemptsConverge(x, before, c, job, os[n - 1]);
      if SomeSucceeded(d, c, job, os, n - 1) {
        FinishedStaysFinished(x, before, c, job, os[n - 1]);
      } else if Attempts(d, c, job, os, n).ok {
        FinishedIsPartialAtEnd(x, PileOf(Attempts(d, c, job, os, n)), c);
      }
    }
  }

  lemma FreshIgnoresOutcome(d: Delivery, o: ResultAnswers)
    requires Fresh(d, o)
    ensures Fresh(d.(selected := None, ok := true), o)
  {
  }

  lemma FinishedIsPartialAtEnd(x: Pile, f: Pile, c: Parcel)
    requires f.assets == Ideal(x, c, |c.variants|).assets && SameLinks(f, Ideal(x, c, |c.variants|), c)
    ensures PartialAt(x, f, c, |c.variants|)
  {
    hide Ideal, SameLinks;
  }

  // ---- After a completed delivery ----

  predicate AllSettled(x: Pile, c: Parcel) {
    forall i :: 0 <= i < |c.variants| ==> Settled(x, c, c.variants[i])
  }

  // A delivery that succeeded leaves every variant settled, whatever came before it.
  lemma CompletedDeliverySettlesAll(d: Delivery, c: Parcel, job: Job, o: ResultAnswers)
    requires d.ok && Carries(c, job, o) && AllTraceable(c) && Fresh(d, o)
    requires Deliver(d, c.j, job, c.variants, o, |c.variants|).ok
    ensures AllSettled(PileOf(Deliver(d, c.j, job, c.variants, o, |c.variants|)), c)
  {
    hide Deliver, Ideal, Fresh, LinkedAssets;
    var x, y := PileOf(d), PileOf(Deliver(d, c.j, job, c.variants, o, |c.variants|));
    StartIsPartial(x, c);
    AttemptsConverge(x, d, c, job, o);
    forall i | 0 <= i < |c.variants| ensures Settled(y, c, c.variants[i]) {
      IdealSettles(x, c, |c.variants|, i);
    }
  }

  lemma SettledIsLeftAlone(x: Pile, c: Parcel, v: Variant)
    requires Settled(x, c, v)
    ensures Placed(x, c, v) == x
  {
    hide FindAsset;
    WithLinkLinks(x.rows, c.product, c.role, AssetFor(x.assets, c.j, v), v);
  }

  // From then on no delivery, successful or not, adds an asset or a relation row.
  lemma RedeliveryAddsNothing(d: Delivery, c: Parcel, job: Job, o: ResultAnswers, n: nat)
    requires d.ok && Carries(c, job, o) && Fresh(d, o) && n <= |c.variants| && AllSettled(PileOf(d), c)
    ensures PileOf(Deliver(d, c.j, job, c.variants, o, n)) == PileOf(d)
  {
    hide VariantStep, Placed, PileOf, Settled;
    if n > 0 {
      var i := n - 1;
      RedeliveryAddsNothing(d, c, job, o, i);
      var before := Deliver(d, c.j, job, c.variants, o, i);
      if before.ok {
        DeliveryDrawsIds(d, c, job, o, i);
        StepPlaces(before, c, job, c.variants[i], n == 1, o.writes[i], o.rids[i]);
        SettledIsLeftAlone(PileOf(before), c, c.variants[i]);
      } else {
        FailedDeliveryStops(d, c.j, job, c.variants, o, i, n);
      }
    }
  }

  // ---- Selection ----

  // The last variant flagged as selected, or else the first.
  function ChosenIndex(variants: seq<Variant>, n: nat): nat
    requires n <= |variants|
  {
    if n == 0 then 0 else if variants[n - 1].selected then n - 1 else ChosenIndex(variants, n - 1)
  }

  lemma {:induction false} ChosenInRange(variants: seq<Variant>, n: nat)
    requires 0 < n <= |variants|
    ensures ChosenIndex(variants, n) < n
  {
    if n > 1 {
      ChosenInRange(variants, n - 1);
    }
  }

  // The asset the i-th variant gets in the course of a delivery.
  function AssetAt(d: Delivery, c: Parcel, job: Job, o: ResultAnswers, i: nat): Id
    requires Carries(c, job, o) && i < |c.variants|
  {
    AssetFor(Deliver(d, c.j, job, c.variants, o, i).assets, c.j, c.variants[i])
  }

  lemma {:induction false} SelectionAt(d: Delivery, c: Parcel, job: Job, o: ResultAnswers, n: nat)
    requires d.ok && d.selected.None? && Carries(c, job, o) && n <= |c.variants|
    requires Deliver(d, c.j, job, c.variants, o, n).ok
    ensures ChosenIndex(c.variants, n) < |c.variants| || n == 0
    ensures Deliver(d, c.j, job, c.variants, o, n).selected == if n == 0 then None else Some(AssetAt(d, c, job, o, ChosenIndex(c.variants, n)))
  {
    hide PA.Archive, FindAsset;
    if n > 0 {
      ChosenInRange(c.variants, n);
      SelectionAt(d, c, job, o, n - 1);
    }
  }

  // Among the first n variants a later generated one of the same index is found
  // neither by its key nor by its storage and so creates an asset under that key,
  // while the i-th variant's own asset was neither found nor created under it.
  predicate HasTwin(x: Pile, c: Parcel, i: nat, n: nat)
    requires i < |c.variants| && n <= |c.variants|
  {
    && ResultAssets(Ideal(x, c, i + 1).assets, c.j, c.variants[i].index) == {}
    && exists l :: i < l < n && CreatesTwin(x, c, i, l)
  }

  predicate CreatesTwin(x: Pile, c: Parcel, i: nat, l: nat)
    requires i < |c.variants| && l < |c.variants|
  {
    && AssetSource(c.variants[l]) == GENERATED && c.variants[l].index == c.variants[i].index
    && FindAsset(Ideal(x, c, l).assets, c.j, c.variants[l]).None?
  }

  // With distinct indices there is none.
  lemma DistinctHaveNoTwin(x: Pile, c: Parcel, i: nat, n: nat)
    requires i < |c.variants| && n <= |c.variants| && DistinctIndices(c)
    ensures !HasTwin(x, c, i, n)
  {
    hide Ideal, FindAsset;
  }

  lemma {:induction false} ResultKeysStay(x: Pile, c: Parcel, i: nat, n: nat, index: int)
    requires i <= n <= |c.variants|
    ensures |Ideal(x, c, i).assets| <= |Ideal(x, c, n).assets|
    ensures ResultAssets(Ideal(x, c, i).assets, c.j, index) <= ResultAssets(Ideal(x, c, n).assets, c.j, index)
    ensures forall a :: a in ResultAssets(Ideal(x, c, n).assets, c.j, index) && a !in ResultAssets(Ideal(x, c, i).assets, c.j, index)
              ==> a >= |Ideal(x, c, i).assets|
  {
    hide FindAsset, WithLink, ResultAssets;
    if i < n {
      ResultKeysStay(x, c, i, n - 1, index);
      var before := Ideal(x, c, n - 1);
      ResultAssetsGrow(before.assets, NewAsset(c.j, c.variants[n - 1]), c.j, index);
    }
  }

  // A variant that creates an asset for another index, or next to one already
  // found by the result key, displaces nothing.
  lemma NotDisplaced(y: Pile, c: Parcel, u: Variant, v: Variant)
    requires FindAsset(y.assets, c.j, u).Some?
    requires ResultAssets(y.assets, c.j, u.index) != {} || v.index != u.index || AssetSource(v) != GENERATED || FindAsset(y.assets, c.j, v).Some?
    ensures FindAsset(Placed(y, c, v).assets, c.j, u) == FindAsset(y.assets, c.j, u)
  {
    hide FindAsset, WithLink, ResultAssets, Least;
    if FindAsset(y.assets, c.j, v).None? {
      FoundStaysFound(y.assets, NewAsset(c.j, v), c.j, u);
    }
  }

  lemma NoTwinMeans(x: Pile, c: Parcel, i: nat, l: nat)
    requires i < l < |c.variants| && !HasTwin(x, c, i, l + 1)
    ensures var y, u, v := Ideal(x, c, l), c.variants[i], c.variants[l];
            ResultAssets(y.assets, c.j, u.index) != {} || v.index != u.index || AssetSource(v) != GENERATED || FindAsset(y.assets, c.j, v).Some?
  {
    hide FindAsset, ResultAssets, Ideal;
    ResultKeysStay(x, c, i + 1, l, c.variants[i].index);
    assert CreatesTwin(x, c, i, l) ==> ResultAssets(Ideal(x, c, i + 1).assets, c.j, c.variants[i].index) != {};
  }

  // After n variants the i-th finds the asset it got.
  predicate KeepsAsset(x: Pile, c: Parcel, i: nat, n: nat)
    requires i < n <= |c.variants|
  {
    FindAsset(Ideal(x, c, n).assets, c.j, c.variants[i]) == Some(AssetFor(Ideal(x, c, i).assets, c.j, c.variants[i]))
  }

  lemma KeepsAssetAtFirst(x: Pile, c: Parcel, i: nat)
    requires i < |c.variants| && Traceable(c.variants[i])
    ensures KeepsAsset(x, c, i, i + 1)
  {
    hide FindAsset, Placed, Ideal, AssetFor, Traceable;
    IdealNext(x, c, i);
    PlacedFinds(Ideal(x, c, i), c, c.variants[i]);
  }

  lemma KeepsAssetOnward(x: Pile, c: Parcel, i: nat, n: nat)
    requires i < n < |c.variants| && !HasTwin(x, c, i, n + 1) && KeepsAsset(x, c, i, n)
    ensures KeepsAsset(x, c, i, n + 1)
  {
    hide FindAsset, Placed, Ideal, AssetFor, HasTwin, ResultAssets;
    IdealNext(x, c, n);
    NoTwinMeans(x, c, i, n);
    NotDisplaced(Ideal(x, c, n), c, c.variants[i], c.variants[n]);
  }

  lemma FewerHaveNoTwin(x: Pile, c: Parcel, i: nat, n: nat)
    requires i < |c.variants| && 0 < n <= |c.variants| && !HasTwin(x, c, i, n)
    ensures !HasTwin(x, c, i, n - 1)
  {
    hide CreatesTwin, Ideal, ResultAssets;
  }

  // Without a twin the i-th variant keeps finding the asset it got.
  lemma {:induction false} NoTwinKeepsAsset(x: Pile, c: Parcel, i: nat, n: nat)
    requires i < n <= |c.variants| && AllTraceable(c) && !HasTwin(x, c, i, n)
    ensures KeepsAsset(x, c, i, n)
  {
    hide KeepsAsset, HasTwin, AllTraceable, Traceable;
    if i == n - 1 {
      TraceableAt(c, i);
      KeepsAssetAtFirst(x, c, i);
    } else {
      FewerHaveNoTwin(x, c, i, n);
      NoTwinKeepsAsset(x, c, i, n - 1);
      KeepsAssetOnward(x, c, i, n - 1);
    }
  }

  // With a twin it finds a later asset, and the same one however many follow.
  lemma TwinTakesOver(x: Pile, c: Parcel, i: nat, n: nat)
    requires i < |c.variants| && n <= |c.variants| && HasTwin(x, c, i, n)
    ensures i < n && ResultAssets(Ideal(x, c, n).assets, c.j, c.variants[i].index) != {}
    ensures FindAsset(Ideal(x, c, n).assets, c.j, c.variants[i]).Some?
    ensures FindAsset(Ideal(x, c, n).assets, c.j, c.variants[i]).value > AssetFor(Ideal(x, c, i).assets, c.j, c.variants[i])
  {
    hide Placed, Ideal, ResultAssets, FindAsset, Least, WithAsset, AssetFor;
    var index := c.variants[i].index;
    var l :| i < l < n && CreatesTwin(x, c, i, l);
    IdealNext(x, c, l);
    TwinAppears(Ideal(x, c, l), c, c.variants[l]);
    ResultKeysStay(x, c, l + 1, n, index);
    ResultKeysStay(x, c, i + 1, n, index);
    IdealNext(x, c, i);
    AssetIsInRange(Ideal(x, c, i), c, c.variants[i]);
    FoundByKey(Ideal(x, c, n).assets, c.j, c.variants[i]);
  }

  lemma KeyFoundStays(x: Pile, c: Parcel, v: Variant, n: nat, m: nat)
    requires n <= m <= |c.variants| && ResultAssets(Ideal(x, c, n).assets, c.j, v.index) != {}
    ensures FindAsset(Ideal(x, c, m).assets, c.j, v) == FindAsset(Ideal(x, c, n).assets, c.j, v)
  {
    hide Ideal, StorageAssets, Blank;
    ResultKeysStay(x, c, n, m, v.index);
    LeastStays(ResultAssets(Ideal(x, c, n).assets, c.j, v.index), ResultAssets(Ideal(x, c, m).assets, c.j, v.index), |Ideal(x, c, n).assets|);
  }

  lemma FoundByKey(assets: seq<Asset>, j: Id, v: Variant)
    requires ResultAssets(assets, j, v.index) != {}
    ensures FindAsset(assets, j, v).Some? && FindAsset(assets, j, v).value in ResultAssets(assets, j, v.index)
  {
  }

  lemma TwinAppears(x: Pile, c: Parcel, v: Variant)
    requires FindAsset(x.assets, c.j, v).None? && AssetSource(v) == GENERATED
    ensures ResultAssets(Placed(x, c, v).assets, c.j, v.index) != {}
  {
    hide WithLink;
    ResultAssetsGrow(x.assets, NewAsset(c.j, v), c.j, v.index);
  }

  lemma AssetIsInRange(x: Pile, c: Parcel, v: Variant)
    ensures AssetFor(x.assets, c.j, v) < |Placed(x, c, v).assets|
  {
    hide WithLink;
  }

  // An attempt that succeeds, from the assets of the first r variants, which is
  // what failed attempts leave.
  predicate Selecting(x: Pile, d: Delivery, c: Parcel, job: Job, o: ResultAnswers, r: nat) {
    && d.ok && d.selected.None? && Carries(c, job, o) && r <= |c.variants| && d.assets == Ideal(x, c, r).assets
    && Deliver(d, c.j, job, c.variants, o, |c.variants|).ok
  }

  lemma PartialReaches(x: Pile, f: Pile, c: Parcel) returns (r: nat)
    requires Partial(x, f, c)
    ensures r <= |c.variants| && f.assets == Ideal(x, c, r).assets
  {
    hide Ideal, SameLinks;
    var k :| 0 <= k <= |c.variants| && PartialAt(x, f, c, k);
    r := if f.assets == Ideal(x, c, k).assets then k else k + 1;
  }

  lemma StepAssets(d: Delivery, j: Id, job: Job, v: Variant, first: bool, w: VariantWrites, rid: Id)
    requires VariantStep(d, j, job, v, first, w, rid).ok
    ensures d.ok && VariantStep(d, j, job, v, first, w, rid).assets == WithAsset(d.assets, j, v)
  {
    hide FindAsset, PA.Archive;
  }

  // Its assets on the way: nothing is added for the first r variants.
  lemma {:induction false} AttemptAssets(x: Pile, d: Delivery, c: Parcel, job: Job, o: ResultAnswers, r: nat, n: nat)
    requires Carries(c, job, o) && AllTraceable(c) && r <= |c.variants| && n <= |c.variants|
    requires d.assets == Ideal(x, c, r).assets && Deliver(d, c.j, job, c.variants, o, n).ok
    ensures Deliver(d, c.j, job, c.variants, o, n).assets == Ideal(x, c, if n <= r then r else n).assets
  {
    hide VariantStep, FindAsset, WithLink, Ideal, AllTraceable;
    if n > 0 {
      var v, before := c.variants[n - 1], Deliver(d, c.j, job, c.variants, o, n - 1);
      StepAssets(before, c.j, job, v, n == 1, o.writes[n - 1], o.rids[n - 1]);
      AttemptAssets(x, d, c, job, o, r, n - 1);
      if n <= r {
        IdealSettles(x, c, r, n - 1);
      } else {
        IdealNext(x, c, n - 1);
      }
    }
  }

  // It selects the asset its chosen variant finds when its turn comes.
  lemma SelectedAfter(x: Pile, d: Delivery, c: Parcel, job: Job, o: ResultAnswers, r: nat)
    requires Selecting(x, d, c, job, o, r) && AllTraceable(c) && c.variants != []
    ensures var i := ChosenIndex(c.variants, |c.variants|);
            && i < |c.variants|
            && Deliver(d, c.j, job, c.variants, o, |c.variants|).selected
               == Some(AssetFor(Ideal(x, c, if i <= r then r else i).assets, c.j, c.variants[i]))
  {
    hide Deliver, Ideal, AssetFor, AllTraceable;
    var m := |c.variants|;
    var i := ChosenIndex(c.variants, m);
    ChosenInRange(c.variants, m);
    SelectionAt(d, c, job, o, m);
    if !Deliver(d, c.j, job, c.variants, o, i).ok {
      FailedDeliveryStops(d, c.j, job, c.variants, o, i, m);
    }
    AttemptAssets(x, d, c, job, o, r, i);
  }

  // Whatever failed before: a successful attempt selects the asset that one
  // undisturbed delivery selects, unless the chosen variant has a twin among
  // those that had their assets already.
  lemma SelectionIff(x: Pile, d: Delivery, c: Parcel, job: Job, o: ResultAnswers, r: nat)
    requires Selecting(x, d, c, job, o, r) && AllTraceable(c) && c.variants != []
    ensures var i := ChosenIndex(c.variants, |c.variants|);
            && i < |c.variants|
            && (Deliver(d, c.j, job, c.variants, o, |c.variants|).selected == Some(AssetFor(Ideal(x, c, i).assets, c.j, c.variants[i]))
                <==> !HasTwin(x, c, i, r))
  {
    hide Selecting, Deliver, Ideal, FindAsset, AllTraceable, CreatesTwin, ResultAssets;
    SelectedAfter(x, d, c, job, o, r);
    SelectingReaches(x, d, c, job, o, r);
    var i := ChosenIndex(c.variants, |c.variants|);
    if HasTwin(x, c, i, r) {
      TwinTakesOver(x, c, i, r);
    } else if i < r {
      NoTwinKeepsAsset(x, c, i, r);
    }
  }

  lemma SelectingReaches(x: Pile, d: Delivery, c: Parcel, job: Job, o: ResultAnswers, r: nat)
    requires Selecting(x, d, c, job, o, r)
    ensures r <= |c.variants| && Carries(c, job, o)
  {
  }

  // Two successful attempts select different assets exactly when only one of
  // them came after the twin.
  lemma SelectionsDifferIff(x: Pile, d: Delivery, e: Delivery, c: Parcel, job: Job, o: ResultAnswers, again: ResultAnswers, r: nat, q: nat)
    requires Selecting(x, d, c, job, o, r) && Selecting(x, e, c, job, again, q) && r <= q && AllTraceable(c) && c.variants != []
    ensures var i := ChosenIndex(c.variants, |c.variants|);
            && i < |c.variants|
            && (Deliver(d, c.j, job, c.variants, o, |c.variants|).selected != Deliver(e, c.j, job, c.variants, again, |c.variants|).selected
                <==> HasTwin(x, c, i, q) && !HasTwin(x, c, i, r))
  {
    hide Selecting, Deliver, Ideal, FindAsset, AllTraceable, CreatesTwin, ResultAssets;
    SelectionIff(x, d, c, job, o, r);
    SelectionIff(x, e, c, job, again, q);
    SelectingReaches(x, d, c, job, o, r);
    SelectingReaches(x, e, c, job, again, q);
    var i := ChosenIndex(c.variants, |c.variants|);
    if HasTwin(x, c, i, r) {
      TwinTakesOver(x, c, i, r);
      KeyFoundStays(x, c, c.variants[i], r, q);
      SelectedAfter(x, d, c, job, o, r);
      SelectedAfter(x, e, c, job, again, q);
    }
  }

  // A redelivery after a completed delivery selects another asset exactly when
  // the chosen variant has a twin.
  lemma ReselectionIff(d: Delivery, c: Parcel, job: Job, o: ResultAnswers, again: ResultAnswers)
    requires d.ok && d.selected.None? && Carries(c, job, o) && Carries(c, job, again) && AllTraceable(c) && c.variants != []
    requires var once := Deliver(d, c.j, job, c.variants, o, |c.variants|);
             once.ok && Deliver(once.(selected := None), c.j, job, c.variants, again, |c.variants|).ok
    ensures var once := Deliver(d, c.j, job, c.variants, o, |c.variants|);
            var twice := Deliver(once.(selected := None), c.j, job, c.variants, again, |c.variants|);
            && ChosenIndex(c.variants, |c.variants|) < |c.variants|
            && (twice.selected != once.selected <==> HasTwin(PileOf(d), c, ChosenIndex(c.variants, |c.variants|), |c.variants|))
  {
    hide Deliver, FindAsset, AllTraceable, CreatesTwin, ResultAssets, Placed;
    var x, m := PileOf(d), |c.variants|;
    assert Ideal(x, c, 0) == x;
    AttemptAssets(x, d, c, job, o, 0, m);
    SelectionsDifferIff(x, d, Deliver(d, c.j, job, c.variants, o, m).(selected := None), c, job, o, again, 0, m);
  }

  // ---- The whole callback ----

  function PileIn(w: World): Pile {
    Pile(w.assets, RowsOf(w.store.relations))
  }

  // Calls with the same results, in any number and failing anywhere, keep to
  // the undisturbed delivery; one that returns a row has completed it.
  lemma ResultsConverge(x: Pile, w: World, j: Id, input: ResultInput, o: ResultAnswers, c: Parcel)
    requires j in w.jobs && |input.variants| <= |o.writes| && |input.variants| <= |o.rids|
    requires c == Parcel(j, w.jobs[j].role, IdIn(w.jobs[j].meta + input.meta, ProductKey), input.variants)
    requires AllTraceable(c) && Fresh(Delivery(w.assets, w.store, None, true), o) && Partial(x, PileIn(w), c)
    ensures var (t, row) := RecordResults(w, j, input, o);
            && Partial(x, PileIn(t), c)
            && (row.Some? ==> t.assets == Ideal(x, c, |c.variants|).assets && SameLinks(PileIn(t), Ideal(x, c, |c.variants|), c))
  {
    hide Deliver, Placed, FindAsset, FinalizeCharge, Persist, PartialAt, Fresh, AllTraceable, SameLinks;
    var job := Stamped(w.jobs[j], input);
    assert Carries(c, job, o);
    AttemptsConverge(x, Delivery(w.assets, w.store, None, true), c, job, o);
  }

  // Two variants of one index: the second delivery selects another asset.
  lemma SharedIndexChangesSelection(store: Store, job: Job, o: ResultAnswers, j: Id)
    requires IdIn(job.meta, ProductKey).None? && |o.writes| == |o.rids| == 2
    requires o.writes[0].create && o.writes[1].create
    ensures var stored := Asset("upload", "key", None);
            var variants := [Variant(1, true, GENERATED, "key"), Variant(1, false, GENERATED, "")];
            var once := Deliver(Delivery([stored], store, None, true), j, job, variants, o, 2);
            var twice := Deliver(Delivery(once.assets, once.store, None, true), j, job, variants, o, 2);
            && once.ok && twice.ok && twice.assets == once.assets
            && once.selected == Some(0) && twice.selected == Some(1)
  {
    var stored := Asset("upload", "key", None);
    var v, u := Variant(1, true, GENERATED, "key"), Variant(1, false, GENERATED, "");
    var variants := [v, u];
    var before, after := [stored], [stored, NewAsset(j, u)];
    assert !Blank("key") && Blank("") && !Blank(GENERATED);
    assert ResultAssets(before, j, 1) == {} && StorageAssets(before, "key") == {0};
    assert FindAsset(before, j, v) == Some(0) && FindAsset(before, j, u) == None;
    assert after[1] == Asset(GENERATED, "", Some((j, 1)));
    assert ResultAssets(after, j, 1) == {1};
    assert FindAsset(after, j, v) == Some(1) && FindAsset(after, j, u) == Some(1);
    var d := Delivery(before, store, None, true);
    var e := Delivery(after, store, None, true);
    assert Deliver(d, j, job, variants, o, 0) == d && Deliver(e, j, job, variants, o, 0) == e;
    assert VariantStep(d, j, job, v, true, o.writes[0], o.rids[0]) == Delivery(before, store, Some(0), true);
    assert VariantStep(e, j, job, v, true, o.writes[0], o.rids[0]) == Delivery(after, store, Some(1), true);
    assert Deliver(d, j, job, variants, o, 1) == Delivery(before, store, Some(0), true);
    assert Deliver(e, j, job, variants, o, 1) == Delivery(after, store, Some(1), true);
    assert before + [NewAsset(j, u)] == after;
    assert Deliver(d, j, job, variants, o, 2) == VariantStep(Delivery(before, store, Some(0), true), j, job, u, false, o.writes[1], o.rids[1]);
  }
}
