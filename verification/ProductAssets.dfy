/** Links between assets and products: adding, editing, deleting, governing in
    batches, and archiving generated results. Every write may fail, so the
    states between two writes are results of steps whose next write failed. */
module ProductAssets {
  import opened Options
  import opened ProductCenter

  // Which writes of a step succeed.
  datatype Writes = Writes(clear: bool, save: bool, activity: bool, assetStatus: bool, mainStatus: bool)

  datatype AssetError =
    | AssetRequired | InvalidKind | InvalidRole | ProductNotFound | AssetNotFound | AlreadyLinked | RelationNotFound
    | ClearFailed | SaveFailed | ActivityFailed | SyncFailed

  datatype Outcome = Done | Rejected(error: AssetError)

  // asset is None for a blank id; kind and role are None for a text outside the known ones.
  datatype AssetInput = AssetInput(asset: Option<Id>, kind: Option<RelationKind>, role: Option<Role>, primary: bool, sortOrder: int)

  // None leaves a field alone; Some(None) is a text outside the known ones.
  datatype Patch = Patch(kind: Option<Option<RelationKind>>, role: Option<Option<Role>>, primary: Option<bool>, sortOrder: Option<int>)

  // ---- Writing one relation ----

  predicate Linked(relations: map<Id, Relation>, p: Id, asset: Id) {
    exists r :: r in relations && relations[r].owner == p && relations[r].asset == asset
  }

  predicate HasPrimary(relations: map<Id, Relation>, p: Id) {
    exists r :: r in relations && relations[r].owner == p && relations[r].primary
  }

  function ClearPrimaries(relations: map<Id, Relation>, p: Id, except: Id): map<Id, Relation> {
    map r | r in relations :: if relations[r].owner == p && r != except then relations[r].(primary := false) else relations[r]
  }

  // The other primaries are cleared before the row is written.
  function WriteRelation(relations: map<Id, Relation>, rid: Id, row: Relation, makePrimary: bool, w: Writes): (map<Id, Relation>, Outcome) {
    if makePrimary && !w.clear then (relations, Rejected(ClearFailed))
    else
      var cleared := if makePrimary then ClearPrimaries(relations, row.owner, rid) else relations;
      if w.save then (cleared[rid := row], Done) else (cleared, Rejected(SaveFailed))
  }

  function Patched(row: Relation, patch: Patch): Relation {
    row.(kind := if patch.kind.Some? && patch.kind.value.Some? then patch.kind.value.value else row.kind,
         role := if patch.role.Some? && patch.role.value.Some? then patch.role.value.value else row.role,
         primary := if patch.primary.Some? then patch.primary.value else row.primary,
         sortOrder := if patch.sortOrder.Some? then patch.sortOrder.value else row.sortOrder)
  }

  // Errors of the two status writes are ignored.
  function Refreshed(s: Store, p: Id, w: Writes): Store {
    var counted := if w.assetStatus then RefreshAssetStatus(s, p) else s;
    if w.mainStatus then RefreshMainStatus(counted, p) else counted
  }

  // ---- Steps ----

  function AddAsset(s: Store, library: set<Id>, p: Id, rid: Id, input: AssetInput, w: Writes): (Store, Outcome) {
    if input.asset.None? then (s, Rejected(AssetRequired))
    else if input.kind.None? then (s, Rejected(InvalidKind))
    else if input.role.None? then (s, Rejected(InvalidRole))
    else if p !in s.products then (s, Rejected(ProductNotFound))
    else if input.asset.value !in library then (s, Rejected(AssetNotFound))
    else if Linked(s.relations, p, input.asset.value) then (s, Rejected(AlreadyLinked))
    else
      var row := Relation(input.asset.value, p, input.kind.value, input.role.value, input.primary, input.sortOrder);
      var (relations, outcome) := WriteRelation(s.relations, rid, row, input.primary, w);
      if outcome == Done then (Refreshed(s.(relations := relations), p, w), Done) else (s.(relations := relations), outcome)
  }

  function UpdateAsset(s: Store, p: Id, rid: Id, patch: Patch, w: Writes): (Store, Outcome) {
    if p !in s.products then (s, Rejected(ProductNotFound))
    else if rid !in s.relations || s.relations[rid].owner != p then (s, Rejected(RelationNotFound))
    else if patch.kind == Some(None) then (s, Rejected(InvalidKind))
    else if patch.role == Some(None) then (s, Rejected(InvalidRole))
    else
      var (relations, outcome) := WriteRelation(s.relations, rid, Patched(s.relations[rid], patch), patch.primary == Some(true), w);
      if outcome == Done then (Refreshed(s.(relations := relations), p, w), Done) else (s.(relations := relations), outcome)
  }

  // The row is deleted by its id alone, whichever product owns it.
  function DeleteAsset(s: Store, p: Id, rid: Id, w: Writes): (Store, Outcome) {
    if w.save then (Refreshed(s.(relations := s.relations - {rid}), p, w), Done) else (s, Rejected(SaveFailed))
  }

  // No status is refreshed.
  function Govern(s: Store, rid: Id, patch: Patch, w: Writes): (Store, Outcome) {
    if rid !in s.relations then (s, Rejected(RelationNotFound))
    else if patch.role == Some(None) then (s, Rejected(InvalidRole))
    else
      var row := Patched(s.relations[rid], patch.(kind := None));
      var (relations, outcome) := WriteRelation(s.relations, rid, row, patch.primary == Some(true), w);
      (s.(relations := relations), outcome)
  }

  // A generated result is linked once, as primary only where there is none.
  function Archive(s: Store, p: Option<Id>, rid: Id, asset: Id, role: Role, selected: bool, index: int, w: Writes): (Store, Outcome) {
    if p.None? then (s, Done)
    else if p.value !in s.products then (s, Rejected(ProductNotFound))
    else if Linked(s.relations, p.value, asset) then (s, Done)
    else if !w.save then (s, Rejected(SaveFailed))
    else
      var row := Relation(asset, p.value, ResultAsset, role, selected && !HasPrimary(s.relations, p.value), index);
      var linked := s.(relations := s.relations[rid := row]);
      if !w.activity then (linked, Rejected(ActivityFailed))
      else if !w.assetStatus then (linked, Rejected(SyncFailed))
      else (SyncStatuses(linked, p.value), Done)
  }

  // ---- Batch ----

  const MAX_BATCH := 100

  datatype BatchRefusal = NoIds | TooManyIds | PrimaryNeedsOne

  datatype BatchReply = BatchRefused(reason: BatchRefusal) | BatchReply(results: seq<(Id, Outcome)>, succeeded: nat, failed: nat)

  function Sanitized(ids: seq<Option<Id>>): seq<Id> {
    if ids == [] then []
    else Sanitized(ids[..|ids| - 1]) + (match ids[|ids| - 1] case None => [] case Some(id) => [id])
  }

  // The state and the answers after the first n relations.
  function GovernAll(s: Store, ids: seq<Id>, patch: Patch, ws: seq<Writes>, n: nat): (Store, seq<(Id, Outcome)>)
    requires n <= |ids| <= |ws|
  {
    if n == 0 then (s, [])
    else
      var (before, results) := GovernAll(s, ids, patch, ws, n - 1);
      var (after, outcome) := Govern(before, ids[n - 1], patch, ws[n - 1]);
      (after, results + [(ids[n - 1], outcome)])
  }

  function CountDone(results: seq<(Id, Outcome)>): nat {
    if results == [] then 0
    else CountDone(results[..|results| - 1]) + (if results[|results| - 1].1 == Done then 1 else 0)
  }

  function GovernBatch(s: Store, raw: seq<Option<Id>>, patch: Patch, ws: seq<Writes>): (Store, BatchReply)
    requires |Sanitized(raw)| <= |ws|
  {
    var ids := Sanitized(raw);
    if ids == [] then (s, BatchRefused(NoIds))
    else if |ids| > MAX_BATCH then (s, BatchRefused(TooManyIds))
    else if patch.primary == Some(true) && |ids| > 1 then (s, BatchRefused(PrimaryNeedsOne))
    else
      var (after, results) := GovernAll(s, ids, patch, ws, |ids|);
      CountDoneAtMost(results);
      (after, BatchReply(results, CountDone(results), |results| - CountDone(results)))
  }

  lemma CountDoneAppends(results: seq<(Id, Outcome)>, last: (Id, Outcome))
    ensures CountDone(results + [last]) == CountDone(results) + (if last.1 == Done then 1 else 0)
  {
    assert (results + [last])[..|results|] == results;
  }

  lemma CountDoneAtMost(results: seq<(Id, Outcome)>)
    ensures CountDone(results) <= |results|
  {
  }

  // ---- The service ----

  method SaveRelation(core: ProductCore, rid: Id, row: Relation, makePrimary: bool, w: Writes) returns (outcome: Outcome)
    modifies core
    ensures core.Contents() == old(core.Contents()).(relations := core.relations)
    ensures (core.relations, outcome) == WriteRelation(old(core.relations), rid, row, makePrimary, w)
  {
    if makePrimary {
      if !w.clear {
        return Rejected(ClearFailed);
      }
      core.relations := ClearPrimaries(core.relations, row.owner, rid);
    }
    if !w.save {
      return Rejected(SaveFailed);
    }
    core.relations := core.relations[rid := row];
    return Done;
  }

  method RefreshStatuses(core: ProductCore, p: Id, w: Writes)
    modifies core
    ensures core.Contents() == Refreshed(old(core.Contents()), p, w)
  {
    if w.assetStatus {
      core.UpdateAssetStatus(p);
    }
    if w.mainStatus {
      core.UpdateMainStatus(p);
    }
  }

  method AddProductAsset(core: ProductCore, library: set<Id>, p: Id, rid: Id, input: AssetInput, w: Writes) returns (outcome: Outcome)
    modifies core
    ensures (core.Contents(), outcome) == AddAsset(old(core.Contents()), library, p, rid, input, w)
  {
    if input.asset.None? { return Rejected(AssetRequired); }
    if input.kind.None? { return Rejected(InvalidKind); }
    if input.role.None? { return Rejected(InvalidRole); }
    if p !in core.products { return Rejected(ProductNotFound); }
    if input.asset.value !in library { return Rejected(AssetNotFound); }
    if Linked(core.relations, p, input.asset.value) { return Rejected(AlreadyLinked); }
    var row := Relation(input.asset.value, p, input.kind.value, input.role.value, input.primary, input.sortOrder);
    outcome := SaveRelation(core, rid, row, input.primary, w);
    if outcome == Done {
      RefreshStatuses(core, p, w);
    }
  }

  method UpdateProductAsset(core: ProductCore, p: Id, rid: Id, patch: Patch, w: Writes) returns (outcome: Outcome)
    modifies core
    ensures (core.Contents(), outcome) == UpdateAsset(old(core.Contents()), p, rid, patch, w)
  {
    if p !in core.products { return Rejected(ProductNotFound); }
    if rid !in core.relations || core.relations[rid].owner != p { return Rejected(RelationNotFound); }
    if patch.kind == Some(None) { return Rejected(InvalidKind); }
    if patch.role == Some(None) { return Rejected(InvalidRole); }
    outcome := SaveRelation(core, rid, Patched(core.relations[rid], patch), patch.primary == Some(true), w);
    if outcome == Done {
      RefreshStatuses(core, p, w);
    }
  }

  method DeleteProductAsset(core: ProductCore, p: Id, rid: Id, w: Writes) returns (outcome: Outcome)
    modifies core
    ensures (core.Contents(), outcome) == DeleteAsset(old(core.Contents()), p, rid, w)
  {
    if !w.save {
      return Rejected(SaveFailed);
    }
    core.relations := core.relations - {rid};
    RefreshStatuses(core, p, w);
    return Done;
  }

  method ApplyGovernancePatch(core: ProductCore, rid: Id, patch: Patch, w: Writes) returns (outcome: Outcome)
    modifies core
    ensures (core.Contents(), outcome) == Govern(old(core.Contents()), rid, patch, w)
  {
    if rid !in core.relations { return Rejected(RelationNotFound); }
    if patch.role == Some(None) { return Rejected(InvalidRole); }
    outcome := SaveRelation(core, rid, Patched(core.relations[rid], patch.(kind := None)), patch.primary == Some(true), w);
  }

  method BatchUpdateGovernance(core: ProductCore, raw: seq<Option<Id>>, patch: Patch, ws: seq<Writes>) returns (reply: BatchReply)
    requires |Sanitized(raw)| <= |ws|
    modifies core
    ensures (core.Contents(), reply) == GovernBatch(old(core.Contents()), raw, patch, ws)
  {
    var ids := Sanitized(raw);
    if ids == [] { return BatchRefused(NoIds); }
    if |ids| > MAX_BATCH { return BatchRefused(TooManyIds); }
    if patch.primary == Some(true) && |ids| > 1 { return BatchRefused(PrimaryNeedsOne); }
    var results, succeeded, failed, i := [], 0, 0, 0;
    while i < |ids|
      invariant 0 <= i <= |ids|
      invariant (core.Contents(), results) == GovernAll(old(core.Contents()), ids, patch, ws, i)
      invariant |results| == i && succeeded == CountDone(results) && failed == i - succeeded
    {
      var outcome := ApplyGovernancePatch(core, ids[i], patch, ws[i]);
      CountDoneAppends(results, (ids[i], outcome));
      results := results + [(ids[i], outcome)];
      if outcome == Done {
        succeeded := succeeded + 1;
      } else {
        failed := failed + 1;
      }
      i := i + 1;
    }
    return BatchReply(results, succeeded, failed);
  }

  method ArchiveGeneratedAsset(core: ProductCore, p: Option<Id>, rid: Id, asset: Id, role: Role, selected: bool, index: int, w: Writes)
    returns (outcome: Outcome)
    modifies core
    ensures (core.Contents(), outcome) == Archive(old(core.Contents()), p, rid, asset, role, selected, index, w)
  {
    if p.None? { return Done; }
    if p.value !in core.products { return Rejected(ProductNotFound); }
    if Linked(core.relations, p.value, asset) { return Done; }
    var primary := selected && !HasPrimary(core.relations, p.value);
    if !w.save { return Rejected(SaveFailed); }
    core.relations := core.relations[rid := Relation(asset, p.value, ResultAsset, role, primary, index)];
    if !w.activity { return Rejected(ActivityFailed); }
    if !w.assetStatus { return Rejected(SyncFailed); }
    core.SyncProductStatuses(p.value);
    return Done;
  }

  // ---- One primary, one link ----

  predicate OnePrimary(relations: map<Id, Relation>) {
    forall a, b :: a in relations && b in relations && relations[a].owner == relations[b].owner && relations[a].primary && relations[b].primary
      ==> a == b
  }

  predicate LinkedOnce(relations: map<Id, Relation>) {
    forall a, b :: a in relations && b in relations && relations[a].owner == relations[b].owner && relations[a].asset == relations[b].asset
      ==> a == b
  }

  predicate Sound(relations: map<Id, Relation>) {
    OnePrimary(relations) && LinkedOnce(relations)
  }

  // A row may be written when it keeps its link or is a new one, and is
  // primary only if the others are cleared or there are none.
  predicate Writable(relations: map<Id, Relation>, rid: Id, row: Relation, makePrimary: bool) {
    && (rid in relations ==> relations[rid].owner == row.owner && relations[rid].asset == row.asset)
    && (rid !in relations ==> !Linked(relations, row.owner, row.asset))
    && (row.primary && !makePrimary ==> forall r :: r in relations && relations[r].owner == row.owner && relations[r].primary ==> r == rid)
  }

  lemma WriteKeepsSound(relations: map<Id, Relation>, rid: Id, row: Relation, makePrimary: bool, w: Writes)
    requires Sound(relations) && Writable(relations, rid, row, makePrimary)
    ensures Sound(WriteRelation(relations, rid, row, makePrimary, w).0)
  {
  }

  datatype AssetStep =
    | Add(library: set<Id>, p: Id, rid: Id, input: AssetInput, w: Writes)
    | Update(p: Id, rid: Id, patch: Patch, w: Writes)
    | Delete(p: Id, rid: Id, w: Writes)
    | GovernOne(rid: Id, patch: Patch, w: Writes)
    | GovernMany(ids: seq<Option<Id>>, patch: Patch, ws: seq<Writes>)
    | ArchiveOne(product: Option<Id>, rid: Id, asset: Id, role: Role, selected: bool, index: int, w: Writes)

  // Generated ids are new; the oracle answers every write of a batch.
  predicate Possible(s: Store, step: AssetStep) {
    match step
    case Add(_, _, rid, _, _) => rid !in s.relations
    case ArchiveOne(_, rid, _, _, _, _, _) => rid !in s.relations
    case GovernMany(ids, _, ws) => |Sanitized(ids)| <= |ws|
    case _ => true
  }

  function ApplyStep(s: Store, step: AssetStep): Store
    requires Possible(s, step)
  {
    match step
    case Add(library, p, rid, input, w) => AddAsset(s, library, p, rid, input, w).0
    case Update(p, rid, patch, w) => UpdateAsset(s, p, rid, patch, w).0
    case Delete(p, rid, w) => DeleteAsset(s, p, rid, w).0
    case GovernOne(rid, patch, w) => Govern(s, rid, patch, w).0
    case GovernMany(ids, patch, ws) => GovernBatch(s, ids, patch, ws).0
    case ArchiveOne(p, rid, asset, role, selected, index, w) => Archive(s, p, rid, asset, role, selected, index, w).0
  }

  lemma {:induction false} GovernAllKeepsSound(s: Store, ids: seq<Id>, patch: Patch, ws: seq<Writes>, n: nat)
    requires n <= |ids| <= |ws| && Sound(s.relations)
    ensures Sound(GovernAll(s, ids, patch, ws, n).0.relations)
  {
    if n > 0 {
      GovernAllKeepsSound(s, ids, patch, ws, n - 1);
      GovernKeepsSound(GovernAll(s, ids, patch, ws, n - 1).0, ids[n - 1], patch, ws[n - 1]);
    }
  }

  lemma GovernKeepsSound(s: Store, rid: Id, patch: Patch, w: Writes)
    requires Sound(s.relations)
    ensures Sound(Govern(s, rid, patch, w).0.relations)
  {
    if rid in s.relations {
      WriteKeepsSound(s.relations, rid, Patched(s.relations[rid], patch.(kind := None)), patch.primary == Some(true), w);
    }
  }

  lemma AddKeepsSound(s: Store, library: set<Id>, p: Id, rid: Id, input: AssetInput, w: Writes)
    requires Sound(s.relations) && rid !in s.relations
    ensures Sound(AddAsset(s, library, p, rid, input, w).0.relations)
  {
    if AddAsset(s, library, p, rid, input, w).0 != s {
      var row := Relation(input.asset.value, p, input.kind.value, input.role.value, input.primary, input.sortOrder);
      WriteKeepsSound(s.relations, rid, row, input.primary, w);
    }
  }

  lemma UpdateKeepsSound(s: Store, p: Id, rid: Id, patch: Patch, w: Writes)
    requires Sound(s.relations)
    ensures Sound(UpdateAsset(s, p, rid, patch, w).0.relations)
  {
    if UpdateAsset(s, p, rid, patch, w).0 != s {
      WriteKeepsSound(s.relations, rid, Patched(s.relations[rid], patch), patch.primary == Some(true), w);
    }
  }

  lemma ArchiveKeepsSound(s: Store, p: Option<Id>, rid: Id, asset: Id, role: Role, selected: bool, index: int, w: Writes)
    requires Sound(s.relations) && rid !in s.relations
    ensures Sound(Archive(s, p, rid, asset, role, selected, index, w).0.relations)
  {
    if Archive(s, p, rid, asset, role, selected, index, w).0 != s {
      var row := Relation(asset, p.value, ResultAsset, role, selected && !HasPrimary(s.relations, p.value), index);
      WriteKeepsSound(s.relations, rid, row, false, w);
    }
  }

  // At most one primary per product, and no asset linked twice to a product,
  // whichever writes of the step fail.
  lemma StepKeepsSound(s: Store, step: AssetStep)
    requires Possible(s, step) && Sound(s.relations)
    ensures Sound(ApplyStep(s, step).relations)
  {
    match step
    case Add(library, p, rid, input, w) => AddKeepsSound(s, library, p, rid, input, w);
    case Update(p, rid, patch, w) => UpdateKeepsSound(s, p, rid, patch, w);
    case Delete(p, rid, w) =>
    case GovernOne(rid, patch, w) => GovernKeepsSound(s, rid, patch, w);
    case GovernMany(ids, patch, ws) => GovernAllKeepsSound(s, Sanitized(ids), patch, ws, |Sanitized(ids)|);
    case ArchiveOne(p, rid, asset, role, selected, index, w) => ArchiveKeepsSound(s, p, rid, asset, role, selected, index, w);
  }

  ghost predicate PossibleRun(s: Store, steps: seq<AssetStep>)
    decreases |steps|
  {
    steps == [] || (Possible(s, steps[0]) && PossibleRun(ApplyStep(s, steps[0]), steps[1..]))
  }

  function Run(s: Store, steps: seq<AssetStep>): Store
    requires PossibleRun(s, steps)
    decreases |steps|
  {
    if steps == [] then s else Run(ApplyStep(s, steps[0]), steps[1..])
  }

  lemma {:induction false} RunKeepsSound(s: Store, steps: seq<AssetStep>)
    requires PossibleRun(s, steps) && Sound(s.relations)
    ensures Sound(Run(s, steps).relations)
    decreases |steps|
  {
    if steps == [] {
    } else {
      StepKeepsSound(s, steps[0]);
      RunKeepsSound(ApplyStep(s, steps[0]), steps[1..]);
    }
  }

  // ---- Batch accounting ----

  lemma {:induction false} GovernAllAnswersEach(s: Store, ids: seq<Id>, patch: Patch, ws: seq<Writes>, n: nat)
    requires n <= |ids| <= |ws|
    ensures var results := GovernAll(s, ids, patch, ws, n).1;
            |results| == n && forall i :: 0 <= i < n ==> results[i].0 == ids[i]
  {
    if n > 0 {
      GovernAllAnswersEach(s, ids, patch, ws, n - 1);
    }
  }

  // The ids that were given, in order.
  lemma {:induction false} SanitizedKeepsIds(raw: seq<Option<Id>>)
    ensures forall id :: id in Sanitized(raw) <==> Some(id) in raw
    ensures |Sanitized(raw)| == |set i | 0 <= i < |raw| && raw[i].Some?|
  {
    if raw != [] {
      var n := |raw| - 1;
      SanitizedKeepsIds(raw[..n]);
      assert raw == raw[..n] + [raw[n]];
      var before, after := set i | 0 <= i < n && raw[..n][i].Some?, set i | 0 <= i < |raw| && raw[i].Some?;
      assert after == if raw[n].Some? then before + {n} else before;
    }
  }

  lemma {:induction false} CountDoneCounts(results: seq<(Id, Outcome)>)
    ensures CountDone(results) == |set i | 0 <= i < |results| && results[i].1 == Done|
  {
    if results != [] {
      var n := |results| - 1;
      CountDoneCounts(results[..n]);
      var before, after := set i | 0 <= i < n && results[..n][i].1 == Done, set i | 0 <= i < |results| && results[i].1 == Done;
      assert after == if results[n].1 == Done then before + {n} else before;
    }
  }

  // A batch of none or of more than a hundred relations, or with a primary flag
  // for more than one, is refused and changes nothing; any other answers each
  // relation in order and counts the answers.
  lemma BatchAccounting(s: Store, raw: seq<Option<Id>>, patch: Patch, ws: seq<Writes>)
    requires |Sanitized(raw)| <= |ws|
    ensures var (t, reply) := GovernBatch(s, raw, patch, ws);
            var given := |set i | 0 <= i < |raw| && raw[i].Some?|;
            && (reply == BatchRefused(NoIds) <==> given == 0) && (reply == BatchRefused(TooManyIds) <==> given > 100)
            && (reply == BatchRefused(PrimaryNeedsOne) <==> 1 < given <= 100 && patch.primary == Some(true))
            && (reply.BatchRefused? ==> t == s)
            && (reply.BatchReply? ==>
                  && |reply.results| == |Sanitized(raw)| == given && reply.succeeded + reply.failed == given
                  && reply.succeeded == |set i | 0 <= i < |reply.results| && reply.results[i].1 == Done|
                  && (forall i :: 0 <= i < |reply.results| ==> reply.results[i].0 == Sanitized(raw)[i]))
  {
    SanitizedKeepsIds(raw);
    GovernAllAnswersEach(s, Sanitized(raw), patch, ws, |Sanitized(raw)|);
    CountDoneCounts(GovernAll(s, Sanitized(raw), patch, ws, |Sanitized(raw)|).1);
  }

  // ---- Status resynchronisation ----

  // The recount of a product depends on its own relations only.
  lemma RecountFrame(a: map<Id, Relation>, b: map<Id, Relation>, q: Id)
    requires RelationsOf(a, q) == RelationsOf(b, q)
    requires forall r :: r in RelationsOf(a, q) ==> a[r].role == b[r].role
    ensures AssetRecount(a, q) == AssetRecount(b, q)
  {
    forall role ensures HasRole(a, q, role) == HasRole(b, q, role) {
      if r :| r in a && a[r].owner == q && a[r].role == role {
        assert r in RelationsOf(b, q);
      }
      if r :| r in b && b[r].owner == q && b[r].role == role {
        assert r in RelationsOf(a, q);
      }
    }
  }

  // ---- What each call stores ----

  // The row is stored; where it is to be primary, no other of its owner is.
  predicate Stored(before: map<Id, Relation>, after: map<Id, Relation>, rid: Id, row: Relation, makePrimary: bool) {
    && after.Keys == before.Keys + {rid} && after[rid] == row
    && forall r :: r in before && r != rid ==>
         after[r] == if makePrimary && before[r].owner == row.owner then before[r].(primary := false) else before[r]
  }

  // A write that failed after the other primaries were cleared leaves them so.
  predicate NotStored(before: map<Id, Relation>, after: map<Id, Relation>, rid: Id, owner: Id, cleared: bool) {
    && after.Keys == before.Keys
    && forall r :: r in before ==>
         after[r] == if cleared && before[r].owner == owner && r != rid then before[r].(primary := false) else before[r]
  }

  lemma WriteReports(relations: map<Id, Relation>, rid: Id, row: Relation, makePrimary: bool, w: Writes)
    ensures var (after, outcome) := WriteRelation(relations, rid, row, makePrimary, w);
            && outcome == (if makePrimary && !w.clear then Rejected(ClearFailed) else if !w.save then Rejected(SaveFailed) else Done)
            && (outcome == Done ==> Stored(relations, after, rid, row, makePrimary))
            && (outcome != Done ==> NotStored(relations, after, rid, row.owner, makePrimary && w.clear))
  {
  }

  lemma RefreshKeepsRelations(s: Store, p: Id, w: Writes)
    ensures Refreshed(s, p, w).relations == s.relations
  {
    hide AssetRecount, DerivedStatus;
  }

  // The first thing that is wrong with an addition is what it is refused for.
  lemma AddReports(s: Store, library: set<Id>, p: Id, rid: Id, input: AssetInput, w: Writes)
    ensures var (t, outcome) := AddAsset(s, library, p, rid, input, w);
            && outcome == (if input.asset.None? then Rejected(AssetRequired) else if input.kind.None? then Rejected(InvalidKind)
                           else if input.role.None? then Rejected(InvalidRole) else if p !in s.products then Rejected(ProductNotFound)
                           else if input.asset.value !in library then Rejected(AssetNotFound)
                           else if exists r :: r in s.relations && s.relations[r].owner == p && s.relations[r].asset == input.asset.value then Rejected(AlreadyLinked)
                           else if input.primary && !w.clear then Rejected(ClearFailed) else if !w.save then Rejected(SaveFailed) else Done)
            && (outcome == Done ==>
                  Stored(s.relations, t.relations, rid, Relation(input.asset.value, p, input.kind.value, input.role.value, input.primary, input.sortOrder), input.primary))
            && (outcome != Done ==> t == s.(relations := t.relations) && NotStored(s.relations, t.relations, rid, p, outcome == Rejected(SaveFailed) && input.primary))
  {
    hide WriteRelation, Refreshed, Stored;
    if input.asset.Some? && input.kind.Some? && input.role.Some? {
      var row := Relation(input.asset.value, p, input.kind.value, input.role.value, input.primary, input.sortOrder);
      WriteReports(s.relations, rid, row, input.primary, w);
      RefreshKeepsRelations(s.(relations := WriteRelation(s.relations, rid, row, input.primary, w).0), p, w);
    }
  }

  // The fields a patch gives, and the others as they were.
  predicate Shows(row: Relation, patch: Patch, kindToo: bool, next: Relation) {
    && next.asset == row.asset && next.owner == row.owner
    && next.kind == (if kindToo && patch.kind.Some? && patch.kind.value.Some? then patch.kind.value.value else row.kind)
    && next.role == (if patch.role.Some? && patch.role.value.Some? then patch.role.value.value else row.role)
    && next.primary == (if patch.primary.Some? then patch.primary.value else row.primary)
    && next.sortOrder == (if patch.sortOrder.Some? then patch.sortOrder.value else row.sortOrder)
  }

  lemma UpdateReports(s: Store, p: Id, rid: Id, patch: Patch, w: Writes)
    ensures var (t, outcome) := UpdateAsset(s, p, rid, patch, w);
            var makePrimary := patch.primary == Some(true);
            && outcome == (if p !in s.products then Rejected(ProductNotFound)
                           else if !(rid in s.relations && s.relations[rid].owner == p) then Rejected(RelationNotFound)
                           else if patch.kind == Some(None) then Rejected(InvalidKind) else if patch.role == Some(None) then Rejected(InvalidRole)
                           else if makePrimary && !w.clear then Rejected(ClearFailed) else if !w.save then Rejected(SaveFailed) else Done)
            && (outcome == Done ==> rid in t.relations && Shows(s.relations[rid], patch, true, t.relations[rid]))
            && (outcome == Done ==> rid in t.relations && Stored(s.relations, t.relations, rid, t.relations[rid], makePrimary))
            && (outcome != Done ==> t == s.(relations := t.relations) && NotStored(s.relations, t.relations, rid, p, outcome == Rejected(SaveFailed) && makePrimary))
  {
    hide WriteRelation, Refreshed;
    if p in s.products && rid in s.relations && s.relations[rid].owner == p {
      var row := Patched(s.relations[rid], patch);
      WriteReports(s.relations, rid, row, patch.primary == Some(true), w);
      RefreshKeepsRelations(s.(relations := WriteRelation(s.relations, rid, row, patch.primary == Some(true), w).0), p, w);
    }
  }

  // Governance is by the relation alone, leaves its kind, and counts nothing.
  lemma GovernReports(s: Store, rid: Id, patch: Patch, w: Writes)
    ensures var (t, outcome) := Govern(s, rid, patch, w);
            var makePrimary := patch.primary == Some(true);
            && t == s.(relations := t.relations)
            && outcome == (if rid !in s.relations then Rejected(RelationNotFound) else if patch.role == Some(None) then Rejected(InvalidRole)
                           else if makePrimary && !w.clear then Rejected(ClearFailed) else if !w.save then Rejected(SaveFailed) else Done)
            && (outcome == Done ==> rid in t.relations && Shows(s.relations[rid], patch, false, t.relations[rid]))
            && (outcome == Done ==> rid in t.relations && Stored(s.relations, t.relations, rid, t.relations[rid], makePrimary))
            && (outcome != Done && rid in s.relations ==>
                  NotStored(s.relations, t.relations, rid, s.relations[rid].owner, outcome == Rejected(SaveFailed) && makePrimary))
            && (rid !in s.relations ==> t == s)
  {
    hide WriteRelation;
    if rid in s.relations {
      WriteReports(s.relations, rid, Patched(s.relations[rid], patch.(kind := None)), patch.primary == Some(true), w);
    }
  }

  // Only the relation of that id goes, whichever product owns it.
  lemma DeleteReports(s: Store, p: Id, rid: Id, w: Writes)
    ensures var (t, outcome) := DeleteAsset(s, p, rid, w);
            if w.save then outcome == Done && t.relations == s.relations - {rid} else outcome == Rejected(SaveFailed) && t == s
  {
    RefreshKeepsRelations(s.(relations := s.relations - {rid}), p, w);
  }

  // A result is linked unless it is, as a result and at its index; primary if
  // it was selected and the product has none.
  lemma ArchiveReports(s: Store, p: Option<Id>, rid: Id, asset: Id, role: Role, selected: bool, index: int, w: Writes)
    ensures var (t, outcome) := Archive(s, p, rid, asset, role, selected, index, w);
            var skip := p.None? || exists r :: r in s.relations && s.relations[r].owner == p.value && s.relations[r].asset == asset;
            && outcome == (if p.Some? && p.value !in s.products then Rejected(ProductNotFound) else if skip then Done
                           else if !w.save then Rejected(SaveFailed) else if !w.activity then Rejected(ActivityFailed)
                           else if !w.assetStatus then Rejected(SyncFailed) else Done)
            && (if skip || outcome == Rejected(ProductNotFound) || outcome == Rejected(SaveFailed) then t == s
                else var primary := selected && forall r :: r in s.relations && s.relations[r].owner == p.value ==> !s.relations[r].primary;
                     t.relations == s.relations[rid := Relation(asset, p.value, ResultAsset, role, primary, index)])
  {
    hide AssetRecount, DerivedStatus;
  }

  predicate StatusWritesOk(w: Writes) {
    w.assetStatus && w.mainStatus
  }

  predicate InStep(s: Store, p: Id) {
    AssetsInStep(s, p) && MainInStep(s, p)
  }

  // An asset call that returns nil repairs both statuses of its product,
  // whatever they were before.
  lemma NilMeansInStep(s: Store, library: set<Id>, p: Id, rid: Id, input: AssetInput, patch: Patch, w: Writes)
    requires StatusWritesOk(w)
    ensures AddAsset(s, library, p, rid, input, w).1 == Done ==> InStep(AddAsset(s, library, p, rid, input, w).0, p)
    ensures UpdateAsset(s, p, rid, patch, w).1 == Done ==> InStep(UpdateAsset(s, p, rid, patch, w).0, p)
    ensures DeleteAsset(s, p, rid, w).1 == Done ==> InStep(DeleteAsset(s, p, rid, w).0, p)
  {
    hide AssetsInStep, MainInStep, OnlyStatusesOf, ListingInStep, AssetRecount, DerivedStatus;
    var added := AddAsset(s, library, p, rid, input, w);
    if added.1 == Done {
      var row := Relation(input.asset.value, p, input.kind.value, input.role.value, input.primary, input.sortOrder);
      RefreshAssetsRepairs(s.(relations := WriteRelation(s.relations, rid, row, input.primary, w).0), p);
    }
    var updated := UpdateAsset(s, p, rid, patch, w);
    if updated.1 == Done {
      var row := Patched(s.relations[rid], patch);
      RefreshAssetsRepairs(s.(relations := WriteRelation(s.relations, rid, row, patch.primary == Some(true), w).0), p);
    }
    RefreshAssetsRepairs(s.(relations := s.relations - {rid}), p);
  }

  predicate AllInStep(s: Store) {
    forall q :: q in s.products ==> InStep(s, q)
  }

  // A deletion through the owning product keeps every product in step.
  lemma DeleteThroughOwnerKeepsAllInStep(s: Store, p: Id, rid: Id, w: Writes)
    requires AllInStep(s) && StatusWritesOk(w)
    requires rid in s.relations ==> s.relations[rid].owner == p
    ensures AllInStep(DeleteAsset(s, p, rid, w).0)
  {
    hide AssetsInStep, ListingInStep, MainFits, AssetRecount, DerivedStatus;
    var cut := s.(relations := s.relations - {rid});
    var t := DeleteAsset(s, p, rid, w).0;
    RefreshAssetsRepairs(cut, p);
    forall q | q in t.products ensures InStep(t, q) {
      assert InStep(s, q);
      if q != p {
        RecountFrame(s.relations, cut.relations, q);
        AssetsInStepMeans(s, q);
        AssetsInStepMeans(t, q);
      }
    }
  }

  // The owner's last relation, or the last in one of the two roles it needs
  // where it has both.
  predicate Needed(relations: map<Id, Relation>, rid: Id)
    requires rid in relations
  {
    var row := relations[rid];
    || RelationsOf(relations, row.owner) == {rid}
    || (&& (row.role == Hero || row.role == ModelShot)
        && HasRole(relations, row.owner, Hero) && HasRole(relations, row.owner, ModelShot)
        && forall r :: r in relations && relations[r].owner == row.owner && relations[r].role == row.role ==> r == rid)
  }

  lemma RemovalKeepsRole(relations: map<Id, Relation>, rid: Id, q: Id, role: Role)
    requires rid in relations
    ensures HasRole(relations - {rid}, q, role) <==>
              exists r :: r in relations && r != rid && relations[r].owner == q && relations[r].role == role
  {
    var cut := relations - {rid};
    forall r | r in relations && r != rid && relations[r].owner == q && relations[r].role == role ensures HasRole(cut, q, role) {
      assert r in cut && cut[r].owner == q && cut[r].role == role;
    }
  }

  lemma RecountNeeds(relations: map<Id, Relation>, rid: Id)
    requires rid in relations
    ensures AssetRecount(relations - {rid}, relations[rid].owner) == AssetRecount(relations, relations[rid].owner) <==> !Needed(relations, rid)
  {
    var q := relations[rid].owner;
    assert rid in RelationsOf(relations, q);
    assert RelationsOf(relations - {rid}, q) == RelationsOf(relations, q) - {rid};
    RemovalKeepsRole(relations, rid, q, Hero);
    RemovalKeepsRole(relations, rid, q, ModelShot);
  }

  // Through another product it takes the owner out of step exactly when the
  // owner needed that relation.
  lemma DeleteElsewhereMayDrift(s: Store, p: Id, rid: Id, w: Writes)
    requires AllInStep(s) && StatusWritesOk(w) && w.save
    requires rid in s.relations && s.relations[rid].owner != p && s.relations[rid].owner in s.products
    ensures AssetsInStep(DeleteAsset(s, p, rid, w).0, s.relations[rid].owner) <==> !Needed(s.relations, rid)
  {
    hide AssetRecount, Needed, AssetsInStep, ListingInStep, MainFits;
    var q, t := s.relations[rid].owner, DeleteAsset(s, p, rid, w).0;
    RefreshAssetsRepairs(s.(relations := s.relations - {rid}), p);
    assert InStep(s, q);
    RecountNeeds(s.relations, rid);
    AssetsInStepMeans(s, q);
    AssetsInStepMeans(t, q);
  }

  // Product 2 deletes the only relation of product 1, whose status stays partial.
  lemma StatusIsLeftBehind(s: Store)
    requires s.products == map[1 := Product("a", "", Draft, Partial, Missing, ExportPending),
                               2 := Product("b", "", Draft, Missing, Missing, ExportPending)]
    requires s.relations == map[9 := Relation(4, 1, SourceAsset, Hero, false, 0)]
    ensures AllInStep(s)
    ensures var t := DeleteAsset(s, 2, 9, Writes(true, true, true, true, true)).0;
            9 !in t.relations && 1 in t.products && t.products[1].assets == Partial && forall r :: r in t.relations ==> t.relations[r].owner != 1
  {
    assert 9 in RelationsOf(s.relations, 1);
    assert RelationsOf(s.relations, 2) == {};
    assert RelationsOf(s.relations - {9}, 1) == {};
    assert InStep(s, 1) && InStep(s, 2);
  }

  // A status whose write fails stays as it was; the others follow the rows.
  lemma RefreshReports(s: Store, p: Id, w: Writes)
    requires p in s.products
    ensures var t := Refreshed(s, p, w);
            && t == s.(products := t.products) && t.products.Keys == s.products.Keys
            && (forall q :: q in s.products && q != p ==> t.products[q] == s.products[q])
            && t.products[p] == s.products[p].(assets := t.products[p].assets, status := t.products[p].status)
            && (if w.assetStatus then AssetsInStep(t, p) else t.products[p].assets == s.products[p].assets)
            && (if w.mainStatus then MainInStep(t, p) else t.products[p].status == s.products[p].status)
  {
    hide AssetRecount, DerivedStatus, AssetsInStep, MainFits;
    var counted := if w.assetStatus then RefreshAssetStatus(s, p) else s;
    AssetsInStepMeans(Refreshed(s, p, w), p);
    DerivedFits(counted.products[p]);
  }
}
