/** The stage view of a visual workflow: readiness from sources, parsing job,
    prompt plan, generations and platform capabilities; the overall readiness,
    the integration verdict and the release readiness drawn from it. */
module StageView {
  import opened Options
  import opened Text

  // ---- Statuses ----

  const READY := "ready"
  const PARTIAL := "partial"
  const MISSING := "missing"
  const BLOCKED := "blocked"
  const QUEUED := "queued"
  const PROCESSING := "processing"
  const COMPLETED := "completed"
  const CANCELED := "canceled"
  const SUCCEEDED := "succeeded"
  const FAILED := "failed"
  const ERROR := "error"
  const INVALID := "invalid"
  const CONTRACT_NEEDED := "contract_needed"
  const UNAVAILABLE := "unavailable"
  const PASS := "pass"
  const FAIL := "fail"
  const SKU := "sku"
  const REFERENCE := "reference"
  const IMAGE_UNDERSTANDING := "image_understanding"
  const IMAGE_GENERATION := "image_generation"

  // ---- Inputs ----

  // role is the text of the source_role metadata, "" if there is none.
  datatype Source = Source(kind: string, status: string, role: string)

  datatype DeconstructionJob = DeconstructionJob(status: string, taskType: string, contractError: bool)

  datatype PlanBlocker = PlanBlocker(code: string, target: string)

  // origin and centerStatus are metadata texts.
  datatype PromptPlan = PromptPlan(status: string, origin: string, centerStatus: string, blockers: seq<PlanBlocker>)

  datatype Version = Version(
    runtimeJob: string,
    resultAssets: nat,
    status: string,
    stage: string,
    selectedAsset: string,
    writebackDone: bool,
    writebackStatus: string,
    deliveryStatus: string,
    chargeStatus: string,
    browserStatus: string)

  datatype Capability = Capability(task: string, status: string, available: bool)

  datatype CapabilityAnswer = NoReader | ReadFailed | NoMatrix | Matrix(items: seq<Capability>)

  // Persisted readiness, and what the repositories and the platform answer.
  datatype Session = Session(
    source: string,
    deconstruction: string,
    prompt: string,
    generation: string,
    sources: seq<Source>,
    job: Option<DeconstructionJob>,
    plan: PromptPlan,
    versions: seq<Version>,
    capabilities: CapabilityAnswer)

  // ---- Blockers ----

  datatype Code =
    | SourceMissing | DualTrackSourceRequired | DualTrackSkuRequired | DualTrackReferenceRequired
    | ContractNeeded | CapabilityError | CapabilityUnavailable

  datatype Target = SourceReference | SourceReferences | ParsingJob | PromptTarget(text: string) | Generation | Capabilities | CapabilityOf(task: string)

  datatype Blocker = Blocker(code: Code, target: Target)

  function Append(blockers: seq<Blocker>, b: Blocker): seq<Blocker> {
    if b in blockers then blockers else blockers + [b]
  }

  predicate IsSourceBlocker(b: Blocker) {
    || b.target == SourceReference || b.target == SourceReferences
    || b.code == DualTrackSourceRequired || b.code == DualTrackSkuRequired || b.code == DualTrackReferenceRequired || b.code == SourceMissing
  }

  function WithoutSourceBlockers(blockers: seq<Blocker>): seq<Blocker> {
    if blockers == [] then []
    else (if IsSourceBlocker(blockers[0]) then [] else [blockers[0]]) + WithoutSourceBlockers(blockers[1..])
  }

  // ---- The view ----

  datatype View = View(
    source: string,
    deconstruction: string,
    prompt: string,
    generation: string,
    blockers: seq<Blocker>,
    capabilities: seq<Capability>,
    capabilityError: bool)

  // Blockers are not persisted: every view starts from the default one.
  function StartView(s: Session): View {
    View(s.source, s.deconstruction, s.prompt, s.generation, [Blocker(SourceMissing, SourceReference)], [], false)
  }

  // ---- Sources ----

  function RoleOf(src: Source): string {
    var role := Lowered(Trim(src.role));
    if role == REFERENCE || role == SKU then role else if src.kind == "url" then REFERENCE else SKU
  }

  predicate HasRole(sources: seq<Source>, role: string) {
    exists i :: 0 <= i < |sources| && RoleOf(sources[i]) == role
  }

  predicate NeedsContract(sources: seq<Source>) {
    exists i :: 0 <= i < |sources| && sources[i].status == CONTRACT_NEEDED
  }

  function AppendIf(blockers: seq<Blocker>, missing: bool, b: Blocker): seq<Blocker> {
    if missing then Append(blockers, b) else blockers
  }

  function SourceBlockers(blockers: seq<Blocker>, sources: seq<Source>): seq<Blocker> {
    if sources == [] then Append(blockers, Blocker(DualTrackSourceRequired, SourceReferences))
    else
      var contract := AppendIf(blockers, NeedsContract(sources), Blocker(ContractNeeded, SourceReference));
      var sku := AppendIf(contract, !HasRole(sources, SKU), Blocker(DualTrackSkuRequired, SourceReferences));
      AppendIf(sku, !HasRole(sources, REFERENCE), Blocker(DualTrackReferenceRequired, SourceReferences))
  }

  predicate SourcesReady(sources: seq<Source>) {
    sources != [] && !NeedsContract(sources) && HasRole(sources, SKU) && HasRole(sources, REFERENCE)
  }

  function WithSources(v: View, sources: seq<Source>): View {
    v.(blockers := SourceBlockers(WithoutSourceBlockers(v.blockers), sources), source := if SourcesReady(sources) then READY else BLOCKED)
  }

  // ---- Parsing job ----

  function WithJob(v: View, job: Option<DeconstructionJob>): View {
    match job
    case None => v
    case Some(d) =>
      if d.status == COMPLETED then v.(deconstruction := READY)
      else if d.status == CONTRACT_NEEDED then v.(deconstruction := BLOCKED, blockers := v.blockers + [Blocker(ContractNeeded, ParsingJob)])
      else v.(deconstruction := PARTIAL)
  }

  // ---- Prompt and generation ----

  predicate PromptReady(plan: PromptPlan) {
    plan.status == READY && (Trim(plan.origin) == "backend_intent_fusion" || Trim(plan.centerStatus) == "validated")
  }

  // The plan's own contract blockers, from the n-th on.
  function PlanBlockers(blockers: seq<Blocker>, planned: seq<PlanBlocker>, n: nat): seq<Blocker>
    requires n <= |planned|
  {
    if n == 0 then blockers
    else
      var before, b := PlanBlockers(blockers, planned, n - 1), planned[n - 1];
      if b.code == "CONTRACT_NEEDED" && Trim(b.target) == "prompt_plan" then Append(before, Blocker(ContractNeeded, PromptTarget(b.target))) else before
  }

  function WithPrompt(v: View, plan: PromptPlan): View {
    if PromptReady(plan) then v.(prompt := READY)
    else v.(prompt := BLOCKED,
            blockers := PlanBlockers(Append(v.blockers, Blocker(ContractNeeded, PromptTarget("prompt_plan"))), plan.blockers, |plan.blockers|))
  }

  predicate HasProviderResult(version: Version) {
    !Blank(version.runtimeJob) && version.resultAssets > 0 && (version.status == COMPLETED || version.stage == "result_available")
  }

  predicate Generated(versions: seq<Version>) {
    exists i :: 0 <= i < |versions| && HasProviderResult(versions[i])
  }

  function WithGeneration(v: View, versions: seq<Version>): View {
    if Generated(versions) then v.(generation := READY)
    else v.(generation := BLOCKED, blockers := Append(v.blockers, Blocker(ContractNeeded, Generation)))
  }

  // ---- Platform capabilities ----

  // The last item listed for a task counts.
  function LastFor(items: seq<Capability>, task: string, n: nat): Option<Capability>
    requires n <= |items|
  {
    if n == 0 then None else if items[n - 1].task == task then Some(items[n - 1]) else LastFor(items, task, n - 1)
  }

  predicate Unavailable(c: Capability) {
    !c.available || c.status == UNAVAILABLE
  }

  predicate NeedsParsing(job: Option<DeconstructionJob>) {
    job.Some? && job.value.status != COMPLETED &&
    (job.value.taskType == IMAGE_UNDERSTANDING || job.value.contractError || job.value.status == CONTRACT_NEEDED)
  }

  function CapabilityBlocked(v: View, task: string, job: Option<DeconstructionJob>): View {
    if task == IMAGE_UNDERSTANDING then
      v.(blockers := v.blockers + [Blocker(CapabilityUnavailable, CapabilityOf(task))],
         deconstruction := if NeedsParsing(job) then BLOCKED else v.deconstruction)
    else if task == IMAGE_GENERATION then
      v.(blockers := v.blockers + [Blocker(CapabilityUnavailable, CapabilityOf(task))], generation := BLOCKED)
    else v
  }

  function WithTask(v: View, items: seq<Capability>, task: string, job: Option<DeconstructionJob>): View {
    match LastFor(items, task, |items|)
    case None => v
    case Some(c) =>
      var listed := v.(capabilities := v.capabilities + [c]);
      if Unavailable(c) then CapabilityBlocked(listed, task, job) else listed
  }

  const TASKS := [IMAGE_UNDERSTANDING, IMAGE_GENERATION, "image_inpainting", "video_keyframe"]

  function WithTasks(v: View, items: seq<Capability>, job: Option<DeconstructionJob>, n: nat): View
    requires n <= |TASKS|
  {
    if n == 0 then v else WithTask(WithTasks(v, items, job, n - 1), items, TASKS[n - 1], job)
  }

  function WithCapabilities(v: View, answer: CapabilityAnswer, job: Option<DeconstructionJob>): View {
    match answer
    case NoReader => v
    case NoMatrix => v
    case ReadFailed => v.(capabilityError := true, blockers := v.blockers + [Blocker(CapabilityError, Capabilities)])
    case Matrix(items) => WithTasks(v, items, job, |TASKS|)
  }

  // ---- The whole view ----

  function ReadView(s: Session): View {
    var parsed := WithJob(WithSources(StartView(s), s.sources), s.job);
    WithCapabilities(WithGeneration(WithPrompt(parsed, s.plan), s.versions), s.capabilities, s.job)
  }

  function Overall(v: View): string {
    if v.source == BLOCKED || v.deconstruction == BLOCKED || v.prompt == BLOCKED || v.generation == BLOCKED || v.blockers != [] then BLOCKED
    else if v.source == READY && v.deconstruction == READY && v.prompt == READY && v.generation == READY then READY
    else if v.source == MISSING then MISSING
    else PARTIAL
  }

  // ---- Business flow ----

  datatype Node = Node(status: string, blocked: bool)

  function FirstText(versions: seq<Version>, pick: Version -> string, n: nat): string
    requires n <= |versions|
    decreases |versions| - n
  {
    if n == |versions| then MISSING
    else if Trim(pick(versions[n])) != "" then Trim(pick(versions[n]))
    else FirstText(versions, pick, n + 1)
  }

  function WorkshopStatus(versions: seq<Version>): string {
    if versions == [] || versions[|versions| - 1].resultAssets == 0 then MISSING
    else if versions[|versions| - 1].selectedAsset != "" then READY
    else PARTIAL
  }

  function WritebackStatus(versions: seq<Version>): string {
    if exists i :: 0 <= i < |versions| && versions[i].writebackDone then READY
    else FirstText(versions, (v: Version) => v.writebackStatus, 0)
  }

  predicate BlockedAt(v: View, target: Target) {
    exists i :: 0 <= i < |v.blockers| && v.blockers[i].target == target
  }

  function ParsingStatus(v: View, job: Option<DeconstructionJob>): string {
    if job.Some? && job.value.status != "" then job.value.status else v.deconstruction
  }

  function GenerationStatus(v: View, versions: seq<Version>): string {
    if versions != [] && versions[|versions| - 1].status != "" then versions[|versions| - 1].status else v.generation
  }

  function Flow(v: View, s: Session): seq<Node> {
    [Node(v.source, false),
     Node(ParsingStatus(v, s.job), BlockedAt(v, ParsingJob)),
     Node(if Trim(s.plan.status) != "" then Trim(s.plan.status) else v.prompt, BlockedAt(v, PromptTarget("prompt_plan"))),
     Node(GenerationStatus(v, s.versions), BlockedAt(v, Generation)),
     Node(WorkshopStatus(s.versions), false),
     Node(WritebackStatus(s.versions), false),
     Node(FirstText(s.versions, (v: Version) => v.deliveryStatus, 0), false),
     Node(FirstText(s.versions, (v: Version) => v.chargeStatus, 0), false)]
  }

  // ---- Verdict ----

  function GateStatus(status: string): string {
    if Blank(status) then MISSING else Lowered(Trim(status))
  }

  predicate GateReady(n: Node) {
    var g := GateStatus(n.status);
    g == READY || g == COMPLETED || g == SUCCEEDED
  }

  predicate GateFailed(n: Node) {
    var g := GateStatus(n.status);
    g == FAILED || g == ERROR
  }

  predicate GateBlocked(n: Node) {
    var g := GateStatus(n.status);
    g == BLOCKED || g == CONTRACT_NEEDED || g == INVALID || n.blocked
  }

  function Verdict(nodes: seq<Node>, blockers: seq<Blocker>): string {
    if exists i :: 0 <= i < |nodes| && GateFailed(nodes[i]) then FAIL
    else if (exists i :: 0 <= i < |nodes| && GateBlocked(nodes[i])) || blockers != [] then BLOCKED
    else if nodes != [] && forall i :: 0 <= i < |nodes| ==> GateReady(nodes[i]) then PASS
    else BLOCKED
  }

  // ---- Release ----

  function CapabilityGate(v: View): string {
    if v.capabilityError then BLOCKED
    else if v.capabilities == [] then MISSING
    else if exists i :: 0 <= i < |v.capabilities| && (v.capabilities[i].task == IMAGE_UNDERSTANDING || v.capabilities[i].task == IMAGE_GENERATION)
                                                  && !v.capabilities[i].available then BLOCKED
    else READY
  }

  // The business flow and the rollback snapshot are always there.
  function ReleaseGates(v: View, s: Session, verdict: string): seq<string> {
    [READY, if verdict == PASS then READY else MISSING, READY, CapabilityGate(v), FirstText(s.versions, (v: Version) => v.browserStatus, 0)]
  }

  function Release(gates: seq<string>): string {
    if forall i :: 0 <= i < |gates| ==> gates[i] == READY || gates[i] == PASS then PASS else BLOCKED
  }

  // ---- The builder ----

  class Builder {
    var source: string
    var deconstruction: string
    var prompt: string
    var generation: string
    var blockers: seq<Blocker>
    var capabilities: seq<Capability>
    var capabilityError: bool

    function Contents(): View
      reads this
    {
      View(source, deconstruction, prompt, generation, blockers, capabilities, capabilityError)
    }

    constructor (s: Session)
      ensures Contents() == StartView(s)
    {
      source, deconstruction, prompt, generation := s.source, s.deconstruction, s.prompt, s.generation;
      blockers, capabilities, capabilityError := [Blocker(SourceMissing, SourceReference)], [], false;
    }

    method AppendBlocker(b: Blocker)
      modifies this`blockers
      ensures blockers == Append(old(blockers), b)
    {
      if b !in blockers {
        blockers := blockers + [b];
      }
    }

    // The contract blocker is appended while the sources are read, once.
    method ApplySources(sources: seq<Source>)
      modifies this
      ensures Contents() == WithSources(old(Contents()), sources)
    {
      blockers := WithoutSourceBlockers(blockers);
      if sources == [] {
        source := BLOCKED;
        AppendBlocker(Blocker(DualTrackSourceRequired, SourceReferences));
        return;
      }
      var hasSku, hasReference, hasContract, i := false, false, false, 0;
      ghost var start := Contents();
      while i < |sources|
        invariant 0 <= i <= |sources|
        invariant hasSku <==> HasRole(sources[..i], SKU)
        invariant hasReference <==> HasRole(sources[..i], REFERENCE)
        invariant hasContract <==> NeedsContract(sources[..i])
        invariant Contents() == start.(blockers := AppendIf(start.blockers, hasContract, Blocker(ContractNeeded, SourceReference)))
      {
        var role := RoleOf(sources[i]);
        ScanStep(sources, i);
        hasSku := hasSku || role == SKU;
        hasReference := hasReference || role == REFERENCE;
        if sources[i].status == CONTRACT_NEEDED {
          hasContract := true;
          AppendBlocker(Blocker(ContractNeeded, SourceReference));
        }
        i := i + 1;
      }
      assert sources[..i] == sources;
      if hasContract || !hasSku || !hasReference {
        source := BLOCKED;
        if !hasSku {
          AppendBlocker(Blocker(DualTrackSkuRequired, SourceReferences));
        }
        if !hasReference {
          AppendBlocker(Blocker(DualTrackReferenceRequired, SourceReferences));
        }
        return;
      }
      source := READY;
    }

    method ApplyJob(job: Option<DeconstructionJob>)
      modifies this
      ensures Contents() == WithJob(old(Contents()), job)
    {
      if job.None? {
        return;
      }
      if job.value.status == COMPLETED {
        deconstruction := READY;
      } else if job.value.status == CONTRACT_NEEDED {
        deconstruction := BLOCKED;
        blockers := blockers + [Blocker(ContractNeeded, ParsingJob)];
      } else {
        deconstruction := PARTIAL;
      }
    }

    method ApplyPrompt(plan: PromptPlan)
      modifies this
      ensures Contents() == WithPrompt(old(Contents()), plan)
    {
      if PromptReady(plan) {
        prompt := READY;
        return;
      }
      prompt := BLOCKED;
      AppendBlocker(Blocker(ContractNeeded, PromptTarget("prompt_plan")));
      ghost var start := Contents();
      var i := 0;
      while i < |plan.blockers|
        invariant 0 <= i <= |plan.blockers|
        invariant Contents() == start.(blockers := PlanBlockers(start.blockers, plan.blockers, i))
      {
        var b := plan.blockers[i];
        if b.code == "CONTRACT_NEEDED" && Trim(b.target) == "prompt_plan" {
          AppendBlocker(Blocker(ContractNeeded, PromptTarget(b.target)));
        }
        i := i + 1;
      }
    }

    method ApplyGeneration(versions: seq<Version>)
      modifies this
      ensures Contents() == WithGeneration(old(Contents()), versions)
    {
      var i := 0;
      while i < |versions|
        invariant 0 <= i <= |versions|
        invariant Contents() == old(Contents())
        invariant forall k :: 0 <= k < i ==> !HasProviderResult(versions[k])
      {
        if HasProviderResult(versions[i]) {
          generation := READY;
          return;
        }
        i := i + 1;
      }
      generation := BLOCKED;
      AppendBlocker(Blocker(ContractNeeded, Generation));
    }

    method ApplyCapabilities(answer: CapabilityAnswer, job: Option<DeconstructionJob>)
      modifies this
      ensures Contents() == WithCapabilities(old(Contents()), answer, job)
    {
      match answer
      case NoReader =>
      case NoMatrix =>
      case ReadFailed =>
        capabilityError := true;
        blockers := blockers + [Blocker(CapabilityError, Capabilities)];
      case Matrix(items) => ApplyTasks(items, job);
    }

    // The items are first gathered by task, a later one replacing an earlier.
    method ApplyTasks(items: seq<Capability>, job: Option<DeconstructionJob>)
      modifies this
      ensures Contents() == WithTasks(old(Contents()), items, job, |TASKS|)
    {
      hide CapabilityBlocked;
      var byTask: map<string, Capability> := map[];
      var i := 0;
      while i < |items|
        invariant 0 <= i <= |items|
        invariant Contents() == old(Contents())
        invariant forall task :: task in TASKS ==> LastFor(items, task, i) == if task in byTask then Some(byTask[task]) else None
      {
        if items[i].task in TASKS {
          byTask := byTask[items[i].task := items[i]];
        }
        i := i + 1;
      }
      ghost var start := Contents();
      var k := 0;
      while k < |TASKS|
        invariant 0 <= k <= |TASKS|
        invariant Contents() == WithTasks(start, items, job, k)
      {
        var task := TASKS[k];
        assert task in TASKS;
        if task in byTask {
          capabilities := capabilities + [byTask[task]];
          if Unavailable(byTask[task]) {
            ApplyCapabilityBlocker(task, job);
          }
        }
        k := k + 1;
      }
    }

    method ApplyCapabilityBlocker(task: string, job: Option<DeconstructionJob>)
      modifies this
      ensures Contents() == CapabilityBlocked(old(Contents()), task, job)
    {
      if task != IMAGE_UNDERSTANDING && task != IMAGE_GENERATION {
        return;
      }
      blockers := blockers + [Blocker(CapabilityUnavailable, CapabilityOf(task))];
      if task == IMAGE_UNDERSTANDING && NeedsParsing(job) {
        deconstruction := BLOCKED;
      }
      if task == IMAGE_GENERATION {
        generation := BLOCKED;
      }
    }

    method Build(s: Session) returns (overall: string, verdict: string, release: string)
      requires Contents() == StartView(s)
      modifies this
      ensures Contents() == ReadView(s)
      ensures overall == Overall(ReadView(s)) && verdict == VerdictOf(s) && release == ReleaseOf(s)
    {
      hide WithSources, WithJob, WithPrompt, WithGeneration, WithCapabilities, Flow;
      ApplySources(s.sources);
      ApplyJob(s.job);
      ApplyPrompt(s.plan);
      ApplyGeneration(s.versions);
      ApplyCapabilities(s.capabilities, s.job);
      overall := Overall(Contents());
      verdict := BuildVerdict(Flow(Contents(), s), blockers);
      release := BuildRelease(ReleaseGates(Contents(), s, verdict));
    }
  }

  lemma ScanStep(sources: seq<Source>, i: nat)
    requires i < |sources|
    ensures forall role :: HasRole(sources[..i + 1], role) <==> HasRole(sources[..i], role) || RoleOf(sources[i]) == role
    ensures NeedsContract(sources[..i + 1]) <==> NeedsContract(sources[..i]) || sources[i].status == CONTRACT_NEEDED
  {
    hide RoleOf;
    assert sources[..i + 1] == sources[..i] + [sources[i]];
    forall role ensures HasRole(sources[..i + 1], role) <==> HasRole(sources[..i], role) || RoleOf(sources[i]) == role {
      if HasRole(sources[..i], role) {
        var k :| 0 <= k < i && RoleOf(sources[..i][k]) == role;
        assert sources[..i + 1][k] == sources[..i][k];
      }
      assert sources[..i + 1][i] == sources[i];
    }
    if NeedsContract(sources[..i]) {
      var k :| 0 <= k < i && sources[..i][k].status == CONTRACT_NEEDED;
      assert sources[..i + 1][k] == sources[..i][k];
    }
    assert sources[..i + 1][i] == sources[i];
  }

  method BuildVerdict(nodes: seq<Node>, blockers: seq<Blocker>) returns (verdict: string)
    ensures verdict == Verdict(nodes, blockers)
  {
    hide GateReady, GateFailed, GateBlocked;
    var ready, blocked, failed, i := 0, false, false, 0;
    while i < |nodes|
      invariant 0 <= i <= |nodes| && ready <= i
      invariant failed <==> exists k :: 0 <= k < i && GateFailed(nodes[k])
      invariant blocked <==> exists k :: 0 <= k < i && GateBlocked(nodes[k])
      invariant ready == i <==> forall k :: 0 <= k < i ==> GateReady(nodes[k])
    {
      if GateReady(nodes[i]) {
        ready := ready + 1;
      }
      failed := failed || GateFailed(nodes[i]);
      blocked := blocked || GateBlocked(nodes[i]);
      i := i + 1;
    }
    verdict := BLOCKED;
    if failed {
      verdict := FAIL;
    } else if blocked || blockers != [] {
      verdict := BLOCKED;
    } else if ready == |nodes| && |nodes| > 0 {
      verdict := PASS;
    }
  }

  method BuildRelease(gates: seq<string>) returns (status: string)
    ensures status == Release(gates)
  {
    status := PASS;
    var i := 0;
    while i < |gates|
      invariant 0 <= i <= |gates|
      invariant status == if forall k :: 0 <= k < i ==> gates[k] == READY || gates[k] == PASS then PASS else BLOCKED
    {
      if gates[i] == BLOCKED || gates[i] == FAILED {
        return BLOCKED;
      }
      if gates[i] != READY && gates[i] != PASS {
        status := BLOCKED;
      }
      i := i + 1;
    }
  }

  function VerdictOf(s: Session): string {
    Verdict(Flow(ReadView(s), s), ReadView(s).blockers)
  }

  function ReleaseOf(s: Session): string {
    Release(ReleaseGates(ReadView(s), s, VerdictOf(s)))
  }

  // ---- Constants ----

  lemma NormalText(c: string)
    requires c != "" && Trimmed(c) && Lowered(c) == c
    ensures GateStatus(c) == c
  {
    TrimmedIsFixed(c);
  }

  // What a persisted readiness reads as, and what a stored job status may be.
  const READINESS := [READY, PARTIAL, MISSING, "needs_review", BLOCKED]
  const JOB_STATUSES := ["", QUEUED, PROCESSING, COMPLETED, FAILED, CANCELED, CONTRACT_NEEDED]

  lemma ReadinessIsNormal(c: string)
    requires c in READINESS
    ensures GateStatus(c) == c && (c == COMPLETED || c == SUCCEEDED ==> false)
  {
    hide GateStatus;
    NormalText(c);
  }

  lemma JobStatusIsNormal(c: string)
    requires c in JOB_STATUSES && c != ""
    ensures GateStatus(c) == c && (c == READY || c == SUCCEEDED ==> false)
  {
    hide GateStatus;
    NormalText(c);
  }

  lemma DistinctStatuses()
    ensures READY != PARTIAL && READY != MISSING && READY != BLOCKED && PARTIAL != BLOCKED && MISSING != BLOCKED && MISSING != PARTIAL
    ensures PASS != BLOCKED && PASS != FAIL && MISSING != PASS
  {
  }

  // ---- What each stage leaves ----

  lemma SourcesLeave(v: View, sources: seq<Source>)
    ensures var t := WithSources(v, sources);
            && t.source == (if SourcesReady(sources) then READY else BLOCKED)
            && (!SourcesReady(sources) ==> t.blockers != [])
            && (SourcesReady(sources) && WithoutSourceBlockers(v.blockers) == [] ==> t.blockers == [])
  {
    hide NeedsContract, HasRole, WithoutSourceBlockers;
  }

  lemma {:induction false} PlanBlockersGrow(blockers: seq<Blocker>, planned: seq<PlanBlocker>, n: nat)
    requires n <= |planned|
    ensures blockers <= PlanBlockers(blockers, planned, n)
  {
    hide Trim;
    if n > 0 {
      PlanBlockersGrow(blockers, planned, n - 1);
    }
  }

  lemma PromptLeaves(v: View, plan: PromptPlan)
    ensures var t := WithPrompt(v, plan);
            && t == v.(prompt := t.prompt, blockers := t.blockers)
            && v.blockers <= t.blockers
            && t.prompt == (if PromptReady(plan) then READY else BLOCKED)
            && (if PromptReady(plan) then t.blockers == v.blockers else t.blockers != [])
  {
    hide PromptReady;
    PlanBlockersGrow(Append(v.blockers, Blocker(ContractNeeded, PromptTarget("prompt_plan"))), plan.blockers, |plan.blockers|);
  }

  lemma GenerationLeaves(v: View, versions: seq<Version>)
    ensures var t := WithGeneration(v, versions);
            && t == v.(generation := t.generation, blockers := t.blockers)
            && v.blockers <= t.blockers
            && t.generation == (if Generated(versions) then READY else BLOCKED)
            && (if Generated(versions) then t.blockers == v.blockers else t.blockers != [])
  {
    hide Generated;
  }

  // No capability the workflow needs is reported unavailable.
  predicate TaskFine(items: seq<Capability>, task: string) {
    LastFor(items, task, |items|).Some? && (task == IMAGE_UNDERSTANDING || task == IMAGE_GENERATION) ==>
      !Unavailable(LastFor(items, task, |items|).value)
  }

  predicate CapabilitiesFine(answer: CapabilityAnswer) {
    match answer
    case NoReader => true
    case NoMatrix => true
    case ReadFailed => false
    case Matrix(items) => TaskFine(items, IMAGE_UNDERSTANDING) && TaskFine(items, IMAGE_GENERATION)
  }

  // Readiness moves only together with a new blocker.
  predicate OnlyBlocks(v: View, t: View) {
    && t.source == v.source && t.prompt == v.prompt
    && v.blockers <= t.blockers
    && (t.blockers == v.blockers ==> t.generation == v.generation && t.deconstruction == v.deconstruction)
    && (t.generation == v.generation || t.generation == BLOCKED)
  }

  lemma TaskLeaves(v: View, items: seq<Capability>, task: string, job: Option<DeconstructionJob>)
    ensures OnlyBlocks(v, WithTask(v, items, task, job))
    ensures WithTask(v, items, task, job).blockers == v.blockers <==> TaskFine(items, task)
  {
    hide LastFor, NeedsParsing;
  }

  lemma {:induction false} TasksLeave(v: View, items: seq<Capability>, job: Option<DeconstructionJob>, n: nat)
    requires n <= |TASKS|
    ensures OnlyBlocks(v, WithTasks(v, items, job, n))
    ensures WithTasks(v, items, job, n).blockers == v.blockers <==> forall k :: 0 <= k < n ==> TaskFine(items, TASKS[k])
  {
    hide WithTask, TaskFine;
    if n > 0 {
      TasksLeave(v, items, job, n - 1);
      TaskLeaves(WithTasks(v, items, job, n - 1), items, TASKS[n - 1], job);
    }
  }

  lemma OtherTasksAreFine(items: seq<Capability>)
    ensures (forall k :: 0 <= k < |TASKS| ==> TaskFine(items, TASKS[k])) <==> TaskFine(items, IMAGE_UNDERSTANDING) && TaskFine(items, IMAGE_GENERATION)
  {
    hide LastFor;
    assert TASKS[0] == IMAGE_UNDERSTANDING && TASKS[1] == IMAGE_GENERATION;
  }

  lemma CapabilitiesLeave(v: View, answer: CapabilityAnswer, job: Option<DeconstructionJob>)
    ensures OnlyBlocks(v, WithCapabilities(v, answer, job))
    ensures WithCapabilities(v, answer, job).blockers == v.blockers <==> CapabilitiesFine(answer)
  {
    hide WithTasks, TaskFine;
    if answer.Matrix? {
      TasksLeave(v, answer.items, job, |TASKS|);
      OtherTasksAreFine(answer.items);
    }
  }

  // ---- Overall readiness ----

  // The deconstruction readiness before capabilities are looked at.
  function Parsed(s: Session): string {
    match s.job
    case None => s.deconstruction
    case Some(d) => if d.status == COMPLETED then READY else if d.status == CONTRACT_NEEDED then BLOCKED else PARTIAL
  }

  lemma JobLeaves(v: View, s: Session)
    requires v.deconstruction == s.deconstruction
    ensures var t := WithJob(v, s.job);
            && t == v.(deconstruction := Parsed(s), blockers := t.blockers) && v.blockers <= t.blockers
            && (t.blockers == v.blockers <==> !(s.job.Some? && Parsed(s) == BLOCKED))
  {
    DistinctStatuses();
  }

  // What the assembled view says, stage by stage.
  lemma ViewLeaves(s: Session)
    ensures var v := ReadView(s);
            && v.source == (if SourcesReady(s.sources) then READY else BLOCKED)
            && v.prompt == (if PromptReady(s.plan) then READY else BLOCKED)
            && (v.generation == READY ==> Generated(s.versions))
            && (v.generation == READY || v.generation == BLOCKED)
            && (v.blockers == [] ==> v.deconstruction == Parsed(s) && v.generation == READY)
            && (v.blockers == [] <==>
                  SourcesReady(s.sources) && !(s.job.Some? && Parsed(s) == BLOCKED) && PromptReady(s.plan) && Generated(s.versions)
                  && CapabilitiesFine(s.capabilities))
  {
    hide WithSources, WithPrompt, WithGeneration, WithCapabilities, SourcesReady, PromptReady, Generated, CapabilitiesFine, WithJob, Parsed;
    DistinctStatuses();
    var start := StartView(s);
    assert WithoutSourceBlockers(start.blockers) == [];
    SourcesLeave(start, s.sources);
    var sourced := WithSources(start, s.sources);
    SourcesKeepRest(start, s.sources);
    JobLeaves(sourced, s);
    var parsed := WithJob(sourced, s.job);
    PromptLeaves(parsed, s.plan);
    var prompted := WithPrompt(parsed, s.plan);
    GenerationLeaves(prompted, s.versions);
    CapabilitiesLeave(WithGeneration(prompted, s.versions), s.capabilities, s.job);
  }

  lemma SourcesKeepRest(v: View, sources: seq<Source>)
    ensures var t := WithSources(v, sources); t == v.(source := t.source, blockers := t.blockers)
  {
  }

  // ---- The inputs' own fields ----

  // A source says in its metadata what it shows, or else its kind does.
  predicate ShowsReference(src: Source) {
    var role := Lowered(Trim(src.role));
    role == "reference" || (role != "sku" && src.kind == "url")
  }

  predicate ShowsSku(src: Source) {
    var role := Lowered(Trim(src.role));
    role == "sku" || (role != "reference" && src.kind != "url")
  }

  predicate PromptIsReady(plan: PromptPlan) {
    plan.status == "ready" && (Trim(plan.origin) == "backend_intent_fusion" || Trim(plan.centerStatus) == "validated")
  }

  predicate HasResult(version: Version) {
    && Trim(version.runtimeJob) != "" && version.resultAssets > 0
    && (version.status == "completed" || version.stage == "result_available")
  }

  // The last item the platform lists for the task says it cannot be done.
  predicate IsDown(answer: CapabilityAnswer, task: string) {
    && answer.Matrix?
    && exists i :: 0 <= i < |answer.items| && answer.items[i].task == task
         && (forall k :: i < k < |answer.items| ==> answer.items[k].task != task)
         && (!answer.items[i].available || answer.items[i].status == "unavailable")
  }

  lemma RolesShow(src: Source)
    ensures RoleOf(src) == REFERENCE <==> ShowsReference(src)
    ensures RoleOf(src) == SKU <==> ShowsSku(src)
  {
    hide Trim, Lowered;
    DistinctRoles();
  }

  lemma DistinctRoles()
    ensures SKU != REFERENCE
  {
  }

  lemma HasRoleShows(sources: seq<Source>)
    ensures HasRole(sources, REFERENCE) <==> exists i :: 0 <= i < |sources| && ShowsReference(sources[i])
    ensures HasRole(sources, SKU) <==> exists i :: 0 <= i < |sources| && ShowsSku(sources[i])
  {
    hide RoleOf, ShowsReference, ShowsSku;
    forall i | 0 <= i < |sources|
      ensures (RoleOf(sources[i]) == REFERENCE <==> ShowsReference(sources[i])) && (RoleOf(sources[i]) == SKU <==> ShowsSku(sources[i]))
    {
      RolesShow(sources[i]);
    }
  }

  lemma PromptReadyMeans(plan: PromptPlan)
    ensures PromptReady(plan) <==> PromptIsReady(plan)
  {
    hide Trim;
  }

  lemma GeneratedMeans(versions: seq<Version>)
    ensures Generated(versions) <==> exists i :: 0 <= i < |versions| && HasResult(versions[i])
  {
    hide Trim;
    assert forall i :: 0 <= i < |versions| ==> (HasProviderResult(versions[i]) <==> HasResult(versions[i]));
  }

  lemma {:induction false} LastForMeans(items: seq<Capability>, task: string, n: nat)
    requires n <= |items|
    ensures var last := LastFor(items, task, n);
            if last.None? then forall i :: 0 <= i < n ==> items[i].task != task
            else exists i :: 0 <= i < n && items[i] == last.value && items[i].task == task && forall k :: i < k < n ==> items[k].task != task
  {
    if n > 0 && items[n - 1].task != task {
      LastForMeans(items, task, n - 1);
    }
  }

  lemma TaskFineMeans(items: seq<Capability>, task: string)
    requires task == "image_understanding" || task == "image_generation"
    ensures TaskFine(items, task) <==> !IsDown(Matrix(items), task)
  {
    hide LastFor;
    LastForMeans(items, task, |items|);
  }

  // The overall readiness is ready exactly when some source shows a SKU and some
  // a reference and none needs a contract, the parsing is ready, the prompt is
  // ready, a version has its provider result, and no needed capability is down.
  lemma OverallReadyIff(s: Session)
    ensures Overall(ReadView(s)) == READY <==>
              && (forall i :: 0 <= i < |s.sources| ==> s.sources[i].status != "contract_needed")
              && (exists i :: 0 <= i < |s.sources| && ShowsSku(s.sources[i]))
              && (exists i :: 0 <= i < |s.sources| && ShowsReference(s.sources[i]))
              && (match s.job case None => s.deconstruction == "ready" case Some(d) => d.status == "completed")
              && PromptIsReady(s.plan)
              && (exists i :: 0 <= i < |s.versions| && HasResult(s.versions[i]))
              && s.capabilities != ReadFailed && !IsDown(s.capabilities, "image_understanding") && !IsDown(s.capabilities, "image_generation")
    ensures Overall(ReadView(s)) == READY ==> ReadView(s).blockers == []
  {
    hide ReadView, HasRole, PromptReady, Generated, CapabilitiesFine, PromptIsReady, HasResult, ShowsSku, ShowsReference, IsDown;
    DistinctStatuses();
    ViewLeaves(s);
    HasRoleShows(s.sources);
    PromptReadyMeans(s.plan);
    GeneratedMeans(s.versions);
    CapabilitiesFineMeans(s.capabilities);
  }

  lemma CapabilitiesFineMeans(answer: CapabilityAnswer)
    ensures CapabilitiesFine(answer) <==>
              answer != ReadFailed && !IsDown(answer, "image_understanding") && !IsDown(answer, "image_generation")
  {
    hide TaskFine;
    if answer.Matrix? {
      TaskFineMeans(answer.items, "image_understanding");
      TaskFineMeans(answer.items, "image_generation");
    }
  }

  lemma OverallIsNeverMissing(s: Session)
    ensures Overall(ReadView(s)) != MISSING
  {
    hide ReadView, SourcesReady, PromptReady, Generated, CapabilitiesFine, Parsed;
    DistinctStatuses();
    ViewLeaves(s);
  }

  // ---- Each blocker ----

  lemma AppendHas(blockers: seq<Blocker>, x: Blocker, b: Blocker)
    ensures b in Append(blockers, x) <==> b in blockers || b == x
  {
  }

  // What the source stage blocks.
  predicate SourceBlocks(sources: seq<Source>, b: Blocker) {
    || (b == Blocker(DualTrackSourceRequired, SourceReferences) && sources == [])
    || (b == Blocker(ContractNeeded, SourceReference) && exists i :: 0 <= i < |sources| && sources[i].status == "contract_needed")
    || (b == Blocker(DualTrackSkuRequired, SourceReferences) && sources != [] && forall i :: 0 <= i < |sources| ==> !ShowsSku(sources[i]))
    || (b == Blocker(DualTrackReferenceRequired, SourceReferences) && sources != [] && forall i :: 0 <= i < |sources| ==> !ShowsReference(sources[i]))
  }

  // What the parsing, the prompt and the generation block.
  predicate WorkBlocks(s: Session, b: Blocker) {
    || (b == Blocker(ContractNeeded, ParsingJob) && s.job.Some? && s.job.value.status == "contract_needed")
    || (b.code == ContractNeeded && b.target.PromptTarget? && !PromptIsReady(s.plan)
        && (b.target.text == "prompt_plan"
            || exists k :: 0 <= k < |s.plan.blockers| && s.plan.blockers[k] == PlanBlocker("CONTRACT_NEEDED", b.target.text) && Trim(b.target.text) == "prompt_plan"))
    || (b == Blocker(ContractNeeded, Generation) && forall i :: 0 <= i < |s.versions| ==> !HasResult(s.versions[i]))
  }

  predicate CapabilityBlocks(answer: CapabilityAnswer, b: Blocker) {
    || (b == Blocker(CapabilityError, Capabilities) && answer == ReadFailed)
    || (b == Blocker(CapabilityUnavailable, CapabilityOf("image_understanding")) && IsDown(answer, "image_understanding"))
    || (b == Blocker(CapabilityUnavailable, CapabilityOf("image_generation")) && IsDown(answer, "image_generation"))
  }

  lemma SourcesBlock(s: Session, b: Blocker)
    ensures b in WithSources(StartView(s), s.sources).blockers <==> SourceBlocks(s.sources, b)
  {
    hide HasRole, ShowsSku, ShowsReference;
    HasRoleShows(s.sources);
    assert WithoutSourceBlockers(StartView(s).blockers) == [];
    var none: seq<Blocker> := [];
    var contract := AppendIf(none, NeedsContract(s.sources), Blocker(ContractNeeded, SourceReference));
    AppendHas(none, Blocker(ContractNeeded, SourceReference), b);
    var sku := AppendIf(contract, !HasRole(s.sources, SKU), Blocker(DualTrackSkuRequired, SourceReferences));
    AppendHas(contract, Blocker(DualTrackSkuRequired, SourceReferences), b);
    AppendHas(sku, Blocker(DualTrackReferenceRequired, SourceReferences), b);
  }

  lemma {:induction false} PlanBlocksMore(blockers: seq<Blocker>, planned: seq<PlanBlocker>, n: nat, b: Blocker)
    requires n <= |planned|
    ensures b in PlanBlockers(blockers, planned, n) <==>
              || b in blockers
              || (b.code == ContractNeeded && b.target.PromptTarget?
                  && exists k :: 0 <= k < n && planned[k] == PlanBlocker("CONTRACT_NEEDED", b.target.text) && Trim(b.target.text) == "prompt_plan")
  {
    hide Trim;
    if n > 0 {
      PlanBlocksMore(blockers, planned, n - 1, b);
      AppendHas(PlanBlockers(blockers, planned, n - 1), Blocker(ContractNeeded, PromptTarget(planned[n - 1].target)), b);
    }
  }

  lemma PromptBlocks(v: View, plan: PromptPlan, b: Blocker)
    ensures b in WithPrompt(v, plan).blockers <==>
              || b in v.blockers
              || (b.code == ContractNeeded && b.target.PromptTarget? && !PromptIsReady(plan)
                  && (b.target.text == "prompt_plan"
                      || exists k :: 0 <= k < |plan.blockers| && plan.blockers[k] == PlanBlocker("CONTRACT_NEEDED", b.target.text) && Trim(b.target.text) == "prompt_plan"))
  {
    hide PromptReady, PromptIsReady, Trim;
    PromptReadyMeans(plan);
    var standard := Blocker(ContractNeeded, PromptTarget("prompt_plan"));
    AppendHas(v.blockers, standard, b);
    PlanBlocksMore(Append(v.blockers, standard), plan.blockers, |plan.blockers|, b);
  }

  lemma CapabilitiesBlock(v: View, answer: CapabilityAnswer, job: Option<DeconstructionJob>, b: Blocker)
    ensures b in WithCapabilities(v, answer, job).blockers <==> b in v.blockers || CapabilityBlocks(answer, b)
  {
    hide LastFor, NeedsParsing, IsDown, TaskFine;
    match answer
    case NoReader => NeverDown(answer);
    case NoMatrix => NeverDown(answer);
    case ReadFailed => NeverDown(answer);
    case Matrix(items) =>
      var one, two := WithTasks(v, items, job, 1), WithTasks(v, items, job, 2);
      assert WithTasks(v, items, job, 0) == v && one == WithTask(v, items, TASKS[0], job) && two == WithTask(one, items, TASKS[1], job);
      TaskBlocks(v, items, IMAGE_UNDERSTANDING, job, b);
      TaskBlocks(one, items, IMAGE_GENERATION, job, b);
      LastTasksAddNothing(v, items, job);
  }

  lemma NeverDown(answer: CapabilityAnswer)
    requires !answer.Matrix?
    ensures !IsDown(answer, "image_understanding") && !IsDown(answer, "image_generation")
  {
  }

  lemma TaskBlocks(v: View, items: seq<Capability>, task: string, job: Option<DeconstructionJob>, b: Blocker)
    requires task == "image_understanding" || task == "image_generation"
    ensures b in WithTask(v, items, task, job).blockers <==>
              b in v.blockers || (b == Blocker(CapabilityUnavailable, CapabilityOf(task)) && IsDown(Matrix(items), task))
  {
    hide LastFor, NeedsParsing, IsDown;
    TaskFineMeans(items, task);
  }

  // The blockers of a view, each with the inputs that put it there, and no others.
  lemma BlockersIff(s: Session, b: Blocker)
    ensures b in ReadView(s).blockers <==> SourceBlocks(s.sources, b) || WorkBlocks(s, b) || CapabilityBlocks(s.capabilities, b)
  {
    hide WithSources, WithPrompt, WithCapabilities, Generated, HasResult, SourceBlocks, CapabilityBlocks, PromptIsReady, Trim;
    SourcesBlock(s, b);
    var parsed := WithJob(WithSources(StartView(s), s.sources), s.job);
    PromptBlocks(parsed, s.plan, b);
    var prompted := WithPrompt(parsed, s.plan);
    GeneratedMeans(s.versions);
    AppendHas(prompted.blockers, Blocker(ContractNeeded, Generation), b);
    CapabilitiesBlock(WithGeneration(prompted, s.versions), s.capabilities, s.job, b);
  }

  // The readiness of each stage, by the inputs.
  lemma ReadinessIff(s: Session)
    ensures var v := ReadView(s);
            && v.source == (if (exists i :: 0 <= i < |s.sources| && ShowsSku(s.sources[i])) && (exists i :: 0 <= i < |s.sources| && ShowsReference(s.sources[i]))
                               && (forall i :: 0 <= i < |s.sources| ==> s.sources[i].status != "contract_needed") then "ready" else "blocked")
            && v.deconstruction == (match s.job
                 case None => s.deconstruction
                 case Some(d) =>
                   if d.status == "completed" then "ready"
                   else if d.status == "contract_needed"
                     || (IsDown(s.capabilities, "image_understanding") && (d.taskType == "image_understanding" || d.contractError)) then "blocked"
                   else "partial")
            && v.prompt == (if PromptIsReady(s.plan) then "ready" else "blocked")
            && v.generation == (if (exists i :: 0 <= i < |s.versions| && HasResult(s.versions[i])) && !IsDown(s.capabilities, "image_generation")
                                then "ready" else "blocked")
            && v.capabilityError == s.capabilities.ReadFailed?
  {
    hide WithSources, WithPrompt, HasResult, PromptIsReady, PromptReady, Generated, ShowsSku, ShowsReference, HasRole, IsDown, LastFor;
    HasRoleShows(s.sources);
    var start := StartView(s);
    SourcesLeave(start, s.sources);
    SourcesKeepRest(start, s.sources);
    var sourced := WithSources(start, s.sources);
    JobLeaves(sourced, s);
    var parsed := WithJob(sourced, s.job);
    PromptLeaves(parsed, s.plan);
    PromptReadyMeans(s.plan);
    GeneratedMeans(s.versions);
    CapabilitiesReadiness(WithGeneration(WithPrompt(parsed, s.plan), s.versions), s.capabilities, s.job);
  }

  lemma CapabilitiesReadiness(v: View, answer: CapabilityAnswer, job: Option<DeconstructionJob>)
    ensures var t := WithCapabilities(v, answer, job);
            && t.source == v.source && t.prompt == v.prompt
            && t.deconstruction == (if IsDown(answer, "image_understanding") && NeedsParsing(job) then "blocked" else v.deconstruction)
            && t.generation == (if IsDown(answer, "image_generation") then "blocked" else v.generation)
            && t.capabilityError == (v.capabilityError || answer.ReadFailed?)
  {
    hide LastFor, NeedsParsing, IsDown, TaskFine, WithTask;
    match answer
    case NoReader => NeverDown(answer);
    case NoMatrix => NeverDown(answer);
    case ReadFailed => NeverDown(answer);
    case Matrix(items) =>
      var one, two, three := WithTasks(v, items, job, 1), WithTasks(v, items, job, 2), WithTasks(v, items, job, 3);
      assert WithTasks(v, items, job, 0) == v && one == WithTask(v, items, TASKS[0], job) && two == WithTask(one, items, TASKS[1], job);
      assert three == WithTask(two, items, TASKS[2], job) && WithTasks(v, items, job, 4) == WithTask(three, items, TASKS[3], job);
      TaskReadiness(v, items, IMAGE_UNDERSTANDING, job);
      TaskReadiness(one, items, IMAGE_GENERATION, job);
      OtherTaskReadiness(two, items, TASKS[2], job);
      OtherTaskReadiness(three, items, TASKS[3], job);
  }

  lemma OtherTaskReadiness(v: View, items: seq<Capability>, task: string, job: Option<DeconstructionJob>)
    requires task != IMAGE_UNDERSTANDING && task != IMAGE_GENERATION
    ensures var t := WithTask(v, items, task, job); t == v.(capabilities := t.capabilities)
  {
    hide LastFor;
  }

  lemma TaskReadiness(v: View, items: seq<Capability>, task: string, job: Option<DeconstructionJob>)
    requires task == "image_understanding" || task == "image_generation"
    ensures var t, down := WithTask(v, items, task, job), IsDown(Matrix(items), task);
            && t.source == v.source && t.prompt == v.prompt && t.capabilityError == v.capabilityError
            && t.deconstruction == (if down && task == "image_understanding" && NeedsParsing(job) then "blocked" else v.deconstruction)
            && t.generation == (if down && task == "image_generation" then "blocked" else v.generation)
  {
    hide LastFor, NeedsParsing, IsDown;
    TaskFineMeans(items, task);
  }

  // Blocked when anything is, or the stored parsing readiness says so; else
  // ready or partial.
  lemma OverallIff(s: Session)
    ensures var o := Overall(ReadView(s));
            && (o == "blocked" <==> ReadView(s).blockers != [] || (s.job.None? && s.deconstruction == "blocked"))
            && (o == "blocked" || o == "ready" || o == "partial")
  {
    hide ReadView, SourcesReady, PromptReady, Generated, CapabilitiesFine;
    DistinctStatuses();
    ViewLeaves(s);
  }

  // ---- The business flow, text by text ----

  // The first text that is not blank, trimmed.
  predicate IsFirstText(versions: seq<Version>, pick: Version -> string, text: string) {
    || (text == "missing" && forall i :: 0 <= i < |versions| ==> Trim(pick(versions[i])) == "")
    || (exists i :: 0 <= i < |versions| && text == Trim(pick(versions[i])) && text != "" && forall k :: 0 <= k < i ==> Trim(pick(versions[k])) == "")
  }

  lemma {:induction false} FirstTextIsFirst(versions: seq<Version>, pick: Version -> string, n: nat)
    requires n <= |versions| && forall k :: 0 <= k < n ==> Trim(pick(versions[k])) == ""
    ensures IsFirstText(versions, pick, FirstText(versions, pick, n))
    decreases |versions| - n
  {
    hide Trim;
    if n < |versions| && Trim(pick(versions[n])) == "" {
      FirstTextIsFirst(versions, pick, n + 1);
    }
  }

  // What the eight nodes of the flow show.
  lemma FlowShows(s: Session)
    ensures var v, nodes, m := ReadView(s), Flow(ReadView(s), s), |s.versions|;
            && |nodes| == 8
            && nodes[0].status == v.source
            && nodes[1].status == (if s.job.Some? && s.job.value.status != "" then s.job.value.status else v.deconstruction)
            && nodes[2].status == (if Trim(s.plan.status) != "" then Trim(s.plan.status) else v.prompt)
            && nodes[3].status == (if m > 0 && s.versions[m - 1].status != "" then s.versions[m - 1].status else v.generation)
            && nodes[4].status == (if m == 0 || s.versions[m - 1].resultAssets == 0 then "missing" else if s.versions[m - 1].selectedAsset != "" then "ready" else "partial")
            && ((exists i :: 0 <= i < m && s.versions[i].writebackDone) ==> nodes[5].status == "ready")
            && ((forall i :: 0 <= i < m ==> !s.versions[i].writebackDone) ==> IsFirstText(s.versions, (x: Version) => x.writebackStatus, nodes[5].status))
            && IsFirstText(s.versions, (x: Version) => x.deliveryStatus, nodes[6].status)
            && IsFirstText(s.versions, (x: Version) => x.chargeStatus, nodes[7].status)
            && (forall k :: 0 <= k < 8 && nodes[k].blocked ==> v.blockers != [])
  {
    hide ReadView, Trim, IsFirstText, FirstText;
    FirstTextIsFirst(s.versions, (x: Version) => x.writebackStatus, 0);
    FirstTextIsFirst(s.versions, (x: Version) => x.deliveryStatus, 0);
    FirstTextIsFirst(s.versions, (x: Version) => x.chargeStatus, 0);
  }

  predicate TextFails(text: string) {
    Lowered(Trim(text)) == "failed" || Lowered(Trim(text)) == "error"
  }

  predicate TextPasses(text: string) {
    Lowered(Trim(text)) == "ready" || Lowered(Trim(text)) == "completed" || Lowered(Trim(text)) == "succeeded"
  }

  lemma GatesMean(n: Node)
    ensures GateFailed(n) <==> TextFails(n.status)
    ensures GateReady(n) <==> TextPasses(n.status)
    ensures TextPasses(n.status) ==> !TextFails(n.status) && (GateBlocked(n) <==> n.blocked)
  {
    hide Trim;
  }

  // The verdict fails when some node shows a failure, passes when every node
  // shows success and there is no blocker, and is blocked otherwise.
  lemma VerdictIff(s: Session)
    ensures var nodes := Flow(ReadView(s), s);
            && (VerdictOf(s) == "fail" <==> exists i :: 0 <= i < |nodes| && TextFails(nodes[i].status))
            && (VerdictOf(s) == "pass" <==> ReadView(s).blockers == [] && forall i :: 0 <= i < |nodes| ==> TextPasses(nodes[i].status))
            && (VerdictOf(s) == "fail" || VerdictOf(s) == "pass" || VerdictOf(s) == "blocked")
  {
    hide ReadView, Flow, GateFailed, GateReady, GateBlocked, TextFails, TextPasses;
    FlowShows(s);
    var nodes := Flow(ReadView(s), s);
    forall i | 0 <= i < |nodes|
      ensures (GateFailed(nodes[i]) <==> TextFails(nodes[i].status)) && (GateReady(nodes[i]) <==> TextPasses(nodes[i].status))
      ensures TextPasses(nodes[i].status) ==> !TextFails(nodes[i].status) && (GateBlocked(nodes[i]) <==> nodes[i].blocked)
    {
      GatesMean(nodes[i]);
    }
  }

  // ---- The release, by the inputs ----

  predicate IsListed(items: seq<Capability>, task: string) {
    exists i :: 0 <= i < |items| && items[i].task == task
  }

  // The last item listed for the task, if any, says it is available.
  predicate LastIsAvailable(items: seq<Capability>, task: string) {
    forall i :: 0 <= i < |items| && items[i].task == task && !IsListed(items[i + 1..], task) ==> items[i].available
  }

  // The platform's matrix lists some task the workflow uses, and has the two
  // needed ones available where it lists them.
  predicate CapabilitiesReleased(answer: CapabilityAnswer) {
    && answer.Matrix?
    && (IsListed(answer.items, "image_understanding") || IsListed(answer.items, "image_generation")
        || IsListed(answer.items, "image_inpainting") || IsListed(answer.items, "video_keyframe"))
    && LastIsAvailable(answer.items, "image_understanding") && LastIsAvailable(answer.items, "image_generation")
  }

  lemma {:induction false} TasksAreListed(v: View, items: seq<Capability>, job: Option<DeconstructionJob>, n: nat)
    requires n <= |TASKS| && v.capabilities == []
    ensures var t := WithTasks(v, items, job, n);
            && (forall c :: c in t.capabilities <==> exists k :: 0 <= k < n && LastFor(items, TASKS[k], |items|) == Some(c))
            && t.capabilityError == v.capabilityError
  {
    hide LastFor, NeedsParsing;
    if n > 0 {
      TasksAreListed(v, items, job, n - 1);
    }
  }

  lemma LastForTask(items: seq<Capability>, task: string)
    ensures var last := LastFor(items, task, |items|);
            && (last.Some? <==> IsListed(items, task))
            && (last.Some? ==> last.value.task == task)
            && (LastIsAvailable(items, task) <==> last.None? || last.value.available)
  {
    hide LastFor;
    LastForMeans(items, task, |items|);
    forall i | 0 <= i < |items| && items[i].task == task
      ensures !IsListed(items[i + 1..], task) <==> forall k :: i < k < |items| ==> items[k].task != task
    {
      if k :| i < k < |items| && items[k].task == task {
        assert items[i + 1..][k - i - 1].task == task;
      }
    }
  }

  lemma CapabilityGateMeans(v: View, answer: CapabilityAnswer, job: Option<DeconstructionJob>)
    requires v.capabilities == [] && !v.capabilityError
    ensures CapabilityGate(WithCapabilities(v, answer, job)) in {"ready", "missing", "blocked"}
    ensures CapabilityGate(WithCapabilities(v, answer, job)) == "ready" <==> CapabilitiesReleased(answer)
  {
    hide LastFor, WithTasks, IsListed, LastIsAvailable;
    DistinctStatuses();
    if answer.Matrix? {
      var items := answer.items;
      TasksAreListed(v, items, job, 4);
      var caps := WithTasks(v, items, job, 4).capabilities;
      assert TASKS[0] == "image_understanding" && TASKS[1] == "image_generation" && TASKS[2] == "image_inpainting" && TASKS[3] == "video_keyframe";
      forall k | 0 <= k < 4
        ensures LastFor(items, TASKS[k], |items|).Some? ==> LastFor(items, TASKS[k], |items|).value in caps
        ensures LastFor(items, TASKS[k], |items|).Some? <==> IsListed(items, TASKS[k])
        ensures LastFor(items, TASKS[k], |items|).Some? ==> LastFor(items, TASKS[k], |items|).value.task == TASKS[k]
        ensures LastIsAvailable(items, TASKS[k]) <==> LastFor(items, TASKS[k], |items|).None? || LastFor(items, TASKS[k], |items|).value.available
      {
        LastForTask(items, TASKS[k]);
      }
      MatrixGate(caps, LastFor(items, TASKS[0], |items|), LastFor(items, TASKS[1], |items|), LastFor(items, TASKS[2], |items|), LastFor(items, TASKS[3], |items|));
    }
  }

  // The needed tasks among four listed ones.
  lemma MatrixGate(caps: seq<Capability>, a: Option<Capability>, b: Option<Capability>, c: Option<Capability>, d: Option<Capability>)
    requires forall x :: x in caps <==> Some(x) in {a, b, c, d}
    requires (a.Some? ==> a.value.task == IMAGE_UNDERSTANDING) && (b.Some? ==> b.value.task == IMAGE_GENERATION)
    requires (c.Some? ==> c.value.task != IMAGE_UNDERSTANDING && c.value.task != IMAGE_GENERATION)
    requires (d.Some? ==> d.value.task != IMAGE_UNDERSTANDING && d.value.task != IMAGE_GENERATION)
    ensures caps == [] <==> a.None? && b.None? && c.None? && d.None?
    ensures (exists i :: 0 <= i < |caps| && (caps[i].task == IMAGE_UNDERSTANDING || caps[i].task == IMAGE_GENERATION) && !caps[i].available)
            <==> (a.Some? && !a.value.available) || (b.Some? && !b.value.available)
  {
    assert a.Some? ==> a.value in caps;
    assert b.Some? ==> b.value in caps;
    assert c.Some? ==> c.value in caps;
    assert forall i :: 0 <= i < |caps| ==> caps[i] in caps;
    if caps != [] {
      assert caps[0] in caps && Some(caps[0]) in {a, b, c, d};
    }
    assert d.Some? ==> d.value in caps;
  }

  lemma CapabilityGateNeverPasses(v: View)
    ensures CapabilityGate(v) != PASS
  {
    DistinctStatuses();
  }

  lemma ReleasedMeans(s: Session)
    ensures CapabilityGate(ReadView(s)) == READY <==> CapabilitiesReleased(s.capabilities)
  {
    hide VerdictOf, CapabilitiesReleased, FirstText, CapabilityGate, WithCapabilities, WithPrompt, WithGeneration, IsFirstText, WithSources;
    var start := StartView(s);
    SourcesKeepRest(start, s.sources);
    JobLeaves(WithSources(start, s.sources), s);
    var parsed := WithJob(WithSources(start, s.sources), s.job);
    PromptLeaves(parsed, s.plan);
    GenerationLeaves(WithPrompt(parsed, s.plan), s.versions);
    CapabilityGateMeans(WithGeneration(WithPrompt(parsed, s.plan), s.versions), s.capabilities, s.job);
  }

  // The release passes exactly with a passing verdict, released capabilities
  // and browser evidence that is ready or passed.
  lemma ReleaseIff(s: Session)
    ensures ReleaseOf(s) == "pass" || ReleaseOf(s) == "blocked"
    ensures IsFirstText(s.versions, (x: Version) => x.browserStatus, FirstText(s.versions, (x: Version) => x.browserStatus, 0))
    ensures var browser := FirstText(s.versions, (x: Version) => x.browserStatus, 0);
            ReleaseOf(s) == "pass" <==> VerdictOf(s) == "pass" && CapabilitiesReleased(s.capabilities) && (browser == "ready" || browser == "pass")
  {
    hide VerdictOf, CapabilitiesReleased, FirstText, CapabilityGate, IsFirstText, ReadView;
    DistinctStatuses();
    FirstTextIsFirst(s.versions, (x: Version) => x.browserStatus, 0);
    ReleasedMeans(s);
    CapabilityGateNeverPasses(ReadView(s));
    var gates := ReleaseGates(ReadView(s), s, VerdictOf(s));
    assert gates[0] == READY && gates[2] == READY;
    assert gates[1] == (if VerdictOf(s) == PASS then READY else MISSING);
    assert gates[3] == CapabilityGate(ReadView(s)) && gates[4] == FirstText(s.versions, (x: Version) => x.browserStatus, 0);
  }

  // ---- Release pass, verdict pass, overall ready ----

  lemma ReleaseNeedsVerdict(s: Session)
    requires ReleaseOf(s) == PASS
    ensures VerdictOf(s) == PASS
  {
    hide VerdictOf, ReadView, CapabilityGate, FirstText;
    DistinctStatuses();
    var gates := ReleaseGates(ReadView(s), s, VerdictOf(s));
    assert gates[1] == READY || gates[1] == PASS;
  }

  lemma FlowStart(v: View, s: Session)
    ensures |Flow(v, s)| == 8 && Flow(v, s)[1].status == ParsingStatus(v, s.job)
  {
  }

  lemma VerdictMeans(s: Session)
    requires VerdictOf(s) == PASS
    ensures ReadView(s).blockers == []
    ensures GateReady(Node(ParsingStatus(ReadView(s), s.job), BlockedAt(ReadView(s), ParsingJob)))
  {
    hide ReadView, Flow, GateReady, GateFailed, GateBlocked;
    DistinctStatuses();
    FlowStart(ReadView(s), s);
    assert GateReady(Flow(ReadView(s), s)[1]);
    assert Flow(ReadView(s), s)[1] == Node(ParsingStatus(ReadView(s), s.job), BlockedAt(ReadView(s), ParsingJob)) by { FlowParsing(ReadView(s), s); }
  }

  lemma FlowParsing(v: View, s: Session)
    ensures Flow(v, s)[1] == Node(ParsingStatus(v, s.job), BlockedAt(v, ParsingJob))
  {
  }

  // Under a passing verdict only the parsing can keep the whole from being ready.
  lemma VerdictPassLacksOnlyParsing(s: Session)
    requires VerdictOf(s) == PASS
    ensures Overall(ReadView(s)) == READY <==> Parsed(s) == READY
  {
    hide ReadView, VerdictOf, SourcesReady, PromptReady, Generated, CapabilitiesFine, Parsed, GateReady, ParsingStatus;
    VerdictMeans(s);
    ViewLeaves(s);
    DistinctStatuses();
  }

  // ---- Job statuses that are stored ----

  // normalizeVisualDeconstructionRuntimeStatus; None is its error.
  function RuntimeStatus(text: string): Option<string> {
    var t := Lowered(Trim(text));
    if t == "" then Some("")
    else if t == QUEUED || t == "pending" then Some(QUEUED)
    else if t == PROCESSING || t == "running" || t == "started" then Some(PROCESSING)
    else if t == COMPLETED || t == SUCCEEDED || t == "success" then Some(COMPLETED)
    else if t == FAILED || t == ERROR then Some(FAILED)
    else if t == CANCELED || t == "cancelled" then Some(CANCELED)
    else None
  }

  // The calls that store a job status: creation, a missing contract, the answer
  // to the platform's creation, a runtime update, and recorded results, which
  // may be refused for their elements.
  datatype JobCall = Creation | MissingContract | PlatformAnswer(text: string) | RuntimeReport(text: string) | Results(text: string, accepted: bool)

  // What the platform answers is stored even when it is blank or unknown.
  function StatusAfter(status: string, call: JobCall): string {
    match call
    case Creation => QUEUED
    case MissingContract => CONTRACT_NEEDED
    case PlatformAnswer(text) => if RuntimeStatus(text).Some? then RuntimeStatus(text).value else ""
    case RuntimeReport(text) => if RuntimeStatus(text).Some? && RuntimeStatus(text).value != "" then RuntimeStatus(text).value else status
    case Results(text, accepted) => if accepted && RuntimeStatus(text).Some? && RuntimeStatus(text).value != "" then RuntimeStatus(text).value else status
  }

  function StatusAfterAll(calls: seq<JobCall>, n: nat): string
    requires n <= |calls|
  {
    if n == 0 then QUEUED else StatusAfter(StatusAfterAll(calls, n - 1), calls[n - 1])
  }

  // Whatever texts the platform sends, one of the declared statuses or a blank
  // is stored.
  lemma {:induction false} StoredStatusIsDeclared(calls: seq<JobCall>, n: nat)
    requires n <= |calls|
    ensures StatusAfterAll(calls, n) in JOB_STATUSES
  {
    hide Trim, Lowered;
    if n > 0 {
      StoredStatusIsDeclared(calls, n - 1);
    }
  }

  // The status is one the service stores, the readiness one it reads back.
  predicate Declared(s: Session) {
    match s.job
    case None => s.deconstruction in READINESS
    case Some(d) => d.status in JOB_STATUSES
  }

  lemma DeclaredParsing(s: Session, v: View)
    requires Declared(s) && v.deconstruction == Parsed(s)
    requires GateReady(Node(ParsingStatus(v, s.job), BlockedAt(v, ParsingJob)))
    ensures Parsed(s) == READY
  {
    hide GateStatus;
    match s.job
    case None => ReadinessIsNormal(s.deconstruction);
    case Some(d) =>
      if d.status == "" {
        ReadinessIsNormal(PARTIAL);
      } else {
        JobStatusIsNormal(d.status);
      }
  }

  // Release pass implies verdict pass, and that implies overall ready.
  lemma ReleaseChain(s: Session)
    requires Declared(s)
    ensures ReleaseOf(s) == PASS ==> VerdictOf(s) == PASS
    ensures VerdictOf(s) == PASS ==> Overall(ReadView(s)) == READY
    ensures Overall(ReadView(s)) == READY ==>
              && ReadView(s).blockers == []
              && (exists i :: 0 <= i < |s.sources| && ShowsSku(s.sources[i]))
              && (exists i :: 0 <= i < |s.sources| && ShowsReference(s.sources[i]))
              && (forall i :: 0 <= i < |s.sources| ==> s.sources[i].status != "contract_needed")
              && PromptIsReady(s.plan)
              && (exists i :: 0 <= i < |s.versions| && HasResult(s.versions[i]))
  {
    hide ReadView, VerdictOf, ReleaseOf, PromptReady, Generated, CapabilitiesFine, Parsed, GateReady, ParsingStatus, HasRole, Declared, BlockedAt,
      PromptIsReady, HasResult, ShowsSku, ShowsReference, IsDown;
    if ReleaseOf(s) == PASS {
      ReleaseNeedsVerdict(s);
    }
    if VerdictOf(s) == PASS {
      VerdictMeans(s);
      ViewLeaves(s);
      DeclaredParsing(s, ReadView(s));
      VerdictPassLacksOnlyParsing(s);
    }
    OverallReadyIff(s);
  }

  // The chain does need stored statuses, because the gate normalises the spelling
  // and the readiness does not: with this status, which is never stored, the
  // release passes, and so does the verdict, while the whole is not ready.
  const CAPITALISED := Session(
    READY, READY, READY, READY,
    [Source("url", READY, SKU), Source("url", READY, REFERENCE)],
    Some(DeconstructionJob("Completed", IMAGE_UNDERSTANDING, false)),
    PromptPlan(READY, "backend_intent_fusion", "", []),
    [Version("job", 1, COMPLETED, COMPLETED, "asset", true, "", READY, READY, READY)],
    Matrix([Capability(IMAGE_UNDERSTANDING, READY, true), Capability(IMAGE_GENERATION, READY, true)]))

  lemma CapitalisedIsClear()
    ensures SourcesReady(CAPITALISED.sources) && PromptReady(CAPITALISED.plan) && Generated(CAPITALISED.versions)
    ensures CapabilitiesFine(CAPITALISED.capabilities) && Parsed(CAPITALISED) == PARTIAL
  {
    var s := CAPITALISED;
    NormalText(SKU);
    NormalText(REFERENCE);
    TrimmedIsFixed("backend_intent_fusion");
    TrimmedIsFixed("job");
    assert RoleOf(s.sources[0]) == SKU && RoleOf(s.sources[1]) == REFERENCE;
    assert HasProviderResult(s.versions[0]);
    var items := s.capabilities.items;
    assert LastFor(items, IMAGE_GENERATION, 2) == Some(items[1]);
    assert LastFor(items, IMAGE_UNDERSTANDING, 1) == Some(items[0]);
    assert LastFor(items, IMAGE_UNDERSTANDING, 2) == Some(items[0]);
  }

  lemma CapitalisedFlow(v: View)
    requires v.source == READY && v.blockers == []
    ensures Verdict(Flow(v, CAPITALISED), v.blockers) == PASS
  {
    hide Trim, GateStatus;
    var s := CAPITALISED;
    NormalText(READY);
    NormalText(COMPLETED);
    CapitalisedGate();
    TrimmedIsFixed(READY);
    assert s.versions[0].writebackDone;
    assert FirstText(s.versions, (v: Version) => v.deliveryStatus, 0) == READY;
    assert FirstText(s.versions, (v: Version) => v.chargeStatus, 0) == READY;
    assert Flow(v, s) == [Node(READY, false), Node("Completed", false), Node(READY, false), Node(COMPLETED, false),
                          Node(READY, false), Node(READY, false), Node(READY, false), Node(READY, false)];
  }

  lemma CapitalisedGate()
    ensures GateStatus("Completed") == COMPLETED
  {
    TrimmedIsFixed("Completed");
    assert Lowered("Completed") == COMPLETED;
  }

  lemma CapitalisedCapabilities(v: View)
    requires v.capabilities == [] && !v.capabilityError
    ensures CapabilityGate(WithCapabilities(v, CAPITALISED.capabilities, CAPITALISED.job)) == READY
  {
    var items, job := CAPITALISED.capabilities.items, CAPITALISED.job;
    forall task ensures LastFor(items, task, 2) == if task == IMAGE_GENERATION then Some(items[1]) else if task == IMAGE_UNDERSTANDING then Some(items[0]) else None {
      assert LastFor(items, task, 1) == if task == IMAGE_UNDERSTANDING then Some(items[0]) else None;
    }
    assert WithTasks(v, items, job, 1) == WithTask(WithTasks(v, items, job, 0), items, IMAGE_UNDERSTANDING, job);
    assert WithTasks(v, items, job, 2) == v.(capabilities := items);
    assert WithTasks(v, items, job, 3) == v.(capabilities := items);
    assert WithTasks(v, items, job, 4) == v.(capabilities := items);
  }

  lemma CapitalisedReading()
    ensures CapabilityGate(ReadView(CAPITALISED)) == READY
  {
    hide WithSources, WithPrompt, WithCapabilities, Generated, CapabilityGate, SourceBlockers;
    var s := CAPITALISED;
    var sourced := WithSources(StartView(s), s.sources);
    SourcesKeepRest(StartView(s), s.sources);
    var parsed := WithJob(sourced, s.job);
    PromptLeaves(parsed, s.plan);
    CapitalisedCapabilities(WithGeneration(WithPrompt(parsed, s.plan), s.versions));
  }

  lemma CapitalisedJobStatus()
    ensures ReleaseOf(CAPITALISED) == PASS && VerdictOf(CAPITALISED) == PASS && Overall(ReadView(CAPITALISED)) != READY
    ensures !Declared(CAPITALISED)
  {
    hide ReadView, SourcesReady, PromptReady, Generated, CapabilitiesFine, Parsed, Verdict, CapabilityGate;
    CapitalisedIsClear();
    CapitalisedReading();
    TrimmedIsFixed(READY);
    assert FirstText(CAPITALISED.versions, (v: Version) => v.browserStatus, 0) == READY;
    ViewLeaves(CAPITALISED);
    CapitalisedFlow(ReadView(CAPITALISED));
    OverallReadyIff(CAPITALISED);
    DistinctStatuses();
  }

  // ---- Blockers are distinct ----

  predicate Distinct(blockers: seq<Blocker>) {
    forall i, k :: 0 <= i < k < |blockers| ==> blockers[i] != blockers[k]
  }

  // Targets of the stages, in the order they are run.
  function StageOf(t: Target): nat {
    match t
    case SourceReference => 0
    case SourceReferences => 0
    case ParsingJob => 1
    case PromptTarget(_) => 2
    case Generation => 3
    case Capabilities => 4
    case CapabilityOf(task) => if task == IMAGE_UNDERSTANDING then 4 else 5
  }

  // Distinct blockers of the first stages only.
  predicate DistinctUpTo(blockers: seq<Blocker>, stage: nat) {
    Distinct(blockers) && forall i :: 0 <= i < |blockers| ==> StageOf(blockers[i].target) <= stage
  }

  lemma AppendStaysDistinct(blockers: seq<Blocker>, b: Blocker, stage: nat)
    requires DistinctUpTo(blockers, stage) && StageOf(b.target) <= stage
    ensures DistinctUpTo(Append(blockers, b), stage)
  {
  }

  lemma LaterStaysDistinct(blockers: seq<Blocker>, b: Blocker, stage: nat)
    requires DistinctUpTo(blockers, stage) && StageOf(b.target) == stage + 1
    ensures DistinctUpTo(blockers + [b], stage + 1)
  {
  }

  lemma SourcesStayDistinct(s: Session)
    ensures DistinctUpTo(WithSources(StartView(s), s.sources).blockers, 0)
  {
    hide DistinctUpTo, HasRole, NeedsContract;
    var none: seq<Blocker> := [];
    assert WithoutSourceBlockers(StartView(s).blockers) == none;
    assert DistinctUpTo(none, 0) by { NoneIsDistinct(); }
    if s.sources == [] {
      AppendStaysDistinct(none, Blocker(DualTrackSourceRequired, SourceReferences), 0);
    } else {
      var contract := AppendIf(none, NeedsContract(s.sources), Blocker(ContractNeeded, SourceReference));
      AppendStaysDistinct(none, Blocker(ContractNeeded, SourceReference), 0);
      var sku := AppendIf(contract, !HasRole(s.sources, SKU), Blocker(DualTrackSkuRequired, SourceReferences));
      AppendStaysDistinct(contract, Blocker(DualTrackSkuRequired, SourceReferences), 0);
      AppendStaysDistinct(sku, Blocker(DualTrackReferenceRequired, SourceReferences), 0);
    }
  }

  lemma NoneIsDistinct()
    ensures DistinctUpTo([], 0)
  {
  }

  lemma RaiseStage(blockers: seq<Blocker>, low: nat, high: nat)
    requires DistinctUpTo(blockers, low) && low <= high
    ensures DistinctUpTo(blockers, high)
  {
  }

  lemma {:induction false} PlanStaysDistinct(blockers: seq<Blocker>, planned: seq<PlanBlocker>, n: nat)
    requires n <= |planned| && DistinctUpTo(blockers, 2)
    ensures DistinctUpTo(PlanBlockers(blockers, planned, n), 2)
  {
    hide DistinctUpTo, Trim;
    if n > 0 {
      PlanStaysDistinct(blockers, planned, n - 1);
      AppendStaysDistinct(PlanBlockers(blockers, planned, n - 1), Blocker(ContractNeeded, PromptTarget(planned[n - 1].target)), 2);
    }
  }

  lemma CapabilitiesStayDistinct(v: View, answer: CapabilityAnswer, job: Option<DeconstructionJob>)
    requires DistinctUpTo(v.blockers, 3)
    ensures DistinctUpTo(WithCapabilities(v, answer, job).blockers, 5)
  {
    hide DistinctUpTo, LastFor, NeedsParsing;
    RaiseStage(v.blockers, 3, 5);
    match answer
    case NoReader =>
    case NoMatrix =>
    case ReadFailed =>
      LaterStaysDistinct(v.blockers, Blocker(CapabilityError, Capabilities), 3);
      RaiseStage(v.blockers + [Blocker(CapabilityError, Capabilities)], 4, 5);
    case Matrix(items) =>
      var one, two := WithTasks(v, items, job, 1), WithTasks(v, items, job, 2);
      assert WithTasks(v, items, job, 0) == v && one == WithTask(v, items, TASKS[0], job);
      assert two == WithTask(one, items, TASKS[1], job);
      RaiseStage(v.blockers, 3, 4);
      LaterStaysDistinct(v.blockers, Blocker(CapabilityUnavailable, CapabilityOf(IMAGE_UNDERSTANDING)), 3);
      RaiseStage(one.blockers, 4, 5);
      LaterStaysDistinct(one.blockers, Blocker(CapabilityUnavailable, CapabilityOf(IMAGE_GENERATION)), 4);
      LastTasksAddNothing(v, items, job);
  }

  lemma LastTasksAddNothing(v: View, items: seq<Capability>, job: Option<DeconstructionJob>)
    ensures WithTasks(v, items, job, 4).blockers == WithTasks(v, items, job, 2).blockers
  {
    hide LastFor, NeedsParsing;
    var two := WithTasks(v, items, job, 2);
    var three := WithTasks(v, items, job, 3);
    assert three == WithTask(two, items, TASKS[2], job) && TASKS[2] != IMAGE_UNDERSTANDING && TASKS[2] != IMAGE_GENERATION;
    assert three.blockers == two.blockers;
    assert TASKS[3] != IMAGE_UNDERSTANDING && TASKS[3] != IMAGE_GENERATION;
  }

  // No two blockers of a view share code and target.
  lemma BlockersAreDistinct(s: Session)
    ensures Distinct(ReadView(s).blockers)
  {
    hide WithSources, WithCapabilities, PromptReady, Generated, Append, PlanBlockers;
    SourcesStayDistinct(s);
    var sourced := WithSources(StartView(s), s.sources);
    RaiseStage(sourced.blockers, 0, 1);
    LaterStaysDistinct(sourced.blockers, Blocker(ContractNeeded, ParsingJob), 0);
    var parsed := WithJob(sourced, s.job);
    RaiseStage(parsed.blockers, 1, 2);
    var standard := Append(parsed.blockers, Blocker(ContractNeeded, PromptTarget("prompt_plan")));
    AppendStaysDistinct(parsed.blockers, Blocker(ContractNeeded, PromptTarget("prompt_plan")), 2);
    PlanStaysDistinct(standard, s.plan.blockers, |s.plan.blockers|);
    var prompted := WithPrompt(parsed, s.plan);
    RaiseStage(prompted.blockers, 2, 3);
    AppendStaysDistinct(prompted.blockers, Blocker(ContractNeeded, Generation), 3);
    CapabilitiesStayDistinct(WithGeneration(prompted, s.versions), s.capabilities, s.job);
  }

  // Only blockers of the source stage are cleared before it is read again.
  lemma {:induction false} OtherBlockersStay(blockers: seq<Blocker>, b: Blocker)
    ensures b in WithoutSourceBlockers(blockers) <==>
              && b in blockers && b.target != SourceReference && b.target != SourceReferences
              && b.code !in {SourceMissing, DualTrackSourceRequired, DualTrackSkuRequired, DualTrackReferenceRequired}
  {
    if blockers != [] {
      OtherBlockersStay(blockers[1..], b);
    }
  }
}
