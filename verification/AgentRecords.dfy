/** The rows one agent execution owns, the guards rebuilt from them, and every commit that
    changes them (app/agent/workflow.py, app/repositories/agent.py). */
module AgentRecords {
  import opened Dict
  import opened Json
  import opened Sanitization
  import opened AgentModels
  import opened AgentTools

  datatype AgentStatus =
    | Pending | Running | WaitingForTool | Completed | Retryable | Failed | Cancelled
    | AwaitingReview | Approved | Rejected

  datatype ResolutionStatus = ResolutionPending | Processing | Deferred | Resolved | Abandoned

  datatype StepOutcome = ToolSucceeded | RepeatedToolCall | ToolRequestRejected | FinalCompleted

  /** `final` is the action type; the other columns are those the workflow reads back. */
  datatype Step = Step(number: int, final: bool, tool: Option<string>, arguments: Json, result: Json,
                       references: seq<Reference>, outcome: StepOutcome)

  datatype Execution = Execution(status: AgentStatus, stepCount: int, toolCallCount: nat, modelCallCount: nat,
                                 retryCount: nat, createdAt: int)

  datatype Resolution = Resolution(status: ResolutionStatus, attemptCount: nat, final: Option<FinalResponse>,
                                   context: seq<Json>)

  datatype Feedback = Comment | Approval | Rejection

  /** Everything stored for one incident by the agent and in review. `found` is no column: it
      is how many step rows the attempt in progress, or the last one, loaded when it began. */
  datatype Records = Records(execution: Option<Execution>, resolution: Option<Resolution>, steps: seq<Step>,
                             feedback: seq<Feedback>, found: nat)

  const NO_RECORDS := Records(None, None, [], [], 0)

  predicate Active(s: AgentStatus) { s.Running? || s.WaitingForTool? }

  predicate Reviewed(s: AgentStatus) { s.AwaitingReview? || s.Approved? || s.Rejected? }

  /** Statuses at which a delivery of the event is answered without running the agent. */
  predicate Terminal(s: AgentStatus) { Reviewed(s) || s.Completed? || s.Failed? || s.Cancelled? }

  // ---- Guards computed from step rows

  predicate Succeeds(step: Step) { step.outcome.ToolSucceeded? && step.tool.Some? }

  function SucceededCount(steps: seq<Step>): (n: nat)
    ensures n <= |steps|
  {
    if steps == [] then 0
    else SucceededCount(steps[..|steps| - 1]) + if steps[|steps| - 1].outcome.ToolSucceeded? then 1 else 0
  }

  /** Tools of the succeeded steps, in order. */
  function SucceededTools(steps: seq<Step>): seq<string> {
    if steps == [] then []
    else
      var last := steps[|steps| - 1];
      SucceededTools(steps[..|steps| - 1]) + if Succeeds(last) then [last.tool.value] else []
  }

  function MissingEvidence(steps: seq<Step>): seq<string> {
    (if GET_INCIDENT in SucceededTools(steps) then [] else [GET_INCIDENT])
    + if RETRIEVE_RUNBOOKS in SucceededTools(steps) then [] else [RETRIEVE_RUNBOOKS]
  }

  function RequiredTool(steps: seq<Step>): Option<string> {
    if MissingEvidence(steps) == [] then None else Some(MissingEvidence(steps)[0])
  }

  function Signature(sv: Server, tool: string, arguments: Json): string {
    tool + ":" + sv.encode(Sanitize(sv.text, arguments, 0))
  }

  /** The signature an attempt counts a row under: computed from the stored arguments when it
      loaded the row, and from the call, before they were stored, when it wrote it. */
  function StepSignature(sv: Server, step: Step, loaded: bool): string
    requires Succeeds(step)
  {
    if loaded then Signature(sv, step.tool.value, step.arguments)
    else step.tool.value + ":" + sv.encode(step.arguments)
  }

  /** The counter of an attempt that loaded the first `found` rows and wrote the others. */
  function SignatureCount(sv: Server, steps: seq<Step>, found: nat, signature: string): nat {
    if steps == [] then 0
    else
      var n := |steps| - 1;
      SignatureCount(sv, steps[..n], found, signature)
      + if Succeeds(steps[n]) && StepSignature(sv, steps[n], n < found) == signature then 1 else 0
  }

  /** The server refuses to run this call again. */
  predicate Repeats(sv: Server, steps: seq<Step>, found: nat, request: ToolRequest) {
    || SignatureCount(sv, steps, found, Signature(sv, request.toolName, Obj(request.arguments)))
       >= sv.limits.maxRepeatedToolCalls
    || (request.toolName == RETRIEVE_RUNBOOKS && RETRIEVE_RUNBOOKS in SucceededTools(steps))
  }

  /** Results of the succeeded steps, read back from their rows. */
  function Restored(steps: seq<Step>): Results {
    if steps == [] then []
    else
      var last := steps[|steps| - 1];
      Restored(steps[..|steps| - 1])
      + if last.final || !last.outcome.ToolSucceeded? || ParseResult(last.result).None? then []
        else [Entry(last.number, ParseResult(last.result).value)]
  }

  function EvidenceReferences(results: Results): seq<Reference> { Distinct(ReferencesOf(Values(results))) }

  type Citation = (Option<string>, Option<int>)

  /** Chunks a final answer may cite. */
  function Allowed(references: seq<Reference>): set<Citation> {
    set r | r in references && r.kind == RunbookRef :: (r.sourceId, r.chunkId)
  }

  function AllEntries(results: Results): seq<Entry<(Json, Json), Json>> {
    if results == [] then []
    else AllEntries(results[..|results| - 1]) + ContextEntries(results[|results| - 1].value.data)
  }

  /** The chunks stored with the resolution: the last version of each identified chunk. */
  function RetrievedContext(results: Results): seq<Json> { Values(FromItems(AllEntries(results))) }

  // ---- The final answer

  const DANGEROUS := ["rm -rf", "drop table", "delete from", "format c:", "i restarted", "we fixed"]
  const NO_EVIDENCE := "No citation-addressable runbook evidence was available."

  predicate Dangerous(sv: Server, action: string) {
    exists i :: 0 <= i < |DANGEROUS| && Contains(sv.text.lower(action), DANGEROUS[i])
  }

  ghost predicate NoDuplicates<T>(s: seq<T>) { forall i, j :: 0 <= i < j < |s| ==> s[i] != s[j] }

  function Cited(c: (string, int)): Citation { (Some(c.0), Some(c.1)) }

  /** The field bounds of a final answer. */
  predicate ValidAnswer(f: FinalResponse) {
    && 1 <= |f.summary| <= 2000 && 1 <= |f.rootCause| <= 4000 && 1 <= |f.evidenceSummary| <= 4000
    && 0.0 <= f.confidence <= 1.0
    && 1 <= |f.actions| <= 8 && (forall i :: 0 <= i < |f.actions| ==> 1 <= |f.actions[i]| <= 1000)
    && |f.cited| <= 8 && (forall i :: 0 <= i < |f.cited| ==> 1 <= |f.cited[i].0| <= 120 && f.cited[i].1 > 0)
    && 1 <= |f.toolsUsed| <= 12 && (forall i :: 0 <= i < |f.toolsUsed| ==> 1 <= |f.toolsUsed[i]| <= 80)
    && |f.limitations| <= 8 && (forall i :: 0 <= i < |f.limitations| ==> 1 <= |f.limitations[i]| <= 1000)
  }

  /** The guards a final answer passes. */
  predicate Acceptable(sv: Server, answer: FinalResponse, tools: seq<string>, allowed: set<Citation>) {
    && |Distinct(answer.toolsUsed)| == |answer.toolsUsed|
    && (forall t :: t in answer.toolsUsed ==> t in tools)
    && |Distinct(answer.cited)| == |answer.cited|
    && (forall c :: c in answer.cited ==> Cited(c) in allowed)
    && (allowed != {} ==> answer.cited != [])
    && (forall a :: a in answer.actions ==> !Dangerous(sv, a))
  }

  function Lower(a: real, b: real): real { if a <= b then a else b }

  function ValidateFinal(sv: Server, answer: FinalResponse, tools: seq<string>, allowed: set<Citation>)
    : Option<FinalResponse>
  {
    if !Acceptable(sv, answer, tools, allowed) then None
    else if allowed != {} then Some(answer.(toolsUsed := tools))
    else Some(answer.(toolsUsed := tools, confidence := Lower(answer.confidence, 0.5), escalation := true,
                      review := true,
                      limitations := if answer.limitations == [] then [NO_EVIDENCE] else answer.limitations))
  }

  // ---- Commits

  /** Each transaction the agent or a review commits, with the values it was built from. A late
      failure is the one an attempt records when the commit of its final row took effect and was
      reported failed. */
  datatype Commit =
    | Claim(now: int)
    | CountModelCall
    | AwaitTool
    | ResumePlanning
    | RecordTool(request: ToolRequest, result: ToolResult, previous: Results, reply: Reply)
    | RecordRejected(refused: ToolRequest, outcome: StepOutcome)
    | RecordFinal(raw: FinalResponse, answer: FinalResponse, evidence: Results)
    | RaiseRetryCount
    | RecordFailure(retryable: bool)
    | RecordLateFailure
    | Review(decision: Feedback)

  function ToolStep(sv: Server, steps: seq<Step>, request: ToolRequest, result: ToolResult): Step {
    Step(|steps| + 1, false, Some(request.toolName), Sanitize(sv.text, Obj(request.arguments), 0),
         Sanitize(sv.text, ResultJson(result), 0), result.references, ToolSucceeded)
  }

  function RejectedStep(sv: Server, steps: seq<Step>, request: ToolRequest, outcome: StepOutcome): Step {
    Step(|steps| + 1, false, Some(request.toolName), Sanitize(sv.text, Obj(request.arguments), 0), Null, [], outcome)
  }

  function FinalStep(sv: Server, steps: seq<Step>, references: seq<Reference>): Step {
    Step(|steps| + 1, true, None, Null, Null, references, FinalCompleted)
  }

  /** Loading the execution for a delivery: create it, or count one more attempt. */
  function Claimed(db: Records, now: int): Records {
    var execution :=
      match db.execution
      case None => Execution(Running, 0, 0, 0, 0, now)
      case Some(e) => e.(status := Running, retryCount := e.retryCount + 1);
    var resolution :=
      match db.resolution
      case None => Resolution(Processing, 1, None, [])
      case Some(r) => r.(status := Processing, attemptCount := r.attemptCount + 1);
    db.(execution := Some(execution), resolution := Some(resolution), found := |db.steps|)
  }

  predicate LastRetry(sv: Server, e: Execution) { e.retryCount + 1 >= sv.limits.modelRetries }

  function Failing(sv: Server, db: Records, e: Execution, retryable: bool): Records {
    var terminal := !retryable && LastRetry(sv, e);
    db.(execution := Some(e.(status := if terminal then Failed else Retryable)),
        resolution := match db.resolution
                      case None => None
                      case Some(r) => Some(r.(status := if terminal then Abandoned else Deferred)))
  }

  function Most(a: nat, b: int): nat { if a >= b then a else b }

  function Apply(sv: Server, db: Records, c: Commit): Records {
    if c.Claim? then Claimed(db, c.now)
    else if db.execution.None? then db
    else
      var e := db.execution.value;
      match c
      case Claim(_) => db
      case CountModelCall => db.(execution := Some(e.(modelCallCount := e.modelCallCount + 1)))
      case AwaitTool => db.(execution := Some(e.(status := WaitingForTool)))
      case ResumePlanning => db.(execution := Some(e.(status := Running)))
      case RecordTool(request, result, _, _) =>
        db.(steps := db.steps + [ToolStep(sv, db.steps, request, result)],
            execution := Some(e.(status := Running, stepCount := |db.steps| + 1, toolCallCount := e.toolCallCount + 1)))
      case RecordRejected(request, outcome) =>
        db.(steps := db.steps + [RejectedStep(sv, db.steps, request, outcome)],
            execution := Some(e.(status := Running, stepCount := |db.steps| + 1)))
      case RecordFinal(_, answer, evidence) =>
        db.(steps := db.steps + [FinalStep(sv, db.steps, EvidenceReferences(evidence))],
            execution := Some(e.(status := AwaitingReview, stepCount := |db.steps| + 1)),
            resolution := match db.resolution
                          case None => None
                          case Some(r) =>
                            Some(r.(status := Resolved, final := Some(answer), context := RetrievedContext(evidence))))
      case RaiseRetryCount => db.(execution := Some(e.(retryCount := Most(e.retryCount, sv.limits.modelRetries - 1))))
      case RecordFailure(retryable) => Failing(sv, db, e, retryable)
      case RecordLateFailure => Failing(sv, db, e, true)
      case Review(decision) =>
        db.(feedback := db.feedback + [decision],
            execution := Some(if decision.Comment? then e
                              else e.(status := if decision.Approval? then Approved else Rejected)))
  }

  // ---- When a commit is made

  /** Two results later steps cannot tell apart. */
  predicate SameEvidence(a: ToolResult, b: ToolResult) {
    && a.toolName == b.toolName && ContextKeys(a.data) == ContextKeys(b.data)
    && |a.references| == |b.references|
    && forall i :: 0 <= i < |a.references| ==> Evidence(a.references[i]) == Evidence(b.references[i])
  }

  /** Results held in memory that are as good as those read back from the rows. */
  predicate Matches(sv: Server, memory: Results, restored: Results) {
    && |memory| == |restored| && ReadablePrevious(sv, memory)
    && forall i :: 0 <= i < |memory| ==>
         memory[i].key == restored[i].key && SameEvidence(memory[i].value, restored[i].value)
  }

  predicate Eligible(steps: seq<Step>, request: ToolRequest) {
    RequiredTool(steps).Some? ==> request.toolName == RequiredTool(steps).value
  }

  predicate LegalTool(sv: Server, incident: nat, db: Records, c: Commit)
    requires c.RecordTool?
  {
    && Eligible(db.steps, c.request) && !Repeats(sv, db.steps, db.found, c.request)
    && Matches(sv, c.previous, Restored(db.steps)) && GoodReply(c.reply)
    && ExecuteTool(sv, incident, c.previous, SucceededCount(db.steps), c.request, c.reply) == Succeeded(c.result)
  }

  /** The resolution is the validated form of the model's answer, against the evidence held
      in memory. */
  predicate LegalFinal(sv: Server, db: Records, c: Commit)
    requires c.RecordFinal?
  {
    && MissingEvidence(db.steps) == [] && ValidAnswer(c.raw) && Matches(sv, c.evidence, Restored(db.steps))
    && ValidateFinal(sv, c.raw, Distinct(SucceededTools(db.steps)), Allowed(EvidenceReferences(c.evidence)))
       == Some(c.answer)
  }

  predicate InProgress(db: Records) { db.execution.Some? && Active(db.execution.value.status) }

  /** Inside the loop, past the budget checks. */
  predicate Ready(sv: Server, db: Records) { InProgress(db) && |db.steps| < sv.limits.maxSteps }

  /** A tool has been announced. */
  predicate Awaiting(db: Records) { db.execution.Some? && db.execution.value.status.WaitingForTool? }

  predicate Legal(sv: Server, incident: nat, db: Records, c: Commit) {
    match c
    case Claim(_) => db.execution.None? || !Terminal(db.execution.value.status)
    case CountModelCall => Ready(sv, db)
    case AwaitTool => Ready(sv, db)
    case ResumePlanning => InProgress(db)
    case RecordTool(_, _, _, _) => Ready(sv, db) && Awaiting(db) && LegalTool(sv, incident, db, c)
    case RecordRejected(request, outcome) =>
      && Ready(sv, db) && Eligible(db.steps, request)
      && outcome == (if Repeats(sv, db.steps, db.found, request) then RepeatedToolCall else ToolRequestRejected)
      && (outcome.ToolRequestRejected? ==> Awaiting(db))
    case RecordFinal(_, _, _) => Ready(sv, db) && LegalFinal(sv, db, c)
    case RaiseRetryCount => InProgress(db)
    case RecordFailure(_) => InProgress(db)
    case RecordLateFailure => db.execution.Some? && Reviewed(db.execution.value.status)
    case Review(decision) =>
      && db.execution.Some? && db.resolution.Some?
      && (decision.Comment? || db.execution.value.status.AwaitingReview?)
  }

  /** The rows after a sequence of commits. */
  function After(sv: Server, start: Records, commits: seq<Commit>): Records {
    if commits == [] then start
    else Apply(sv, After(sv, start, commits[..|commits| - 1]), commits[|commits| - 1])
  }

  ghost predicate LegalFrom(sv: Server, incident: nat, start: Records, commits: seq<Commit>) {
    commits == [] ||
    (LegalFrom(sv, incident, start, commits[..|commits| - 1])
     && Legal(sv, incident, After(sv, start, commits[..|commits| - 1]), commits[|commits| - 1]))
  }

  function State(sv: Server, run: seq<Commit>): Records { After(sv, NO_RECORDS, run) }

  /** A history of one incident's rows, from nothing, one commit at a time. A crash ends an
      attempt between two commits; the next delivery continues with a claim. */
  ghost predicate LegalRun(sv: Server, incident: nat, run: seq<Commit>) {
    LegalFrom(sv, incident, NO_RECORDS, run)
  }
}
