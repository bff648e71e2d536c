/** What every history of an agent execution keeps, whatever the planner, the resolver and
    the tools answer and wherever attempts are cut off. */
module AgentRuns {
  import opened Dict
  import opened Json
  import opened Sanitization
  import opened AgentModels
  import opened AgentTools
  import opened AgentRecords

  // ---- Growth of the guards, one row at a time

  lemma Grow(sv: Server, steps: seq<Step>, step: Step)
    ensures SucceededCount(steps + [step]) == SucceededCount(steps) + if step.outcome.ToolSucceeded? then 1 else 0
    ensures SucceededTools(steps + [step]) == SucceededTools(steps) + if Succeeds(step) then [step.tool.value] else []
    ensures forall found: nat, s ::
              SignatureCount(sv, steps + [step], found, s)
              == SignatureCount(sv, steps, found, s)
                 + if Succeeds(step) && StepSignature(sv, step, |steps| < found) == s then 1 else 0
    ensures Restored(steps + [step]) == Restored(steps)
      + if step.final || !step.outcome.ToolSucceeded? || ParseResult(step.result).None? then []
        else [Entry(step.number, ParseResult(step.result).value)]
  {
    hide ParseResult, StepSignature;
    assert (steps + [step])[..|steps|] == steps;
  }

  /** Rows of rejected calls and of the final answer change none of the guards. */
  lemma GrowQuietly(sv: Server, steps: seq<Step>, step: Step)
    requires !step.outcome.ToolSucceeded?
    ensures SucceededCount(steps + [step]) == SucceededCount(steps)
    ensures SucceededTools(steps + [step]) == SucceededTools(steps)
    ensures forall found: nat, s :: SignatureCount(sv, steps + [step], found, s) == SignatureCount(sv, steps, found, s)
    ensures Restored(steps + [step]) == Restored(steps)
  {
    hide SucceededTools, Restored, SignatureCount, SucceededCount;
    Grow(sv, steps, step);
  }

  lemma SameTail(prefix: string, a: string, b: string)
    ensures prefix + a == prefix + b <==> a == b
  {
    if prefix + a == prefix + b {
      assert a == (prefix + a)[|prefix|..];
      assert b == (prefix + b)[|prefix|..];
    }
  }

  // ---- Execution and resolution rows

  /** Execution and resolution rows exist together and their statuses correspond. */
  ghost predicate Lockstep(db: Records) {
    && (db.execution.None? ==> db == NO_RECORDS)
    && (db.execution.Some? ==>
          && db.resolution.Some?
          && db.resolution.value.attemptCount <= db.execution.value.retryCount + 1
          && match db.execution.value.status
             case Running => db.resolution.value.status.Processing?
             case WaitingForTool => db.resolution.value.status.Processing?
             case Retryable => db.resolution.value.status.Deferred?
             case Failed => db.resolution.value.status.Abandoned?
             case AwaitingReview => db.resolution.value.status.Resolved?
             case Approved => db.resolution.value.status.Resolved?
             case Rejected => db.resolution.value.status.Resolved?
             case _ => false)
  }

  lemma LockstepKept(sv: Server, incident: nat, db: Records, c: Commit)
    requires Lockstep(db) && Legal(sv, incident, db, c)
    ensures Lockstep(Apply(sv, db, c))
  {
    hide LegalTool, LegalFinal, ToolStep, RejectedStep, FinalStep, Eligible, Repeats;
  }

  // ---- The audit log

  ghost predicate Numbered(steps: seq<Step>) {
    forall i :: 0 <= i < |steps| ==> steps[i].number == i + 1
  }

  /** Succeeded rows are tool rows, and name their tool. */
  ghost predicate WellShaped(steps: seq<Step>) {
    forall i :: 0 <= i < |steps| && steps[i].outcome.ToolSucceeded? ==> steps[i].tool.Some? && !steps[i].final
  }

  /** The first two tools to succeed are the mandatory ones, in order, and the search succeeds once. */
  ghost predicate Ordered(tools: seq<string>) {
    && (|tools| >= 1 ==> tools[0] == GET_INCIDENT)
    && (|tools| >= 2 ==> tools[1] == RETRIEVE_RUNBOOKS)
    && forall i, j :: 0 <= i < j < |tools| ==> !(tools[i] == tools[j] == RETRIEVE_RUNBOOKS)
  }

  ghost predicate AuditedSteps(sv: Server, steps: seq<Step>) {
    && Numbered(steps) && WellShaped(steps) && Ordered(SucceededTools(steps))
    && |SucceededTools(steps)| == SucceededCount(steps) <= sv.limits.maxToolCalls
    && |steps| <= sv.limits.maxSteps
  }

  ghost predicate Counted(db: Records) {
    && db.found <= |db.steps|
    && (db.execution.Some? ==>
          && db.execution.value.stepCount == |db.steps|
          && db.execution.value.toolCallCount == SucceededCount(db.steps))
  }

  ghost predicate Audited(sv: Server, db: Records) { AuditedSteps(sv, db.steps) && Counted(db) }

  lemma OrderKept(steps: seq<Step>, request: ToolRequest)
    requires Ordered(SucceededTools(steps)) && Eligible(steps, request)
    requires request.toolName == RETRIEVE_RUNBOOKS ==> RETRIEVE_RUNBOOKS !in SucceededTools(steps)
    ensures Ordered(SucceededTools(steps) + [request.toolName])
  {
    hide SucceededTools;
    var tools := SucceededTools(steps);
    assert |GET_INCIDENT| == 12 && |RETRIEVE_RUNBOOKS| == 17;
    hide GET_INCIDENT, RETRIEVE_RUNBOOKS;
    if tools == [] {
      assert GET_INCIDENT !in tools;
    } else {
      assert tools[0] in tools;
      if |tools| >= 2 {
        assert tools[1] in tools;
      }
    }
  }

  lemma RecordToolKeepsAudit(sv: Server, incident: nat, db: Records, c: Commit)
    requires Audited(sv, db) && c.RecordTool? && Legal(sv, incident, db, c)
    ensures Audited(sv, Apply(sv, db, c))
  {
    hide Matches, ExecuteTool, GoodReply, Sanitize, ResultJson, Eligible, Ordered, SignatureCount, Restored;
    var step := ToolStep(sv, db.steps, c.request, c.result);
    Grow(sv, db.steps, step);
    OrderKept(db.steps, c.request);
    CallWithinBudget(sv, incident, c.previous, SucceededCount(db.steps), c.request, c.reply);
  }

  lemma CallWithinBudget(sv: Server, incident: nat, previous: Results, calls: nat, request: ToolRequest, reply: Reply)
    requires ExecuteTool(sv, incident, previous, calls, request, reply).Succeeded?
    ensures calls < sv.limits.maxToolCalls
  {
    hide Produce, ValidOutput, TOOL_NAMES;
  }

  lemma QuietAudit(sv: Server, steps: seq<Step>, step: Step)
    requires AuditedSteps(sv, steps) && |steps| < sv.limits.maxSteps
    requires !step.outcome.ToolSucceeded? && step.number == |steps| + 1
    ensures AuditedSteps(sv, steps + [step]) && SucceededCount(steps + [step]) == SucceededCount(steps)
  {
    hide SucceededTools, SignatureCount, SucceededCount, Ordered, Restored;
    GrowQuietly(sv, steps, step);
  }

  lemma AuditKept(sv: Server, incident: nat, db: Records, c: Commit)
    requires Lockstep(db) && Audited(sv, db) && Legal(sv, incident, db, c)
    ensures Audited(sv, Apply(sv, db, c))
  {
    hide LegalTool, LegalFinal, ToolStep, Eligible, AuditedSteps, SignatureCount, Sanitize, SucceededTools;
    hide EvidenceReferences, RetrievedContext;
    if c.RecordTool? {
      RecordToolKeepsAudit(sv, incident, db, c);
    } else if c.RecordRejected? {
      QuietAudit(sv, db.steps, RejectedStep(sv, db.steps, c.refused, c.outcome));
    } else if c.RecordFinal? {
      QuietAudit(sv, db.steps, FinalStep(sv, db.steps, EvidenceReferences(c.evidence)));
    }
  }

  // ---- Repeated calls

  /** Sanitizing the stored arguments again does not change them. */
  ghost predicate StableRow(sv: Server, step: Step) { Sanitize(sv.text, step.arguments, 0) == step.arguments }

  /** Rows from `m` on whose stored arguments are stable. */
  ghost predicate StableFrom(sv: Server, steps: seq<Step>, m: nat) {
    forall i :: m <= i < |steps| && Succeeds(steps[i]) ==> StableRow(sv, steps[i])
  }

  ghost predicate Stable(sv: Server, steps: seq<Step>) { StableFrom(sv, steps, 0) }

  /** Succeeded calls with stable arguments and this signature, whichever attempt made them. */
  ghost function StableCount(sv: Server, steps: seq<Step>, signature: string): nat {
    if steps == [] then 0
    else
      var last := steps[|steps| - 1];
      StableCount(sv, steps[..|steps| - 1], signature)
      + if Succeeds(last) && StableRow(sv, last) && StepSignature(sv, last, false) == signature then 1 else 0
  }

  /** No call with stable arguments succeeded more often than allowed, over all attempts and
      whatever other calls were made. */
  ghost predicate WithinRepeats(sv: Server, steps: seq<Step>) {
    forall s :: StableCount(sv, steps, s) <= sv.limits.maxRepeatedToolCalls
  }

  /** A stable row has one signature, whether an attempt loaded it or wrote it. */
  lemma StableSignature(sv: Server, step: Step, loaded: bool)
    requires Succeeds(step) && StableRow(sv, step)
    ensures StepSignature(sv, step, loaded) == StepSignature(sv, step, false)
  {
    hide Sanitize;
  }

  /** Every attempt counts the stable rows, and only them if there are no others. */
  lemma {:induction false} StableCounts(sv: Server, steps: seq<Step>, found: nat, s: string)
    ensures StableCount(sv, steps, s) <= SignatureCount(sv, steps, found, s)
    ensures Stable(sv, steps) ==> StableCount(sv, steps, s) == SignatureCount(sv, steps, found, s)
  {
    hide StepSignature, StableRow;
    if steps != [] {
      var n := |steps| - 1;
      StableCounts(sv, steps[..n], found, s);
      if Succeeds(steps[n]) && StableRow(sv, steps[n]) {
        StableSignature(sv, steps[n], n < found);
      }
    }
  }

  /** Rows that are stable may be loaded or written. */
  lemma {:induction false} LoadedOrWritten(sv: Server, steps: seq<Step>, m: nat, n: nat, s: string)
    requires m <= n && StableFrom(sv, steps, m)
    ensures SignatureCount(sv, steps, m, s) == SignatureCount(sv, steps, n, s)
  {
    hide StepSignature, StableRow;
    if steps != [] {
      var k := |steps| - 1;
      LoadedOrWritten(sv, steps[..k], m, n, s);
      if m <= k && Succeeds(steps[k]) {
        StableSignature(sv, steps[k], k < n);
      }
    }
  }

  lemma StableGrow(sv: Server, steps: seq<Step>, step: Step)
    ensures forall s ::
              StableCount(sv, steps + [step], s)
              == StableCount(sv, steps, s)
                 + if Succeeds(step) && StableRow(sv, step) && StepSignature(sv, step, false) == s then 1 else 0
  {
    hide StepSignature, StableRow;
    assert (steps + [step])[..|steps|] == steps;
  }

  lemma RepeatsAfterCall(sv: Server, steps: seq<Step>, found: nat, request: ToolRequest, step: Step)
    requires WithinRepeats(sv, steps) && !Repeats(sv, steps, found, request)
    requires step.outcome.ToolSucceeded? && step.tool == Some(request.toolName)
    requires step.arguments == Sanitize(sv.text, Obj(request.arguments), 0)
    ensures WithinRepeats(sv, steps + [step])
  {
    hide SignatureCount, StableCount, SucceededTools, Sanitize, StableRow;
    StableGrow(sv, steps, step);
    StableCounts(sv, steps, found, Signature(sv, request.toolName, Obj(request.arguments)));
  }

  lemma RepeatsAfterQuiet(sv: Server, steps: seq<Step>, step: Step)
    requires WithinRepeats(sv, steps) && !step.outcome.ToolSucceeded?
    ensures WithinRepeats(sv, steps + [step])
  {
    hide StableCount, StableRow, StepSignature;
    StableGrow(sv, steps, step);
  }

  lemma RepeatsKept(sv: Server, incident: nat, db: Records, c: Commit)
    requires Lockstep(db) && WithinRepeats(sv, db.steps) && Legal(sv, incident, db, c)
    ensures WithinRepeats(sv, Apply(sv, db, c).steps)
  {
    hide Matches, ExecuteTool, GoodReply, Sanitize, ResultJson, Eligible, SignatureCount, Restored, LegalFinal;
    hide EvidenceReferences, RetrievedContext, SucceededTools, WithinRepeats, MissingEvidence, SucceededCount, Repeats;
    if c.RecordTool? {
      RepeatsAfterCall(sv, db.steps, db.found, c.request, ToolStep(sv, db.steps, c.request, c.result));
    } else if c.RecordRejected? {
      RepeatsAfterQuiet(sv, db.steps, RejectedStep(sv, db.steps, c.refused, c.outcome));
    } else if c.RecordFinal? {
      RepeatsAfterQuiet(sv, db.steps, FinalStep(sv, db.steps, EvidenceReferences(c.evidence)));
    }
  }

  lemma StableBefore(sv: Server, steps: seq<Step>, step: Step)
    ensures Stable(sv, steps + [step]) ==> Stable(sv, steps)
  {
    hide StableRow;
    if Stable(sv, steps + [step]) {
      forall i | 0 <= i < |steps| && Succeeds(steps[i]) ensures StableRow(sv, steps[i]) {
        assert (steps + [step])[i] == steps[i];
      }
    }
  }

  /** The row is a stored copy of this call. */
  ghost predicate CopyOf(sv: Server, step: Step, request: ToolRequest) {
    && Succeeds(step) && step.tool.value == request.toolName
    && step.arguments == Sanitize(sv.text, Obj(request.arguments), 0)
  }

  /** How often the call succeeded, over all attempts. */
  ghost function Copies(sv: Server, steps: seq<Step>, request: ToolRequest): nat {
    if steps == [] then 0
    else
      Copies(sv, steps[..|steps| - 1], request) + if CopyOf(sv, steps[|steps| - 1], request) then 1 else 0
  }

  /** No row of another call has the signature of this one, loaded or written. */
  ghost predicate Separate(sv: Server, steps: seq<Step>, request: ToolRequest) {
    forall i, loaded :: 0 <= i < |steps| && Succeeds(steps[i]) && !CopyOf(sv, steps[i], request) ==>
      StepSignature(sv, steps[i], loaded) != Signature(sv, request.toolName, Obj(request.arguments))
  }

  /** Encoding tells the stored arguments from those sanitized once more. */
  ghost predicate EncodesApart(sv: Server, request: ToolRequest) {
    var stored := Sanitize(sv.text, Obj(request.arguments), 0);
    sv.encode(Sanitize(sv.text, stored, 0)) == sv.encode(stored) ==> Sanitize(sv.text, stored, 0) == stored
  }

  /** A stored row has the signature of its call for the attempt that wrote it, and for one that
      loaded it exactly when the texts of the call's arguments settle. */
  lemma StoredSignature(sv: Server, step: Step, request: ToolRequest)
    requires CopyOf(sv, step, request) && EncodesApart(sv, request)
    ensures var s := Signature(sv, request.toolName, Obj(request.arguments));
            && StepSignature(sv, step, false) == s
            && (StepSignature(sv, step, true) == s <==> TextsSettle(sv.text, Obj(request.arguments), 0))
  {
    hide Sanitize, TextsSettle;
    Absorption(sv.text, Obj(request.arguments), 0, 0);
    var stored := Sanitize(sv.text, Obj(request.arguments), 0);
    SameTail(request.toolName + ":", sv.encode(Sanitize(sv.text, stored, 0)), sv.encode(stored));
  }

  /** An attempt counts the copies it wrote, and those it loaded exactly when the texts settle. */
  lemma {:induction false} CountsCopies(sv: Server, steps: seq<Step>, found: nat, request: ToolRequest)
    requires Separate(sv, steps, request) && EncodesApart(sv, request)
    ensures var s := Signature(sv, request.toolName, Obj(request.arguments));
            && (TextsSettle(sv.text, Obj(request.arguments), 0) || found == 0 ==>
                  SignatureCount(sv, steps, found, s) == Copies(sv, steps, request))
            && (!TextsSettle(sv.text, Obj(request.arguments), 0) && found >= |steps| ==>
                  SignatureCount(sv, steps, found, s) == 0)
  {
    hide Signature, StepSignature, CopyOf, TextsSettle, EncodesApart;
    if steps != [] {
      var n := |steps| - 1;
      assert Separate(sv, steps[..n], request) by { SeparateBefore(sv, steps, request); }
      CountsCopies(sv, steps[..n], found, request);
      if CopyOf(sv, steps[n], request) {
        StoredSignature(sv, steps[n], request);
        CopySucceeds(sv, steps[n], request);
      }
    }
  }

  lemma CopySucceeds(sv: Server, step: Step, request: ToolRequest)
    requires CopyOf(sv, step, request)
    ensures Succeeds(step)
  {
  }

  lemma SeparateBefore(sv: Server, steps: seq<Step>, request: ToolRequest)
    requires Separate(sv, steps, request) && steps != []
    ensures Separate(sv, steps[..|steps| - 1], request)
  {
    hide StepSignature, CopyOf, Signature;
  }

  /** When a call has succeeded as often as allowed, the attempt that made it refuses it; an
      attempt that loaded all its rows refuses it exactly when its texts settle. */
  lemma GuardAfterRestart(sv: Server, steps: seq<Step>, request: ToolRequest)
    requires request.toolName != RETRIEVE_RUNBOOKS && 1 <= sv.limits.maxRepeatedToolCalls <= Copies(sv, steps, request)
    requires Separate(sv, steps, request) && EncodesApart(sv, request)
    ensures Repeats(sv, steps, 0, request)
    ensures Repeats(sv, steps, |steps|, request) <==> TextsSettle(sv.text, Obj(request.arguments), 0)
  {
    hide SignatureCount, Copies, Separate, EncodesApart, TextsSettle, SucceededTools, Signature;
    CountsCopies(sv, steps, 0, request);
    CountsCopies(sv, steps, |steps|, request);
  }

  /** Until then no attempt refuses it: a call other than the search is admitted while it has
      succeeded less often than allowed. */
  lemma AdmittedUntilLimit(sv: Server, steps: seq<Step>, found: nat, request: ToolRequest)
    requires request.toolName != RETRIEVE_RUNBOOKS && Separate(sv, steps, request) && EncodesApart(sv, request)
    requires Copies(sv, steps, request) < sv.limits.maxRepeatedToolCalls
    ensures !Repeats(sv, steps, found, request)
  {
    hide CopyOf, StepSignature, Signature, EncodesApart, SucceededTools, Separate;
    CountedAreCopies(sv, steps, found, request);
  }

  lemma {:induction false} CountedAreCopies(sv: Server, steps: seq<Step>, found: nat, request: ToolRequest)
    requires Separate(sv, steps, request)
    ensures SignatureCount(sv, steps, found, Signature(sv, request.toolName, Obj(request.arguments)))
            <= Copies(sv, steps, request)
  {
    hide CopyOf, StepSignature, Signature;
    if steps != [] {
      var n := |steps| - 1;
      assert forall i :: 0 <= i < n ==> steps[..n][i] == steps[i];
      CountedAreCopies(sv, steps[..n], found, request);
    }
  }

  /** Two calls have one signature exactly when they name one tool and their arguments are stored
      alike, where the encoding tells arguments apart and no tool's name has a colon. */
  lemma SignatureIff(sv: Server, tool: string, arguments: Json, other: string, others: Json)
    requires ':' !in tool && ':' !in other
    requires forall a, b :: sv.encode(a) == sv.encode(b) ==> a == b
    ensures Signature(sv, tool, arguments) == Signature(sv, other, others) <==>
      tool == other && Sanitize(sv.text, arguments, 0) == Sanitize(sv.text, others, 0)
  {
    hide Sanitize;
    var s, t := Signature(sv, tool, arguments), Signature(sv, other, others);
    if s == t {
      assert s[|tool|] == ':' && t[|other|] == ':';
      assert forall k :: 0 <= k < |tool| ==> s[k] == tool[k];
      assert forall k :: 0 <= k < |other| ==> t[k] == other[k];
      assert |tool| == |other|;
      assert s[..|tool|] == tool && t[..|other|] == other;
      assert s[|tool| + 1..] == sv.encode(Sanitize(sv.text, arguments, 0));
      assert t[|other| + 1..] == sv.encode(Sanitize(sv.text, others, 0));
    }
  }

  // ---- The final row and the review

  /** One final row, the last, exactly when the execution awaits or passed review. */
  ghost predicate Finished(db: Records) {
    && (forall i :: 0 <= i < |db.steps| && db.steps[i].final ==> i == |db.steps| - 1)
    && (db.execution.Some? ==>
          && (Reviewed(db.execution.value.status) <==> db.steps != [] && db.steps[|db.steps| - 1].final)
          && (db.resolution.Some? ==> (db.resolution.value.final.Some? <==> Reviewed(db.execution.value.status))))
  }

  lemma FinishedKept(sv: Server, incident: nat, db: Records, c: Commit)
    requires Lockstep(db) && Finished(db) && Legal(sv, incident, db, c) && !c.RecordLateFailure?
    ensures Finished(Apply(sv, db, c))
  {
    hide LegalTool, LegalFinal, Eligible, Repeats, Sanitize, ResultJson;
  }

  function Decisions(feedback: seq<Feedback>): seq<Feedback> {
    if feedback == [] then []
    else
      var last := feedback[|feedback| - 1];
      Decisions(feedback[..|feedback| - 1]) + if last.Comment? then [] else [last]
  }

  /** At most one review decision is stored, and it is the one the status shows. */
  ghost predicate Decided(db: Records) {
    db.execution.Some? ==>
      Decisions(db.feedback) == match db.execution.value.status
                                case Approved => [Approval]
                                case Rejected => [Rejection]
                                case _ => []
  }

  lemma DecidedKept(sv: Server, incident: nat, db: Records, c: Commit)
    requires Lockstep(db) && Decided(db) && Legal(sv, incident, db, c) && !c.RecordLateFailure?
    ensures Decided(Apply(sv, db, c))
  {
    hide Legal, Apply, Lockstep;
    if c.Review? {
      ReviewDecides(sv, incident, db, c);
      assert (db.feedback + [c.decision])[..|db.feedback|] == db.feedback;
    } else {
      NothingDecided(sv, incident, db, c);
    }
  }

  predicate Decides(s: AgentStatus) { s.Approved? || s.Rejected? }

  lemma ReviewDecides(sv: Server, incident: nat, db: Records, c: Commit)
    requires Legal(sv, incident, db, c) && c.Review?
    ensures var t := Apply(sv, db, c);
            && t.feedback == db.feedback + [c.decision] && db.execution.Some? && t.execution.Some?
            && (c.decision.Comment? ==> t.execution == db.execution)
            && (!c.decision.Comment? ==>
                  && !Decides(db.execution.value.status)
                  && t.execution.value.status == if c.decision.Approval? then Approved else Rejected)
  {
  }

  lemma NothingDecided(sv: Server, incident: nat, db: Records, c: Commit)
    requires Lockstep(db) && Legal(sv, incident, db, c) && !c.Review? && !c.RecordLateFailure?
    ensures var t := Apply(sv, db, c);
            && t.feedback == db.feedback
            && (db.execution.None? ==> db.feedback == [])
            && (db.execution.Some? && Decides(db.execution.value.status) ==>
                  t.execution.Some? && t.execution.value.status == db.execution.value.status)
            && (t.execution.Some? && Decides(t.execution.value.status) ==>
                  db.execution.Some? && t.execution.value.status == db.execution.value.status)
  {
    hide LegalTool, LegalFinal, Eligible, Repeats, ToolStep, RejectedStep, FinalStep, EvidenceReferences;
    hide RetrievedContext;
  }

  // ---- Evidence

  ghost predicate Carries(q: ToolResult, e: (ReferenceKind, Option<string>, Option<int>)) {
    exists k :: 0 <= k < |q.references| && Evidence(q.references[k]) == e
  }

  /** A result of the search, or of the stored context, that shows the chunk it refers to. */
  ghost predicate Source(q: ToolResult, r: Reference) {
    && q.toolName in [RETRIEVE_RUNBOOKS, RESOLUTION_CONTEXT] && Carries(q, Evidence(r))
    && HasKey(ContextEntries(q.data), CitationKey(r))
  }

  ghost predicate Explained(q: ToolResult, r: Reference, earlier: Results) {
    Source(q, r) || exists i :: 0 <= i < |earlier| && Carries(earlier[i].value, Evidence(r))
  }

  ghost predicate ExplainsAll(q: ToolResult, earlier: Results) {
    forall k :: 0 <= k < |q.references| && q.references[k].kind.RunbookRef? ==> Explained(q, q.references[k], earlier)
  }

  ghost predicate Explainable(results: Results) {
    forall n :: 0 <= n < |results| ==> ExplainsAll(results[n].value, results[..n])
  }

  /** The rows can be read back, one result for every succeeded step, and every runbook
      reference in them is explained by an earlier row or by its own chunks. */
  ghost predicate Traced(sv: Server, steps: seq<Step>) {
    && |Restored(steps)| == SucceededCount(steps)
    && ReadablePrevious(sv, Restored(steps))
    && Explainable(Restored(steps))
    && forall i :: 0 <= i < |Restored(steps)| ==> 1 <= Restored(steps)[i].key <= |steps|
  }

  lemma RestoredEvidence(sv: Server, q: ToolResult)
    requires Rules(sv) && ReadableResult(sv.text, q) && SameContext(sv.text, q)
    ensures SameEvidence(q, RestoredResult(sv.text, q)) && ReadableReferences(sv, RestoredResult(sv.text, q).references)
  {
    hide ContextEntries, Sanitize;
    RestoredIsValid(sv.text, q);
    var restored := RestoredResult(sv.text, q);
    forall i | 0 <= i < |q.references|
      ensures Evidence(q.references[i]) == Evidence(restored.references[i])
      ensures Readable(sv.text, restored.references[i])
    {
      assert Readable(sv.text, q.references[i]);
      assert CleanText(sv.text, CleanText(sv.text, q.references[i].referenceId))
          == CleanText(sv.text, q.references[i].referenceId);
    }
  }

  lemma ExplainedWhenStored(sv: Server, q: ToolResult, stored: ToolResult, memory: Results, restored: Results)
    requires Traceable(q, memory) && SameEvidence(q, stored) && Matches(sv, memory, restored)
    ensures ExplainsAll(stored, restored)
  {
    hide ContextEntries, ReadablePrevious;
    forall k | 0 <= k < |stored.references| && stored.references[k].kind.RunbookRef?
      ensures Explained(stored, stored.references[k], restored)
    {
      var r := q.references[k];
      assert Evidence(r) == Evidence(stored.references[k]) && r in q.references;
      if q.toolName in [RETRIEVE_RUNBOOKS, RESOLUTION_CONTEXT] && HasKey(ContextEntries(q.data), CitationKey(r)) {
        assert CitationKey(r) == CitationKey(stored.references[k]);
      } else {
        var i :| 0 <= i < |memory| && r in memory[i].value.references;
        var m :| 0 <= m < |memory[i].value.references| && memory[i].value.references[m] == r;
        assert Evidence(restored[i].value.references[m]) == Evidence(r);
        assert Carries(restored[i].value, Evidence(stored.references[k]));
      }
    }
  }

  lemma RecordToolKeepsTrace(sv: Server, incident: nat, db: Records, c: Commit)
    requires Rules(sv) && incident <= MAX_ID && Traced(sv, db.steps) && c.RecordTool? && Legal(sv, incident, db, c)
    ensures var step := ToolStep(sv, db.steps, c.request, c.result);
            && Restored(db.steps + [step])
               == Restored(db.steps) + [Entry(step.number, RestoredResult(sv.text, c.result))]
            && SameEvidence(c.result, RestoredResult(sv.text, c.result))
            && Traced(sv, db.steps + [step])
  {
    hide Rules, ExecuteTool, SameEvidence, ExplainsAll, ReadableResult, RestoredResult, ReadableReferences, Sanitize;
    hide SameContext, Traceable, ResultJson, ParseResult, Eligible, Repeats;
    var step, q := ToolStep(sv, db.steps, c.request, c.result), c.result;
    var stored, before := RestoredResult(sv.text, q), Restored(db.steps);
    ExecutedResult(sv, incident, c.previous, SucceededCount(db.steps), c.request, c.reply);
    RulesKeepPlain(sv);
    ResultReadBack(sv.text, q);
    RestoredEvidence(sv, q);
    ExplainedWhenStored(sv, q, stored, c.previous, before);
    Grow(sv, db.steps, step);
    var after := Restored(db.steps + [step]);
    assert after == before + [Entry(step.number, stored)];
    forall n | 0 <= n < |after| ensures ExplainsAll(after[n].value, after[..n]) {
      if n < |before| {
        assert after[..n] == before[..n];
      } else {
        assert after[..n] == before;
      }
    }
  }

  lemma RulesKeepPlain(sv: Server)
    requires Rules(sv)
    ensures KeepsPlain(sv.text)
  {
  }

  lemma TraceKept(sv: Server, incident: nat, db: Records, c: Commit)
    requires Rules(sv) && incident <= MAX_ID && Lockstep(db) && Traced(sv, db.steps) && Legal(sv, incident, db, c)
    ensures Traced(sv, Apply(sv, db, c).steps)
  {
    hide Rules, LegalTool, LegalFinal, ToolStep, Eligible, Repeats, Explainable, ReadablePrevious, Restored, Sanitize;
    if c.RecordTool? {
      RecordToolKeepsTrace(sv, incident, db, c);
    } else if c.RecordRejected? {
      GrowQuietly(sv, db.steps, RejectedStep(sv, db.steps, c.refused, c.outcome));
    } else if c.RecordFinal? {
      GrowQuietly(sv, db.steps, FinalStep(sv, db.steps, EvidenceReferences(c.evidence)));
    }
  }

  /** Every runbook reference leads back to a result that shows its chunk, however often it
      was copied by evidence summaries in between. */
  lemma {:induction false} LeadsToSource(results: Results, n: nat, r: Reference)
    requires Explainable(results) && n < |results| && r.kind.RunbookRef? && Carries(results[n].value, Evidence(r))
    ensures exists i :: 0 <= i <= n && Source(results[i].value, r)
  {
    hide ContextEntries, Explainable;
    var q := results[n].value;
    assert ExplainsAll(q, results[..n]) by { ExplainableAt(results, n); }
    var k :| 0 <= k < |q.references| && Evidence(q.references[k]) == Evidence(r);
    assert Explained(q, q.references[k], results[..n]);
    assert CitationKey(q.references[k]) == CitationKey(r);
    if !Source(q, r) {
      var i :| 0 <= i < n && Carries(results[..n][i].value, Evidence(q.references[k]));
      LeadsToSource(results, i, r);
    }
  }

  lemma ExplainableAt(results: Results, n: nat)
    requires Explainable(results) && n < |results|
    ensures ExplainsAll(results[n].value, results[..n])
  {
  }
}
