/** Statements about whole histories of one execution: what never changes again, how often
    it can fail, and what interruptions leave out. */
module AgentHistories {
  import opened Dict
  import opened Json
  import opened Sanitization
  import opened AgentModels
  import opened AgentTools
  import opened AgentRecords
  import opened AgentRuns
  import opened AgentGrounding

  // ---- Absorbing statuses

  /** What a later state owes an earlier one. */
  ghost predicate Later(a: Records, b: Records) {
    && (a.execution.Some? ==> b.execution.Some?)
    && (a.execution.Some? && Terminal(a.execution.value.status) ==>
          && b.steps == a.steps && b.resolution == a.resolution
          && b.execution.value == a.execution.value.(status := b.execution.value.status)
          && (b.execution.value.status == a.execution.value.status
              || (a.execution.value.status.AwaitingReview? && Reviewed(b.execution.value.status))))
  }

  lemma LaterStep(sv: Server, incident: nat, db: Records, c: Commit)
    requires Lockstep(db) && Legal(sv, incident, db, c) && !c.RecordLateFailure?
    ensures Later(db, Apply(sv, db, c))
  {
    hide LegalTool, LegalFinal, ToolStep, RejectedStep, FinalStep, Eligible, Repeats;
  }

  /** Under review before, and since then failed late. */
  ghost predicate Reopened(a: Records, b: Records) {
    b.execution.Some? && (|b.steps| > |a.steps| || !Reviewed(b.execution.value.status))
  }

  lemma ReopenedStep(sv: Server, incident: nat, a: Records, db: Records, c: Commit)
    requires Reopened(a, db) && |db.steps| >= |a.steps| && Legal(sv, incident, db, c)
    ensures Reopened(a, Apply(sv, db, c)) && |Apply(sv, db, c).steps| >= |a.steps|
  {
    hide LegalTool, LegalFinal, ToolStep, RejectedStep, FinalStep, Eligible, Repeats;
  }

  lemma LateReopens(sv: Server, a: Records, db: Records)
    requires Later(a, db) && a.execution.Some? && Reviewed(a.execution.value.status)
    ensures Reopened(a, Apply(sv, db, RecordLateFailure)) && |Apply(sv, db, RecordLateFailure).steps| == |a.steps|
  {
  }

  /** A late failure since the first `k` commits. */
  ghost predicate LateSince(run: seq<Commit>, k: nat)
    requires k <= |run|
  {
    RecordLateFailure in run[k..]
  }

  lemma LateSinceSnoc(run: seq<Commit>, k: nat)
    requires k < |run|
    ensures LateSince(run, k) <==> LateSince(run[..|run| - 1], k) || run[|run| - 1].RecordLateFailure?
  {
    assert run[k..] == run[..|run| - 1][k..] + [run[|run| - 1]];
  }

  lemma {:induction false} ReopenedByLate(sv: Server, incident: nat, run: seq<Commit>, k: nat)
    requires LegalRun(sv, incident, run) && k <= |run| && LateSince(run, k)
    requires State(sv, run[..k]).execution.Some? && Reviewed(State(sv, run[..k]).execution.value.status)
    ensures Reopened(State(sv, run[..k]), State(sv, run)) && |State(sv, run).steps| >= |State(sv, run[..k]).steps|
  {
    hide Legal, Apply, Core, Later, Reopened;
    if k < |run| {
      var init, c := run[..|run| - 1], run[|run| - 1];
      assert init[..k] == run[..k];
      LateSinceSnoc(run, k);
      if LateSince(init, k) {
        ReopenedByLate(sv, incident, init, k);
        ReopenedStep(sv, incident, State(sv, run[..k]), State(sv, init), c);
      } else {
        FinalUntilLate(sv, incident, init, k);
        LateReopens(sv, State(sv, run[..k]), State(sv, init));
      }
    }
  }

  lemma {:induction false} FinalUntilLate(sv: Server, incident: nat, run: seq<Commit>, k: nat)
    requires LegalRun(sv, incident, run) && k <= |run|
    requires var e := State(sv, run[..k]).execution; e.Some? && Reviewed(e.value.status) ==> !LateSince(run, k)
    ensures Later(State(sv, run[..k]), State(sv, run))
  {
    hide Legal, Apply, Core, LateSince;
    if k == |run| {
      assert run[..k] == run;
    } else {
      var init, c := run[..|run| - 1], run[|run| - 1];
      assert init[..k] == run[..k];
      LateSinceSnoc(run, k);
      FinalUntilLate(sv, incident, init, k);
      RunsAreCore(sv, incident, init);
      CoreIsLockstep(sv, State(sv, init));
      if c.RecordLateFailure? {
        LateFromReviewed(sv, incident, State(sv, init));
      } else {
        LaterStep(sv, incident, State(sv, init), c);
      }
    }
  }

  lemma LateFromReviewed(sv: Server, incident: nat, db: Records)
    requires Legal(sv, incident, db, RecordLateFailure)
    ensures db.execution.Some? && Reviewed(db.execution.value.status)
    ensures Apply(sv, db, RecordLateFailure).execution.Some?
  {
  }

  lemma ReopenedIsNotLater(a: Records, b: Records)
    requires Reopened(a, b) && a.execution.Some? && Reviewed(a.execution.value.status)
    ensures !Later(a, b)
  {
  }

  /** FAILED never changes, AWAITING_REVIEW changes only to APPROVED or REJECTED, those two
      never change, and from the first of them on every row but the comments is frozen: always
      for FAILED, and for the other three exactly until a failure is recorded late. */
  lemma TerminalIsFinal(sv: Server, incident: nat, run: seq<Commit>, k: nat)
    requires LegalRun(sv, incident, run) && k <= |run|
    ensures var e := State(sv, run[..k]).execution;
            Later(State(sv, run[..k]), State(sv, run))
            <==> (e.Some? && Reviewed(e.value.status) ==> !LateSince(run, k))
  {
    hide State, LegalRun, LateSince, Later, Reopened;
    var e := State(sv, run[..k]).execution;
    if e.Some? && Reviewed(e.value.status) && LateSince(run, k) {
      ReopenedByLate(sv, incident, run, k);
      ReopenedIsNotLater(State(sv, run[..k]), State(sv, run));
    } else {
      FinalUntilLate(sv, incident, run, k);
    }
  }

  lemma CoreIsLockstep(sv: Server, db: Records)
    requires Core(sv, db)
    ensures Lockstep(db)
  {
    hide Lockstep, Audited, WithinRepeats;
  }

  /** Recording a failure does not look at the status it overwrites: it keeps what was final
      only if it fails a failed execution once more. */
  lemma LateFailure(sv: Server, db: Records, retryable: bool)
    requires Core(sv, db) && db.execution.Some?
    ensures var e := db.execution.value;
            Later(db, Apply(sv, db, RecordFailure(retryable)))
            <==> !Terminal(e.status) || (e.status.Failed? && !retryable && LastRetry(sv, e))
  {
    hide Audited, WithinRepeats;
  }

  // ---- Failures

  /** Failures recorded as not retryable: validation failures and exceeded budgets. */
  function Failures(run: seq<Commit>): nat {
    if run == [] then 0
    else
      var last := run[|run| - 1];
      Failures(run[..|run| - 1]) + if last.RecordFailure? && !last.retryable then 1 else 0
  }

  ghost predicate FailuresBounded(sv: Server, db: Records, failures: nat) {
    match db.execution
    case None => failures == 0
    case Some(e) =>
      && failures <= sv.limits.modelRetries
      && (!e.status.Failed? ==> failures < sv.limits.modelRetries)
      && (Active(e.status) || Reviewed(e.status) ==> failures <= e.retryCount)
      && (e.status.Retryable? ==> failures <= e.retryCount + 1)
  }

  lemma FailuresStep(sv: Server, incident: nat, db: Records, c: Commit, failures: nat)
    requires ValidLimits(sv.limits) && Lockstep(db) && Legal(sv, incident, db, c) && FailuresBounded(sv, db, failures)
    ensures FailuresBounded(sv, Apply(sv, db, c), failures + if c.RecordFailure? && !c.retryable then 1 else 0)
  {
    hide LegalTool, LegalFinal, ToolStep, RejectedStep, FinalStep, Eligible, Repeats;
  }

  lemma {:induction false} FailuresOfRun(sv: Server, incident: nat, run: seq<Commit>)
    requires ValidLimits(sv.limits) && LegalRun(sv, incident, run)
    ensures FailuresBounded(sv, State(sv, run), Failures(run))
  {
    hide Legal, Apply, Core, FailuresBounded;
    if run == [] {
      NothingFailed(sv);
    } else {
      var init := run[..|run| - 1];
      FailuresOfRun(sv, incident, init);
      RunsAreCore(sv, incident, init);
      CoreIsLockstep(sv, State(sv, init));
      FailuresStep(sv, incident, State(sv, init), run[|run| - 1], Failures(init));
    }
  }

  lemma NothingFailed(sv: Server)
    ensures FailuresBounded(sv, NO_RECORDS, 0)
  {
  }

  /** At most `model_retries` attempts end in a failure of this kind; when that many have,
      the last one was terminal. */
  lemma FailuresAreBounded(sv: Server, incident: nat, run: seq<Commit>)
    requires ValidLimits(sv.limits) && LegalRun(sv, incident, run)
    ensures Failures(run) <= sv.limits.modelRetries
    ensures Failures(run) == sv.limits.modelRetries ==> State(sv, run).execution.value.status.Failed?
  {
    hide State, LegalRun;
    FailuresOfRun(sv, incident, run);
  }

  /** An exceeded budget ends the execution, however many attempts came before. */
  lemma BudgetFailureIsTerminal(sv: Server, db: Records)
    requires Lockstep(db) && InProgress(db)
    ensures var failed := Apply(sv, Apply(sv, db, RaiseRetryCount), RecordFailure(false));
            && failed.execution.value.status.Failed? && failed.resolution.value.status.Abandoned?
            && failed.steps == db.steps
  {
  }

  // ---- Step budget

  function RejectedCount(steps: seq<Step>): nat {
    if steps == [] then 0
    else
      var last := steps[|steps| - 1];
      RejectedCount(steps[..|steps| - 1])
      + if last.outcome.RepeatedToolCall? || last.outcome.ToolRequestRejected? then 1 else 0
  }

  function FinalCount(steps: seq<Step>): nat {
    if steps == [] then 0
    else FinalCount(steps[..|steps| - 1]) + if steps[|steps| - 1].outcome.FinalCompleted? then 1 else 0
  }

  /** Every row is a succeeded call, a rejected one or a final row. */
  lemma {:induction false} StepsAreCounted(steps: seq<Step>)
    ensures |steps| == SucceededCount(steps) + RejectedCount(steps) + FinalCount(steps)
  {
    if steps != [] {
      StepsAreCounted(steps[..|steps| - 1]);
    }
  }

  function LateFailures(run: seq<Commit>): nat {
    if run == [] then 0
    else LateFailures(run[..|run| - 1]) + if run[|run| - 1].RecordLateFailure? then 1 else 0
  }

  function UnderReview(db: Records): nat {
    if db.execution.Some? && Reviewed(db.execution.value.status) then 1 else 0
  }

  lemma FinalCountGrows(steps: seq<Step>, step: Step)
    ensures FinalCount(steps + [step]) == FinalCount(steps) + if step.outcome.FinalCompleted? then 1 else 0
  {
    assert (steps + [step])[..|steps|] == steps;
  }

  lemma FinalCountStep(sv: Server, incident: nat, db: Records, c: Commit)
    requires Lockstep(db) && Legal(sv, incident, db, c)
    ensures FinalCount(Apply(sv, db, c).steps) + UnderReview(db)
         == FinalCount(db.steps) + UnderReview(Apply(sv, db, c)) + if c.RecordLateFailure? then 1 else 0
  {
    hide LegalTool, LegalFinal, Eligible, Repeats, Sanitize, ResultJson, EvidenceReferences, RetrievedContext;
    hide FinalCount;
    var steps := Apply(sv, db, c).steps;
    if steps != db.steps {
      FinalCountGrows(db.steps, steps[|steps| - 1]);
    }
  }

  /** There is one final row for every late failure, and one more while under review. */
  lemma {:induction false} FinalRowsAreCounted(sv: Server, incident: nat, run: seq<Commit>)
    requires LegalRun(sv, incident, run)
    ensures FinalCount(State(sv, run).steps) == LateFailures(run) + UnderReview(State(sv, run))
  {
    hide Legal, Apply, Core, FinalCount, UnderReview;
    if run == [] {
      NothingCounted();
    } else {
      var init := run[..|run| - 1];
      FinalRowsAreCounted(sv, incident, init);
      RunsAreCore(sv, incident, init);
      CoreIsLockstep(sv, State(sv, init));
      FinalCountStep(sv, incident, State(sv, init), run[|run| - 1]);
    }
  }

  lemma NothingCounted()
    ensures FinalCount([]) == 0 && UnderReview(NO_RECORDS) == 0
  {
  }

  /** The step budget can run out only after enough rejected rows. */
  lemma StepBudgetNeedsRejections(sv: Server, incident: nat, run: seq<Commit>)
    requires LegalRun(sv, incident, run)
    requires InProgress(State(sv, run)) && |State(sv, run).steps| >= sv.limits.maxSteps
    ensures RejectedCount(State(sv, run).steps) + LateFailures(run) >= sv.limits.maxSteps - sv.limits.maxToolCalls
  {
    hide State, LegalRun, WithinRepeats, Lockstep, RejectedCount, FinalCount, SucceededCount, SucceededTools, Ordered;
    hide Numbered, WellShaped;
    RunsAreCore(sv, incident, run);
    FinalRowsAreCounted(sv, incident, run);
    StepsAreCounted(State(sv, run).steps);
  }

  /** The guard that ends an execution whose calls ran out before the mandatory evidence
      was gathered can fire only under a call budget of one. */
  lemma CallBudgetGuard(sv: Server, incident: nat, run: seq<Commit>)
    requires LegalRun(sv, incident, run)
    requires State(sv, run).execution.Some?
    requires State(sv, run).execution.value.toolCallCount >= sv.limits.maxToolCalls >= 2
    ensures MissingEvidence(State(sv, run).steps) == []
  {
    var db := State(sv, run);
    RunsAreCore(sv, incident, run);
    hide State, LegalRun, Lockstep, SucceededTools, WithinRepeats;
    var tools := SucceededTools(db.steps);
    assert tools[0] in tools && tools[1] in tools;
  }

  // ---- Calls

  /** The allowlist, the size limit, the tool's schema and the incident scope all accept this call. */
  predicate AcceptedCall(sv: Server, incident: nat, tool: string, arguments: Fields) {
    && tool in TOOL_NAMES && sv.argumentsFit(arguments)
    && match sv.validate(tool, arguments)
       case None => false
       case Some(args) => args.IncidentArgs? ==> args.incidentId == incident
  }

  ghost predicate AcceptedRow(sv: Server, incident: nat, step: Step) {
    Succeeds(step) ==>
      exists arguments ::
        step.arguments == Sanitize(sv.text, Obj(arguments), 0) && AcceptedCall(sv, incident, step.tool.value, arguments)
  }

  ghost predicate AcceptedRows(sv: Server, incident: nat, steps: seq<Step>) {
    forall i :: 0 <= i < |steps| ==> AcceptedRow(sv, incident, steps[i])
  }

  lemma RecordedIsAccepted(sv: Server, incident: nat, steps: seq<Step>, previous: Results, calls: nat,
                           request: ToolRequest, reply: Reply, result: ToolResult)
    requires ExecuteTool(sv, incident, previous, calls, request, reply) == Succeeded(result)
    ensures AcceptedRow(sv, incident, ToolStep(sv, steps, request, result))
  {
    hide Sanitize, Produce, ValidOutput, ResultJson, ExecuteTool;
    CallsStayInBounds(sv, incident, previous, calls, request, reply);
    var step := ToolStep(sv, steps, request, result);
    assert step.arguments == Sanitize(sv.text, Obj(request.arguments), 0);
    assert AcceptedCall(sv, incident, request.toolName, request.arguments);
  }

  /** Every call that ever succeeded, in any attempt, was one the allowlist, the schema and the
      incident's scope accept. */
  lemma {:induction false} RunsStayInScope(sv: Server, incident: nat, run: seq<Commit>)
    requires LegalRun(sv, incident, run)
    ensures AcceptedRows(sv, incident, State(sv, run).steps)
  {
    hide AcceptedRow, LegalFinal, Eligible, Repeats, Matches, GoodReply, ExecuteTool, Sanitize, ResultJson, Restored;
    hide EvidenceReferences, RetrievedContext;
    if run != [] {
      var init, c := run[..|run| - 1], run[|run| - 1];
      RunsStayInScope(sv, incident, init);
      var db := State(sv, init);
      if c.RecordTool? {
        RecordedIsAccepted(sv, incident, db.steps, c.previous, SucceededCount(db.steps), c.request, c.reply, c.result);
      } else if c.RecordRejected? {
        NothingSucceeds(sv, incident, RejectedStep(sv, db.steps, c.refused, c.outcome));
      } else if c.RecordFinal? {
        NothingSucceeds(sv, incident, FinalStep(sv, db.steps, EvidenceReferences(c.evidence)));
      }
    }
  }

  lemma NothingSucceeds(sv: Server, incident: nat, step: Step)
    requires !Succeeds(step)
    ensures AcceptedRow(sv, incident, step)
  {
  }

  // ---- Interruptions

  /** Nothing is claimed yet, or not since a late failure; reviews may have followed it. */
  predicate NeedsClaim(run: seq<Commit>) {
    run == [] || run[|run| - 1].RecordLateFailure? || (run[|run| - 1].Review? && NeedsClaim(run[..|run| - 1]))
  }

  /** The history with its interruptions removed: no recorded failure but the late ones, and
      one claim at the beginning and after each of those. */
  function Uninterrupted(run: seq<Commit>): seq<Commit> {
    if run == [] then []
    else
      var kept, last := Uninterrupted(run[..|run| - 1]), run[|run| - 1];
      if last.RaiseRetryCount? || last.RecordFailure? || (last.Claim? && !NeedsClaim(kept)) then kept else kept + [last]
  }

  ghost predicate Straight(run: seq<Commit>) {
    forall i :: 0 <= i < |run| ==>
      && !run[i].RaiseRetryCount? && !run[i].RecordFailure?
      && (i == 0 ==> run[i].Claim?) && (run[i].Claim? ==> NeedsClaim(run[..i]))
  }

  lemma StraightSnoc(run: seq<Commit>, c: Commit)
    requires Straight(run) && !c.RaiseRetryCount? && !c.RecordFailure?
    requires (run == [] ==> c.Claim?) && (c.Claim? ==> NeedsClaim(run))
    ensures Straight(run + [c])
  {
    hide NeedsClaim;
    var longer := run + [c];
    forall i | 0 <= i < |longer|
      ensures !longer[i].RaiseRetryCount? && !longer[i].RecordFailure?
      ensures (i == 0 ==> longer[i].Claim?) && (longer[i].Claim? ==> NeedsClaim(longer[..i]))
    {
      assert longer[..i] == if i < |run| then run[..i] else run;
    }
  }

  /** Everything but the retry bookkeeping is the same. */
  ghost predicate SameWork(a: Records, b: Records) {
    && a.steps == b.steps && a.feedback == b.feedback
    && (a.execution.None? <==> b.execution.None?) && (a.resolution.None? <==> b.resolution.None?)
    && (a.execution.Some? ==>
          var x, y := a.execution.value, b.execution.value;
          && x.stepCount == y.stepCount && x.toolCallCount == y.toolCallCount
          && x.modelCallCount == y.modelCallCount && x.createdAt == y.createdAt
          && (x.status.WaitingForTool? ==> y.status.WaitingForTool?)
          && if Reviewed(x.status) then y.status == x.status
             else Active(y.status) || (x.status.Retryable? && y.status.Retryable?))
    && (a.resolution.Some? ==>
          && a.resolution.value.final == b.resolution.value.final
          && a.resolution.value.context == b.resolution.value.context)
  }

  /** An attempt has claimed the execution and no failure was recorded since. */
  predicate Attempting(db: Records) { db.execution.Some? && !db.execution.value.status.Retryable? }

  lemma SameWorkStep(sv: Server, incident: nat, a: Records, b: Records, c: Commit)
    requires Lockstep(a) && SameWork(a, b) && Legal(sv, incident, a, c)
    ensures c.RaiseRetryCount? || c.RecordFailure? || (c.Claim? && Attempting(b)) ==> SameWork(Apply(sv, a, c), b)
    ensures !c.RaiseRetryCount? && !c.RecordFailure? && !(c.Claim? && Attempting(b)) ==>
      SameWork(Apply(sv, a, c), Apply(sv, b, c))
  {
    hide LegalTool, LegalFinal, ToolStep, RejectedStep, FinalStep, Eligible, Repeats, RetrievedContext;
  }

  lemma SameGuards(sv: Server, incident: nat, a: Records, b: Records, c: Commit)
    requires Lockstep(a) && SameWork(a, b) && Legal(sv, incident, a, c) && Stable(sv, a.steps)
    ensures !c.RaiseRetryCount? && !c.RecordFailure? && !(c.Claim? && Attempting(b)) ==> Legal(sv, incident, b, c)
  {
    hide LegalTool, LegalFinal, Eligible, Repeats, Stable;
    if c.RecordTool? {
      SameRepeats(sv, a.steps, a.found, b.found, c.request);
      SameGuardTool(sv, incident, a, b, c);
    } else if c.RecordRejected? {
      SameRepeats(sv, a.steps, a.found, b.found, c.refused);
    } else if c.RecordFinal? {
      SameGuardFinal(sv, a, b, c);
    }
  }

  lemma SameRepeats(sv: Server, steps: seq<Step>, m: nat, n: nat, request: ToolRequest)
    requires Stable(sv, steps)
    ensures Repeats(sv, steps, m, request) == Repeats(sv, steps, n, request)
  {
    hide StableRow, SignatureCount, StableCount, Signature, SucceededTools;
    var s := Signature(sv, request.toolName, Obj(request.arguments));
    StableCounts(sv, steps, m, s);
    StableCounts(sv, steps, n, s);
  }

  lemma SameGuardTool(sv: Server, incident: nat, a: Records, b: Records, c: Commit)
    requires a.steps == b.steps && c.RecordTool?
    requires Repeats(sv, a.steps, a.found, c.request) == Repeats(sv, b.steps, b.found, c.request)
    ensures LegalTool(sv, incident, b, c) == LegalTool(sv, incident, a, c)
  {
    hide Eligible, Repeats, Matches, GoodReply, ExecuteTool, Restored;
  }

  lemma SameGuardFinal(sv: Server, a: Records, b: Records, c: Commit)
    requires a.steps == b.steps && c.RecordFinal?
    ensures LegalFinal(sv, b, c) == LegalFinal(sv, a, c)
  {
    hide ValidateFinal, Restored, EvidenceReferences, Allowed, Matches, MissingEvidence, ValidAnswer;
  }

  /** In a straight history only a late failure leaves the execution to be claimed. */
  lemma ClaimsFollow(sv: Server, incident: nat, run: seq<Commit>, db: Records, c: Commit)
    requires Attempting(db) <==> !NeedsClaim(run)
    requires !c.RaiseRetryCount? && !c.RecordFailure? && (db.execution.None? ==> c.Claim?)
    requires (c.Claim? ==> !Attempting(db)) && (c.RecordLateFailure? ==> db.execution.Some?)
    requires db.execution.Some? && db.execution.value.status.Retryable? ==> c.Claim? || c == Review(Comment)
    ensures Attempting(Apply(sv, db, c)) <==> !NeedsClaim(run + [c])
  {
    hide ToolStep, RejectedStep, FinalStep, EvidenceReferences, RetrievedContext;
    assert (run + [c])[..|run|] == run;
  }

  /** A history interrupted anywhere, any number of times, does the work of a history that
      was never interrupted: leaving the interruptions out gives the same rows, the same
      resolution, the same reviews and the same counters. That history is legal when the
      stored arguments are stable; otherwise an attempt may have counted a call it loaded
      under another signature than the attempt that made it. */
  lemma {:induction false} InterruptionsAreInvisible(sv: Server, incident: nat, run: seq<Commit>)
    requires LegalRun(sv, incident, run)
    ensures Straight(Uninterrupted(run)) && SameWork(State(sv, run), State(sv, Uninterrupted(run)))
    ensures Attempting(State(sv, Uninterrupted(run))) <==> !NeedsClaim(Uninterrupted(run))
    ensures Stable(sv, State(sv, run).steps) ==> LegalRun(sv, incident, Uninterrupted(run))
    ensures run == [] <==> Uninterrupted(run) == []
    ensures run != [] ==> State(sv, run).execution.Some?
  {
    hide Legal, Apply, Core, SameWork, Lockstep, Stable, NeedsClaim, Straight, Attempting;
    SameNothing();
    if run != [] {
      var init, c := run[..|run| - 1], run[|run| - 1];
      var kept, a := Uninterrupted(init), State(sv, init);
      var b := State(sv, kept);
      InterruptionsAreInvisible(sv, incident, init);
      RunsAreCore(sv, incident, init);
      CoreIsLockstep(sv, a);
      SameExecution(a, b);
      SameWorkStep(sv, incident, a, b, c);
      FirstIsClaim(sv, incident, a, c);
      StableEarlier(sv, a, c);
      if Stable(sv, a.steps) {
        SameGuards(sv, incident, a, b, c);
      }
      if Uninterrupted(run) == kept + [c] {
        assert (kept + [c])[..|kept|] == kept;
        if c.RaiseRetryCount? || c.RecordFailure? || (c.Claim? && !NeedsClaim(kept)) {
          assert |kept + [c]| == |kept| + 1;
        } else {
          KeptCommit(sv, incident, a, b, c);
          StraightSnoc(kept, c);
          ClaimsFollow(sv, incident, kept, b, c);
        }
      }
    }
  }

  lemma KeptCommit(sv: Server, incident: nat, a: Records, b: Records, c: Commit)
    requires Lockstep(a) && SameWork(a, b) && Legal(sv, incident, a, c)
    ensures (b.execution.None? ==> c.Claim?) && (c.RecordLateFailure? ==> b.execution.Some?)
    ensures b.execution.Some? && b.execution.value.status.Retryable? && !c.RaiseRetryCount? && !c.RecordFailure? ==>
      c.Claim? || c == Review(Comment)
  {
    hide LegalTool, LegalFinal, Eligible, Repeats;
  }

  /** Rows are only ever appended. */
  lemma StableEarlier(sv: Server, db: Records, c: Commit)
    ensures Stable(sv, Apply(sv, db, c).steps) ==> Stable(sv, db.steps)
  {
    hide Stable, ToolStep, RejectedStep, FinalStep, EvidenceReferences, RetrievedContext;
    var steps := Apply(sv, db, c).steps;
    if steps != db.steps {
      var step := steps[|steps| - 1];
      assert steps == db.steps + [step];
      StableBefore(sv, db.steps, step);
    }
  }

  lemma SameNothing()
    ensures SameWork(NO_RECORDS, NO_RECORDS) && Straight([]) && NeedsClaim([]) && !Attempting(NO_RECORDS)
  {
  }

  lemma SameExecution(a: Records, b: Records)
    requires SameWork(a, b)
    ensures a.execution.None? <==> b.execution.None?
  {
  }

  lemma FirstIsClaim(sv: Server, incident: nat, db: Records, c: Commit)
    requires Legal(sv, incident, db, c)
    ensures db.execution.None? ==> c.Claim?
    ensures Apply(sv, db, c).execution.Some?
  {
    hide LegalTool, LegalFinal, ToolStep, RejectedStep, FinalStep, Eligible, Repeats;
  }
}
