/** The controlled agent: claim, plan, call tools, repair, finish or fail
    (app/agent/workflow.py). Planner, resolver, tools, clock and database failures are
    arbitrary. */
module AgentWorkflow {
  import opened Dict
  import opened Json
  import opened AgentModels
  import opened AgentTools
  import opened AgentRecords
  import opened AgentRuns
  import opened AgentGrounding
  import opened AgentHistories
  import opened AgentAnswers
  import opened AgentDialogue
  import opened AgentResume
  import opened Planner
  import Sanitization

  lemma OneMoreCommit(sv: Server, incident: nat, start: Records, commits: seq<Commit>, c: Commit)
    requires LegalFrom(sv, incident, start, commits) && Legal(sv, incident, After(sv, start, commits), c)
    ensures LegalFrom(sv, incident, start, commits + [c])
    ensures After(sv, start, commits + [c]) == Apply(sv, After(sv, start, commits), c)
  {
    hide Legal, Apply;
    assert (commits + [c])[..|commits|] == commits;
  }

  /** A crash between two commits leaves a legal history. */
  lemma {:induction false} CutShort(sv: Server, incident: nat, start: Records, commits: seq<Commit>, k: nat)
    requires LegalFrom(sv, incident, start, commits) && k <= |commits|
    ensures LegalFrom(sv, incident, start, commits[..k])
  {
    hide Legal, After;
    if k == |commits| {
      assert commits[..k] == commits;
    } else {
      CutShort(sv, incident, start, commits[..|commits| - 1], k);
      assert commits[..|commits| - 1][..k] == commits[..k];
    }
  }

  /** The commits of an attempt continue the history that led to the rows it found. */
  lemma {:induction false} HistoriesContinue(sv: Server, incident: nat, run: seq<Commit>, commits: seq<Commit>)
    requires LegalRun(sv, incident, run) && LegalFrom(sv, incident, State(sv, run), commits)
    ensures LegalRun(sv, incident, run + commits) && State(sv, run + commits) == After(sv, State(sv, run), commits)
  {
    hide Legal, Apply;
    if commits == [] {
      assert run + commits == run;
    } else {
      var init := commits[..|commits| - 1];
      HistoriesContinue(sv, incident, run, init);
      assert run + commits == run + init + [commits[|commits| - 1]];
      OneMoreCommit(sv, incident, NO_RECORDS, run + init, commits[|commits| - 1]);
    }
  }

  lemma ReachedStatus(sv: Server, incident: nat, start: Records, commits: seq<Commit>)
    requires Rules(sv) && incident <= MAX_ID && Sound(sv, start) && LegalFrom(sv, incident, start, commits)
    ensures var db := After(sv, start, commits);
            && (db.execution.Some? <==> db.resolution.Some?)
            && (db.execution.Some? ==>
                  var s := db.execution.value.status; !s.Pending? && !s.Completed? && !s.Cancelled?)
  {
    hide Rules, LegalFrom, After, Audited, WithinRepeats, Traced, Grounded;
    SoundAfter(sv, incident, start, commits);
  }

  /** The rows of one incident, as an attempt or a review found them and as the commits
      since then left them. */
  class AgentStore {
    var execution: Option<Execution>
    var resolution: Option<Resolution>
    var steps: seq<Step>
    var feedback: seq<Feedback>
    var found: nat
    ghost const start: Records
    ghost var history: seq<Commit>

    constructor (rows: Records)
      ensures Rows() == rows == start && history == []
    {
      execution, resolution, steps, feedback := rows.execution, rows.resolution, rows.steps, rows.feedback;
      found := rows.found;
      start := rows;
      history := [];
    }

    ghost function Rows(): Records
      reads this
    {
      Records(execution, resolution, steps, feedback, found)
    }

    ghost predicate Valid(sv: Server, incident: nat)
      reads this
    {
      Sound(sv, start) && LegalFrom(sv, incident, start, history) && Rows() == After(sv, start, history)
    }

    /** Nothing was committed. */
    twostate predicate Kept()
      reads this
    {
      history == old(history) && Rows() == old(Rows())
    }

    /** The rows after `c` are the rows a legal history reaches with `c`. */
    twostate predicate Did(sv: Server, incident: nat, c: Commit)
      reads this
    {
      Valid(sv, incident) && history == old(history) + [c] && Rows() == Apply(sv, old(Rows()), c)
    }
  }

  /** The three handlers a loop can end in, or success. */
  datatype Signal = Done | Transient | Invalid | Budget

  datatype Check = Pass | Exceeded | Unreadable
  datatype Planned = Chosen(decision: Decision) | Malformed(structured: bool) | NoPlan
  datatype Choice = Halt(why: Signal) | Repair(schemaError: bool) | Act(request: Option<ToolRequest>)
  /** The loop's variables. */
  datatype Memory = Memory(steps: seq<Step>, previous: Results, toolCalls: nat, counts: map<string, nat>)

  datatype Turn = Recorded(memory: Memory) | Rejected(memory: Memory, repeated: bool) | Stop(signal: Signal)
  datatype Progress = Go(memory: Memory, repairs: nat) | End(signal: Signal)
  datatype Generated = Final(raw: FinalResponse, final: FinalResponse) | NeverValid | NoAnswer

  /** A failure that was `NotRecorded` may have been recorded all the same: the commit only raised. */
  datatype FailureRecord = TerminalFailure | RetryableFailure | NotRecorded

  /** `Answered` is a normal return; `RetryLater` and `Crashed` are exceptions the worker handles. */
  datatype Outcome = OutcomeCompleted | OutcomeFailed | RetryLater | Crashed

  class ControlledAgentWorkflow {
    const sv: Server
    const incident: nat
    const store: AgentStore
    var clock: int
    ghost var calls: nat
    ghost var dbFailed: bool
    ghost var outage: bool
    // What the planner, the resolver and the tools answered.
    ghost var exchanges: seq<Exchange>
    ghost const countedBefore: nat

    constructor (sv: Server, incident: nat, store: AgentStore, clock: int)
      ensures this.sv == sv && this.incident == incident && this.store == store && this.clock == clock
      ensures calls == 0 && !dbFailed && !outage && exchanges == [] && countedBefore == CallsCounted()
    {
      this.sv, this.incident, this.store, this.clock := sv, incident, store, clock;
      calls, dbFailed, outage, exchanges := 0, false, false, [];
      countedBefore := if store.execution.Some? then store.execution.value.modelCallCount else 0;
    }

    ghost predicate Configured()
    {
      Rules(sv) && ValidLimits(sv.limits) && incident <= MAX_ID
    }

    /** The rows continue a legal history, and the execution row has counted every model call
        unless a commit failed. */
    ghost predicate Valid()
      reads this, store
    {
      Configured() && store.Valid(sv, incident) && (!dbFailed ==> CallsCounted() == countedBefore + calls)
    }

    /** Nothing can fail except the database. A transaction that is reported failed may have
        taken effect. */
    method Commits() returns (ok: bool, applied: bool)
      modifies this`dbFailed
      ensures dbFailed == (old(dbFailed) || !ok) && (ok ==> applied)
    {
      ok, applied := *, *;
      applied := applied || ok;
      dbFailed := dbFailed || !ok;
    }

    method Read() returns (ok: bool)
      modifies this`dbFailed
      ensures dbFailed == (old(dbFailed) || !ok)
    {
      ok := *;
      dbFailed := dbFailed || !ok;
    }

    method ReadClock() returns (now: int)
      modifies this`clock
      ensures now == clock >= old(clock)
    {
      now := *;
      if now < clock {
        now := clock;
      }
      clock := now;
    }

    /** Model calls the execution row has counted. */
    ghost function CallsCounted(): nat
      reads store
    {
      if store.execution.Some? then store.execution.value.modelCallCount else 0
    }

    // ---- Commits

    method SetStatus(status: AgentStatus) returns (ok: bool)
      requires Valid() && InProgress(store.Rows())
      requires status.Running? || (status.WaitingForTool? && Ready(sv, store.Rows()))
      modifies store, this`dbFailed
      ensures Valid() && dbFailed == (old(dbFailed) || !ok)
      ensures var c := if status.Running? then ResumePlanning else AwaitTool;
              store.Did(sv, incident, c) || (!ok && store.Kept())
      ensures InProgress(store.Rows()) && store.steps == old(store.steps) && store.found == old(store.found)
      ensures old(store.history) <= store.history
    {
      hide Rules, LegalFrom, After, Sound;
      ghost var c := if status.Running? then ResumePlanning else AwaitTool;
      var applied;
      ok, applied := Commits();
      if applied {
        OneMoreCommit(sv, incident, store.start, store.history, c);
        store.execution := Some(store.execution.value.(status := status));
        store.history := store.history + [c];
      }
    }

    /** One call of the provider, answered or not, and its entry in the execution row. */
    method CountModelCall() returns (ok: bool)
      requires Valid() && Ready(sv, store.Rows())
      modifies store, this`dbFailed, this`calls
      ensures Valid() && dbFailed == (old(dbFailed) || !ok) && calls == old(calls) + 1
      ensures store.Did(sv, incident, AgentRecords.CountModelCall) || (!ok && store.Kept())
      ensures Ready(sv, store.Rows()) && store.steps == old(store.steps) && store.found == old(store.found)
      ensures store.execution.value.createdAt == old(store.execution.value.createdAt)
      ensures old(store.history) <= store.history && |store.history| <= |old(store.history)| + 1
    {
      hide Rules, LegalFrom, After, Sound;
      calls := calls + 1;
      var applied;
      ok, applied := Commits();
      if applied {
        OneMoreCommit(sv, incident, store.start, store.history, AgentRecords.CountModelCall);
        var e := store.execution.value;
        store.execution := Some(e.(modelCallCount := e.modelCallCount + 1));
        store.history := store.history + [AgentRecords.CountModelCall];
      }
    }

    method PersistToolStep(request: ToolRequest, result: ToolResult, ghost previous: Results, ghost reply: Reply)
      returns (ok: bool, record: Step)
      requires Valid() && Legal(sv, incident, store.Rows(), RecordTool(request, result, previous, reply))
      modifies store, this`dbFailed
      ensures Valid() && dbFailed == (old(dbFailed) || !ok)
      ensures store.Did(sv, incident, RecordTool(request, result, previous, reply)) || (!ok && store.Kept())
      ensures store.steps == old(store.steps) + [record] || (!ok && store.steps == old(store.steps))
      ensures record == ToolStep(sv, old(store.steps), request, result)
    {
      hide Rules, LegalFrom, After, Sound, LegalTool, Sanitization.Sanitize, ResultJson;
      ghost var c := RecordTool(request, result, previous, reply);
      record := Step(|store.steps| + 1, false, Some(request.toolName),
                     Sanitization.Sanitize(sv.text, Obj(request.arguments), 0),
                     Sanitization.Sanitize(sv.text, ResultJson(result), 0), result.references, ToolSucceeded);
      var applied;
      ok, applied := Commits();
      if applied {
        OneMoreCommit(sv, incident, store.start, store.history, c);
        var e := store.execution.value;
        store.steps := store.steps + [record];
        store.execution :=
          Some(e.(status := Running, stepCount := record.number, toolCallCount := e.toolCallCount + 1));
        store.history := store.history + [c];
      }
    }

    method PersistRejectedStep(request: ToolRequest, outcome: StepOutcome) returns (ok: bool, record: Step)
      requires Valid() && Legal(sv, incident, store.Rows(), RecordRejected(request, outcome))
      modifies store, this`dbFailed
      ensures Valid() && dbFailed == (old(dbFailed) || !ok)
      ensures store.Did(sv, incident, RecordRejected(request, outcome)) || (!ok && store.Kept())
      ensures store.steps == old(store.steps) + [record] || (!ok && store.steps == old(store.steps))
      ensures record == RejectedStep(sv, old(store.steps), request, outcome)
    {
      hide Rules, LegalFrom, After, Sound, Sanitization.Sanitize, Repeats, Eligible;
      ghost var c := RecordRejected(request, outcome);
      record := Step(|store.steps| + 1, false, Some(request.toolName),
                     Sanitization.Sanitize(sv.text, Obj(request.arguments), 0), Null, [], outcome);
      var applied;
      ok, applied := Commits();
      if applied {
        OneMoreCommit(sv, incident, store.start, store.history, c);
        store.steps := store.steps + [record];
        store.execution := Some(store.execution.value.(status := Running, stepCount := record.number));
        store.history := store.history + [c];
      }
    }

    /** The references and chunks stored with the resolution are collected from memory. */
    method PersistFinal(ghost raw: FinalResponse, final: FinalResponse, results: Results) returns (ok: bool)
      requires Valid() && store.resolution.Some?
      requires Legal(sv, incident, store.Rows(), RecordFinal(raw, final, results))
      modifies store, this`dbFailed
      ensures Valid() && dbFailed == (old(dbFailed) || !ok)
      ensures store.Did(sv, incident, RecordFinal(raw, final, results)) || (!ok && store.Kept())
      ensures store.steps == old(store.steps) + [FinalRow(old(store.steps), results)]
              || (!ok && store.steps == old(store.steps))
    {
      hide Rules, LegalFrom, After, Sound, LegalFinal, EvidenceReferences, RetrievedContext;
      ghost var c := RecordFinal(raw, final, results);
      var references := CollectReferences(results);
      var context := CollectContext(results);
      var applied;
      ok, applied := Commits();
      if applied {
        OneMoreCommit(sv, incident, store.start, store.history, c);
        var number := |store.steps| + 1;
        store.steps := store.steps + [Step(number, true, None, Null, Null, references, FinalCompleted)];
        assert store.steps[|store.steps| - 1] == FinalRow(store.steps[..|store.steps| - 1], results);
        store.resolution := Some(store.resolution.value.(status := Resolved, final := Some(final), context := context));
        store.execution := Some(store.execution.value.(status := AwaitingReview, stepCount := number));
        store.history := store.history + [c];
      }
    }

    /** The failure handlers overwrite whatever status they find: after a final commit that took
        effect and was reported failed, that of an execution under review. */
    method RecordFailure(retryable: bool) returns (r: FailureRecord)
      requires Valid() && (InProgress(store.Rows()) || (retryable && UnderReview(store.Rows()) == 1))
      modifies store, this`dbFailed
      ensures Valid() && dbFailed == (old(dbFailed) || r.NotRecorded?)
      ensures var late := !InProgress(old(store.Rows()));
              || store.Did(sv, incident, if late then RecordLateFailure else AgentRecords.RecordFailure(retryable))
              || (r.NotRecorded? && store.Kept())
      ensures old(store.history) <= store.history && store.execution.Some? && store.steps == old(store.steps)
      ensures !r.NotRecorded? ==>
        (r.TerminalFailure? <==> !retryable && LastRetry(sv, old(store.execution.value)))
        && store.execution.value.status == (if r.TerminalFailure? then AgentStatus.Failed else Retryable)
    {
      hide Rules, LegalFrom, After, Sound;
      ghost var c := if InProgress(store.Rows()) then AgentRecords.RecordFailure(retryable) else RecordLateFailure;
      var ok, applied := Commits();
      var e := store.execution.value;
      var terminal := !retryable && e.retryCount + 1 >= sv.limits.modelRetries;
      if applied {
        OneMoreCommit(sv, incident, store.start, store.history, c);
        store.execution := Some(e.(status := if terminal then AgentStatus.Failed else Retryable));
        if store.resolution.Some? {
          store.resolution := Some(store.resolution.value.(status := if terminal then Abandoned else Deferred));
        }
        store.history := store.history + [c];
      }
      r := if !ok then NotRecorded else if terminal then TerminalFailure else RetryableFailure;
    }

    /** Raise the retry count to its limit, then fail: always terminal. */
    method RecordTerminalFailure() returns (ok: bool)
      requires Valid() && InProgress(store.Rows())
      modifies store, this`dbFailed
      ensures Valid() && old(store.history) <= store.history && (ok || dbFailed) && (old(dbFailed) ==> dbFailed)
      ensures ok ==> store.execution.Some? && store.execution.value.status.Failed?
      ensures store.steps == old(store.steps)
    {
      hide Rules, LegalFrom, After, Sound;
      ok := RaiseRetries();
      if ok {
        var r := RecordFailure(false);
        ok := !r.NotRecorded?;
      }
    }

    method RaiseRetries() returns (ok: bool)
      requires Valid() && InProgress(store.Rows())
      modifies store, this`dbFailed
      ensures Valid() && dbFailed == (old(dbFailed) || !ok) && InProgress(store.Rows())
      ensures store.Did(sv, incident, RaiseRetryCount) || (!ok && store.Kept())
      ensures ok ==>
        var before, after := old(store.execution.value.retryCount), store.execution.value.retryCount;
        && before <= after && sv.limits.modelRetries - 1 <= after
        && (after == before || after == sv.limits.modelRetries - 1)
    {
      hide Rules, LegalFrom, After, Sound;
      var applied;
      ok, applied := Commits();
      if applied {
        OneMoreCommit(sv, incident, store.start, store.history, RaiseRetryCount);
        var e := store.execution.value;
        store.execution := Some(e.(retryCount := if e.retryCount >= sv.limits.modelRetries - 1 then e.retryCount
                                                 else sv.limits.modelRetries - 1));
        store.history := store.history + [RaiseRetryCount];
      }
    }

    // ---- One delivery

    /** Load or create the execution; not `ok` is an exception. */
    method Claim() returns (ok: bool, terminal: Option<Outcome>)
      requires Valid()
      modifies store, this`clock, this`dbFailed
      ensures Valid() && clock >= old(clock) && (old(dbFailed) ==> dbFailed) && (ok || dbFailed)
      ensures !ok ==> store.Kept() || store.Did(sv, incident, AgentRecords.Claim(clock))
      ensures old(store.execution).Some? && Terminal(old(store.execution).value.status) ==> store.Kept()
      ensures ok && terminal.Some? ==>
        && store.execution.Some?
        && terminal == Some(if Reviewed(store.execution.value.status) then OutcomeCompleted else OutcomeFailed)
      ensures ok && terminal.Some? ==> Reviewed(store.execution.value.status) || store.execution.value.status.Failed?
      ensures ok && terminal.None? ==> store.Did(sv, incident, AgentRecords.Claim(clock)) && InProgress(store.Rows())
      ensures ok && terminal.None? ==> store.found == |store.steps|
      ensures old(store.history) <= store.history && store.steps == old(store.steps)
      ensures ok && old(store.execution).Some? ==>
        store.execution.Some? && store.execution.value.createdAt == old(store.execution).value.createdAt
      ensures ok ==> (terminal.Some? <==> old(store.execution).Some? && Terminal(old(store.execution).value.status))
      ensures ok && terminal.None? ==> Admitted(old(store.Rows()), store.Rows(), clock)
    {
      ReachedStatus(sv, incident, store.start, store.history);
      hide Rules, LegalFrom, After, Sound, ValidLimits, Apply;
      terminal := None;
      var now := ReadClock();
      var applied;
      ok, applied := Commits();
      if store.execution.Some? {
        var status := store.execution.value.status;
        if status.AwaitingReview? || status.Approved? || status.Rejected? || status.Completed? {
          terminal := Some(OutcomeCompleted);
          return;
        }
        if status.Failed? || status.Cancelled? {
          terminal := Some(OutcomeFailed);
          return;
        }
      }
      if applied {
        Admit(now);
      }
    }

    /** Create the rows of a first attempt, or count one more. */
    method Admit(now: int)
      requires Valid() && Legal(sv, incident, store.Rows(), AgentRecords.Claim(now))
      modifies store
      ensures Valid() && store.Did(sv, incident, AgentRecords.Claim(now)) && InProgress(store.Rows())
      ensures store.steps == old(store.steps) && store.found == |store.steps| && old(store.history) <= store.history
      ensures old(store.execution).Some? ==>
        store.execution.value.createdAt == old(store.execution).value.createdAt
      ensures Admitted(old(store.Rows()), store.Rows(), now)
    {
      hide Rules, LegalFrom, After, Sound, ValidLimits;
      OneMoreCommit(sv, incident, store.start, store.history, AgentRecords.Claim(now));
      if store.execution.None? {
        store.execution := Some(Execution(Running, 0, 0, 0, 0, now));
      } else {
        var e := store.execution.value;
        store.execution := Some(e.(status := Running, retryCount := e.retryCount + 1));
      }
      if store.resolution.None? {
        store.resolution := Some(Resolution(Processing, 1, None, []));
      } else {
        var r := store.resolution.value;
        store.resolution := Some(r.(status := Processing, attemptCount := r.attemptCount + 1));
      }
      store.found := |store.steps|;
      store.history := store.history + [AgentRecords.Claim(now)];
    }

    /** Steps, time in this attempt, required evidence under the call budget, total time. */
    method CheckTimeAndStepBudgets(stepCount: nat) returns (check: Check, elapsed: int)
      requires Valid() && InProgress(store.Rows()) && stepCount == |store.steps|
      modifies this`clock, this`dbFailed
      ensures clock >= old(clock) && (old(dbFailed) ==> dbFailed) && (check.Unreadable? ==> dbFailed)
      ensures check.Pass? ==> Ready(sv, store.Rows()) && elapsed < sv.limits.maxDuration
      ensures check.Pass? ==> clock < store.execution.value.createdAt + sv.limits.maxDuration
      ensures check.Exceeded? ==>
        || stepCount >= sv.limits.maxSteps || elapsed >= sv.limits.maxDuration
        || (store.execution.value.toolCallCount >= sv.limits.maxToolCalls && MissingEvidence(store.steps) != [])
        || clock >= store.execution.value.createdAt + sv.limits.maxDuration
      ensures check.Pass? ==>
        store.execution.value.toolCallCount < sv.limits.maxToolCalls || MissingEvidence(store.steps) == []
    {
      elapsed := *;
      if stepCount >= sv.limits.maxSteps {
        check := Exceeded;
        return;
      }
      if elapsed >= sv.limits.maxDuration {
        check := Exceeded;
        return;
      }
      var ok := Read();
      if !ok {
        check := Unreadable;
        return;
      }
      if store.execution.value.toolCallCount >= sv.limits.maxToolCalls && MissingEvidence(store.steps) != [] {
        check := Exceeded;
        return;
      }
      var now := ReadClock();
      if now - store.execution.value.createdAt >= sv.limits.maxDuration {
        check := Exceeded;
        return;
      }
      check := Pass;
    }

    /** One call of the planner. */
    method AskPlanner(required: Option<string>) returns (reply: PlannerReply, counted: bool)
      requires Valid() && Ready(sv, store.Rows())
      modifies store, this`dbFailed, this`calls, this`exchanges
      ensures Valid() && dbFailed == (old(dbFailed) || !counted) && calls == old(calls) + 1
      ensures store.Did(sv, incident, AgentRecords.CountModelCall) || (!counted && store.Kept())
      ensures exchanges == old(exchanges) + [Planning(required, reply, counted)]
      ensures Ready(sv, store.Rows()) && store.steps == old(store.steps) && store.found == old(store.found)
      ensures store.execution.value.createdAt == old(store.execution.value.createdAt)
      ensures old(store.history) <= store.history && |store.history| <= |old(store.history)| + 1
    {
      hide Rules, LegalFrom, After, Sound, AgentRecords.Apply, AgentStore.Did;
      reply := *;
      counted := CountModelCall();
      exchanges := exchanges + [Planning(required, reply, counted)];
    }

    /** One call of the resolver. */
    method AskResolver() returns (reply: ResolverReply, counted: bool)
      requires Valid() && Ready(sv, store.Rows())
      modifies store, this`dbFailed, this`calls, this`exchanges
      ensures Valid() && dbFailed == (old(dbFailed) || !counted) && calls == old(calls) + 1
      ensures store.Did(sv, incident, AgentRecords.CountModelCall) || (!counted && store.Kept())
      ensures exchanges == old(exchanges) + [Resolving(reply, counted)]
      ensures Ready(sv, store.Rows()) && store.steps == old(store.steps) && old(store.history) <= store.history
    {
      hide Rules, LegalFrom, After, Sound, AgentRecords.Apply, AgentStore.Did;
      reply := *;
      counted := CountModelCall();
      exchanges := exchanges + [Resolving(reply, counted)];
    }

    /** Ask the planner with the schema the rows call for. Its reply is read as the decision it
        spells, or is malformed, or there is none. */
    method Plan(required: Option<string>) returns (p: Planned)
      requires Valid() && Ready(sv, store.Rows())
      requires required.Some? ==> required.value in [GET_INCIDENT, RETRIEVE_RUNBOOKS]
      modifies store, this`dbFailed, this`calls, this`outage, this`exchanges
      ensures Valid() && calls == old(calls) + 1 && (old(dbFailed) ==> dbFailed) && (old(outage) ==> outage)
      ensures p.NoPlan? ==> dbFailed || outage
      ensures old(store.history) <= store.history && |store.history| <= |old(store.history)| + 1
      ensures Ready(sv, store.Rows()) && store.steps == old(store.steps) && store.found == old(store.found)
      ensures store.execution.value.createdAt == old(store.execution.value.createdAt)
      ensures p.Chosen? && required.Some? ==>
        p.decision.request.Some? && p.decision.request.value.toolName == required.value
      ensures |exchanges| == |old(exchanges)| + 1 && exchanges[..|old(exchanges)|] == old(exchanges)
      ensures exchanges[|old(exchanges)|].Planning? && exchanges[|old(exchanges)|].required == required
      ensures Understood(sv, exchanges[|old(exchanges)|], p)
    {
      hide Rules, LegalFrom, After, Sound, ParseDecision, Dump, ParseRequired, AgentRecords.Apply, AgentStore.Did;
      var reply, counted := AskPlanner(required);
      if !counted || reply.Offline? {
        outage := outage || reply.Offline?;
        return NoPlan;
      }
      if !reply.Payload? {
        return Malformed(false);
      }
      if required.Some? {
        var typed := ParseRequired(sv, reply.value, required.value);
        if typed.None? {
          return Malformed(true);
        }
        RulesKeepPlain(sv);
        RequiredConverts(sv, reply.value, required.value);
        p := Chosen(ParseDecision(sv.text, Dump(typed.value)).value);
        RequiredIsTheTool(sv, reply.value, required.value);
      } else {
        var decision := ParseDecision(sv.text, reply.value);
        p := if decision.None? then Malformed(true) else Chosen(decision.value);
      }
    }

    /** Ask the resolver until an answer passes its schema and the guards, or the repairs run out. */
    method GenerateFinal(steps: seq<Step>, previous: Results) returns (g: Generated)
      requires Valid() && Ready(sv, store.Rows()) && steps == store.steps && MissingEvidence(steps) == []
      requires Matches(sv, previous, Restored(steps))
      modifies store, this`dbFailed, this`calls, this`outage, this`exchanges
      ensures Valid() && (old(dbFailed) ==> dbFailed) && (old(outage) ==> outage) && old(store.history) <= store.history
      ensures g.NoAnswer? ==> dbFailed || outage
      ensures old(calls) <= calls <= old(calls) + sv.limits.repairAttempts + 1
      ensures Ready(sv, store.Rows()) && store.steps == old(store.steps)
      ensures g.NeverValid? ==> calls == old(calls) + sv.limits.repairAttempts + 1
      ensures |exchanges| - |old(exchanges)| == calls - old(calls)
      ensures g.Final? ==> Legal(sv, incident, store.Rows(), RecordFinal(g.raw, g.final, previous))
      // The answer is the resolver's first that can be used, and stays in the resolver's words.
      ensures var tools, allowed := Distinct(SucceededTools(steps)), Allowed(EvidenceReferences(previous));
        && old(exchanges) <= exchanges && (forall k :: |old(exchanges)| <= k < |exchanges| ==> exchanges[k].Resolving?)
        && (g.Final? ==>
              && |exchanges| > |old(exchanges)| && Usable(sv, exchanges[|exchanges| - 1], tools, allowed)
              && exchanges[|exchanges| - 1].resolved == Answer(g.raw)
              && NoneUsable(sv, exchanges[|old(exchanges)|..|exchanges| - 1], tools, allowed)
              && Rendered(g.raw, g.final, tools, allowed != {}))
        && (!g.Final? ==> NoneUsable(sv, exchanges[|old(exchanges)|..], tools, allowed))
    {
      hide Rules, LegalFrom, After, Sound, ValidateFinal, Restored, Matches, SucceededTools, EvidenceReferences;
      hide RetrievedContext, Rendered, AgentRecords.Apply, AgentStore.Did, Distinct;
      hide MissingEvidence, Allowed, ValidLimits, ValidAnswer;
      var references := CollectReferences(previous);
      var tools := Distinct(SucceededTools(steps));
      var allowed := Allowed(references);
      for attempt := 0 to sv.limits.repairAttempts + 1
        invariant Valid() && (old(dbFailed) ==> dbFailed) && old(store.history) <= store.history
        invariant outage == old(outage)
        invariant calls == old(calls) + attempt
        invariant Ready(sv, store.Rows()) && store.steps == steps
        invariant |exchanges| == |old(exchanges)| + attempt
        invariant old(exchanges) <= exchanges && NoneUsable(sv, exchanges[|old(exchanges)|..], tools, allowed)
      {
        ghost var before := exchanges;
        var reply, counted := AskResolver();
        ghost var tail := before[|old(exchanges)|..];
        assert exchanges[|old(exchanges)|..] == tail + [Resolving(reply, counted)];
        assert exchanges[|old(exchanges)|..|exchanges| - 1] == tail;
        assert forall k :: |old(exchanges)| <= k < |before| ==> before[k] == tail[k - |old(exchanges)|];
        if !counted || reply.ResolverOffline? {
          outage := outage || reply.ResolverOffline?;
          return NoAnswer;
        }
        if reply.Answer? && ValidAnswer(reply.answer) {
          var validated := ValidateFinal(sv, reply.answer, tools, allowed);
          if validated.Some? {
            AcceptedIsRendered(sv, reply.answer, tools, allowed);
            return Final(reply.answer, validated.value);
          }
        }
      }
      g := NeverValid;
    }

    /** What a tool returned; values outside the tools' own shapes count as a broken tool. */
    method RunTool(request: ToolRequest) returns (reply: Reply)
      modifies this`exchanges
      ensures GoodReply(reply) && exchanges == old(exchanges) + [Executing(request, reply)]
    {
      reply := *;
      if !GoodReply(reply) {
        reply := Reply(Broken, 0.0);
      }
      exchanges := exchanges + [Executing(request, reply)];
    }

    /** What the attempt holds in memory agrees with the rows. */
    ghost predicate Recalls(m: Memory)
      reads this, store
    {
      m.steps == store.steps && Remembers(sv, m.steps, store.found, m.previous, m.toolCalls, m.counts)
    }

    /** One tool decision: refused as a repeat, refused by the executor, recorded, or the end
        of the attempt. */
    method UseTool(request: ToolRequest, memory: Memory) returns (t: Turn, told: Option<Reply>)
      requires Valid() && Ready(sv, store.Rows()) && Recalls(memory) && Eligible(memory.steps, request)
      modifies store, this`dbFailed, this`outage, this`exchanges
      ensures Valid() && (old(dbFailed) ==> dbFailed) && (old(outage) ==> outage) && old(store.history) <= store.history
      ensures exchanges == old(exchanges) + Told(request, told) && Wrote(sv, old(store.steps), store.steps, request)
      // A call the rows count as a repeat is never made; any other is refused, ends the attempt
      // or is recorded, as the executor says of what the tool answered.
      ensures told.Some? ==> !Repeats(sv, memory.steps, old(store.found), request)
      ensures told.Some? ==>
        TurnOf(sv, memory, request, t,
               ExecuteTool(sv, incident, memory.previous, memory.toolCalls, request, told.value), dbFailed)
      ensures told.None? ==>
        || (t == Stop(Transient) && dbFailed)
        || (t.Rejected? && t.repeated && Repeats(sv, memory.steps, old(store.found), request)
            && t.memory.steps == memory.steps + [RejectedStep(sv, memory.steps, request, RepeatedToolCall)])
      ensures InProgress(store.Rows()) && (t == Stop(Transient) ==> dbFailed || outage)
      ensures t.Stop? ==> !t.signal.Done? && !t.signal.Invalid?
      ensures !t.Stop? ==> Recalls(t.memory) && |t.memory.steps| == |memory.steps| + 1
      ensures t.Recorded? ==>
        && t.memory.toolCalls == memory.toolCalls + 1 && |t.memory.previous| == |memory.previous| + 1
        && t.memory.steps[|memory.steps|].tool == Some(request.toolName) && Succeeds(t.memory.steps[|memory.steps|])
      ensures t.Rejected? ==> t.memory == memory.(steps := t.memory.steps)
    {
      hide Rules, LegalFrom, After, Sound, Restored, Matches, SignatureCount, SucceededTools, SucceededCount;
      hide Sanitization.Sanitize;
      hide ResultJson, ExecuteTool, GoodReply, Eligible, ValidLimits, Signature, AllCopied;
      var signature := Signature(sv, request.toolName, Obj(request.arguments));
      var repeated := Tally(memory.counts, signature) >= sv.limits.maxRepeatedToolCalls
                      || (request.toolName == RETRIEVE_RUNBOOKS && RETRIEVE_RUNBOOKS in SucceededTools(memory.steps));
      assert repeated == Repeats(sv, memory.steps, store.found, request);
      hide Repeats;
      told := None;
      if repeated {
        t := Refuse(request, memory, true);
        return;
      }
      var waiting := SetStatus(WaitingForTool);
      if !waiting {
        return Stop(Transient), None;
      }
      var reply := RunTool(request);
      told := Some(reply);
      var outcome := ExecuteTool(sv, incident, memory.previous, memory.toolCalls, request, reply);
      match outcome
      case Unavailable =>
        outage := true;
        t := Stop(Transient);
      case OverBudget => t := Stop(Budget);
      case Refused => t := Refuse(request, memory, false);
      case Succeeded(result) => t := Record(request, result, memory, reply);
    }

    /** Store a result, and take it into memory. */
    method Record(request: ToolRequest, result: ToolResult, memory: Memory, ghost reply: Reply) returns (t: Turn)
      requires Valid() && Recalls(memory)
      requires Legal(sv, incident, store.Rows(), RecordTool(request, result, memory.previous, reply))
      modifies store, this`dbFailed
      ensures Valid() && (old(dbFailed) ==> dbFailed) && old(store.history) <= store.history && InProgress(store.Rows())
      ensures t.Recorded? || (t == Stop(Transient) && dbFailed)
      ensures Wrote(sv, old(store.steps), store.steps, request)
      ensures t.Recorded? ==>
        && t.memory.steps == memory.steps + [ToolStep(sv, memory.steps, request, result)]
        && t.memory.previous == memory.previous + [Entry(|memory.steps| + 1, result)]
      ensures t.Recorded? ==>
        && Recalls(t.memory) && t.memory.toolCalls == memory.toolCalls + 1
        && |t.memory.steps| == |memory.steps| + 1 && |t.memory.previous| == |memory.previous| + 1
        && t.memory.steps[|memory.steps|].tool == Some(request.toolName) && Succeeds(t.memory.steps[|memory.steps|])
    {
      hide Rules, LegalFrom, After, Sound, Remembers, LegalTool, Legal, AgentRecords.Apply, Signature, ToolStep;
      hide ResultJson, RowOf, SucceededCount, SucceededTools, Traced, Numbered, Ordered, ValidLimits;
      ghost var before, c := store.Rows(), RecordTool(request, result, memory.previous, reply);
      CallRecorded(sv, incident, before, c);
      CallRow(sv, before.steps, request, result);
      TracedRows(sv, incident, store.start, store.history);
      RemembersTool(sv, incident, before, c, memory.toolCalls, memory.counts);
      var ok, record := PersistToolStep(request, result, memory.previous, reply);
      if !ok {
        return Stop(Transient);
      }
      var signature := Signature(sv, request.toolName, Obj(request.arguments));
      t := Recorded(Memory(memory.steps + [record], memory.previous + [Entry(record.number, result)],
                           memory.toolCalls + 1, memory.counts[signature := Tally(memory.counts, signature) + 1]));
    }

    method Refuse(request: ToolRequest, memory: Memory, repeated: bool) returns (t: Turn)
      requires Valid() && Ready(sv, store.Rows()) && Recalls(memory) && Eligible(memory.steps, request)
      requires repeated == Repeats(sv, memory.steps, store.found, request)
      requires !repeated ==> Awaiting(store.Rows())
      modifies store, this`dbFailed
      ensures Valid() && (old(dbFailed) ==> dbFailed) && old(store.history) <= store.history && InProgress(store.Rows())
      ensures t.Rejected? || (t == Stop(Transient) && dbFailed)
      ensures Wrote(sv, old(store.steps), store.steps, request)
      ensures t.Rejected? ==>
        && t.repeated == repeated
        && t.memory.steps == memory.steps + [RejectedStep(sv, memory.steps, request,
                                                          if repeated then RepeatedToolCall else ToolRequestRejected)]
      ensures t.Rejected? ==>
        Recalls(t.memory) && |t.memory.steps| == |memory.steps| + 1 && t.memory == memory.(steps := t.memory.steps)
    {
      hide Rules, LegalFrom, After, Sound, Restored, Matches, Remembers, Sanitization.Sanitize, Eligible;
      hide Repeats, ValidLimits;
      var outcome := if repeated then RepeatedToolCall else ToolRequestRejected;
      var ok, record := PersistRejectedStep(request, outcome);
      if !ok {
        return Stop(Transient);
      }
      RemembersQuietly(sv, memory.steps, store.found, record, memory.previous, memory.toolCalls, memory.counts);
      t := Turn.Rejected(memory.(steps := memory.steps + [record]), repeated);
    }

    /** One turn with a tool: a recorded call resets the repairs, a rejected one uses one up. */
    method TakeTurn(request: ToolRequest, memory: Memory, repairs: nat) returns (next: Progress)
      requires Valid() && Ready(sv, store.Rows()) && Recalls(memory) && Eligible(memory.steps, request)
      requires repairs <= sv.limits.repairAttempts + 1
      modifies store, this`dbFailed, this`outage, this`exchanges
      ensures exchanges == old(exchanges)
              || (|exchanges| == |old(exchanges)| + 1 && exchanges[..|old(exchanges)|] == old(exchanges)
                  && exchanges[|old(exchanges)|].Executing?)
      ensures Wrote(sv, old(store.steps), store.steps, request)
      ensures next.Go? ==> next.repairs == if LastSucceeded(next.memory.steps) then 0 else repairs + 1
      ensures next.End? && next.signal.Invalid? ==> |store.steps| > |old(store.steps)| && !LastSucceeded(store.steps)
      ensures Valid() && (old(dbFailed) ==> dbFailed) && (old(outage) ==> outage) && old(store.history) <= store.history
      ensures InProgress(store.Rows()) && (next == End(Transient) ==> dbFailed || outage)
      ensures next.End? ==> !next.signal.Done? && (next.signal.Invalid? ==> repairs >= sv.limits.repairAttempts)
      ensures next.Go? ==>
        && Recalls(next.memory) && |next.memory.steps| == |memory.steps| + 1
        && (next.repairs == 0 || next.repairs == repairs + 1 <= sv.limits.repairAttempts)
    {
      hide Valid, Remembers, Eligible, ValidLimits, AgentStore.Did, Succeeds;
      hide Repeats, ExecuteTool, Sanitization.Sanitize, ResultJson;
      var turn, told := UseTool(request, memory);
      match turn
      case Stop(signal) => next := End(signal);
      case Recorded(known) => next := Go(known, 0);
      case Rejected(known, repeated) =>
        if repairs + 1 > sv.limits.repairAttempts {
          return End(Invalid);
        }
        if !repeated {
          var resumed := SetStatus(Running);
          if !resumed {
            return End(Transient);
          }
        }
        next := Go(known, repairs + 1);
    }

    /** A handler takes over: in progress, or after a final commit that took effect and was
        reported failed. */
    ghost predicate Unfinished(signal: Signal)
      reads this, store
    {
      InProgress(store.Rows()) || (signal.Transient? && dbFailed && UnderReview(store.Rows()) == 1)
    }

    /** Finish from the collected evidence. */
    method Finish(memory: Memory) returns (signal: Signal)
      requires Valid() && Ready(sv, store.Rows()) && Recalls(memory) && MissingEvidence(memory.steps) == []
      modifies store, this`dbFailed, this`calls, this`outage, this`exchanges
      ensures (old(outage) ==> outage) && (signal.Transient? ==> dbFailed || outage)
      ensures old(exchanges) <= exchanges && forall k :: |old(exchanges)| <= k < |exchanges| ==> exchanges[k].Resolving?
      ensures CallRows(old(store.steps), store.steps) == old(store.steps)
      ensures |exchanges| - |old(exchanges)| == calls - old(calls)
      ensures signal.Invalid? ==>
        NoneUsable(sv, exchanges[|old(exchanges)|..], Distinct(SucceededTools(memory.steps)),
                   Allowed(EvidenceReferences(memory.previous)))
      ensures Valid() && (old(dbFailed) ==> dbFailed) && old(store.history) <= store.history && !signal.Budget?
      ensures old(calls) <= calls <= old(calls) + sv.limits.repairAttempts + 1
      ensures if signal.Done? then store.execution.Some? && store.execution.value.status.AwaitingReview?
              else Unfinished(signal)
      ensures signal.Invalid? ==> calls == old(calls) + sv.limits.repairAttempts + 1
    {
      hide Rules, LegalFrom, After, Sound, Restored, Matches, SucceededTools, EvidenceReferences;
      hide RetrievedContext, MissingEvidence, Rendered, Usable, NoneUsable, Allowed, Distinct;
      hide ValidLimits, LegalFinal, Legal, AgentRecords.Apply, Remembers;
      RecallsMatch(memory);
      var generated := GenerateFinal(memory.steps, memory.previous);
      match generated
      case NeverValid => signal := Invalid;
      case NoAnswer => signal := Transient;
      case Final(raw, final) =>
        ReachedStatus(sv, incident, store.start, store.history);
        FinalApplied(sv, incident, store.Rows(), RecordFinal(raw, final, memory.previous));
        var ok := PersistFinal(raw, final, memory.previous);
        signal := if ok then Done else Transient;
    }

    lemma RecallsMatch(memory: Memory)
      requires Recalls(memory)
      ensures Matches(sv, memory.previous, Restored(memory.steps))
    {
      hide Matches, Restored, AllCopied, Tallies, SucceededCount;
    }

    /** The loop's variables, rebuilt from the rows the claim found. */
    method LoadState() returns (ok: bool, memory: Memory)
      requires Valid() && store.found == |store.steps|
      modifies this`dbFailed
      ensures Valid() && dbFailed == (old(dbFailed) || !ok)
      ensures ok ==> Recalls(memory) && memory.previous == Restored(memory.steps)
    {
      TracedRows(sv, incident, store.start, store.history);
      hide Rules, LegalFrom, After, Sound, Restored, Traced, SignatureCount, SucceededTools, SucceededCount;
      hide Numbered, Matches;
      hide Ordered, AllCopied;
      memory := Memory([], [], 0, map[]);
      ok := Read();
      if ok {
        var steps := store.steps;
        var previous := RestoreResults(sv, steps);
        var toolCalls := CountCalls(steps);
        var counts := CountSignatures(sv, steps);
        RestoredMatches(sv, steps);
        memory := Memory(steps, previous, toolCalls, counts);
      }
    }

    /** Check the budgets, then ask the planner. */
    method Choose(steps: seq<Step>) returns (choice: Choice)
      requires Valid() && InProgress(store.Rows()) && steps == store.steps
      modifies store, this
      ensures Valid() && (old(dbFailed) ==> dbFailed) && old(store.history) <= store.history
      ensures InProgress(store.Rows()) && store.steps == old(store.steps) && store.found == old(store.found)
      ensures old(calls) <= calls <= old(calls) + 1
      ensures choice.Halt? ==> choice.why.Budget? || (choice.why.Transient? && dbFailed) || calls > old(calls)
      ensures choice.Halt? ==> choice.why.Budget? || choice.why.Transient?
      ensures (old(outage) ==> outage) && (choice.Halt? && choice.why.Transient? ==> dbFailed || outage)
      ensures calls > old(calls) ==> |steps| < sv.limits.maxSteps
      ensures !choice.Halt? ==> Ready(sv, store.Rows()) && calls > old(calls)
      ensures choice.Act? && choice.request.Some? ==> Eligible(steps, choice.request.value)
      ensures choice.Act? && choice.request.None? ==> RequiredTool(steps).None?
      ensures calls > old(calls) ==>
        old(clock) < old(store.execution.value.createdAt) + sv.limits.maxDuration
      ensures if calls == old(calls) then exchanges == old(exchanges)
              else |exchanges| == |old(exchanges)| + 1 && exchanges[..|old(exchanges)|] == old(exchanges)
      ensures calls > old(calls) ==>
        var e := exchanges[|old(exchanges)|];
        && e.Planning? && e.required == RequiredTool(steps)
        && (choice.Act? ==> Parsed(sv, e).Some? && choice.request == Parsed(sv, e).value.request)
        && (!choice.Act? ==> Parsed(sv, e).None?)
        && (choice.Repair? ==> e.counted && !e.planned.Offline? && (choice.schemaError <==> e.planned.Payload?))
    {
      hide ParseDecision, ParseRequired;
      hide Rules, LegalFrom, After, Sound, Legal, Apply, AgentStore.Did, ValidLimits, SucceededTools;
      var check, elapsed := CheckTimeAndStepBudgets(|steps|);
      if !check.Pass? {
        return Halt(if check.Exceeded? then Budget else Transient);
      }
      var planned := Plan(RequiredTool(steps));
      match planned
      case NoPlan => choice := Halt(Transient);
      case Malformed(structured) => choice := Repair(structured);
      case Chosen(decision) => choice := Act(decision.request);
    }

    /** One iteration of the loop: a row, one more repair, or the end of the attempt. */
    method Advance(memory: Memory, repairs: nat, ghost before: seq<Step>, ghost seen: nat) returns (next: Progress)
      requires Valid() && InProgress(store.Rows()) && Recalls(memory) && repairs <= sv.limits.repairAttempts
      requires seen <= |exchanges| && Complete(sv, before, memory.steps, exchanges[seen..])
      modifies store, this
      ensures Valid() && (old(dbFailed) ==> dbFailed) && (old(outage) ==> outage) && old(store.history) <= store.history
      ensures old(exchanges) <= exchanges && old(calls) <= calls
      ensures calls > old(calls) ==>
        && |memory.steps| < sv.limits.maxSteps
        && old(clock) < old(store.execution.value.createdAt) + sv.limits.maxDuration
      ensures next.Go? ==>
        && InProgress(store.Rows()) && Recalls(next.memory) && calls == old(calls) + 1
        && next.repairs <= sv.limits.repairAttempts
        && (next == Go(memory, repairs + 1)
            || (|next.memory.steps| == |memory.steps| + 1
                && next.repairs == if LastSucceeded(next.memory.steps) then 0 else repairs + 1))
        && Complete(sv, before, next.memory.steps, exchanges[seen..])
      ensures next.End? ==>
        && (if next.signal.Done? then store.execution.Some? && store.execution.value.status.AwaitingReview?
            else Unfinished(next.signal))
        && calls <= old(calls) + sv.limits.repairAttempts + 2
        && (calls == old(calls) ==> next.signal.Budget? || dbFailed)
        && (next.signal.Transient? ==> dbFailed || outage)
        && (next.signal.Invalid? ==>
              || calls >= old(calls) + sv.limits.repairAttempts + 1
              || (repairs == sv.limits.repairAttempts && calls > old(calls)))
        && Followed(sv, before, CallRows(before, store.steps), exchanges[seen..])
        && EndsAs(sv, before, store.steps, exchanges[seen..], next.signal)
    {
      hide Valid, Remembers, Eligible, ValidLimits, RequiredTool, MissingEvidence, Matches, Restored, Followed;
      hide Parsed, Asked, LastPlanning, MayFinish, EndsAs, Requests, CallRows, SucceededTools, LastSucceeded;
      hide EvidenceReferences, Allowed, NoneUsable, Owing, Wrote;
      ghost var xs := exchanges[seen..];
      NothingMore(sv, before, memory.steps, xs);
      var choice := Choose(memory.steps);
      ghost var e := if exchanges == [] then Planning(None, Offline, false) else exchanges[|exchanges| - 1];
      if calls > old(calls) {
        assert exchanges[seen..] == xs + [e];
        OneMoreExchange(sv, before, memory.steps, xs, e);
        NothingMore(sv, before, memory.steps, xs + [e]);
      }
      if choice.Halt? {
        HaltedEnds(sv, before, memory.steps, exchanges[seen..], choice.why);
        return End(choice.why);
      }
      if choice.Act? && choice.request.Some? {
        AskedFor(sv, e, choice.request.value);
        next := Take(choice.request.value, memory, repairs, before, seen);
        return;
      }
      NothingAskedFor(sv, e);
      if choice.Repair? {
        if repairs < sv.limits.repairAttempts {
          return Go(memory, repairs + 1);
        }
        if RequiredTool(memory.steps).Some? || !choice.schemaError {
          UnreadableEnds(sv, before, memory.steps, xs, e);
          return End(Invalid);
        }
      }
      NothingRequired(memory.steps);
      if MissingEvidence(memory.steps) != [] {
        // A final answer without the mandatory evidence would be rejected here.
        assert false;
      }
      var signal := Finish(memory);
      FinishedEnds(sv, before, memory.steps, store.steps, xs, e, exchanges[seen..], signal);
      next := End(signal);
    }

    /** A turn with the tool the planner asked for. */
    method Take(request: ToolRequest, memory: Memory, repairs: nat, ghost before: seq<Step>, ghost seen: nat)
      returns (next: Progress)
      requires Valid() && Ready(sv, store.Rows()) && Recalls(memory) && Eligible(memory.steps, request)
      requires repairs <= sv.limits.repairAttempts && seen <= |exchanges|
      requires Owing(sv, before, memory.steps, exchanges[seen..], request)
      modifies store, this`dbFailed, this`outage, this`exchanges
      ensures Valid() && (old(dbFailed) ==> dbFailed) && (old(outage) ==> outage) && old(store.history) <= store.history
      ensures old(exchanges) <= exchanges && InProgress(store.Rows())
      ensures next.Go? ==>
        && Recalls(next.memory) && next.repairs <= sv.limits.repairAttempts && |next.memory.steps| == |memory.steps| + 1
        && next.repairs == (if LastSucceeded(next.memory.steps) then 0 else repairs + 1)
        && Complete(sv, before, next.memory.steps, exchanges[seen..])
      ensures next.End? ==>
        && !next.signal.Done? && (next.signal.Transient? ==> dbFailed || outage)
        && (next.signal.Invalid? ==> repairs == sv.limits.repairAttempts)
        && Followed(sv, before, CallRows(before, store.steps), exchanges[seen..])
        && EndsAs(sv, before, store.steps, exchanges[seen..], next.signal)
    {
      hide Valid, Remembers, Eligible, ValidLimits, Complete, Followed, LastPlanning, MayFinish, Requests, CallRows;
      hide LastSucceeded, Owing, Wrote;
      ghost var xs, rows := exchanges[seen..], store.steps;
      next := TakeTurn(request, memory, repairs);
      assert exchanges[seen..] == xs || exchanges[seen..] == xs + [exchanges[|exchanges| - 1]];
      TurnTaken(sv, before, rows, store.steps, xs, exchanges[seen..], request);
    }

    /** Plan, act and repair until the attempt ends. Every iteration writes a row or uses up
        a repair, so it ends; it makes at most one model call per row and repair. */
    method RunLoop() returns (signal: Signal)
      requires Valid() && InProgress(store.Rows()) && store.found == |store.steps|
      modifies store, this
      ensures Valid() && (old(dbFailed) ==> dbFailed) && old(store.history) <= store.history
      ensures if signal.Done? then store.execution.Some? && store.execution.value.status.AwaitingReview?
              else Unfinished(signal)
      ensures calls <= old(calls) + CallBudget(sv.limits.maxSteps - |old(store.steps)| + 1, sv.limits.repairAttempts)
      ensures old(store.execution.value.createdAt) + sv.limits.maxDuration <= old(clock) ==>
        calls == old(calls) && (signal.Budget? || dbFailed)
      // An attempt is deferred as transient only for an outage or a failed database.
      ensures (old(outage) ==> outage) && (signal.Transient? ==> dbFailed || outage)
      // A validation failure takes more rejected answers than there are repairs.
      ensures signal.Invalid? ==> calls >= old(calls) + sv.limits.repairAttempts + 1
      // The rows are the calls the planner asked for, in order, and the end is the one it led to.
      ensures old(exchanges) <= exchanges
      ensures Followed(sv, old(store.steps), CallRows(old(store.steps), store.steps), exchanges[|old(exchanges)|..])
      ensures EndsAs(sv, old(store.steps), store.steps, exchanges[|old(exchanges)|..], signal)
    {
      hide Valid, Remembers, CallBudget, ValidLimits, Matches, Restored, Complete, Followed, EndsAs, CallRows;
      var R := sv.limits.repairAttempts;
      ghost var k, before, seen := |store.steps|, store.steps, |exchanges|;
      ghost var expired := store.execution.value.createdAt + sv.limits.maxDuration <= clock;
      RowsWithinBudget();
      CallBudgets(0, sv.limits.maxSteps - k, R);
      NothingAsked(sv, before, exchanges[seen..]);
      NothingMore(sv, before, before, exchanges[seen..]);
      var loaded, memory := LoadState();
      if !loaded {
        return Transient;
      }
      var repairs := 0;
      while true
        invariant Valid() && (old(dbFailed) ==> dbFailed) && old(store.history) <= store.history
        invariant InProgress(store.Rows()) && Recalls(memory) && (old(outage) ==> outage)
        invariant k <= |memory.steps| <= sv.limits.maxSteps && repairs <= R
        invariant old(calls) + repairs <= calls <= old(calls) + CallBudget(|memory.steps| - k, R) + repairs
        invariant expired ==>
          calls == old(calls) && store.execution.value.createdAt + sv.limits.maxDuration <= clock
        invariant expired ==> store.execution.value.createdAt == old(store.execution.value.createdAt)
        invariant old(exchanges) <= exchanges && Complete(sv, before, memory.steps, exchanges[seen..])
        decreases sv.limits.maxSteps - |memory.steps|, R + 1 - repairs
      {
        CallBudgets(|memory.steps| - k, sv.limits.maxSteps - k, R);
        var next := Advance(memory, repairs, before, seen);
        if next.End? {
          return next.signal;
        }
        memory, repairs := next.memory, next.repairs;
      }
    }

    lemma RowsWithinBudget()
      requires Valid()
      ensures |store.steps| <= sv.limits.maxSteps
    {
      hide Rules, LegalFrom, After, Sound, ValidLimits;
      StepsWithinBudget(sv, incident, store.start, store.history);
    }

    /** The exception handlers around the loop. */
    method Conclude(signal: Signal) returns (outcome: Outcome)
      requires Valid()
      requires if signal.Done? then store.execution.Some? && store.execution.value.status.AwaitingReview?
               else Unfinished(signal)
      modifies store, this`dbFailed
      ensures Valid() && (old(dbFailed) ==> dbFailed) && old(store.history) <= store.history
      ensures Concluded(outcome) && store.steps == old(store.steps) && (outcome.OutcomeCompleted? <==> signal.Done?)
      ensures outcome.RetryLater? ==> store.execution.Some? && store.execution.value.status.Retryable?
      ensures signal.Budget? ==> outcome.OutcomeFailed? || dbFailed
      ensures signal.Transient? ==> outcome.RetryLater? || dbFailed
      ensures signal.Invalid? && !outcome.Crashed? ==>
        (outcome.OutcomeFailed? <==> LastRetry(sv, old(store.execution.value)))
    {
      hide Rules, LegalFrom, After, Sound, Legal, ValidLimits, Apply;
      match signal
      case Done => outcome := OutcomeCompleted;
      case Transient =>
        var r := RecordFailure(true);
        outcome := if r.NotRecorded? then Crashed else RetryLater;
      case Invalid =>
        var r := RecordFailure(false);
        outcome := if r.NotRecorded? then Crashed else if r.TerminalFailure? then OutcomeFailed else RetryLater;
      case Budget =>
        var ok := RecordTerminalFailure();
        outcome := if ok then OutcomeFailed else Crashed;
    }

    /** What each outcome says about the rows. */
    ghost predicate Concluded(outcome: Outcome)
      reads this, store
    {
      && (outcome.OutcomeCompleted? ==> store.execution.Some? && Reviewed(store.execution.value.status))
      && (outcome.OutcomeFailed? ==> store.execution.Some? && store.execution.value.status.Failed?)
      && (outcome.Crashed? ==> dbFailed)
    }

    /** The rows since these are the calls the planner asked for since, in order. */
    ghost predicate Obeyed(before: seq<Step>, told: seq<Exchange>)
      reads this, store
    {
      told <= exchanges && Followed(sv, before, CallRows(before, store.steps), exchanges[|told|..])
    }

    /** The planner's last reply asks for no call. */
    ghost predicate Finishing(told: seq<Exchange>)
      reads this
    {
      && told <= exchanges
      && var last := LastPlanning(exchanges[|told|..]);
         last.Some? && MayFinish(sv, last.value)
    }

    /** Still unfinished when its time is up. */
    predicate Overdue(execution: Option<Execution>, now: int) {
      execution.Some? && !Terminal(execution.value.status) && execution.value.createdAt + sv.limits.maxDuration <= now
    }

    /** One delivery of the event, from claim to outcome. */
    method Resolve(visible: bool) returns (outcome: Outcome)
      requires Valid()
      modifies store, this
      ensures Valid() && (old(dbFailed) ==> dbFailed) && old(store.history) <= store.history && Concluded(outcome)
      ensures visible && outcome.RetryLater? ==> store.execution.Some? && store.execution.value.status.Retryable?
      // Redelivery of a finished execution runs nothing.
      ensures old(store.execution).Some? && Terminal(old(store.execution).value.status) ==>
        store.Rows() == old(store.Rows()) && calls == old(calls)
      // Model calls of one attempt.
      ensures calls <= old(calls) + CallBudget(sv.limits.maxSteps - |old(store.steps)| + 1, sv.limits.repairAttempts)
      // An execution past its total duration ends, without asking the model, unless the database fails.
      ensures (visible && Overdue(old(store.execution), old(clock))) ==>
        calls == old(calls) && (outcome.OutcomeFailed? || dbFailed)
      // It writes a row for each call the planner asks for, in order, and finishes when it asks for none.
      ensures Obeyed(old(store.steps), old(exchanges))
      ensures outcome.OutcomeCompleted? && exchanges != old(exchanges) ==> Finishing(old(exchanges))
    {
      hide Rules, LegalFrom, After, Sound, Legal, ValidLimits, CallBudget, AgentStore.Did, Apply, Terminal, Reviewed;
      hide Followed, CallRows, MayFinish, LastPlanning;
      NothingAsked(sv, store.steps, exchanges[|exchanges|..]);
      NothingMore(sv, store.steps, store.steps, exchanges[|exchanges|..]);
      StepsWithinBudget(sv, incident, store.start, store.history);
      CallBudgets(0, sv.limits.maxSteps - |store.steps|, sv.limits.repairAttempts);
      if !visible {
        return RetryLater;
      }
      var claimed, terminal := Claim();
      if !claimed {
        return Crashed;
      }
      if terminal.Some? {
        return terminal.value;
      }
      outcome := Attempt();
    }

    /** Run the loop and handle how it ended. */
    method Attempt() returns (outcome: Outcome)
      requires Valid() && InProgress(store.Rows()) && store.found == |store.steps|
      modifies store, this
      ensures Valid() && (old(dbFailed) ==> dbFailed) && old(store.history) <= store.history && Concluded(outcome)
      ensures outcome.RetryLater? ==> store.execution.Some? && store.execution.value.status.Retryable?
      ensures calls <= old(calls) + CallBudget(sv.limits.maxSteps - |old(store.steps)| + 1, sv.limits.repairAttempts)
      ensures old(store.execution.value.createdAt) + sv.limits.maxDuration <= old(clock) ==>
        calls == old(calls) && (outcome.OutcomeFailed? || dbFailed)
      ensures Obeyed(old(store.steps), old(exchanges)) && (outcome.OutcomeCompleted? ==> Finishing(old(exchanges)))
    {
      hide Rules, LegalFrom, After, Sound, Legal, ValidLimits, CallBudget, AgentStore.Did, Apply;
      hide Followed, CallRows, MayFinish, LastPlanning;
      var signal := RunLoop();
      outcome := Conclude(signal);
    }
  }

  lemma CallRecorded(sv: Server, incident: nat, db: Records, c: Commit)
    requires c.RecordTool? && Legal(sv, incident, db, c)
    ensures var t := Apply(sv, db, c);
            && t.steps == db.steps + [ToolStep(sv, db.steps, c.request, c.result)] && t.found == db.found
            && InProgress(db) && InProgress(t)
  {
    hide ToolStep, LegalTool;
  }

  lemma CallRow(sv: Server, steps: seq<Step>, request: ToolRequest, result: ToolResult)
    ensures var row := ToolStep(sv, steps, request, result);
            && RowOf(sv, row, request) && row.tool == Some(request.toolName) && Succeeds(row)
            && row.number == |steps| + 1
            && Wrote(sv, steps, steps + [row], request)
  {
    hide Sanitization.Sanitize, ResultJson;
  }

  lemma FinalApplied(sv: Server, incident: nat, db: Records, c: Commit)
    requires c.RecordFinal? && Legal(sv, incident, db, c)
    ensures var t := Apply(sv, db, c);
            t.execution.Some? && t.execution.value.status.AwaitingReview? && UnderReview(t) == 1
  {
    hide LegalFinal, FinalStep, RetrievedContext, EvidenceReferences;
  }

  /** A first delivery starts from nothing; any other counts one more attempt on both rows and
      keeps what they hold. */
  ghost predicate Admitted(before: Records, after: Records, now: int) {
    && after.execution.Some? && after.resolution.Some?
    && after.execution.value.status.Running? && after.resolution.value.status.Processing?
    && match (before.execution, before.resolution)
       case (Some(e), Some(r)) =>
         && after.execution.value.retryCount == e.retryCount + 1 && after.execution.value.createdAt == e.createdAt
         && after.execution.value.stepCount == e.stepCount && after.execution.value.toolCallCount == e.toolCallCount
         && after.execution.value.modelCallCount == e.modelCallCount
         && after.resolution.value.attemptCount == r.attemptCount + 1
         && after.resolution.value.final == r.final && after.resolution.value.context == r.context
       case (None, None) =>
         && after.execution.value == Execution(Running, 0, 0, 0, 0, now)
         && after.resolution.value == Resolution(Processing, 1, None, [])
       case _ => true
  }

  /** What a planner's reply was understood as. */
  ghost predicate Understood(sv: Server, e: Exchange, p: Planned) {
    && (p.Chosen? ==> Parsed(sv, e) == Some(p.decision))
    && (!p.Chosen? ==> Parsed(sv, e).None?)
    && e.Planning? && (p.NoPlan? <==> !e.counted || e.planned.Offline?)
    && (p.Malformed? ==> (p.structured <==> e.planned.Payload?))
  }

  function Told(request: ToolRequest, told: Option<Reply>): seq<Exchange> {
    match told case Some(reply) => [Executing(request, reply)] case None => []
  }

  /** No row was added, or that of this call. */
  ghost predicate Wrote(sv: Server, before: seq<Step>, after: seq<Step>, request: ToolRequest) {
    after == before || (after != [] && after[..|after| - 1] == before && RowOf(sv, after[|after| - 1], request))
  }

  /** What the executor's verdict on a call means for the attempt, unless the database fails. */
  ghost predicate TurnOf(sv: Server, memory: Memory, request: ToolRequest, t: Turn, o: ToolOutcome, dbFailed: bool) {
    match o
    case Succeeded(result) =>
      || (t == Stop(Transient) && dbFailed)
      || (&& t.Recorded? && t.memory.steps == memory.steps + [ToolStep(sv, memory.steps, request, result)]
          && t.memory.previous == memory.previous + [Entry(|memory.steps| + 1, result)])
    case Refused =>
      || (t == Stop(Transient) && dbFailed)
      || (&& t.Rejected? && !t.repeated
          && t.memory.steps == memory.steps + [RejectedStep(sv, memory.steps, request, ToolRequestRejected)])
    case OverBudget => t == Stop(Budget)
    case Unavailable => t == Stop(Transient)
  }

  /** What an attempt's end says about the planner's last reply and the rows. */
  ghost predicate EndsAs(sv: Server, before: seq<Step>, rows: seq<Step>, xs: seq<Exchange>, signal: Signal) {
    var last := LastPlanning(xs);
    && (signal.Done? ==> last.Some? && MayFinish(sv, last.value))
    && (signal.Invalid? ==>
          || (|rows| > |before| && !LastSucceeded(rows))
          || (last.Some? && MayFinish(sv, last.value) && xs[|xs| - 1].Resolving?)
          || (last.Some? && Parsed(sv, last.value).None?
              && (last.value.planned.Unusable? || last.value.required.Some?)))
  }

  lemma NothingMore(sv: Server, before: seq<Step>, rows: seq<Step>, xs: seq<Exchange>)
    requires Followed(sv, before, rows, xs)
    ensures CallRows(before, rows) == rows
    ensures EndsAs(sv, before, rows, xs, Transient) && EndsAs(sv, before, rows, xs, Budget)
  {
    hide LastPlanning, MayFinish, Requests, LastSucceeded;
    NotFinal(sv, before, rows, xs);
  }

  lemma HaltedEnds(sv: Server, before: seq<Step>, rows: seq<Step>, xs: seq<Exchange>, why: Signal)
    requires why.Transient? || why.Budget?
    ensures EndsAs(sv, before, rows, xs, why)
  {
    hide LastPlanning, MayFinish, LastSucceeded;
  }

  lemma AskedFor(sv: Server, e: Exchange, request: ToolRequest)
    requires Parsed(sv, e).Some? && Parsed(sv, e).value.request == Some(request)
    ensures Asked(sv, e) == Some(request)
  {
    hide Parsed;
  }

  lemma NothingAskedFor(sv: Server, e: Exchange)
    requires Parsed(sv, e).Some? ==> Parsed(sv, e).value.request == None
    ensures Asked(sv, e).None?
    ensures Parsed(sv, e).Some? || (e.Planning? && e.counted && e.planned.Payload?) ==> MayFinish(sv, e)
  {
  }

  lemma UnreadableEnds(sv: Server, before: seq<Step>, rows: seq<Step>, xs: seq<Exchange>, e: Exchange)
    requires e.Planning? && Parsed(sv, e).None? && (e.planned.Unusable? || e.required.Some?)
    ensures EndsAs(sv, before, rows, xs + [e], Invalid)
  {
    hide Parsed, MayFinish, LastSucceeded;
    assert LastPlanning(xs + [e]) == Some(e);
  }

  lemma FinishedEnds(sv: Server, before: seq<Step>, rows: seq<Step>, after: seq<Step>, xs: seq<Exchange>, e: Exchange,
                     all: seq<Exchange>, signal: Signal)
    requires Complete(sv, before, rows, xs + [e]) && CallRows(rows, after) == rows && xs + [e] <= all
    requires forall k :: |xs| + 1 <= k < |all| ==> all[k].Resolving?
    requires e.Planning? && MayFinish(sv, e) && (signal.Invalid? ==> |all| > |xs| + 1)
    ensures Followed(sv, before, CallRows(before, after), all) && EndsAs(sv, before, after, all, signal)
  {
    hide MayFinish, RowOf, Parsed, Requests, LastSucceeded;
    var more := all[|xs| + 1..];
    assert all == xs + [e] + more;
    OnlyResolved(sv, before, rows, xs + [e], more);
    assert LastPlanning(xs + [e]) == Some(e);
    NotFinal(sv, before, rows, xs + [e]);
  }

  lemma NotFinal(sv: Server, before: seq<Step>, rows: seq<Step>, xs: seq<Exchange>)
    requires Followed(sv, before, rows, xs)
    ensures CallRows(before, rows) == rows
  {
    hide Requests;
    if |rows| > |before| {
      assert RowOf(sv, rows[|before| + (|rows| - |before| - 1)], Requests(sv, xs)[|rows| - |before| - 1]);
    }
  }

  lemma TurnTaken(sv: Server, before: seq<Step>, rows: seq<Step>, after: seq<Step>, xs: seq<Exchange>,
                  all: seq<Exchange>, request: ToolRequest)
    requires Owing(sv, before, rows, xs, request) && Wrote(sv, rows, after, request)
    requires all == xs || (all != [] && all == xs + [all[|all| - 1]] && all[|all| - 1].Executing?)
    ensures Followed(sv, before, CallRows(before, after), all)
    ensures after != rows ==> Complete(sv, before, after, all)
    ensures EndsAs(sv, before, after, all, Transient) && EndsAs(sv, before, after, all, Budget)
    ensures |after| > |rows| && !LastSucceeded(after) ==> EndsAs(sv, before, after, all, Invalid)
  {
    hide RowOf, LastPlanning, MayFinish, LastSucceeded, Requests;
    if all != xs {
      ToolAnswered(sv, before, rows, xs, request, all[|all| - 1]);
    }
    if after != rows {
      RowWritten(sv, before, rows, all, request, after[|after| - 1]);
      assert after == rows + [after[|after| - 1]];
    }
    NotFinal(sv, before, after, all);
  }

  predicate LastSucceeded(steps: seq<Step>) { steps != [] && steps[|steps| - 1].outcome.ToolSucceeded? }

  /** The final row of rows, with the references of the results, each once. */
  function FinalRow(steps: seq<Step>, results: Results): Step {
    Step(|steps| + 1, true, None, Null, Null, EvidenceReferences(results), FinalCompleted)
  }

  /** The rows without a final one added since. */
  function CallRows(before: seq<Step>, rows: seq<Step>): seq<Step> {
    if |rows| > |before| && rows[|rows| - 1].final then rows[..|rows| - 1] else rows
  }

  lemma StepsWithinBudget(sv: Server, incident: nat, start: Records, commits: seq<Commit>)
    requires Rules(sv) && incident <= MAX_ID && Sound(sv, start) && LegalFrom(sv, incident, start, commits)
    ensures |After(sv, start, commits).steps| <= sv.limits.maxSteps
  {
    hide Rules, LegalFrom, After, Traced, Grounded, Lockstep, SucceededTools, WithinRepeats, Ordered;
    SoundAfter(sv, incident, start, commits);
  }

  /** Model calls that writing so many rows may take. */
  function CallBudget(rows: int, repairs: nat): int { rows * (repairs + 1) }

  lemma Monotone(rows: int, most: int, w: int)
    requires 0 <= rows <= most && 0 <= w
    ensures 0 <= rows * w <= most * w
  {
  }

  lemma OneMoreRow(rows: int, w: int)
    ensures (rows + 1) * w == rows * w + w
  {
  }

  lemma CallBudgets(rows: int, most: int, repairs: nat)
    requires 0 <= rows <= most
    ensures CallBudget(rows, repairs) <= CallBudget(most, repairs)
    ensures 0 <= CallBudget(most, repairs) && CallBudget(most + 1, repairs) == CallBudget(most, repairs) + repairs + 1
    ensures CallBudget(rows + 1, repairs) == CallBudget(rows, repairs) + repairs + 1
    ensures rows < most ==> CallBudget(rows + 1, repairs) <= CallBudget(most, repairs)
    ensures CallBudget(0, repairs) == 0
  {
    Monotone(rows, most, repairs + 1);
    OneMoreRow(rows, repairs + 1);
    OneMoreRow(most, repairs + 1);
    if rows < most {
      Monotone(rows + 1, most, repairs + 1);
    }
  }

  lemma NothingRequired(steps: seq<Step>)
    ensures RequiredTool(steps).None? ==> MissingEvidence(steps) == []
  {
    hide MissingEvidence;
  }

  lemma TracedRows(sv: Server, incident: nat, start: Records, commits: seq<Commit>)
    requires Rules(sv) && incident <= MAX_ID && Sound(sv, start) && LegalFrom(sv, incident, start, commits)
    ensures Traced(sv, After(sv, start, commits).steps) && Numbered(After(sv, start, commits).steps)
    ensures After(sv, start, commits).execution.Some? ==>
      After(sv, start, commits).execution.value.toolCallCount == SucceededCount(After(sv, start, commits).steps)
    ensures Ordered(SucceededTools(After(sv, start, commits).steps))
    ensures |SucceededTools(After(sv, start, commits).steps)| == SucceededCount(After(sv, start, commits).steps)
  {
    hide Rules, LegalFrom, After, Traced, Grounded, Lockstep, SucceededTools, SucceededCount, WithinRepeats;
    SoundAfter(sv, incident, start, commits);
  }

  /** Review requests (app/repositories/agent.py, app/api/routes/incidents.py), one at a time. */
  class AgentRepository {
    const sv: Server
    const incident: nat
    const store: AgentStore

    constructor (sv: Server, incident: nat, store: AgentStore)
      ensures this.sv == sv && this.incident == incident && this.store == store
    {
      this.sv, this.incident, this.store := sv, incident, store;
    }

    ghost predicate Valid()
      reads this, store
    {
      Rules(sv) && incident <= MAX_ID && store.Valid(sv, incident)
    }

    /** Store feedback and, for a decision, move the execution. */
    method AddFeedback(decision: Feedback) returns (stored: bool)
      requires Valid()
      requires decision.Comment? || (store.execution.Some? && store.execution.value.status.AwaitingReview?)
      modifies store
      ensures Valid()
      ensures stored <==> old(store.execution).Some? && old(store.resolution).Some?
      ensures stored ==> store.Did(sv, incident, Review(decision))
      ensures stored && !decision.Comment? ==>
        && store.execution.Some?
        && store.execution.value.status == (if decision.Approval? then Approved else AgentStatus.Rejected)
      ensures !stored ==> store.Rows() == old(store.Rows()) && store.history == old(store.history)
    {
      hide Rules, LegalFrom, After, Sound;
      if store.resolution.None? || store.execution.None? {
        return false;
      }
      OneMoreCommit(sv, incident, store.start, store.history, Review(decision));
      store.feedback := store.feedback + [decision];
      if !decision.Comment? {
        var status := if decision.Approval? then Approved else AgentStatus.Rejected;
        store.execution := Some(store.execution.value.(status := status));
      }
      store.history := store.history + [Review(decision)];
      stored := true;
    }

    /** The route's guard: a decision is accepted exactly while one is awaited. Unless a failure
        was recorded late it is then the only one. */
    method RecordFeedback(decision: Feedback) returns (accepted: bool)
      requires Valid()
      modifies store
      ensures Valid()
      ensures accepted <==>
        old(store.execution).Some? && (decision.Comment? || old(store.execution).value.status.AwaitingReview?)
      ensures accepted ==> store.Did(sv, incident, Review(decision))
      ensures accepted && !decision.Comment? ==>
        Decisions(store.feedback) == Decisions(old(store.feedback)) + [decision]
      ensures accepted && !decision.Comment? && old(Decided(store.Rows())) ==> Decisions(store.feedback) == [decision]
      ensures !accepted ==> store.Kept()
    {
      hide Rules, LegalFrom, After, Sound;
      ReachedStatus(sv, incident, store.start, store.history);
      if store.execution.None? {
        return false;
      }
      if !decision.Comment? && !store.execution.value.status.AwaitingReview? {
        return false;
      }
      ghost var before := store.feedback;
      accepted := AddFeedback(decision);
      assert (before + [decision])[..|before|] == before;
    }
  }
}
