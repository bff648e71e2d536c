/** What the limit on repeated calls bounds over a whole history. */
module AgentRepeats {
  import opened Dict
  import opened Json
  import opened Sanitization
  import opened AgentModels
  import opened AgentTools
  import opened AgentRecords
  import opened AgentRuns
  import opened AgentGrounding
  import opened AgentCompletion

  // ---- Calls whose texts settle stay within the limit

  lemma {:induction false} CopiesAreStable(sv: Server, steps: seq<Step>, request: ToolRequest)
    requires TextsSettle(sv.text, Obj(request.arguments), 0)
    ensures var s := Signature(sv, request.toolName, Obj(request.arguments));
            Copies(sv, steps, request) <= StableCount(sv, steps, s)
  {
    hide CopyOf, StableRow, StepSignature, Signature, TextsSettle;
    if steps != [] {
      var n := |steps| - 1;
      CopiesAreStable(sv, steps[..n], request);
      if CopyOf(sv, steps[n], request) {
        CopyIsStable(sv, steps[n], request);
      }
    }
  }

  lemma CopyIsStable(sv: Server, step: Step, request: ToolRequest)
    requires CopyOf(sv, step, request) && TextsSettle(sv.text, Obj(request.arguments), 0)
    ensures Succeeds(step) && StableRow(sv, step)
    ensures StepSignature(sv, step, false) == Signature(sv, request.toolName, Obj(request.arguments))
  {
    hide Sanitize, TextsSettle;
    Absorption(sv.text, Obj(request.arguments), 0, 0);
  }

  /** In no history does a call whose texts settle succeed more often than allowed. */
  lemma SettledStayWithin(sv: Server, incident: nat, run: seq<Commit>, request: ToolRequest)
    requires LegalRun(sv, incident, run) && TextsSettle(sv.text, Obj(request.arguments), 0)
    ensures Copies(sv, State(sv, run).steps, request) <= sv.limits.maxRepeatedToolCalls
  {
    hide LegalRun, State, Copies, StableCount, Signature, TextsSettle, Lockstep, Audited;
    RunsAreCore(sv, incident, run);
    CopiesAreStable(sv, State(sv, run).steps, request);
  }

  /** Every text in the value is written in plain characters. */
  ghost predicate PlainTexts(v: Json)
    decreases v
  {
    match v
    case Str(s) => Plain(s)
    case _ => forall i :: 0 <= i < |Children(v)| ==> PlainTexts(Children(v)[i])
  }

  lemma {:induction false} PlainTextsSettle(p: TextPolicy, v: Json, d: nat)
    requires KeepsPlain(p) && PlainTexts(v)
    ensures TextsSettle(p, v, d)
    decreases v
  {
    hide Plain;
    if d < MAX_DEPTH {
      forall i | 0 <= i < |Children(v)| ensures TextsSettle(p, Children(v)[i], d + 1) {
        PlainTextsSettle(p, Children(v)[i], d + 1);
      }
      match v
      case Arr(items) => assert forall i :: 0 <= i < |items| ==> items[i] == Children(v)[i];
      case Obj(fields) => assert forall i :: 0 <= i < |fields| ==> fields[i].value == Children(v)[i];
      case Str(s) => PlainSettles(p, s);
      case _ =>
    }
  }

  lemma PlainSettles(p: TextPolicy, s: string)
    requires KeepsPlain(p) && Plain(s)
    ensures Settles(p, s)
  {
    assert CleanText(p, s) == s;
  }

  /** So the limit holds of every call of a tool whose arguments are numbers, as those of all
      tools but the search are. */
  lemma PlainCallsStayWithin(sv: Server, incident: nat, run: seq<Commit>, request: ToolRequest)
    requires KeepsPlain(sv.text) && LegalRun(sv, incident, run) && PlainTexts(Obj(request.arguments))
    ensures Copies(sv, State(sv, run).steps, request) <= sv.limits.maxRepeatedToolCalls
  {
    hide LegalRun, State, Copies, KeepsPlain, PlainTexts, TextsSettle;
    PlainTextsSettle(sv.text, Obj(request.arguments), 0);
    SettledStayWithin(sv, incident, run, request);
  }

  // ---- The call budget bounds every optional call

  predicate Optional(request: ToolRequest) { request.toolName != GET_INCIDENT && request.toolName != RETRIEVE_RUNBOOKS }

  function CountOf(tools: seq<string>, name: string): nat {
    if tools == [] then 0
    else CountOf(tools[..|tools| - 1], name) + if tools[|tools| - 1] == name then 1 else 0
  }

  lemma {:induction false} CopiesAreCalls(sv: Server, steps: seq<Step>, request: ToolRequest)
    ensures Copies(sv, steps, request) <= CountOf(SucceededTools(steps), request.toolName)
  {
    hide Sanitize;
    if steps != [] {
      var init, last := steps[..|steps| - 1], steps[|steps| - 1];
      CopiesAreCalls(sv, init, request);
      if Succeeds(last) {
        var tools := SucceededTools(steps);
        assert tools[..|tools| - 1] == SucceededTools(init);
      } else {
        assert SucceededTools(steps) == SucceededTools(init);
      }
    }
  }

  lemma {:induction false} CallsAfterTwo(tools: seq<string>, name: string)
    requires |tools| >= 1 ==> tools[0] != name
    requires |tools| >= 2 ==> tools[1] != name
    ensures CountOf(tools, name) == 0 || CountOf(tools, name) + 2 <= |tools|
  {
    if tools != [] {
      CallsAfterTwo(tools[..|tools| - 1], name);
    }
  }

  lemma BudgetBounds(sv: Server, incident: nat, run: seq<Commit>, request: ToolRequest)
    requires LegalRun(sv, incident, run) && Optional(request)
    ensures var n := Copies(sv, State(sv, run).steps, request); n == 0 || n + 2 <= sv.limits.maxToolCalls
  {
    hide LegalRun, State, Copies, CountOf, SucceededTools, SucceededCount, WithinRepeats, Lockstep, Numbered;
    hide WellShaped;
    hide GET_INCIDENT, RETRIEVE_RUNBOOKS;
    RunsAreCore(sv, incident, run);
    CopiesAreCalls(sv, State(sv, run).steps, request);
    CallsAfterTwo(SucceededTools(State(sv, run).steps), request.toolName);
  }

  // ---- Other calls are bounded by nothing else

  /** The executor accepts this call while the budget lasts. */
  ghost predicate Admitted(sv: Server, incident: nat, request: ToolRequest, reply: Reply) {
    && GoodReply(reply) && request.toolName in TOOL_NAMES
    && forall previous, calls: nat :: calls < sv.limits.maxToolCalls ==>
         ExecuteTool(sv, incident, previous, calls, request, reply).Succeeded?
  }

  /** The mandatory calls were made, and this one `n` times after them. */
  ghost predicate Made(sv: Server, incident: nat, run: seq<Commit>, request: ToolRequest, n: nat) {
    var steps := State(sv, run).steps;
    && Going(sv, incident, run) && |steps| == SucceededCount(steps) == n + 2
    && GET_INCIDENT in SucceededTools(steps) && RETRIEVE_RUNBOOKS in SucceededTools(steps)
    && Separate(sv, steps, request) && Copies(sv, steps, request) == n
  }

  /** Tool names hold no colon, so signatures of different tools differ. */
  lemma OtherTool(sv: Server, step: Step, loaded: bool, request: ToolRequest)
    requires Succeeds(step) && step.tool.value != request.toolName && Plain(step.tool.value) && Plain(request.toolName)
    ensures StepSignature(sv, step, loaded) != Signature(sv, request.toolName, Obj(request.arguments))
  {
    hide Sanitize;
    var a, b := step.tool.value, request.toolName;
    var s, t := StepSignature(sv, step, loaded), Signature(sv, b, Obj(request.arguments));
    assert s[|a|] == ':' && t[|b|] == ':';
    if |a| < |b| {
      assert t[|a|] == b[|a|];
    } else if |b| < |a| {
      assert s[|b|] == a[|b|];
    } else {
      assert s[..|a|] == a && t[..|b|] == b;
    }
  }

  lemma FirstTwo(sv: Server, incident: nat, run: seq<Commit>, request: ToolRequest)
    requires Going(sv, incident, run) && Optional(request) && request.toolName in TOOL_NAMES
    requires |State(sv, run).steps| == 2
    requires SucceededTools(State(sv, run).steps) == [GET_INCIDENT, RETRIEVE_RUNBOOKS]
    ensures Made(sv, incident, run, request, 0)
  {
    hide Going, State, StepSignature, Signature, TOOL_NAMES, Plain, SucceededTools, SucceededCount;
    var steps := State(sv, run).steps;
    BothSucceeded(steps);
    ToolsAreCounted(sv, incident, run);
    ToolNamesPlain(request.toolName);
    MandatoryPlain();
    forall i, loaded | 0 <= i < 2 && Succeeds(steps[i])
      ensures StepSignature(sv, steps[i], loaded) != Signature(sv, request.toolName, Obj(request.arguments))
    {
      OtherTool(sv, steps[i], loaded, request);
    }
    NoCopies(sv, steps, request);
  }

  lemma ToolsAreCounted(sv: Server, incident: nat, run: seq<Commit>)
    requires Going(sv, incident, run)
    ensures SucceededCount(State(sv, run).steps) == |SucceededTools(State(sv, run).steps)|
  {
    hide LegalRun, State, SucceededTools, SucceededCount, WithinRepeats, Lockstep, Ordered, Numbered, WellShaped;
    RunsAreCore(sv, incident, run);
  }

  lemma MandatoryPlain()
    ensures Plain(GET_INCIDENT) && Plain(RETRIEVE_RUNBOOKS)
  {
    hide Plain;
    assert TOOL_NAMES[0] == GET_INCIDENT && TOOL_NAMES[1] == RETRIEVE_RUNBOOKS;
    ToolNamesPlain(GET_INCIDENT);
    ToolNamesPlain(RETRIEVE_RUNBOOKS);
  }

  lemma BothSucceeded(steps: seq<Step>)
    requires |steps| == 2 && SucceededTools(steps) == [GET_INCIDENT, RETRIEVE_RUNBOOKS]
    ensures Succeeds(steps[0]) && Succeeds(steps[1])
    ensures steps[0].tool.value == GET_INCIDENT && steps[1].tool.value == RETRIEVE_RUNBOOKS
  {
    hide GET_INCIDENT, RETRIEVE_RUNBOOKS;
    var first, second := SucceededTools(steps[..1]), if Succeeds(steps[1]) then [steps[1].tool.value] else [];
    assert steps[..1][..0] == [] && steps[..1][0] == steps[0];
    assert SucceededTools(steps[..1][..0]) == [];
    assert first == if Succeeds(steps[0]) then [steps[0].tool.value] else [];
    var both := first + second;
    assert SucceededTools(steps) == both && both[0] == first[0] && both[1] == second[0];
  }

  lemma NoCopies(sv: Server, steps: seq<Step>, request: ToolRequest)
    requires |steps| == 2 && !CopyOf(sv, steps[0], request) && !CopyOf(sv, steps[1], request)
    ensures Copies(sv, steps, request) == 0
  {
    hide CopyOf;
    assert steps[..1][0] == steps[0] && steps[..1][..0] == [];
    assert Copies(sv, steps[..1], request) == 0;
  }

  /** A failed attempt, and the next one. */
  lemma Interrupted(sv: Server, incident: nat, run: seq<Commit>) returns (longer: seq<Commit>)
    requires Going(sv, incident, run)
    ensures Going(sv, incident, longer) && State(sv, longer).steps == State(sv, run).steps
    ensures State(sv, longer).found == |State(sv, run).steps|
  {
    hide LegalRun, State, LegalTool, LegalFinal, Eligible, Repeats;
    Extend(sv, incident, run, RecordFailure(true));
    var failed := run + [RecordFailure(true)];
    Extend(sv, incident, failed, Claim(0));
    longer := failed + [Claim(0)];
  }

  /** A copy the attempt only loaded does not count against the call. */
  lemma MayRunAgain(sv: Server, steps: seq<Step>, request: ToolRequest)
    requires ValidLimits(sv.limits) && Optional(request) && !TextsSettle(sv.text, Obj(request.arguments), 0)
    requires Separate(sv, steps, request) && EncodesApart(sv, request)
    requires GET_INCIDENT in SucceededTools(steps) && RETRIEVE_RUNBOOKS in SucceededTools(steps)
    ensures Eligible(steps, request) && !Repeats(sv, steps, |steps|, request)
  {
    hide Separate, EncodesApart, TextsSettle, SucceededTools, Signature, SignatureCount;
    CountsCopies(sv, steps, |steps|, request);
  }

  lemma OneCopyMore(sv: Server, before: seq<Step>, after: seq<Step>, request: ToolRequest, result: ToolResult)
    requires AgentCompletion.OneMore(sv, before, after, request, result) && Separate(sv, before, request)
    ensures Copies(sv, after, request) == Copies(sv, before, request) + 1 && Separate(sv, after, request)
  {
    hide Sanitize, StepSignature, Signature, Restored, RestoredResult, SucceededTools, SucceededCount, ResultJson;
    assert after[..|before|] == before;
    forall i, loaded | 0 <= i < |after| && Succeeds(after[i]) && !CopyOf(sv, after[i], request)
      ensures StepSignature(sv, after[i], loaded) != Signature(sv, request.toolName, Obj(request.arguments))
    {
      assert i < |before| && after[i] == before[i];
    }
  }

  lemma OneCallMore(sv: Server, incident: nat, run: seq<Commit>, request: ToolRequest, reply: Reply, n: nat)
    returns (longer: seq<Commit>)
    requires Rules(sv) && ValidLimits(sv.limits) && incident <= MAX_ID && Optional(request)
    requires Admitted(sv, incident, request, reply) && EncodesApart(sv, request)
    requires !TextsSettle(sv.text, Obj(request.arguments), 0)
    requires Made(sv, incident, run, request, n) && n + 2 < sv.limits.maxToolCalls
    ensures Made(sv, incident, longer, request, n + 1)
  {
    hide Rules, Going, State, Eligible, Repeats, Restored, Separate, Copies, EncodesApart, TextsSettle, SucceededTools;
    hide SucceededCount, ExecuteTool, ToolStep, RestoredResult;
    var again := Interrupted(sv, incident, run);
    var steps := State(sv, again).steps;
    MayRunAgain(sv, steps, request);
    var q := ExecuteTool(sv, incident, Restored(steps), SucceededCount(steps), request, reply).result;
    longer := Call(sv, incident, again, request, reply);
    OneCopyMore(sv, steps, State(sv, longer).steps, request, q);
  }

  lemma {:induction false} AsOftenAsTheBudget(sv: Server, incident: nat, request: ToolRequest, reply: Reply, n: nat)
    returns (run: seq<Commit>)
    requires Rules(sv) && ValidLimits(sv.limits) && incident <= MAX_ID && Serves(sv, incident) && Optional(request)
    requires Admitted(sv, incident, request, reply) && EncodesApart(sv, request)
    requires !TextsSettle(sv.text, Obj(request.arguments), 0) && n + 2 <= sv.limits.maxToolCalls
    ensures Made(sv, incident, run, request, n)
  {
    hide Rules, Serves, Admitted, EncodesApart, TextsSettle, Made, HasLoaded;
    if n == 0 {
      var loaded, q := Loaded(sv, incident);
      run := Searched(sv, incident, loaded, q);
      hide Going, NoRunbookReferences;
      AdmittedIsListed(sv, incident, request, reply);
      FirstTwo(sv, incident, run, request);
    } else {
      var shorter := AsOftenAsTheBudget(sv, incident, request, reply, n - 1);
      run := OneCallMore(sv, incident, shorter, request, reply, n - 1);
    }
  }

  lemma AdmittedIsListed(sv: Server, incident: nat, request: ToolRequest, reply: Reply)
    requires Admitted(sv, incident, request, reply)
    ensures request.toolName in TOOL_NAMES
  {
  }

  /** The limit on repeated calls. */
  ghost predicate LimitHolds(sv: Server, incident: nat, request: ToolRequest) {
    forall run :: LegalRun(sv, incident, run) ==>
      Copies(sv, State(sv, run).steps, request) <= sv.limits.maxRepeatedToolCalls
  }

  /** Over all histories a call the tools accept succeeds at most as often as allowed exactly
      when its texts settle, or the call budget leaves no room for more. */
  lemma LimitHoldsIff(sv: Server, incident: nat, request: ToolRequest, reply: Reply)
    requires Rules(sv) && ValidLimits(sv.limits) && incident <= MAX_ID && Serves(sv, incident) && Optional(request)
    requires Admitted(sv, incident, request, reply) && EncodesApart(sv, request)
    ensures LimitHolds(sv, incident, request)
            <==> TextsSettle(sv.text, Obj(request.arguments), 0)
                 || sv.limits.maxToolCalls <= sv.limits.maxRepeatedToolCalls + 2
  {
    hide Rules, Serves, Admitted, EncodesApart, TextsSettle, LegalRun, State, Copies;
    var limit := sv.limits.maxRepeatedToolCalls;
    if TextsSettle(sv.text, Obj(request.arguments), 0) {
      forall run | LegalRun(sv, incident, run) ensures Copies(sv, State(sv, run).steps, request) <= limit {
        SettledStayWithin(sv, incident, run, request);
      }
    } else if sv.limits.maxToolCalls <= limit + 2 {
      forall run | LegalRun(sv, incident, run) ensures Copies(sv, State(sv, run).steps, request) <= limit {
        BudgetBounds(sv, incident, run, request);
      }
    } else {
      var run := AsOftenAsTheBudget(sv, incident, request, reply, limit + 1);
      assert LegalRun(sv, incident, run) && Copies(sv, State(sv, run).steps, request) == limit + 1;
    }
  }
}
