/** Which call budgets let an execution complete at all. */
module AgentCompletion {
  import opened Dict
  import opened Json
  import opened Sanitization
  import opened AgentModels
  import opened AgentTools
  import opened AgentRecords
  import opened AgentRuns
  import opened AgentGrounding
  import opened AgentResume

  ghost predicate Completes(sv: Server, incident: nat, run: seq<Commit>) {
    var db := State(sv, run);
    LegalRun(sv, incident, run) && db.resolution.Some? && db.resolution.value.final.Some?
  }

  // ---- Completion needs two calls

  /** A stored resolution comes with the mandatory evidence. */
  ghost predicate Evidenced(db: Records) {
    db.resolution.Some? && db.resolution.value.final.Some? ==> MissingEvidence(db.steps) == []
  }

  lemma EvidencedKept(sv: Server, incident: nat, db: Records, c: Commit)
    requires Lockstep(db) && Evidenced(db) && Legal(sv, incident, db, c)
    ensures Evidenced(Apply(sv, db, c))
  {
    hide SucceededTools, LegalTool, Eligible, Repeats, ToolStep, RejectedStep, EvidenceReferences, RetrievedContext;
    hide ValidateFinal, ValidAnswer, Matches, Restored, Allowed;
    var steps := Apply(sv, db, c).steps;
    if steps != db.steps {
      Grow(sv, db.steps, steps[|steps| - 1]);
    }
  }

  lemma {:induction false} RunsAreEvidenced(sv: Server, incident: nat, run: seq<Commit>)
    requires LegalRun(sv, incident, run)
    ensures Evidenced(State(sv, run))
  {
    hide Legal, Apply, Lockstep, Audited, WithinRepeats, MissingEvidence;
    if run != [] {
      var init := run[..|run| - 1];
      RunsAreEvidenced(sv, incident, init);
      RunsAreCore(sv, incident, init);
      EvidencedKept(sv, incident, State(sv, init), run[|run| - 1]);
    }
  }

  lemma CompletionTakesTwoCalls(sv: Server, incident: nat, run: seq<Commit>)
    requires Completes(sv, incident, run)
    ensures sv.limits.maxToolCalls >= 2
  {
    hide LegalRun, State, SucceededTools, Lockstep, WithinRepeats, Ordered, Counted;
    var db := State(sv, run);
    RunsAreCore(sv, incident, run);
    RunsAreEvidenced(sv, incident, run);
    var tools := SucceededTools(db.steps);
    assert GET_INCIDENT in tools && RETRIEVE_RUNBOOKS in tools;
    assert |GET_INCIDENT| == 12 && |RETRIEVE_RUNBOOKS| == 17;
    hide GET_INCIDENT, RETRIEVE_RUNBOOKS;
    assert |tools| >= 2;
  }

  // ---- A run of two calls

  function Load(incident: nat): ToolRequest {
    ToolRequest(GET_INCIDENT, [Entry("incident_id", Num(incident as real))])
  }

  const SEARCH := ToolRequest(RETRIEVE_RUNBOOKS, [Entry("query", Str("database connection refused"))])

  function Facts(incident: nat): Reply {
    Reply(IncidentFacts("database_error", "high",
                        [Entry("incident_id", Num(incident as real)), Entry("service", Str("orders")),
                         Entry("severity", Str("high"))]), 4.5)
  }

  const NO_CHUNKS := Reply(Found([]), 12.5)

  const ANSWER := FinalResponse("The database refused connections.", "The connection limit was reached.", ["check"],
                                0.4, [], "The incident record names the database.", [GET_INCIDENT], [], true, true)

  /** The server's schemas and size checks let an incident be loaded and the runbooks be
      searched, and let their results through. */
  ghost predicate Serves(sv: Server, incident: nat) {
    && sv.argumentsFit(Load(incident).arguments) && sv.argumentsFit(SEARCH.arguments)
    && sv.validate(GET_INCIDENT, Load(incident).arguments) == Some(IncidentArgs(incident))
    && sv.validate(RETRIEVE_RUNBOOKS, SEARCH.arguments) == Some(RunbookArgs)
    && Returns(sv, Produce(sv, GET_INCIDENT, IncidentArgs(incident), [], Facts(incident).answer))
    && Returns(sv, Produce(sv, RETRIEVE_RUNBOOKS, RunbookArgs, [], NO_CHUNKS.answer))
  }

  ghost predicate Returns(sv: Server, o: Option<Output>) { o.Some? && ValidOutput(o.value) && sv.resultFits(o.value) }

  lemma LoadSucceeds(sv: Server, incident: nat, previous: Results, calls: nat)
    requires Serves(sv, incident) && calls < sv.limits.maxToolCalls
    ensures var o := ExecuteTool(sv, incident, previous, calls, Load(incident), Facts(incident));
            o.Succeeded? && forall r :: r in o.result.references ==> !r.kind.RunbookRef?
  {
    hide Sanitize, CleanText, ValidOutput;
    assert TOOL_NAMES[0] == GET_INCIDENT;
  }

  lemma SearchSucceeds(sv: Server, incident: nat, previous: Results, calls: nat)
    requires Serves(sv, incident) && calls < sv.limits.maxToolCalls
    ensures var o := ExecuteTool(sv, incident, previous, calls, SEARCH, NO_CHUNKS);
            o.Succeeded? && o.result.references == []
  {
    hide Sanitize, CleanText, ValidOutput;
    assert TOOL_NAMES[1] == RETRIEVE_RUNBOOKS;
    assert |GET_INCIDENT| == 12 && |RETRIEVE_RUNBOOKS| == 17;
  }

  function Recording(sv: Server, incident: nat, steps: seq<Step>, request: ToolRequest, reply: Reply): Commit
    requires ExecuteTool(sv, incident, Restored(steps), SucceededCount(steps), request, reply).Succeeded?
  {
    RecordTool(request, ExecuteTool(sv, incident, Restored(steps), SucceededCount(steps), request, reply).result,
               Restored(steps), reply)
  }

  /** Rows after one more call. */
  ghost predicate OneMore(sv: Server, before: seq<Step>, after: seq<Step>, request: ToolRequest, result: ToolResult) {
    && after == before + [ToolStep(sv, before, request, result)]
    && Values(Restored(after)) == Values(Restored(before)) + [RestoredResult(sv.text, result)]
    && SucceededTools(after) == SucceededTools(before) + [request.toolName]
    && SucceededCount(after) == SucceededCount(before) + 1
  }

  lemma CallIsLegal(sv: Server, incident: nat, db: Records, request: ToolRequest, reply: Reply)
    requires Rules(sv) && incident <= MAX_ID && Traced(sv, db.steps) && Ready(sv, db) && Awaiting(db)
    requires GoodReply(reply)
    requires Eligible(db.steps, request) && !Repeats(sv, db.steps, db.found, request)
    requires ExecuteTool(sv, incident, Restored(db.steps), SucceededCount(db.steps), request, reply).Succeeded?
    ensures var c := Recording(sv, incident, db.steps, request, reply);
            && Legal(sv, incident, db, c) && InProgress(Apply(sv, db, c)) && Apply(sv, db, c).found == db.found
            && OneMore(sv, db.steps, Apply(sv, db, c).steps, request, c.result)
  {
    hide Rules, Restored, RestoredResult, ExecuteTool, Eligible, Repeats, Matches, Sanitize, ResultJson;
    hide SucceededTools, Traced;
    var c := Recording(sv, incident, db.steps, request, reply);
    RestoredMatches(sv, db.steps);
    RecordToolKeepsTrace(sv, incident, db, c);
    Grow(sv, db.steps, ToolStep(sv, db.steps, request, c.result));
  }

  /** A legal commit extends a history. */
  lemma Extend(sv: Server, incident: nat, run: seq<Commit>, c: Commit)
    requires LegalRun(sv, incident, run) && Legal(sv, incident, State(sv, run), c)
    ensures LegalRun(sv, incident, run + [c]) && State(sv, run + [c]) == Apply(sv, State(sv, run), c)
  {
    hide Legal, Apply;
    assert (run + [c])[..|run|] == run;
  }

  lemma LoadMayRun(sv: Server, incident: nat)
    requires ValidLimits(sv.limits)
    ensures Eligible([], Load(incident)) && !Repeats(sv, [], 0, Load(incident))
  {
    assert |GET_INCIDENT| == 12 && |RETRIEVE_RUNBOOKS| == 17;
  }

  /** A loaded incident does not make the search a repeat: the two signatures differ in
      their first letter. */
  lemma SearchMayRun(sv: Server, incident: nat, first: ToolResult)
    requires ValidLimits(sv.limits)
    ensures var steps := [ToolStep(sv, [], Load(incident), first)];
            SucceededTools(steps) == [GET_INCIDENT] ==> Eligible(steps, SEARCH) && !Repeats(sv, steps, 0, SEARCH)
  {
    hide Sanitize, SucceededTools, ResultJson;
    var step := ToolStep(sv, [], Load(incident), first);
    var made, asked := StepSignature(sv, step, false), Signature(sv, SEARCH.toolName, Obj(SEARCH.arguments));
    assert GET_INCIDENT[0] == 'g' && RETRIEVE_RUNBOOKS[0] == 'r';
    assert made[0] == 'g' && asked[0] == 'r';
    assert [step][..0] == [];
    assert SignatureCount(sv, [step], 0, asked) == 0;
  }

  ghost predicate NoRunbookReferences(results: Results) {
    forall i, r :: 0 <= i < |results| && r in results[i].value.references ==> !r.kind.RunbookRef?
  }

  lemma NothingAllowed(results: Results)
    requires NoRunbookReferences(results)
    ensures Allowed(EvidenceReferences(results)) == {}
  {
    forall r | r in EvidenceReferences(results) ensures !r.kind.RunbookRef? {
      assert r in ReferencesOf(Values(results));
      var i :| 0 <= i < |Values(results)| && r in Values(results)[i].references;
    }
  }

  lemma AnswerIsSafe(sv: Server)
    requires KeepsPlain(sv.text)
    ensures ValidAnswer(ANSWER) && forall a :: a in ANSWER.actions ==> !Dangerous(sv, a)
  {
    assert Plain("check");
    forall i, at | 0 <= i < |DANGEROUS| && 0 <= at <= 5 ensures !(DANGEROUS[i] <= "check"[at..]) {
      assert |DANGEROUS[i]| >= 6;
    }
  }

  lemma AnswerIsLegal(sv: Server, incident: nat, db: Records)
    requires Rules(sv) && Ready(sv, db) && Traced(sv, db.steps)
    requires SucceededTools(db.steps) == [GET_INCIDENT, RETRIEVE_RUNBOOKS] && NoRunbookReferences(Restored(db.steps))
    ensures exists f :: Legal(sv, incident, db, RecordFinal(ANSWER, f, Restored(db.steps)))
  {
    hide Restored, SucceededTools, EvidenceReferences, Allowed, Rules, Traced, Matches, Dangerous, NoRunbookReferences;
    hide KeepsPlain, ValidAnswer;
    NothingAllowed(Restored(db.steps));
    RestoredMatches(sv, db.steps);
    RulesKeepPlain(sv);
    AnswerIsSafe(sv);
    AnswerPasses(sv, Distinct(SucceededTools(db.steps)));
    var f := ValidateFinal(sv, ANSWER, Distinct(SucceededTools(db.steps)), {});
    hide ValidateFinal;
    assert Legal(sv, incident, db, RecordFinal(ANSWER, f.value, Restored(db.steps)));
  }

  lemma AnswerPasses(sv: Server, tools: seq<string>)
    requires GET_INCIDENT in tools && forall a :: a in ANSWER.actions ==> !Dangerous(sv, a)
    ensures ValidateFinal(sv, ANSWER, tools, {}).Some?
  {
    hide Dangerous;
    assert Distinct([GET_INCIDENT][..0]) == [];
    assert Distinct(ANSWER.toolsUsed) == [GET_INCIDENT];
  }

  lemma NoRunbooks(sv: Server, results: Results, first: ToolResult, second: ToolResult)
    requires Values(results) == [RestoredResult(sv.text, first), RestoredResult(sv.text, second)]
    requires second.references == [] && forall r :: r in first.references ==> !r.kind.RunbookRef?
    ensures NoRunbookReferences(results)
  {
    hide Sanitize, CleanText;
    forall i, r | 0 <= i < |results| && r in results[i].value.references ensures !r.kind.RunbookRef? {
      assert results[i].value == Values(results)[i];
      if i == 0 {
        var k :| 0 <= k < |first.references| && r == RestoredReference(sv.text, first.references[k]);
        assert first.references[k] in first.references;
      }
    }
  }

  /** A history in progress. */
  ghost predicate Going(sv: Server, incident: nat, run: seq<Commit>) {
    LegalRun(sv, incident, run) && InProgress(State(sv, run)) && State(sv, run).resolution.Some?
  }

  lemma Started(sv: Server, incident: nat)
    ensures Going(sv, incident, [Claim(0)]) && State(sv, [Claim(0)]).steps == [] && State(sv, [Claim(0)]).found == 0
  {
    hide LegalTool, LegalFinal;
    Extend(sv, incident, [], Claim(0));
    assert [] + [Claim(0)] == [Claim(0)];
  }

  lemma Call(sv: Server, incident: nat, run: seq<Commit>, request: ToolRequest,
             reply: Reply) returns (longer: seq<Commit>)
    requires Rules(sv) && incident <= MAX_ID && Going(sv, incident, run) && GoodReply(reply)
    requires |State(sv, run).steps| < sv.limits.maxSteps
    requires var steps := State(sv, run).steps;
             && Eligible(steps, request) && !Repeats(sv, steps, State(sv, run).found, request)
             && ExecuteTool(sv, incident, Restored(steps), SucceededCount(steps), request, reply).Succeeded?
    ensures Going(sv, incident, longer) && State(sv, longer).found == State(sv, run).found
    ensures var before := State(sv, run).steps;
            OneMore(sv, before, State(sv, longer).steps, request,
                    ExecuteTool(sv, incident, Restored(before), SucceededCount(before), request, reply).result)
  {
    hide Rules, LegalRun, State, Legal, Traced, OneMore, ExecuteTool, Eligible, Repeats, Restored, SucceededCount;
    Announced(sv, incident, run);
    var waiting := run + [AwaitTool];
    var db := State(sv, waiting);
    TracedState(sv, incident, waiting);
    CallIsLegal(sv, incident, db, request, reply);
    var c := Recording(sv, incident, db.steps, request, reply);
    Extend(sv, incident, waiting, c);
    longer := waiting + [c];
  }

  lemma Announced(sv: Server, incident: nat, run: seq<Commit>)
    requires Going(sv, incident, run) && |State(sv, run).steps| < sv.limits.maxSteps
    ensures Going(sv, incident, run + [AwaitTool]) && Awaiting(State(sv, run + [AwaitTool]))
    ensures State(sv, run + [AwaitTool]).steps == State(sv, run).steps
    ensures State(sv, run + [AwaitTool]).found == State(sv, run).found
  {
    hide LegalRun, State, LegalTool, LegalFinal, Eligible, Repeats;
    Extend(sv, incident, run, AwaitTool);
  }

  lemma TracedState(sv: Server, incident: nat, run: seq<Commit>)
    requires Rules(sv) && incident <= MAX_ID && LegalRun(sv, incident, run)
    ensures Traced(sv, State(sv, run).steps)
  {
    hide Rules, LegalRun, State, Traced, Grounded, Core;
    RunsAreSound(sv, incident, run);
  }

  lemma Answered(sv: Server, incident: nat, run: seq<Commit>) returns (longer: seq<Commit>)
    requires Rules(sv) && incident <= MAX_ID && Going(sv, incident, run) && Ready(sv, State(sv, run))
    requires SucceededTools(State(sv, run).steps) == [GET_INCIDENT, RETRIEVE_RUNBOOKS]
    requires NoRunbookReferences(Restored(State(sv, run).steps))
    ensures Completes(sv, incident, longer)
  {
    hide NoRunbookReferences, LegalRun, State, Legal, Restored, SucceededTools, FinalStep, Rules, Traced;
    TracedState(sv, incident, run);
    AnswerIsLegal(sv, incident, State(sv, run));
    var f :| Legal(sv, incident, State(sv, run), RecordFinal(ANSWER, f, Restored(State(sv, run).steps)));
    var c := RecordFinal(ANSWER, f, Restored(State(sv, run).steps));
    Extend(sv, incident, run, c);
    longer := run + [c];
  }

  /** The first row, and the guards over it. */
  ghost predicate HasLoaded(sv: Server, incident: nat, steps: seq<Step>, q: ToolResult) {
    && steps == [ToolStep(sv, [], Load(incident), q)] && SucceededTools(steps) == [GET_INCIDENT]
    && SucceededCount(steps) == 1 && Values(Restored(steps)) == [RestoredResult(sv.text, q)]
    && forall r :: r in q.references ==> !r.kind.RunbookRef?
  }

  lemma FirstRow(sv: Server, incident: nat, before: seq<Step>, after: seq<Step>, q: ToolResult)
    requires OneMore(sv, before, after, Load(incident), q) && before == []
    requires forall r :: r in q.references ==> !r.kind.RunbookRef?
    ensures HasLoaded(sv, incident, after, q)
  {
    hide ToolStep, RestoredResult;
    assert Restored([]) == [] && SucceededTools([]) == [] && SucceededCount([]) == 0;
  }

  lemma Loaded(sv: Server, incident: nat) returns (run: seq<Commit>, q: ToolResult)
    requires Rules(sv) && ValidLimits(sv.limits) && incident <= MAX_ID && Serves(sv, incident)
    ensures Going(sv, incident, run) && State(sv, run).found == 0 && HasLoaded(sv, incident, State(sv, run).steps, q)
  {
    hide Rules, LegalRun, State, ExecuteTool, Eligible, Repeats, Restored, Serves, OneMore, HasLoaded;
    hide SucceededTools, Load;
    Started(sv, incident);
    var db := State(sv, [Claim(0)]);
    LoadMayRun(sv, incident);
    LoadSucceeds(sv, incident, Restored(db.steps), SucceededCount(db.steps));
    var outcome := ExecuteTool(sv, incident, Restored(db.steps), SucceededCount(db.steps), Load(incident),
                               Facts(incident));
    q := outcome.result;
    GoodFacts(incident);
    run := Call(sv, incident, [Claim(0)], Load(incident), Facts(incident));
    FirstRow(sv, incident, db.steps, State(sv, run).steps, q);
  }

  lemma GoodFacts(incident: nat)
    ensures GoodReply(Facts(incident)) && GoodReply(NO_CHUNKS)
  {
    assert |"chunks"| == 6;
    assert |"incident_id"| == 11 && |"service"| == 7 && |"severity"| == 8;
  }

  lemma Searched(sv: Server, incident: nat, loaded: seq<Commit>, q: ToolResult) returns (run: seq<Commit>)
    requires Rules(sv) && ValidLimits(sv.limits) && incident <= MAX_ID && Serves(sv, incident)
    requires sv.limits.maxToolCalls >= 2
    requires Going(sv, incident, loaded) && State(sv, loaded).found == 0
    requires HasLoaded(sv, incident, State(sv, loaded).steps, q)
    ensures Going(sv, incident, run)
    ensures var steps := State(sv, run).steps;
            && |steps| == 2 && SucceededTools(steps) == [GET_INCIDENT, RETRIEVE_RUNBOOKS]
            && NoRunbookReferences(Restored(steps))
  {
    hide Rules, LegalRun, State, ExecuteTool, Eligible, Repeats, Restored, Serves, ToolStep, SucceededTools;
    hide RestoredResult;
    hide SucceededCount, NoRunbookReferences, Going, OneMore, Load;
    var db := State(sv, loaded);
    SearchMayRun(sv, incident, q);
    SearchSucceeds(sv, incident, Restored(db.steps), SucceededCount(db.steps));
    var second := ExecuteTool(sv, incident, Restored(db.steps), SucceededCount(db.steps), SEARCH, NO_CHUNKS).result;
    GoodFacts(incident);
    run := Call(sv, incident, loaded, SEARCH, NO_CHUNKS);
    SearchedSteps(sv, incident, db.steps, State(sv, run).steps, q, second);
  }

  lemma SearchedSteps(sv: Server, incident: nat, before: seq<Step>, after: seq<Step>, q: ToolResult, second: ToolResult)
    requires HasLoaded(sv, incident, before, q) && OneMore(sv, before, after, SEARCH, second) && second.references == []
    ensures |after| == 2 && SucceededTools(after) == [GET_INCIDENT, RETRIEVE_RUNBOOKS]
    ensures NoRunbookReferences(Restored(after))
  {
    hide SucceededTools, Restored, RestoredResult, ToolStep, SucceededCount, NoRunbookReferences;
    NoRunbooks(sv, Restored(after), q, second);
  }

  /** With a budget of two calls or more, loading the incident, searching and answering completes. */
  lemma TwoCallsComplete(sv: Server, incident: nat) returns (run: seq<Commit>)
    requires Rules(sv) && ValidLimits(sv.limits) && incident <= MAX_ID && Serves(sv, incident)
    requires sv.limits.maxToolCalls >= 2
    ensures Completes(sv, incident, run)
  {
    hide Rules, LegalRun, State, Restored, ToolStep, SucceededTools, Completes, Serves, NoRunbookReferences, HasLoaded;
    var loaded, q := Loaded(sv, incident);
    var searched := Searched(sv, incident, loaded, q);
    run := Answered(sv, incident, searched);
  }

  /** On every server whose schemas admit the two mandatory calls, an incident's execution
      can complete exactly when the call budget is at least two. The configuration also
      admits a budget of one, under which every execution fails. */
  lemma CanCompleteIff(sv: Server, incident: nat)
    requires Rules(sv) && ValidLimits(sv.limits) && incident <= MAX_ID && Serves(sv, incident)
    ensures (exists run :: Completes(sv, incident, run)) <==> sv.limits.maxToolCalls >= 2
  {
    hide Rules, Completes, Serves;
    if sv.limits.maxToolCalls >= 2 {
      var run := TwoCallsComplete(sv, incident);
    }
    forall run | Completes(sv, incident, run) ensures sv.limits.maxToolCalls >= 2 {
      CompletionTakesTwoCalls(sv, incident, run);
    }
  }

  // ---- Such servers exist

  function Digit(d: nat): (c: char)
    requires d < 10
    ensures '0' <= c <= '9'
  {
    ('0' as int + d) as char
  }

  function Digits(n: nat): (s: string)
    ensures s != [] && forall i :: 0 <= i < |s| ==> '0' <= s[i] <= '9'
  {
    (if n < 10 then "" else Digits(n / 10)) + [Digit(n % 10)]
  }

  /** `str(n)`. */
  function Decimal(n: int): string { if n < 0 then "-" + Digits(-n) else Digits(n) }

  lemma LastDigit(n: nat)
    ensures var s := Digits(n);
            s[|s| - 1] == Digit(n % 10) && s[..|s| - 1] == if n < 10 then "" else Digits(n / 10)
  {
  }

  lemma {:induction false} DigitsDiffer(m: nat, n: nat)
    requires Digits(m) == Digits(n)
    ensures m == n
  {
    hide Digits;
    LastDigit(m);
    LastDigit(n);
    assert m % 10 == n % 10;
    if m >= 10 && n >= 10 {
      DigitsDiffer(m / 10, n / 10);
    }
  }

  lemma DecimalIsInjective(m: int, n: int)
    ensures Decimal(m) == Decimal(n) ==> m == n
  {
    hide Digits;
    if Decimal(m) == Decimal(n) && m < 0 && n < 0 {
      assert Decimal(m)[1..] == Digits(-m) && Decimal(n)[1..] == Digits(-n);
      DigitsDiffer(-m, -n);
    } else if Decimal(m) == Decimal(n) && m >= 0 && n >= 0 {
      DigitsDiffer(m, n);
    } else if m < 0 <= n || n < 0 <= m {
      assert Decimal(m)[0] != Decimal(n)[0];
    }
  }

  function Power(k: nat): (p: nat)
    ensures p >= 1
  {
    if k == 0 then 1 else 10 * Power(k - 1)
  }

  lemma {:induction false} DigitsAreFew(n: nat, k: nat)
    requires k >= 1 && n < Power(k)
    ensures |Digits(n)| <= k
  {
    if n >= 10 && k > 1 {
      DigitsAreFew(n / 10, k - 1);
    }
  }

  lemma IdsAreShort(n: int)
    requires 0 <= n <= MAX_ID
    ensures Plain(Decimal(n))
  {
    assert Power(5) == 100000;
    assert Power(10) == 10000000000;
    assert Power(15) == 1000000000000000;
    assert Power(19) == 10000000000000000000;
    hide Digits, Power;
    DigitsAreFew(n, 19);
  }

  /** A rendering that shows what it is given, for `json.dumps`. */
  function Render(j: Json): string
    decreases j, |Children(j)| + 1
  {
    match j
    case Null => "null"
    case Bool(b) => if b then "true" else "false"
    case Num(x) => Decimal(x.Floor)
    case Str(s) => "\"" + s + "\""
    case Arr(items) => "[" + RenderFirst(j, |items|) + "]"
    case Obj(fields) => "{" + RenderFirst(j, |fields|) + "}"
  }

  function RenderFirst(j: Json, n: nat): string
    requires n <= |Children(j)|
    decreases j, n
  {
    if n == 0 then ""
    else
      RenderFirst(j, n - 1) + (if n == 1 then "" else ",") + (if j.Obj? then "\"" + j.fields[n - 1].key + "\":" else "")
      + Render(Children(j)[n - 1])
  }

  /** The schemas of the two mandatory tools. */
  function CheckArguments(tool: string, f: Fields): Option<Arguments> {
    if tool == GET_INCIDENT then
      match Get(f, "incident_id")
      case Some(v) =>
        if |f| == 1 && v.Num? && v.n > 0.0 && v.n == v.n.Floor as real then Some(IncidentArgs(v.n.Floor)) else None
      case None => None
    else if tool == RETRIEVE_RUNBOOKS then
      match Get(f, "query")
      case Some(v) => if |f| == 1 && v.Str? && 3 <= |v.s| <= 2000 then Some(RunbookArgs) else None
      case None => None
    else None
  }

  function Plainly(limits: Limits): Server {
    Server(limits, TextPolicy([], (s: string) => s), Render, Decimal, CheckArguments,
           (tool: string, f: Fields) => f, (f: Fields) => |f| <= 8, (o: Output) => |o.summary| <= 2000)
  }

  lemma PlainlyFollowsRules(limits: Limits)
    ensures Rules(Plainly(limits))
  {
    hide Plain, Decimal;
    var sv := Plainly(limits);
    forall n | 0 <= n <= MAX_ID ensures Plain(sv.decimal(n)) {
      IdsAreShort(n);
    }
    assert forall s :: |s| <= 160 ==> CleanText(sv.text, s) == s;
  }

  lemma PlainlyServes(limits: Limits)
    ensures Serves(Plainly(limits), 1)
  {
    hide Digits;
    assert |"incident_id"| == 11 && |"query"| == 5;
    assert |GET_INCIDENT| == 12 && |RETRIEVE_RUNBOOKS| == 17;
    DigitsAreFew(1, 1);
    DigitsAreFew(0, 1);
  }

  /** Different keys have different reference texts. */
  ghost predicate NamesApart(sv: Server) { forall m, n :: sv.decimal(m) == sv.decimal(n) ==> m == n }

  lemma PlainlyNamesApart(limits: Limits)
    ensures NamesApart(Plainly(limits))
  {
    hide Decimal;
    forall m, n ensures Decimal(m) == Decimal(n) ==> m == n {
      DecimalIsInjective(m, n);
    }
  }

  /** Under every configuration with two calls or more, some server completes incident 1. */
  lemma SomeServerCompletes(limits: Limits)
    requires ValidLimits(limits) && limits.maxToolCalls >= 2
    ensures exists sv: Server, run ::
              sv.limits == limits && Rules(sv) && Serves(sv, 1) && NamesApart(sv) && Completes(sv, 1, run)
  {
    hide Rules, Completes, Serves, NamesApart;
    var sv := Plainly(limits);
    PlainlyFollowsRules(limits);
    PlainlyNamesApart(limits);
    PlainlyServes(limits);
    var run := TwoCallsComplete(sv, 1);
    assert sv.limits == limits && Completes(sv, 1, run);
  }
}
