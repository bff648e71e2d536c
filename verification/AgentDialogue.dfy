/** What the planner, the resolver and the tools told an attempt, and the rows that follow from
    it (app/agent/workflow.py). */
module AgentDialogue {
  import opened Dict
  import opened Json
  import opened AgentModels
  import opened AgentTools
  import opened AgentRecords
  import opened Planner
  import Sanitization

  datatype PlannerReply = Offline | Unusable | Payload(value: Json)
  datatype ResolverReply = ResolverOffline | ResolverUnusable | Answer(answer: FinalResponse)

  /** A provider call, with whether it was counted in the execution row, or a tool's answer. A
      planner's reply is read against the tool required at the time. */
  datatype Exchange =
    | Planning(required: Option<string>, planned: PlannerReply, counted: bool)
    | Resolving(resolved: ResolverReply, counted: bool)
    | Executing(request: ToolRequest, reply: Reply)

  /** The decision in a planner's payload, if it is one. */
  function Parsed(sv: Server, e: Exchange): Option<Decision> {
    if !e.Planning? || !e.counted || !e.planned.Payload? then None
    else match e.required
      case Some(tool) => ParseRequired(sv, e.planned.value, tool)
      case None => ParseDecision(sv.text, e.planned.value)
  }

  /** The tool call a planner's reply asks for. */
  function Asked(sv: Server, e: Exchange): Option<ToolRequest> {
    match Parsed(sv, e) case Some(d) => d.request case None => None
  }

  /** The tool calls asked for, in order. */
  function Requests(sv: Server, xs: seq<Exchange>): seq<ToolRequest> {
    if xs == [] then []
    else Requests(sv, xs[..|xs| - 1]) + match Asked(sv, xs[|xs| - 1]) case Some(r) => [r] case None => []
  }

  /** The last reply of the planner. */
  function LastPlanning(xs: seq<Exchange>): (last: Option<Exchange>)
    ensures last.Some? ==> last.value.Planning?
  {
    if xs == [] then None
    else if xs[|xs| - 1].Planning? then Some(xs[|xs| - 1])
    else LastPlanning(xs[..|xs| - 1])
  }

  /** It ends the calls: it decides to finish, or it cannot be read at all. */
  predicate MayFinish(sv: Server, e: Exchange) { e.Planning? && e.counted && e.planned.Payload? && Asked(sv, e).None? }

  /** The row of a call, whatever became of it. */
  predicate RowOf(sv: Server, row: Step, request: ToolRequest) {
    && !row.final && row.tool == Some(request.toolName)
    && row.arguments == Sanitization.Sanitize(sv.text, Obj(request.arguments), 0)
  }

  /** The rows are those found before, and after them one for each call asked for, in order; the
      last call may be without one. */
  ghost predicate Followed(sv: Server, before: seq<Step>, rows: seq<Step>, xs: seq<Exchange>) {
    var asked := Requests(sv, xs);
    && before <= rows && |asked| - 1 <= |rows| - |before| <= |asked|
    && forall j :: 0 <= j < |rows| - |before| ==> RowOf(sv, rows[|before| + j], asked[j])
  }

  /** Every call asked for has its row. */
  ghost predicate Complete(sv: Server, before: seq<Step>, rows: seq<Step>, xs: seq<Exchange>) {
    Followed(sv, before, rows, xs) && |rows| - |before| == |Requests(sv, xs)|
  }

  lemma NothingAsked(sv: Server, before: seq<Step>, xs: seq<Exchange>)
    requires xs == []
    ensures Complete(sv, before, before, xs) && LastPlanning(xs) == None
  {
  }

  /** One more exchange: a call is asked for, or nothing is. */
  lemma OneMoreExchange(sv: Server, before: seq<Step>, rows: seq<Step>, xs: seq<Exchange>, e: Exchange)
    requires Complete(sv, before, rows, xs)
    ensures Asked(sv, e).None? ==> Complete(sv, before, rows, xs + [e])
    ensures Asked(sv, e).Some? ==> Owing(sv, before, rows, xs + [e], Asked(sv, e).value)
    ensures Followed(sv, before, rows, xs + [e])
    ensures LastPlanning(xs + [e]) == if e.Planning? then Some(e) else LastPlanning(xs)
  {
    hide Asked, RowOf;
    assert (xs + [e])[..|xs|] == xs;
  }

  /** Every call asked for has its row but this one, the last. */
  ghost predicate Owing(sv: Server, before: seq<Step>, rows: seq<Step>, xs: seq<Exchange>, request: ToolRequest) {
    var asked := Requests(sv, xs);
    && Followed(sv, before, rows, xs) && |rows| - |before| == |asked| - 1 && asked[|asked| - 1] == request
  }

  /** A tool's answer asks for nothing. */
  lemma ToolAnswered(sv: Server, before: seq<Step>, rows: seq<Step>, xs: seq<Exchange>, request: ToolRequest,
                     e: Exchange)
    requires Owing(sv, before, rows, xs, request) && e.Executing?
    ensures Owing(sv, before, rows, xs + [e], request) && LastPlanning(xs + [e]) == LastPlanning(xs)
  {
    hide RowOf;
    assert (xs + [e])[..|xs|] == xs;
  }

  /** The row of the call owed. */
  lemma RowWritten(sv: Server, before: seq<Step>, rows: seq<Step>, xs: seq<Exchange>, request: ToolRequest, row: Step)
    requires Owing(sv, before, rows, xs, request) && RowOf(sv, row, request)
    ensures Complete(sv, before, rows + [row], xs)
  {
    hide RowOf;
  }

  /** The resolver's answers ask for nothing either. */
  lemma {:induction false} OnlyResolved(sv: Server, before: seq<Step>, rows: seq<Step>, xs: seq<Exchange>,
                                        more: seq<Exchange>)
    requires Complete(sv, before, rows, xs) && forall k :: 0 <= k < |more| ==> more[k].Resolving?
    ensures Complete(sv, before, rows, xs + more) && LastPlanning(xs + more) == LastPlanning(xs)
  {
    if more == [] {
      assert xs + more == xs;
    } else {
      var init := more[..|more| - 1];
      OnlyResolved(sv, before, rows, xs, init);
      hide Complete, LastPlanning;
      OneMoreExchange(sv, before, rows, xs + init, more[|more| - 1]);
      assert xs + more == xs + init + [more[|more| - 1]];
    }
  }

  // ---- Final answers

  /** The resolver gave an answer that passes its field bounds and the guards. */
  predicate Usable(sv: Server, e: Exchange, tools: seq<string>, allowed: set<Citation>) {
    && e.Resolving? && e.counted && e.resolved.Answer? && ValidAnswer(e.resolved.answer)
    && ValidateFinal(sv, e.resolved.answer, tools, allowed).Some?
  }

  /** None of these answers can be used. */
  ghost predicate NoneUsable(sv: Server, xs: seq<Exchange>, tools: seq<string>, allowed: set<Citation>) {
    forall k :: 0 <= k < |xs| ==> xs[k].Resolving? && !Usable(sv, xs[k], tools, allowed)
  }
}
