/** Reading the planner's structured output: unambiguous aliases are normalized, everything
    else is validated (app/agent/models.py, app/agent/workflow.py). */
module Planner {
  import opened Dict
  import opened Json
  import opened Sanitization
  import opened AgentModels
  import opened AgentTools
  import Text

  const GOAL := "goal"
  const NEXT_ACTION := "next_action"
  const TOOL_NAME := "tool_name"
  const TOOL := "tool"
  const TOOL_ARGUMENTS := "tool_arguments"
  const ARGUMENTS := "arguments"
  const REASON := "reason_summary"
  const EXPECTED := "expected_evidence"
  const FINAL := "final"

  /** A validated decision: one tool request, or none to finish. */
  datatype Decision = Decision(goal: string, request: Option<ToolRequest>, reason: string, expected: string)

  function Replaced(s: string, a: char, b: char): (r: string)
    ensures |r| == |s| && forall i :: 0 <= i < |s| ==> r[i] == if s[i] == a then b else s[i]
  {
    seq(|s|, i requires 0 <= i < |s| => if s[i] == a then b else s[i])
  }

  function ActionKey(p: TextPolicy, s: string): string {
    Replaced(Replaced(p.lower(Text.Strip(s)), '-', '_'), ' ', '_')
  }

  function Alias(key: string): Option<string> {
    if key == TOOL || key == "tool_call" || key == "call_tool" then Some(TOOL)
    else if key == FINAL || key == "final_answer" || key == "finish" then Some(FINAL)
    else None
  }

  function ActionOf(p: TextPolicy, s: string): Option<string> { Alias(ActionKey(p, s)) }

  /** `d.get(k)`, with None for a missing key. */
  function Value(d: Fields, k: string): Json {
    match Get(d, k) case Some(v) => v case None => Null
  }

  /** The tool a payload without an action names. */
  function ExplicitTool(d: Fields): Json {
    match Get(d, TOOL_NAME) case Some(v) => v case None => Value(d, TOOL)
  }

  function WithAction(p: TextPolicy, d: Fields): Fields {
    match Value(d, NEXT_ACTION)
    case Str(s) =>
      (match ActionOf(p, s) case Some(a) => Put(d, NEXT_ACTION, Str(a)) case None => d)
    case Null =>
      if ExplicitTool(d).Str? && ExplicitTool(d).s != "" then Put(d, NEXT_ACTION, Str(TOOL)) else d
    case _ => d
  }

  /** `d[to] = d.pop(from)` when only the old name is used. */
  function Renamed(d: Fields, previous: string, name: string): Fields {
    match (Get(d, name), Get(d, previous))
    case (None, Some(v)) => Put(Without(d, previous), name, v)
    case _ => d
  }

  function Cleared(d: Fields, k: string, blank: Json): Fields {
    if Get(d, k) == Some(blank) then Put(d, k, Null) else d
  }

  function WithFields(d: Fields): Fields {
    if Value(d, NEXT_ACTION) == Str(TOOL) then Renamed(Renamed(d, TOOL, TOOL_NAME), ARGUMENTS, TOOL_ARGUMENTS)
    else if Value(d, NEXT_ACTION) == Str(FINAL) then
      Cleared(Cleared(d, TOOL_NAME, Str("")), TOOL_ARGUMENTS, Obj([]))
    else d
  }

  function Normalized(p: TextPolicy, v: Json): Json {
    if v.Obj? then Obj(WithFields(WithAction(p, v.fields))) else v
  }

  // ---- Validation

  predicate Bounded(v: Json) { v.Str? && 1 <= |v.s| <= 500 }

  predicate KnownFields(d: Fields) {
    forall i :: 0 <= i < |d| ==> d[i].key in [GOAL, NEXT_ACTION, TOOL_NAME, TOOL_ARGUMENTS, REASON, EXPECTED]
  }

  predicate Described(d: Fields) {
    KnownFields(d) && Bounded(Value(d, GOAL)) && Bounded(Value(d, REASON)) && Bounded(Value(d, EXPECTED))
  }

  function DecisionOf(d: Fields, request: Option<ToolRequest>): Decision
    requires Described(d)
  {
    Decision(Value(d, GOAL).s, request, Value(d, REASON).s, Value(d, EXPECTED).s)
  }

  /** `PlannerDecision.model_validate`. */
  function ParseDecision(p: TextPolicy, v: Json): Option<Decision> {
    var n := Normalized(p, v);
    if !n.Obj? || !Described(n.fields) then None
    else
      var d := n.fields;
      var name, arguments := Value(d, TOOL_NAME), Value(d, TOOL_ARGUMENTS);
      if !(name.Null? || (name.Str? && |name.s| <= 80)) || !(arguments.Null? || arguments.Obj?) then None
      else if Value(d, NEXT_ACTION) == Str(TOOL) then
        if name.Str? && name.s != "" && arguments.Obj? then
          Some(DecisionOf(d, Some(ToolRequest(name.s, arguments.fields))))
        else None
      else if Value(d, NEXT_ACTION) == Str(FINAL) && name.Null? && arguments.Null? then Some(DecisionOf(d, None))
      else None
  }

  /** `_normalize_required_tool_payload`: fill in the literals the server already decided. */
  function Completed(p: TextPolicy, v: Json, tool: string): Json {
    var n := Normalized(p, v);
    if !n.Obj? then n
    else
      var d := if Value(n.fields, NEXT_ACTION).Null? then Put(n.fields, NEXT_ACTION, Str(TOOL)) else n.fields;
      var blank := Value(d, TOOL_NAME).Null? || Value(d, TOOL_NAME) == Str("");
      Normalized(p, Obj(if Value(d, NEXT_ACTION) == Str(TOOL) && blank then Put(d, TOOL_NAME, Str(tool)) else d))
  }

  /** Validation against the schema of a mandatory tool; the arguments come back as the
      schema dumps them. */
  function ParseRequired(sv: Server, v: Json, tool: string): Option<Decision> {
    var n := Completed(sv.text, v, tool);
    if !n.Obj? || !Described(n.fields) then None
    else
      var d := n.fields;
      if Value(d, NEXT_ACTION) != Str(TOOL) || Value(d, TOOL_NAME) != Str(tool) then None
      else
        match Value(d, TOOL_ARGUMENTS)
        case Obj(fields) =>
          if sv.validate(tool, fields).None? then None
          else Some(DecisionOf(d, Some(ToolRequest(tool, sv.dumped(tool, fields)))))
        case _ => None
  }

  /** `model_dump` of a required decision. */
  function Dump(d: Decision): Json
    requires d.request.Some?
  {
    Obj([Entry(GOAL, Str(d.goal)), Entry(NEXT_ACTION, Str(TOOL)), Entry(TOOL_NAME, Str(d.request.value.toolName)),
         Entry(TOOL_ARGUMENTS, Obj(d.request.value.arguments)), Entry(REASON, Str(d.reason)),
         Entry(EXPECTED, Str(d.expected))])
  }

  // ---- Laws

  lemma FieldNamesDiffer()
    ensures |NEXT_ACTION| == 11 && |TOOL_NAME| == 9 && |TOOL| == 4 && |TOOL_ARGUMENTS| == 14 && |ARGUMENTS| == 9
    ensures |GOAL| == 4 && |REASON| == 14 && |EXPECTED| == 17 && |FINAL| == 5
    ensures GOAL != TOOL && TOOL_NAME != ARGUMENTS && TOOL_ARGUMENTS != REASON
  {
    assert GOAL[0] == 'g' && TOOL[0] == 't' && TOOL_NAME[0] == 't' && ARGUMENTS[0] == 'a';
    assert TOOL_ARGUMENTS[0] == 't' && REASON[0] == 'r';
  }

  lemma ActionsAreFixed(p: TextPolicy)
    requires KeepsPlain(p)
    ensures ActionOf(p, TOOL) == Some(TOOL) && ActionOf(p, FINAL) == Some(FINAL)
  {
    assert Plain(TOOL) && Plain(FINAL);
    assert Text.Strip(TOOL) == TOOL && Text.Strip(FINAL) == FINAL;
    assert ActionKey(p, TOOL) == TOOL && ActionKey(p, FINAL) == FINAL;
  }

  lemma GetPutAll(d: Fields, k: string, v: Json)
    ensures forall x :: Get(Put(d, k, v), x) == if x == k then Some(v) else Get(d, x)
  {
    forall x ensures Get(Put(d, k, v), x) == if x == k then Some(v) else Get(d, x) {
      GetPut(d, k, v, x);
    }
  }

  lemma GetWithoutAll(d: Fields, k: string)
    ensures forall x :: Get(Without(d, k), x) == if x == k then None else Get(d, x)
  {
    forall x ensures Get(Without(d, k), x) == if x == k then None else Get(d, x) {
      GetWithout(d, k, x);
    }
  }

  lemma RenamedFields(d: Fields, previous: string, name: string)
    requires previous != name
    ensures var r := Renamed(d, previous, name);
            && (forall x :: x != previous && x != name ==> Get(r, x) == Get(d, x))
            && (Get(r, name).Some? || (Get(r, previous).None? && r == d))
            && Get(r, name) == if Get(d, name).Some? then Get(d, name) else Get(d, previous)
  {
    hide Get, Put, Without;
    if Get(d, name).None? && Get(d, previous).Some? {
      GetWithoutAll(d, previous);
      GetPutAll(Without(d, previous), name, Get(d, previous).value);
    }
  }

  lemma ClearedFields(d: Fields, k: string, blank: Json)
    requires !blank.Null?
    ensures var r := Cleared(d, k, blank);
            && (forall x :: x != k ==> Get(r, x) == Get(d, x))
            && Get(r, k) != Some(blank)
            && Get(r, k) == if Get(d, k) == Some(blank) then Some(Null) else Get(d, k)
  {
    hide Get, Put;
    GetPutAll(d, k, Null);
  }

  /** Moving or clearing fields keeps the action, and doing it again does nothing. */
  lemma FieldsSettle(d: Fields)
    ensures Get(WithFields(d), NEXT_ACTION) == Get(d, NEXT_ACTION) && WithFields(WithFields(d)) == WithFields(d)
  {
    FieldNamesDiffer();
    hide Get, NEXT_ACTION, TOOL_NAME, TOOL, TOOL_ARGUMENTS, ARGUMENTS, FINAL, Put, Without;
    if Value(d, NEXT_ACTION) == Str(TOOL) {
      hide Renamed;
      RenamedFields(d, TOOL, TOOL_NAME);
      var once := Renamed(d, TOOL, TOOL_NAME);
      RenamedFields(once, ARGUMENTS, TOOL_ARGUMENTS);
      var twice := Renamed(once, ARGUMENTS, TOOL_ARGUMENTS);
      RenamedAgain(twice, TOOL, TOOL_NAME);
      RenamedAgain(twice, ARGUMENTS, TOOL_ARGUMENTS);
      RenamedAgain(once, TOOL, TOOL_NAME);
    } else if Value(d, NEXT_ACTION) == Str(FINAL) {
      hide Cleared;
      ClearedFields(d, TOOL_NAME, Str(""));
      var once := Cleared(d, TOOL_NAME, Str(""));
      ClearedFields(once, TOOL_ARGUMENTS, Obj([]));
      ClearedAgain(Cleared(once, TOOL_ARGUMENTS, Obj([])), TOOL_NAME, Str(""));
      ClearedAgain(Cleared(once, TOOL_ARGUMENTS, Obj([])), TOOL_ARGUMENTS, Obj([]));
    }
  }

  lemma RenamedAgain(d: Fields, previous: string, name: string)
    ensures Get(d, name).Some? || Get(d, previous).None? ==> Renamed(d, previous, name) == d
  {
  }

  lemma ClearedAgain(d: Fields, k: string, blank: Json)
    ensures Get(d, k) != Some(blank) ==> Cleared(d, k, blank) == d
  {
  }

  lemma ActionSettles(p: TextPolicy, d: Fields, e: Fields)
    requires KeepsPlain(p) && Get(e, NEXT_ACTION) == Get(WithAction(p, d), NEXT_ACTION)
    requires Value(WithAction(p, d), NEXT_ACTION) in [Str(TOOL), Str(FINAL)] || e == WithAction(p, d)
    ensures WithAction(p, e) == e
  {
    ActionsAreFixed(p);
    FieldNamesDiffer();
    hide ActionOf, NEXT_ACTION, TOOL, FINAL, TOOL_NAME, Get, Put, KeepsPlain;
    match Value(d, NEXT_ACTION)
    case Str(s) =>
      if ActionOf(p, s).Some? {
        GetPutAll(d, NEXT_ACTION, Str(ActionOf(p, s).value));
        AliasIsAction(p, s);
        PutSame(e, NEXT_ACTION, Str(ActionOf(p, s).value));
      }
    case Null =>
      if ExplicitTool(d).Str? && ExplicitTool(d).s != "" {
        GetPutAll(d, NEXT_ACTION, Str(TOOL));
        PutSame(e, NEXT_ACTION, Str(TOOL));
      }
    case _ =>
  }

  lemma AliasIsAction(p: TextPolicy, s: string)
    requires ActionOf(p, s).Some?
    ensures ActionOf(p, s).value == TOOL || ActionOf(p, s).value == FINAL
  {
    hide ActionKey, TOOL, FINAL;
  }

  /** Normalizing a payload twice is normalizing it once. */
  lemma NormalizationSettles(p: TextPolicy, v: Json)
    requires KeepsPlain(p)
    ensures Normalized(p, Normalized(p, v)) == Normalized(p, v)
  {
    hide WithAction, Get, NEXT_ACTION, TOOL, FINAL, TOOL_NAME, KeepsPlain;
    if v.Obj? {
      var d := WithAction(p, v.fields);
      FieldsSettle(d);
      ActionSettles(p, v.fields, WithFields(d));
    }
  }

  lemma ActionOnly(p: TextPolicy, d: Fields)
    ensures forall x :: x != NEXT_ACTION ==> Get(WithAction(p, d), x) == Get(d, x)
  {
    hide Get, Put, ActionOf;
    forall a ensures forall x :: x != NEXT_ACTION ==> Get(Put(d, NEXT_ACTION, Str(a)), x) == Get(d, x) {
      GetPutAll(d, NEXT_ACTION, Str(a));
    }
  }

  /** The value under a name, or under its older name when only that one is used. */
  function Either(d: Fields, name: string, previous: string): Option<Json> {
    if Get(d, name).Some? then Get(d, name) else Get(d, previous)
  }

  function Blanked(v: Option<Json>, blank: Json): Option<Json> { if v == Some(blank) then Some(Null) else v }

  /** Normalization renames fields and clears blanks, and loses or invents nothing else: the
      tool and the arguments a payload names stay the ones it named. */
  lemma NormalizationKeepsValues(p: TextPolicy, d: Fields)
    ensures var n := Normalized(p, Obj(d)).fields;
            && (forall x :: x !in [NEXT_ACTION, TOOL, TOOL_NAME, ARGUMENTS, TOOL_ARGUMENTS] ==> Get(n, x) == Get(d, x))
            && (Value(n, NEXT_ACTION) == Str(TOOL) ==>
                  && Get(n, TOOL_NAME) == Either(d, TOOL_NAME, TOOL)
                  && Get(n, TOOL_ARGUMENTS) == Either(d, TOOL_ARGUMENTS, ARGUMENTS))
            && (Value(n, NEXT_ACTION) == Str(FINAL) ==>
                  && Get(n, TOOL_NAME) == Blanked(Get(d, TOOL_NAME), Str(""))
                  && Get(n, TOOL_ARGUMENTS) == Blanked(Get(d, TOOL_ARGUMENTS), Obj([]))
                  && Get(n, TOOL) == Get(d, TOOL) && Get(n, ARGUMENTS) == Get(d, ARGUMENTS))
            && (Value(n, NEXT_ACTION) !in [Str(TOOL), Str(FINAL)] ==> n == d)
  {
    FieldNamesDiffer();
    hide Get, Put, Without, NEXT_ACTION, TOOL, FINAL, TOOL_NAME, ARGUMENTS, TOOL_ARGUMENTS, WithAction, Renamed;
    hide Cleared;
    var a := WithAction(p, d);
    ActionOnly(p, d);
    FieldsSettle(a);
    UnknownActionUnchanged(p, d);
    if Value(a, NEXT_ACTION) == Str(TOOL) {
      RenamedFields(a, TOOL, TOOL_NAME);
      RenamedFields(Renamed(a, TOOL, TOOL_NAME), ARGUMENTS, TOOL_ARGUMENTS);
    } else if Value(a, NEXT_ACTION) == Str(FINAL) {
      ClearedFields(a, TOOL_NAME, Str(""));
      ClearedFields(Cleared(a, TOOL_NAME, Str("")), TOOL_ARGUMENTS, Obj([]));
    }
  }

  lemma UnknownActionUnchanged(p: TextPolicy, d: Fields)
    ensures Value(WithAction(p, d), NEXT_ACTION) !in [Str(TOOL), Str(FINAL)] ==> WithAction(p, d) == d
  {
    hide Get, Put, ActionOf, NEXT_ACTION, TOOL, FINAL, TOOL_NAME;
    match Value(d, NEXT_ACTION)
    case Str(s) =>
      if ActionOf(p, s).Some? {
        AliasIsAction(p, s);
        GetPutAll(d, NEXT_ACTION, Str(ActionOf(p, s).value));
      }
    case Null => GetPutAll(d, NEXT_ACTION, Str(TOOL));
    case _ =>
  }

  /** A payload and its normal form read as the same decision, or both fail. */
  lemma NormalFormReadsTheSame(p: TextPolicy, v: Json)
    requires KeepsPlain(p)
    ensures ParseDecision(p, Normalized(p, v)) == ParseDecision(p, v)
  {
    hide Normalized, KeepsPlain, Described, Value;
    NormalizationSettles(p, v);
  }

  /** A decision either names a tool of bounded length or carries no tool fields. */
  lemma DecisionShape(p: TextPolicy, v: Json)
    requires ParseDecision(p, v).Some?
    ensures var d, n := ParseDecision(p, v).value, Normalized(p, v);
            && n.Obj? && KnownFields(n.fields)
            && 1 <= |d.goal| <= 500 && 1 <= |d.reason| <= 500 && 1 <= |d.expected| <= 500
            && (d.request.Some? ==> 1 <= |d.request.value.toolName| <= 80 && Value(n.fields, NEXT_ACTION) == Str(TOOL))
            && (d.request.None? ==>
                  && Value(n.fields, NEXT_ACTION) == Str(FINAL)
                  && Value(n.fields, TOOL_NAME).Null? && Value(n.fields, TOOL_ARGUMENTS).Null?)
  {
    hide Normalized, KnownFields, Get;
    assert |TOOL| == 4 && |FINAL| == 5;
  }

  /** A required decision is always a request for the mandatory tool. */
  lemma RequiredIsTheTool(sv: Server, v: Json, tool: string)
    ensures var d := ParseRequired(sv, v, tool);
            d.Some? ==> d.value.request.Some? && d.value.request.value.toolName == tool
  {
    hide Completed, Described, Value;
  }

  /** The payload names this tool, under the field's name or its alias. */
  predicate NamesTool(d: Fields, named: string) {
    || Get(d, TOOL_NAME) == Some(Str(named))
    || (Get(d, TOOL_NAME).None? && Get(d, TOOL) == Some(Str(named)))
  }

  lemma NamedStays(p: TextPolicy, d: Fields, named: string)
    requires named != "" && NamesTool(d, named)
    ensures var n := Normalized(p, Obj(d));
            && n.Obj? && NamesTool(n.fields, named) && !Value(n.fields, NEXT_ACTION).Null?
            && (Value(n.fields, NEXT_ACTION) == Str(TOOL) ==> Get(n.fields, TOOL_NAME) == Some(Str(named)))
  {
    hide Get, Put, Normalized, NEXT_ACTION, TOOL, FINAL, TOOL_NAME, ARGUMENTS, TOOL_ARGUMENTS, ActionOf;
    FieldNamesDiffer();
    NormalIsObject(p, d);
    NormalizationKeepsValues(p, d);
    NamedHasAction(p, d, named);
  }

  lemma NamedHasAction(p: TextPolicy, d: Fields, named: string)
    requires named != "" && NamesTool(d, named)
    ensures !Value(Normalized(p, Obj(d)).fields, NEXT_ACTION).Null?
  {
    hide Get, Put, NEXT_ACTION, TOOL, FINAL, TOOL_NAME, ARGUMENTS, TOOL_ARGUMENTS, ActionOf, WithFields;
    FieldsSettle(WithAction(p, d));
    GetPutAll(d, NEXT_ACTION, Str(TOOL));
    match Value(d, NEXT_ACTION)
    case Str(s) =>
      if ActionOf(p, s).Some? {
        GetPutAll(d, NEXT_ACTION, Str(ActionOf(p, s).value));
      }
    case _ =>
  }

  /** A tool the planner did name, under either field name, is never replaced, not even by the
      mandatory one. */
  lemma RequiredNeverOverrides(sv: Server, d: Fields, tool: string, named: string)
    requires named != "" && named != tool && NamesTool(d, named)
    ensures ParseRequired(sv, Obj(d), tool).None?
  {
    hide Get, Put, Normalized, NEXT_ACTION, TOOL, FINAL, TOOL_NAME, ARGUMENTS, TOOL_ARGUMENTS, Described, NamesTool;
    NamedStays(sv.text, d, named);
    var n := Normalized(sv.text, Obj(d)).fields;
    NamedStays(sv.text, n, named);
    assert Completed(sv.text, Obj(d), tool) == Normalized(sv.text, Obj(n));
  }

  lemma NormalIsObject(p: TextPolicy, d: Fields)
    ensures Normalized(p, Obj(d)).Obj?
  {
  }

  lemma DumpedFields(d: Decision)
    requires d.request.Some?
    ensures var f := Dump(d).fields;
            && KnownFields(f) && UniqueKeys(f) && Value(f, GOAL) == Str(d.goal) && Value(f, NEXT_ACTION) == Str(TOOL)
            && Get(f, TOOL_NAME) == Some(Str(d.request.value.toolName))
            && Get(f, TOOL_ARGUMENTS) == Some(Obj(d.request.value.arguments))
            && Value(f, REASON) == Str(d.reason) && Value(f, EXPECTED) == Str(d.expected)
  {
    FieldNamesDiffer();
    var f := Dump(d).fields;
    hide NEXT_ACTION, TOOL_NAME, TOOL, TOOL_ARGUMENTS, GOAL, REASON, EXPECTED, Get;
    assert f[0].key == GOAL && f[1].key == NEXT_ACTION && f[2].key == TOOL_NAME && f[3].key == TOOL_ARGUMENTS;
    assert f[4].key == REASON && f[5].key == EXPECTED;
    GetByKey(f, 0);
    GetByKey(f, 1);
    GetByKey(f, 2);
    GetByKey(f, 3);
    GetByKey(f, 4);
    GetByKey(f, 5);
  }

  lemma DumpIsNormal(p: TextPolicy, d: Decision)
    requires KeepsPlain(p) && d.request.Some?
    ensures Normalized(p, Dump(d)) == Dump(d)
  {
    DumpedFields(d);
    ActionsAreFixed(p);
    hide Dump, NEXT_ACTION, TOOL_NAME, TOOL, TOOL_ARGUMENTS, ARGUMENTS, FINAL, Get, Put, ActionOf, KeepsPlain;
    hide KnownFields;
    var f := Dump(d).fields;
    assert Dump(d) == Obj(f);
    PutSame(f, NEXT_ACTION, Str(TOOL));
    RenamedAgain(f, TOOL, TOOL_NAME);
    RenamedAgain(f, ARGUMENTS, TOOL_ARGUMENTS);
  }

  /** Turning a required decision into a planner decision never fails and changes nothing. */
  lemma RequiredConverts(sv: Server, v: Json, tool: string)
    requires KeepsPlain(sv.text) && 1 <= |tool| <= 80 && ParseRequired(sv, v, tool).Some?
    ensures var d := ParseRequired(sv, v, tool).value;
            d.request.Some? && ParseDecision(sv.text, Dump(d)) == Some(d)
  {
    var d := ParseRequired(sv, v, tool).value;
    RequiredIsTheTool(sv, v, tool);
    DumpedFields(d);
    DumpIsNormal(sv.text, d);
    hide Dump, NEXT_ACTION, TOOL_NAME, TOOL, TOOL_ARGUMENTS, GOAL, REASON, EXPECTED, FINAL, Get, Normalized;
    hide Completed, KnownFields;
    hide KeepsPlain;
    assert Dump(d).Obj?;
  }

  // ---- What is accepted

  /** The text of an action: stripped and lowered, with hyphens and spaces read as underscores. */
  ghost predicate ReadsAs(p: TextPolicy, s: string, key: string) {
    var line := p.lower(Text.Strip(s));
    && |key| == |line|
    && forall i :: 0 <= i < |key| ==> key[i] == if line[i] == '-' || line[i] == ' ' then '_' else line[i]
  }

  /** Three names mean a tool call, three others the end, and nothing else means anything. */
  lemma ActionNames(p: TextPolicy, s: string, key: string)
    requires ReadsAs(p, s, key)
    ensures ActionOf(p, s) == Some("tool") <==> key == "tool" || key == "tool_call" || key == "call_tool"
    ensures ActionOf(p, s) == Some("final") <==> key == "final" || key == "final_answer" || key == "finish"
    ensures ActionOf(p, s) in [None, Some("tool"), Some("final")]
  {
    hide Text.Strip;
    assert ActionKey(p, s) == key;
    assert |TOOL| == 4 && |FINAL| == 5;
  }

  /** The action of a normal form: the one the text names, a tool call when none is given but a
      tool is named, and otherwise whatever was there. */
  lemma NormalAction(p: TextPolicy, d: Fields)
    ensures var action, n := Value(d, NEXT_ACTION), Value(Normalized(p, Obj(d)).fields, NEXT_ACTION);
            && (action.Str? ==>
                  n == match ActionOf(p, action.s) case Some(a) => Str(a) case None => action)
            && (action.Null? ==> n == if exists named :: named != "" && NamesTool(d, named) then Str(TOOL) else Null)
            && (!action.Str? && !action.Null? ==> n == action)
  {
    hide Get, Put, NEXT_ACTION, TOOL, FINAL, TOOL_NAME, ARGUMENTS, TOOL_ARGUMENTS, ActionOf, WithFields;
    FieldsSettle(WithAction(p, d));
    GetPutAll(d, NEXT_ACTION, Str(TOOL));
    match Value(d, NEXT_ACTION)
    case Str(s) =>
      if ActionOf(p, s).Some? {
        GetPutAll(d, NEXT_ACTION, Str(ActionOf(p, s).value));
      }
    case Null =>
      if ExplicitTool(d).Str? && ExplicitTool(d).s != "" {
        assert NamesTool(d, ExplicitTool(d).s);
      }
    case _ =>
  }

  predicate Absent(d: Fields, k: string) { Value(d, k) == Null }

  /** The six fields of a decision. */
  predicate IsDecisionField(k: string) {
    || k == "goal" || k == "next_action" || k == "tool_name" || k == "tool_arguments" || k == "reason_summary"
    || k == "expected_evidence"
  }

  lemma KnownIff(d: Fields)
    ensures KnownFields(d) <==> forall k :: HasKey(d, k) ==> IsDecisionField(k)
  {
    forall k ensures k in [GOAL, NEXT_ACTION, TOOL_NAME, TOOL_ARGUMENTS, REASON, EXPECTED] <==> IsDecisionField(k) {
      FieldIff(k);
    }
    hide GOAL, NEXT_ACTION, TOOL_NAME, TOOL_ARGUMENTS, REASON, EXPECTED, IsDecisionField;
    forall i | 0 <= i < |d| ensures HasKey(d, d[i].key) {
    }
  }

  lemma FieldIff(k: string)
    ensures k in [GOAL, NEXT_ACTION, TOOL_NAME, TOOL_ARGUMENTS, REASON, EXPECTED] <==> IsDecisionField(k)
  {
    var names := [GOAL, NEXT_ACTION, TOOL_NAME, TOOL_ARGUMENTS, REASON, EXPECTED];
    assert names[0] == "goal" && names[1] == "next_action" && names[2] == "tool_name";
    assert names[3] == "tool_arguments" && names[4] == "reason_summary" && names[5] == "expected_evidence";
  }

  /** The normal form spells out this decision, and nothing else. */
  ghost predicate Spells(d: Fields, decision: Decision) {
    && (forall k :: HasKey(d, k) ==> IsDecisionField(k))
    && Value(d, "goal") == Str(decision.goal) && 1 <= |decision.goal| <= 500
    && Value(d, "reason_summary") == Str(decision.reason) && 1 <= |decision.reason| <= 500
    && Value(d, "expected_evidence") == Str(decision.expected) && 1 <= |decision.expected| <= 500
    && match decision.request
       case Some(request) =>
         && Value(d, "next_action") == Str("tool")
         && Value(d, "tool_name") == Str(request.toolName) && 1 <= |request.toolName| <= 80
         && Value(d, "tool_arguments") == Obj(request.arguments)
       case None => Value(d, "next_action") == Str("final") && Absent(d, "tool_name") && Absent(d, "tool_arguments")
  }

  /** A payload is read as a decision exactly when its normal form spells that decision. */
  lemma DecisionIff(p: TextPolicy, v: Json, decision: Decision)
    ensures ParseDecision(p, v) == Some(decision) <==>
      Normalized(p, v).Obj? && Spells(Normalized(p, v).fields, decision)
  {
    hide Normalized, KnownFields, Get, HasKey, IsDecisionField;
    assert |TOOL| == 4 && |FINAL| == 5;
    if Normalized(p, v).Obj? {
      KnownIff(Normalized(p, v).fields);
    }
  }

  lemma {:induction false} PutKeepsKnown(d: Fields, k: string, v: Json)
    requires KnownFields(d) && KnownFields([Entry(k, v)])
    ensures KnownFields(Put(d, k, v))
  {
    if d != [] {
      assert forall i :: 0 <= i < |d[1..]| ==> d[1..][i] == d[i + 1];
      assert [Entry(k, v)][0].key == k;
      if d[0].key != k {
        PutKeepsKnown(d[1..], k, v);
      }
    }
  }

  lemma NamesAreKnown(v: Json)
    ensures KnownFields([Entry(NEXT_ACTION, v)]) && KnownFields([Entry(TOOL_NAME, v)])
    ensures forall d :: KnownFields(d) ==> Get(d, TOOL).None? && Get(d, ARGUMENTS).None?
  {
    FieldNamesDiffer();
    hide Get, NEXT_ACTION, TOOL_NAME, TOOL, TOOL_ARGUMENTS, ARGUMENTS, GOAL, REASON, EXPECTED;
    forall d | KnownFields(d) ensures Get(d, TOOL).None? && Get(d, ARGUMENTS).None? {
      GetSome(d, TOOL);
      GetSome(d, ARGUMENTS);
    }
  }

  /** The payload's normal form leaves the tool open. */
  predicate LeavesToolOpen(d: Fields) {
    && (Absent(d, NEXT_ACTION) || Value(d, NEXT_ACTION) == Str(TOOL))
    && (Absent(d, TOOL_NAME) || Value(d, TOOL_NAME) == Str(""))
  }

  lemma CompletedIs(p: TextPolicy, v: Json, tool: string)
    requires KeepsPlain(p) && Normalized(p, v).Obj? && KnownFields(Normalized(p, v).fields)
    requires LeavesToolOpen(Normalized(p, v).fields)
    ensures var n, c := Normalized(p, v).fields, Completed(p, v, tool);
            && c.Obj? && KnownFields(c.fields)
            && Value(c.fields, NEXT_ACTION) == Str(TOOL) && Value(c.fields, TOOL_NAME) == Str(tool)
            && forall k :: k != NEXT_ACTION && k != TOOL_NAME ==> Value(c.fields, k) == Value(n, k)
  {
    FieldNamesDiffer();
    ActionsAreFixed(p);
    NamesAreKnown(Str(TOOL));
    NamesAreKnown(Str(tool));
    hide Get, Put, Without, KnownFields, KeepsPlain, ActionOf, Normalized, TOOL, TOOL_NAME, NEXT_ACTION, ARGUMENTS;
    hide TOOL_ARGUMENTS, FINAL;
    var n := Normalized(p, v).fields;
    var d := if Value(n, NEXT_ACTION).Null? then Put(n, NEXT_ACTION, Str(TOOL)) else n;
    GetPutAll(n, NEXT_ACTION, Str(TOOL));
    PutKeepsKnown(n, NEXT_ACTION, Str(TOOL));
    var e := Put(d, TOOL_NAME, Str(tool));
    GetPutAll(d, TOOL_NAME, Str(tool));
    PutKeepsKnown(d, TOOL_NAME, Str(tool));
    SpelledOutIsNormal(p, e);
    assert Completed(p, v, tool) == Normalized(p, Obj(e));
  }

  lemma SpelledOutIsNormal(p: TextPolicy, e: Fields)
    requires KeepsPlain(p) && KnownFields(e) && Value(e, NEXT_ACTION) == Str(TOOL)
    ensures Normalized(p, Obj(e)) == Obj(e)
  {
    FieldNamesDiffer();
    ActionsAreFixed(p);
    NamesAreKnown(Null);
    hide Get, Put, Without, KnownFields, KeepsPlain, ActionOf, TOOL, TOOL_NAME, NEXT_ACTION, ARGUMENTS;
    hide TOOL_ARGUMENTS, FINAL;
    PutSame(e, NEXT_ACTION, Str(TOOL));
    RenamedAgain(e, TOOL, TOOL_NAME);
    RenamedAgain(e, ARGUMENTS, TOOL_ARGUMENTS);
  }

  /** Where the server requires a tool, a payload that leaves it open and gives arguments the
      tool accepts is read as the call of that tool, with the arguments as its schema dumps
      them. */
  lemma RequiredFillsIn(sv: Server, v: Json, tool: string, arguments: Fields)
    requires KeepsPlain(sv.text) && Normalized(sv.text, v).Obj?
    requires var n := Normalized(sv.text, v).fields;
             && Described(n) && LeavesToolOpen(n) && Value(n, TOOL_ARGUMENTS) == Obj(arguments)
    requires sv.validate(tool, arguments).Some?
    ensures var n := Normalized(sv.text, v).fields;
            ParseRequired(sv, v, tool)
            == Some(Decision(Value(n, "goal").s, Some(ToolRequest(tool, sv.dumped(tool, arguments))),
                             Value(n, "reason_summary").s, Value(n, "expected_evidence").s))
  {
    FieldNamesDiffer();
    hide Get, Normalized, KnownFields, KeepsPlain, LeavesToolOpen, Completed;
    CompletedIs(sv.text, v, tool);
    assert GOAL != TOOL_NAME && REASON != TOOL_NAME && EXPECTED != TOOL_NAME;
  }

  /** And nothing is read as that call without arguments the tool's schema accepts. */
  lemma RequiredIsValid(sv: Server, v: Json, tool: string)
    requires ParseRequired(sv, v, tool).Some?
    ensures var n, d := Completed(sv.text, v, tool), ParseRequired(sv, v, tool).value;
            && n.Obj? && Described(n.fields) && Value(n.fields, TOOL_ARGUMENTS).Obj?
            && var arguments := Value(n.fields, TOOL_ARGUMENTS).fields;
            && sv.validate(tool, arguments).Some?
            && d.request == Some(ToolRequest(tool, sv.dumped(tool, arguments)))
            && Value(n.fields, GOAL) == Str(d.goal) && Value(n.fields, REASON) == Str(d.reason)
            && Value(n.fields, EXPECTED) == Str(d.expected)
  {
    hide Completed, KnownFields, Get;
  }

  /** The step-by-step form. */
  method NormalizePlannerPayload(p: TextPolicy, value: Json) returns (r: Json)
    ensures r == Normalized(p, value)
  {
    if !value.Obj? {
      return value;
    }
    var payload := value.fields;
    var rawAction := Value(payload, NEXT_ACTION);
    if rawAction.Str? {
      var action := ActionOf(p, rawAction.s);
      if action.Some? {
        payload := Put(payload, NEXT_ACTION, Str(action.value));
      }
    } else if rawAction.Null? {
      var explicit := ExplicitTool(payload);
      if explicit.Str? && explicit.s != "" {
        payload := Put(payload, NEXT_ACTION, Str(TOOL));
      }
    }
    assert payload == WithAction(p, value.fields);
    hide WithAction, Get, Put, Without, ActionOf, ExplicitTool;
    var action := Value(payload, NEXT_ACTION);
    if action == Str(TOOL) {
      if Get(payload, TOOL_NAME).None? && Get(payload, TOOL).Some? {
        var moved := Get(payload, TOOL).value;
        payload := Without(payload, TOOL);
        payload := Put(payload, TOOL_NAME, moved);
      }
      if Get(payload, TOOL_ARGUMENTS).None? && Get(payload, ARGUMENTS).Some? {
        var moved := Get(payload, ARGUMENTS).value;
        payload := Without(payload, ARGUMENTS);
        payload := Put(payload, TOOL_ARGUMENTS, moved);
      }
    } else if action == Str(FINAL) {
      if Get(payload, TOOL_NAME) == Some(Str("")) {
        payload := Put(payload, TOOL_NAME, Null);
      }
      if Get(payload, TOOL_ARGUMENTS) == Some(Obj([])) {
        payload := Put(payload, TOOL_ARGUMENTS, Null);
      }
    }
    r := Obj(payload);
  }
}
