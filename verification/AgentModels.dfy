/** Values exchanged by the controlled agent: references, tool results, planner decisions
    and final responses (app/agent/models.py). */
module AgentModels {
  import opened Dict
  import opened Json
  import opened Sanitization

  datatype Limits = Limits(maxSteps: nat, maxToolCalls: nat, maxRepeatedToolCalls: nat, maxRetrievalChunks: nat,
                           maxDuration: nat, modelRetries: nat, repairAttempts: nat)

  /** The ranges and the cross-field rule the configuration enforces. */
  predicate ValidLimits(l: Limits) {
    && 2 <= l.maxSteps <= 20 && 1 <= l.maxToolCalls < l.maxSteps && 1 <= l.maxRepeatedToolCalls <= 3
    && 1 <= l.maxRetrievalChunks <= 8 && 1 <= l.modelRetries <= 10 && l.repairAttempts <= 5
  }

  const GET_INCIDENT := "get_incident"
  const RETRIEVE_RUNBOOKS := "retrieve_runbooks"
  const SIMILAR_INCIDENTS := "search_similar_incidents"
  const PREVIOUS_RESOLUTIONS := "get_previous_resolutions"
  const RESOLUTION_CONTEXT := "get_incident_resolution_context"
  const SUMMARIZE_EVIDENCE := "summarize_evidence"
  const MAX_REFERENCES := 20

  datatype ReferenceKind = IncidentRef | RunbookRef | SimilarIncidentRef | ResolutionRef

  datatype Reference = Reference(kind: ReferenceKind, referenceId: string, sourceId: Option<string>,
                                 chunkId: Option<int>)

  datatype ToolResult = ToolResult(toolName: string, summary: string, data: Fields, references: seq<Reference>,
                                   durationMs: real)

  datatype ToolRequest = ToolRequest(toolName: string, arguments: Fields)

  datatype FinalResponse = FinalResponse(summary: string, rootCause: string, actions: seq<string>, confidence: real,
                                         cited: seq<(string, int)>, evidenceSummary: string, toolsUsed: seq<string>,
                                         limitations: seq<string>, escalation: bool, review: bool)

  // ---- Tool results as JSON columns

  function KindName(k: ReferenceKind): string {
    match k
    case IncidentRef => "incident"
    case RunbookRef => "runbook"
    case SimilarIncidentRef => "similar_incident"
    case ResolutionRef => "resolution"
  }

  function KindOf(name: string): Option<ReferenceKind> {
    if name == "incident" then Some(IncidentRef)
    else if name == "runbook" then Some(RunbookRef)
    else if name == "similar_incident" then Some(SimilarIncidentRef)
    else if name == "resolution" then Some(ResolutionRef)
    else None
  }

  function OptionalStr(s: Option<string>): Json { if s.Some? then Str(s.value) else Null }

  function OptionalInt(n: Option<int>): Json { if n.Some? then Num(n.value as real) else Null }

  function ReferenceJson(r: Reference): Json {
    Obj([Entry("evidence_type", Str(KindName(r.kind))), Entry("reference_id", Str(r.referenceId)),
         Entry("source_id", OptionalStr(r.sourceId)), Entry("chunk_id", OptionalInt(r.chunkId))])
  }

  function ReferencesJson(rs: seq<Reference>): (js: seq<Json>)
    ensures |js| == |rs| && forall i :: 0 <= i < |rs| ==> js[i] == ReferenceJson(rs[i])
  {
    seq(|rs|, i requires 0 <= i < |rs| => ReferenceJson(rs[i]))
  }

  /** `result.model_dump(mode="json")`. */
  function ResultJson(r: ToolResult): Json {
    Obj([Entry("tool_name", Str(r.toolName)), Entry("status", Str("succeeded")), Entry("summary", Str(r.summary)),
         Entry("data", Obj(r.data)), Entry("evidence_references", Arr(ReferencesJson(r.references))),
         Entry("duration_ms", Num(r.durationMs))])
  }

  function StrAt(fields: Fields, key: string): Option<string> {
    match Get(fields, key) { case Some(v) => if v.Str? then Some(v.s) else None case None => None }
  }

  /** The field bounds of an evidence reference. */
  predicate ValidReference(r: Reference) {
    && 1 <= |r.referenceId| <= 160
    && (r.sourceId.Some? ==> |r.sourceId.value| <= 120)
    && (r.chunkId.Some? ==> r.chunkId.value > 0)
  }

  predicate ValidResult(r: ToolResult) {
    && 1 <= |r.toolName| <= 80 && 1 <= |r.summary| <= MAX_TEXT && r.durationMs >= 0.0
    && |r.references| <= MAX_REFERENCES && forall i :: 0 <= i < |r.references| ==> ValidReference(r.references[i])
  }

  /** `EvidenceReference.model_validate`. */
  function ParseReference(j: Json): Option<Reference> {
    if !j.Obj? then None
    else
      var kind, id := StrAt(j.fields, "evidence_type"), StrAt(j.fields, "reference_id");
      var source, chunk := Get(j.fields, "source_id"), Get(j.fields, "chunk_id");
      if kind.None? || id.None? || KindOf(kind.value).None? then None
      else if source.None? || !(source.value.Str? || source.value.Null?) then None
      else if chunk.None? then None
      else if !(chunk.value.Null? || (chunk.value.Num? && chunk.value.n == chunk.value.n.Floor as real)) then None
      else
        var r := Reference(KindOf(kind.value).value, id.value,
                           if source.value.Str? then Some(source.value.s) else None,
                           if chunk.value.Num? then Some(chunk.value.n.Floor) else None);
        if ValidReference(r) then Some(r) else None
  }

  function ParseReferences(js: seq<Json>): Option<seq<Reference>> {
    if js == [] then Some([])
    else
      var first, rest := ParseReference(js[0]), ParseReferences(js[1..]);
      if first.Some? && rest.Some? then Some([first.value] + rest.value) else None
  }

  /** `ToolResult.model_validate`, on stored results. */
  function ParseResult(j: Json): Option<ToolResult> {
    if !j.Obj? then None
    else
      var name, summary := StrAt(j.fields, "tool_name"), StrAt(j.fields, "summary");
      var data, refs := Get(j.fields, "data"), Get(j.fields, "evidence_references");
      var duration := Get(j.fields, "duration_ms");
      if name.None? || summary.None? || StrAt(j.fields, "status") != Some("succeeded") then None
      else if data.None? || !data.value.Obj? || duration.None? || !duration.value.Num? then None
      else if refs.None? || !refs.value.Arr? || ParseReferences(refs.value.items).None? then None
      else
        var r := ToolResult(name.value, summary.value, data.value.fields, ParseReferences(refs.value.items).value,
                            duration.value.n);
        if ValidResult(r) then Some(r) else None
  }

  // ---- What storing and reading back a result changes

  /** Whatever is read back is a succeeded result within its bounds. */
  lemma ParsedIsValid(j: Json)
    requires ParseResult(j).Some?
    ensures ValidResult(ParseResult(j).value) && j.Obj? && StrAt(j.fields, "status") == Some("succeeded")
    ensures StrAt(j.fields, "tool_name") == Some(ParseResult(j).value.toolName)
    ensures StrAt(j.fields, "summary") == Some(ParseResult(j).value.summary)
    ensures Get(j.fields, "data") == Some(Obj(ParseResult(j).value.data))
  {
    hide StrAt, Get, ValidResult, ParseReferences;
  }

  function RestoredReference(p: TextPolicy, r: Reference): Reference {
    Reference(r.kind, CleanText(p, r.referenceId),
              if r.sourceId.Some? then Some(CleanText(p, r.sourceId.value)) else None, r.chunkId)
  }

  function RestoredReferences(p: TextPolicy, rs: seq<Reference>): (q: seq<Reference>)
    ensures |q| == |rs| && forall i :: 0 <= i < |rs| ==> q[i] == RestoredReference(p, rs[i])
  {
    seq(|rs|, i requires 0 <= i < |rs| => RestoredReference(p, rs[i]))
  }

  function RestoredResult(p: TextPolicy, r: ToolResult): ToolResult {
    ToolResult(CleanText(p, r.toolName), CleanText(p, r.summary), Sanitize(p, Obj(r.data), 1).fields,
               RestoredReferences(p, r.references), r.durationMs)
  }

  // ---- Column names survive sanitization

  /** Written in plain characters, and lacking one letter of every sensitive part. */
  predicate Column(key: string) {
    && Plain(key) && 'z' !in key && 'w' !in key
    && !('k' in key && 'o' in key) && !('k' in key && 'p' in key)
    && !('l' in key && 'r' in key && 'c' in key) && !('s' in key && 'r' in key && 't' in key && 'e' in key)
  }

  lemma MissingLetter(s: string, part: string, i: nat)
    requires i < |part| && part[i] !in s
    ensures !Contains(s, part)
  {
    forall at | 0 <= at <= |s| ensures !(part <= s[at..]) {
      if at + i < |s| {
        assert s[at..][i] == s[at + i] && s[at + i] in s;
      }
    }
  }

  lemma NoSensitivePart(key: string, i: nat)
    requires i < |SENSITIVE_PARTS| && Column(key)
    ensures !Contains(key, SENSITIVE_PARTS[i])
  {
    hide Contains, Plain;
    var missing: nat :=
      if i == 0 then 7
      else if i == 1 then if 'k' !in key then 3 else 1
      else if i == 2 then if 'c' !in key then 0 else if 'r' !in key then 1 else 9
      else if i == 3 then 4
      else if i == 4 then if 's' !in key then 0 else if 'e' !in key then 1 else if 'r' !in key then 3 else 5
      else if i == 5 then if 'k' !in key then 2 else 1
      else if i == 6 then if 'k' !in key then 4 else 1
      else if 'k' !in key then 3 else 1;
    MissingLetter(key, SENSITIVE_PARTS[i], missing);
  }

  lemma ColumnIsKept(p: TextPolicy, key: string)
    requires KeepsPlain(p) && Column(key)
    ensures Key(key) == key && !Sensitive(p, key)
  {
    assert Plain(key) && p.lower(key) == key;
    hide Column, Plain, Contains;
    forall i | 0 <= i < |SENSITIVE_PARTS| ensures !Contains(key, SENSITIVE_PARTS[i]) {
      NoSensitivePart(key, i);
    }
  }

  lemma ToolNameColumn() ensures Column("tool_name") {}
  lemma StatusColumn() ensures Column("status") {}
  lemma SummaryColumn() ensures Column("summary") {}
  lemma DataColumn() ensures Column("data") {}
  lemma EvidenceReferencesPlain() ensures Plain("evidence_references") {}
  lemma EvidenceReferencesLetters()
    ensures var key := "evidence_references"; 'z' !in key && 'w' !in key && 'k' !in key && 'l' !in key && 't' !in key
  {
  }
  lemma EvidenceReferencesColumn()
    ensures Column("evidence_references")
  {
    EvidenceReferencesPlain();
    EvidenceReferencesLetters();
    hide Plain;
  }
  lemma DurationMsColumn() ensures Column("duration_ms") {}
  lemma EvidenceTypeColumn() ensures Column("evidence_type") {}
  lemma ReferenceIdColumn() ensures Column("reference_id") {}
  lemma SourceIdColumn() ensures Column("source_id") {}
  lemma ChunkIdColumn() ensures Column("chunk_id") {}
  lemma ChunksColumn() ensures Column("chunks") {}

  ghost predicate Record(fields: Fields) {
    && |fields| <= MAX_WIDTH
    && (forall i :: 0 <= i < |fields| ==> Column(fields[i].key))
    && UniqueKeys(fields)
  }

  /** Enough to tell the columns of one record apart. */
  function Shape(key: string): nat { |key| + if |key| > 1 && key[1] == 'a' then MAX_KEY else 0 }

  lemma Distinguished(fields: Fields, shapes: seq<nat>)
    requires |fields| == |shapes| <= MAX_WIDTH
    requires forall i :: 0 <= i < |fields| ==> Column(fields[i].key) && Shape(fields[i].key) == shapes[i]
    requires forall i, j :: 0 <= i < j < |shapes| ==> shapes[i] != shapes[j]
    ensures Record(fields)
  {
    hide Column;
  }

  /** A record of columns keeps its keys and their order; only the values are sanitized. */
  lemma SanitizedRecord(p: TextPolicy, fields: Fields, d: nat)
    requires KeepsPlain(p) && d < MAX_DEPTH && Record(fields)
    ensures var out := Sanitize(p, Obj(fields), d);
            && out.Obj? && |out.fields| == |fields| && Record(out.fields)
            && forall i :: 0 <= i < |fields| ==>
                 out.fields[i] == Entry(fields[i].key, Sanitize(p, fields[i].value, d + 1))
  {
    hide Sensitive, Column, Get, CleanText;
    var kept := KeptItems(p, Obj(fields), d);
    forall k | 0 <= k < |fields| ensures kept[k] == Entry(fields[k].key, Sanitize(p, fields[k].value, d + 1)) {
      ColumnIsKept(p, fields[k].key);
    }
    forall k, m | 0 <= k < m < |kept| ensures kept[k].key != kept[m].key {
      assert fields[k].key != fields[m].key;
    }
    FromItemsFixed(kept);
  }

  lemma SanitizedColumn(p: TextPolicy, fields: Fields, d: nat, i: nat)
    requires KeepsPlain(p) && d < MAX_DEPTH && Record(fields) && i < |fields|
    ensures Sanitize(p, Obj(fields), d).Obj?
    ensures Get(Sanitize(p, Obj(fields), d).fields, fields[i].key) == Some(Sanitize(p, fields[i].value, d + 1))
  {
    hide Sanitize, Column, Get;
    SanitizedRecord(p, fields, d);
    GetByKey(Sanitize(p, Obj(fields), d).fields, i);
  }

  // ---- Reading back a stored result

  predicate Readable(p: TextPolicy, r: Reference) {
    && ValidReference(r) && 1 <= |CleanText(p, r.referenceId)| <= 160 && Settles(p, r.referenceId)
    && (r.sourceId.Some? ==> Plain(r.sourceId.value))
  }

  lemma ReferenceRecord(r: Reference)
    ensures Record(ReferenceJson(r).fields)
  {
    EvidenceTypeColumn();
    ReferenceIdColumn();
    SourceIdColumn();
    ChunkIdColumn();
    hide Column;
    var f := ReferenceJson(r).fields;
    Distinguished(f, [13, 12, 9, 8]);
  }

  lemma KindKept(p: TextPolicy, k: ReferenceKind)
    requires KeepsPlain(p)
    ensures CleanText(p, KindName(k)) == KindName(k) && KindOf(KindName(k)) == Some(k)
  {
    assert Plain(KindName(k));
    hide Plain;
  }

  lemma ParsedReference(j: Json, r: Reference)
    requires j.Obj? && ValidReference(r)
    requires Get(j.fields, "evidence_type") == Some(Str(KindName(r.kind)))
    requires Get(j.fields, "reference_id") == Some(Str(r.referenceId))
    requires Get(j.fields, "source_id") == Some(OptionalStr(r.sourceId))
    requires Get(j.fields, "chunk_id") == Some(OptionalInt(r.chunkId))
    ensures ParseReference(j) == Some(r)
  {
    hide Get, ValidReference;
  }

  lemma ReferenceValues(p: TextPolicy, r: Reference)
    requires KeepsPlain(p) && Readable(p, r)
    ensures var f, out := ReferenceJson(r).fields, Sanitize(p, ReferenceJson(r), 2);
            && out.Obj?
            && forall i :: 0 <= i < 4 ==> Get(out.fields, f[i].key) == Some(Sanitize(p, f[i].value, 3))
  {
    var f := ReferenceJson(r).fields;
    ReferenceRecord(r);
    hide Record, Get, Sanitize;
    forall i | 0 <= i < 4
      ensures Sanitize(p, Obj(f), 2).Obj?
      ensures Get(Sanitize(p, Obj(f), 2).fields, f[i].key) == Some(Sanitize(p, f[i].value, 3))
    {
      SanitizedColumn(p, f, 2, i);
    }
  }

  lemma ReferenceReadBack(p: TextPolicy, r: Reference)
    requires KeepsPlain(p) && Readable(p, r)
    ensures ParseReference(Sanitize(p, ReferenceJson(r), 2)) == Some(RestoredReference(p, r))
  {
    var f := ReferenceJson(r).fields;
    ReferenceValues(p, r);
    KindKept(p, r.kind);
    assert ValidReference(RestoredReference(p, r));
    hide Get, Plain, CleanText, KindName, KindOf, KeptItems, ParseReference;
    assert f[0] == Entry("evidence_type", Str(KindName(r.kind))) && f[1] == Entry("reference_id", Str(r.referenceId));
    assert f[2] == Entry("source_id", OptionalStr(r.sourceId)) && f[3] == Entry("chunk_id", OptionalInt(r.chunkId));
    ParsedReference(Sanitize(p, ReferenceJson(r), 2), RestoredReference(p, r));
  }

  lemma {:induction false} ParsedReferences(js: seq<Json>, rs: seq<Reference>)
    requires |js| == |rs| && forall i :: 0 <= i < |js| ==> ParseReference(js[i]) == Some(rs[i])
    ensures ParseReferences(js) == Some(rs)
  {
    hide ParseReference;
    if js != [] {
      ParsedReferences(js[1..], rs[1..]);
      assert rs == [rs[0]] + rs[1..];
    }
  }

  lemma ReferencesReadBack(p: TextPolicy, rs: seq<Reference>)
    requires KeepsPlain(p) && |rs| <= MAX_REFERENCES && forall i :: 0 <= i < |rs| ==> Readable(p, rs[i])
    ensures var js := Sanitize(p, Arr(ReferencesJson(rs)), 1);
            js.Arr? && ParseReferences(js.items) == Some(RestoredReferences(p, rs))
  {
    hide ParseReference, ReferenceJson, RestoredReference, Readable;
    var js := Sanitize(p, Arr(ReferencesJson(rs)), 1).items;
    forall i | 0 <= i < |rs| ensures ParseReference(js[i]) == Some(RestoredReference(p, rs[i])) {
      ReferenceReadBack(p, rs[i]);
    }
    ParsedReferences(js, RestoredReferences(p, rs));
  }

  ghost predicate ReadableResult(p: TextPolicy, r: ToolResult) {
    && ValidResult(r) && Plain(r.toolName) && CleanText(p, r.summary) != ""
    && forall i :: 0 <= i < |r.references| ==> Readable(p, r.references[i])
  }

  lemma ResultRecord(r: ToolResult)
    ensures Record(ResultJson(r).fields)
  {
    ToolNameColumn();
    StatusColumn();
    SummaryColumn();
    DataColumn();
    EvidenceReferencesColumn();
    DurationMsColumn();
    hide Column;
    var f := ResultJson(r).fields;
    Distinguished(f, [9, 6, 7, 124, 19, 11]);
  }

  lemma ResultValues(p: TextPolicy, r: ToolResult)
    requires KeepsPlain(p)
    ensures var f, out := ResultJson(r).fields, Sanitize(p, ResultJson(r), 0);
            && out.Obj?
            && forall i :: 0 <= i < 6 ==> Get(out.fields, f[i].key) == Some(Sanitize(p, f[i].value, 1))
  {
    var f := ResultJson(r).fields;
    ResultRecord(r);
    hide Record, Get, Sanitize;
    forall i | 0 <= i < 6
      ensures Sanitize(p, Obj(f), 0).Obj?
      ensures Get(Sanitize(p, Obj(f), 0).fields, f[i].key) == Some(Sanitize(p, f[i].value, 1))
    {
      SanitizedColumn(p, f, 0, i);
    }
  }

  lemma ParsedResult(j: Json, r: ToolResult, refs: seq<Json>)
    requires j.Obj? && ValidResult(r) && ParseReferences(refs) == Some(r.references)
    requires Get(j.fields, "tool_name") == Some(Str(r.toolName)) && Get(j.fields, "status") == Some(Str("succeeded"))
    requires Get(j.fields, "summary") == Some(Str(r.summary)) && Get(j.fields, "data") == Some(Obj(r.data))
    requires Get(j.fields, "evidence_references") == Some(Arr(refs))
    requires Get(j.fields, "duration_ms") == Some(Num(r.durationMs))
    ensures ParseResult(j) == Some(r)
  {
    hide Get, ValidResult, ParseReferences;
  }

  lemma StatusKept(p: TextPolicy)
    requires KeepsPlain(p)
    ensures CleanText(p, "succeeded") == "succeeded"
  {
    assert Plain("succeeded");
  }

  lemma RestoredIsValid(p: TextPolicy, r: ToolResult)
    requires KeepsPlain(p) && ReadableResult(p, r)
    ensures ValidResult(RestoredResult(p, r)) && RestoredResult(p, r).toolName == r.toolName
  {
    hide Sanitize, Plain;
    assert CleanText(p, r.toolName) == r.toolName;
    forall i | 0 <= i < |r.references| ensures ValidReference(RestoredReference(p, r.references[i])) {
      assert Readable(p, r.references[i]);
    }
  }

  /** A stored result can always be read back, and reading it gives what storing kept. */
  lemma ResultReadBack(p: TextPolicy, r: ToolResult)
    requires KeepsPlain(p) && ReadableResult(p, r)
    ensures ParseResult(Sanitize(p, ResultJson(r), 0)) == Some(RestoredResult(p, r))
  {
    hide Get, Plain, CleanText, ParseResult, ParseReferences, ReferencesJson, Readable, ValidReference, KeepsPlain;
    var f := ResultJson(r).fields;
    ResultValues(p, r);
    ReferencesReadBack(p, r.references);
    StatusKept(p);
    RestoredIsValid(p, r);
    assert f[0] == Entry("tool_name", Str(r.toolName)) && f[1] == Entry("status", Str("succeeded"));
    assert f[2] == Entry("summary", Str(r.summary)) && f[3] == Entry("data", Obj(r.data));
    assert f[4] == Entry("evidence_references", Arr(ReferencesJson(r.references)));
    assert f[5] == Entry("duration_ms", Num(r.durationMs));
    ParsedResult(Sanitize(p, ResultJson(r), 0), RestoredResult(p, r),
                 Sanitize(p, Arr(ReferencesJson(r.references)), 1).items);
  }
}
