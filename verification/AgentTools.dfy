/** The bounded execution of one allowlisted, read-only tool (app/agent/tools.py). */
module AgentTools {
  import opened Bounds
  import opened Dict
  import opened Json
  import opened Sanitization
  import opened AgentModels
  import Text

  /** Arguments after the tool's own schema accepted them. */
  datatype Arguments =
    | IncidentArgs(incidentId: int)
    | RunbookArgs
    | StepArgs(numbers: seq<int>)

  datatype Excerpt = Excerpt(title: string, category: string, content: string, similarity: real)

  /** A chunk found by the search. */
  datatype Chunk = Chunk(source: string, chunk: int, excerpt: Excerpt)

  /** An entry of the retrieval context stored with a resolution. */
  datatype ContextItem = ContextItem(source: Option<string>, chunk: Option<int>, excerpt: Excerpt)

  /** What the database and the search returned while the tool ran. */
  datatype Answer =
    | TimedOut
    | ProviderUnavailable
    | DatabaseUnavailable
    | Broken
    | IncidentFacts(classification: string, severity: string, facts: Fields)
    | Found(chunks: seq<Chunk>)
    | Listed(ids: seq<int>, records: seq<Json>)
    | Persisted(items: seq<ContextItem>)
    | NothingToLoad

  datatype Reply = Reply(answer: Answer, durationMs: real)

  datatype Output = Output(summary: string, data: Fields, references: seq<Reference>)

  /** The server's configuration, and the library calls a model of it cannot look into:
      `json.dumps` cut at 30000 characters, `str(int)`, schema validation and the two
      byte-size checks. */
  datatype Server = Server(limits: Limits, text: TextPolicy, encode: Json -> string, decimal: int -> string,
                           validate: (string, Fields) -> Option<Arguments>,
                           dumped: (string, Fields) -> Fields, argumentsFit: Fields -> bool,
                           resultFits: Output -> bool)

  datatype ToolOutcome = Succeeded(result: ToolResult) | Refused | OverBudget | Unavailable

  type Results = seq<Entry<int, ToolResult>>

  const TOOL_NAMES := [GET_INCIDENT, RETRIEVE_RUNBOOKS, SIMILAR_INCIDENTS, PREVIOUS_RESOLUTIONS, RESOLUTION_CONTEXT,
                       SUMMARIZE_EVIDENCE]

  /** `list(dict.fromkeys(s))`: the first occurrence of each element, in order. */
  function Distinct<T(==,!new)>(s: seq<T>): (r: seq<T>)
    ensures forall x :: x in r <==> x in s
    ensures forall i, j :: 0 <= i < j < |r| ==> r[i] != r[j]
    ensures |r| <= |s|
  {
    if s == [] then []
    else
      var r := Distinct(s[..|s| - 1]);
      var last := s[|s| - 1];
      assert s == s[..|s| - 1] + [last];
      if last in r then r else r + [last]
  }

  function Bounded(text: string, limit: nat): string { Take(Text.Join(" ", Text.Words(text)), limit) }

  function ReferenceId(sv: Server, source: string, chunk: int): string { source + ":" + sv.decimal(chunk) }

  function RunbookReference(sv: Server, source: string, chunk: int): Reference {
    Reference(RunbookRef, ReferenceId(sv, source, chunk), Some(source), Some(chunk))
  }

  function ItemJson(item: ContextItem): Json {
    Obj([Entry("source_id", OptionalStr(item.source)), Entry("chunk_id", OptionalInt(item.chunk)),
         Entry("title", Str(item.excerpt.title)), Entry("category", Str(item.excerpt.category)),
         Entry("content", Str(item.excerpt.content)), Entry("similarity", Num(item.excerpt.similarity))])
  }

  function ItemsJson(items: seq<ContextItem>): (js: seq<Json>)
    ensures |js| == |items| && forall i :: 0 <= i < |items| ==> js[i] == ItemJson(items[i])
  {
    seq(|items|, i requires 0 <= i < |items| => ItemJson(items[i]))
  }

  function FoundItem(c: Chunk): ContextItem {
    ContextItem(Some(c.source), Some(c.chunk), c.excerpt.(content := Bounded(c.excerpt.content, 1200)))
  }

  function PersistedItem(item: ContextItem): ContextItem {
    item.(excerpt := item.excerpt.(title := Bounded(item.excerpt.title, 255),
                                   category := Bounded(item.excerpt.category, 100),
                                   content := Bounded(item.excerpt.content, 1200)))
  }

  /** References to the items that say which chunk they are. */
  function ItemReferences(sv: Server, items: seq<ContextItem>): (refs: seq<Reference>)
    ensures forall r :: r in refs ==> r.kind == RunbookRef && r.sourceId.Some? && r.chunkId.Some?
    ensures |refs| <= |items|
  {
    if items == [] then []
    else
      var item := items[0];
      (if item.source.Some? && item.source.value != "" && item.chunk.Some?
       then [RunbookReference(sv, item.source.value, item.chunk.value)] else [])
      + ItemReferences(sv, items[1..])
  }

  function ContextOutput(sv: Server, summary: string, items: seq<ContextItem>, refs: seq<Reference>): Output {
    Output(summary, [Entry("chunks", Arr(ItemsJson(items)))], refs)
  }

  function IdReferences(sv: Server, kind: ReferenceKind, ids: seq<int>): (refs: seq<Reference>)
    ensures |refs| == |ids|
    ensures forall i :: 0 <= i < |refs| ==> refs[i] == Reference(kind, sv.decimal(ids[i]), None, None)
  {
    seq(|ids|, i requires 0 <= i < |ids| => Reference(kind, sv.decimal(ids[i]), None, None))
  }

  function Selected(previous: Results, numbers: seq<int>): seq<ToolResult> {
    if numbers == [] then []
    else
      var rest := Selected(previous, numbers[1..]);
      match Get(previous, numbers[0])
      case Some(r) => [r] + rest
      case None => rest
  }

  function Absent(previous: Results, numbers: seq<int>): seq<int> {
    if numbers == [] then []
    else (if Get(previous, numbers[0]).None? then [numbers[0]] else []) + Absent(previous, numbers[1..])
  }

  function ReferencesOf(rs: seq<ToolResult>): (refs: seq<Reference>)
    ensures forall x :: x in refs <==> exists i :: 0 <= i < |rs| && x in rs[i].references
  {
    if rs == [] then []
    else
      assert rs == [rs[0]] + rs[1..];
      rs[0].references + ReferencesOf(rs[1..])
  }

  function Summaries(rs: seq<ToolResult>): seq<Json> {
    seq(|rs|, i requires 0 <= i < |rs| => Str(rs[i].summary))
  }

  function Numbers(ns: seq<int>): seq<Json> {
    seq(|ns|, i requires 0 <= i < |ns| => Num(ns[i] as real))
  }

  function SummarizeOutput(sv: Server, previous: Results, numbers: seq<int>): Output {
    var unique := Distinct(numbers);
    var results, missing := Selected(previous, unique), Absent(previous, unique);
    Output("Normalized " + sv.decimal(|results|) + " evidence steps; " + sv.decimal(|missing|)
           + " requested steps were unavailable.",
           [Entry("facts", Arr(Summaries(results))), Entry("missing_step_numbers", Arr(Numbers(missing))),
            Entry("conflicts", Arr([]))],
           Distinct(ReferencesOf(results)))
  }

  /** The tool's own code; None when it raised. */
  function Produce(sv: Server, tool: string, args: Arguments, previous: Results, answer: Answer): Option<Output> {
    if tool == GET_INCIDENT && answer.IncidentFacts? && args.IncidentArgs? then
      Some(Output("Loaded incident " + sv.decimal(args.incidentId) + ": " + answer.classification + ", severity "
                  + answer.severity + ".", answer.facts,
                  [Reference(IncidentRef, sv.decimal(args.incidentId), None, None)]))
    else if tool == RETRIEVE_RUNBOOKS && answer.Found? then
      var items := seq(|answer.chunks|, i requires 0 <= i < |answer.chunks| => FoundItem(answer.chunks[i]));
      var refs := seq(|items|, i requires 0 <= i < |items| =>
        RunbookReference(sv, answer.chunks[i].source, answer.chunks[i].chunk));
      Some(ContextOutput(sv, "Retrieved " + sv.decimal(|items|) + " approved runbook chunks.", items, refs))
    else if tool == SIMILAR_INCIDENTS && answer.Listed? then
      Some(Output("Found " + sv.decimal(|answer.ids|) + " similar incident records.",
                  [Entry("incidents", Arr(answer.records))], IdReferences(sv, SimilarIncidentRef, answer.ids)))
    else if tool == PREVIOUS_RESOLUTIONS && answer.Listed? then
      Some(Output("Loaded " + sv.decimal(|answer.ids|) + " previous resolution summaries.",
                  [Entry("resolutions", Arr(answer.records))], IdReferences(sv, ResolutionRef, answer.ids)))
    else if tool == RESOLUTION_CONTEXT && answer.Persisted? then
      var kept := Take(answer.items, 8);
      var items := seq(|kept|, i requires 0 <= i < |kept| => PersistedItem(kept[i]));
      Some(ContextOutput(sv, "Loaded " + sv.decimal(|items|) + " persisted context chunks.", items,
                         ItemReferences(sv, items)))
    else if tool == SUMMARIZE_EVIDENCE && args.StepArgs? then
      Some(SummarizeOutput(sv, previous, args.numbers))
    else None
  }

  /** The output schema. */
  predicate ValidOutput(o: Output) {
    && 1 <= |o.summary| <= MAX_TEXT && |o.references| <= MAX_REFERENCES
    && forall i :: 0 <= i < |o.references| ==> ValidReference(o.references[i])
  }

  /** Checks in the order they are made: call budget, argument size, allowlist, argument
      schema, incident scope, then the call itself and the size of its result. */
  function ExecuteTool(sv: Server, incident: int, previous: Results, calls: nat, request: ToolRequest, reply: Reply)
    : (o: ToolOutcome)
  {
    if calls >= sv.limits.maxToolCalls then OverBudget
    else if !sv.argumentsFit(request.arguments) || request.toolName !in TOOL_NAMES then Refused
    else
      match sv.validate(request.toolName, request.arguments)
      case None => Refused
      case Some(args) =>
        if args.IncidentArgs? && args.incidentId != incident then Refused
        else if reply.answer.TimedOut? || reply.answer.ProviderUnavailable? || reply.answer.DatabaseUnavailable? then
          Unavailable
        else
          match Produce(sv, request.toolName, args, previous, reply.answer)
          case None => Refused
          case Some(out) =>
            if !ValidOutput(out) || !sv.resultFits(out) then Refused
            else Succeeded(ToolResult(request.toolName, CleanText(sv.text, out.summary),
                                      Sanitize(sv.text, Obj(out.data), 0).fields, out.references, reply.durationMs))
  }

  // ---- Evidence: what later steps read out of a result

  /** The fields of a reference the citation checks look at. */
  function Evidence(r: Reference): (ReferenceKind, Option<string>, Option<int>) {
    (r.kind, r.sourceId, r.chunkId)
  }

  function ItemKey(j: Json): Option<(Json, Json)> {
    if !j.Obj? then None
    else
      match (Get(j.fields, "source_id"), Get(j.fields, "chunk_id"))
      case (Some(s), Some(c)) => if s.Null? || c.Null? then None else Some((s, c))
      case _ => None
  }

  function ItemEntries(js: seq<Json>): seq<Entry<(Json, Json), Json>> {
    if js == [] then []
    else (match ItemKey(js[0]) case Some(k) => [Entry(k, js[0])] case None => []) + ItemEntries(js[1..])
  }

  /** The identified chunks in a result's data, in order. */
  function ContextEntries(data: Fields): seq<Entry<(Json, Json), Json>> {
    match Get(data, "chunks")
    case Some(v) => if v.Arr? then ItemEntries(v.items) else []
    case None => []
  }

  /** Which chunks a result's data identifies, in order. */
  function ContextKeys(data: Fields): seq<(Json, Json)> { Keys(ContextEntries(data)) }

  function CitationKey(r: Reference): (Json, Json) { (OptionalStr(r.sourceId), OptionalInt(r.chunkId)) }

  /** Every runbook reference comes with its chunk, or was copied from an earlier result. */
  ghost predicate Traceable(q: ToolResult, previous: Results) {
    forall r :: r in q.references && r.kind == RunbookRef ==>
      || (q.toolName in [RETRIEVE_RUNBOOKS, RESOLUTION_CONTEXT] && HasKey(ContextEntries(q.data), CitationKey(r)))
      || (q.toolName == SUMMARIZE_EVIDENCE
          && exists i :: 0 <= i < |previous| && r in previous[i].value.references)
  }

  const MAX_ID := 9_223_372_036_854_775_807

  /** What the text rules and number formatting must satisfy, and the repository's do: plain
      identifiers survive, no text is erased, and a reference identifier stays one. */
  ghost predicate Rules(sv: Server) {
    && KeepsPlain(sv.text)
    && (forall s :: s != "" ==> CleanText(sv.text, s) != "")
    && (forall n :: 0 <= n <= MAX_ID ==> Plain(sv.decimal(n)))
    && (forall s, n :: Plain(s) && |ReferenceId(sv, s, n)| <= 160 ==>
          1 <= |CleanText(sv.text, ReferenceId(sv, s, n))| <= 160 && Settles(sv.text, ReferenceId(sv, s, n)))
  }

  /** Source identifiers follow the manifest's pattern, keys fit the database's integers,
      and the incident record has no column called "chunks". */
  predicate GoodAnswer(answer: Answer) {
    match answer
    case IncidentFacts(_, _, facts) => !HasKey(facts, "chunks")
    case Found(chunks) => forall i :: 0 <= i < |chunks| ==> Plain(chunks[i].source)
    case Listed(ids, _) => forall i :: 0 <= i < |ids| ==> 0 <= ids[i] <= MAX_ID
    case Persisted(items) =>
      forall i :: 0 <= i < |items| && items[i].source.Some? ==> Plain(items[i].source.value)
    case _ => true
  }

  predicate GoodReply(reply: Reply) { reply.durationMs >= 0.0 && GoodAnswer(reply.answer) }

  lemma TitleColumn() ensures Column("title") {}
  lemma CategoryColumn() ensures Column("category") {}
  lemma ContentColumn() ensures Column("content") {}
  lemma SimilarityColumn() ensures Column("similarity") {}

  lemma ItemRecord(item: ContextItem)
    ensures Record(ItemJson(item).fields)
  {
    SourceIdColumn();
    ChunkIdColumn();
    TitleColumn();
    CategoryColumn();
    ContentColumn();
    SimilarityColumn();
    hide Column;
    var f := ItemJson(item).fields;
    Distinguished(f, [9, 8, 5, 128, 7, 10]);
  }

  /** A record that starts with these identity columns. */
  ghost predicate Identifies(fields: Fields, item: ContextItem) {
    && Record(fields) && |fields| >= 2
    && fields[0] == Entry("source_id", OptionalStr(item.source))
    && fields[1] == Entry("chunk_id", OptionalInt(item.chunk))
  }

  lemma ItemIdentifies(item: ContextItem)
    ensures Identifies(ItemJson(item).fields, item)
  {
    hide Record, Column;
    ItemRecord(item);
  }

  lemma OptionalKept(p: TextPolicy, source: Option<string>, d: nat)
    requires KeepsPlain(p) && d < MAX_DEPTH && (source.Some? ==> Plain(source.value))
    ensures Sanitize(p, OptionalStr(source), d) == OptionalStr(source)
  {
  }

  lemma IdentityKept(p: TextPolicy, fields: Fields, item: ContextItem, d: nat)
    requires KeepsPlain(p) && d < MAX_DEPTH - 1 && Identifies(fields, item)
    requires item.source.Some? ==> Plain(item.source.value)
    ensures var out := Sanitize(p, Obj(fields), d);
            && out.Obj? && Identifies(out.fields, item)
            && Get(out.fields, "source_id") == Some(OptionalStr(item.source))
            && Get(out.fields, "chunk_id") == Some(OptionalInt(item.chunk))
  {
    OptionalKept(p, item.source, d + 1);
    hide Record, Get, Plain, KeptItems, CleanText, OptionalStr;
    SanitizedRecord(p, fields, d);
    SanitizedColumn(p, fields, d, 0);
    SanitizedColumn(p, fields, d, 1);
  }

  lemma JsonOfItem(item: ContextItem)
    ensures ItemJson(item).Obj? && ItemJson(item) == Obj(ItemJson(item).fields)
  {
  }

  lemma ItemKeyKept(p: TextPolicy, item: ContextItem, d: nat)
    requires KeepsPlain(p) && d < MAX_DEPTH - 2 && (item.source.Some? ==> Plain(item.source.value))
    ensures var once := Sanitize(p, ItemJson(item), d);
            && ItemKey(Sanitize(p, once, d + 1)) == ItemKey(once)
            && (item.source.Some? && item.chunk.Some? ==>
                  ItemKey(once) == Some((OptionalStr(item.source), OptionalInt(item.chunk))))
  {
    hide Get, Plain, ItemJson, Sanitize, Identifies, KeepsPlain;
    ItemIdentifies(item);
    JsonOfItem(item);
    IdentityKept(p, ItemJson(item).fields, item, d);
    IdentityKept(p, Sanitize(p, ItemJson(item), d).fields, item, d + 1);
  }

  lemma {:induction false} EntryAt(js: seq<Json>, i: nat)
    requires i < |js| && ItemKey(js[i]).Some?
    ensures HasKey(ItemEntries(js), ItemKey(js[i]).value)
  {
    hide ItemKey;
    if i == 0 {
      assert ItemEntries(js)[0].key == ItemKey(js[0]).value;
    } else {
      EntryAt(js[1..], i - 1);
      var rest := ItemEntries(js[1..]);
      var at :| 0 <= at < |rest| && rest[at].key == ItemKey(js[i]).value;
      assert ItemEntries(js)[at + |ItemEntries(js)| - |rest|].key == ItemKey(js[i]).value;
    }
  }

  function ChunkData(items: seq<ContextItem>): Fields { [Entry("chunks", Arr(ItemsJson(items)))] }

  lemma ChunksRecord(items: seq<ContextItem>)
    ensures Record(ChunkData(items))
  {
    ChunksColumn();
    hide Column;
  }

  lemma ChunksKept(p: TextPolicy, items: seq<ContextItem>, i: nat)
    requires KeepsPlain(p) && |items| <= MAX_WIDTH && i < |items|
    requires items[i].source.Some? && items[i].chunk.Some? && Plain(items[i].source.value)
    ensures HasKey(ContextEntries(Sanitize(p, Obj(ChunkData(items)), 0).fields),
                   (OptionalStr(items[i].source), OptionalInt(items[i].chunk)))
  {
    ChunksRecord(items);
    hide Record, Get, Plain, KeptItems, ItemJson, Column, ItemKey;
    SanitizedColumn(p, ChunkData(items), 0, 0);
    ItemKeyKept(p, items[i], 2);
    var js := Sanitize(p, Arr(ItemsJson(items)), 1).items;
    assert js[i] == Sanitize(p, ItemJson(items[i]), 2);
    EntryAt(js, i);
  }

  // ---- What a succeeded call leaves behind

  predicate ReadableReferences(sv: Server, refs: seq<Reference>) {
    forall i :: 0 <= i < |refs| ==> Readable(sv.text, refs[i])
  }

  lemma RunbookReadable(sv: Server, source: string, chunk: int)
    requires Rules(sv) && Plain(source) && ValidReference(RunbookReference(sv, source, chunk))
    ensures Readable(sv.text, RunbookReference(sv, source, chunk))
  {
    hide CleanText, Plain;
  }

  lemma IdsReadable(sv: Server, kind: ReferenceKind, n: int)
    requires Rules(sv) && 0 <= n <= MAX_ID && ValidReference(Reference(kind, sv.decimal(n), None, None))
    ensures Readable(sv.text, Reference(kind, sv.decimal(n), None, None))
  {
    assert CleanText(sv.text, sv.decimal(n)) == sv.decimal(n);
    hide CleanText, Plain;
  }

  /** The references of retrieved or persisted items point at items in the output. */
  ghost predicate PointsAt(sv: Server, r: Reference, items: seq<ContextItem>) {
    exists i :: 0 <= i < |items| && items[i].source.Some? && items[i].chunk.Some?
      && r == RunbookReference(sv, items[i].source.value, items[i].chunk.value)
  }

  lemma {:induction false} ItemReferencesPoint(sv: Server, items: seq<ContextItem>, r: Reference)
    requires r in ItemReferences(sv, items)
    ensures PointsAt(sv, r, items)
  {
    if r in ItemReferences(sv, items[1..]) {
      ItemReferencesPoint(sv, items[1..], r);
      var i :| 0 <= i < |items[1..]| && items[1..][i].source.Some? && items[1..][i].chunk.Some?
        && r == RunbookReference(sv, items[1..][i].source.value, items[1..][i].chunk.value);
      assert items[i + 1] == items[1..][i];
    }
  }

  /** Output of the two tools that load chunks. */
  ghost predicate ChunkOutput(sv: Server, o: Output, items: seq<ContextItem>) {
    && o.data == ChunkData(items) && |items| <= MAX_WIDTH
    && (forall i :: 0 <= i < |items| && items[i].source.Some? ==> Plain(items[i].source.value))
    && (forall r :: r in o.references ==> PointsAt(sv, r, items))
  }

  /** Output of the tools that do not. */
  ghost predicate PlainOutput(sv: Server, o: Output) {
    && !HasKey(o.data, "chunks") && forall r :: r in o.references ==> r.kind != RunbookRef
  }

  lemma FoundOutput(sv: Server, args: Arguments, previous: Results, answer: Answer)
    requires answer.Found? && GoodAnswer(answer)
    requires ValidOutput(Produce(sv, RETRIEVE_RUNBOOKS, args, previous, answer).value)
    ensures var o := Produce(sv, RETRIEVE_RUNBOOKS, args, previous, answer);
            exists items :: ChunkOutput(sv, o.value, items)
  {
    hide Plain, ValidReference, Bounded;
    var o := Produce(sv, RETRIEVE_RUNBOOKS, args, previous, answer).value;
    var items := seq(|answer.chunks|, i requires 0 <= i < |answer.chunks| => FoundItem(answer.chunks[i]));
    assert |o.references| == |items|;
    forall r | r in o.references ensures PointsAt(sv, r, items) {
      var i :| 0 <= i < |o.references| && o.references[i] == r;
      assert items[i] == FoundItem(answer.chunks[i]);
    }
    assert ChunkOutput(sv, o, items);
  }

  lemma PersistedOutput(sv: Server, args: Arguments, previous: Results, answer: Answer)
    requires answer.Persisted? && GoodAnswer(answer)
    ensures var o := Produce(sv, RESOLUTION_CONTEXT, args, previous, answer);
            exists items :: ChunkOutput(sv, o.value, items)
  {
    hide Plain, ValidReference, Bounded;
    var o := Produce(sv, RESOLUTION_CONTEXT, args, previous, answer).value;
    var kept := Take(answer.items, 8);
    var items := seq(|kept|, i requires 0 <= i < |kept| => PersistedItem(kept[i]));
    forall i | 0 <= i < |items| && items[i].source.Some? ensures Plain(items[i].source.value) {
      assert kept[i] == answer.items[i];
    }
    forall r | r in o.references ensures PointsAt(sv, r, items) {
      ItemReferencesPoint(sv, items, r);
    }
    assert ChunkOutput(sv, o, items);
  }

  lemma ItemWithin(item: ContextItem)
    ensures Within(ItemJson(item), 2)
  {
    var j := ItemJson(item);
    forall i | 0 <= i < |Children(j)| ensures Within(Children(j)[i], 1) {
      assert Children(j)[i] == j.fields[i].value;
      assert Children(Children(j)[i]) == [];
    }
  }

  lemma ChunkDataWithin(items: seq<ContextItem>)
    ensures Within(Obj(ChunkData(items)), 4)
  {
    hide ItemJson;
    var list := Arr(ItemsJson(items));
    forall i | 0 <= i < |Children(list)| ensures Within(Children(list)[i], 2) {
      ItemWithin(items[i]);
    }
    assert Within(list, 3);
    var data := Obj(ChunkData(items));
    assert data.fields[0].value == list && Children(data)[0] == list && |Children(data)| == 1;
  }

  /** Chunks come back from storage exactly as they were in memory if and only if their
      texts settle. */
  lemma ChunkDataRestored(p: TextPolicy, items: seq<ContextItem>)
    ensures var kept := Sanitize(p, Obj(ChunkData(items)), 0).fields;
            Sanitize(p, Obj(kept), 1).fields == kept <==> TextsSettle(p, Obj(ChunkData(items)), 1)
  {
    hide TextsSettle;
    var raw := Obj(ChunkData(items));
    ChunkDataWithin(items);
    Absorption(p, raw, 0, 1);
    DepthDoesNotMatter(p, raw, 0, 1);
    assert Sanitize(p, raw, 0) == Obj(Sanitize(p, raw, 0).fields);
  }

  lemma {:induction false} SameItemKeys(a: seq<Json>, b: seq<Json>)
    requires |a| == |b| && forall i :: 0 <= i < |a| ==> ItemKey(a[i]) == ItemKey(b[i])
    ensures Keys(ItemEntries(a)) == Keys(ItemEntries(b))
  {
    hide ItemKey;
    if a != [] {
      SameItemKeys(a[1..], b[1..]);
      var x, y := ItemEntries(a[1..]), ItemEntries(b[1..]);
      assert Keys(ItemEntries(a)) == (match ItemKey(a[0]) case Some(k) => [k] case None => []) + Keys(x);
      assert Keys(ItemEntries(b)) == (match ItemKey(b[0]) case Some(k) => [k] case None => []) + Keys(y);
    }
  }

  /** Which chunks the data identifies is the same after storage, whatever its texts. */
  lemma ChunkKeysRestored(p: TextPolicy, items: seq<ContextItem>)
    requires KeepsPlain(p) && |items| <= MAX_WIDTH
    requires forall i :: 0 <= i < |items| && items[i].source.Some? ==> Plain(items[i].source.value)
    ensures var kept := Sanitize(p, Obj(ChunkData(items)), 0).fields;
            ContextKeys(Sanitize(p, Obj(kept), 1).fields) == ContextKeys(kept)
  {
    ChunksRecord(items);
    hide Record, Get, Plain, KeptItems, ItemJson, Column, ItemKey, ItemEntries;
    var data := ChunkData(items);
    SanitizedRecord(p, data, 0);
    SanitizedColumn(p, data, 0, 0);
    var kept := Sanitize(p, Obj(data), 0).fields;
    SanitizedColumn(p, kept, 1, 0);
    var once := Sanitize(p, Arr(ItemsJson(items)), 1).items;
    var again := Sanitize(p, Arr(once), 2).items;
    forall i | 0 <= i < |once| ensures ItemKey(again[i]) == ItemKey(once[i]) {
      ItemKeyKept(p, items[i], 2);
    }
    SameItemKeys(again, once);
  }

  lemma NoChunks(p: TextPolicy, data: Fields, d: nat)
    requires !HasKey(data, "chunks") && d < MAX_DEPTH
    ensures var out := Sanitize(p, Obj(data), d).fields; !HasKey(out, "chunks") && ContextEntries(out) == []
  {
    hide Sensitive, Get, ItemEntries;
    var kept := KeptItems(p, Obj(data), d);
    FromItemsShape(kept);
    forall i | 0 <= i < |kept| ensures kept[i].key != "chunks" {
      assert data[i].key != "chunks";
      assert |data[i].key| > MAX_KEY ==> |kept[i].key| == MAX_KEY;
    }
    GetSome(FromItems(kept), "chunks");
  }

  /** The result the executor builds from a valid output. */
  function ResultOf(sv: Server, tool: string, o: Output, ms: real): ToolResult {
    ToolResult(tool, CleanText(sv.text, o.summary), Sanitize(sv.text, Obj(o.data), 0).fields, o.references, ms)
  }

  /** Reading the result back identifies the same chunks. */
  ghost predicate SameContext(p: TextPolicy, q: ToolResult) {
    ContextKeys(RestoredResult(p, q).data) == ContextKeys(q.data)
  }

  lemma ChunkResult(sv: Server, tool: string, o: Output, ms: real, items: seq<ContextItem>)
    requires Rules(sv) && ValidOutput(o) && ChunkOutput(sv, o, items)
    requires tool in [RETRIEVE_RUNBOOKS, RESOLUTION_CONTEXT]
    ensures var q := ResultOf(sv, tool, o, ms);
            && ReadableReferences(sv, q.references) && Traceable(q, []) && SameContext(sv.text, q)
  {
    hide Plain, Get, ItemEntries, ItemJson, Readable, ValidReference, Sanitize, ContextEntries, Settles, HasKey;
    var q := ResultOf(sv, tool, o, ms);
    ChunkKeysRestored(sv.text, items);
    forall r | r in q.references ensures Readable(sv.text, r) && HasKey(ContextEntries(q.data), CitationKey(r)) {
      var i :| 0 <= i < |items| && items[i].source.Some? && items[i].chunk.Some?
        && r == RunbookReference(sv, items[i].source.value, items[i].chunk.value);
      RunbookReadable(sv, items[i].source.value, items[i].chunk.value);
      ChunksKept(sv.text, items, i);
    }
  }

  lemma PlainContext(sv: Server, tool: string, o: Output, ms: real)
    requires !HasKey(o.data, "chunks")
    ensures SameContext(sv.text, ResultOf(sv, tool, o, ms))
  {
    hide ContextEntries, Get, KeptItems;
    NoChunks(sv.text, o.data, 0);
    NoChunks(sv.text, Sanitize(sv.text, Obj(o.data), 0).fields, 1);
  }

  lemma PlainResult(sv: Server, tool: string, o: Output, ms: real, previous: Results)
    requires PlainOutput(sv, o)
    ensures var q := ResultOf(sv, tool, o, ms); Traceable(q, previous) && SameContext(sv.text, q)
  {
    hide ContextEntries;
    PlainContext(sv, tool, o, ms);
  }

  lemma ShortNamesPlain()
    ensures Plain(GET_INCIDENT) && Plain(RETRIEVE_RUNBOOKS) && Plain(SUMMARIZE_EVIDENCE)
  {
  }

  lemma SimilarPlain() ensures Plain(SIMILAR_INCIDENTS) {}
  lemma ResolutionsPlain() ensures Plain(PREVIOUS_RESOLUTIONS) {}
  lemma ContextPlain() ensures Plain(RESOLUTION_CONTEXT) {}

  lemma ToolNamesPlain(tool: string)
    requires tool in TOOL_NAMES
    ensures Plain(tool) && 1 <= |tool| <= 80
  {
    ShortNamesPlain();
    SimilarPlain();
    ResolutionsPlain();
    ContextPlain();
    hide Plain;
  }

  predicate ReadablePrevious(sv: Server, previous: Results) {
    forall i :: 0 <= i < |previous| ==> ReadableReferences(sv, previous[i].value.references)
  }

  lemma IncidentResult(sv: Server, args: Arguments, previous: Results, answer: Answer)
    requires Rules(sv) && GoodAnswer(answer) && answer.IncidentFacts?
    requires args.IncidentArgs? && 0 <= args.incidentId <= MAX_ID
    requires ValidOutput(Produce(sv, GET_INCIDENT, args, previous, answer).value)
    ensures var o := Produce(sv, GET_INCIDENT, args, previous, answer).value;
            PlainOutput(sv, o) && ReadableReferences(sv, o.references)
  {
    hide Plain, ValidReference, Readable, HasKey;
    var o := Produce(sv, GET_INCIDENT, args, previous, answer).value;
    assert o.references[0] == Reference(IncidentRef, sv.decimal(args.incidentId), None, None);
    IdsReadable(sv, IncidentRef, args.incidentId);
  }

  lemma ListedResult(sv: Server, tool: string, args: Arguments, previous: Results, answer: Answer)
    requires Rules(sv) && GoodAnswer(answer) && answer.Listed? && tool in [SIMILAR_INCIDENTS, PREVIOUS_RESOLUTIONS]
    requires ValidOutput(Produce(sv, tool, args, previous, answer).value)
    ensures var o := Produce(sv, tool, args, previous, answer).value;
            PlainOutput(sv, o) && ReadableReferences(sv, o.references)
  {
    hide Plain, ValidReference, Readable;
    var o := Produce(sv, tool, args, previous, answer).value;
    assert |o.data| == 1 && (|o.data[0].key| == 9 || |o.data[0].key| == 11);
    forall i | 0 <= i < |o.references|
      ensures Readable(sv.text, o.references[i]) && o.references[i].kind != RunbookRef
    {
      IdsReadable(sv, if tool == SIMILAR_INCIDENTS then SimilarIncidentRef else ResolutionRef, answer.ids[i]);
    }
  }

  lemma SummaryResult(sv: Server, previous: Results, numbers: seq<int>, ms: real)
    requires Rules(sv) && ReadablePrevious(sv, previous)
    ensures var o := SummarizeOutput(sv, previous, numbers);
            var q := ResultOf(sv, SUMMARIZE_EVIDENCE, o, ms);
            ReadableReferences(sv, o.references) && Traceable(q, previous) && SameContext(sv.text, q)
  {
    hide Plain, ValidReference, Readable, Sanitize, ContextEntries, Rules;
    var o := SummarizeOutput(sv, previous, numbers);
    assert |o.data[0].key| == 5 && |o.data[1].key| == 20 && |o.data[2].key| == 9;
    PlainContext(sv, SUMMARIZE_EVIDENCE, o, ms);
    var selected := Selected(previous, Distinct(numbers));
    forall r | r in o.references
      ensures Readable(sv.text, r) && exists i :: 0 <= i < |previous| && r in previous[i].value.references
    {
      assert r in ReferencesOf(selected);
      var k :| 0 <= k < |selected| && r in selected[k].references;
      SelectedOrAbsent(previous, Distinct(numbers), selected[k]);
      var n :| n in Distinct(numbers) && Get(previous, n) == Some(selected[k]);
      GetSome(previous, n);
      var i :| 0 <= i < |previous| && previous[i].value == selected[k];
      assert ReadableReferences(sv, previous[i].value.references);
    }
  }

  /** What a tool returns is bounded, and redacted under every sensitive key, before anyone
      sees it. */
  lemma ResultsAreRedacted(sv: Server, incident: nat, previous: Results, calls: nat, request: ToolRequest, reply: Reply)
    requires ExecuteTool(sv, incident, previous, calls, request, reply).Succeeded?
    ensures var q := ExecuteTool(sv, incident, previous, calls, request, reply).result;
            WithinBounds(sv.text, Obj(q.data), 0) && |q.summary| <= MAX_TEXT
  {
    hide Produce, TOOL_NAMES, Sanitize, WithinBounds, ValidOutput;
    var args := sv.validate(request.toolName, request.arguments).value;
    var out := Produce(sv, request.toolName, args, previous, reply.answer).value;
    SanitizedIsBounded(sv.text, Obj(out.data), 0);
    SanitizedObject(sv.text, out.data);
  }

  lemma SanitizedObject(p: TextPolicy, data: Fields)
    ensures Sanitize(p, Obj(data), 0).Obj?
  {
  }

  // ---- What each tool's output says

  /** The words of `s` with one space between, cut at `n` characters. */
  ghost predicate Shortened(t: string, s: string, n: nat) {
    var line := Text.Join(" ", Text.Words(s));
    t <= line && |t| == Least(|line|, n)
  }

  /** A text that is already one short line is left as it is. */
  lemma ShortLineStays(t: string, s: string, n: nat)
    requires Shortened(t, s, n) && |s| <= n && s == Text.Join(" ", Text.Words(s))
    ensures t == s
  {
  }

  /** A chunk as the planner and the resolver read it. */
  ghost predicate ChunkShown(j: Json, source: Option<string>, chunk: Option<int>, title: string, category: string,
                             content: string, similarity: real)
  {
    j == Obj([Entry("source_id", if source.Some? then Str(source.value) else Null),
              Entry("chunk_id", if chunk.Some? then Num(chunk.value as real) else Null),
              Entry("title", Str(title)), Entry("category", Str(category)), Entry("content", Str(content)),
              Entry("similarity", Num(similarity))])
  }

  /** The chunk found at this place of the answer, with its content shortened. */
  ghost predicate FoundShown(j: Json, c: Chunk) {
    exists content :: Shortened(content, c.excerpt.content, 1200)
      && ChunkShown(j, Some(c.source), Some(c.chunk), c.excerpt.title, c.excerpt.category, content,
                    c.excerpt.similarity)
  }

  ghost predicate PersistedShown(j: Json, item: ContextItem) {
    exists title, category, content ::
      && Shortened(title, item.excerpt.title, 255) && Shortened(category, item.excerpt.category, 100)
      && Shortened(content, item.excerpt.content, 1200)
      && ChunkShown(j, item.source, item.chunk, title, category, content, item.excerpt.similarity)
  }

  /** The search returns every chunk of the answer in order, unchanged but for its content,
      which is shortened, and a reference for each. */
  lemma SearchShowsAnswer(sv: Server, args: Arguments, previous: Results, chunks: seq<Chunk>)
    ensures var o := Produce(sv, RETRIEVE_RUNBOOKS, args, previous, Found(chunks));
            && o.Some? && |o.value.data| == 1 && o.value.data[0].key == "chunks" && o.value.data[0].value.Arr?
            && var js := o.value.data[0].value.items;
            && o.value.summary == "Retrieved " + sv.decimal(|chunks|) + " approved runbook chunks."
            && |js| == |o.value.references| == |chunks|
            && forall i :: 0 <= i < |chunks| ==>
                 && FoundShown(js[i], chunks[i])
                 && o.value.references[i] == Reference(RunbookRef, chunks[i].source + ":" + sv.decimal(chunks[i].chunk),
                                                       Some(chunks[i].source), Some(chunks[i].chunk))
  {
    hide Text.Join, Text.Words;
    var o := Produce(sv, RETRIEVE_RUNBOOKS, args, previous, Found(chunks)).value;
    forall i | 0 <= i < |chunks| ensures FoundShown(o.data[0].value.items[i], chunks[i]) {
      var content := FoundItem(chunks[i]).excerpt.content;
      assert Shortened(content, chunks[i].excerpt.content, 1200);
    }
  }

  predicate Identified(item: ContextItem) { item.source.Some? && item.source.value != "" && item.chunk.Some? }

  /** A reference to this item, which says which chunk it is. */
  ghost predicate RefersTo(sv: Server, r: Reference, item: ContextItem) {
    && Identified(item)
    && r == Reference(RunbookRef, item.source.value + ":" + sv.decimal(item.chunk.value), item.source, item.chunk)
  }

  /** The persisted-context tool returns the first eight items in order, with their texts
      shortened, and references exactly those that say which chunk they are. */
  lemma ContextShowsAnswer(sv: Server, args: Arguments, previous: Results, items: seq<ContextItem>)
    ensures var o := Produce(sv, RESOLUTION_CONTEXT, args, previous, Persisted(items));
            && o.Some? && |o.value.data| == 1 && o.value.data[0].key == "chunks" && o.value.data[0].value.Arr?
            && var js := o.value.data[0].value.items;
            && |js| == Least(|items|, 8)
            && o.value.summary == "Loaded " + sv.decimal(|js|) + " persisted context chunks."
            && (forall i :: 0 <= i < |js| ==> PersistedShown(js[i], items[i]))
            && forall r :: r in o.value.references <==> exists i :: 0 <= i < |js| && RefersTo(sv, r, items[i])
  {
    ContextTool();
    hide Bounded, ItemJson, PersistedShown, ItemReferences, RefersTo;
    var o := Produce(sv, RESOLUTION_CONTEXT, args, previous, Persisted(items)).value;
    var kept := Take(items, 8);
    var shown := seq(|kept|, i requires 0 <= i < |kept| => PersistedItem(kept[i]));
    assert o.data == [Entry("chunks", Arr(ItemsJson(shown)))] && o.references == ItemReferences(sv, shown);
    forall i | 0 <= i < |kept| ensures PersistedShown(ItemJson(shown[i]), items[i]) {
      ItemShown(items[i]);
    }
    forall r ensures r in o.references <==> exists i :: 0 <= i < |kept| && RefersTo(sv, r, items[i]) {
      ItemReferencesIff(sv, shown, r);
      SameReferences(sv, items, shown, r);
    }
  }

  lemma ContextTool()
    ensures RESOLUTION_CONTEXT != GET_INCIDENT && RESOLUTION_CONTEXT != RETRIEVE_RUNBOOKS
    ensures RESOLUTION_CONTEXT != SIMILAR_INCIDENTS && RESOLUTION_CONTEXT != PREVIOUS_RESOLUTIONS
  {
    assert |RESOLUTION_CONTEXT| == 31 && |GET_INCIDENT| == 12 && |RETRIEVE_RUNBOOKS| == 17;
    assert |SIMILAR_INCIDENTS| == 24 && |PREVIOUS_RESOLUTIONS| == 24;
  }

  lemma ItemShown(item: ContextItem)
    ensures PersistedShown(ItemJson(PersistedItem(item)), item)
  {
    hide Text.Join, Text.Words;
    var e := PersistedItem(item).excerpt;
    assert Shortened(e.title, item.excerpt.title, 255) && Shortened(e.category, item.excerpt.category, 100);
    assert Shortened(e.content, item.excerpt.content, 1200);
  }

  lemma SameReferences(sv: Server, items: seq<ContextItem>, shown: seq<ContextItem>, r: Reference)
    requires |shown| <= |items| && forall i :: 0 <= i < |shown| ==> shown[i] == PersistedItem(items[i])
    ensures (exists i :: 0 <= i < |shown| && RefersTo(sv, r, shown[i]))
            <==> exists i :: 0 <= i < |shown| && RefersTo(sv, r, items[i])
  {
    hide Bounded;
    forall i | 0 <= i < |shown| ensures RefersTo(sv, r, shown[i]) <==> RefersTo(sv, r, items[i]) {
      assert shown[i] == PersistedItem(items[i]);
    }
  }

  lemma {:induction false} ItemReferencesIff(sv: Server, items: seq<ContextItem>, r: Reference)
    ensures r in ItemReferences(sv, items) <==> exists i :: 0 <= i < |items| && RefersTo(sv, r, items[i])
  {
    if items != [] {
      var rest := items[1..];
      ItemReferencesIff(sv, rest, r);
      assert r in ItemReferences(sv, items) <==> RefersTo(sv, r, items[0]) || r in ItemReferences(sv, rest);
      hide RefersTo, ItemReferences;
      assert forall i :: 0 <= i < |rest| ==> items[i + 1] == rest[i];
      assert forall i :: 0 < i < |items| ==> items[i] == rest[i - 1];
    }
  }

  /** Loading the incident returns its facts, and names it. */
  lemma IncidentShowsFacts(sv: Server, incident: int, previous: Results, classification: string, severity: string,
                           facts: Fields)
    ensures var o := Produce(sv, GET_INCIDENT, IncidentArgs(incident), previous,
                             IncidentFacts(classification, severity, facts));
            && o.Some? && o.value.data == facts
            && o.value.references == [Reference(IncidentRef, sv.decimal(incident), None, None)]
            && o.value.summary
               == "Loaded incident " + sv.decimal(incident) + ": " + classification + ", severity " + severity + "."
  {
  }

  /** The two listing tools return their records as they come, and a reference for each. */
  lemma ListingShowsRecords(sv: Server, tool: string, args: Arguments, previous: Results, ids: seq<int>,
                            records: seq<Json>)
    requires tool in [SIMILAR_INCIDENTS, PREVIOUS_RESOLUTIONS]
    ensures var o := Produce(sv, tool, args, previous, Listed(ids, records));
            && o.Some? && |o.value.data| == 1 && o.value.data[0].value == Arr(records)
            && o.value.data[0].key == (if tool == SIMILAR_INCIDENTS then "incidents" else "resolutions")
            && o.value.summary
               == (if tool == SIMILAR_INCIDENTS then "Found " + sv.decimal(|ids|) + " similar incident records."
                   else "Loaded " + sv.decimal(|ids|) + " previous resolution summaries.")
            && |o.value.references| == |ids|
            && forall i :: 0 <= i < |ids| ==>
                 var kind := if tool == SIMILAR_INCIDENTS then SimilarIncidentRef else ResolutionRef;
                 o.value.references[i] == Reference(kind, sv.decimal(ids[i]), None, None)
  {
    ToolNamesDiffer();
  }

  lemma ToolNamesDiffer()
    ensures SIMILAR_INCIDENTS != PREVIOUS_RESOLUTIONS && SIMILAR_INCIDENTS != GET_INCIDENT
    ensures SIMILAR_INCIDENTS != RETRIEVE_RUNBOOKS && PREVIOUS_RESOLUTIONS != GET_INCIDENT
    ensures PREVIOUS_RESOLUTIONS != RETRIEVE_RUNBOOKS
  {
    assert SIMILAR_INCIDENTS[0] == 's' && PREVIOUS_RESOLUTIONS[0] == 'g' && RETRIEVE_RUNBOOKS[0] == 'r';
    assert |PREVIOUS_RESOLUTIONS| == 24 && |GET_INCIDENT| == 12;
  }

  /** Every element that is kept stands where it first occurs: before every occurrence of those
      kept after it. */
  ghost predicate FirstBefore<T(!new)>(s: seq<T>, x: T, y: T) {
    exists a :: 0 <= a < |s| && s[a] == x && forall b :: 0 <= b < |s| && s[b] == y ==> a < b
  }

  lemma {:induction false} DistinctInOrder<T(!new)>(s: seq<T>)
    ensures forall i, j :: 0 <= i < j < |Distinct(s)| ==> FirstBefore(s, Distinct(s)[i], Distinct(s)[j])
  {
    if s != [] {
      var init, last := s[..|s| - 1], s[|s| - 1];
      DistinctInOrder(init);
      var r := Distinct(s);
      forall i, j | 0 <= i < j < |r| ensures FirstBefore(s, r[i], r[j]) {
        if j < |Distinct(init)| {
          assert FirstBefore(init, r[i], r[j]);
          var a :| 0 <= a < |init| && init[a] == r[i] && forall b :: 0 <= b < |init| && init[b] == r[j] ==> a < b;
          assert s[a] == r[i];
        } else {
          assert r[j] == last && last !in init && r[i] in init;
          var a :| 0 <= a < |init| && init[a] == r[i];
          assert s[a] == r[i];
        }
      }
    }
  }

  /** References are collected result by result. */
  lemma {:induction false} ReferencesInOrder(first: seq<ToolResult>, rest: seq<ToolResult>)
    ensures ReferencesOf(first + rest) == ReferencesOf(first) + ReferencesOf(rest)
    ensures forall q :: ReferencesOf([q]) == q.references
  {
    forall q ensures ReferencesOf([q]) == q.references {
      assert [q][1..] == [];
    }
    if first == [] {
      assert first + rest == rest;
    } else {
      var all := first + rest;
      assert all[0] == first[0] && all[1..] == first[1..] + rest;
      ReferencesInOrder(first[1..], rest);
      assert ReferencesOf(all) == all[0].references + ReferencesOf(all[1..]);
      assert ReferencesOf(first) == first[0].references + ReferencesOf(first[1..]);
      hide ReferencesOf;
      Regroup(first[0].references, ReferencesOf(first[1..]), ReferencesOf(rest));
    }
  }

  /** The numbers asked for fall into those whose result is at hand and those reported missing. */
  lemma {:induction false} SelectedOrAbsent(previous: Results, numbers: seq<int>, r: ToolResult)
    ensures forall n :: n in Absent(previous, numbers) <==> n in numbers && Get(previous, n).None?
    ensures r in Selected(previous, numbers) <==> exists n :: n in numbers && Get(previous, n) == Some(r)
    ensures |Selected(previous, numbers)| + |Absent(previous, numbers)| == |numbers|
  {
    hide Get;
    if numbers != [] {
      var first, rest := Get(previous, numbers[0]), numbers[1..];
      SelectedOrAbsent(previous, rest, r);
      assert numbers == [numbers[0]] + rest;
      assert r in Selected(previous, numbers) <==> first == Some(r) || r in Selected(previous, rest);
      assert forall n :: n in numbers <==> n == numbers[0] || n in rest;
      if first == Some(r) {
        assert numbers[0] in numbers;
      }
    }
  }

  lemma SelectedCons(previous: Results, numbers: seq<int>, first: seq<ToolResult>)
    requires numbers != [] && first == match Get(previous, numbers[0]) case Some(r) => [r] case None => []
    ensures Selected(previous, numbers) == first + Selected(previous, numbers[1..])
  {
    hide Get;
  }

  /** Both come in the order of the numbers. */
  lemma {:induction false} SelectedInOrder(previous: Results, numbers: seq<int>, rest: seq<int>)
    ensures Selected(previous, numbers + rest) == Selected(previous, numbers) + Selected(previous, rest)
  {
    hide Get;
    if numbers == [] {
      assert numbers + rest == rest;
    } else {
      var all := numbers + rest;
      assert all[0] == numbers[0] && all[1..] == numbers[1..] + rest;
      SelectedInOrder(previous, numbers[1..], rest);
      var first := match Get(previous, numbers[0]) case Some(r) => [r] case None => [];
      SelectedCons(previous, numbers, first);
      SelectedCons(previous, all, first);
      hide Selected;
      Regroup(first, Selected(previous, numbers[1..]), Selected(previous, rest));
    }
  }

  lemma {:induction false} AbsentInOrder(previous: Results, numbers: seq<int>, rest: seq<int>)
    ensures Absent(previous, numbers + rest) == Absent(previous, numbers) + Absent(previous, rest)
  {
    hide Get;
    if numbers == [] {
      assert numbers + rest == rest;
    } else {
      var all := numbers + rest;
      assert all[0] == numbers[0] && all[1..] == numbers[1..] + rest;
      AbsentInOrder(previous, numbers[1..], rest);
      var first := if Get(previous, numbers[0]).None? then [numbers[0]] else [];
      assert Absent(previous, numbers) == first + Absent(previous, numbers[1..]);
      assert Absent(previous, all) == first + Absent(previous, all[1..]);
      hide Absent;
      Regroup(first, Absent(previous, numbers[1..]), Absent(previous, rest));
    }
  }

  /** A summary of evidence: the summaries of the steps found, the numbers of those missing and
      no conflicts, with the references of the steps found, each once. */
  lemma SummaryShowsSteps(sv: Server, previous: Results, numbers: seq<int>)
    ensures var o := Produce(sv, SUMMARIZE_EVIDENCE, StepArgs(numbers), previous, NothingToLoad);
            var found, missing := Selected(previous, Distinct(numbers)), Absent(previous, Distinct(numbers));
            && o.Some? && |o.value.data| == 3
            && o.value.summary == "Normalized " + sv.decimal(|found|) + " evidence steps; " + sv.decimal(|missing|)
                                  + " requested steps were unavailable."
            && o.value.data[0].key == "facts" && o.value.data[0].value.Arr?
            && |o.value.data[0].value.items| == |found|
            && (forall k :: 0 <= k < |found| ==> o.value.data[0].value.items[k] == Str(found[k].summary))
            && o.value.data[1].key == "missing_step_numbers" && o.value.data[1].value.Arr?
            && |o.value.data[1].value.items| == |missing|
            && (forall k :: 0 <= k < |missing| ==> o.value.data[1].value.items[k] == Num(missing[k] as real))
            && o.value.data[2] == Entry("conflicts", Arr([]))
            && (forall r :: r in o.value.references <==> exists k :: 0 <= k < |found| && r in found[k].references)
            && (forall i, j :: 0 <= i < j < |o.value.references| ==> o.value.references[i] != o.value.references[j])
  {
  }

  /** The six tools, and no other, may be called. */
  lemma Allowlist(tool: string)
    ensures tool in TOOL_NAMES <==>
      || tool == "get_incident" || tool == "retrieve_runbooks" || tool == "search_similar_incidents"
      || tool == "get_previous_resolutions" || tool == "get_incident_resolution_context"
      || tool == "summarize_evidence"
  {
    assert TOOL_NAMES[0] == "get_incident" && TOOL_NAMES[1] == "retrieve_runbooks";
    assert TOOL_NAMES[2] == "search_similar_incidents" && TOOL_NAMES[3] == "get_previous_resolutions";
    assert TOOL_NAMES[4] == "get_incident_resolution_context" && TOOL_NAMES[5] == "summarize_evidence";
  }

  /** A call succeeds exactly when nothing stands against it, and its result is the tool's
      output, cleaned. */
  lemma SucceedsIff(sv: Server, incident: int, previous: Results, calls: nat, request: ToolRequest, reply: Reply)
    ensures var o := ExecuteTool(sv, incident, previous, calls, request, reply);
            var args := sv.validate(request.toolName, request.arguments);
            var failed := reply.answer.TimedOut? || reply.answer.ProviderUnavailable?
                          || reply.answer.DatabaseUnavailable?;
            var ready := calls < sv.limits.maxToolCalls && sv.argumentsFit(request.arguments)
                         && request.toolName in TOOL_NAMES && args.Some?
                         && (args.value.IncidentArgs? ==> args.value.incidentId == incident);
            && (o.Unavailable? <==> ready && failed)
            && (o.Succeeded? <==>
                  ready && !failed
                  && var out := Produce(sv, request.toolName, args.value, previous, reply.answer);
                     out.Some? && ValidOutput(out.value) && sv.resultFits(out.value))
            && (o.Succeeded? ==>
                  var out := Produce(sv, request.toolName, args.value, previous, reply.answer).value;
                  && o.result.summary == CleanText(sv.text, out.summary) && o.result.references == out.references
                  && Obj(o.result.data) == Sanitize(sv.text, Obj(out.data), 0)
                  && o.result.durationMs == reply.durationMs)
  {
    hide Produce, TOOL_NAMES, ValidOutput;
  }

  /** What stands behind each outcome: a call over the budget is never made, and a call
      that succeeds names an allowed tool with arguments its schema accepts, for no incident
      but the execution's own, and returns a bounded result. */
  lemma CallsStayInBounds(sv: Server, incident: nat, previous: Results, calls: nat, request: ToolRequest, reply: Reply)
    ensures var o := ExecuteTool(sv, incident, previous, calls, request, reply);
            && (o.OverBudget? <==> calls >= sv.limits.maxToolCalls)
            && (o.Succeeded? ==>
                  && request.toolName in TOOL_NAMES && sv.argumentsFit(request.arguments)
                  && var args := sv.validate(request.toolName, request.arguments);
                  && args.Some? && (args.value.IncidentArgs? ==> args.value.incidentId == incident)
                  && var out := Produce(sv, request.toolName, args.value, previous, reply.answer);
                  && out.Some? && sv.resultFits(out.value)
                  && |o.result.references| <= MAX_REFERENCES && |o.result.summary| <= MAX_TEXT
                  && o.result.toolName == request.toolName)
            && (o.Unavailable? ==>
                  reply.answer.TimedOut? || reply.answer.ProviderUnavailable? || reply.answer.DatabaseUnavailable?)
  {
    hide Produce, TOOL_NAMES, Sanitize;
  }

  /** A succeeded call's result can be stored and read back, every runbook reference in it
      is accounted for, and reading it back shows the same identified chunks. */
  lemma ExecutedResult(sv: Server, incident: nat, previous: Results, calls: nat, request: ToolRequest, reply: Reply)
    requires Rules(sv) && GoodReply(reply) && incident <= MAX_ID && ReadablePrevious(sv, previous)
    requires ExecuteTool(sv, incident, previous, calls, request, reply).Succeeded?
    ensures var q := ExecuteTool(sv, incident, previous, calls, request, reply).result;
            && q.toolName == request.toolName && q.toolName in TOOL_NAMES && calls < sv.limits.maxToolCalls
            && ReadableResult(sv.text, q) && Traceable(q, previous) && SameContext(sv.text, q)
  {
    hide Produce, Rules, GoodAnswer, Plain, ValidReference, Readable, Traceable, SameContext, Sanitize, SummarizeOutput;
    var q := ExecuteTool(sv, incident, previous, calls, request, reply).result;
    var args := sv.validate(request.toolName, request.arguments).value;
    var o := Produce(sv, request.toolName, args, previous, reply.answer).value;
    ToolNamesPlain(request.toolName);
    ProducedResult(sv, request.toolName, args, previous, reply);
    SummaryKept(sv, o.summary);
    assert q == ResultOf(sv, request.toolName, o, reply.durationMs);
  }

  lemma SummaryKept(sv: Server, summary: string)
    requires Rules(sv) && summary != ""
    ensures CleanText(sv.text, summary) != "" && CleanText(sv.text, CleanText(sv.text, summary)) != ""
  {
    hide Plain;
  }

  lemma ProducedResult(sv: Server, tool: string, args: Arguments, previous: Results, reply: Reply)
    requires Rules(sv) && GoodReply(reply) && ReadablePrevious(sv, previous)
    requires args.IncidentArgs? ==> 0 <= args.incidentId <= MAX_ID
    requires var o := Produce(sv, tool, args, previous, reply.answer); o.Some? && ValidOutput(o.value)
    ensures var o := Produce(sv, tool, args, previous, reply.answer).value;
            var q := ResultOf(sv, tool, o, reply.durationMs);
            ReadableReferences(sv, q.references) && Traceable(q, previous) && SameContext(sv.text, q)
  {
    hide Rules, Plain, ValidReference, Readable, Traceable, SameContext, Sanitize, SummarizeOutput, Summaries, Numbers;
    hide PlainOutput, ChunkOutput, ValidOutput, ReadableReferences, GoodAnswer, CleanText, FoundItem, PersistedItem;
    var answer, ms := reply.answer, reply.durationMs;
    var o := Produce(sv, tool, args, previous, answer).value;
    if tool == GET_INCIDENT {
      IncidentResult(sv, args, previous, answer);
      PlainResult(sv, tool, o, ms, previous);
    } else if tool == RETRIEVE_RUNBOOKS {
      FoundOutput(sv, args, previous, answer);
      var items :| ChunkOutput(sv, o, items);
      ChunkResult(sv, tool, o, ms, items);
      TraceableAnywhere(ResultOf(sv, tool, o, ms), previous);
    } else if tool == SIMILAR_INCIDENTS || tool == PREVIOUS_RESOLUTIONS {
      ListedResult(sv, tool, args, previous, answer);
      PlainResult(sv, tool, o, ms, previous);
    } else if tool == RESOLUTION_CONTEXT {
      PersistedOutput(sv, args, previous, answer);
      var items :| ChunkOutput(sv, o, items);
      ChunkResult(sv, tool, o, ms, items);
      TraceableAnywhere(ResultOf(sv, tool, o, ms), previous);
    } else {
      SummaryResult(sv, previous, args.numbers, ms);
    }
  }

  lemma TraceableAnywhere(q: ToolResult, previous: Results)
    requires Traceable(q, [])
    ensures Traceable(q, previous)
  {
    hide ContextEntries;
  }
}
