/** What an attempt keeps in memory, and that rebuilding it from the rows after an
    interruption gives the same guards. */
module AgentResume {
  import opened Dict
  import opened Json
  import opened Sanitization
  import opened AgentModels
  import opened AgentTools
  import opened AgentRecords
  import opened AgentRuns
  import opened AgentGrounding

  /** A `Counter`. */
  function Tally(counts: map<string, nat>, s: string): nat { if s in counts then counts[s] else 0 }

  ghost predicate Tallies(sv: Server, counts: map<string, nat>, steps: seq<Step>, found: nat) {
    forall s :: Tally(counts, s) == SignatureCount(sv, steps, found, s)
  }

  /** A result in memory and in its row: loaded from there, or stored from memory. */
  ghost predicate Copied(p: TextPolicy, memory: ToolResult, restored: ToolResult) {
    restored.data == memory.data || restored.data == Sanitize(p, Obj(memory.data), 1).fields
  }

  ghost predicate AllCopied(p: TextPolicy, memory: Results, restored: Results) {
    |memory| == |restored| && forall i :: 0 <= i < |memory| ==> Copied(p, memory[i].value, restored[i].value)
  }

  /** The loop's variables against the rows: the first `found` were loaded, the others written. */
  ghost predicate Remembers(sv: Server, steps: seq<Step>, found: nat, previous: Results, toolCalls: nat,
                            counts: map<string, nat>)
  {
    && found <= |steps| && Matches(sv, previous, Restored(steps)) && AllCopied(sv.text, previous, Restored(steps))
    && toolCalls == SucceededCount(steps) && Tallies(sv, counts, steps, found)
  }

  lemma RestoredMatches(sv: Server, steps: seq<Step>)
    requires Traced(sv, steps)
    ensures Matches(sv, Restored(steps), Restored(steps)) && AllCopied(sv.text, Restored(steps), Restored(steps))
  {
    hide Restored, ContextEntries, ReadablePrevious, Explainable;
  }

  /** The attempt that writes a row counts it under the signature of its call. */
  lemma TalliesTool(sv: Server, steps: seq<Step>, found: nat, request: ToolRequest, result: ToolResult,
                    counts: map<string, nat>)
    requires found <= |steps| && Tallies(sv, counts, steps, found)
    ensures var s := Signature(sv, request.toolName, Obj(request.arguments));
            Tallies(sv, counts[s := Tally(counts, s) + 1], steps + [ToolStep(sv, steps, request, result)], found)
  {
    hide SignatureCount, Restored, SucceededTools, SucceededCount, Sanitize, ResultJson;
    var step, s := ToolStep(sv, steps, request, result), Signature(sv, request.toolName, Obj(request.arguments));
    Grow(sv, steps, step);
    assert StepSignature(sv, step, false) == s;
  }

  lemma StoredIsCopied(p: TextPolicy, q: ToolResult)
    ensures Copied(p, q, RestoredResult(p, q))
  {
    hide Sanitize;
  }

  /** Recording a tool call keeps memory and rows in step. */
  lemma RemembersTool(sv: Server, incident: nat, db: Records, c: Commit, toolCalls: nat, counts: map<string, nat>)
    requires Rules(sv) && incident <= MAX_ID && Traced(sv, db.steps) && c.RecordTool? && Legal(sv, incident, db, c)
    requires Remembers(sv, db.steps, db.found, c.previous, toolCalls, counts)
    ensures var s := Signature(sv, c.request.toolName, Obj(c.request.arguments));
            Remembers(sv, db.steps + [ToolStep(sv, db.steps, c.request, c.result)], db.found,
                      c.previous + [Entry(|db.steps| + 1, c.result)], toolCalls + 1, counts[s := Tally(counts, s) + 1])
  {
    hide Rules, Restored, SameEvidence, ReadableReferences, Sanitize, Explainable, SignatureCount, ExecuteTool;
    hide Signature;
    hide RestoredResult, ResultJson, Eligible, Repeats, GoodReply, Tallies, StepSignature, Copied;
    var step := ToolStep(sv, db.steps, c.request, c.result);
    RecordToolKeepsTrace(sv, incident, db, c);
    ResultIsReadable(sv, incident, c.previous, SucceededCount(db.steps), c.request, c.reply);
    Grow(sv, db.steps, step);
    StoredIsCopied(sv.text, c.result);
    TalliesTool(sv, db.steps, db.found, c.request, c.result, counts);
  }

  lemma ResultIsReadable(sv: Server, incident: nat, previous: Results, calls: nat, request: ToolRequest, reply: Reply)
    requires Rules(sv) && GoodReply(reply) && incident <= MAX_ID && ReadablePrevious(sv, previous)
    requires ExecuteTool(sv, incident, previous, calls, request, reply).Succeeded?
    ensures ReadableReferences(sv, ExecuteTool(sv, incident, previous, calls, request, reply).result.references)
  {
    hide ExecuteTool, Rules, GoodReply, Readable, ReadablePrevious;
    ExecutedResult(sv, incident, previous, calls, request, reply);
  }

  lemma RemembersQuietly(sv: Server, steps: seq<Step>, found: nat, step: Step, previous: Results, toolCalls: nat,
                         counts: map<string, nat>)
    requires Remembers(sv, steps, found, previous, toolCalls, counts) && !step.outcome.ToolSucceeded?
    ensures Remembers(sv, steps + [step], found, previous, toolCalls, counts)
  {
    hide Restored, SignatureCount, SucceededCount, Matches, AllCopied;
    GrowQuietly(sv, steps, step);
  }

  // ---- The same guards

  lemma {:induction false} SameEntryKeys(a: Results, b: Results)
    requires |a| == |b| && forall i :: 0 <= i < |a| ==> SameEvidence(a[i].value, b[i].value)
    ensures Keys(AllEntries(a)) == Keys(AllEntries(b))
  {
    hide ContextEntries;
    if a != [] {
      SameEntryKeys(a[..|a| - 1], b[..|b| - 1]);
      assert SameEvidence(a[|a| - 1].value, b[|b| - 1].value);
      KeysOfBoth(AllEntries(a[..|a| - 1]), ContextEntries(a[|a| - 1].value.data));
      KeysOfBoth(AllEntries(b[..|b| - 1]), ContextEntries(b[|b| - 1].value.data));
    }
  }

  lemma KeysOfBoth(a: seq<Entry<(Json, Json), Json>>, b: seq<Entry<(Json, Json), Json>>)
    ensures Keys(a + b) == Keys(a) + Keys(b)
  {
  }

  /** Which chunks are stored with a resolution, in order. */
  function StoredChunks(results: Results): seq<(Json, Json)> { Keys(FromItems(AllEntries(results))) }

  /** Storing the result keeps the chunks it shows as they are. */
  ghost predicate ContextKept(p: TextPolicy, q: ToolResult) {
    ContextEntries(Sanitize(p, Obj(q.data), 1).fields) == ContextEntries(q.data)
  }

  lemma {:induction false} SameEntries(p: TextPolicy, a: Results, b: Results)
    requires AllCopied(p, a, b) && forall i :: 0 <= i < |a| ==> ContextKept(p, a[i].value)
    ensures AllEntries(a) == AllEntries(b)
  {
    hide ContextEntries, Sanitize;
    if a != [] {
      SameEntries(p, a[..|a| - 1], b[..|b| - 1]);
      assert Copied(p, a[|a| - 1].value, b[|b| - 1].value) && ContextKept(p, a[|a| - 1].value);
    }
  }

  /** An attempt that wrote these rows itself and one that loaded them after any
      interruption agree on what the loop decides by: the number of calls, which chunks may
      be cited and which are stored; on what is stored of them when storing keeps the chunks
      shown; and on every signature count when the rows the attempt wrote are stable. */
  lemma ResumeIsExact(sv: Server, steps: seq<Step>, found: nat, previous: Results, toolCalls: nat,
                      counts: map<string, nat>, rebuiltCounts: map<string, nat>)
    requires Remembers(sv, steps, found, previous, toolCalls, counts)
    requires Remembers(sv, steps, |steps|, Restored(steps), SucceededCount(steps), rebuiltCounts)
    ensures toolCalls == SucceededCount(steps)
    ensures Allowed(EvidenceReferences(previous)) == Allowed(EvidenceReferences(Restored(steps)))
    ensures StoredChunks(previous) == StoredChunks(Restored(steps))
    ensures (forall i :: 0 <= i < |previous| ==> ContextKept(sv.text, previous[i].value)) ==>
      RetrievedContext(previous) == RetrievedContext(Restored(steps))
    ensures StableFrom(sv, steps, found) ==> forall s :: Tally(counts, s) == Tally(rebuiltCounts, s)
  {
    hide Restored, SignatureCount, SucceededCount, AllEntries, Allowed, EvidenceReferences, StableRow;
    hide SameEvidence, Tally;
    hide FromItems, ReadablePrevious, ContextKept, AllCopied;
    SameAllowed(sv, previous, Restored(steps));
    SameEntryKeys(previous, Restored(steps));
    SameBuiltKeys(AllEntries(previous), AllEntries(Restored(steps)));
    if forall i :: 0 <= i < |previous| ==> ContextKept(sv.text, previous[i].value) {
      SameEntries(sv.text, previous, Restored(steps));
    }
    if StableFrom(sv, steps, found) {
      forall s ensures Tally(counts, s) == Tally(rebuiltCounts, s) {
        LoadedOrWritten(sv, steps, found, |steps|, s);
      }
    }
  }

  // ---- Rebuilding

  lemma {:induction false} AtMostOneEach(steps: seq<Step>)
    ensures |Restored(steps)| <= SucceededCount(steps)
  {
    hide ParseResult;
    if steps != [] {
      AtMostOneEach(steps[..|steps| - 1]);
    }
  }

  /** Reading a stored result back never fails. */
  lemma {:induction false} EachReadsBack(steps: seq<Step>, i: nat)
    requires |Restored(steps)| == SucceededCount(steps) && i < |steps| && steps[i].outcome.ToolSucceeded?
    ensures !steps[i].final && ParseResult(steps[i].result).Some?
  {
    hide ParseResult;
    AtMostOneEach(steps[..|steps| - 1]);
    if i < |steps| - 1 {
      EachReadsBack(steps[..|steps| - 1], i);
    }
  }

  /** The loop that reads results back. */
  method RestoreResults(sv: Server, steps: seq<Step>) returns (results: Results)
    requires Traced(sv, steps) && Numbered(steps)
    ensures results == Restored(steps)
  {
    results := [];
    assert steps[..|steps|] == steps;
    hide Explainable, ReadablePrevious, ParseResult;
    for i := 0 to |steps|
      invariant results == Restored(steps[..i])
      invariant forall k :: 0 <= k < |results| ==> results[k].key <= i
    {
      assert steps[..i + 1][..i] == steps[..i];
      var record := steps[i];
      if !record.final && record.outcome.ToolSucceeded? {
        EachReadsBack(steps, i);
        var parsed := ParseResult(record.result).value;
        PutFresh(results, record.number, parsed);
        results := Put(results, record.number, parsed);
      }
    }
  }

  method CountCalls(steps: seq<Step>) returns (n: nat)
    ensures n == SucceededCount(steps)
  {
    n := 0;
    assert steps[..|steps|] == steps;
    for i := 0 to |steps|
      invariant n == SucceededCount(steps[..i])
    {
      assert steps[..i + 1][..i] == steps[..i];
      if steps[i].outcome.ToolSucceeded? {
        n := n + 1;
      }
    }
  }

  method CountSignatures(sv: Server, steps: seq<Step>) returns (counts: map<string, nat>)
    ensures Tallies(sv, counts, steps, |steps|)
  {
    hide Signature, SignatureCount, Restored, SucceededCount, SucceededTools;
    counts := map[];
    NoSignatures(sv, |steps|);
    assert steps[..|steps|] == steps;
    for i := 0 to |steps|
      invariant Tallies(sv, counts, steps[..i], |steps|)
    {
      assert steps[..i + 1] == steps[..i] + [steps[i]];
      Grow(sv, steps[..i], steps[i]);
      if Succeeds(steps[i]) {
        var s := Signature(sv, steps[i].tool.value, steps[i].arguments);
        counts := counts[s := Tally(counts, s) + 1];
      }
    }
  }

  lemma NoSignatures(sv: Server, found: nat)
    ensures Tallies(sv, map[], [], found)
  {
  }

  lemma {:induction false} ReferencesSnoc(rs: seq<ToolResult>, r: ToolResult)
    ensures ReferencesOf(rs + [r]) == ReferencesOf(rs) + r.references
  {
    if rs != [] {
      assert (rs + [r])[1..] == rs[1..] + [r];
      ReferencesSnoc(rs[1..], r);
    } else {
      assert rs + [r] == [r] && ReferencesOf([r]) == r.references + ReferencesOf([]);
    }
  }

  lemma DistinctSnoc(s: seq<Reference>, x: Reference)
    ensures Distinct(s + [x]) == if x in Distinct(s) then Distinct(s) else Distinct(s) + [x]
  {
    assert (s + [x])[..|s|] == s;
  }

  /** The dictionary of references, keyed by all their fields. */
  method CollectReferences(results: Results) returns (unique: seq<Reference>)
    ensures unique == EvidenceReferences(results)
  {
    hide Distinct, ReferencesOf;
    unique := [];
    ghost var values := Values(results);
    assert values[..|values|] == values;
    assert values[..0] == [];
    NoReferences();
    for i := 0 to |results|
      invariant unique == Distinct(ReferencesOf(values[..i]))
    {
      assert values[..i + 1] == values[..i] + [results[i].value];
      ReferencesSnoc(values[..i], results[i].value);
      unique := AddReferences(unique, ReferencesOf(values[..i]), results[i].value.references);
    }
  }

  lemma NoReferences()
    ensures Distinct(ReferencesOf([])) == []
  {
  }

  method AddReferences(unique: seq<Reference>, ghost before: seq<Reference>, found: seq<Reference>)
    returns (updated: seq<Reference>)
    requires unique == Distinct(before)
    ensures updated == Distinct(before + found)
  {
    hide Distinct;
    updated := unique;
    assert before + found[..0] == before && before + found[..|found|] == before + found;
    for k := 0 to |found|
      invariant updated == Distinct(before + found[..k])
    {
      assert before + found[..k + 1] == before + found[..k] + [found[k]];
      DistinctSnoc(before + found[..k], found[k]);
      if found[k] !in updated {
        updated := updated + [found[k]];
      }
    }
  }

  lemma {:induction false} ItemEntriesSnoc(js: seq<Json>, j: Json)
    ensures ItemEntries(js + [j]) == ItemEntries(js) + match ItemKey(j) case Some(k) => [Entry(k, j)] case None => []
  {
    hide ItemKey;
    if js != [] {
      assert (js + [j])[1..] == js[1..] + [j];
      ItemEntriesSnoc(js[1..], j);
    } else {
      assert js + [j] == [j] && ItemEntries([j][1..]) == [];
    }
  }

  /** The dictionary of chunks, keyed by source and chunk; a later result replaces an
      earlier version in place. */
  method CollectContext(results: Results) returns (context: seq<Json>)
    ensures context == RetrievedContext(results)
  {
    var chunks: seq<Entry<(Json, Json), Json>> := [];
    assert results[..|results|] == results;
    for i := 0 to |results|
      invariant chunks == FromItems(AllEntries(results[..i]))
    {
      assert results[..i + 1][..i] == results[..i];
      var data := results[i].value.data;
      var raw := Get(data, "chunks");
      if raw.Some? && raw.value.Arr? {
        chunks := AddItems(chunks, AllEntries(results[..i]), raw.value.items);
      } else {
        assert AllEntries(results[..i + 1]) == AllEntries(results[..i]);
      }
    }
    context := Values(chunks);
  }

  method AddItems(chunks: seq<Entry<(Json, Json), Json>>, ghost before: seq<Entry<(Json, Json), Json>>,
                  items: seq<Json>)
    returns (updated: seq<Entry<(Json, Json), Json>>)
    requires chunks == FromItems(before)
    ensures updated == FromItems(before + ItemEntries(items))
  {
    updated := chunks;
    assert before + ItemEntries(items[..0]) == before && items[..|items|] == items;
    hide ItemKey, FromItems;
    for k := 0 to |items|
      invariant updated == FromItems(before + ItemEntries(items[..k]))
    {
      assert items[..k + 1] == items[..k] + [items[k]];
      ItemEntriesSnoc(items[..k], items[k]);
      ghost var so := before + ItemEntries(items[..k]);
      var key := ItemKey(items[k]);
      if key.Some? {
        FromItemsSnoc(so, key.value, items[k]);
        assert before + ItemEntries(items[..k + 1]) == so + [Entry(key.value, items[k])];
        updated := Put(updated, key.value, items[k]);
      } else {
        assert before + ItemEntries(items[..k + 1]) == so;
      }
    }
  }
}
