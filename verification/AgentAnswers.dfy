/** What a stored answer owes the resolver's own words, and the context stored beside it. */
module AgentAnswers {
  import opened Dict
  import opened Json
  import opened Sanitization
  import opened AgentModels
  import opened AgentTools
  import opened AgentRecords
  import opened AgentRuns
  import opened AgentGrounding

  // ---- The guards

  /** One of the six phrases no recommended action may contain. */
  predicate Forbidden(phrase: string) {
    || phrase == "rm -rf" || phrase == "drop table" || phrase == "delete from" || phrase == "format c:"
    || phrase == "i restarted" || phrase == "we fixed"
  }

  /** The lowered action is this phrase with something before and after it. */
  ghost predicate Surrounds(sv: Server, action: string, phrase: string) {
    exists before, after :: sv.text.lower(action) == before + phrase + after
  }

  lemma ContainsSurrounds(s: string, part: string)
    ensures Contains(s, part) <==> exists before, after :: s == before + part + after
  {
    if Contains(s, part) {
      var i :| 0 <= i <= |s| && part <= s[i..];
      assert s == s[..i] + part + s[i + |part|..];
    }
    if exists before, after :: s == before + part + after {
      var before, after :| s == before + part + after;
      assert s[|before|..] == part + after;
    }
  }

  lemma ForbiddenIff(phrase: string)
    ensures Forbidden(phrase) <==> phrase in DANGEROUS
  {
    assert DANGEROUS[0] == "rm -rf" && DANGEROUS[1] == "drop table" && DANGEROUS[2] == "delete from";
    assert DANGEROUS[3] == "format c:" && DANGEROUS[4] == "i restarted" && DANGEROUS[5] == "we fixed";
  }

  /** An action is dangerous exactly when, lowered, it contains a forbidden phrase. */
  lemma DangerousIff(sv: Server, action: string)
    ensures Dangerous(sv, action) <==> exists phrase :: Forbidden(phrase) && Surrounds(sv, action, phrase)
  {
    hide Contains, Forbidden, DANGEROUS;
    if Dangerous(sv, action) {
      var i :| 0 <= i < |DANGEROUS| && Contains(sv.text.lower(action), DANGEROUS[i]);
      ForbiddenIff(DANGEROUS[i]);
      ContainsSurrounds(sv.text.lower(action), DANGEROUS[i]);
      assert Surrounds(sv, action, DANGEROUS[i]);
    }
    if exists phrase :: Forbidden(phrase) && Surrounds(sv, action, phrase) {
      var phrase :| Forbidden(phrase) && Surrounds(sv, action, phrase);
      ForbiddenIff(phrase);
      ContainsSurrounds(sv.text.lower(action), phrase);
      var i :| 0 <= i < |DANGEROUS| && DANGEROUS[i] == phrase;
    }
  }

  lemma {:induction false} DistinctOfDifferent<T(!new)>(s: seq<T>)
    requires NoDuplicates(s)
    ensures Distinct(s) == s
  {
    if s != [] {
      var init, last := s[..|s| - 1], s[|s| - 1];
      DistinctOfDifferent(init);
      assert last !in init;
      assert s == init + [last];
    }
  }

  /** An answer passes the guards exactly when it names no tool twice and only tools that
      succeeded, cites no chunk twice, only allowed ones and at least one when there are any, and
      recommends no dangerous action. */
  lemma AcceptedIff(sv: Server, answer: FinalResponse, tools: seq<string>, allowed: set<Citation>)
    ensures ValidateFinal(sv, answer, tools, allowed).Some? <==>
      && NoDuplicates(answer.toolsUsed) && (forall t :: t in answer.toolsUsed ==> t in tools)
      && NoDuplicates(answer.cited) && (forall c :: c in answer.cited ==> (Some(c.0), Some(c.1)) in allowed)
      && (answer.cited == [] ==> allowed == {})
      && (forall a, phrase :: a in answer.actions && Forbidden(phrase) ==> !Surrounds(sv, a, phrase))
  {
    hide Dangerous, Forbidden, Surrounds;
    if |Distinct(answer.toolsUsed)| == |answer.toolsUsed| {
      FullyDistinct(answer.toolsUsed);
    }
    if |Distinct(answer.cited)| == |answer.cited| {
      FullyDistinct(answer.cited);
    }
    if NoDuplicates(answer.toolsUsed) {
      DistinctOfDifferent(answer.toolsUsed);
    }
    if NoDuplicates(answer.cited) {
      DistinctOfDifferent(answer.cited);
    }
    hide Distinct, NoDuplicates;
    forall a ensures Dangerous(sv, a) <==> exists phrase :: Forbidden(phrase) && Surrounds(sv, a, phrase) {
      DangerousIff(sv, a);
    }
  }

  // ---- What becomes of an accepted answer

  /** The stored answer is the resolver's. Only the tools are replaced by those that succeeded;
      without evidence to cite the confidence is capped, escalation and review are asked for and
      a limitation is named. */
  ghost predicate Rendered(raw: FinalResponse, final: FinalResponse, tools: seq<string>, evidence: bool) {
    && final.summary == raw.summary && final.rootCause == raw.rootCause && final.actions == raw.actions
    && final.cited == raw.cited && final.evidenceSummary == raw.evidenceSummary && final.toolsUsed == tools
    && (evidence ==>
          && final.confidence == raw.confidence && final.limitations == raw.limitations
          && final.escalation == raw.escalation && final.review == raw.review)
    && (!evidence ==>
          && final.confidence <= raw.confidence && final.confidence <= 0.5
          && (final.confidence == raw.confidence || final.confidence == 0.5)
          && final.escalation && final.review && final.limitations != []
          && (raw.limitations != [] ==> final.limitations == raw.limitations)
          && (raw.limitations == [] ==>
                final.limitations == ["No citation-addressable runbook evidence was available."]))
  }

  lemma AcceptedIsRendered(sv: Server, raw: FinalResponse, tools: seq<string>, allowed: set<Citation>)
    requires ValidateFinal(sv, raw, tools, allowed).Some?
    ensures Rendered(raw, ValidateFinal(sv, raw, tools, allowed).value, tools, allowed != {})
  {
    hide Acceptable;
  }

  /** The evidence of these rows lets an answer cite something. */
  ghost predicate Citable(steps: seq<Step>) { Allowed(EvidenceReferences(Restored(steps))) != {} }

  /** The k-th commit is the last final one, and the resolution's answer renders what it was
      given. */
  ghost predicate AnsweredBy(sv: Server, run: seq<Commit>, k: nat, answer: FinalResponse)
    requires k < |run|
  {
    && run[k].RecordFinal? && (forall j :: k < j < |run| ==> !run[j].RecordFinal?)
    && ValidAnswer(run[k].raw)
    && var steps := State(sv, run[..k]).steps;
       Rendered(run[k].raw, answer, Distinct(SucceededTools(steps)), Citable(steps))
  }

  function Answer(db: Records): Option<FinalResponse> {
    if db.resolution.Some? then db.resolution.value.final else None
  }

  lemma AnswerOfFinal(sv: Server, incident: nat, db: Records, c: Commit)
    requires Legal(sv, incident, db, c) && c.RecordFinal? && Answer(Apply(sv, db, c)).Some?
    ensures ValidAnswer(c.raw)
    ensures Rendered(c.raw, Answer(Apply(sv, db, c)).value, Distinct(SucceededTools(db.steps)), Citable(db.steps))
  {
    hide ValidateFinal, Allowed, EvidenceReferences, Restored, Matches, SucceededTools, Distinct, RetrievedContext;
    hide Rendered, ValidAnswer, MissingEvidence, FinalStep;
    AcceptedIsRendered(sv, c.raw, Distinct(SucceededTools(db.steps)), Allowed(EvidenceReferences(c.evidence)));
    SameAllowed(sv, c.evidence, Restored(db.steps));
  }

  lemma AnswerStays(sv: Server, incident: nat, db: Records, c: Commit)
    requires !c.RecordFinal? && Answer(Apply(sv, db, c)).Some?
    ensures Answer(db) == Answer(Apply(sv, db, c))
  {
    hide ToolStep, RejectedStep;
  }

  /** In every history the stored answer is that of the last final commit: the resolver's own
      words, within their bounds and changed only where the evidence asks for it. */
  lemma {:induction false} AnswersAreRendered(sv: Server, incident: nat, run: seq<Commit>) returns (k: nat)
    requires LegalRun(sv, incident, run) && Answer(State(sv, run)).Some?
    ensures k < |run| && AnsweredBy(sv, run, k, Answer(State(sv, run)).value)
  {
    hide Legal, Apply, Rendered, Distinct, SucceededTools, Citable, ValidAnswer;
    assert run != [];
    var init, c := run[..|run| - 1], run[|run| - 1];
    if c.RecordFinal? {
      AnswerOfFinal(sv, incident, State(sv, init), c);
      k := |run| - 1;
    } else {
      AnswerStays(sv, incident, State(sv, init), c);
      k := AnswersAreRendered(sv, incident, init);
      assert init[..k] == run[..k] && run[k] == init[k];
      assert forall j :: k < j < |init| ==> run[j] == init[j];
    }
  }

  /** What the row of a call tells: its number, the tool, its arguments and its result as they are
      stored, and the references of the result. */
  lemma CallRowTells(sv: Server, steps: seq<Step>, request: ToolRequest, result: ToolResult)
    ensures var row := ToolStep(sv, steps, request, result);
            && row.number == |steps| + 1 && !row.final && row.tool == Some(request.toolName)
            && row.outcome == ToolSucceeded && row.references == result.references
            && row.arguments == Sanitize(sv.text, Obj(request.arguments), 0)
            && row.result == Sanitize(sv.text, ResultJson(result), 0)
  {
    hide Sanitize, ResultJson;
  }

  /** A chunk may be cited exactly when a runbook reference names it. */
  lemma AllowedIff(references: seq<Reference>, c: Citation)
    ensures c in Allowed(references) <==>
      exists k :: 0 <= k < |references| && references[k].kind.RunbookRef?
        && references[k].sourceId == c.0 && references[k].chunkId == c.1
  {
  }

  // ---- The stored chunks

  /** This item of the list says which chunk it is, and none after it is of the same chunk. */
  ghost predicate LastOfItsChunk(js: seq<Json>, n: nat)
    requires n < |js|
  {
    ItemKey(js[n]).Some? && forall m :: n < m < |js| ==> ItemKey(js[m]) != ItemKey(js[n])
  }

  ghost predicate ListsLast(js: seq<Json>, item: Json) {
    exists n :: 0 <= n < |js| && js[n] == item && LastOfItsChunk(js, n)
  }

  /** The chunks a result lists. */
  function Listing(q: ToolResult): seq<Json> {
    match Get(q.data, "chunks")
    case Some(v) => if v.Arr? then v.items else []
    case None => []
  }

  lemma {:induction false} EntriesHaveKey(js: seq<Json>, key: (Json, Json))
    ensures HasKey(ItemEntries(js), key) <==> exists n :: 0 <= n < |js| && ItemKey(js[n]) == Some(key)
  {
    hide ItemKey;
    if exists n :: 0 <= n < |js| && ItemKey(js[n]) == Some(key) {
      var n :| 0 <= n < |js| && ItemKey(js[n]) == Some(key);
      EntryAt(js, n);
    }
    if HasKey(ItemEntries(js), key) {
      var es := ItemEntries(js);
      var i :| 0 <= i < |es| && es[i].key == key;
      EntryFrom(js, es[i]);
    }
  }

  lemma {:induction false} EntryFrom(js: seq<Json>, e: Entry<(Json, Json), Json>)
    requires e in ItemEntries(js)
    ensures exists n :: 0 <= n < |js| && js[n] == e.value && ItemKey(js[n]) == Some(e.key)
  {
    hide ItemKey;
    if e in ItemEntries(js[1..]) {
      EntryFrom(js[1..], e);
      var n :| 0 <= n < |js[1..]| && js[1..][n] == e.value && ItemKey(js[1..][n]) == Some(e.key);
      assert js[n + 1] == e.value;
    } else {
      assert js[0] == e.value;
    }
  }

  lemma ListsLastStep(js: seq<Json>, item: Json, key: (Json, Json))
    requires js != [] && ItemKey(item) == Some(key)
    ensures ListsLast(js, item) <==>
      || ListsLast(js[1..], item)
      || (js[0] == item && forall m :: 0 <= m < |js[1..]| ==> ItemKey(js[1..][m]) != Some(key))
  {
    hide ItemKey;
    var rest := js[1..];
    assert forall m :: 0 < m < |js| ==> js[m] == rest[m - 1];
    if ListsLast(rest, item) {
      var n :| 0 <= n < |rest| && rest[n] == item && LastOfItsChunk(rest, n);
      assert js[n + 1] == item;
      forall m | n + 1 < m < |js| ensures ItemKey(js[m]) != ItemKey(js[n + 1]) {
        assert js[m] == rest[m - 1];
      }
      assert LastOfItsChunk(js, n + 1);
    }
    if ListsLast(js, item) {
      var n :| 0 <= n < |js| && js[n] == item && LastOfItsChunk(js, n);
      if n > 0 {
        forall m | n - 1 < m < |rest| ensures ItemKey(rest[m]) != ItemKey(rest[n - 1]) {
          assert rest[m] == js[m + 1];
        }
        assert LastOfItsChunk(rest, n - 1);
      } else {
        assert forall m :: 0 <= m < |rest| ==> rest[m] == js[m + 1];
      }
    }
    if js[0] == item && forall m :: 0 <= m < |rest| ==> ItemKey(rest[m]) != Some(key) {
      assert LastOfItsChunk(js, 0);
    }
  }

  lemma LastEntryCons(first: seq<Entry<(Json, Json), Json>>, rest: seq<Entry<(Json, Json), Json>>,
                      e: Entry<(Json, Json), Json>)
    ensures LastEntry(first + rest, e) <==> LastEntry(rest, e) || (LastEntry(first, e) && !HasKey(rest, e.key))
  {
    var all := first + rest;
    if LastEntry(rest, e) {
      var i :| 0 <= i < |rest| && rest[i] == e && Last(rest, i);
      assert all[|first| + i] == e;
      forall j | |first| + i < j < |all| ensures all[j].key != all[|first| + i].key {
        assert all[j] == rest[j - |first|];
      }
      assert Last(all, |first| + i);
    }
    if LastEntry(first, e) && !HasKey(rest, e.key) {
      var i :| 0 <= i < |first| && first[i] == e && Last(first, i);
      forall j | i < j < |all| ensures all[j].key != all[i].key {
        assert all[j] == if j < |first| then first[j] else rest[j - |first|];
      }
      assert Last(all, i);
    }
    if LastEntry(all, e) {
      var i :| 0 <= i < |all| && all[i] == e && Last(all, i);
      if i >= |first| {
        forall j | i - |first| < j < |rest| ensures rest[j].key != rest[i - |first|].key {
          assert rest[j] == all[j + |first|];
        }
        assert Last(rest, i - |first|);
      } else {
        forall j | i < j < |first| ensures first[j].key != first[i].key {
          assert first[j] == all[j];
        }
        assert Last(first, i);
        forall j | 0 <= j < |rest| ensures rest[j].key != e.key {
          assert rest[j] == all[j + |first|];
        }
      }
    }
  }

  lemma {:induction false} LastEntryIsListed(js: seq<Json>, item: Json, key: (Json, Json))
    requires ItemKey(item) == Some(key)
    ensures LastEntry(ItemEntries(js), Entry(key, item)) <==> ListsLast(js, item)
  {
    hide ItemKey;
    if js != [] {
      var rest := js[1..];
      var first := match ItemKey(js[0]) case Some(k) => [Entry(k, js[0])] case None => [];
      LastEntryIsListed(rest, item, key);
      ListsLastStep(js, item, key);
      LastEntryCons(first, ItemEntries(rest), Entry(key, item));
      EntriesHaveKey(rest, key);
      assert LastEntry(first, Entry(key, item)) <==> js[0] == item by {
        if js[0] == item {
          assert Last(first, 0);
        }
      }
    }
  }

  /** With one more result, the stored chunks are those it lists, in its words, and of the other
      chunks the items stored before. */
  lemma ContextIsLastShown(results: Results, more: Entry<int, ToolResult>, item: Json)
    ensures RetrievedContext([]) == []
    ensures item in RetrievedContext(results + [more]) <==>
      || ListsLast(Listing(more.value), item)
      || (&& item in RetrievedContext(results)
          && forall other :: other in Listing(more.value) ==> ItemKey(other) != ItemKey(item))
  {
    hide ItemKey, Get;
    var js, all := Listing(more.value), results + [more];
    assert all[..|results|] == results;
    assert AllEntries(all) == AllEntries(results) + ItemEntries(js);
    StoredIff(all, item);
    StoredIff(results, item);
    if ItemKey(item).Some? {
      var e := Entry(ItemKey(item).value, item);
      LastEntryCons(AllEntries(results), ItemEntries(js), e);
      LastEntryIsListed(js, item, e.key);
      EntriesHaveKey(js, e.key);
    }
  }

  lemma StoredIff(results: Results, item: Json)
    ensures item in RetrievedContext(results) <==>
      ItemKey(item).Some? && LastEntry(AllEntries(results), Entry(ItemKey(item).value, item))
  {
    hide ItemKey, AllEntries, LastEntry;
    var d := FromItems(AllEntries(results));
    if item in RetrievedContext(results) {
      var i :| 0 <= i < |d| && d[i].value == item;
      BuiltEntries(AllEntries(results), d[i]);
      FromItemsShape(AllEntries(results));
      AllEntriesCarryTheirKey(results, d[i]);
    }
    if ItemKey(item).Some? {
      var e := Entry(ItemKey(item).value, item);
      BuiltEntries(AllEntries(results), e);
      if e in d {
        var i :| 0 <= i < |d| && d[i] == e;
        assert Values(d)[i] == item;
      }
    }
  }
}
