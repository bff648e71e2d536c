/** What a completed resolution is grounded in, and the invariant of every history. */
module AgentGrounding {
  import opened Dict
  import opened Json
  import opened Sanitization
  import opened AgentModels
  import opened AgentTools
  import opened AgentRecords
  import opened AgentRuns

  lemma {:induction false} FullyDistinct<T(!new)>(s: seq<T>)
    requires |Distinct(s)| == |s|
    ensures NoDuplicates(s)
  {
    if s != [] {
      var init, last := s[..|s| - 1], s[|s| - 1];
      FullyDistinct(init);
      assert last !in init;
      assert s == init + [last];
    }
  }

  // ---- From an allowed citation to the stored context

  function RunbookCitation(c: (string, int)): (Json, Json) { (Str(c.0), Num(c.1 as real)) }

  /** The chunk a citation names is stored with the resolution. */
  ghost predicate InContext(context: seq<Json>, key: (Json, Json)) {
    exists i :: 0 <= i < |context| && ItemKey(context[i]) == Some(key)
  }

  /** It was shown by a result of the runbook search or of the persisted-context tool. */
  ghost predicate FromSource(results: Results, c: Citation) {
    exists i, r :: 0 <= i < |results| && Source(results[i].value, r)
      && r.kind.RunbookRef? && (r.sourceId, r.chunkId) == c
  }

  lemma {:induction false} EntriesCarryTheirKey(js: seq<Json>, e: Entry<(Json, Json), Json>)
    requires e in ItemEntries(js)
    ensures ItemKey(e.value) == Some(e.key)
  {
    hide ItemKey;
    if e in ItemEntries(js[1..]) {
      EntriesCarryTheirKey(js[1..], e);
    }
  }

  lemma {:induction false} AllEntriesCarryTheirKey(results: Results, e: Entry<(Json, Json), Json>)
    requires e in AllEntries(results)
    ensures ItemKey(e.value) == Some(e.key)
  {
    hide ItemKey, ItemEntries;
    var last := results[|results| - 1].value.data;
    if e in ContextEntries(last) {
      EntriesCarryTheirKey(Get(last, "chunks").value.items, e);
    } else {
      AllEntriesCarryTheirKey(results[..|results| - 1], e);
    }
  }

  lemma {:induction false} EntryOfResult(results: Results, i: nat, key: (Json, Json))
    requires i < |results| && HasKey(ContextEntries(results[i].value.data), key)
    ensures HasKey(AllEntries(results), key)
  {
    hide ContextEntries;
    var init, last := results[..|results| - 1], ContextEntries(results[|results| - 1].value.data);
    var all := AllEntries(results);
    if i == |results| - 1 {
      var k :| 0 <= k < |last| && last[k].key == key;
      assert all[|AllEntries(init)| + k].key == key;
    } else {
      EntryOfResult(init, i, key);
      var k :| 0 <= k < |AllEntries(init)| && AllEntries(init)[k].key == key;
      assert all[k].key == key;
    }
  }

  lemma ShownIsStored(results: Results, i: nat, key: (Json, Json))
    requires i < |results| && HasKey(ContextEntries(results[i].value.data), key)
    ensures InContext(RetrievedContext(results), key)
  {
    hide ContextEntries, ItemKey, AllEntries;
    var all := AllEntries(results);
    var d := FromItems(all);
    EntryOfResult(results, i, key);
    FromItemsShape(all);
    assert HasKey(d, key);
    var k :| 0 <= k < |d| && d[k].key == key;
    assert d[k] in all;
    AllEntriesCarryTheirKey(results, d[k]);
    assert RetrievedContext(results)[k] == d[k].value;
  }

  lemma {:induction false} ResultOfEntry(results: Results, key: (Json, Json))
    requires HasKey(AllEntries(results), key)
    ensures Shows(results, key)
  {
    hide ContextEntries;
    var n := |results| - 1;
    var init, last := results[..n], ContextEntries(results[n].value.data);
    var k :| 0 <= k < |AllEntries(results)| && AllEntries(results)[k].key == key;
    if k < |AllEntries(init)| {
      assert AllEntries(init)[k].key == key;
      ResultOfEntry(init, key);
      var i :| 0 <= i < |init| && HasKey(ContextEntries(init[i].value.data), key);
      assert results[i] == init[i];
    } else {
      assert last[k - |AllEntries(init)|].key == key;
      assert HasKey(ContextEntries(results[n].value.data), key);
    }
  }

  /** Some result shows this chunk. */
  ghost predicate Shows(results: Results, key: (Json, Json)) {
    exists i :: 0 <= i < |results| && HasKey(ContextEntries(results[i].value.data), key)
  }

  /** The stored context holds exactly the chunks some result shows. */
  lemma ContextIsShown(results: Results, key: (Json, Json))
    ensures InContext(RetrievedContext(results), key) <==> Shows(results, key)
  {
    hide ContextEntries, ItemKey, AllEntries;
    if Shows(results, key) {
      var i :| 0 <= i < |results| && HasKey(ContextEntries(results[i].value.data), key);
      ShownIsStored(results, i, key);
    }
    if InContext(RetrievedContext(results), key) {
      var all := AllEntries(results);
      var d := FromItems(all);
      var k :| 0 <= k < |d| && ItemKey(d[k].value) == Some(key);
      FromItemsShape(all);
      assert d[k] in d;
      AllEntriesCarryTheirKey(results, d[k]);
      assert HasKey(d, key);
      ResultOfEntry(results, key);
    }
  }

  lemma AllowedIsShown(results: Results, c: Citation)
    requires Explainable(results) && c in Allowed(EvidenceReferences(results))
    ensures FromSource(results, c)
    ensures c.0.Some? && c.1.Some? ==> Shows(results, (Str(c.0.value), Num(c.1.value as real)))
  {
    hide Explainable, ContextEntries, ItemKey;
    var values := Values(results);
    var r :| r in EvidenceReferences(results) && r.kind == RunbookRef && (r.sourceId, r.chunkId) == c;
    assert r in ReferencesOf(values);
    var n :| 0 <= n < |values| && r in values[n].references;
    var k :| 0 <= k < |values[n].references| && values[n].references[k] == r;
    assert Carries(results[n].value, Evidence(r));
    LeadsToSource(results, n, r);
    var i :| 0 <= i <= n && Source(results[i].value, r);
    assert HasKey(ContextEntries(results[i].value.data), CitationKey(r));
  }

  // ---- Memory and rows show the same evidence

  lemma AllowedInBoth(a: Results, b: Results, c: Citation)
    requires |a| == |b| && forall i :: 0 <= i < |a| ==> SameEvidence(a[i].value, b[i].value)
    requires c in Allowed(EvidenceReferences(a))
    ensures c in Allowed(EvidenceReferences(b))
  {
    hide ContextKeys;
    var r :| r in EvidenceReferences(a) && r.kind == RunbookRef && (r.sourceId, r.chunkId) == c;
    assert r in ReferencesOf(Values(a));
    var n :| 0 <= n < |Values(a)| && r in Values(a)[n].references;
    var k :| 0 <= k < |a[n].value.references| && a[n].value.references[k] == r;
    var twin := b[n].value.references[k];
    assert Evidence(r) == Evidence(twin);
    assert twin in Values(b)[n].references && twin in EvidenceReferences(b);
  }

  lemma SameAllowed(sv: Server, memory: Results, restored: Results)
    requires Matches(sv, memory, restored)
    ensures Allowed(EvidenceReferences(memory)) == Allowed(EvidenceReferences(restored))
  {
    hide ContextKeys, EvidenceReferences, Allowed;
    var a, b := Allowed(EvidenceReferences(memory)), Allowed(EvidenceReferences(restored));
    forall c ensures c in a <==> c in b {
      if c in a {
        AllowedInBoth(memory, restored, c);
      }
      if c in b {
        AllowedInBoth(restored, memory, c);
      }
    }
  }

  lemma SameShown(sv: Server, memory: Results, restored: Results, key: (Json, Json))
    requires Matches(sv, memory, restored)
    ensures Shows(memory, key) <==> Shows(restored, key)
  {
    hide ContextEntries, ReadablePrevious;
    forall i | 0 <= i < |memory|
      ensures HasKey(ContextEntries(memory[i].value.data), key) <==> HasKey(ContextEntries(restored[i].value.data), key)
    {
      assert SameEvidence(memory[i].value, restored[i].value);
      SameKeys(ContextEntries(memory[i].value.data), ContextEntries(restored[i].value.data));
    }
  }

  // ---- Completed resolutions

  /** The final answer against the evidence it was drawn from. */
  ghost predicate GroundedAnswer(sv: Server, f: FinalResponse, results: Results, context: seq<Json>) {
    var allowed := Allowed(EvidenceReferences(results));
    && NoDuplicates(f.cited)
    && (forall c :: c in f.cited ==> FromSource(results, Cited(c)) && InContext(context, RunbookCitation(c)))
    && (allowed != {} ==> f.cited != [])
    && (allowed == {} ==> f.cited == [] && f.confidence <= 0.5 && f.escalation && f.review && f.limitations != [])
    && (forall a :: a in f.actions ==> !Dangerous(sv, a))
  }

  /** The resolution against the rows of its execution. */
  ghost predicate GroundedIn(sv: Server, r: Resolution, steps: seq<Step>) {
    && r.final.Some?
    && GroundedAnswer(sv, r.final.value, Restored(steps), r.context)
    && (forall key :: InContext(r.context, key) <==> Shows(Restored(steps), key))
    && r.final.value.toolsUsed == Distinct(SucceededTools(steps))
    && MissingEvidence(steps) == []
  }

  /** Whatever awaits or passed review has a grounded resolution. */
  ghost predicate Grounded(sv: Server, db: Records) {
    db.execution.Some? && Reviewed(db.execution.value.status) ==>
      db.resolution.Some? && GroundedIn(sv, db.resolution.value, db.steps)
  }

  /** A citation the guards allow was shown by a source result and is in the stored context. */
  lemma AllowedIsGrounded(sv: Server, memory: Results, results: Results, c: (string, int))
    requires Explainable(results) && Matches(sv, memory, results)
    requires Cited(c) in Allowed(EvidenceReferences(memory))
    ensures Cited(c) in Allowed(EvidenceReferences(results))
    ensures FromSource(results, Cited(c)) && InContext(RetrievedContext(memory), RunbookCitation(c))
  {
    hide Explainable, RetrievedContext, EvidenceReferences, Allowed, FromSource, InContext, Matches, Shows;
    SameAllowed(sv, memory, results);
    AllowedIsShown(results, Cited(c));
    SameShown(sv, memory, results, RunbookCitation(c));
    ContextIsShown(memory, RunbookCitation(c));
  }

  lemma ValidatedIsGrounded(sv: Server, raw: FinalResponse, tools: seq<string>, memory: Results, results: Results)
    requires Explainable(results) && Matches(sv, memory, results)
    requires ValidateFinal(sv, raw, tools, Allowed(EvidenceReferences(memory))).Some?
    ensures var f := ValidateFinal(sv, raw, tools, Allowed(EvidenceReferences(memory))).value;
            GroundedAnswer(sv, f, results, RetrievedContext(memory)) && f.toolsUsed == tools
  {
    hide Explainable, RetrievedContext, EvidenceReferences, Allowed, FromSource, Dangerous, InContext, Matches, Cited;
    SameAllowed(sv, memory, results);
    FullyDistinct(raw.cited);
    forall c | c in raw.cited
      ensures Cited(c) in Allowed(EvidenceReferences(results))
      ensures FromSource(results, Cited(c)) && InContext(RetrievedContext(memory), RunbookCitation(c))
    {
      AllowedIsGrounded(sv, memory, results, c);
    }
    assert raw.cited != [] ==> Cited(raw.cited[0]) in Allowed(EvidenceReferences(results));
  }

  lemma RecordFinalGrounds(sv: Server, db: Records, c: Commit)
    requires Traced(sv, db.steps) && c.RecordFinal? && LegalFinal(sv, db, c)
    ensures GroundedAnswer(sv, c.answer, Restored(db.steps), RetrievedContext(c.evidence))
    ensures c.answer.toolsUsed == Distinct(SucceededTools(db.steps))
    ensures forall key :: InContext(RetrievedContext(c.evidence), key) <==> Shows(Restored(db.steps), key)
  {
    hide GroundedAnswer, RetrievedContext, EvidenceReferences, Restored, SucceededTools, ValidateFinal;
    hide Explainable, Matches;
    hide InContext, Shows, ValidAnswer;
    ValidatedIsGrounded(sv, c.raw, Distinct(SucceededTools(db.steps)), c.evidence, Restored(db.steps));
    forall key ensures InContext(RetrievedContext(c.evidence), key) <==> Shows(Restored(db.steps), key) {
      ContextIsShown(c.evidence, key);
      SameShown(sv, c.evidence, Restored(db.steps), key);
    }
  }

  /** Only the final commit brings an execution under review. */
  lemma ReviewedBefore(sv: Server, incident: nat, db: Records, c: Commit)
    requires Lockstep(db) && Legal(sv, incident, db, c) && !c.RecordFinal?
    requires var e := Apply(sv, db, c).execution; e.Some? && Reviewed(e.value.status)
    ensures db.execution.Some? && Reviewed(db.execution.value.status)
    ensures Apply(sv, db, c).steps == db.steps && Apply(sv, db, c).resolution == db.resolution
  {
    hide LegalTool, LegalFinal, ToolStep, RejectedStep, FinalStep, Eligible, Repeats, RetrievedContext;
  }

  lemma FinalRowIsQuiet(sv: Server, steps: seq<Step>, references: seq<Reference>)
    ensures var grown := steps + [FinalStep(sv, steps, references)];
            && Restored(grown) == Restored(steps) && SucceededTools(grown) == SucceededTools(steps)
            && MissingEvidence(grown) == MissingEvidence(steps)
  {
    hide Restored, SucceededTools;
    GrowQuietly(sv, steps, FinalStep(sv, steps, references));
  }

  lemma FinalGrounds(sv: Server, incident: nat, db: Records, c: Commit)
    requires Lockstep(db) && Traced(sv, db.steps) && c.RecordFinal? && Legal(sv, incident, db, c)
    ensures Grounded(sv, Apply(sv, db, c))
  {
    hide GroundedAnswer, RetrievedContext, EvidenceReferences, Restored, SucceededTools, LegalTool, FinalStep;
    hide InContext;
    hide ValidateFinal, Eligible, Repeats, Explainable, Shows, Matches, ValidAnswer, MissingEvidence;
    RecordFinalGrounds(sv, db, c);
    FinalRowIsQuiet(sv, db.steps, EvidenceReferences(c.evidence));
  }

  lemma GroundedKept(sv: Server, incident: nat, db: Records, c: Commit)
    requires Lockstep(db) && Grounded(sv, db) && Traced(sv, db.steps) && Legal(sv, incident, db, c)
    ensures Grounded(sv, Apply(sv, db, c))
  {
    hide GroundedIn, Legal, Apply, Lockstep, Traced;
    if c.RecordFinal? {
      FinalGrounds(sv, incident, db, c);
    } else {
      var e := Apply(sv, db, c).execution;
      if e.Some? && Reviewed(e.value.status) {
        ReviewedBefore(sv, incident, db, c);
      }
    }
  }

  // ---- The invariants of every history

  /** What holds of the rows whatever the text rules are. */
  ghost predicate Core(sv: Server, db: Records) {
    Lockstep(db) && Audited(sv, db) && WithinRepeats(sv, db.steps)
  }

  ghost predicate Sound(sv: Server, db: Records) { Core(sv, db) && Traced(sv, db.steps) && Grounded(sv, db) }

  /** One final row and one decision, which a late failure can undo. */
  ghost predicate Closed(db: Records) { Finished(db) && Decided(db) }

  lemma NothingIsCore(sv: Server)
    ensures Core(sv, NO_RECORDS)
  {
  }

  lemma NothingIsSound(sv: Server)
    ensures Sound(sv, NO_RECORDS)
  {
  }

  /** Every commit keeps the structural invariant, a late failure included. */
  lemma CoreKept(sv: Server, incident: nat, db: Records, c: Commit)
    requires Core(sv, db) && Legal(sv, incident, db, c)
    ensures Core(sv, Apply(sv, db, c))
  {
    hide Lockstep, Audited, WithinRepeats, Legal, Apply;
    LockstepKept(sv, incident, db, c);
    AuditKept(sv, incident, db, c);
    RepeatsKept(sv, incident, db, c);
  }

  /** Every commit keeps the whole invariant, a late failure included. */
  lemma SoundKept(sv: Server, incident: nat, db: Records, c: Commit)
    requires Rules(sv) && incident <= MAX_ID && Sound(sv, db) && Legal(sv, incident, db, c)
    ensures Sound(sv, Apply(sv, db, c))
  {
    hide Lockstep, Audited, WithinRepeats, Traced, Grounded, Legal, Apply, Rules;
    CoreKept(sv, incident, db, c);
    TraceKept(sv, incident, db, c);
    GroundedKept(sv, incident, db, c);
  }

  lemma ClosedKept(sv: Server, incident: nat, db: Records, c: Commit)
    requires Lockstep(db) && Closed(db) && Legal(sv, incident, db, c) && !c.RecordLateFailure?
    ensures Closed(Apply(sv, db, c))
  {
    hide Lockstep, Finished, Decided, Legal, Apply;
    FinishedKept(sv, incident, db, c);
    DecidedKept(sv, incident, db, c);
  }

  lemma {:induction false} CoreAfter(sv: Server, incident: nat, start: Records, commits: seq<Commit>)
    requires Core(sv, start) && LegalFrom(sv, incident, start, commits)
    ensures Core(sv, After(sv, start, commits))
  {
    hide Core, Legal, Apply;
    if commits != [] {
      CoreAfter(sv, incident, start, commits[..|commits| - 1]);
      CoreKept(sv, incident, After(sv, start, commits[..|commits| - 1]), commits[|commits| - 1]);
    }
  }

  lemma {:induction false} SoundAfter(sv: Server, incident: nat, start: Records, commits: seq<Commit>)
    requires Rules(sv) && incident <= MAX_ID && Sound(sv, start) && LegalFrom(sv, incident, start, commits)
    ensures Sound(sv, After(sv, start, commits))
  {
    hide Sound, Legal, Apply, Rules;
    if commits != [] {
      SoundAfter(sv, incident, start, commits[..|commits| - 1]);
      SoundKept(sv, incident, After(sv, start, commits[..|commits| - 1]), commits[|commits| - 1]);
    }
  }

  /** The rows of every history have the structure of an execution. */
  lemma RunsAreCore(sv: Server, incident: nat, run: seq<Commit>)
    requires LegalRun(sv, incident, run)
    ensures Core(sv, State(sv, run))
  {
    hide Core, Legal, Apply;
    NothingIsCore(sv);
    CoreAfter(sv, incident, NO_RECORDS, run);
  }

  /** The rows of every history are sound. */
  lemma RunsAreSound(sv: Server, incident: nat, run: seq<Commit>)
    requires Rules(sv) && incident <= MAX_ID && LegalRun(sv, incident, run)
    ensures Sound(sv, State(sv, run))
  {
    hide Sound, Legal, Apply, Rules;
    NothingIsSound(sv);
    SoundAfter(sv, incident, NO_RECORDS, run);
  }

  /** No failure was recorded late. */
  ghost predicate Prompt(run: seq<Commit>) { RecordLateFailure !in run }

  /** Without a late failure there is one final row and at most one decision. */
  lemma {:induction false} RunsAreClosed(sv: Server, incident: nat, run: seq<Commit>)
    requires LegalRun(sv, incident, run) && Prompt(run)
    ensures Closed(State(sv, run))
  {
    hide Closed, Legal, Apply, Lockstep, Audited, WithinRepeats;
    if run == [] {
      NothingIsClosed();
    } else {
      var init := run[..|run| - 1];
      RunsAreClosed(sv, incident, init);
      RunsAreCore(sv, incident, init);
      ClosedKept(sv, incident, State(sv, init), run[|run| - 1]);
    }
  }

  lemma NothingIsClosed()
    ensures Closed(NO_RECORDS)
  {
  }
}
