/** The incident worker: polling, idempotent processing, seeking back and committing offsets
    by hand (app/workers/runner.py, app/workers/processor.py), among the other actors. */
module Worker {
  import opened Dict
  import opened AgentModels
  import opened AgentTools
  import opened AgentRecords
  import opened AgentRuns
  import opened AgentGrounding
  import opened AgentHistories
  import opened AgentWorkflow
  import opened Delivery

  datatype ProcessingOutcome = Inserted(verdict: Marker) | AlreadyDone | Raised

  datatype MessageOutcome = WasProcessed | WasDuplicate | WasMalformed | WasFailed | MustRetry

  /** What becomes of an offset commit: done, done but reported failed, or not done. */
  datatype CommitReply = Accepted | Lost | Denied

  // ---- What the other actors leave alone

  /** Not a step of the worker that owns the partition. */
  predicate ByOthers(p: nat, a: Action) {
    match a
    case Poll(q) => q != p
    case AgentStep(q, _, _) => q != p
    case Mark(q) => q != p
    case Skip(q) => q != p
    case SeekBack(q) => q != p
    case CommitOffset(q) => q != p
    case LostCommit(q) => q != p
    case WorkerCrash(q) => q != p
    case _ => true
  }

  ghost predicate Undisturbed(cl: Cluster, s: System, t: System, p: nat)
    requires p < |s.partitions|
  {
    && |t.partitions| == |s.partitions|
    && t.partitions[p].position == s.partitions[p].position && t.partitions[p].committed == s.partitions[p].committed
    && t.partitions[p].consumer == s.partitions[p].consumer && s.partitions[p].log <= t.partitions[p].log
    && (forall e :: e in s.markers ==> e in t.markers) && s.incidents <= t.incidents
    && forall i :: i in s.incidents && cl.partitionOf(i) == p && Verdict(AgentOf(s, i)).Some? ==>
         Verdict(AgentOf(t, i)) == Verdict(AgentOf(s, i))
  }

  lemma OthersDisturbNothing(cl: Cluster, s: System, a: Action, p: nat)
    requires Safe(cl, s) && Enabled(cl, s, a) && ByOthers(p, a) && p < |s.partitions|
    ensures Undisturbed(cl, s, Next(cl, s, a), p)
  {
    hide Next, Enabled, Wired, OneRowEach, Logged, PublishedIsLogged, AllConsumed, Accounted, Truthful;
    hide Lockstep, Verdict;
    hide ByOthers, AgentsCore;
    OthersKeepPartition(cl, s, a, p);
    var t := Next(cl, s, a);
    forall i | i in s.incidents && cl.partitionOf(i) == p && Verdict(AgentOf(s, i)).Some?
      ensures Verdict(AgentOf(t, i)) == Verdict(AgentOf(s, i))
    {
      AgentLockstep(cl, s, i);
      VerdictKept(cl, s, a, i, p);
    }
  }

  lemma ConsumersApart(s: System, a: Action, p: nat)
    requires !OfOutbox(a) && !OfAgent(a) && ConsumerEnabled(s, a) && ByOthers(p, a) && p < |s.partitions|
    ensures |ConsumerNext(s, a).partitions| == |s.partitions| && ConsumerNext(s, a).partitions[p] == s.partitions[p]
  {
    hide Verdict;
  }

  lemma OthersKeepPartition(cl: Cluster, s: System, a: Action, p: nat)
    requires Wired(cl, s) && Enabled(cl, s, a) && ByOthers(p, a) && p < |s.partitions|
    ensures var t := Next(cl, s, a);
            && |t.partitions| == |s.partitions|
            && t.partitions[p].position == s.partitions[p].position
            && t.partitions[p].committed == s.partitions[p].committed
            && t.partitions[p].consumer == s.partitions[p].consumer && s.partitions[p].log <= t.partitions[p].log
            && (forall e :: e in s.markers ==> e in t.markers) && s.incidents <= t.incidents
  {
    hide OutboxNext, OutboxEnabled, ConsumerNext, ConsumerEnabled, AgentEnabled, Wired;
    Frame(cl, s, a);
    RowsStay(cl, s, a);
    LogExtends(cl, s, a, p);
    if !OfOutbox(a) && !OfAgent(a) {
      ConsumersApart(s, a, p);
    }
  }

  lemma VerdictKept(cl: Cluster, s: System, a: Action, i: nat, p: nat)
    requires Wired(cl, s) && Logged(cl, s) && Enabled(cl, s, a) && Lockstep(AgentOf(s, i))
    requires Verdict(AgentOf(s, i)).Some?
    requires ByOthers(p, a) && cl.partitionOf(i) == p
    ensures Verdict(AgentOf(Next(cl, s, a), i)) == Verdict(AgentOf(s, i))
  {
    hide Next, Enabled, Legal, Apply, Lockstep, Verdict, Wired, Logged;
    AgentsOf(cl, s, a, i);
    if AgentOf(Next(cl, s, a), i) != AgentOf(s, i) {
      AgentStepBelongs(cl, s, a);
      VerdictStands(cl.sv, i, AgentOf(s, i), CommitOf(a));
    }
  }

  /** A worker handles only events of its own partition. */
  lemma AgentStepBelongs(cl: Cluster, s: System, a: Action)
    requires Logged(cl, s) && Enabled(cl, s, a)
    ensures a.AgentStep? ==> cl.partitionOf(a.incident) == a.partition
  {
    hide OutboxEnabled, ConsumerEnabled, Legal;
    if a.AgentStep? {
      assert Fits(cl, s, a.partition, s.partitions[a.partition].log[s.partitions[a.partition].consumer.offset]);
    }
  }

  lemma OneMoreAction(cl: Cluster, start: System, actions: seq<Action>, s: System, a: Action)
    requires Rules(cl.sv) && Reaches(cl, start, actions, s) && Enabled(cl, s, a)
    ensures Wired(cl, s) && Reaches(cl, start, actions + [a], Next(cl, s, a))
  {
    hide Rules, Enabled, Next, Wired, OneRowEach, Logged, PublishedIsLogged, AllConsumed, Accounted, Truthful;
    hide AgentsSound;
    hide AgentsCore;
    assert (actions + [a])[..|actions|] == actions;
    SafeKept(cl, s, a);
    AgentsSoundKept(cl, s, a);
  }

  // ---- The agent's commits as steps

  function AgentSteps(p: nat, i: nat, commits: seq<Commit>): (r: seq<Action>)
    ensures |r| == |commits| && forall k :: 0 <= k < |r| ==> r[k] == AgentStep(p, i, commits[k])
  {
    seq(|commits|, k requires 0 <= k < |commits| => AgentStep(p, i, commits[k]))
  }

  function WithAgent(s: System, incident: nat, db: Records): System { s.(agents := s.agents[incident := db]) }

  /** Handling this message, for which no marker exists. */
  ghost predicate Handles(s: System, p: nat, m: Message) { InHand(s, p) && Current(s, p) == m }

  lemma StillHandles(s: System, p: nat, m: Message, db: Records)
    requires Handles(s, p, m)
    ensures m.Event? && Handles(WithAgent(s, m.incident, db), p, m)
    ensures AgentOf(WithAgent(s, m.incident, db), m.incident) == db
    ensures forall more :: WithAgent(WithAgent(s, m.incident, db), m.incident, more) == WithAgent(s, m.incident, more)
  {
    forall more ensures WithAgent(WithAgent(s, m.incident, db), m.incident, more) == WithAgent(s, m.incident, more) {
      assert s.agents[m.incident := db][m.incident := more] == s.agents[m.incident := more];
    }
  }

  lemma AgentStepHolds(cl: Cluster, start: System, actions: seq<Action>, s: System, p: nat, m: Message, c: Commit)
    requires Rules(cl.sv) && Reaches(cl, start, actions, s) && Handles(s, p, m) && m.Event?
    requires Legal(cl.sv, m.incident, AgentOf(s, m.incident), c)
    ensures Reaches(cl, start, actions + [AgentStep(p, m.incident, c)],
                    WithAgent(s, m.incident, Apply(cl.sv, AgentOf(s, m.incident), c)))
  {
    hide Rules, Reaches, Legal, Apply, OutboxNext, OutboxEnabled, ConsumerNext, ConsumerEnabled, Wired;
    var a := AgentStep(p, m.incident, c);
    assert Enabled(cl, s, a);
    OneMoreAction(cl, start, actions, s, a);
    assert Next(cl, s, a) == Commits(cl.sv, s, m.incident, c);
  }

  lemma StepsSnoc(actions: seq<Action>, p: nat, i: nat, commits: seq<Commit>)
    requires commits != []
    ensures var init, c := commits[..|commits| - 1], commits[|commits| - 1];
            actions + AgentSteps(p, i, commits) == actions + AgentSteps(p, i, init) + [AgentStep(p, i, c)]
    ensures commits[..|commits| - 1] == [] ==> actions + AgentSteps(p, i, commits[..|commits| - 1]) == actions
  {
  }

  /** A history of the pipeline that ends with this state, in which the executions are sound. */
  ghost predicate Reaches(cl: Cluster, start: System, actions: seq<Action>, s: System) {
    Leads(cl, start, actions, s) && Safe(cl, s) && AgentsSound(cl, s)
  }

  lemma {:induction false} AgentStepsLead(cl: Cluster, start: System, actions: seq<Action>, s: System, p: nat,
                                          m: Message, commits: seq<Commit>)
    requires Rules(cl.sv) && Reaches(cl, start, actions, s) && Handles(s, p, m) && m.Event? && commits != []
    requires LegalFrom(cl.sv, m.incident, AgentOf(s, m.incident), commits)
    ensures Reaches(cl, start, actions + AgentSteps(p, m.incident, commits),
                    WithAgent(s, m.incident, After(cl.sv, AgentOf(s, m.incident), commits)))
  {
    hide Rules, Reaches, Legal, Apply, Handles, AgentOf, WithAgent, After, LegalFrom, AgentSteps;
    var i := m.incident;
    var init, c := commits[..|commits| - 1], commits[|commits| - 1];
    var db := After(cl.sv, AgentOf(s, i), init);
    LastCommit(cl.sv, i, AgentOf(s, i), commits);
    StepsSnoc(actions, p, i, commits);
    if init != [] {
      AgentStepsLead(cl, start, actions, s, p, m, init);
      StillHandles(s, p, m, db);
      AgentStepHolds(cl, start, actions + AgentSteps(p, i, init), WithAgent(s, i, db), p, m, c);
    } else {
      AgentStepHolds(cl, start, actions, s, p, m, c);
    }
  }

  lemma LastCommit(sv: Server, incident: nat, start: Records, commits: seq<Commit>)
    requires LegalFrom(sv, incident, start, commits) && commits != []
    ensures var init, c := commits[..|commits| - 1], commits[|commits| - 1];
            && LegalFrom(sv, incident, start, init) && Legal(sv, incident, After(sv, start, init), c)
            && After(sv, start, commits) == Apply(sv, After(sv, start, init), c)
            && (init == [] ==> After(sv, start, init) == start)
  {
    hide Legal, Apply;
  }

  // ---- The worker

  class KafkaIncidentWorker {
    const cl: Cluster
    const partition: nat
    var s: System
    var clock: int
    ghost const start: System
    ghost var actions: seq<Action>
    // A transaction of the agent, or the insertion of a marker, was reported failed.
    ghost var failed: bool
    // Whether each poll got a message, and the reply to each offset commit.
    ghost var received: seq<bool>
    ghost var replies: seq<CommitReply>

    constructor (cl: Cluster, partition: nat, found: System, clock: int)
      ensures this.cl == cl && this.partition == partition && s == found == start && actions == []
      ensures !failed && received == [] && replies == []
    {
      this.cl, this.partition, s, start, this.clock := cl, partition, found, found, clock;
      actions, failed, received, replies := [], false, [], [];
    }

    /** Everything so far is a history of the pipeline. */
    ghost predicate Valid()
      reads this
    {
      && Rules(cl.sv) && ValidLimits(cl.sv.limits)
      && Reaches(cl, start, actions, s) && partition < |s.partitions|
    }

    /** One step of the pipeline. */
    method Step(a: Action)
      requires Valid() && Enabled(cl, s, a)
      modifies this`s, this`actions
      ensures Valid() && actions == old(actions) + [a]
      ensures Wired(cl, old(s)) && s == Next(cl, old(s), a)
    {
      hide Rules, Reaches, Enabled, Next, Wired;
      OneMoreAction(cl, start, actions, s, a);
      PartitionsRemain(cl, s, a);
      s := Next(cl, s, a);
      actions := actions + [a];
    }

    /** Any number of steps of the other actors. */
    method Others()
      requires Valid()
      modifies this`s, this`actions
      ensures Valid() && Undisturbed(cl, old(s), s, partition) && old(actions) <= actions
    {
      hide Rules, Safe, Enabled, Leads, Next, Verdict, AgentsSound;
      var n: int := *;
      for k := 0 to if n < 0 then 0 else n
        invariant Valid() && Undisturbed(cl, old(s), s, partition) && old(actions) <= actions
      {
        var a: Action := *;
        if ByOthers(partition, a) && Enabled(cl, s, a) {
          OthersDisturbNothing(cl, s, a, partition);
          Step(a);
        }
      }
    }

    /** Load the incident's rows and run the agent on them. */
    method RunAgent(incident: nat, visible: bool,
                    rows: Records) returns (outcome: Outcome, after: Records, ghost commits: seq<Commit>)
      requires Rules(cl.sv) && ValidLimits(cl.sv.limits) && incident <= MAX_ID && Sound(cl.sv, rows)
      modifies this`clock, this`failed
      ensures LegalFrom(cl.sv, incident, rows, commits) && after == After(cl.sv, rows, commits)
      ensures (old(failed) ==> failed) && (outcome.Crashed? ==> failed)
      ensures outcome.RetryLater? && visible ==> PutOff(after)
      ensures outcome.OutcomeCompleted? ==> Verdict(after) == Some(MarkedCompleted)
      ensures outcome.OutcomeFailed? ==> Verdict(after) == Some(MarkedFailed)
      ensures Verdict(rows).Some? ==> after == rows
      ensures after.execution.None? ==> after == rows && commits == []
    {
      NoCommits(cl.sv, incident, rows);
      hide Rules, Sound, After, LegalFrom, ValidLimits;
      var store := new AgentStore(rows);
      var workflow := new ControlledAgentWorkflow(cl.sv, incident, store, clock);
      outcome := workflow.Resolve(visible);
      clock, failed := workflow.clock, failed || workflow.dbFailed;
      after := Records(store.execution, store.resolution, store.steps, store.feedback, store.found);
      commits := store.history;
      FirstCommitClaims(cl.sv, incident, rows, commits);
    }

    /** The agent's commits become steps of the pipeline. */
    method Store(m: Message, after: Records, ghost commits: seq<Commit>)
      requires Valid() && Handles(s, partition, m) && m.Event? && after.execution.Some?
      requires LegalFrom(cl.sv, m.incident, AgentOf(s, m.incident), commits)
      requires after == After(cl.sv, AgentOf(s, m.incident), commits)
      modifies this`s, this`actions
      ensures Valid() && old(actions) <= actions && s == WithAgent(old(s), m.incident, after)
    {
      hide Rules, Reaches, After, LegalFrom, ValidLimits, Handles;
      if commits != [] {
        AgentStepsLead(cl, start, actions, s, partition, m, commits);
      } else {
        NoCommits(cl.sv, m.incident, AgentOf(s, m.incident));
        Unchanged(s, m.incident, after);
        assert actions + AgentSteps(partition, m.incident, commits) == actions;
      }
      hide AgentSteps;
      actions := actions + AgentSteps(partition, m.incident, commits);
      s := WithAgent(s, m.incident, after);
    }

    /** Run the agent for the message in hand; a delivery that finds the execution settled
        changes nothing. */
    method Resolve(m: Message) returns (outcome: Outcome)
      requires Valid() && Handles(s, partition, m) && m.Event?
      modifies this`s, this`actions, this`clock, this`failed
      ensures Valid() && old(actions) <= actions && Undisturbed(cl, old(s), s, partition)
      ensures (old(failed) ==> failed) && (outcome.Crashed? ==> failed)
      ensures outcome.RetryLater? ==> PutOff(AgentOf(s, m.incident))
      ensures outcome.OutcomeCompleted? ==> Verdict(AgentOf(s, m.incident)) == Some(MarkedCompleted)
      ensures outcome.OutcomeFailed? ==> Verdict(AgentOf(s, m.incident)) == Some(MarkedFailed)
      ensures Verdict(AgentOf(old(s), m.incident)).Some? ==> AgentOf(s, m.incident) == AgentOf(old(s), m.incident)
    {
      hide Rules, Reaches, Sound, After, LegalFrom, ValidLimits, Verdict, Handles, Undisturbed, AgentOf, WithAgent;
      SafeAgent(cl, start, actions, s, m.incident, partition, m);
      SelfUndisturbed(cl, s, partition);
      ghost var before := AgentOf(s, m.incident);
      var verdict, after, commits := RunAgent(m.incident, m.incident in s.incidents, AgentOf(s, m.incident));
      outcome := verdict;
      if after.execution.Some? {
        AgentUndisturbed(cl, s, partition, m.incident, after);
        Store(m, after, commits);
      } else {
        assert after == before;
      }
    }

    /** Insert the marker row. */
    method Insert() returns (inserted: bool)
      modifies this`failed
      ensures failed == (old(failed) || !inserted)
    {
      inserted := *;
      failed := failed || !inserted;
    }

    /** Look for a marker, run the agent, insert the marker. The message is left to be retried
        only when the agent deferred its incident or a transaction failed. */
    method Process(o: nat, m: Message) returns (outcome: ProcessingOutcome)
      requires Valid() && Holds(s, partition, o, m) && m.Event?
      modifies this`s, this`actions, this`clock, this`failed
      ensures Valid() && old(actions) <= actions && Stays(old(s), s, partition)
      ensures outcome.Inserted? ==>
        && Consumes(s, partition, Handled(o)) && m.id in s.markers && s.markers[m.id] == outcome.verdict
        && actions != [] && actions[|actions| - 1] == Mark(partition)
      ensures !outcome.Inserted? ==> Holds(s, partition, o, m)
      ensures outcome.AlreadyDone? ==> m.id in s.markers
      ensures m.id in old(s.markers) ==> outcome.AlreadyDone?
      ensures (old(failed) ==> failed) && (outcome.Raised? ==> failed || PutOff(AgentOf(s, m.incident)))
    {
      hide Rules, Reaches, Sound, ValidLimits, Verdict, Undisturbed, Next, Enabled, PutOff;
      Others();
      StillHolds(cl, old(s), s, partition, o, m);
      if m.id in s.markers {
        return AlreadyDone;
      }
      HeldIsKnown(cl, start, actions, s, partition, o, m);
      ghost var before := s;
      var resolved := Resolve(m);
      StillHolds(cl, before, s, partition, o, m);
      if resolved.RetryLater? || resolved.Crashed? {
        return Raised;
      }
      ghost var settled := s;
      HeldBelongs(cl, start, actions, s, partition, o, m);
      Others();
      StillHolds(cl, settled, s, partition, o, m);
      VerdictStays(cl, settled, s, partition, m.incident);
      if m.id in s.markers {
        return AlreadyDone;
      }
      var inserted := Insert();
      if !inserted {
        return Raised;
      }
      MarkIsNext(cl, s, partition, o, m);
      Step(Mark(partition));
      outcome := Inserted(if resolved.OutcomeCompleted? then MarkedCompleted else MarkedFailed);
    }

    /** Classify one message. Garbage and marked events are never retried. */
    method Handle(o: nat, m: Message) returns (outcome: MessageOutcome)
      requires Valid() && Holds(s, partition, o, m)
      modifies this`s, this`actions, this`clock, this`failed
      ensures Valid() && old(actions) <= actions && (old(failed) ==> failed) && Stays(old(s), s, partition)
      ensures if outcome.MustRetry? then Holds(s, partition, o, m) else Consumes(s, partition, Handled(o))
      ensures outcome.WasMalformed? <==> m.Garbage?
      ensures m.Event? && m.id in old(s.markers) ==> outcome.WasDuplicate?
      ensures outcome.WasDuplicate? ==> m.Event? && m.id in s.markers
      ensures outcome.WasProcessed? ==> m.Event? && m.id in s.markers && s.markers[m.id] == MarkedCompleted
      ensures outcome.WasFailed? ==> m.Event? && m.id in s.markers && s.markers[m.id] == MarkedFailed
      ensures outcome.MustRetry? ==> m.Event? && (failed || PutOff(AgentOf(s, m.incident)))
      // A marker is inserted exactly for an event that was not a duplicate.
      ensures !outcome.MustRetry? ==>
        && actions != []
        && actions[|actions| - 1]
           == if outcome.WasProcessed? || outcome.WasFailed? then Mark(partition) else Skip(partition)
    {
      hide Rules, Reaches, ValidLimits, Next, Enabled, PutOff;
      if m.Garbage? {
        SkipIsNext(cl, s, partition, o, m);
        Step(Skip(partition));
        return WasMalformed;
      }
      var processed := Process(o, m);
      match processed
      case Raised => outcome := MustRetry;
      case AlreadyDone =>
        SkipIsNext(cl, s, partition, o, m);
        Step(Skip(partition));
        outcome := WasDuplicate;
      case Inserted(verdict) => outcome := if verdict.MarkedCompleted? then WasProcessed else WasFailed;
    }

    /** Ask the broker to commit an offset. */
    method AskCommit() returns (reply: CommitReply)
      modifies this`replies
      ensures replies == old(replies) + [reply]
    {
      reply := *;
      replies := replies + [reply];
    }

    /** Commit the offset of a handled message, or seek back to it. A commit that is reported
        failed may have taken effect. */
    method Settle(handled: bool) returns (reply: Option<CommitReply>)
      requires Valid() && !PartAt(s, partition).consumer.Waiting?
      requires handled ==> PartAt(s, partition).consumer.Handled?
      modifies this`s, this`actions, this`replies
      ensures Valid() && old(actions) <= actions && s.markers == old(s.markers) && s.agents == old(s.agents)
      ensures (reply.Some? <==> handled) && replies == old(replies) + ReplyList(reply)
      ensures PartAt(s, partition) == Settled(PartAt(old(s), partition), reply)
    {
      hide Rules, Reaches, ValidLimits, Next, Enabled;
      reply := None;
      if handled {
        var given := AskCommit();
        reply := Some(given);
      }
      if reply in [None, Some(Denied)] {
        SeekIsNext(cl, s, partition);
        Step(SeekBack(partition));
      } else {
        CommitIsNext(cl, s, partition);
        Step(if reply.value.Accepted? then CommitOffset(partition) else LostCommit(partition));
      }
    }

    /** Wait for a message; there may be none, or none arrives in time. */
    method Receive() returns (delivered: bool)
      modifies this`received
      ensures received == old(received) + [delivered]
      ensures delivered ==> PartAt(s, partition).position < |PartAt(s, partition).log|
    {
      delivered := *;
      delivered := delivered && PartAt(s, partition).position < |PartAt(s, partition).log|;
      received := received + [delivered];
    }

    /** One poll. The offset of a message is committed exactly when the message was handled and
        the broker takes the commit; otherwise the message is sought back to. */
    method PollOnce() returns (outcome: Option<MessageOutcome>, reply: Option<CommitReply>)
      requires Valid() && Consumes(s, partition, Waiting)
      modifies this
      ensures Valid() && old(actions) <= actions && (old(failed) ==> failed) && Consumes(s, partition, Waiting)
      ensures received == old(received) + [outcome.Some?] && replies == old(replies) + ReplyList(reply)
      ensures PartAt(old(s), partition).log <= PartAt(s, partition).log
      ensures outcome.None? ==> reply.None? && Moved(PartAt(old(s), partition), PartAt(s, partition), Some(Denied))
      ensures outcome.Some? ==>
        && (reply.None? <==> outcome.value.MustRetry?)
        && Moved(PartAt(old(s), partition), PartAt(s, partition), reply)
        && PartAt(old(s), partition).position < |PartAt(s, partition).log|
        && Classified(outcome.value, PartAt(s, partition).log[PartAt(old(s), partition).position], old(s), s, failed)
    {
      hide Rules, Reaches, ValidLimits, Next, Enabled, Undisturbed, PutOff, Wired;
      ghost var quiet := s;
      Others();
      StillConsumes(cl, quiet, s, partition);
      outcome, reply := None, None;
      var delivered := Receive();
      if !delivered {
        return;
      }
      var part := PartAt(s, partition);
      PollIsNext(cl, s, partition);
      Step(Poll(partition));
      var classified := Handle(part.position, part.log[part.position]);
      outcome := Some(classified);
      reply := Settle(!classified.MustRetry?);
    }

    /** Poll a number of times. The worker's whole run is a history of the pipeline, and between
        two polls its position is its committed offset, or the message before it when the last
        commit took effect and was reported failed. While no message has to be retried and the
        broker takes every commit, each message received moves the committed offset by one. */
    method Run(polls: nat) returns (outcomes: seq<MessageOutcome>)
      requires Valid() && Consumes(s, partition, Waiting)
      modifies this
      ensures Valid() && old(actions) <= actions && Consumes(s, partition, Waiting)
      ensures PartAt(s, partition).position <= PartAt(s, partition).committed <= PartAt(s, partition).position + 1
      ensures PartAt(old(s), partition).committed <= PartAt(s, partition).committed
      ensures |received| == |old(received)| + polls && old(received) <= received && old(replies) <= replies
      ensures |outcomes| == Messages(received[|old(received)|..])
      ensures Smooth(outcomes, replies[|old(replies)|..]) ==>
        && PartAt(s, partition).position == PartAt(old(s), partition).position + |outcomes|
        && (outcomes != [] ==> PartAt(s, partition).committed == PartAt(s, partition).position)
    {
      hide Rules, Reaches, ValidLimits, Next, Enabled, Undisturbed, PutOff, Smooth, Messages, Classified, PartAt;
      hide Consumes, Valid;
      outcomes := [];
      NoneYet(received[|old(received)|..]);
      for k := 0 to polls
        invariant Valid() && old(actions) <= actions && Consumes(s, partition, Waiting)
        invariant PartAt(old(s), partition).committed <= PartAt(s, partition).committed
        invariant |received| == |old(received)| + k && old(received) <= received && old(replies) <= replies
        invariant |outcomes| == Messages(received[|old(received)|..])
        invariant Smooth(outcomes, replies[|old(replies)|..]) ==>
          && PartAt(s, partition).position == PartAt(old(s), partition).position + |outcomes|
          && (outcomes != [] ==> PartAt(s, partition).committed == PartAt(s, partition).position)
      {
        ghost var seen, given := received[|old(received)|..], replies[|old(replies)|..];
        Between();
        var outcome, reply := PollOnce();
        MessagesSnoc(seen, outcome.Some?);
        assert received[|old(received)|..] == seen + [outcome.Some?];
        assert replies[|old(replies)|..] == given + ReplyList(reply);
        if outcome.Some? {
          SmoothSnoc(outcomes, given, outcome.value, reply);
          outcomes := outcomes + [outcome.value];
        } else {
          assert replies[|old(replies)|..] == given;
        }
      }
      Between();
    }

    /** Between two polls the position is the committed offset, or one below it. */
    lemma Between()
      requires Valid() && Consumes(s, partition, Waiting)
      ensures PartAt(s, partition).position <= PartAt(s, partition).committed <= PartAt(s, partition).position + 1
    {
      hide Reaches;
      BetweenPolls(cl, start, actions, s, partition);
    }
  }

  function PartAt(s: System, p: nat): Partition {
    if p < |s.partitions| then s.partitions[p] else Partition([], 0, 0, Waiting)
  }

  /** The place of a consumer that held a message, after the reply to its offset commit, if it
      asked for one. */
  function Settled(part: Partition, reply: Option<CommitReply>): Partition
    requires !part.consumer.Waiting?
  {
    var o := part.consumer.offset;
    part.(consumer := Waiting,
          position := if reply == Some(Accepted) then part.position else o,
          committed := if reply in [Some(Accepted), Some(Lost)] then o + 1 else part.committed)
  }

  function ReplyList(reply: Option<CommitReply>): seq<CommitReply> {
    match reply case Some(r) => [r] case None => []
  }

  /** Where the consumer stands after the message at its position: past it exactly when the
      broker accepted its offset. The offset is committed also when only the reply was lost. */
  ghost predicate Moved(before: Partition, after: Partition, reply: Option<CommitReply>) {
    var o := before.position;
    match reply
    case Some(Accepted) => after.position == after.committed == o + 1
    case Some(Lost) => after.position == o && after.committed == o + 1
    case _ => after.position == o && after.committed == before.committed
  }

  /** How a message was classified. Only an event that had no marker is ever retried, and only
      when a transaction failed or the agent put the incident off. */
  ghost predicate Classified(outcome: MessageOutcome, m: Message, before: System, after: System, failed: bool) {
    && (outcome.WasMalformed? <==> m.Garbage?)
    && (m.Event? ==>
          && (m.id in before.markers ==> outcome.WasDuplicate?)
          && (outcome.MustRetry? ==> failed || PutOff(AgentOf(after, m.incident)))
          && (!outcome.MustRetry? ==> m.id in after.markers)
          && (outcome.WasProcessed? ==> m.id in after.markers && after.markers[m.id] == MarkedCompleted)
          && (outcome.WasFailed? ==> m.id in after.markers && after.markers[m.id] == MarkedFailed))
  }

  /** No message had to be retried, and the broker took every commit. */
  ghost predicate Smooth(outcomes: seq<MessageOutcome>, replies: seq<CommitReply>) {
    && (forall k :: 0 <= k < |outcomes| ==> !outcomes[k].MustRetry?)
    && (forall k :: 0 <= k < |replies| ==> replies[k].Accepted?)
  }

  lemma SmoothSnoc(outcomes: seq<MessageOutcome>, replies: seq<CommitReply>, outcome: MessageOutcome,
                   reply: Option<CommitReply>)
    requires reply.None? <==> outcome.MustRetry?
    ensures Smooth(outcomes + [outcome], replies + ReplyList(reply)) ==>
      Smooth(outcomes, replies) && reply == Some(Accepted)
  {
    var longer, more := outcomes + [outcome], replies + ReplyList(reply);
    if Smooth(longer, more) {
      assert !longer[|outcomes|].MustRetry?;
      assert more[|replies|].Accepted?;
      forall k | 0 <= k < |outcomes| ensures !outcomes[k].MustRetry? {
        assert longer[k] == outcomes[k];
      }
      forall k | 0 <= k < |replies| ensures replies[k].Accepted? {
        assert more[k] == replies[k];
      }
    }
  }

  lemma NoneYet(received: seq<bool>)
    requires received == []
    ensures Messages(received) == 0
  {
  }

  /** Polls that got a message. */
  function Messages(received: seq<bool>): nat {
    if received == [] then 0
    else Messages(received[..|received| - 1]) + if received[|received| - 1] then 1 else 0
  }

  lemma MessagesSnoc(received: seq<bool>, more: bool)
    ensures Messages(received + [more]) == Messages(received) + if more then 1 else 0
  {
    assert (received + [more])[..|received|] == received;
  }

  /** The agent left the execution to be tried again. */
  ghost predicate PutOff(db: Records) { db.execution.Some? && db.execution.value.status.Retryable? }

  /** The consumer's place is where it was, and the log at least as long. */
  ghost predicate Stays(s: System, t: System, p: nat) {
    && p < |s.partitions| == |t.partitions|
    && t.partitions[p].position == s.partitions[p].position && t.partitions[p].committed == s.partitions[p].committed
    && s.partitions[p].log <= t.partitions[p].log
  }

  ghost predicate Consumes(s: System, p: nat, c: Consumer) { p < |s.partitions| && s.partitions[p].consumer == c }

  ghost predicate Holds(s: System, p: nat, o: nat, m: Message) {
    Consumes(s, p, Handling(o)) && o < |s.partitions[p].log| && s.partitions[p].log[o] == m
  }

  lemma StillHolds(cl: Cluster, s: System, t: System, p: nat, o: nat, m: Message)
    requires p < |s.partitions| && Undisturbed(cl, s, t, p) && Holds(s, p, o, m)
    ensures Holds(t, p, o, m) && s.incidents <= t.incidents && Stays(s, t, p)
    ensures forall e :: e in s.markers ==> e in t.markers
  {
  }

  lemma StillConsumes(cl: Cluster, s: System, t: System, p: nat)
    requires p < |s.partitions| && Undisturbed(cl, s, t, p) && Consumes(s, p, Waiting)
    ensures Consumes(t, p, Waiting) && Stays(s, t, p)
    ensures forall e :: e in s.markers ==> e in t.markers
  {
  }

  lemma VerdictStays(cl: Cluster, s: System, t: System, p: nat, i: nat)
    requires p < |s.partitions| && Undisturbed(cl, s, t, p) && i in s.incidents && cl.partitionOf(i) == p
    requires Verdict(AgentOf(s, i)).Some?
    ensures Verdict(AgentOf(t, i)) == Verdict(AgentOf(s, i)) && i in t.incidents
  {
    hide Verdict;
  }

  lemma MarkIsNext(cl: Cluster, s: System, p: nat, o: nat, m: Message)
    requires Holds(s, p, o, m) && m.Event? && m.id !in s.markers && m.incident in s.incidents
    requires Verdict(AgentOf(s, m.incident)).Some?
    ensures Enabled(cl, s, Mark(p))
    ensures Wired(cl, s) ==>
      var t := Next(cl, s, Mark(p));
      && Consumes(t, p, Handled(o)) && Stays(s, t, p)
      && m.id in t.markers && t.markers[m.id] == Verdict(AgentOf(s, m.incident)).value
  {
    hide Verdict, Legal, Apply;
  }

  lemma SkipIsNext(cl: Cluster, s: System, p: nat, o: nat, m: Message)
    requires Holds(s, p, o, m) && (m.Garbage? || m.id in s.markers)
    ensures Enabled(cl, s, Skip(p))
    ensures Wired(cl, s) ==>
      var t := Next(cl, s, Skip(p));
      Consumes(t, p, Handled(o)) && Stays(s, t, p) && t.markers == s.markers
  {
    hide Verdict, Legal, Apply;
  }

  lemma PollIsNext(cl: Cluster, s: System, p: nat)
    requires Consumes(s, p, Waiting) && s.partitions[p].position < |s.partitions[p].log|
    ensures Enabled(cl, s, Poll(p))
    ensures var o := s.partitions[p].position;
            Wired(cl, s) ==>
              var t := Next(cl, s, Poll(p));
              && Holds(t, p, o, s.partitions[p].log[o]) && t.markers == s.markers && |t.partitions| == |s.partitions|
              && t.partitions[p] == s.partitions[p].(position := o + 1, consumer := Handling(o))
  {
    hide Verdict, Legal, Apply;
  }

  lemma CommitIsNext(cl: Cluster, s: System, p: nat)
    requires p < |s.partitions| && s.partitions[p].consumer.Handled?
    ensures Enabled(cl, s, CommitOffset(p)) && Enabled(cl, s, LostCommit(p))
    ensures Wired(cl, s) ==>
      var t, u := Next(cl, s, CommitOffset(p)), Next(cl, s, LostCommit(p));
      && |t.partitions| == |u.partitions| == |s.partitions| && t.markers == u.markers == s.markers
      && t.partitions[p] == Settled(s.partitions[p], Some(Accepted))
      && u.partitions[p] == Settled(s.partitions[p], Some(Lost))
      && t.agents == u.agents == s.agents
  {
    hide Verdict, Legal, Apply;
  }

  lemma SeekIsNext(cl: Cluster, s: System, p: nat)
    requires p < |s.partitions| && !s.partitions[p].consumer.Waiting?
    ensures Enabled(cl, s, SeekBack(p))
    ensures Wired(cl, s) ==>
      var t := Next(cl, s, SeekBack(p));
      && |t.partitions| == |s.partitions| && t.markers == s.markers && t.agents == s.agents
      && t.partitions[p] == Settled(s.partitions[p], None) == Settled(s.partitions[p], Some(Denied))
  {
    hide Verdict, Legal, Apply;
  }

  lemma BetweenPolls(cl: Cluster, start: System, actions: seq<Action>, s: System, p: nat)
    requires Reaches(cl, start, actions, s) && Consumes(s, p, Waiting)
    ensures s.partitions[p].position <= s.partitions[p].committed <= s.partitions[p].position + 1
  {
    hide Leads, Wired, OneRowEach, Logged, PublishedIsLogged, Accounted, Truthful, AgentsSound, AgentsCore;
    assert Consumed(s.partitions[p], s.markers);
  }

  lemma FirstCommitClaims(sv: Server, incident: nat, rows: Records, commits: seq<Commit>)
    requires LegalFrom(sv, incident, rows, commits)
    ensures After(sv, rows, commits).execution.None? ==> commits == [] && After(sv, rows, commits) == rows
  {
    if commits != [] {
      LastCommit(sv, incident, rows, commits);
      hide LegalFrom, After;
      FirstIsClaim(sv, incident, After(sv, rows, commits[..|commits| - 1]), commits[|commits| - 1]);
    }
  }

  lemma SelfUndisturbed(cl: Cluster, s: System, p: nat)
    requires p < |s.partitions|
    ensures Undisturbed(cl, s, s, p)
  {
    hide Verdict;
  }

  lemma AgentUndisturbed(cl: Cluster, s: System, p: nat, i: nat, db: Records)
    requires p < |s.partitions| && (Verdict(AgentOf(s, i)).Some? ==> db == AgentOf(s, i))
    ensures Undisturbed(cl, s, WithAgent(s, i, db), p) && AgentOf(WithAgent(s, i, db), i) == db
  {
    hide Verdict;
  }

  lemma Unchanged(s: System, i: nat, db: Records)
    requires db.execution.Some? && db == AgentOf(s, i)
    ensures WithAgent(s, i, db) == s
  {
    assert s.agents[i := db] == s.agents;
  }

  lemma NoCommits(sv: Server, incident: nat, rows: Records)
    ensures LegalFrom(sv, incident, rows, []) && After(sv, rows, []) == rows
  {
  }

  lemma HeldIsKnown(cl: Cluster, start: System, actions: seq<Action>, s: System, p: nat, o: nat, m: Message)
    requires Reaches(cl, start, actions, s) && Holds(s, p, o, m) && m.Event?
    ensures m.incident in s.incidents
  {
    hide Leads, LocksWired, RowsKnown, OneRowEach, PublishedIsLogged, AllConsumed, Accounted, Truthful, AgentsSound;
    hide AgentsCore;
    assert Fits(cl, s, p, s.partitions[p].log[o]);
  }

  lemma HeldBelongs(cl: Cluster, start: System, actions: seq<Action>, s: System, p: nat, o: nat, m: Message)
    requires Reaches(cl, start, actions, s) && Holds(s, p, o, m) && m.Event?
    ensures cl.partitionOf(m.incident) == p
  {
    hide Leads, Wired, OneRowEach, PublishedIsLogged, AllConsumed, Accounted, Truthful, AgentsSound, AgentsCore;
    assert Fits(cl, s, p, s.partitions[p].log[o]);
  }

  lemma SafeAgent(cl: Cluster, start: System, actions: seq<Action>, s: System, incident: nat, p: nat, m: Message)
    requires Reaches(cl, start, actions, s) && Handles(s, p, m) && m.Event? && m.incident == incident
    ensures Sound(cl.sv, AgentOf(s, incident)) && incident in s.incidents && incident <= MAX_ID
    ensures AgentOf(s, incident).execution.Some? ==> incident in s.agents
  {
    hide Leads, Logged, PublishedIsLogged, AllConsumed, Accounted, Truthful, Sound, AgentsCore, LocksWired, RowsDiffer;
  }

  lemma PartitionsRemain(cl: Cluster, s: System, a: Action)
    requires Wired(cl, s) && Enabled(cl, s, a)
    ensures |Next(cl, s, a).partitions| == |s.partitions|
  {
    hide Next, Enabled, Wired;
    Frame(cl, s, a);
  }
}
