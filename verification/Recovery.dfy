/** From every state the pipeline can reach, whatever failed before, it can go on to publish,
    process and commit every incident (app/events/dispatcher.py, app/workers). */
module Recovery {
  import opened Dict
  import opened AgentTools
  import opened AgentRecords
  import opened AgentRuns
  import opened AgentGrounding
  import opened AgentHistories
  import opened Delivery
  import Worker

  // ---- Reaching a state

  /** Some steps lead from one safe state to another. */
  ghost predicate Can(cl: Cluster, s: System, t: System) { Safe(cl, t) && exists run :: Leads(cl, s, run, t) }

  lemma Stay(cl: Cluster, s: System)
    requires Safe(cl, s)
    ensures Can(cl, s, s)
  {
    hide Safe;
    assert Leads(cl, s, [], s);
  }

  lemma {:induction false} LeadsOn(cl: Cluster, s: System, first: seq<Action>, t: System, rest: seq<Action>, u: System)
    requires Leads(cl, s, first, t) && Leads(cl, t, rest, u)
    ensures Leads(cl, s, first + rest, u)
    decreases rest
  {
    hide Enabled, Next, Wired;
    if rest == [] {
      assert first + rest == first;
    } else {
      var init := rest[..|rest| - 1];
      var before :| Leads(cl, t, init, before) && Wired(cl, before)
        && Enabled(cl, before, rest[|rest| - 1]) && u == Next(cl, before, rest[|rest| - 1]);
      LeadsOn(cl, s, first, t, init, before);
      assert (first + rest)[..|first + rest| - 1] == first + init;
    }
  }

  lemma Then(cl: Cluster, s: System, t: System, u: System)
    requires Can(cl, s, t) && Can(cl, t, u)
    ensures Can(cl, s, u)
  {
    hide Safe, Leads;
    var first :| Leads(cl, s, first, t);
    var rest :| Leads(cl, t, rest, u);
    LeadsOn(cl, s, first, t, rest, u);
  }

  /** One step. */
  lemma Do(cl: Cluster, s: System, a: Action) returns (t: System)
    requires Safe(cl, s) && Enabled(cl, s, a)
    ensures Wired(cl, s) && t == Next(cl, s, a) && Can(cl, s, t)
  {
    hide Enabled, Next, OneRowEach, Logged, PublishedIsLogged, AllConsumed, Truthful, AgentsCore, Accounted, Wired;
    t := Next(cl, s, a);
    SafeKept(cl, s, a);
    hide Safe;
    assert [a][..0] == [];
    assert Leads(cl, s, [], s);
    assert Leads(cl, s, [a], t);
  }

  /** One more step on the way. */
  lemma DoNext(cl: Cluster, start: System, s: System, a: Action) returns (t: System)
    requires Can(cl, start, s) && Enabled(cl, s, a)
    ensures Wired(cl, s) && t == Next(cl, s, a) && Can(cl, start, t)
  {
    hide Enabled, Next, Safe, Leads, Wired;
    t := Do(cl, s, a);
    Then(cl, start, s, t);
  }

  // ---- What a dispatcher's steps do

  /** A crash gives the lock back, and the attempt is lost with it if its event was sent. */
  lemma CrashUnlocks(cl: Cluster, s: System, d: int)
    requires Wired(cl, s) && d in s.dispatchers
    ensures Enabled(cl, s, DispatcherCrash(d))
    ensures var t := Next(cl, s, DispatcherCrash(d));
            && t.dispatchers == s.dispatchers - {d} && t.outbox == s.outbox && t.incidents == s.incidents
            && var e := s.dispatchers[d].event;
               t.lost == s.lost[e := if s.dispatchers[d].Attempted? && s.dispatchers[d].sent then s.lost[e] + 1
                                     else s.lost[e]]
  {
  }

  lemma LockHolds(cl: Cluster, s: System, d: int, e: int)
    requires Wired(cl, s) && d !in s.dispatchers && e in s.outbox && !s.outbox[e].published && !Locked(s, e)
    ensures Enabled(cl, s, Lock(d, e))
    ensures var t := Next(cl, s, Lock(d, e));
            && t.dispatchers == s.dispatchers[d := Holding(e)] && t.outbox == s.outbox && t.incidents == s.incidents
  {
  }

  /** A send is remembered with its outcome. */
  lemma PublishSends(cl: Cluster, s: System, d: int, sending: Sending, acknowledged: bool)
    requires Wired(cl, s) && d in s.dispatchers && s.dispatchers[d].Holding? && (acknowledged ==> sending.Appended?)
    ensures Enabled(cl, s, Publish(d, sending, acknowledged))
    ensures var t, e := Next(cl, s, Publish(d, sending, acknowledged)), s.dispatchers[d].event;
            && t.dispatchers == s.dispatchers[d := Attempted(e, !sending.Dropped?, acknowledged)]
            && t.outbox == s.outbox && t.incidents == s.incidents
  {
  }

  /** Recording an attempt marks the row published exactly when its send was acknowledged, counts
      one attempt, gives the lock back and touches no other row. */
  lemma DispatchRecorded(cl: Cluster, s: System, d: int)
    requires Wired(cl, s) && d in s.dispatchers && s.dispatchers[d].Attempted?
    ensures Enabled(cl, s, RecordDispatch(d))
    ensures var t, e := Next(cl, s, RecordDispatch(d)), s.dispatchers[d].event;
            && e in s.outbox && e in t.outbox
            && (t.outbox[e].published <==> s.dispatchers[d].acknowledged)
            && t.outbox[e].attempts == s.outbox[e].attempts + 1 && t.outbox[e].incident == s.outbox[e].incident
            && t.outbox == s.outbox[e := t.outbox[e]] && t.dispatchers == s.dispatchers - {d}
            && t == s.(outbox := t.outbox, dispatchers := t.dispatchers)
  {
  }

  /** A new incident comes with its event's row, which nobody has tried to publish. */
  lemma IncidentCreated(cl: Cluster, s: System, i: nat, e: int)
    requires Wired(cl, s) && Enabled(cl, s, CreateIncident(i, e))
    ensures i !in s.incidents && e !in s.outbox
    ensures var t := Next(cl, s, CreateIncident(i, e));
            && t.incidents == s.incidents + {i} && e in t.outbox && t.outbox == s.outbox[e := t.outbox[e]]
            && t.outbox[e].incident == i && t.outbox[e].attempts == 0 && !t.outbox[e].published
            && t == s.(incidents := t.incidents, outbox := t.outbox, lost := s.lost[e := 0])
  {
  }

  lemma {:induction false} AnotherDispatcher(held: set<int>) returns (d: int)
    ensures forall x :: x in held ==> x < d
  {
    if x :| x in held {
      var rest := AnotherDispatcher(held - {x});
      d := if x >= rest then x + 1 else rest;
      forall y | y in held ensures y < d {
        assert y == x || y in held - {x};
      }
    } else {
      d := 0;
    }
  }

  /** A row is still the row of its incident. */
  lemma RowRemains(cl: Cluster, s: System, a: Action, i: nat, e: int)
    requires Wired(cl, s) && Enabled(cl, s, a) && RowFor(s, i, e)
    ensures RowFor(Next(cl, s, a), i, e) && s.incidents <= Next(cl, s, a).incidents
  {
    hide Enabled, Next, Wired;
    RowsStay(cl, s, a);
  }

  /** No lock is held on the row, or whoever holds it crashes. */
  lemma Free(cl: Cluster, s: System, i: nat, e: int) returns (t: System, d: int)
    requires Safe(cl, s) && RowFor(s, i, e)
    ensures Can(cl, s, t) && t.outbox == s.outbox && !Locked(t, e) && d !in t.dispatchers
  {
    hide OneRowEach, Logged, PublishedIsLogged, AllConsumed, Truthful, AgentsCore, Accounted, Can, Enabled, Next;
    hide OutboxWired, RowsKnown, LocksOnRows;
    if Locked(s, e) {
      d :| d in s.dispatchers && s.dispatchers[d].event == e;
      CrashUnlocks(cl, s, d);
      t := Do(cl, s, DispatcherCrash(d));
    } else {
      Stay(cl, s);
      t := s;
      d := AnotherDispatcher(s.dispatchers.Keys);
    }
  }

  /** The row can be published. */
  lemma CanPublish(cl: Cluster, s: System, i: nat, e: int) returns (t: System)
    requires Safe(cl, s) && RowFor(s, i, e)
    ensures Can(cl, s, t) && RowFor(t, i, e) && t.outbox[e].published
  {
    hide Safe, Can, Enabled, Next, Wired;
    if s.outbox[e].published {
      Stay(cl, s);
      return s;
    }
    var free, d := Free(cl, s, i, e);
    CanIsSafe(cl, s, free);
    LockHolds(cl, free, d, e);
    var held := DoNext(cl, s, free, Lock(d, e));
    CanIsSafe(cl, s, held);
    PublishSends(cl, held, d, Appended, true);
    var sent := DoNext(cl, s, held, Publish(d, Appended, true));
    CanIsSafe(cl, s, sent);
    DispatchRecorded(cl, sent, d);
    t := DoNext(cl, s, sent, RecordDispatch(d));
  }

  lemma CanIsSafe(cl: Cluster, s: System, t: System)
    requires Can(cl, s, t)
    ensures Safe(cl, t) && Wired(cl, t)
  {
    hide Leads, RowsWired, LocksWired, OneRowEach, Logged, PublishedIsLogged, AllConsumed, Truthful, AgentsCore;
    hide Accounted;
  }

  // ---- What the broker, a crash and a reviewer can do at any time

  /** A delayed message is appended to the partition of its incident. */
  lemma MessageArrives(cl: Cluster, s: System, e: int)
    requires Wired(cl, s) && e in s.pending
    ensures Enabled(cl, s, Arrive(e)) && e in s.outbox
    ensures var t, i := Next(cl, s, Arrive(e)), s.outbox[e].incident;
            && cl.partitionOf(i) < |s.partitions| == |t.partitions| && t.pending == s.pending - multiset{e}
            && t.partitions[cl.partitionOf(i)].log == s.partitions[cl.partitionOf(i)].log + [Event(e, i)]
  {
  }

  /** Anything may be written to a topic, and a worker may restart, from its committed offset. */
  lemma AnythingHappens(cl: Cluster, s: System, p: nat)
    requires Wired(cl, s) && p < |s.partitions|
    ensures Enabled(cl, s, Inject(p)) && Enabled(cl, s, WorkerCrash(p))
    ensures var t, u := Next(cl, s, Inject(p)), Next(cl, s, WorkerCrash(p));
            && |t.partitions| == |u.partitions| == |s.partitions|
            && t.partitions[p].log == s.partitions[p].log + [Garbage]
            && u.partitions[p] == s.partitions[p].(position := s.partitions[p].committed, consumer := Waiting)
  {
  }

  /** A review can be given whenever one is awaited, and a comment at any time. */
  lemma ReviewHappens(cl: Cluster, s: System, i: nat, decision: Feedback)
    requires Safe(cl, s) && i in s.incidents && AgentOf(s, i).execution.Some?
    ensures Enabled(cl, s, ReviewStep(i, decision)) <==>
      decision.Comment? || AgentOf(s, i).execution.value.status.AwaitingReview?
  {
    hide Safe, Lockstep, Legal, OutboxEnabled, ConsumerEnabled, AgentOf;
    AgentLockstep(cl, s, i);
    ReviewIsLegal(cl.sv, i, AgentOf(s, i), decision);
  }

  lemma ReviewIsLegal(sv: Server, i: nat, db: Records, decision: Feedback)
    requires Lockstep(db) && db.execution.Some?
    ensures Legal(sv, i, db, Review(decision)) <==> decision.Comment? || db.execution.value.status.AwaitingReview?
  {
  }

  // ---- The consumer

  /** Everything but agents, markers and the consumer of this partition is as it was. */
  ghost predicate Consuming(s: System, t: System, p: nat) {
    && p < |s.partitions| == |t.partitions| && t.partitions[p].log == s.partitions[p].log
    && t.outbox == s.outbox && t.incidents == s.incidents && (forall e :: e in s.markers ==> e in t.markers)
  }

  lemma ConsumerStep(cl: Cluster, s: System, a: Action, p: nat)
    requires Wired(cl, s) && Enabled(cl, s, a) && !OfOutbox(a) && p < |s.partitions|
    ensures Consuming(s, Next(cl, s, a), p)
  {
    hide Enabled, Next, Wired;
    Frame(cl, s, a);
  }

  /** The consumer gives back what it holds. */
  lemma LetGo(cl: Cluster, s: System, p: nat) returns (t: System)
    requires Safe(cl, s) && p < |s.partitions|
    ensures Can(cl, s, t) && Consuming(s, t, p) && t.partitions[p].consumer.Waiting?
  {
    hide Safe, Can, Enabled, Next, Wired;
    if s.partitions[p].consumer.Waiting? {
      Stay(cl, s);
      return s;
    }
    Worker.SeekIsNext(cl, s, p);
    t := Do(cl, s, Delivery.SeekBack(p));
    ConsumerStep(cl, s, Delivery.SeekBack(p), p);
  }

  /** One commit on the rows of the incident in hand. */
  lemma AgentDoes(cl: Cluster, start: System, s: System, p: nat, i: nat, c: Commit) returns (t: System)
    requires Can(cl, start, s) && InHand(s, p) && Current(s, p).incident == i && Legal(cl.sv, i, AgentOf(s, i), c)
    ensures Can(cl, start, t) && Consuming(s, t, p) && InHand(t, p)
    ensures t.partitions == s.partitions && t.markers == s.markers && AgentOf(t, i) == Apply(cl.sv, AgentOf(s, i), c)
  {
    hide Can, Legal, Apply, Wired, OutboxEnabled, ConsumerEnabled, OutboxNext, ConsumerNext;
    var a := AgentStep(p, i, c);
    assert Enabled(cl, s, a);
    t := DoNext(cl, start, s, a);
    ConsumerStep(cl, s, a, p);
    assert t == Commits(cl.sv, s, i, c);
  }

  /** An execution without a verdict can be claimed, and a claimed one can be failed. */
  lemma CanFail(sv: Server, i: nat, db: Records)
    requires Lockstep(db) && Verdict(db).None?
    ensures var claimed := Apply(sv, db, Claim(0));
            var raised := Apply(sv, claimed, RaiseRetryCount);
            && Legal(sv, i, db, Claim(0)) && Legal(sv, i, claimed, RaiseRetryCount)
            && Legal(sv, i, raised, RecordFailure(false))
            && Verdict(Apply(sv, raised, RecordFailure(false))) == Some(MarkedFailed)
  {
  }

  /** The incident in hand can be brought to a verdict. */
  lemma CanDecide(cl: Cluster, s: System, p: nat, i: nat) returns (t: System)
    requires Safe(cl, s) && InHand(s, p) && Current(s, p).incident == i
    ensures Can(cl, s, t) && Consuming(s, t, p) && InHand(t, p) && Verdict(AgentOf(t, i)).Some?
    ensures t.partitions == s.partitions && t.markers == s.markers
  {
    AgentLockstep(cl, s, i);
    hide Safe, Can, Verdict, InHand, Legal, Apply, Lockstep, AgentOf;
    Stay(cl, s);
    t := s;
    if Verdict(AgentOf(s, i)).None? {
      CanFail(cl.sv, i, AgentOf(s, i));
      t := AgentDoes(cl, s, t, p, i, Claim(0));
      InHandSame(s, t, p);
      t := AgentDoes(cl, s, t, p, i, RaiseRetryCount);
      InHandSame(s, t, p);
      t := AgentDoes(cl, s, t, p, i, RecordFailure(false));
    } else {
      HandIsPlaced(s, p);
    }
  }

  lemma InHandSame(s: System, t: System, p: nat)
    requires InHand(s, p) && InHand(t, p) && t.partitions == s.partitions
    ensures Current(t, p) == Current(s, p)
  {
  }

  lemma HandIsPlaced(s: System, p: nat)
    requires InHand(s, p)
    ensures p < |s.partitions|
  {
  }

  /** The message at hand can be handled and its offset committed. */
  lemma CanHandle(cl: Cluster, s: System, p: nat, o: nat) returns (t: System)
    requires Safe(cl, s) && p < |s.partitions| && s.partitions[p].consumer == Handling(o)
    ensures Can(cl, s, t) && Consuming(s, t, p) && t.partitions[p].consumer.Waiting?
    ensures t.partitions[p].position == o + 1 == t.partitions[p].committed <= |t.partitions[p].log|
  {
    hide Can, Enabled, Next, Wired, OneRowEach, PublishedIsLogged, Truthful, AgentsCore, Accounted, Verdict, Fits;
    assert Consumed(s.partitions[p], s.markers);
    var m := s.partitions[p].log[o];
    assert Fits(cl, s, p, m);
    hide Logged, AllConsumed, Consumed;
    var ready, a := s, Delivery.Skip(p);
    Stay(cl, s);
    if m.Event? && m.id !in s.markers {
      EventIsKnown(cl, s, p, m);
      ready := CanDecide(cl, s, p, m.incident);
      Worker.MarkIsNext(cl, ready, p, o, m);
      a := Mark(p);
    } else {
      Worker.SkipIsNext(cl, s, p, o, m);
    }
    hide Safe;
    var done := DoNext(cl, s, ready, a);
    ConsumerStep(cl, ready, a, p);
    CanIsSafe(cl, s, ready);
    assert Worker.Consumes(done, p, Handled(o)) && done.partitions[p].position == o + 1;
    Worker.CommitIsNext(cl, done, p);
    CanIsSafe(cl, s, done);
    t := DoNext(cl, s, done, CommitOffset(p));
    ConsumerStep(cl, done, CommitOffset(p), p);
  }

  lemma EventIsKnown(cl: Cluster, s: System, p: nat, m: Message)
    requires Wired(cl, s) && Fits(cl, s, p, m) && m.Event?
    ensures m.incident in s.incidents
  {
    hide LocksWired, RowsKnown;
  }

  /** Everything in the partition can be handled and committed. */
  lemma {:induction false} CanDrain(cl: Cluster, s: System, p: nat) returns (t: System)
    requires Safe(cl, s) && p < |s.partitions| && s.partitions[p].consumer.Waiting?
    ensures Can(cl, s, t) && Consuming(s, t, p) && t.partitions[p].committed == |t.partitions[p].log|
    decreases |s.partitions[p].log| - s.partitions[p].position
  {
    hide Can, Enabled, Next, Wired, OneRowEach, Logged, PublishedIsLogged, Truthful, AgentsCore, Accounted;
    assert Consumed(s.partitions[p], s.markers);
    var part := s.partitions[p];
    if part.position == |part.log| {
      Stay(cl, s);
      return s;
    }
    hide Consumed, AllConsumed, Safe;
    Worker.PollIsNext(cl, s, p);
    var polled := Do(cl, s, Poll(p));
    ConsumerStep(cl, s, Poll(p), p);
    CanIsSafe(cl, s, polled);
    var handled := CanHandle(cl, polled, p, part.position);
    Then(cl, s, polled, handled);
    CanIsSafe(cl, s, handled);
    t := CanDrain(cl, handled, p);
    Then(cl, s, handled, t);
  }

  /** In a partition committed to its end every event is marked. */
  lemma AllMarked(cl: Cluster, s: System, p: nat, e: int)
    requires Safe(cl, s) && p < |s.partitions| && s.partitions[p].committed == |s.partitions[p].log|
    requires Appears(s.partitions[p].log, e)
    ensures e in s.markers
  {
    hide Wired, OneRowEach, Logged, PublishedIsLogged, Truthful, AgentsCore, Accounted;
    assert Consumed(s.partitions[p], s.markers);
  }

  lemma PublishedAppears(cl: Cluster, s: System, i: nat, e: int)
    requires Safe(cl, s) && RowFor(s, i, e) && s.outbox[e].published
    ensures cl.partitionOf(i) < |s.partitions| && Appears(s.partitions[cl.partitionOf(i)].log, e)
  {
    hide OneRowEach, Logged, AllConsumed, Truthful, AgentsCore, Accounted, Appears;
  }

  /** An incident is through: its event is published and marked, and its partition is committed
      to its end. */
  ghost predicate Through(cl: Cluster, s: System, i: nat) {
    && cl.partitionOf(i) < |s.partitions|
    && s.partitions[cl.partitionOf(i)].committed == |s.partitions[cl.partitionOf(i)].log|
    && exists e :: RowFor(s, i, e) && s.outbox[e].published && e in s.markers
  }

  /** Nothing is stuck: whatever happened so far, crashes, lost commits and late failures
      included, every incident can still get through. */
  lemma NothingIsStuck(cl: Cluster, partitions: nat, run: seq<Action>, s: System, i: nat)
    returns (more: seq<Action>, t: System)
    requires Possible(cl, partitions, run, s) && i in s.incidents
    ensures Possible(cl, partitions, run + more, t) && Through(cl, t, i)
  {
    PossibleIsSafe(cl, partitions, run, s);
    t := CanGetThrough(cl, s, i);
    hide Safe, Leads, Through;
    more :| Leads(cl, s, more, t);
    LeadsOn(cl, Initial(partitions), run, s, more, t);
  }

  lemma CanGetThrough(cl: Cluster, s: System, i: nat) returns (t: System)
    requires Safe(cl, s) && i in s.incidents
    ensures Can(cl, s, t) && Through(cl, t, i)
  {
    hide Safe, Can, Appears, RowFor;
    var e := RowOf(cl, s, i);
    var published := CanPublish(cl, s, i, e);
    CanIsSafe(cl, s, published);
    PublishedAppears(cl, published, i, e);
    hide Wired;
    var p := cl.partitionOf(i);
    var waiting := LetGo(cl, published, p);
    CanIsSafe(cl, published, waiting);
    t := CanDrain(cl, waiting, p);
    CanIsSafe(cl, waiting, t);
    GotThrough(cl, published, waiting, t, i, e);
    Then(cl, published, waiting, t);
    Then(cl, s, published, t);
  }

  lemma RowOf(cl: Cluster, s: System, i: nat) returns (e: int)
    requires Safe(cl, s) && i in s.incidents
    ensures RowFor(s, i, e)
  {
    hide Wired, Logged, PublishedIsLogged, AllConsumed, Truthful, AgentsCore, Accounted, RowFor, RowsDiffer;
    assert HasRow(s, i);
    e :| RowFor(s, i, e);
  }

  lemma GotThrough(cl: Cluster, s: System, waiting: System, t: System, i: nat, e: int)
    requires Safe(cl, t) && cl.partitionOf(i) < |s.partitions| && RowFor(s, i, e) && s.outbox[e].published
    requires Appears(s.partitions[cl.partitionOf(i)].log, e)
    requires Consuming(s, waiting, cl.partitionOf(i)) && Consuming(waiting, t, cl.partitionOf(i))
    requires t.partitions[cl.partitionOf(i)].committed == |t.partitions[cl.partitionOf(i)].log|
    ensures Through(cl, t, i)
  {
    hide Safe, Appears;
    AllMarked(cl, t, cl.partitionOf(i), e);
  }
}
