/** The incident pipeline as interleaved steps of API requests, outbox dispatchers, the
    broker, workers and human review. Every step is one commit, one broker operation or a crash
    (app/services/incidents.py, app/events/dispatcher.py, app/workers). */
module Delivery {
  import opened Dict
  import opened AgentTools
  import opened AgentRecords
  import opened AgentRuns
  import opened AgentGrounding
  import opened AgentHistories

  /** A message is a well-formed incident event or something else. */
  datatype Message = Event(id: int, incident: nat) | Garbage

  datatype OutboxRow = OutboxRow(incident: nat, attempts: nat, published: bool)

  /** A dispatcher that holds a row lock: before and after its send. */
  datatype Dispatch = Holding(event: int) | Attempted(event: int, sent: bool, acknowledged: bool)

  /** What the broker does with a message: nothing, append it after the send was given up, or
      append it at once. */
  datatype Sending = Dropped | Delayed | Appended

  /** The consumer's message: none, being handled, or handled with its offset uncommitted. */
  datatype Consumer = Waiting | Handling(offset: nat) | Handled(offset: nat)

  datatype Partition = Partition(log: seq<Message>, committed: nat, position: nat, consumer: Consumer)

  datatype Marker = MarkedCompleted | MarkedFailed

  /** `pending` holds the messages the broker will append later. `lost` counts the sends whose
      transaction never committed; it exists to state the accounting and is read by no step. */
  datatype System = System(incidents: set<nat>, outbox: map<int, OutboxRow>, lost: map<int, nat>,
                           dispatchers: map<int, Dispatch>, pending: multiset<int>, partitions: seq<Partition>,
                           markers: map<int, Marker>, agents: map<nat, Records>)

  datatype Cluster = Cluster(sv: Server, partitionOf: nat -> nat)

  /** A lost commit is an offset commit that took effect and was reported failed, so that the
      consumer seeks back. An agent's commit names the incident of the message in hand. */
  datatype Action =
    | CreateIncident(incident: nat, event: int)
    | Lock(dispatcher: int, event: int)
    | Publish(dispatcher: int, sending: Sending, acknowledged: bool)
    | Arrive(event: int)
    | RecordDispatch(dispatcher: int)
    | DispatcherCrash(dispatcher: int)
    | Inject(partition: nat)
    | Poll(partition: nat)
    | AgentStep(partition: nat, incident: nat, commit: Commit)
    | Mark(partition: nat)
    | Skip(partition: nat)
    | SeekBack(partition: nat)
    | CommitOffset(partition: nat)
    | LostCommit(partition: nat)
    | WorkerCrash(partition: nat)
    | ReviewStep(incident: nat, decision: Feedback)

  function AgentOf(s: System, incident: nat): Records {
    if incident in s.agents then s.agents[incident] else NO_RECORDS
  }

  function Initial(partitions: nat): System {
    System({}, map[], map[], map[], multiset{}, seq(partitions, i => Partition([], 0, 0, Waiting)), map[], map[])
  }

  // ---- When a step can happen

  predicate Locked(s: System, event: int) {
    exists d :: d in s.dispatchers && s.dispatchers[d].event == event
  }

  /** The consumer of a partition is handling this event and no marker exists yet. */
  predicate InHand(s: System, p: nat) {
    && p < |s.partitions| && s.partitions[p].consumer.Handling?
    && s.partitions[p].consumer.offset < |s.partitions[p].log|
    && var m := s.partitions[p].log[s.partitions[p].consumer.offset];
    && m.Event? && m.id !in s.markers && m.incident in s.incidents
  }

  function Current(s: System, p: nat): Message
    requires p < |s.partitions| && !s.partitions[p].consumer.Waiting?
    requires s.partitions[p].consumer.offset < |s.partitions[p].log|
  {
    s.partitions[p].log[s.partitions[p].consumer.offset]
  }

  /** What the marker of a finished execution says. */
  function Verdict(db: Records): Option<Marker> {
    match db.execution
    case None => None
    case Some(e) =>
      if Reviewed(e.status) then Some(MarkedCompleted) else if e.status.Failed? then Some(MarkedFailed) else None
  }

  /** Steps of API requests, dispatchers and the broker. */
  predicate OfOutbox(a: Action) {
    a.CreateIncident? || a.Lock? || a.Publish? || a.Arrive? || a.RecordDispatch? || a.DispatcherCrash? || a.Inject?
  }

  /** Commits on agent rows. */
  predicate OfAgent(a: Action) { a.AgentStep? || a.ReviewStep? }

  predicate OutboxEnabled(cl: Cluster, s: System, a: Action) {
    match a
    case CreateIncident(i, e) =>
      i !in s.incidents && e !in s.outbox && i <= MAX_ID && cl.partitionOf(i) < |s.partitions|
    case Lock(d, e) => d !in s.dispatchers && e in s.outbox && !s.outbox[e].published && !Locked(s, e)
    case Publish(d, sending, acknowledged) =>
      d in s.dispatchers && s.dispatchers[d].Holding? && (acknowledged ==> sending.Appended?)
    case Arrive(e) => e in s.pending
    case RecordDispatch(d) => d in s.dispatchers && s.dispatchers[d].Attempted?
    case DispatcherCrash(d) => d in s.dispatchers
    case Inject(p) => p < |s.partitions|
    case _ => false
  }

  predicate AgentEnabled(cl: Cluster, s: System, a: Action) {
    match a
    case AgentStep(p, i, c) => InHand(s, p) && i == Current(s, p).incident && Legal(cl.sv, i, AgentOf(s, i), c)
    case ReviewStep(i, decision) => i in s.incidents && Legal(cl.sv, i, AgentOf(s, i), Review(decision))
    case _ => false
  }

  predicate ConsumerEnabled(s: System, a: Action) {
    match a
    case Poll(p) =>
      p < |s.partitions| && s.partitions[p].consumer.Waiting? && s.partitions[p].position < |s.partitions[p].log|
    case Mark(p) => InHand(s, p) && Verdict(AgentOf(s, Current(s, p).incident)).Some?
    case Skip(p) =>
      && p < |s.partitions| && s.partitions[p].consumer.Handling?
      && s.partitions[p].consumer.offset < |s.partitions[p].log|
      && (Current(s, p).Garbage? || Current(s, p).id in s.markers)
    case SeekBack(p) => p < |s.partitions| && !s.partitions[p].consumer.Waiting?
    case CommitOffset(p) => p < |s.partitions| && s.partitions[p].consumer.Handled?
    case LostCommit(p) => p < |s.partitions| && s.partitions[p].consumer.Handled?
    case WorkerCrash(p) => p < |s.partitions|
    case _ => false
  }

  predicate Enabled(cl: Cluster, s: System, a: Action) {
    if OfOutbox(a) then OutboxEnabled(cl, s, a)
    else if OfAgent(a) then AgentEnabled(cl, s, a)
    else ConsumerEnabled(s, a)
  }

  // ---- What a step does

  function Append(part: Partition, m: Message): Partition { part.(log := part.log + [m]) }

  function WithPartition(s: System, p: nat, part: Partition): System
    requires p < |s.partitions|
  {
    s.(partitions := s.partitions[p := part])
  }

  // The consumer's moves within its partition.

  function Taken(part: Partition): Partition {
    part.(consumer := Handling(part.position), position := part.position + 1)
  }

  function Done(part: Partition): Partition
    requires !part.consumer.Waiting?
  {
    part.(consumer := Handled(part.consumer.offset))
  }

  function SoughtBack(part: Partition, committed: nat): Partition
    requires !part.consumer.Waiting?
  {
    part.(committed := committed, position := part.consumer.offset, consumer := Waiting)
  }

  function CommittedThrough(part: Partition): Partition
    requires !part.consumer.Waiting?
  {
    part.(committed := part.consumer.offset + 1, consumer := Waiting)
  }

  function Crashed(part: Partition): Partition { part.(position := part.committed, consumer := Waiting) }

  /** What the broker does with a message it is given. */
  function Given(cl: Cluster, s: System, event: int, sending: Sending): (t: System)
    requires OutboxWired(cl, s) && event in s.outbox
    ensures t == s.(pending := t.pending, partitions := t.partitions) && |t.partitions| == |s.partitions|
    ensures t.pending == if sending.Delayed? then s.pending + multiset{event} else s.pending
    ensures forall p :: 0 <= p < |s.partitions| ==> t.partitions[p] == s.partitions[p].(log := t.partitions[p].log)
    ensures forall p :: 0 <= p < |s.partitions| ==>
              t.partitions[p].log
              == s.partitions[p].log
                 + if sending.Appended? && p == cl.partitionOf(s.outbox[event].incident)
                   then [Event(event, s.outbox[event].incident)] else []
  {
    match sending
    case Dropped => s
    case Delayed => s.(pending := s.pending + multiset{event})
    case Appended =>
      var i := s.outbox[event].incident;
      WithPartition(s, cl.partitionOf(i), Append(s.partitions[cl.partitionOf(i)], Event(event, i)))
  }

  /** The commit a step makes on agent rows. */
  function CommitOf(a: Action): Commit
    requires OfAgent(a)
  {
    if a.AgentStep? then a.commit else Review(a.decision)
  }

  function Commits(sv: Server, s: System, incident: nat, c: Commit): System {
    s.(agents := s.agents[incident := Apply(sv, AgentOf(s, incident), c)])
  }

  function Unlock(s: System, d: int): System { s.(dispatchers := s.dispatchers - {d}) }

  function OutboxNext(cl: Cluster, s: System, a: Action): System
    requires OfOutbox(a) && OutboxEnabled(cl, s, a) && Wired(cl, s)
  {
    match a
    case CreateIncident(i, e) =>
      s.(incidents := s.incidents + {i}, outbox := s.outbox[e := OutboxRow(i, 0, false)], lost := s.lost[e := 0])
    case Lock(d, e) => s.(dispatchers := s.dispatchers[d := Holding(e)])
    case Publish(d, sending, acknowledged) =>
      var e := s.dispatchers[d].event;
      Given(cl, s.(dispatchers := s.dispatchers[d := Attempted(e, !sending.Dropped?, acknowledged)]), e, sending)
    case Arrive(e) => Given(cl, s.(pending := s.pending - multiset{e}), e, Appended)
    case RecordDispatch(d) =>
      var e := s.dispatchers[d].event;
      var row := s.outbox[e];
      Unlock(s.(outbox := s.outbox[e := row.(attempts := row.attempts + 1,
                                             published := s.dispatchers[d].acknowledged)]), d)
    case DispatcherCrash(d) =>
      var e := s.dispatchers[d].event;
      var sent := s.dispatchers[d].Attempted? && s.dispatchers[d].sent;
      Unlock(s.(lost := s.lost[e := s.lost[e] + if sent then 1 else 0]), d)
    case Inject(p) => WithPartition(s, p, Append(s.partitions[p], Garbage))
  }

  function ConsumerNext(s: System, a: Action): System
    requires !OfOutbox(a) && !OfAgent(a) && ConsumerEnabled(s, a)
  {
    match a
    case Poll(p) => WithPartition(s, p, Taken(s.partitions[p]))
    case Mark(p) =>
      var m := Current(s, p);
      WithPartition(s.(markers := s.markers[m.id := Verdict(AgentOf(s, m.incident)).value]), p, Done(s.partitions[p]))
    case Skip(p) => WithPartition(s, p, Done(s.partitions[p]))
    case SeekBack(p) => WithPartition(s, p, SoughtBack(s.partitions[p], s.partitions[p].committed))
    case CommitOffset(p) => WithPartition(s, p, CommittedThrough(s.partitions[p]))
    case LostCommit(p) =>
      WithPartition(s, p, SoughtBack(s.partitions[p], s.partitions[p].consumer.offset + 1))
    case WorkerCrash(p) => WithPartition(s, p, Crashed(s.partitions[p]))
  }

  function Next(cl: Cluster, s: System, a: Action): System
    requires Enabled(cl, s, a) && Wired(cl, s)
  {
    if OfOutbox(a) then OutboxNext(cl, s, a)
    else if OfAgent(a) then Commits(cl.sv, s, a.incident, CommitOf(a))
    else ConsumerNext(s, a)
  }

  // ---- The invariant

  /** Outbox rows belong to incidents. */
  ghost predicate OutboxWired(cl: Cluster, s: System) {
    forall e :: e in s.outbox ==>
      s.outbox[e].incident in s.incidents && cl.partitionOf(s.outbox[e].incident) < |s.partitions| && e in s.lost
  }

  /** And so do agent rows; messages still to arrive are of outbox rows. */
  ghost predicate RowsKnown(s: System) {
    (forall i :: i in s.agents ==> i in s.incidents) && (forall e :: e in s.pending ==> e in s.outbox)
  }

  /** A row lock is on an unpublished row. */
  ghost predicate LocksOnRows(s: System) {
    forall d :: d in s.dispatchers ==>
      s.dispatchers[d].event in s.outbox && !s.outbox[s.dispatchers[d].event].published
  }

  /** It is held by one dispatcher. */
  ghost predicate LocksDiffer(s: System) {
    forall d, f ::
      d in s.dispatchers && f in s.dispatchers && s.dispatchers[d].event == s.dispatchers[f].event ==> d == f
  }

  ghost predicate RowsWired(cl: Cluster, s: System) { OutboxWired(cl, s) && RowsKnown(s) }

  ghost predicate LocksWired(s: System) { LocksOnRows(s) && LocksDiffer(s) }

  ghost predicate Wired(cl: Cluster, s: System) { RowsWired(cl, s) && LocksWired(s) }

  ghost predicate RowFor(s: System, i: nat, e: int) { e in s.outbox && s.outbox[e].incident == i }

  ghost predicate HasRow(s: System, i: nat) { exists e :: RowFor(s, i, e) }

  ghost predicate RowsExist(s: System) {
    forall i :: i in s.incidents ==> i <= MAX_ID && HasRow(s, i)
  }

  ghost predicate RowsDiffer(s: System) {
    forall e, f :: e in s.outbox && f in s.outbox && s.outbox[e].incident == s.outbox[f].incident ==> e == f
  }

  ghost predicate OneRowEach(s: System) { RowsExist(s) && RowsDiffer(s) }

  /** A message that may stand in this partition: an event with a row of its incident, or
      something else. */
  ghost predicate Fits(cl: Cluster, s: System, p: nat, m: Message) {
    m.Event? ==> m.id in s.outbox && s.outbox[m.id].incident == m.incident && cl.partitionOf(m.incident) == p
  }

  /** Every event in the log is an outbox event, in the partition of its incident. */
  ghost predicate Logged(cl: Cluster, s: System) {
    forall p, o :: 0 <= p < |s.partitions| && 0 <= o < |s.partitions[p].log| ==> Fits(cl, s, p, s.partitions[p].log[o])
  }

  ghost predicate Appears(log: seq<Message>, event: int) {
    exists o :: 0 <= o < |log| && log[o].Event? && log[o].id == event
  }

  function LogOf(cl: Cluster, s: System, event: int): seq<Message>
    requires event in s.outbox && cl.partitionOf(s.outbox[event].incident) < |s.partitions|
  {
    s.partitions[cl.partitionOf(s.outbox[event].incident)].log
  }

  /** A row is marked published, or about to be, only once its event is in the log. */
  ghost predicate PublishedIsLogged(cl: Cluster, s: System)
    requires Wired(cl, s)
  {
    && (forall e :: e in s.outbox && s.outbox[e].published ==> Appears(LogOf(cl, s, e), e))
    && (forall d :: d in s.dispatchers && s.dispatchers[d].Attempted? && s.dispatchers[d].acknowledged ==>
          Appears(LogOf(cl, s, s.dispatchers[d].event), s.dispatchers[d].event))
  }

  /** Everything below the committed offset is marked, and so is a handled message; the
      consumer is at most the one message behind whose commit was lost. */
  ghost predicate Consumed(part: Partition, markers: map<int, Marker>) {
    && part.committed <= |part.log|
    && (forall o :: 0 <= o < part.committed && part.log[o].Event? ==> part.log[o].id in markers)
    && match part.consumer
       case Waiting => part.position <= part.committed <= part.position + 1
       case Handling(o) => o <= part.committed <= o + 1 && o < |part.log| && part.position == o + 1
       case Handled(o) =>
         && o <= part.committed <= o + 1 && o < |part.log| && part.position == o + 1
         && (part.log[o].Event? ==> part.log[o].id in markers)
  }

  ghost predicate AllConsumed(s: System) {
    forall p :: 0 <= p < |s.partitions| ==> Consumed(s.partitions[p], s.markers)
  }

  /** A marker tells how the execution ended. */
  ghost predicate Truthful(s: System) {
    forall e :: e in s.markers ==>
      e in s.outbox && Verdict(AgentOf(s, s.outbox[e].incident)) == Some(s.markers[e])
  }

  /** The rows of every incident have the structure of an execution. */
  ghost predicate AgentsCore(cl: Cluster, s: System) {
    forall i :: i in s.incidents ==> Core(cl.sv, AgentOf(s, i))
  }

  /** They are also explained, and grounded whenever they are under review. */
  ghost predicate AgentsSound(cl: Cluster, s: System) {
    forall i :: i in s.incidents ==> Sound(cl.sv, AgentOf(s, i))
  }

  /** How often an event occurs in a log. */
  function Occurrences(log: seq<Message>, event: int): nat {
    if log == [] then 0
    else
      var last := log[|log| - 1];
      Occurrences(log[..|log| - 1], event) + if last.Event? && last.id == event then 1 else 0
  }

  /** The dispatcher sent this event. */
  predicate IsSent(d: Dispatch, event: int) { d.event == event && d.Attempted? && d.sent }

  /** A send that the broker took and that is not yet recorded. */
  ghost predicate InFlight(s: System, event: int) {
    exists d :: d in s.dispatchers && IsSent(s.dispatchers[d], event)
  }

  ghost predicate Accounted(cl: Cluster, s: System)
    requires Wired(cl, s)
  {
    forall e :: e in s.outbox ==>
      Occurrences(LogOf(cl, s, e), e) + s.pending[e]
      <= s.outbox[e].attempts + s.lost[e] + if InFlight(s, e) then 1 else 0
  }

  ghost predicate Safe(cl: Cluster, s: System) {
    && Wired(cl, s) && OneRowEach(s) && Logged(cl, s) && PublishedIsLogged(cl, s) && AllConsumed(s) && Truthful(s)
    && AgentsCore(cl, s) && Accounted(cl, s)
  }

  // ---- Every step keeps it

  /** What steps of consumers and agents leave alone. */
  ghost predicate SameOutbox(s: System, t: System) {
    && t.incidents == s.incidents && t.outbox == s.outbox && t.lost == s.lost && t.dispatchers == s.dispatchers
    && t.pending == s.pending && |t.partitions| == |s.partitions|
    && forall p :: 0 <= p < |s.partitions| ==> t.partitions[p].log == s.partitions[p].log
  }

  /** What steps of API requests, dispatchers and the broker leave alone. */
  ghost predicate SameConsumers(s: System, t: System) {
    && t.markers == s.markers && t.agents == s.agents && |t.partitions| == |s.partitions|
    && forall p :: 0 <= p < |s.partitions| ==> t.partitions[p] == s.partitions[p].(log := t.partitions[p].log)
  }

  lemma OutboxFrame(cl: Cluster, s: System, a: Action)
    requires OfOutbox(a) && OutboxEnabled(cl, s, a) && Wired(cl, s)
    ensures SameConsumers(s, OutboxNext(cl, s, a))
  {
    hide Locked, Given;
  }

  lemma ConsumerFrame(s: System, a: Action)
    requires !OfOutbox(a) && !OfAgent(a) && ConsumerEnabled(s, a)
    ensures var t := ConsumerNext(s, a);
            SameOutbox(s, t) && t.agents == s.agents && forall e :: e in s.markers ==> e in t.markers
  {
    hide Verdict;
  }

  lemma Frame(cl: Cluster, s: System, a: Action)
    requires Wired(cl, s) && Enabled(cl, s, a)
    ensures var t := Next(cl, s, a);
            && (if OfOutbox(a) then SameConsumers(s, t) else SameOutbox(s, t))
            && |t.partitions| == |s.partitions| && forall e :: e in s.markers ==> e in t.markers
  {
    hide OutboxNext, OutboxEnabled, ConsumerNext, ConsumerEnabled, AgentEnabled;
    if OfOutbox(a) {
      OutboxFrame(cl, s, a);
    } else if !OfAgent(a) {
      ConsumerFrame(s, a);
    }
  }

  lemma OutboxWiredKept(cl: Cluster, s: System, a: Action)
    requires OfOutbox(a) && OutboxEnabled(cl, s, a) && Wired(cl, s)
    ensures OutboxWired(cl, OutboxNext(cl, s, a))
  {
    hide Given, Locked, LocksDiffer;
  }

  lemma RowsKnownKept(cl: Cluster, s: System, a: Action)
    requires OfOutbox(a) && OutboxEnabled(cl, s, a) && Wired(cl, s)
    ensures RowsKnown(OutboxNext(cl, s, a))
  {
    hide Given, Locked, LocksDiffer;
  }

  lemma LocksOnRowsKept(cl: Cluster, s: System, a: Action)
    requires OfOutbox(a) && OutboxEnabled(cl, s, a) && Wired(cl, s)
    ensures LocksOnRows(OutboxNext(cl, s, a))
  {
    hide Given, Locked, RowsKnown;
  }

  lemma LocksDifferKept(cl: Cluster, s: System, a: Action)
    requires OfOutbox(a) && OutboxEnabled(cl, s, a) && Wired(cl, s)
    ensures LocksDiffer(OutboxNext(cl, s, a))
  {
    hide RowsKnown, Given;
  }

  lemma AgentsStayKnown(cl: Cluster, s: System, a: Action)
    requires !OfOutbox(a) && Enabled(cl, s, a) && Wired(cl, s)
    ensures RowsKnown(Next(cl, s, a))
  {
    hide OutboxNext, OutboxEnabled, ConsumerNext, ConsumerEnabled, Legal, Apply;
    if !OfAgent(a) {
      ConsumerFrame(s, a);
    }
  }

  lemma WiredKept(cl: Cluster, s: System, a: Action)
    requires Wired(cl, s) && Enabled(cl, s, a)
    ensures Wired(cl, Next(cl, s, a))
  {
    hide OutboxNext, OutboxEnabled, ConsumerNext, ConsumerEnabled, AgentEnabled, RowsKnown;
    Frame(cl, s, a);
    if OfOutbox(a) {
      OutboxWiredKept(cl, s, a);
      RowsKnownKept(cl, s, a);
      LocksOnRowsKept(cl, s, a);
      LocksDifferKept(cl, s, a);
    } else {
      AgentsStayKnown(cl, s, a);
    }
  }

  /** Rows keep their incident; only a created incident gets a row, and it is new. */
  ghost predicate RowsStayed(s: System, a: Action, t: System) {
    && (forall e :: e in s.outbox ==> e in t.outbox && t.outbox[e].incident == s.outbox[e].incident)
    && if a.CreateIncident? then
         && a.incident !in s.incidents && a.incident <= MAX_ID && t.incidents == s.incidents + {a.incident}
         && t.outbox.Keys == s.outbox.Keys + {a.event} && a.event !in s.outbox
         && t.outbox[a.event].incident == a.incident
       else t.incidents == s.incidents && t.outbox.Keys == s.outbox.Keys
  }

  lemma RowsStayByOutbox(cl: Cluster, s: System, a: Action)
    requires OfOutbox(a) && OutboxEnabled(cl, s, a) && Wired(cl, s)
    ensures RowsStayed(s, a, OutboxNext(cl, s, a))
  {
    hide Given, Locked, RowsKnown, LocksDiffer;
  }

  lemma RowsStay(cl: Cluster, s: System, a: Action)
    requires Wired(cl, s) && Enabled(cl, s, a)
    ensures RowsStayed(s, a, Next(cl, s, a))
  {
    hide OutboxNext, OutboxEnabled, ConsumerNext, ConsumerEnabled, AgentEnabled;
    Frame(cl, s, a);
    if OfOutbox(a) {
      RowsStayByOutbox(cl, s, a);
    }
  }

  lemma OneRowKept(cl: Cluster, s: System, a: Action)
    requires Wired(cl, s) && OneRowEach(s) && Enabled(cl, s, a)
    ensures OneRowEach(Next(cl, s, a))
  {
    hide Enabled, Next, LocksWired;
    RowsStay(cl, s, a);
    var t := Next(cl, s, a);
    forall i | i in t.incidents ensures i <= MAX_ID && HasRow(t, i) {
      if i in s.incidents {
        var e :| RowFor(s, i, e);
        assert RowFor(t, i, e);
      } else {
        assert RowFor(t, i, a.event);
      }
    }
  }

  /** A log stays, or gets one message that belongs there. */
  ghost predicate LogExtended(cl: Cluster, s: System, p: nat, before: seq<Message>, after: seq<Message>) {
    || after == before
    || (|after| == |before| + 1 && after == before + [after[|before|]] && Fits(cl, s, p, after[|before|]))
  }

  /** The event a step hands to the broker to append. */
  function Appending(s: System, a: Action): Option<int> {
    match a
    case Publish(d, sending, _) =>
      if sending.Appended? && d in s.dispatchers then Some(s.dispatchers[d].event) else None
    case Arrive(e) => Some(e)
    case _ => None
  }

  /** What a step appends to the log of a partition. */
  function Added(cl: Cluster, s: System, a: Action, p: nat): seq<Message> {
    if a.Inject? then if a.partition == p then [Garbage] else []
    else
      match Appending(s, a)
      case None => []
      case Some(e) =>
        if e in s.outbox && cl.partitionOf(s.outbox[e].incident) == p then [Event(e, s.outbox[e].incident)] else []
  }

  lemma LogAfter(cl: Cluster, s: System, a: Action, p: nat)
    requires OfOutbox(a) && OutboxEnabled(cl, s, a) && Wired(cl, s)
    requires p < |s.partitions| == |OutboxNext(cl, s, a).partitions|
    ensures OutboxNext(cl, s, a).partitions[p].log == s.partitions[p].log + Added(cl, s, a, p)
  {
    hide Given, Locked, LocksDiffer;
  }

  lemma AddedFits(cl: Cluster, s: System, a: Action, p: nat)
    ensures |Added(cl, s, a, p)| <= 1 && forall m :: m in Added(cl, s, a, p) ==> Fits(cl, s, p, m)
  {
  }

  lemma LogExtendsByOutbox(cl: Cluster, s: System, a: Action, p: nat)
    requires OfOutbox(a) && OutboxEnabled(cl, s, a) && Wired(cl, s)
    requires p < |s.partitions| == |OutboxNext(cl, s, a).partitions|
    ensures LogExtended(cl, s, p, s.partitions[p].log, OutboxNext(cl, s, a).partitions[p].log)
  {
    hide OutboxNext, OutboxEnabled, Wired, Added, Fits;
    LogAfter(cl, s, a, p);
    AddedFits(cl, s, a, p);
    var before, added := s.partitions[p].log, Added(cl, s, a, p);
    if added == [] {
      assert before + added == before;
    } else {
      assert added == [added[0]] && added[0] in added;
    }
  }

  lemma LogExtends(cl: Cluster, s: System, a: Action, p: nat)
    requires Wired(cl, s) && Enabled(cl, s, a) && p < |s.partitions| == |Next(cl, s, a).partitions|
    ensures LogExtended(cl, s, p, s.partitions[p].log, Next(cl, s, a).partitions[p].log)
  {
    hide OutboxNext, OutboxEnabled, ConsumerNext, ConsumerEnabled, AgentEnabled;
    Frame(cl, s, a);
    if OfOutbox(a) {
      LogExtendsByOutbox(cl, s, a, p);
    }
  }

  lemma LoggedKept(cl: Cluster, s: System, a: Action)
    requires Wired(cl, s) && Logged(cl, s) && Enabled(cl, s, a)
    ensures Logged(cl, Next(cl, s, a))
  {
    hide Next, Enabled, Wired;
    Frame(cl, s, a);
    RowsStay(cl, s, a);
    var t := Next(cl, s, a);
    forall p, o | 0 <= p < |t.partitions| && 0 <= o < |t.partitions[p].log|
      ensures Fits(cl, t, p, t.partitions[p].log[o])
    {
      LogExtends(cl, s, a, p);
      var before := s.partitions[p].log;
      assert o < |before| ==> t.partitions[p].log[o] == before[o] && Fits(cl, s, p, before[o]);
    }
  }

  /** What a step may do to one partition and its consumer. */
  ghost predicate Moves(before: Partition, after: Partition, markers: map<int, Marker>) {
    || (before.log <= after.log && after == before.(log := after.log))
    || after == before.(position := before.committed, consumer := Waiting)
    || match before.consumer
       case Waiting =>
         && before.position < |before.log|
         && after == before.(consumer := Handling(before.position), position := before.position + 1)
       case Handling(o) =>
         || (o < |before.log| && (before.log[o].Event? ==> before.log[o].id in markers)
             && after == before.(consumer := Handled(o)))
         || after == before.(position := o, consumer := Waiting)
       case Handled(o) =>
         || after == before.(position := o, consumer := Waiting)
         || after == before.(committed := o + 1, consumer := Waiting)
         || after == before.(committed := o + 1, position := o, consumer := Waiting)
  }

  lemma ConsumerMoves(s: System, a: Action, p: nat)
    requires !OfOutbox(a) && !OfAgent(a) && ConsumerEnabled(s, a)
    requires p < |s.partitions| == |ConsumerNext(s, a).partitions|
    ensures Moves(s.partitions[p], ConsumerNext(s, a).partitions[p], ConsumerNext(s, a).markers)
  {
    hide Verdict;
  }

  lemma PartitionMoves(cl: Cluster, s: System, a: Action, p: nat)
    requires Wired(cl, s) && Enabled(cl, s, a) && p < |s.partitions| == |Next(cl, s, a).partitions|
    ensures Moves(s.partitions[p], Next(cl, s, a).partitions[p], Next(cl, s, a).markers)
  {
    hide OutboxNext, OutboxEnabled, ConsumerNext, ConsumerEnabled, AgentEnabled;
    if OfOutbox(a) {
      OutboxFrame(cl, s, a);
      LogExtends(cl, s, a, p);
    } else if !OfAgent(a) {
      ConsumerMoves(s, a, p);
    }
  }

  lemma MovesConsume(before: Partition, after: Partition, earlier: map<int, Marker>, now: map<int, Marker>)
    requires Consumed(before, earlier) && Moves(before, after, now) && forall e :: e in earlier ==> e in now
    ensures Consumed(after, now)
  {
  }

  lemma ConsumedKept(cl: Cluster, s: System, a: Action)
    requires Wired(cl, s) && AllConsumed(s) && Enabled(cl, s, a)
    ensures AllConsumed(Next(cl, s, a))
  {
    hide Next, Enabled, Wired, Consumed, Moves;
    Frame(cl, s, a);
    var t := Next(cl, s, a);
    forall p | 0 <= p < |s.partitions| ensures Consumed(t.partitions[p], t.markers) {
      PartitionMoves(cl, s, a, p);
      MovesConsume(s.partitions[p], t.partitions[p], s.markers, t.markers);
    }
  }

  lemma AppearsInLonger(log: seq<Message>, m: Message, event: int)
    ensures Appears(log, event) ==> Appears(log + [m], event)
    ensures m.Event? && m.id == event ==> Appears(log + [m], event)
  {
    if Appears(log, event) {
      var o :| 0 <= o < |log| && log[o].Event? && log[o].id == event;
      assert (log + [m])[o] == log[o];
    }
    if m.Event? && m.id == event {
      assert (log + [m])[|log|] == m;
    }
  }

  /** The step appends this event to the log. */
  predicate Appends(s: System, a: Action, event: int) {
    Appending(s, a) == Some(event)
  }

  /** A step leaves a log alone or appends one message, this event exactly when it was sent or
      arrives. */
  ghost predicate Grows(s: System, a: Action, before: seq<Message>, after: seq<Message>, event: int) {
    || (after == before && !Appends(s, a, event))
    || (|after| == |before| + 1 && after == before + [after[|before|]]
        && (after[|before|].Event? && after[|before|].id == event <==> Appends(s, a, event)))
  }

  lemma AddedIsAppended(cl: Cluster, s: System, a: Action, event: int, p: nat)
    requires OfOutbox(a) && OutboxEnabled(cl, s, a) && event in s.outbox
    requires p == cl.partitionOf(s.outbox[event].incident)
    ensures |Added(cl, s, a, p)| <= 1
    ensures Appends(s, a, event) ==> Added(cl, s, a, p) == [Event(event, s.outbox[event].incident)]
    ensures !Appends(s, a, event) ==> forall m :: m in Added(cl, s, a, p) ==> !(m.Event? && m.id == event)
  {
    hide Locked, Given;
  }

  lemma LogGrowsByOutbox(cl: Cluster, s: System, a: Action, event: int, p: nat)
    requires OfOutbox(a) && OutboxEnabled(cl, s, a) && Wired(cl, s) && event in s.outbox
    requires p == cl.partitionOf(s.outbox[event].incident) < |s.partitions| == |OutboxNext(cl, s, a).partitions|
    ensures Grows(s, a, s.partitions[p].log, OutboxNext(cl, s, a).partitions[p].log, event)
  {
    hide OutboxNext, OutboxEnabled, Wired, Added, Appends;
    LogAfter(cl, s, a, p);
    AddedIsAppended(cl, s, a, event, p);
    var before, added := s.partitions[p].log, Added(cl, s, a, p);
    if added == [] {
      assert before + added == before;
    } else {
      assert added == [added[0]] && added[0] in added;
    }
  }

  lemma LogGrows(cl: Cluster, s: System, a: Action, event: int)
    requires Wired(cl, s) && Enabled(cl, s, a) && event in s.outbox
    ensures var t := Next(cl, s, a);
            && event in t.outbox && t.outbox[event].incident == s.outbox[event].incident
            && |t.partitions| == |s.partitions| && cl.partitionOf(s.outbox[event].incident) < |s.partitions|
            && Grows(s, a, LogOf(cl, s, event), LogOf(cl, t, event), event)
  {
    hide OutboxNext, OutboxEnabled, ConsumerNext, ConsumerEnabled, AgentEnabled, Wired;
    Frame(cl, s, a);
    RowsStay(cl, s, a);
    WiredRow(cl, s, event);
    if OfOutbox(a) {
      LogGrowsByOutbox(cl, s, a, event, cl.partitionOf(s.outbox[event].incident));
    }
  }

  lemma PublishedKept(cl: Cluster, s: System, a: Action)
    requires Wired(cl, s) && PublishedIsLogged(cl, s) && Enabled(cl, s, a)
    ensures Wired(cl, Next(cl, s, a)) && PublishedIsLogged(cl, Next(cl, s, a))
  {
    hide Enabled, Next, Appears;
    WiredKept(cl, s, a);
    var t := Next(cl, s, a);
    forall e | e in t.outbox && t.outbox[e].published ensures Appears(LogOf(cl, t, e), e) {
      NewlyPublished(cl, s, a, e);
      StillAppears(cl, s, a, e);
    }
    forall d | d in t.dispatchers && t.dispatchers[d].Attempted? && t.dispatchers[d].acknowledged
      ensures Appears(LogOf(cl, t, t.dispatchers[d].event), t.dispatchers[d].event)
    {
      AcknowledgedKept(cl, s, a, d);
    }
  }

  lemma StillAppears(cl: Cluster, s: System, a: Action, e: int)
    requires Wired(cl, s) && Enabled(cl, s, a) && e in s.outbox && Appears(LogOf(cl, s, e), e)
    ensures var t := Next(cl, s, a);
            e in t.outbox && cl.partitionOf(t.outbox[e].incident) < |t.partitions| && Appears(LogOf(cl, t, e), e)
  {
    hide Enabled, Next;
    LogGrows(cl, s, a, e);
    var before, after := LogOf(cl, s, e), LogOf(cl, Next(cl, s, a), e);
    if after != before {
      AppearsInLonger(before, after[|before|], e);
    }
  }

  lemma NewlyPublishedByOutbox(cl: Cluster, s: System, a: Action, e: int)
    requires OfOutbox(a) && OutboxEnabled(cl, s, a) && Wired(cl, s) && PublishedIsLogged(cl, s)
    requires e in OutboxNext(cl, s, a).outbox && OutboxNext(cl, s, a).outbox[e].published
    ensures e in s.outbox && Appears(LogOf(cl, s, e), e)
  {
    hide Given, Locked, Appears, LocksDiffer;
  }

  lemma NewlyPublished(cl: Cluster, s: System, a: Action, e: int)
    requires Wired(cl, s) && PublishedIsLogged(cl, s) && Enabled(cl, s, a)
    requires e in Next(cl, s, a).outbox && Next(cl, s, a).outbox[e].published
    ensures e in s.outbox && Appears(LogOf(cl, s, e), e)
  {
    hide OutboxNext, OutboxEnabled, ConsumerNext, ConsumerEnabled, AgentEnabled, Appears;
    Frame(cl, s, a);
    if OfOutbox(a) {
      NewlyPublishedByOutbox(cl, s, a, e);
    }
  }

  /** A dispatcher that attempted its send did so now, or has not moved. */
  lemma DispatcherMoves(cl: Cluster, s: System, a: Action, d: int)
    requires OfOutbox(a) && OutboxEnabled(cl, s, a) && Wired(cl, s)
    requires d in OutboxNext(cl, s, a).dispatchers && OutboxNext(cl, s, a).dispatchers[d].Attempted?
    ensures d in s.dispatchers && OutboxNext(cl, s, a).dispatchers[d].event == s.dispatchers[d].event
    ensures if a.Publish? && a.dispatcher == d then
              OutboxNext(cl, s, a).dispatchers[d].acknowledged ==> Appends(s, a, s.dispatchers[d].event)
            else OutboxNext(cl, s, a).dispatchers[d] == s.dispatchers[d]
  {
    hide Given, Locked, RowsKnown, LocksDiffer;
  }

  lemma AcknowledgedKept(cl: Cluster, s: System, a: Action, d: int)
    requires Wired(cl, s) && PublishedIsLogged(cl, s) && Enabled(cl, s, a)
    requires var t := Next(cl, s, a); d in t.dispatchers && t.dispatchers[d].Attempted? && t.dispatchers[d].acknowledged
    ensures var t := Next(cl, s, a);
            var e := t.dispatchers[d].event;
            e in t.outbox && cl.partitionOf(t.outbox[e].incident) < |t.partitions| && Appears(LogOf(cl, t, e), e)
  {
    hide OutboxNext, OutboxEnabled, ConsumerNext, ConsumerEnabled, AgentEnabled, Appends, Appears;
    Frame(cl, s, a);
    if OfOutbox(a) {
      DispatcherMoves(cl, s, a, d);
    }
    var e := s.dispatchers[d].event;
    if OfOutbox(a) && a.Publish? && a.dispatcher == d {
      NowAppears(cl, s, a, e);
    } else {
      StillAppears(cl, s, a, e);
    }
  }

  lemma NowAppears(cl: Cluster, s: System, a: Action, e: int)
    requires Wired(cl, s) && Enabled(cl, s, a) && e in s.outbox && Appends(s, a, e)
    ensures var t := Next(cl, s, a);
            e in t.outbox && cl.partitionOf(t.outbox[e].incident) < |t.partitions| && Appears(LogOf(cl, t, e), e)
  {
    hide Enabled, Next, Appends;
    LogGrows(cl, s, a, e);
    var before, after := LogOf(cl, s, e), LogOf(cl, Next(cl, s, a), e);
    AppearsInLonger(before, after[|before|], e);
  }

  /** Steps on one incident's agent rows leave the others alone. */
  lemma AgentsOf(cl: Cluster, s: System, a: Action, i: nat)
    requires Wired(cl, s) && Enabled(cl, s, a)
    ensures var t := Next(cl, s, a);
            || AgentOf(t, i) == AgentOf(s, i)
            || (OfAgent(a) && i == a.incident && Legal(cl.sv, i, AgentOf(s, i), CommitOf(a))
                && AgentOf(t, i) == Apply(cl.sv, AgentOf(s, i), CommitOf(a)))
  {
    hide OutboxNext, OutboxEnabled, ConsumerNext, ConsumerEnabled, Legal, Apply;
    if OfOutbox(a) {
      OutboxFrame(cl, s, a);
    } else if !OfAgent(a) {
      ConsumerFrame(s, a);
    }
  }

  lemma AgentsCoreKept(cl: Cluster, s: System, a: Action)
    requires Wired(cl, s) && AgentsCore(cl, s) && Enabled(cl, s, a)
    ensures AgentsCore(cl, Next(cl, s, a))
  {
    hide Enabled, Next, Legal, Apply, Wired, Core;
    KnownIncidents(cl, s, a);
    NothingIsCore(cl.sv);
    var t := Next(cl, s, a);
    forall i | i in t.incidents ensures Core(cl.sv, AgentOf(t, i)) {
      AgentsOf(cl, s, a, i);
      if i in s.incidents && AgentOf(t, i) != AgentOf(s, i) {
        CoreKept(cl.sv, i, AgentOf(s, i), CommitOf(a));
      }
    }
  }

  lemma AgentsSoundKept(cl: Cluster, s: System, a: Action)
    requires Rules(cl.sv) && Wired(cl, s) && OneRowEach(s) && AgentsSound(cl, s) && Enabled(cl, s, a)
    ensures AgentsSound(cl, Next(cl, s, a))
  {
    hide Enabled, Next, Legal, Apply, Sound, Rules, Wired, RowsDiffer, HasRow;
    OneRowKept(cl, s, a);
    KnownIncidents(cl, s, a);
    NothingIsSound(cl.sv);
    var t := Next(cl, s, a);
    forall i | i in t.incidents ensures Sound(cl.sv, AgentOf(t, i)) {
      AgentsOf(cl, s, a, i);
      if i in s.incidents && AgentOf(t, i) != AgentOf(s, i) {
        SoundKept(cl.sv, i, AgentOf(s, i), CommitOf(a));
      }
    }
  }

  lemma KnownIncidents(cl: Cluster, s: System, a: Action)
    requires Wired(cl, s) && Enabled(cl, s, a)
    ensures var t := Next(cl, s, a);
            && s.incidents <= t.incidents
            && forall i :: i in t.incidents && i !in s.incidents ==> AgentOf(t, i) == NO_RECORDS
  {
    hide OutboxNext, OutboxEnabled, ConsumerNext, ConsumerEnabled, AgentEnabled;
    Frame(cl, s, a);
    RowsStay(cl, s, a);
  }

  // ---- Markers and accounting

  lemma VerdictStands(sv: Server, incident: nat, db: Records, c: Commit)
    requires Lockstep(db) && Legal(sv, incident, db, c) && !c.RecordLateFailure? && Verdict(db).Some?
    ensures Verdict(Apply(sv, db, c)) == Verdict(db)
  {
    hide Legal, Apply, Lockstep;
    LaterStep(sv, incident, db, c);
  }

  /** The step records a failure late on this incident. */
  predicate Late(a: Action, i: nat) { a.AgentStep? && a.incident == i && a.commit.RecordLateFailure? }

  /** A failure is never recorded late once the event is marked: the message in hand has no
      marker, and no other event is of its incident. */
  lemma NeverLate(cl: Cluster, s: System, e: int, a: Action)
    requires Wired(cl, s) && OneRowEach(s) && Logged(cl, s) && Truthful(s) && e in s.markers && Enabled(cl, s, a)
    ensures e in s.outbox && (a.AgentStep? ==> a.incident != s.outbox[e].incident)
  {
    hide Verdict, LocksWired, RowsExist, Legal, OutboxEnabled, ConsumerEnabled;
    if a.AgentStep? {
      var m := Current(s, a.partition);
      assert m == s.partitions[a.partition].log[s.partitions[a.partition].consumer.offset];
    }
  }

  lemma VerdictsKept(cl: Cluster, s: System, a: Action, e: int)
    requires Safe(cl, s) && Enabled(cl, s, a) && e in s.markers
    ensures Verdict(AgentOf(Next(cl, s, a), s.outbox[e].incident)) == Some(s.markers[e])
  {
    hide Next, Enabled, Legal, Apply, LocksWired, OneRowEach, Logged, PublishedIsLogged, AllConsumed, Accounted, Core;
    hide Verdict;
    var i := s.outbox[e].incident;
    AgentsOf(cl, s, a, i);
    NeverLate(cl, s, e, a);
    if AgentOf(Next(cl, s, a), i) != AgentOf(s, i) {
      assert Core(cl.sv, AgentOf(s, i));
      CoreIsLockstep(cl.sv, AgentOf(s, i));
      VerdictStands(cl.sv, i, AgentOf(s, i), CommitOf(a));
    }
  }

  lemma TruthfulKept(cl: Cluster, s: System, a: Action)
    requires Safe(cl, s) && Enabled(cl, s, a)
    ensures Truthful(Next(cl, s, a))
  {
    hide Safe, Next, Enabled, Verdict, Wired;
    SafeIsWired(cl, s);
    var t := Next(cl, s, a);
    forall e | e in t.markers ensures e in t.outbox && Verdict(AgentOf(t, t.outbox[e].incident)) == Some(t.markers[e]) {
      MarkersGrow(cl, s, a, e);
      if e in s.markers {
        VerdictsKept(cl, s, a, e);
      }
    }
  }

  lemma SafeIsWired(cl: Cluster, s: System)
    requires Safe(cl, s)
    ensures Wired(cl, s)
  {
  }

  lemma NewMarker(s: System, a: Action, e: int)
    requires !OfOutbox(a) && !OfAgent(a) && ConsumerEnabled(s, a) && e in ConsumerNext(s, a).markers
    ensures if e in s.markers then ConsumerNext(s, a).markers[e] == s.markers[e]
            else
              && a.Mark? && InHand(s, a.partition) && Current(s, a.partition).id == e
              && Verdict(AgentOf(s, Current(s, a.partition).incident)) == Some(ConsumerNext(s, a).markers[e])
  {
    hide Verdict;
  }

  lemma MarkersGrow(cl: Cluster, s: System, a: Action, e: int)
    requires Safe(cl, s) && Enabled(cl, s, a) && e in Next(cl, s, a).markers
    ensures var t := Next(cl, s, a);
            && e in t.outbox && e in s.outbox && t.outbox[e].incident == s.outbox[e].incident
            && if e in s.markers then t.markers[e] == s.markers[e]
               else Verdict(AgentOf(t, t.outbox[e].incident)) == Some(t.markers[e])
  {
    hide OutboxNext, OutboxEnabled, ConsumerNext, ConsumerEnabled, AgentEnabled, Verdict, PublishedIsLogged;
    hide AllConsumed;
    hide AgentsCore, Accounted, OneRowEach, Wired;
    Frame(cl, s, a);
    RowsStay(cl, s, a);
    if !OfOutbox(a) && !OfAgent(a) {
      NewMarker(s, a, e);
      ConsumerFrame(s, a);
      if e !in s.markers {
        var m := Current(s, a.partition);
        assert Fits(cl, s, a.partition, s.partitions[a.partition].log[s.partitions[a.partition].consumer.offset]);
      }
    }
  }

  lemma OccurrencesGrow(log: seq<Message>, m: Message, event: int)
    ensures Occurrences(log + [m], event) == Occurrences(log, event) + if m.Event? && m.id == event then 1 else 0
  {
    assert (log + [m])[..|log|] == log;
  }

  function Bool(b: bool): nat { if b then 1 else 0 }

  /** The step sends this event: it is in the log now, or will be. */
  predicate Sends(s: System, a: Action, event: int) {
    a.Publish? && !a.sending.Dropped? && a.dispatcher in s.dispatchers && s.dispatchers[a.dispatcher].event == event
  }

  /** Occurrences of an event in the log, and of those still to come. */
  ghost function Sendings(cl: Cluster, s: System, event: int): nat
    requires event in s.outbox && cl.partitionOf(s.outbox[event].incident) < |s.partitions|
  {
    Occurrences(LogOf(cl, s, event), event) + s.pending[event]
  }

  lemma PendingByOutbox(cl: Cluster, s: System, a: Action, e: int)
    requires OfOutbox(a) && OutboxEnabled(cl, s, a) && Wired(cl, s) && e in s.outbox
    ensures OutboxNext(cl, s, a).pending[e] + Bool(Appends(s, a, e)) == s.pending[e] + Bool(Sends(s, a, e))
  {
    hide Given, Locked, LocksDiffer;
  }

  lemma PendingStep(cl: Cluster, s: System, a: Action, e: int)
    requires Wired(cl, s) && Enabled(cl, s, a) && e in s.outbox
    ensures Next(cl, s, a).pending[e] + Bool(Appends(s, a, e)) == s.pending[e] + Bool(Sends(s, a, e))
  {
    hide OutboxNext, OutboxEnabled, ConsumerNext, ConsumerEnabled, AgentEnabled;
    Frame(cl, s, a);
    if OfOutbox(a) {
      PendingByOutbox(cl, s, a, e);
    }
  }

  /** Only a send adds one; a message that arrives was already counted. */
  lemma SendingsStep(cl: Cluster, s: System, a: Action, e: int)
    requires Wired(cl, s) && Enabled(cl, s, a) && e in s.outbox
    ensures var t := Next(cl, s, a);
            && e in t.outbox && t.outbox[e].incident == s.outbox[e].incident && |t.partitions| == |s.partitions|
            && Sendings(cl, t, e) == Sendings(cl, s, e) + Bool(Sends(s, a, e))
            && Occurrences(LogOf(cl, s, e), e) <= Occurrences(LogOf(cl, t, e), e)
  {
    hide Enabled, Next, Occurrences, Wired, Appends, Sends;
    LogGrows(cl, s, a, e);
    PendingStep(cl, s, a, e);
    WiredRow(cl, s, e);
    var before, after := LogOf(cl, s, e), LogOf(cl, Next(cl, s, a), e);
    if after != before {
      OccurrencesGrow(before, after[|before|], e);
    }
  }

  lemma WiredRow(cl: Cluster, s: System, e: int)
    requires Wired(cl, s) && e in s.outbox
    ensures cl.partitionOf(s.outbox[e].incident) < |s.partitions|
  {
  }

  /** The right-hand side grows with every send, and never shrinks. */
  lemma AttemptsStep(cl: Cluster, s: System, a: Action, e: int)
    requires Wired(cl, s) && Enabled(cl, s, a) && e in s.outbox
    ensures var t := Next(cl, s, a);
            && e in t.outbox && e in t.lost
            && s.outbox[e].attempts + s.lost[e] + Bool(InFlight(s, e)) + Bool(Sends(s, a, e))
               <= t.outbox[e].attempts + t.lost[e] + Bool(InFlight(t, e))
  {
    hide OutboxNext, OutboxEnabled, ConsumerNext, ConsumerEnabled, AgentEnabled;
    Frame(cl, s, a);
    if OfOutbox(a) {
      AttemptsByOutbox(cl, s, a, e);
    }
  }

  lemma AttemptsByOutbox(cl: Cluster, s: System, a: Action, e: int)
    requires OfOutbox(a) && OutboxEnabled(cl, s, a) && Wired(cl, s) && e in s.outbox
    ensures var t := OutboxNext(cl, s, a);
            && e in t.outbox && e in t.lost
            && s.outbox[e].attempts + s.lost[e] + Bool(InFlight(s, e)) + Bool(Sends(s, a, e))
               <= t.outbox[e].attempts + t.lost[e] + Bool(InFlight(t, e))
  {
    hide Given, Locked, RowsKnown;
    var t := OutboxNext(cl, s, a);
    if Sends(s, a, e) {
      assert t.dispatchers[a.dispatcher].Attempted?;
      assert InFlight(t, e);
    } else if InFlight(s, e) {
      var d :| d in s.dispatchers && IsSent(s.dispatchers[d], e);
      assert d in t.dispatchers ==> t.dispatchers[d] == s.dispatchers[d];
    }
  }

  lemma AccountedKept(cl: Cluster, s: System, a: Action)
    requires Wired(cl, s) && Logged(cl, s) && Accounted(cl, s) && Enabled(cl, s, a)
    ensures Wired(cl, Next(cl, s, a)) && Accounted(cl, Next(cl, s, a))
  {
    hide Next, Enabled, Occurrences, InFlight, Logged;
    WiredKept(cl, s, a);
    var t := Next(cl, s, a);
    forall e | e in t.outbox
      ensures Occurrences(LogOf(cl, t, e), e) + t.pending[e]
           <= t.outbox[e].attempts + t.lost[e] + if InFlight(t, e) then 1 else 0
    {
      if e in s.outbox {
        SendingsStep(cl, s, a, e);
        AttemptsStep(cl, s, a, e);
      } else {
        NeverLogged(cl, s, a, e);
      }
    }
  }

  lemma {:induction false} Absent(log: seq<Message>, e: int)
    requires !Appears(log, e)
    ensures Occurrences(log, e) == 0
  {
    if log != [] {
      var init := log[..|log| - 1];
      assert log[|log| - 1].Event? ==> log[|log| - 1].id != e;
      assert forall o :: 0 <= o < |init| ==> init[o] == log[o];
      Absent(init, e);
    }
  }

  lemma CreatedRow(cl: Cluster, s: System, a: Action, e: int)
    requires Wired(cl, s) && Enabled(cl, s, a) && e !in s.outbox && e in Next(cl, s, a).outbox
    ensures Next(cl, s, a).pending == s.pending && Next(cl, s, a).partitions == s.partitions
  {
    hide OutboxNext, OutboxEnabled, ConsumerNext, ConsumerEnabled, AgentEnabled;
    Frame(cl, s, a);
    RowsStay(cl, s, a);
    if OfOutbox(a) {
      CreatedAlone(cl, s, a);
    }
  }

  lemma CreatedAlone(cl: Cluster, s: System, a: Action)
    requires OfOutbox(a) && OutboxEnabled(cl, s, a) && Wired(cl, s) && a.CreateIncident?
    ensures OutboxNext(cl, s, a).pending == s.pending && OutboxNext(cl, s, a).partitions == s.partitions
  {
    hide Wired;
  }

  lemma NeverLogged(cl: Cluster, s: System, a: Action, e: int)
    requires Wired(cl, s) && Logged(cl, s) && Enabled(cl, s, a) && e !in s.outbox && e in Next(cl, s, a).outbox
    ensures var t := Next(cl, s, a);
            && cl.partitionOf(t.outbox[e].incident) < |t.partitions|
            && Occurrences(LogOf(cl, t, e), e) == 0 && t.pending[e] == 0
  {
    hide Next, Enabled, Occurrences;
    CreatedRow(cl, s, a, e);
    WiredKept(cl, s, a);
    Absent(s.partitions[cl.partitionOf(Next(cl, s, a).outbox[e].incident)].log, e);
  }

  lemma PublishedRowByOutbox(cl: Cluster, s: System, a: Action, e: int)
    requires OfOutbox(a) && OutboxEnabled(cl, s, a) && Wired(cl, s) && e in s.outbox && s.outbox[e].published
    ensures !Sends(s, a, e)
    ensures e in OutboxNext(cl, s, a).outbox && OutboxNext(cl, s, a).outbox[e] == s.outbox[e]
  {
    hide Given, Locked, RowsKnown, LocksDiffer;
  }

  lemma PublishedRowStep(cl: Cluster, s: System, a: Action, e: int)
    requires Wired(cl, s) && Enabled(cl, s, a) && e in s.outbox && s.outbox[e].published
    ensures !Sends(s, a, e)
    ensures e in Next(cl, s, a).outbox && Next(cl, s, a).outbox[e] == s.outbox[e]
  {
    hide OutboxNext, OutboxEnabled, ConsumerNext, ConsumerEnabled, AgentEnabled;
    Frame(cl, s, a);
    if OfOutbox(a) {
      PublishedRowByOutbox(cl, s, a, e);
    }
  }

  lemma PublishedStep(cl: Cluster, s: System, a: Action, e: int)
    requires Wired(cl, s) && Enabled(cl, s, a) && e in s.outbox && s.outbox[e].published
    ensures var t := Next(cl, s, a);
            && e in t.outbox && t.outbox[e] == s.outbox[e] && cl.partitionOf(t.outbox[e].incident) < |t.partitions|
            && Sendings(cl, t, e) == Sendings(cl, s, e)
            && Occurrences(LogOf(cl, s, e), e) <= Occurrences(LogOf(cl, t, e), e)
  {
    hide Enabled, Next, Occurrences, Sends, Wired;
    WiredRow(cl, s, e);
    PublishedRowStep(cl, s, a, e);
    SendingsStep(cl, s, a, e);
  }

  // ---- Whole histories

  lemma InitialIsSafe(cl: Cluster, partitions: nat)
    ensures Safe(cl, Initial(partitions))
  {
  }

  /** Every step of every actor keeps every part of the invariant. */
  lemma SafeKept(cl: Cluster, s: System, a: Action)
    requires Safe(cl, s) && Enabled(cl, s, a)
    ensures Safe(cl, Next(cl, s, a))
  {
    hide Enabled, Next, Wired, OneRowEach, Logged, PublishedIsLogged, AllConsumed, Truthful, AgentsCore, Accounted;
    WiredKept(cl, s, a);
    OneRowKept(cl, s, a);
    LoggedKept(cl, s, a);
    PublishedKept(cl, s, a);
    ConsumedKept(cl, s, a);
    TruthfulKept(cl, s, a);
    AgentsCoreKept(cl, s, a);
    AccountedKept(cl, s, a);
  }

  /** A sequence of steps leads from one state to another. */
  ghost predicate Leads(cl: Cluster, start: System, run: seq<Action>, s: System)
    decreases run
  {
    if run == [] then s == start
    else exists before ::
           && Leads(cl, start, run[..|run| - 1], before) && Wired(cl, before)
           && Enabled(cl, before, run[|run| - 1]) && s == Next(cl, before, run[|run| - 1])
  }

  /** A history from an empty cluster. */
  ghost predicate Possible(cl: Cluster, partitions: nat, run: seq<Action>, s: System) {
    Leads(cl, Initial(partitions), run, s)
  }

  lemma {:induction false} SafeAfter(cl: Cluster, start: System, run: seq<Action>, s: System)
    requires Safe(cl, start) && Leads(cl, start, run, s)
    ensures Safe(cl, s)
    decreases run
  {
    hide Safe, Enabled, Next, Wired;
    if run != [] {
      var before :| Leads(cl, start, run[..|run| - 1], before) && Wired(cl, before)
        && Enabled(cl, before, run[|run| - 1]) && s == Next(cl, before, run[|run| - 1]);
      SafeAfter(cl, start, run[..|run| - 1], before);
      SafeKept(cl, before, run[|run| - 1]);
    }
  }

  /** Every state the pipeline can reach, crashes included, is safe. */
  lemma PossibleIsSafe(cl: Cluster, partitions: nat, run: seq<Action>, s: System)
    requires Possible(cl, partitions, run, s)
    ensures Safe(cl, s)
  {
    hide Safe, Leads;
    InitialIsSafe(cl, partitions);
    SafeAfter(cl, Initial(partitions), run, s);
  }

  lemma {:induction false} SoundAgentsAfter(cl: Cluster, start: System, run: seq<Action>, s: System)
    requires Rules(cl.sv) && Safe(cl, start) && AgentsSound(cl, start) && Leads(cl, start, run, s)
    ensures AgentsSound(cl, s)
    decreases run
  {
    hide Rules, AgentsSound, Enabled, Next, Wired, OneRowEach, Logged, PublishedIsLogged, AllConsumed, Truthful;
    hide AgentsCore, Accounted;
    if run != [] {
      var before :| Leads(cl, start, run[..|run| - 1], before) && Wired(cl, before)
        && Enabled(cl, before, run[|run| - 1]) && s == Next(cl, before, run[|run| - 1]);
      SafeAfter(cl, start, run[..|run| - 1], before);
      SoundAgentsAfter(cl, start, run[..|run| - 1], before);
      AgentsSoundKept(cl, before, run[|run| - 1]);
    }
  }

  /** The whole agent invariant holds of every incident in every reachable state. */
  lemma PossibleIsSound(cl: Cluster, partitions: nat, run: seq<Action>, s: System)
    requires Rules(cl.sv) && Possible(cl, partitions, run, s)
    ensures AgentsSound(cl, s)
  {
    hide Rules, Safe, Leads, Sound;
    InitialIsSafe(cl, partitions);
    assert AgentsSound(cl, Initial(partitions));
    SoundAgentsAfter(cl, Initial(partitions), run, s);
  }

  // ---- Late failures

  /** Some step recorded a failure late on this incident. */
  ghost predicate FailedLate(run: seq<Action>, i: nat) { exists k :: 0 <= k < |run| && Late(run[k], i) }

  lemma FailedLateSnoc(run: seq<Action>, i: nat)
    requires run != []
    ensures FailedLate(run, i) <==> FailedLate(run[..|run| - 1], i) || Late(run[|run| - 1], i)
  {
    hide Late;
    var init := run[..|run| - 1];
    if FailedLate(init, i) {
      var k :| 0 <= k < |init| && Late(init[k], i);
      assert run[k] == init[k];
    }
    if FailedLate(run, i) && !Late(run[|run| - 1], i) {
      var k :| 0 <= k < |run| && Late(run[k], i);
      assert init[k] == run[k];
    }
  }

  /** One final row and at most one decision, for every incident without a late failure. */
  lemma {:induction false} PossibleIsClosed(cl: Cluster, partitions: nat, run: seq<Action>, s: System, i: nat)
    requires Possible(cl, partitions, run, s) && !FailedLate(run, i)
    ensures Closed(AgentOf(s, i))
    decreases run
  {
    hide Safe, Enabled, Next, Wired, Closed, Late, Legal, Apply, FailedLate, Core;
    if run == [] {
      NothingIsClosed();
    } else {
      var before :| Leads(cl, Initial(partitions), run[..|run| - 1], before) && Wired(cl, before)
        && Enabled(cl, before, run[|run| - 1]) && s == Next(cl, before, run[|run| - 1]);
      FailedLateSnoc(run, i);
      PossibleIsClosed(cl, partitions, run[..|run| - 1], before, i);
      AgentsOf(cl, before, run[|run| - 1], i);
      if AgentOf(s, i) != AgentOf(before, i) {
        PossibleIsSafe(cl, partitions, run[..|run| - 1], before);
        AgentLockstep(cl, before, i);
        NotLate(run[|run| - 1], i);
        ClosedKept(cl.sv, i, AgentOf(before, i), CommitOf(run[|run| - 1]));
      }
    }
  }

  lemma NotLate(a: Action, i: nat)
    requires OfAgent(a) && a.incident == i && !Late(a, i)
    ensures !CommitOf(a).RecordLateFailure?
  {
  }

  lemma AgentLockstep(cl: Cluster, s: System, i: nat)
    requires Safe(cl, s)
    ensures Lockstep(AgentOf(s, i))
  {
    hide Logged, PublishedIsLogged, AllConsumed, Truthful, Accounted, OneRowEach, Core;
    if i in s.incidents {
      CoreIsLockstep(cl.sv, AgentOf(s, i));
    }
  }

  lemma FinalStepKept(cl: Cluster, start: Records, s: System, a: Action, i: nat)
    requires Safe(cl, s) && Enabled(cl, s, a) && !Late(a, i) && Later(start, AgentOf(s, i))
    ensures Later(start, AgentOf(Next(cl, s, a), i))
  {
    hide Next, Enabled, Legal, Apply, Safe, Wired, Lockstep, Late;
    SafeIsWired(cl, s);
    AgentsOf(cl, s, a, i);
    if AgentOf(Next(cl, s, a), i) != AgentOf(s, i) {
      AgentLockstep(cl, s, i);
      NotLate(a, i);
      LaterStep(cl.sv, i, AgentOf(s, i), CommitOf(a));
    }
  }

  /** A failed execution is not in review, and there a failure is never late. */
  lemma FailedIsNotLate(cl: Cluster, start: Records, s: System, a: Action, i: nat)
    requires Enabled(cl, s, a) && Later(start, AgentOf(s, i))
    requires start.execution.Some? && start.execution.value.status.Failed?
    ensures !Late(a, i)
  {
    hide InHand;
  }

  /** Whatever happens in the pipeline, a failed execution stays as it is, and so does every
      finished one once its event is marked; only its review and comments are added. */
  lemma {:induction false} SettledIsFinal(cl: Cluster, start: System, run: seq<Action>, s: System, i: nat, e: int)
    requires Safe(cl, start) && Leads(cl, start, run, s)
    requires var db := AgentOf(start, i).execution;
             || (db.Some? && db.value.status.Failed?)
             || (e in start.markers && RowFor(start, i, e))
    ensures Later(AgentOf(start, i), AgentOf(s, i))
    ensures e in start.markers ==> e in s.markers && e in s.outbox && e in start.outbox
    ensures e in start.markers ==> s.outbox[e].incident == start.outbox[e].incident
    decreases run
  {
    hide Safe, Enabled, Next, Late, Verdict;
    if run == [] {
      if e in start.markers {
        MarkedRow(cl, start, e);
      }
    } else {
      var before :| Leads(cl, start, run[..|run| - 1], before) && Wired(cl, before)
        && Enabled(cl, before, run[|run| - 1]) && s == Next(cl, before, run[|run| - 1]);
      var a := run[|run| - 1];
      SettledIsFinal(cl, start, run[..|run| - 1], before, i, e);
      SafeAfter(cl, start, run[..|run| - 1], before);
      if e in start.markers {
        MarkedStays(cl, before, a, e);
      }
      if AgentOf(start, i).execution.Some? && AgentOf(start, i).execution.value.status.Failed? {
        FailedIsNotLate(cl, AgentOf(start, i), before, a, i);
      } else {
        MarkedIsNotLate(cl, before, a, i, e);
      }
      FinalStepKept(cl, AgentOf(start, i), before, a, i);
    }
  }

  lemma MarkedRow(cl: Cluster, s: System, e: int)
    requires Safe(cl, s) && e in s.markers
    ensures e in s.outbox
  {
    hide Verdict;
  }

  lemma MarkedStays(cl: Cluster, s: System, a: Action, e: int)
    requires Safe(cl, s) && Wired(cl, s) && Enabled(cl, s, a) && e in s.markers
    ensures var t := Next(cl, s, a);
            && e in t.markers && e in t.outbox && e in s.outbox && t.outbox[e].incident == s.outbox[e].incident
  {
    hide Next, Enabled, Safe, Wired;
    MarkedRow(cl, s, e);
    Frame(cl, s, a);
    RowsStay(cl, s, a);
  }

  lemma MarkedIsNotLate(cl: Cluster, s: System, a: Action, i: nat, e: int)
    requires Safe(cl, s) && Enabled(cl, s, a) && e in s.markers && e in s.outbox && s.outbox[e].incident == i
    ensures !Late(a, i)
  {
    hide Enabled, OneRowEach, Logged, PublishedIsLogged, AllConsumed, Truthful, AgentsCore, Accounted;
    NeverLate(cl, s, e, a);
  }

  lemma {:induction false} LateReopensFor(cl: Cluster, start: System, run: seq<Action>, s: System, i: nat)
    requires Safe(cl, start) && Leads(cl, start, run, s) && FailedLate(run, i)
    requires AgentOf(start, i).execution.Some? && Reviewed(AgentOf(start, i).execution.value.status)
    ensures Reopened(AgentOf(start, i), AgentOf(s, i)) && |AgentOf(s, i).steps| >= |AgentOf(start, i).steps|
    decreases run
  {
    hide Safe, Enabled, Next, Late, FailedLate, Reopened, Later, Legal, Apply, Wired;
    if run == [] {
      NotYetLate(i);
    } else {
      var before :| Leads(cl, start, run[..|run| - 1], before) && Wired(cl, before)
        && Enabled(cl, before, run[|run| - 1]) && s == Next(cl, before, run[|run| - 1]);
      var a := run[|run| - 1];
      FailedLateSnoc(run, i);
      AgentsOf(cl, before, a, i);
      if FailedLate(run[..|run| - 1], i) {
        LateReopensFor(cl, start, run[..|run| - 1], before, i);
        if AgentOf(s, i) != AgentOf(before, i) {
          ReopenedStep(cl.sv, i, AgentOf(start, i), AgentOf(before, i), CommitOf(a));
        }
      } else {
        FinalUnlessLate(cl, start, run[..|run| - 1], before, i);
        LateStep(cl, before, a, i);
        LateReopens(cl.sv, AgentOf(start, i), AgentOf(before, i));
      }
    }
  }

  lemma NotYetLate(i: nat)
    ensures !FailedLate([], i)
  {
  }

  lemma LateStep(cl: Cluster, s: System, a: Action, i: nat)
    requires Wired(cl, s) && Enabled(cl, s, a) && Late(a, i)
    ensures AgentOf(Next(cl, s, a), i) == Apply(cl.sv, AgentOf(s, i), RecordLateFailure)
  {
    hide Legal, Apply, InHand;
  }

  lemma {:induction false} FinalUnlessLate(cl: Cluster, start: System, run: seq<Action>, s: System, i: nat)
    requires Safe(cl, start) && Leads(cl, start, run, s) && !FailedLate(run, i)
    ensures Later(AgentOf(start, i), AgentOf(s, i))
    decreases run
  {
    hide Safe, Enabled, Next, Late, FailedLate;
    if run != [] {
      var before :| Leads(cl, start, run[..|run| - 1], before) && Wired(cl, before)
        && Enabled(cl, before, run[|run| - 1]) && s == Next(cl, before, run[|run| - 1]);
      FailedLateSnoc(run, i);
      FinalUnlessLate(cl, start, run[..|run| - 1], before, i);
      SafeAfter(cl, start, run[..|run| - 1], before);
      FinalStepKept(cl, AgentOf(start, i), before, run[|run| - 1], i);
    }
  }

  /** An execution under review keeps its rows, its resolution and its decision, however the
      other actors interleave, exactly as long as no failure is recorded late on its incident. */
  lemma ReviewedIsFinalIff(cl: Cluster, start: System, run: seq<Action>, s: System, i: nat)
    requires Safe(cl, start) && Leads(cl, start, run, s)
    requires AgentOf(start, i).execution.Some? && Reviewed(AgentOf(start, i).execution.value.status)
    ensures Later(AgentOf(start, i), AgentOf(s, i)) <==> !FailedLate(run, i)
  {
    hide Safe, Leads, Later, FailedLate, Reopened;
    if FailedLate(run, i) {
      LateReopensFor(cl, start, run, s, i);
      ReopenedIsNotLater(AgentOf(start, i), AgentOf(s, i));
    } else {
      FinalUnlessLate(cl, start, run, s, i);
    }
  }

  // ---- What the invariant means

  /** Waiting for a worker: in the log of its partition at or above the committed offset. */
  ghost predicate Waits(part: Partition, event: int) {
    exists o :: part.committed <= o < |part.log| && part.log[o].Event? && part.log[o].id == event
  }

  /** No incident is ever lost. Each has exactly one outbox row, and its event is still to
      be published, or waits in the log at or above the committed offset, or is marked. */
  lemma NoIncidentIsLost(cl: Cluster, partitions: nat, run: seq<Action>, s: System, i: nat)
    requires Possible(cl, partitions, run, s) && i in s.incidents
    ensures exists e ::
              && RowFor(s, i, e) && (forall f :: RowFor(s, i, f) ==> f == e)
              && cl.partitionOf(i) < |s.partitions|
              && (!s.outbox[e].published || Waits(s.partitions[cl.partitionOf(i)], e) || e in s.markers)
  {
    PossibleIsSafe(cl, partitions, run, s);
    hide Possible, Truthful, AgentsCore, Accounted, Logged;
    assert HasRow(s, i);
    var e :| RowFor(s, i, e);
    var part := s.partitions[cl.partitionOf(i)];
    if s.outbox[e].published && e !in s.markers {
      var o :| 0 <= o < |part.log| && part.log[o].Event? && part.log[o].id == e;
      assert Consumed(part, s.markers);
      assert part.committed <= o;
      assert Waits(part, e);
    }
  }

  /** A committed offset is a durable outcome: every event below it is marked, and the
      marker says how the incident's execution ended. */
  lemma CommittedIsDurable(cl: Cluster, partitions: nat, run: seq<Action>, s: System, p: nat, o: nat)
    requires Possible(cl, partitions, run, s)
    requires p < |s.partitions| && o < s.partitions[p].committed
    ensures o < |s.partitions[p].log|
    ensures var m := s.partitions[p].log[o];
            m.Event? ==>
              && m.id in s.markers && m.incident in s.incidents && cl.partitionOf(m.incident) == p
              && var db := AgentOf(s, m.incident);
              && db.execution.Some? && db.resolution.Some?
              && (s.markers[m.id].MarkedCompleted? ==>
                    Reviewed(db.execution.value.status) && db.resolution.value.status.Resolved?)
              && (s.markers[m.id].MarkedFailed? ==>
                    db.execution.value.status.Failed? && db.resolution.value.status.Abandoned?)
  {
    PossibleIsSafe(cl, partitions, run, s);
    hide Possible, OneRowEach, PublishedIsLogged, Accounted, Core, Lockstep, Verdict;
    assert Consumed(s.partitions[p], s.markers);
    var m := s.partitions[p].log[o];
    if m.Event? {
      assert Fits(cl, s, p, m) && m.id in s.markers;
      assert m.incident in s.incidents;
      CoreIsLockstep(cl.sv, AgentOf(s, m.incident));
      VerdictMeans(AgentOf(s, m.incident));
    }
  }

  lemma VerdictMeans(db: Records)
    requires Lockstep(db) && Verdict(db).Some?
    ensures db.execution.Some? && db.resolution.Some?
    ensures Verdict(db).value.MarkedCompleted? ==>
      Reviewed(db.execution.value.status) && db.resolution.value.status.Resolved?
    ensures Verdict(db).value.MarkedFailed? ==>
      db.execution.value.status.Failed? && db.resolution.value.status.Abandoned?
  {
  }

  /** And a completed one is grounded in the evidence stored with it. */
  lemma CommittedIsGrounded(cl: Cluster, partitions: nat, run: seq<Action>, s: System, p: nat, o: nat)
    requires Rules(cl.sv) && Possible(cl, partitions, run, s)
    requires p < |s.partitions| && o < s.partitions[p].committed
    ensures o < |s.partitions[p].log|
    ensures var m := s.partitions[p].log[o];
            m.Event? && m.id in s.markers && s.markers[m.id].MarkedCompleted? ==>
              var db := AgentOf(s, m.incident);
              db.resolution.Some? && GroundedIn(cl.sv, db.resolution.value, db.steps)
  {
    hide Rules, Possible, GroundedIn, Core, Traced;
    CommittedIsDurable(cl, partitions, run, s, p, o);
    PossibleIsSound(cl, partitions, run, s);
    var m := s.partitions[p].log[o];
    if m.Event? && m.id in s.markers {
      assert Sound(cl.sv, AgentOf(s, m.incident));
    }
  }

  /** An event occurs in the log at most once per recorded attempt and per attempt lost to a
      crash, and one send may be in flight; messages still to arrive are counted too. */
  lemma OccurrencesAreBounded(cl: Cluster, partitions: nat, run: seq<Action>, s: System, e: int)
    requires Possible(cl, partitions, run, s) && e in s.outbox
    ensures cl.partitionOf(s.outbox[e].incident) < |s.partitions| && e in s.lost
    ensures Sendings(cl, s, e) <= s.outbox[e].attempts + s.lost[e] + Bool(InFlight(s, e))
    ensures s.outbox[e].published ==> Sendings(cl, s, e) <= s.outbox[e].attempts + s.lost[e]
  {
    PossibleIsSafe(cl, partitions, run, s);
    hide Possible, OneRowEach, PublishedIsLogged, AllConsumed, Truthful, AgentsCore, Logged, Occurrences;
  }

  /** From the moment its row is marked published an event is sent no more, and its attempts
      are not counted up again; what was sent before may still arrive. */
  lemma {:induction false} PublishedIsFrozen(cl: Cluster, start: System, run: seq<Action>, s: System, e: int)
    requires Safe(cl, start) && Leads(cl, start, run, s)
    requires e in start.outbox && start.outbox[e].published
    ensures e in s.outbox && s.outbox[e] == start.outbox[e]
    ensures cl.partitionOf(s.outbox[e].incident) < |start.partitions|
    ensures cl.partitionOf(s.outbox[e].incident) < |s.partitions|
    ensures Sendings(cl, s, e) == Sendings(cl, start, e)
    ensures Occurrences(LogOf(cl, start, e), e) <= Occurrences(LogOf(cl, s, e), e)
    decreases run
  {
    hide Enabled, Next, Occurrences, OneRowEach, Logged, PublishedIsLogged, AllConsumed, Truthful, AgentsCore;
    hide Accounted;
    if run != [] {
      var before :| Leads(cl, start, run[..|run| - 1], before) && Wired(cl, before)
        && Enabled(cl, before, run[|run| - 1]) && s == Next(cl, before, run[|run| - 1]);
      PublishedIsFrozen(cl, start, run[..|run| - 1], before, e);
      PublishedStep(cl, before, run[|run| - 1], e);
    }
  }
}
