/** internal/archive/archive.go: a bounded queue drained by one writer goroutine, closed under a read-write lock. */
module Archive {
  import opened Wrappers
  import Lists
  import Usage

  datatype Body = Whole(body: Option<string>) | Stream(text: string)

  datatype Record = Record(
    dir: string,
    timestamp: int,
    requestID: string,
    apiKey: string,
    model: string,
    internalModel: string,
    protocol: string,
    tokens: Usage.Counts,
    request: string,
    response: Body)

  const QUEUE_SIZE: nat := 256

  // ---- one operation at a time ----

  class Writer {
    var closed: bool
    var queue: seq<Record>
    var written: seq<Record>
    ghost var accepted: seq<Record>

    /** Everything accepted has been handed to `write` or is still queued, in order. */
    ghost predicate Valid()
      reads this
    {
      && accepted == written + queue
      && |queue| <= QUEUE_SIZE
    }

    constructor ()
      ensures Valid() && !closed && accepted == [] && queue == []
    {
      closed, queue, written, accepted := false, [], [], [];
    }

    /** A record is dropped only when the writer is closed or its queue is full. */
    method Enqueue(rec: Record)
      requires Valid()
      modifies this
      ensures Valid() && closed == old(closed) && written == old(written)
      ensures accepted ==
              if !old(closed) && |old(queue)| < QUEUE_SIZE then old(accepted) + [rec] else old(accepted)
    {
      if closed {
        return;
      }
      if |queue| < QUEUE_SIZE {
        queue := queue + [rec];
        accepted := accepted + [rec];
        assert accepted == written + queue;
      }
    }

    /** The writer goroutine, until the queue is empty. */
    method Drain()
      requires Valid()
      modifies this
      ensures Valid() && closed == old(closed) && accepted == old(accepted)
      ensures queue == [] && written == accepted
    {
      while queue != []
        invariant Valid() && closed == old(closed) && accepted == old(accepted)
      {
        var rec := queue[0];
        queue := queue[1..];
        written := written + [rec];
      }
    }

    method Close()
      requires Valid()
      modifies this
      ensures Valid() && closed && queue == []
      ensures accepted == old(accepted) && written == accepted
    {
      closed := true;
      Drain();
    }
  }

  // ---- every interleaving of producers, closers and the writer ----

  datatype Producer =
    | Calling(rec: Record)   // before RLock
    | Locked(rec: Record)    // holds the read lock, flag not read yet
    | Open(rec: Record)      // holds the read lock and saw the flag unset
    | Leaving                // holds the read lock, about to release it
    | Returned

  datatype Closer =
    | Entering               // before Lock
    | Holding                // holds the write lock
    | Flagged                // has set the flag, the channel still to be closed
    | Unlocking              // about to release the write lock
    | Waiting                // waits for the writer to finish
    | Finished

  datatype Fate = Accepted | RefusedClosed | RefusedFull

  datatype State = State(
    producers: map<nat, Producer>,
    closers: map<nat, Closer>,
    flag: bool,              // the field "closed"
    channelClosed: bool,
    queue: seq<Record>,
    writing: Option<Record>,
    done: bool,
    panicked: bool,
    written: seq<Record>,
    accepted: seq<Record>,
    fates: map<nat, Fate>)

  datatype Action =
    | NewProducer(id: nat, rec: Record)
    | NewCloser(id: nat)
    | ReadLock(id: nat)
    | ReadFlag(id: nat)
    | Send(id: nat)
    | ReadUnlock(id: nat)
    | Lock(id: nat)
    | SetFlag(id: nat)
    | CloseChannel(id: nat)
    | Unlock(id: nat)
    | SeeDone(id: nat)
    | Receive
    | Write
    | Exit

  const INITIAL := State(map[], map[], false, false, [], None, false, false, [], [], map[])

  predicate Reads(p: Producer) {
    p.Locked? || p.Open? || p.Leaving?
  }

  predicate Writes(c: Closer) {
    c.Holding? || c.Flagged? || c.Unlocking?
  }

  predicate NoReader(s: State) {
    forall p :: p in s.producers ==> !Reads(s.producers[p])
  }

  predicate NoWriter(s: State) {
    forall c :: c in s.closers ==> !Writes(s.closers[c])
  }

  /** What each action waits for. */
  predicate Enabled(s: State, a: Action) {
    match a
    case NewProducer(id, _) => id !in s.producers
    case NewCloser(id) => id !in s.closers
    case ReadLock(id) => id in s.producers && s.producers[id].Calling? && NoWriter(s)
    case ReadFlag(id) => id in s.producers && s.producers[id].Locked?
    case Send(id) => id in s.producers && s.producers[id].Open?
    case ReadUnlock(id) => id in s.producers && s.producers[id].Leaving?
    case Lock(id) => id in s.closers && s.closers[id].Entering? && NoWriter(s) && NoReader(s)
    case SetFlag(id) => id in s.closers && s.closers[id].Holding?
    case CloseChannel(id) => id in s.closers && s.closers[id].Flagged?
    case Unlock(id) => id in s.closers && s.closers[id].Unlocking?
    case SeeDone(id) => id in s.closers && s.closers[id].Waiting? && s.done
    case Receive => !s.done && s.writing.None? && s.queue != []
    case Write => s.writing.Some?
    case Exit => !s.done && s.writing.None? && s.queue == [] && s.channelClosed
  }

  /** One action. Sending on a closed channel and closing one twice panic. */
  function Next(s: State, a: Action): State
    requires Enabled(s, a)
  {
    match a
    case NewProducer(id, rec) => s.(producers := s.producers[id := Calling(rec)])
    case NewCloser(id) => s.(closers := s.closers[id := Entering])
    case ReadLock(id) => s.(producers := s.producers[id := Locked(s.producers[id].rec)])
    case ReadFlag(id) =>
      if s.flag then s.(producers := s.producers[id := Leaving], fates := s.fates[id := RefusedClosed])
      else s.(producers := s.producers[id := Open(s.producers[id].rec)])
    case Send(id) => Sent(s.(producers := s.producers[id := Leaving]), id, s.producers[id].rec)
    case ReadUnlock(id) => s.(producers := s.producers[id := Returned])
    case Lock(id) => s.(closers := s.closers[id := Holding])
    case SetFlag(id) =>
      if s.flag then s.(closers := s.closers[id := Unlocking])
      else s.(flag := true, closers := s.closers[id := Flagged])
    case CloseChannel(id) =>
      s.(closers := s.closers[id := Unlocking], channelClosed := true, panicked := s.panicked || s.channelClosed)
    case Unlock(id) => s.(closers := s.closers[id := Waiting])
    case SeeDone(id) => s.(closers := s.closers[id := Finished])
    case Receive => s.(queue := s.queue[1..], writing := Some(s.queue[0]))
    case Write => s.(writing := None, written := s.written + [s.writing.value])
    case Exit => s.(done := true)
  }

  function Sent(s: State, id: nat, rec: Record): State {
    if s.channelClosed then s.(panicked := true)
    else if |s.queue| < QUEUE_SIZE then
      s.(queue := s.queue + [rec], accepted := s.accepted + [rec], fates := s.fates[id := Accepted])
    else s.(fates := s.fates[id := RefusedFull])
  }

  function InHand(s: State): seq<Record> {
    if s.writing.Some? then [s.writing.value] else []
  }

  /** The lock excludes. */
  ghost predicate Excludes(s: State) {
    (NoReader(s) || NoWriter(s)) && OneWriter(s)
  }

  ghost predicate OneWriter(s: State) {
    forall c, d :: c in s.closers && d in s.closers && Writes(s.closers[c]) && Writes(s.closers[d]) ==> c == d
  }

  /** What each thread has seen still holds. */
  ghost predicate SeenHolds(s: State) {
    && (forall p :: p in s.producers && s.producers[p].Open? ==> !s.flag)
    && (s.channelClosed ==> s.flag)
    && (forall c :: c in s.closers && s.closers[c].Flagged? ==> s.flag && !s.channelClosed)
    && (forall c :: c in s.closers && (s.closers[c].Unlocking? || s.closers[c].Waiting? || s.closers[c].Finished?) ==>
          s.flag)
  }

  ghost predicate LockInv(s: State) {
    Excludes(s) && SeenHolds(s)
  }

  /** Nothing accepted is lost, repeated or reordered; the writer leaves only when all is written. */
  ghost predicate FlowInv(s: State) {
    && s.accepted == InOrder(s)
    && |s.queue| <= QUEUE_SIZE
    && (s.done ==> s.channelClosed && s.writing.None? && s.queue == [])
    && (forall c :: c in s.closers && s.closers[c].Finished? ==> s.done)
    && !s.panicked
  }

  function AcceptedIds(s: State): set<nat> {
    AcceptedIn(s.fates)
  }

  function AcceptedIn(fates: map<nat, Fate>): set<nat> {
    set id | id in fates && fates[id].Accepted?
  }

  /** Every call of Record meets one fate, before it returns, and each accepted call put one record in. */
  ghost predicate FateInv(s: State) {
    FatesInv(s) && |s.accepted| == |AcceptedIds(s)|
  }

  ghost predicate FatesInv(s: State) {
    forall id :: id in s.fates <==> id in s.producers && (s.producers[id].Leaving? || s.producers[id].Returned?)
  }

  ghost predicate Inv(s: State) {
    LockInv(s) && FlowInv(s) && FateInv(s)
  }

  lemma ExcludesStep(s: State, a: Action)
    requires LockInv(s) && Enabled(s, a)
    ensures Excludes(Next(s, a))
  {
    SidesStep(s, a);
    WritersStep(s, a);
  }

  /** Only ReadLock makes a reader, and only Lock a writer. */
  lemma SidesStep(s: State, a: Action)
    requires (NoReader(s) || NoWriter(s)) && Enabled(s, a)
    ensures NoReader(Next(s, a)) || NoWriter(Next(s, a))
  {
    if a.ReadLock? {
      assert NoWriter(Next(s, a));
    } else if a.Lock? {
      assert NoReader(Next(s, a));
    } else {
      assert NoReader(s) ==> NoReader(Next(s, a));
      assert NoWriter(s) ==> NoWriter(Next(s, a));
    }
  }

  lemma WritersStep(s: State, a: Action)
    requires OneWriter(s) && Enabled(s, a)
    ensures OneWriter(Next(s, a))
  {
    if !a.Lock? {
      forall c | c in Next(s, a).closers && Writes(Next(s, a).closers[c]) ensures c in s.closers && Writes(s.closers[c]) {
      }
    }
  }

  lemma SeenStep(s: State, a: Action)
    requires LockInv(s) && Enabled(s, a)
    ensures SeenHolds(Next(s, a))
  {
  }

  lemma LockStep(s: State, a: Action)
    requires LockInv(s) && Enabled(s, a)
    ensures LockInv(Next(s, a))
  {
    ExcludesStep(s, a);
    SeenStep(s, a);
  }

  /** What is written, in hand and queued, in that order. */
  function InOrder(s: State): seq<Record> {
    s.written + InHand(s) + s.queue
  }

  lemma SendAppends(s: State, id: nat)
    requires Enabled(s, Send(id)) && !s.channelClosed && |s.queue| < QUEUE_SIZE
    ensures InOrder(Next(s, Send(id))) == InOrder(s) + [s.producers[id].rec]
  {
    Lists.Regroup(s.written + InHand(s), s.queue, [s.producers[id].rec]);
  }

  lemma WriterMoves(s: State, a: Action)
    requires Enabled(s, a) && (a.Receive? || a.Write?)
    ensures InOrder(Next(s, a)) == InOrder(s)
  {
    if a.Receive? {
      assert s.queue == [s.queue[0]] + s.queue[1..];
    }
  }

  lemma OrderStep(s: State, a: Action)
    requires Inv(s) && Enabled(s, a)
    ensures Next(s, a).accepted == InOrder(Next(s, a))
  {
    if a.Send? {
      if |s.queue| < QUEUE_SIZE {
        SendAppends(s, a.id);
      }
    } else if a.Receive? || a.Write? {
      WriterMoves(s, a);
    }
  }

  lemma FlowStep(s: State, a: Action)
    requires Inv(s) && Enabled(s, a)
    ensures FlowInv(Next(s, a))
  {
    OrderStep(s, a);
  }

  lemma FateStep(s: State, a: Action)
    requires Inv(s) && Enabled(s, a)
    ensures FateInv(Next(s, a))
  {
    FatesFollowPhases(s, a);
    if a.Send? {
      SendCounts(s, a.id);
    } else {
      OthersCountNothing(s, a);
    }
  }

  lemma SendCounts(s: State, id: nat)
    requires FateInv(s) && Enabled(s, Send(id))
    ensures |Next(s, Send(id)).accepted| == |AcceptedIds(Next(s, Send(id)))|
  {
    if !s.channelClosed && |s.queue| < QUEUE_SIZE {
      FateGiven(s.fates, id, Accepted);
    } else if !s.channelClosed {
      FateGiven(s.fates, id, RefusedFull);
    }
  }

  lemma FateGiven(fates: map<nat, Fate>, id: nat, fate: Fate)
    requires id !in fates
    ensures AcceptedIn(fates[id := fate]) == AcceptedIn(fates) + if fate.Accepted? then {id} else {}
  {
  }

  lemma OthersCountNothing(s: State, a: Action)
    requires FateInv(s) && Enabled(s, a) && !a.Send?
    ensures Next(s, a).accepted == s.accepted && AcceptedIds(Next(s, a)) == AcceptedIds(s)
  {
    if a.ReadFlag? {
      assert a.id !in s.fates;
    }
  }

  lemma FatesFollowPhases(s: State, a: Action)
    requires FatesInv(s) && SeenHolds(s) && Enabled(s, a)
    ensures FatesInv(Next(s, a))
  {
    if a.Send? || a.ReadFlag? {
      assert a.id !in s.fates;
    } else {
      assert Next(s, a).fates == s.fates;
    }
  }

  /** How a record can be refused: by a step that finds the writer closed, or its queue full. */
  lemma RefusalsHaveCause(s: State, a: Action, id: nat)
    requires Inv(s) && Enabled(s, a) && id in Next(s, a).fates && id !in s.fates
    ensures Next(s, a).fates[id].RefusedClosed? ==> s.flag
    ensures Next(s, a).fates[id].RefusedFull? ==> |s.queue| == QUEUE_SIZE && !s.channelClosed
    ensures Next(s, a).fates[id].Accepted? ==>
              Next(s, a).accepted == s.accepted + [s.producers[id].rec] && |s.queue| < QUEUE_SIZE
  {
  }

  ghost predicate Possible(s: State, actions: seq<Action>)
    decreases |actions|
  {
    actions == [] || (Enabled(s, actions[0]) && Possible(Next(s, actions[0]), actions[1..]))
  }

  function Run(s: State, actions: seq<Action>): State
    requires Possible(s, actions)
    decreases |actions|
  {
    if actions == [] then s else Run(Next(s, actions[0]), actions[1..])
  }

  lemma {:induction false} RunKeepsInv(s: State, actions: seq<Action>)
    requires Inv(s) && Possible(s, actions)
    ensures Inv(Run(s, actions))
    decreases |actions|
  {
    if actions != [] {
      LockStep(s, actions[0]);
      FlowStep(s, actions[0]);
      FateStep(s, actions[0]);
      RunKeepsInv(Next(s, actions[0]), actions[1..]);
    }
  }

  /** In every run: no panic, and what was accepted is what was written, is in hand, or is queued, in that order. */
  lemma NoPanicInOrder(actions: seq<Action>)
    requires Possible(INITIAL, actions)
    ensures
      var s := Run(INITIAL, actions);
      && !s.panicked
      && InOrder(s) == s.accepted
      && |s.accepted| == |AcceptedIds(s)|
  {
    assert AcceptedIds(INITIAL) == {};
    RunKeepsInv(INITIAL, actions);
  }

  /** When a call of Close has returned, every accepted record has been written. */
  lemma ClosedMeansWritten(actions: seq<Action>, c: nat)
    requires Possible(INITIAL, actions)
    requires c in Run(INITIAL, actions).closers && Run(INITIAL, actions).closers[c].Finished?
    ensures Run(INITIAL, actions).written == Run(INITIAL, actions).accepted
  {
    assert AcceptedIds(INITIAL) == {};
    RunKeepsInv(INITIAL, actions);
  }

  /** Once the channel is closed nothing more is ever accepted. */
  lemma {:induction false} NothingAfterClose(s: State, actions: seq<Action>)
    requires Inv(s) && s.channelClosed && Possible(s, actions)
    ensures Run(s, actions).accepted == s.accepted
    decreases |actions|
  {
    if actions != [] {
      LockStep(s, actions[0]);
      FlowStep(s, actions[0]);
      FateStep(s, actions[0]);
      NothingAfterClose(Next(s, actions[0]), actions[1..]);
    }
  }
}
