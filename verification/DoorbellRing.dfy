/**
 The 32-entry ring between the mailbox interrupt (producer) and the polling task (consumer).
 First the ring as an object with its two operations, then the same two operations cut into their
 single reads and writes and interleaved in every possible way.
 */
module DoorbellRing {
  import opened Options

  datatype PendingCmd = PendingCmd(cmdId: nat, seqHint: nat)

  const DEPTH := 32

  type Index = i: nat | i < 32

  /** The entry that the k-th command of a run goes through. */
  function Slot(k: nat): Index { k % 32 }

  // ---------- The ring in memory ----------

  /** The unread entries, oldest first. */
  function Unread(queue: seq<PendingCmd>, head: nat, tail: nat): (c: seq<PendingCmd>)
    requires |queue| == DEPTH && head < DEPTH && tail < DEPTH
    ensures |c| < DEPTH
  {
    if tail <= head then queue[tail..head] else queue[tail..] + queue[..head]
  }

  /** Storing at the head and advancing it appends, unless the ring is full. */
  lemma PushAppends(queue: seq<PendingCmd>, head: nat, tail: nat, cmd: PendingCmd)
    requires |queue| == DEPTH && head < DEPTH && tail < DEPTH
    ensures |Unread(queue, head, tail)| == DEPTH - 1 <==> (head + 1) % DEPTH == tail
    ensures ((head + 1) % DEPTH != tail ==>
      Unread(queue[head := cmd], (head + 1) % DEPTH, tail) == Unread(queue, head, tail) + [cmd])
  {
  }

  lemma TailOfConcat(a: seq<PendingCmd>, b: seq<PendingCmd>)
    requires a != []
    ensures (a + b)[1..] == a[1..] + b && (a + b)[0] == a[0]
  {
  }

  /** Advancing the tail takes the oldest off. */
  lemma PopTakesFirst(queue: seq<PendingCmd>, head: nat, tail: nat)
    requires |queue| == DEPTH && head < DEPTH && tail < DEPTH && tail != head
    ensures Unread(queue, head, tail) != [] && Unread(queue, head, tail)[0] == queue[tail]
    ensures Unread(queue, head, (tail + 1) % DEPTH) == Unread(queue, head, tail)[1..]
  {
    if tail < head {
      assert (tail + 1) % DEPTH == tail + 1;
      assert queue[tail..head][1..] == queue[tail + 1..head];
    } else if tail + 1 < DEPTH {
      assert (tail + 1) % DEPTH == tail + 1;
      TailOfConcat(queue[tail..], queue[..head]);
      assert queue[tail..][1..] == queue[tail + 1..];
    } else {
      assert (tail + 1) % DEPTH == 0;
      TailOfConcat(queue[tail..], queue[..head]);
      assert queue[tail..][1..] == [];
    }
  }

  class Ring {
    var queue: array<PendingCmd>
    var head: nat
    var tail: nat

    ghost predicate Valid()
      reads this
    {
      queue.Length == DEPTH && head < DEPTH && tail < DEPTH
    }

    /** The unread entries, oldest first. */
    ghost function Contents(): (c: seq<PendingCmd>)
      requires Valid()
      reads this, queue
      ensures |c| < DEPTH
    {
      Unread(queue[..], head, tail)
    }

    constructor ()
      ensures Valid() && fresh(queue) && Contents() == []
    {
      queue := new PendingCmd[DEPTH](i => PendingCmd(0, 0));
      head, tail := 0, 0;
    }

    method OnCmdFromMailbox(cmdId: nat, seqHint: nat)
      requires Valid()
      modifies this`head, queue
      ensures Valid()
      ensures Contents() == if |old(Contents())| == DEPTH - 1 then old(Contents())
                            else old(Contents()) + [PendingCmd(cmdId, seqHint)]
    {
      var at := head;
      var next := (at + 1) % DEPTH;
      PushAppends(queue[..], head, tail, PendingCmd(cmdId, seqHint));
      if next == tail {
        return;
      }
      ghost var before := queue[..];
      queue[at] := PendingCmd(cmdId, seqHint);
      head := next;
      assert queue[..] == before[at := PendingCmd(cmdId, seqHint)];
    }

    method PopCommand() returns (out: Option<PendingCmd>)
      requires Valid()
      modifies this`tail
      ensures Valid()
      ensures old(Contents()) == [] ==> out == None && Contents() == []
      ensures old(Contents()) != [] ==> out == Some(old(Contents())[0]) && Contents() == old(Contents())[1..]
    {
      var at := tail;
      if at == head {
        return None;
      }
      PopTakesFirst(queue[..], head, tail);
      out := Some(queue[at]);
      tail := (at + 1) % DEPTH;
    }
  }

  // ---------- The same operations, one memory access at a time ----------

  type Queue = q: seq<PendingCmd> | |q| == 32 witness seq(32, i => PendingCmd(0, 0))

  /** The producer's program counter, with what it has read so far. */
  datatype Producer =
    | PIdle
    | PHead(cmd: PendingCmd, at: Index)    // head has been read
    | PRoom(cmd: PendingCmd, at: Index)    // the ring was seen not to be full
    | PHalf(cmd: PendingCmd, at: Index)    // the first field of the entry has been written
    | PStored(cmd: PendingCmd, at: Index)  // the entry has been written

  datatype Consumer =
    | CIdle
    | CTail(at: Index)                     // tail has been read
    | CSome(at: Index)                     // the ring was seen not to be empty
    | CHalf(at: Index, cmdId: nat)         // the first field of the entry has been copied out
    | CRead(at: Index, out: PendingCmd)    // the entry has been copied out

  /** `offered` lists the commands of finished producer calls and `taken` which of them were kept;
      `accepted` and `popped` are the commands that went in and came out. */
  datatype State = State(
    queue: Queue, head: Index, tail: Index, producer: Producer, consumer: Consumer,
    accepted: seq<PendingCmd>, popped: seq<PendingCmd>,
    offered: seq<PendingCmd>, taken: seq<bool>)

  /** One memory access of either side; an idle producer starts with the given command. */
  datatype Turn = Produce(cmd: PendingCmd) | Consume

  function Init(): State {
    State(seq(32, i => PendingCmd(0, 0)), 0, 0, PIdle, CIdle, [], [], [], [])
  }

  function Next(s: State, turn: Turn): State {
    match turn
    case Produce(cmd) => (
      match s.producer
      case PIdle => s.(producer := PHead(cmd, s.head))
      case PHead(c, at) =>
        if (at + 1) % DEPTH == s.tail
        then s.(producer := PIdle, offered := s.offered + [c], taken := s.taken + [false])
        else s.(producer := PRoom(c, at))
      case PRoom(c, at) => s.(queue := s.queue[at := s.queue[at].(cmdId := c.cmdId)], producer := PHalf(c, at))
      case PHalf(c, at) => s.(queue := s.queue[at := s.queue[at].(seqHint := c.seqHint)], producer := PStored(c, at))
      case PStored(c, at) =>
        s.(head := (at + 1) % DEPTH, producer := PIdle, accepted := s.accepted + [c],
           offered := s.offered + [c], taken := s.taken + [true]))
    case Consume => (
      match s.consumer
      case CIdle => s.(consumer := CTail(s.tail))
      case CTail(at) => s.(consumer := if at == s.head then CIdle else CSome(at))
      case CSome(at) => s.(consumer := CHalf(at, s.queue[at].cmdId))
      case CHalf(at, cmdId) => s.(consumer := CRead(at, PendingCmd(cmdId, s.queue[at].seqHint)))
      case CRead(at, out) => s.(tail := (at + 1) % DEPTH, consumer := CIdle, popped := s.popped + [out]))
  }

  function Exec(s: State, turns: seq<Turn>): State
    decreases |turns|
  {
    if turns == [] then s else Exec(Next(s, turns[0]), turns[1..])
  }

  function Held(s: State): int {
    |s.accepted| - |s.popped|
  }

  /** The offered commands that were taken, in order. */
  function Kept(offered: seq<PendingCmd>, taken: seq<bool>): seq<PendingCmd>
    requires |offered| == |taken|
  {
    if offered == [] then []
    else Kept(offered[..|offered| - 1], taken[..|taken| - 1])
         + if taken[|taken| - 1] then [offered[|offered| - 1]] else []
  }

  // ---------- What every interleaving keeps ----------

  ghost predicate IndexInv(s: State) {
    && s.head == Slot(|s.accepted|) && s.tail == Slot(|s.popped|)
    && 0 <= Held(s) < 32
  }

  ghost predicate QueueInv(s: State) {
    && s.popped <= s.accepted
    && forall k :: |s.popped| <= k < |s.accepted| ==> s.queue[Slot(k)] == s.accepted[k]
  }

  ghost predicate LogInv(s: State) {
    |s.offered| == |s.taken| && s.accepted == Kept(s.offered, s.taken)
  }

  ghost predicate ProducerInv(s: State) {
    match s.producer
    case PIdle => true
    case PHead(_, at) => at == s.head
    case PRoom(_, at) => at == s.head && Held(s) < 31
    case PHalf(c, at) => at == s.head && Held(s) < 31 && s.queue[s.head].cmdId == c.cmdId
    case PStored(c, at) => at == s.head && Held(s) < 31 && s.queue[s.head] == c
  }

  ghost predicate ConsumerInv(s: State) {
    match s.consumer
    case CIdle => true
    case CTail(at) => at == s.tail
    case CSome(at) => at == s.tail && Held(s) > 0
    case CHalf(at, cmdId) => at == s.tail && Held(s) > 0 && cmdId == s.accepted[|s.popped|].cmdId
    case CRead(at, out) => at == s.tail && Held(s) > 0 && out == s.accepted[|s.popped|]
  }

  ghost predicate Inv(s: State) {
    IndexInv(s) && QueueInv(s) && LogInv(s) && ProducerInv(s) && ConsumerInv(s)
  }

  lemma Slots(a: nat, b: nat)
    requires a <= b < a + 32
    ensures Slot(a) == Slot(b) <==> a == b
    ensures (Slot(a) + 1) % DEPTH == Slot(a + 1)
    ensures Slot(b + 1) == Slot(a) <==> b == a + 31
  {
  }

  /** The index tests of both sides mean what they are there for. */
  lemma FullAndEmptyExactly(s: State)
    requires IndexInv(s)
    ensures (s.head + 1) % DEPTH == s.tail <==> Held(s) == 31
    ensures s.head == s.tail <==> Held(s) == 0
  {
    Slots(|s.popped|, |s.accepted|);
    Slots(|s.accepted|, |s.accepted|);
  }

  lemma KeptAppend(offered: seq<PendingCmd>, taken: seq<bool>, c: PendingCmd, t: bool)
    requires |offered| == |taken|
    ensures Kept(offered + [c], taken + [t]) == Kept(offered, taken) + if t then [c] else []
  {
    assert (offered + [c])[..|offered|] == offered && (taken + [t])[..|taken|] == taken;
  }

  lemma StoreStep(s: State, cmd: PendingCmd)
    requires Inv(s) && (s.producer.PRoom? || s.producer.PHalf?)
    ensures Inv(Next(s, Produce(cmd)))
  {
    var t := Next(s, Produce(cmd));
    forall k | |s.popped| <= k < |s.accepted| ensures t.queue[Slot(k)] == t.accepted[k] {
      Slots(k, |s.accepted|);
    }
  }

  lemma AdvanceHeadStep(s: State, cmd: PendingCmd)
    requires Inv(s) && s.producer.PStored?
    ensures Inv(Next(s, Produce(cmd)))
  {
    Slots(|s.accepted|, |s.accepted|);
    KeptAppend(s.offered, s.taken, s.producer.cmd, true);
  }

  lemma ProduceStep(s: State, cmd: PendingCmd)
    requires Inv(s)
    ensures Inv(Next(s, Produce(cmd)))
  {
    match s.producer
    case PIdle =>
    case PHead(c, at) =>
      FullAndEmptyExactly(s);
      KeptAppend(s.offered, s.taken, c, false);
    case PRoom(c, at) => StoreStep(s, cmd);
    case PHalf(c, at) => StoreStep(s, cmd);
    case PStored(c, at) => AdvanceHeadStep(s, cmd);
  }

  lemma ConsumeStep(s: State)
    requires Inv(s)
    ensures Inv(Next(s, Consume))
  {
    FullAndEmptyExactly(s);
    Slots(|s.popped|, |s.popped|);
    if s.consumer.CSome? || s.consumer.CHalf? {
      assert s.queue[Slot(|s.popped|)] == s.accepted[|s.popped|];
    }
  }

  lemma {:induction false} RunInv(s: State, turns: seq<Turn>)
    requires Inv(s)
    ensures Inv(Exec(s, turns))
    decreases |turns|
  {
    if turns != [] {
      match turns[0] {
        case Produce(cmd) => ProduceStep(s, cmd);
        case Consume => ConsumeStep(s);
      }
      RunInv(Next(s, turns[0]), turns[1..]);
    }
  }

  lemma ReachableInv(turns: seq<Turn>)
    ensures Inv(Exec(Init(), turns))
  {
    RunInv(Init(), turns);
  }

  // ---------- The promises ----------

  /** Under all interleavings the popped commands are a prefix of the accepted ones, which are
      the offered ones that were kept, in order; at most 31 are held. */
  lemma FifoUnderAllInterleavings(turns: seq<Turn>)
    ensures var s := Exec(Init(), turns);
      && s.popped <= s.accepted
      && |s.offered| == |s.taken| && s.accepted == Kept(s.offered, s.taken)
      && 0 <= Held(s) <= 31
  {
    ReachableInv(turns);
  }

  /** No access of either side changes an entry that is still unread. */
  lemma UnreadNeverOverwritten(turns: seq<Turn>, turn: Turn, k: nat)
    requires var s := Exec(Init(), turns);
             |Next(s, turn).popped| <= k < |s.accepted|
    ensures var s := Exec(Init(), turns);
            Next(s, turn).queue[Slot(k)] == s.queue[Slot(k)] == s.accepted[k]
  {
    ReachableInv(turns);
    var s := Exec(Init(), turns);
    if turn.Produce? && (s.producer.PRoom? || s.producer.PHalf?) { Slots(k, |s.accepted|); }
  }

  /** A command is dropped exactly when the producer, at its look at the tail, finds 31 entries held. */
  lemma DroppedOnlyWhenFull(turns: seq<Turn>, cmd: PendingCmd)
    requires Exec(Init(), turns).producer.PHead?
    ensures var s := Exec(Init(), turns);
            var t := Next(s, Produce(cmd));
            && (t.producer.PIdle? <==> Held(s) == 31)
            && (t.producer.PIdle? ==> t.taken == s.taken + [false] && t.accepted == s.accepted)
            && (!t.producer.PIdle? ==> t.producer == PRoom(s.producer.cmd, s.head))
  {
    ReachableInv(turns);
    FullAndEmptyExactly(Exec(Init(), turns));
  }

  function Consumes(n: nat): seq<Turn> {
    if n == 0 then [] else [Consume] + Consumes(n - 1)
  }

  lemma NothingHeld(s: State)
    requires Inv(s) && Held(s) <= 0
    ensures s.popped == s.accepted && Held(s) == 0
  {
  }

  lemma ConsumeOne(s: State, more: nat) returns (t: State)
    requires Inv(s)
    ensures t == Next(s, Consume) && Inv(t)
    ensures Exec(s, Consumes(more + 1)) == Exec(t, Consumes(more))
  {
    t := Next(s, Consume);
    ConsumeStep(s);
    assert Consumes(more + 1)[1..] == Consumes(more);
  }

  lemma PopOne(s: State, more: nat) returns (t: State)
    requires Inv(s) && s.consumer.CIdle? && Held(s) > 0
    ensures Inv(t) && t.consumer.CIdle? && t.accepted == s.accepted && Held(t) == Held(s) - 1
    ensures Exec(s, Consumes(more + 5)) == Exec(t, Consumes(more))
  {
    hide Exec, Consumes;
    FullAndEmptyExactly(s);
    var s1 := ConsumeOne(s, more + 4);
    var s2 := ConsumeOne(s1, more + 3);
    var s3 := ConsumeOne(s2, more + 2);
    var s4 := ConsumeOne(s3, more + 1);
    t := ConsumeOne(s4, more);
  }

  lemma {:induction false} DrainFrom(s: State)
    requires Inv(s) && s.consumer.CIdle?
    ensures Exec(s, Consumes(5 * Held(s))).popped == s.accepted
    decreases Held(s)
  {
    if Held(s) > 0 {
      var more: nat := 5 * (Held(s) - 1);
      var t := PopOne(s, more);
      assert more + 5 == 5 * Held(s) && more == 5 * Held(t);
      DrainFrom(t);
    } else {
      NothingHeld(s);
    }
  }

  /** A consumer left alone for five accesses per entry takes out everything that was accepted. */
  lemma DrainedInOrder(turns: seq<Turn>)
    requires Exec(Init(), turns).consumer.CIdle?
    ensures var s := Exec(Init(), turns);
            Held(s) >= 0 && Exec(s, Consumes(5 * Held(s))).popped == s.accepted
  {
    ReachableInv(turns);
    DrainFrom(Exec(Init(), turns));
  }
}
