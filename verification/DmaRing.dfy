/** src/dma.rs: the descriptor ring, as sequential operations and as a machine of atomic steps. */
module DmaRings {
  import opened Common

  const SLOTS: nat := 1024
  const U32: nat := 0x1_0000_0000

  datatype Descriptor = Descriptor(srcAddr: nat, dstAddr: nat, size: nat, srcOrdinal: nat, dstOrdinal: nat, priority: nat, flags: nat)

  /** The shared memory of one ring: the slots and the three atomic counters. */
  datatype Ring = Ring(slots: seq<Descriptor>, submitted: nat, consumer: nat, completed: nat) {
    ghost predicate Valid() {
      |slots| == SLOTS && completed <= consumer <= submitted <= consumer + SLOTS && submitted < U32
    }

    /** The unconsumed descriptors, oldest first. */
    ghost function Queue(): seq<Descriptor>
      requires Valid()
    {
      seq(submitted - consumer, i requires 0 <= i < submitted - consumer => slots[(consumer + i) % SLOTS])
    }
  }

  function SaturatingSub(a: nat, b: nat): nat { if b <= a then a - b else 0 }

  function EmptyRing(): Ring {
    Ring(seq(SLOTS, _ => Descriptor(0, 0, 0, 0, 0, 0, 0)), 0, 0, 0)
  }

  /** Indices closer than the ring size never share a slot. */
  lemma SlotsDiffer(i: nat, j: nat)
    requires i < j < i + SLOTS
    ensures i % SLOTS != j % SLOTS
  {
  }

  /** Filling the slot after the last one and moving the producer index on is an enqueue. */
  lemma PushIsEnqueue(r: Ring, desc: Descriptor)
    requires r.Valid() && |r.Queue()| < SLOTS && r.submitted + 1 < U32
    ensures
      var t := r.(slots := r.slots[r.submitted % SLOTS := desc], submitted := r.submitted + 1);
      t.Valid() && t.Queue() == r.Queue() + [desc]
  {
    var t := r.(slots := r.slots[r.submitted % SLOTS := desc], submitted := r.submitted + 1);
    forall i | 0 <= i < |r.Queue()| ensures t.Queue()[i] == r.Queue()[i] { SlotsDiffer(r.consumer + i, r.submitted); }
  }

  /** Moving the consumer index on is a dequeue. */
  lemma PopIsDequeue(r: Ring)
    requires r.Valid() && r.Queue() != []
    ensures
      var t := r.(consumer := r.consumer + 1, completed := r.completed + 1);
      t.Valid() && t.Queue() == r.Queue()[1..]
  {
  }

  // ----------------------------------------------------------- sequential calls

  class DmaRing {
    const ring: array<Descriptor>
    var consumer: nat
    var submitted: nat
    var completed: nat

    ghost function State(): Ring
      reads this, ring
    {
      Ring(ring[..], submitted, consumer, completed)
    }

    constructor ()
      ensures fresh(ring) && State() == EmptyRing()
    {
      ring := new Descriptor[SLOTS](_ => Descriptor(0, 0, 0, 0, 0, 0, 0));
      consumer, submitted, completed := 0, 0, 0;
    }

    function PendingCount(): (n: nat)
      reads this, ring
      ensures State().Valid() ==> n == |State().Queue()|
    {
      SaturatingSub(submitted, consumer)
    }

    /** Enqueues at the tail, or reports a full ring and changes nothing.  The 2^32nd submission
      * wraps the counter; the ring is a queue afterwards exactly when this one did not. */
    method Submit(desc: Descriptor) returns (r: Result<nat>)
      requires State().Valid()
      modifies this, ring
      ensures consumer == old(consumer) && completed == old(completed)
      ensures |old(State()).Queue()| == SLOTS ==> r == Err(DmaRingFull) && State() == old(State())
      ensures |old(State()).Queue()| < SLOTS ==>
        && r == Ok(old(submitted) % SLOTS) && submitted == (old(submitted) + 1) % 0x1_0000_0000
        && ring[..] == old(ring[..])[old(submitted) % SLOTS := desc]
      ensures State().Valid() <==> |old(State()).Queue()| == 1024 || old(submitted) + 1 < 0x1_0000_0000
      ensures |old(State()).Queue()| < SLOTS && State().Valid() ==> State().Queue() == old(State()).Queue() + [desc]
    {
      hide Ring.Queue;
      if SLOTS <= PendingCount() { return Err(DmaRingFull); }
      ghost var before := State();
      var producer := submitted;
      var slot := producer % SLOTS;
      ring[slot] := desc;
      submitted := (producer + 1) % U32;
      assert State() == before.(slots := before.slots[slot := desc], submitted := submitted);
      if producer + 1 < U32 { PushIsEnqueue(before, desc); }
      return Ok(slot);
    }

    /** The oldest unconsumed descriptor, if any. */
    method Peek() returns (r: Option<Descriptor>)
      requires State().Valid()
      ensures r == if State().Queue() == [] then None else Some(State().Queue()[0])
    {
      if submitted <= consumer { return None; }
      return Some(ring[consumer % SLOTS]);
    }

    /** Dequeues the head and counts it complete.  Nothing checks that there is a head: the ring is
      * a queue afterwards exactly when there was one. */
    method Ack()
      requires State().Valid()
      modifies this
      ensures ring[..] == old(ring[..]) && submitted == old(submitted)
      ensures consumer == (old(consumer) + 1) % 0x1_0000_0000 && completed == (old(completed) + 1) % 0x1_0000_0000
      ensures State().Valid() <==> old(State()).Queue() != []
      ensures State().Valid() ==> State().Queue() == old(State()).Queue()[1..] && completed == old(completed) + 1
    {
      hide Ring.Queue;
      ghost var before := State();
      assert before.Queue() == [] <==> PendingCount() == 0;
      if before.Queue() != [] { PopIsDequeue(before); }
      consumer := (consumer + 1) % U32;
      completed := (completed + 1) % U32;
      assert State() == before.(consumer := consumer, completed := completed);
    }

    /** `is_done`: every submitted descriptor has completed. */
    function IsDone(): (b: bool)
      reads this, ring
      ensures State().Valid() ==> (b <==> State().Queue() == [] && completed == consumer)
    {
      submitted == completed
    }
  }

  // --------------------------------------------- one producer, one consumer, interleaved

  /** Where the producer is inside `submit`. */
  datatype Producer =
    | Idle
    | LoadedSubmitted(desc: Descriptor, p: nat)
    | NotFull(desc: Descriptor)
    | Reloaded(desc: Descriptor, p: nat)
    | Writing(desc: Descriptor, p: nat)
    | Written(desc: Descriptor, p: nat)

  /** Where the consumer is inside `peek` and `ack`. */
  datatype Consumer =
    | Resting
    | LoadedConsumer(c: nat)
    | Peeked(c: nat)
    | Holding(c: nat, desc: Descriptor)
    | Advanced

  /** The ring, both threads, every descriptor published so far and every one consumed so far. */
  datatype Machine = Machine(ring: Ring, prod: Producer, cons: Consumer, published: seq<Descriptor>, consumed: seq<Descriptor>)

  datatype Action =
    | BeginSubmit(d: Descriptor) | LoadConsumerIndex | ReloadSubmitted | BeginWrite(torn: Descriptor) | EndWrite | Publish
    | BeginPeek | LoadSubmittedIndex | ReadSlot | AdvanceConsumer | MarkComplete

  /** One atomic load, store or half of the slot write; an action that is not enabled does nothing. */
  function Next(m: Machine, a: Action): Machine {
    var r := m.ring;
    match a
    // submit: is_full, reload, write the slot, ring the doorbell
    case BeginSubmit(d) =>
      if m.prod.Idle? then m.(prod := LoadedSubmitted(d, r.submitted)) else m
    case LoadConsumerIndex =>
      if !m.prod.LoadedSubmitted? then m
      else if SLOTS <= SaturatingSub(m.prod.p, r.consumer) then m.(prod := Idle)
      else m.(prod := NotFull(m.prod.desc))
    case ReloadSubmitted =>
      if m.prod.NotFull? then m.(prod := Reloaded(m.prod.desc, r.submitted)) else m
    case BeginWrite(torn) =>
      if m.prod.Reloaded? && |r.slots| == SLOTS
      then m.(prod := Writing(m.prod.desc, m.prod.p), ring := r.(slots := r.slots[m.prod.p % SLOTS := torn]))
      else m
    case EndWrite =>
      if m.prod.Writing? && |r.slots| == SLOTS
      then m.(prod := Written(m.prod.desc, m.prod.p), ring := r.(slots := r.slots[m.prod.p % SLOTS := m.prod.desc]))
      else m
    case Publish =>
      if m.prod.Written? && m.prod.p + 1 < U32
      then m.(prod := Idle, ring := r.(submitted := m.prod.p + 1), published := m.published + [m.prod.desc])
      else m
    // peek, use the descriptor, ack
    case BeginPeek =>
      if m.cons.Resting? then m.(cons := LoadedConsumer(r.consumer)) else m
    case LoadSubmittedIndex =>
      if !m.cons.LoadedConsumer? then m
      else if r.submitted <= m.cons.c then m.(cons := Resting)
      else m.(cons := Peeked(m.cons.c))
    case ReadSlot =>
      if (m.cons.Peeked? || m.cons.Holding?) && |r.slots| == SLOTS
      then m.(cons := Holding(m.cons.c, r.slots[m.cons.c % SLOTS]))
      else m
    case AdvanceConsumer =>
      if m.cons.Holding?
      then m.(cons := Advanced, ring := r.(consumer := r.consumer + 1), consumed := m.consumed + [m.cons.desc])
      else m
    case MarkComplete =>
      if m.cons.Advanced? then m.(cons := Resting, ring := r.(completed := r.completed + 1)) else m
  }

  function Run(m: Machine, actions: seq<Action>): Machine
    decreases |actions|
  {
    if actions == [] then m else Run(Next(m, actions[0]), actions[1..])
  }

  function Start(): Machine { Machine(EmptyRing(), Idle, Resting, [], []) }

  /** The slot of index `i` holds the descriptor published `i`-th. */
  predicate Intact(m: Machine, i: nat)
    requires |m.ring.slots| == SLOTS && i < |m.published|
  {
    m.ring.slots[i % SLOTS] == m.published[i]
  }

  ghost predicate Inv(m: Machine) {
    var r := m.ring;
    && r.Valid()
    && |m.published| == r.submitted && |m.consumed| == r.consumer
    && m.consumed == m.published[..r.consumer]
    && (forall i :: r.consumer <= i < r.submitted ==> Intact(m, i))
    && ProducerInv(m)
    && ConsumerInv(m)
  }

  ghost predicate ProducerInv(m: Machine)
    requires |m.ring.slots| == SLOTS
  {
    var r := m.ring;
    match m.prod
    case Idle => true
    case LoadedSubmitted(_, p) => p == r.submitted
    case NotFull(_) => r.submitted < r.consumer + SLOTS
    case Reloaded(_, p) => p == r.submitted < r.consumer + SLOTS
    case Writing(_, p) => p == r.submitted < r.consumer + SLOTS
    case Written(d, p) => p == r.submitted < r.consumer + SLOTS && r.slots[p % SLOTS] == d
  }

  ghost predicate ConsumerInv(m: Machine)
    requires |m.published| == m.ring.submitted
  {
    var r := m.ring;
    match m.cons
    case Resting => r.completed == r.consumer
    case LoadedConsumer(c) => r.completed == r.consumer == c
    case Peeked(c) => r.completed == r.consumer == c < r.submitted
    case Holding(c, d) => r.completed == r.consumer == c < r.submitted && d == m.published[c]
    case Advanced => r.completed + 1 == r.consumer
  }

  /** A step leaves the queue of unconsumed descriptors alone, enqueues the submitted descriptor at
    * its tail, or dequeues its head, which is the descriptor the consumer holds. */
  ghost predicate QueueStep(m: Machine, n: Machine)
    requires m.ring.Valid() && n.ring.Valid()
  {
    var q, q' := m.ring.Queue(), n.ring.Queue();
    || q' == q
    || (m.prod.Written? && q' == q + [m.prod.desc])
    || (m.cons.Holding? && q != [] && q[0] == m.cons.desc && q' == q[1..])
  }

  lemma QueueIsLog(m: Machine)
    requires Inv(m)
    ensures m.ring.Queue() == m.published[m.ring.consumer..]
  {
    forall i | 0 <= i < m.ring.submitted - m.ring.consumer ensures m.ring.Queue()[i] == m.published[m.ring.consumer + i] {
      assert Intact(m, m.ring.consumer + i);
    }
  }

  /** No step disturbs an unconsumed descriptor; a write goes to a slot none of them uses. */
  lemma UnconsumedIntact(m: Machine, a: Action, i: nat)
    requires Inv(m) && Next(m, a).ring.consumer <= i < Next(m, a).ring.submitted
    ensures |Next(m, a).ring.slots| == SLOTS && i < |Next(m, a).published| && Intact(Next(m, a), i)
  {
    if i < m.ring.submitted {
      assert Intact(m, i);
      if m.ring.submitted < m.ring.consumer + SLOTS { SlotsDiffer(i, m.ring.submitted); }
    }
  }

  lemma ProducerStepKeepsInv(m: Machine, a: Action)
    requires Inv(m)
    requires a.BeginSubmit? || a.LoadConsumerIndex? || a.ReloadSubmitted? || a.BeginWrite? || a.EndWrite? || a.Publish?
    ensures Inv(Next(m, a))
  {
    forall i | Next(m, a).ring.consumer <= i < Next(m, a).ring.submitted ensures Intact(Next(m, a), i) {
      UnconsumedIntact(m, a, i);
    }
  }

  lemma ConsumerStepKeepsInv(m: Machine, a: Action)
    requires Inv(m)
    requires a.BeginPeek? || a.LoadSubmittedIndex? || a.ReadSlot? || a.AdvanceConsumer? || a.MarkComplete?
    ensures Inv(Next(m, a))
  {
    if m.cons.Peeked? || m.cons.Holding? { assert Intact(m, m.cons.c); }
    forall i | Next(m, a).ring.consumer <= i < Next(m, a).ring.submitted ensures Intact(Next(m, a), i) {
      UnconsumedIntact(m, a, i);
    }
  }

  lemma NextKeepsInv(m: Machine, a: Action)
    requires Inv(m)
    ensures Inv(Next(m, a))
  {
    if a.BeginPeek? || a.LoadSubmittedIndex? || a.ReadSlot? || a.AdvanceConsumer? || a.MarkComplete? {
      ConsumerStepKeepsInv(m, a);
    } else {
      ProducerStepKeepsInv(m, a);
    }
  }

  /** Every step is a queue step. */
  lemma NextIsQueueStep(m: Machine, a: Action)
    requires Inv(m)
    ensures Inv(Next(m, a)) && QueueStep(m, Next(m, a))
  {
    NextKeepsInv(m, a);
    QueueIsLog(m);
    QueueIsLog(Next(m, a));
  }

  /** Every interleaving: what was consumed is a prefix of what was published, in order and
    * unmodified, and completed <= consumer <= submitted <= consumer + 1024 at every point. */
  lemma {:induction false} InterleavingsAreFifo(m: Machine, actions: seq<Action>)
    requires Inv(m)
    ensures Inv(Run(m, actions))
    ensures Run(m, actions).consumed <= Run(m, actions).published
    decreases |actions|
  {
    if actions != [] {
      NextIsQueueStep(m, actions[0]);
      InterleavingsAreFifo(Next(m, actions[0]), actions[1..]);
    }
  }

  lemma StartIsInv()
    ensures Inv(Start())
  {
  }

  /** Every interleaving from an empty ring: completed <= consumer <= submitted <= consumer + 1024,
    * and the consumer has seen the first `consumer` of the `submitted` published descriptors. */
  lemma NewRingsAreFifo(actions: seq<Action>)
    ensures
      var m := Run(Start(), actions);
      && m.ring.Valid() && |m.consumed| == m.ring.consumer && |m.published| == m.ring.submitted
      && m.consumed <= m.published
  {
    StartIsInv();
    InterleavingsAreFifo(Start(), actions);
  }

  /** `submit` run on its own does in one go what its atomic steps do: it is refused exactly when
    * the ring is full, and otherwise publishes the descriptor in the slot it reports. */
  lemma SubmitIsItsSteps(m: Machine, d: Descriptor, torn: Descriptor)
    requires Inv(m) && m.prod.Idle? && m.ring.submitted + 1 < U32
    ensures
      var checked := Next(Next(m, BeginSubmit(d)), LoadConsumerIndex);
      var written := Next(Next(Next(checked, ReloadSubmitted), BeginWrite(torn)), EndWrite);
      var n := Next(written, Publish);
      if |m.ring.Queue()| == 1024 then n == m
      else n == m.(published := m.published + [d],
                   ring := m.ring.(slots := m.ring.slots[m.ring.submitted % SLOTS := d], submitted := m.ring.submitted + 1))
  {
    var slots, k := m.ring.slots, m.ring.submitted % SLOTS;
    assert slots[k := torn][k := d] == slots[k := d];
  }

  /** The consumer's round: `peek`, use of the descriptor, `ack`. */
  function Round(): seq<Action> { [BeginPeek, LoadSubmittedIndex, ReadSlot, AdvanceConsumer, MarkComplete] }

  /** Run on its own, a round sees the head of the queue whenever there is one, and takes exactly it; on
    * an empty queue it does nothing. */
  lemma PeekAndAckAreTheirSteps(m: Machine)
    requires Inv(m) && m.cons.Resting?
    ensures
      var n := Run(m, Round());
      if m.ring.Queue() == [] then n == m
      else n == m.(consumed := m.consumed + [m.ring.Queue()[0]],
                   ring := m.ring.(consumer := m.ring.consumer + 1, completed := m.ring.completed + 1))
  {
    hide Run, Next, Ring.Queue, Inv;
    FiveSteps(m, Round());
    HeadSlot(m);
    var c := m.ring.consumer;
    PeekSteps(m);
    if c < m.ring.submitted {
      TakeSteps(m.(cons := Peeked(c)));
    } else {
      RestingSteps(m);
    }
  }

  lemma HeadSlot(m: Machine)
    requires Inv(m)
    ensures m.ring.Valid() && (m.ring.Queue() == [] <==> m.ring.submitted <= m.ring.consumer)
    ensures m.ring.Queue() != [] ==> m.ring.Queue()[0] == m.ring.slots[m.ring.consumer % SLOTS]
  {
  }

  lemma PeekSteps(m: Machine)
    requires m.cons.Resting?
    ensures Next(Next(m, BeginPeek), LoadSubmittedIndex) ==
      if m.ring.submitted <= m.ring.consumer then m else m.(cons := Peeked(m.ring.consumer))
  {
  }

  lemma TakeSteps(m: Machine)
    requires m.cons.Peeked? && |m.ring.slots| == SLOTS
    ensures Next(Next(Next(m, ReadSlot), AdvanceConsumer), MarkComplete) ==
      m.(cons := Resting, consumed := m.consumed + [m.ring.slots[m.cons.c % SLOTS]],
         ring := m.ring.(consumer := m.ring.consumer + 1, completed := m.ring.completed + 1))
  {
  }

  lemma RestingSteps(m: Machine)
    requires m.cons.Resting?
    ensures Next(Next(Next(m, ReadSlot), AdvanceConsumer), MarkComplete) == m
  {
  }

  lemma FiveSteps(m: Machine, a: seq<Action>)
    requires |a| == 5
    ensures Run(m, a) == Next(Next(Next(Next(Next(m, a[0]), a[1]), a[2]), a[3]), a[4])
  {
    hide Next;
    assert a[1..][1..] == a[2..] && a[2..][1..] == a[3..] && a[3..][1..] == a[4..] && a[4..][1..] == [];
    var m1 := Next(m, a[0]);
    var m2 := Next(m1, a[1]);
    var m3 := Next(m2, a[2]);
    var m4 := Next(m3, a[3]);
    assert Run(m, a) == Run(m1, a[1..]) == Run(m2, a[2..]);
    assert Run(m2, a[2..]) == Run(m3, a[3..]) == Run(m4, a[4..]);
    assert Run(m4, a[4..]) == Run(Next(m4, a[4]), []);
  }

  function Rounds(n: nat): seq<Action> { if n == 0 then [] else Round() + Rounds(n - 1) }

  lemma {:induction false} RunSplits(m: Machine, a: seq<Action>, b: seq<Action>)
    ensures Run(m, a + b) == Run(Run(m, a), b)
    decreases |a|
  {
    if a == [] {
      assert a + b == b;
    } else {
      assert (a + b)[1..] == a[1..] + b;
      RunSplits(Next(m, a[0]), a[1..], b);
    }
  }

  /** As many rounds as there are descriptors waiting consume them all, in order. */
  lemma {:induction false} RoundsDrainTheRing(m: Machine)
    requires Inv(m) && m.cons.Resting?
    ensures
      var n := Run(m, Rounds(|m.ring.Queue()|));
      Inv(n) && n.consumed == m.published && n.ring.Queue() == [] && n.ring.completed == m.ring.submitted
    decreases |m.ring.Queue()|
  {
    QueueIsLog(m);
    if m.ring.Queue() == [] {
      assert m.published[..m.ring.consumer] == m.published;
    } else {
      hide Next, Inv;
      var n := Run(m, Round());
      PeekAndAckAreTheirSteps(m);
      InterleavingsAreFifo(m, Round());
      QueueIsLog(n);
      RunSplits(m, Round(), Rounds(|n.ring.Queue()|));
      RoundsDrainTheRing(n);
    }
  }
}
