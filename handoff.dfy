/**
 * The shared-slot handoff as a sequential state machine. The four globals
 * `buffer`, `toPrint`, `iteration` and `produced` form one `State`; the body of
 * each producer or consumer (for the mutex-only and lockstep variants, the part
 * run while holding the lock) is one atomic step over it. A thread schedule is
 * the sequence of steps that ran, in the order they ran.
 */
module Handoff {
  import opened Wrappers
  import opened SizeT
  import opened Pieces

  /** Index of the first digit of pi that is produced. */
  const FIRST_DIGIT: Size := 0

  /**
   * `std::to_string(GetNthPiDigit(n))[0]`: the character the producer stores for
   * digit index `n`. The digit computation is not part of this model, so every
   * operation takes it as a parameter.
   */
  type DigitSource = nat -> char

  datatype State = State(buffer: PieceOfPi, toPrint: string, iteration: Size, produced: bool)

  /** The globals before any step: a default `buffer`, an empty log, `FIRST_DIGIT`, nothing produced. */
  const INITIAL_STATE: State := State(DEFAULT_PIECE, "", FIRST_DIGIT, false)

  /** The producer body: store the digit at `iteration` with this producer's id, then advance `iteration`. */
  function Produce(s: State, id: Size, getDigit: DigitSource): (r: State)
    ensures r.buffer.digit == getDigit(s.iteration) && r.buffer.producerId == id
    ensures r.iteration == Wrap(s.iteration + 1)
    ensures r.buffer.consumerId == s.buffer.consumerId
    ensures r.toPrint == s.toPrint && r.produced == s.produced
  {
    s.(buffer := s.buffer.(digit := getDigit(s.iteration), producerId := id),
       iteration := Increment(s.iteration))
  }

  /** The consumer body: stamp the record with this consumer's id and append its line to the log. */
  function Consume(s: State, id: Size): (r: State)
    ensures r.buffer == s.buffer.(consumerId := id)
    ensures r.iteration == s.iteration && r.produced == s.produced
  {
    var b := s.buffer.(consumerId := id);
    s.(buffer := b, toPrint := s.toPrint + Line(b))
  }

  /** A consumer step adds exactly one record to the log: the buffer as it read it. */
  lemma ConsumeAppendsRecord(s: State, id: Size, rs: seq<PieceOfPi>)
    requires s.toPrint == Render(rs)
    ensures Consume(s, id).toPrint == Render(rs + [Consume(s, id).buffer])
    ensures ParseLog(Consume(s, id).toPrint) == Some(rs + [Consume(s, id).buffer])
  {
    RenderSnoc(rs, Consume(s, id).buffer);
    LogRoundTrip(rs + [Consume(s, id).buffer]);
  }

  /** A consumer step only appends to the log, and what it appends reads back as one line for the buffer it stamped. */
  lemma ConsumeExtendsLog(s: State, id: Size)
    ensures s.toPrint <= Consume(s, id).toPrint
    ensures ParseLine(Consume(s, id).toPrint[|s.toPrint|..]) == Some((Consume(s, id).buffer, ""))
  {
    var b := Consume(s, id).buffer;
    assert Consume(s, id).toPrint[|s.toPrint|..] == Line(b) + "";
    LineRoundTrip(b, "");
  }

  /** The lockstep producer, run once `cv_producer.wait` has seen `!produced`: the producer body, then `produced = true`. */
  function LockstepProduce(s: State, id: Size, getDigit: DigitSource): (r: State)
    requires !s.produced
    ensures r.produced
    ensures r.(produced := false) == Produce(s, id, getDigit)
  {
    Produce(s, id, getDigit).(produced := true)
  }

  /** The lockstep consumer, run once `cv_consumer.wait` has seen `produced`: the consumer body, then `produced = false`. */
  function LockstepConsume(s: State, id: Size): (r: State)
    requires s.produced
    ensures !r.produced
    ensures r.(produced := true) == Consume(s, id)
  {
    Consume(s, id).(produced := false)
  }

  /** One step of a schedule: the producer or the consumer called with `id`. */
  datatype Event = ProducerStep(id: Size) | ConsumerStep(id: Size)

  /** A mutex-only step: the locked body runs whatever the state of the slot. */
  function MutexOnlyStep(s: State, e: Event, getDigit: DigitSource): State
  {
    match e
    case ProducerStep(id) => Produce(s, id, getDigit)
    case ConsumerStep(id) => Consume(s, id)
  }

  /** The state after the mutex-only steps of `sched`, in order; every order is possible. */
  function RunMutexOnly(s: State, sched: seq<Event>, getDigit: DigitSource): State
    decreases |sched|
  {
    if sched == [] then s
    else MutexOnlyStep(RunMutexOnly(s, sched[..|sched| - 1], getDigit), sched[|sched| - 1], getDigit)
  }

  /** The predicate a lockstep step waits for before it runs. */
  predicate LockstepEnabled(s: State, e: Event) {
    if e.ProducerStep? then !s.produced else s.produced
  }

  /** A lockstep step, or None when its predicate is false and the thread would keep waiting. */
  function LockstepStep(s: State, e: Event, getDigit: DigitSource): (r: Option<State>)
    ensures r.Some? <==> LockstepEnabled(s, e)
    ensures r.Some? ==> r.value.produced == e.ProducerStep?
  {
    if !LockstepEnabled(s, e) then None
    else match e
      case ProducerStep(id) => Some(LockstepProduce(s, id, getDigit))
      case ConsumerStep(id) => Some(LockstepConsume(s, id))
  }

  /** The state after the lockstep steps of `sched`, or None when one of them could not have run. */
  function RunLockstep(s: State, sched: seq<Event>, getDigit: DigitSource): Option<State>
    decreases |sched|
  {
    if sched == [] then Some(s)
    else
      var t :- RunLockstep(s, sched[..|sched| - 1], getDigit);
      LockstepStep(t, sched[|sched| - 1], getDigit)
  }

  /** The single-threaded run: for each id in turn, the producer and then the consumer with that id. */
  function SingleThreaded(s: State, ids: seq<Size>, getDigit: DigitSource): State
    decreases |ids|
  {
    if ids == [] then s
    else
      var id := ids[|ids| - 1];
      Consume(Produce(SingleThreaded(s, ids[..|ids| - 1], getDigit), id, getDigit), id)
  }

  /** The schedule of the single-threaded run, as a sequence of steps. */
  function Rounds(ids: seq<Size>): (sched: seq<Event>)
    ensures |sched| == 2 * |ids|
    decreases |ids|
  {
    if ids == [] then []
    else
      var id := ids[|ids| - 1];
      Rounds(ids[..|ids| - 1]) + [ProducerStep(id), ConsumerStep(id)]
  }

  // ---------------------------------------------------------------------------
  // Reference definitions, stated on the schedule alone, without the state.

  /** The ids of the producer steps of `sched`, in order. */
  function ProducerIds(sched: seq<Event>): (ids: seq<Size>)
    ensures |ids| <= |sched|
    decreases |sched|
  {
    if sched == [] then []
    else
      var e := sched[|sched| - 1];
      ProducerIds(sched[..|sched| - 1]) + (if e.ProducerStep? then [e.id] else [])
  }

  /** The ids of the consumer steps of `sched`, in order. */
  function ConsumerIds(sched: seq<Event>): (ids: seq<Size>)
    ensures |ids| <= |sched|
    decreases |sched|
  {
    if sched == [] then []
    else
      var e := sched[|sched| - 1];
      ConsumerIds(sched[..|sched| - 1]) + (if e.ConsumerStep? then [e.id] else [])
  }

  /**
   * The record a consumer with id `cid` reads after the producers `pids` have
   * run: the default record before any producer, otherwise the digit and id
   * the last of them wrote (producer number k reads digit index FIRST_DIGIT + k).
   */
  function Observed(pids: seq<Size>, cid: Size, getDigit: DigitSource): PieceOfPi
  {
    if pids == [] then DEFAULT_PIECE.(consumerId := cid)
    else PieceOfPi(pids[|pids| - 1], cid, getDigit(Wrap(FIRST_DIGIT + |pids| - 1)))
  }

  /** The records the consumers of `sched` log: each reads what the producers before it left. */
  function ScheduleRecords(sched: seq<Event>, getDigit: DigitSource): (rs: seq<PieceOfPi>)
    decreases |sched|
  {
    if sched == [] then []
    else
      var pre := sched[..|sched| - 1];
      var e := sched[|sched| - 1];
      ScheduleRecords(pre, getDigit)
        + (if e.ConsumerStep? then [Observed(ProducerIds(pre), e.id, getDigit)] else [])
  }

  /** The records of a correct handoff: record k carries digit FIRST_DIGIT + k, producer k and consumer k. */
  function Handoffs(pids: seq<Size>, cids: seq<Size>, getDigit: DigitSource): (rs: seq<PieceOfPi>)
    requires |cids| <= |pids|
    ensures |rs| == |cids|
    decreases |cids|
  {
    if cids == [] then []
    else
      var k := |cids| - 1;
      Handoffs(pids, cids[..k], getDigit) + [PieceOfPi(pids[k], cids[k], getDigit(Wrap(FIRST_DIGIT + k)))]
  }

  /** Record k of the correct handoffs, on its own. */
  lemma {:induction false} HandoffsAt(pids: seq<Size>, cids: seq<Size>, getDigit: DigitSource, k: nat)
    requires |cids| <= |pids| && k < |cids|
    ensures Handoffs(pids, cids, getDigit)[k] == PieceOfPi(pids[k], cids[k], getDigit(Wrap(FIRST_DIGIT + k)))
    decreases |cids|
  {
    if k < |cids| - 1 {
      HandoffsAt(pids, cids[..|cids| - 1], getDigit, k);
    }
  }

  /** Record k of the correct handoffs carries the digit for index FIRST_DIGIT + k: none is skipped or repeated. */
  lemma HandoffsDigits(pids: seq<Size>, cids: seq<Size>, getDigit: DigitSource)
    requires |cids| <= |pids|
    ensures forall k :: 0 <= k < |cids| ==> Handoffs(pids, cids, getDigit)[k].digit == getDigit(Wrap(FIRST_DIGIT + k))
  {
    forall k | 0 <= k < |cids| ensures Handoffs(pids, cids, getDigit)[k].digit == getDigit(Wrap(FIRST_DIGIT + k)) {
      HandoffsAt(pids, cids, getDigit, k);
    }
  }

  /** Producers that no consumer has read from yet do not change the correct handoffs. */
  lemma {:induction false} HandoffsIgnoreUnread(pids: seq<Size>, more: seq<Size>, cids: seq<Size>, getDigit: DigitSource)
    requires |cids| <= |pids| && pids <= more
    ensures Handoffs(more, cids, getDigit) == Handoffs(pids, cids, getDigit)
    decreases |cids|
  {
    if cids != [] {
      HandoffsIgnoreUnread(pids, more, cids[..|cids| - 1], getDigit);
      assert more[|cids| - 1] == pids[|cids| - 1];
    }
  }

  /** Producer and consumer steps take turns, starting with a producer. */
  predicate Alternates(sched: seq<Event>) {
    forall i :: 0 <= i < |sched| ==> (sched[i].ProducerStep? <==> i % 2 == 0)
  }

  /**
   * The same alternation stated one step at a time: each step is a producer's
   * iff an even number of steps came before it.
   */
  predicate TurnByTurn(sched: seq<Event>)
    decreases |sched|
  {
    sched == []
    || (TurnByTurn(sched[..|sched| - 1]) && (sched[|sched| - 1].ProducerStep? <==> (|sched| - 1) % 2 == 0))
  }

  /**
   * A record whose digit and producer id were written together by one producer
   * step, or the default record that no producer has written yet.
   */
  predicate WrittenTogether(r: PieceOfPi, pids: seq<Size>, getDigit: DigitSource) {
    (r.producerId == DEFAULT_PIECE.producerId && r.digit == DEFAULT_PIECE.digit)
    || exists k :: 0 <= k < |pids| && r.producerId == pids[k] && r.digit == getDigit(Wrap(FIRST_DIGIT + k))
  }
}
