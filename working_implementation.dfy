/**
 * The globals of the working implementation and the producer and consumer
 * bodies that update them in place. Each method is one atomic step and is
 * proved to do what the corresponding step function of `Handoff` does; the
 * ghost `records` keeps the consumed records that `toPrint` renders.
 */
module WorkingImplementation {
  import opened Wrappers
  import opened SizeT
  import opened Pieces
  import opened Handoff

  /** Appending three pieces one after the other appends their concatenation. */
  lemma AppendInPieces(log: string, a: string, b: string, c: string)
    ensures log + a + b + c == log + (a + b + c)
  {
  }

  class SharedSlot {
    /** The record passed from producer to consumer. */
    var buffer: PieceOfPi
    /** The log consumers append to. */
    var toPrint: string
    /** The index of the next digit to produce. */
    var iteration: Size
    /** Whether the buffer holds a digit no lockstep consumer has taken yet. */
    var produced: bool
    /** The digit computation the producers call. */
    const getNthPiDigit: DigitSource
    /** The records consumed so far, oldest first. */
    ghost var records: seq<PieceOfPi>

    /** The four globals as one value. */
    function Snapshot(): State
      reads this
    {
      State(buffer, toPrint, iteration, produced)
    }

    /** The log is exactly the rendering of the records consumed so far. */
    ghost predicate Valid()
      reads this
    {
      toPrint == Render(records)
    }

    /** The globals as the program starts. */
    constructor (getNthPiDigit: DigitSource)
      ensures Valid() && records == []
      ensures Snapshot() == INITIAL_STATE
      ensures this.getNthPiDigit == getNthPiDigit
    {
      buffer := DEFAULT_PIECE;
      toPrint := "";
      iteration := FIRST_DIGIT;
      produced := false;
      this.getNthPiDigit := getNthPiDigit;
      records := [];
    }

    /** `SingleThreaded_Producer`. */
    method SingleThreadedProducer(id: Size)
      requires Valid()
      modifies this
      ensures Valid() && records == old(records)
      ensures Snapshot() == Produce(old(Snapshot()), id, getNthPiDigit)
    {
      buffer := buffer.(digit := getNthPiDigit(iteration));
      buffer := buffer.(producerId := id);
      iteration := Increment(iteration);
    }

    /** `SingleThreaded_Consumer`: the line is appended in three pieces. */
    method SingleThreadedConsumer(id: Size)
      requires Valid()
      modifies this
      ensures Valid() && records == old(records) + [buffer]
      ensures ParseLog(toPrint) == Some(records)
      ensures Snapshot() == Consume(old(Snapshot()), id)
    {
      buffer := buffer.(consumerId := id);
      ghost var log := toPrint;
      toPrint := toPrint + LINE_PREFIX;
      toPrint := toPrint + ToString(buffer);
      toPrint := toPrint + LINE_END;
      assert toPrint == log + Line(buffer) by {
        AppendInPieces(log, LINE_PREFIX, ToString(buffer), LINE_END);
      }
      assert toPrint == Render(records + [buffer]) by {
        RenderSnoc(records, buffer);
      }
      records := records + [buffer];
      assert ParseLog(toPrint) == Some(records) by {
        LogRoundTrip(records);
      }
    }

    /** The body of `MutexOnly_Producer` run under the lock: the same three updates as the single-threaded producer. */
    method MutexOnlyProducer(id: Size)
      requires Valid()
      modifies this
      ensures Valid() && records == old(records)
      ensures Snapshot() == Produce(old(Snapshot()), id, getNthPiDigit)
    {
      SingleThreadedProducer(id);
    }

    /** The body of `MutexOnly_Consumer` run under the lock. */
    method MutexOnlyConsumer(id: Size)
      requires Valid()
      modifies this
      ensures Valid() && records == old(records) + [buffer]
      ensures ParseLog(toPrint) == Some(records)
      ensures Snapshot() == Consume(old(Snapshot()), id)
    {
      buffer := buffer.(consumerId := id);
      toPrint := toPrint + (LINE_PREFIX + ToString(buffer) + LINE_END);
      assert toPrint == Render(records + [buffer]) by {
        RenderSnoc(records, buffer);
      }
      records := records + [buffer];
      assert ParseLog(toPrint) == Some(records) by {
        LogRoundTrip(records);
      }
    }

    /** The body of `CV_Producer` once `cv_producer.wait` has returned with `!produced`. */
    method LockstepProducer(id: Size)
      requires Valid()
      requires !produced
      modifies this
      ensures Valid() && records == old(records)
      ensures produced
      ensures Snapshot() == LockstepProduce(old(Snapshot()), id, getNthPiDigit)
    {
      buffer := buffer.(digit := getNthPiDigit(iteration));
      buffer := buffer.(producerId := id);
      iteration := Increment(iteration);
      produced := true;
    }

    /** The body of `CV_Consumer` once `cv_consumer.wait` has returned with `produced`. */
    method LockstepConsumer(id: Size)
      requires Valid()
      requires produced
      modifies this
      ensures Valid() && records == old(records) + [buffer]
      ensures ParseLog(toPrint) == Some(records)
      ensures !produced
      ensures Snapshot() == LockstepConsume(old(Snapshot()), id)
    {
      buffer := buffer.(consumerId := id);
      toPrint := toPrint + (LINE_PREFIX + ToString(buffer) + LINE_END);
      assert toPrint == Render(records + [buffer]) by {
        RenderSnoc(records, buffer);
      }
      records := records + [buffer];
      assert ParseLog(toPrint) == Some(records) by {
        LogRoundTrip(records);
      }
      produced := false;
    }
  }
}
