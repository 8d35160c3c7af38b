/**
 * What the schedules of the handoff guarantee. Mutex-only steps may run in any
 * order: every record is still one that a single producer wrote (or the default
 * one), but records can be stale, repeated or skipped. Lockstep steps can only
 * alternate, and then the log is exactly the single-threaded reference.
 */
module Schedules {
  import opened Wrappers
  import opened SizeT
  import opened Pieces
  import opened Handoff

  /** The last id of `ids`, or `d` when there is none. */
  function LastOr(ids: seq<Size>, d: Size): Size {
    if ids == [] then d else ids[|ids| - 1]
  }

  /** Every consumer step of a schedule logs exactly one record. */
  lemma {:induction false} ScheduleRecordsCount(sched: seq<Event>, getDigit: DigitSource)
    ensures |ScheduleRecords(sched, getDigit)| == |ConsumerIds(sched)|
    decreases |sched|
  {
    if sched != [] {
      ScheduleRecordsCount(sched[..|sched| - 1], getDigit);
    }
  }

  /**
   * The slot after any mutex-only schedule, in terms of the schedule alone:
   * `iteration` has moved once per producer step, and the buffer holds what
   * the last producer wrote and the last consumer's id.
   */
  lemma {:induction false} MutexOnlyState(sched: seq<Event>, getDigit: DigitSource)
    ensures RunMutexOnly(INITIAL_STATE, sched, getDigit).iteration == Wrap(FIRST_DIGIT + |ProducerIds(sched)|)
    ensures RunMutexOnly(INITIAL_STATE, sched, getDigit).buffer
         == Observed(ProducerIds(sched), LastOr(ConsumerIds(sched), 0), getDigit)
    ensures !RunMutexOnly(INITIAL_STATE, sched, getDigit).produced
    decreases |sched|
  {
    if sched != [] {
      var pre := sched[..|sched| - 1];
      var e := sched[|sched| - 1];
      MutexOnlyState(pre, getDigit);
      var t := RunMutexOnly(INITIAL_STATE, pre, getDigit);
      var pids := ProducerIds(pre);
      assert RunMutexOnly(INITIAL_STATE, sched, getDigit) == MutexOnlyStep(t, e, getDigit);
      match e
      case ProducerStep(id) =>
        assert ProducerIds(sched) == pids + [id];
        assert ConsumerIds(sched) == ConsumerIds(pre);
        WrapSucc(FIRST_DIGIT + |pids|);
      case ConsumerStep(id) =>
        assert ProducerIds(sched) == pids;
        assert ConsumerIds(sched) == ConsumerIds(pre) + [id];
    }
  }

  /** The log after any mutex-only schedule holds one line per consumer step, for the record that consumer read. */
  lemma {:induction false} MutexOnlyText(sched: seq<Event>, getDigit: DigitSource)
    ensures RunMutexOnly(INITIAL_STATE, sched, getDigit).toPrint == Render(ScheduleRecords(sched, getDigit))
    decreases |sched|
  {
    if sched != [] {
      var pre := sched[..|sched| - 1];
      var e := sched[|sched| - 1];
      MutexOnlyText(pre, getDigit);
      var t := RunMutexOnly(INITIAL_STATE, pre, getDigit);
      var rs := ScheduleRecords(pre, getDigit);
      assert RunMutexOnly(INITIAL_STATE, sched, getDigit) == MutexOnlyStep(t, e, getDigit);
      if e.ConsumerStep? {
        var r := Observed(ProducerIds(pre), e.id, getDigit);
        assert t.buffer.(consumerId := e.id) == r by {
          MutexOnlyState(pre, getDigit);
        }
        assert ScheduleRecords(sched, getDigit) == rs + [r];
        RenderSnoc(rs, r);
      } else {
        assert ScheduleRecords(sched, getDigit) == rs;
      }
    }
  }

  /** Under the mutex alone the log is append-only: the log after any prefix of a schedule is a prefix of the final log. */
  lemma {:induction false} MutexOnlyAppendOnly(sched: seq<Event>, i: nat, getDigit: DigitSource)
    requires i <= |sched|
    ensures RunMutexOnly(INITIAL_STATE, sched[..i], getDigit).toPrint <= RunMutexOnly(INITIAL_STATE, sched, getDigit).toPrint
    decreases |sched|
  {
    if i < |sched| {
      var pre := sched[..|sched| - 1];
      var e := sched[|sched| - 1];
      assert pre[..i] == sched[..i];
      MutexOnlyAppendOnly(pre, i, getDigit);
      var t := RunMutexOnly(INITIAL_STATE, pre, getDigit);
      assert RunMutexOnly(INITIAL_STATE, sched, getDigit) == MutexOnlyStep(t, e, getDigit);
      if e.ConsumerStep? {
        ConsumeExtendsLog(t, e.id);
      }
    } else {
      assert sched[..i] == sched;
    }
  }

  lemma {:induction false} ProducerIdsPrefix(sched: seq<Event>, i: nat)
    requires i <= |sched|
    ensures ProducerIds(sched[..i]) <= ProducerIds(sched)
    decreases |sched|
  {
    if i < |sched| {
      var pre := sched[..|sched| - 1];
      assert pre[..i] == sched[..i];
      ProducerIdsPrefix(pre, i);
    } else {
      assert sched[..i] == sched;
    }
  }

  lemma WrittenTogetherExtends(r: PieceOfPi, pids: seq<Size>, more: seq<Size>, getDigit: DigitSource)
    requires WrittenTogether(r, pids, getDigit)
    requires pids <= more
    ensures WrittenTogether(r, more, getDigit)
  {
    if !(r.producerId == DEFAULT_PIECE.producerId && r.digit == DEFAULT_PIECE.digit) {
      var k :| 0 <= k < |pids| && r.producerId == pids[k] && r.digit == getDigit(Wrap(FIRST_DIGIT + k));
      assert more[k] == pids[k];
    }
  }

  /**
   * No torn record under the mutex: record j of the log names consumer j, and
   * its digit and producer id were written together by one producer step (or
   * are still the default ones).
   */
  lemma {:induction false} MutexOnlyNoTornRecord(sched: seq<Event>, getDigit: DigitSource)
    ensures |ScheduleRecords(sched, getDigit)| == |ConsumerIds(sched)|
    ensures forall j :: 0 <= j < |ScheduleRecords(sched, getDigit)| ==>
      ScheduleRecords(sched, getDigit)[j].consumerId == ConsumerIds(sched)[j]
      && WrittenTogether(ScheduleRecords(sched, getDigit)[j], ProducerIds(sched), getDigit)
    decreases |sched|
  {
    ScheduleRecordsCount(sched, getDigit);
    if sched != [] {
      var pre := sched[..|sched| - 1];
      var e := sched[|sched| - 1];
      MutexOnlyNoTornRecord(pre, getDigit);
      ProducerIdsPrefix(sched, |sched| - 1);
      var rs, pids := ScheduleRecords(pre, getDigit), ProducerIds(pre);
      forall j | 0 <= j < |rs|
        ensures WrittenTogether(rs[j], ProducerIds(sched), getDigit)
      {
        WrittenTogetherExtends(rs[j], pids, ProducerIds(sched), getDigit);
      }
      if e.ConsumerStep? {
        var r := Observed(pids, e.id, getDigit);
        if pids != [] {
          assert r.producerId == pids[|pids| - 1];
        }
        WrittenTogetherExtends(r, pids, ProducerIds(sched), getDigit);
      }
    }
  }

  /** The log of a mutex-only run reads back as one record per consumer step, none of them torn. */
  lemma MutexOnlyLog(sched: seq<Event>, getDigit: DigitSource)
    ensures ParseLog(RunMutexOnly(INITIAL_STATE, sched, getDigit).toPrint) == Some(ScheduleRecords(sched, getDigit))
    ensures |ScheduleRecords(sched, getDigit)| == |ConsumerIds(sched)|
    ensures forall r :: r in ScheduleRecords(sched, getDigit) ==> WrittenTogether(r, ProducerIds(sched), getDigit)
  {
    MutexOnlyText(sched, getDigit);
    LogRoundTrip(ScheduleRecords(sched, getDigit));
    MutexOnlyNoTornRecord(sched, getDigit);
  }

  // The mutex orders nothing. Each of the three schedules below is possible
  // under the mutex alone and logs something no correct handoff logs; the
  // lockstep predicates refuse each of them.

  /** A consumer that takes the lock before any producer logs the default record. */
  lemma MutexOnlyStaleRead(sched: seq<Event>, getDigit: DigitSource)
    requires sched == [ConsumerStep(1), ProducerStep(1)]
    ensures ParseLog(RunMutexOnly(INITIAL_STATE, sched, getDigit).toPrint) == Some([PieceOfPi(0, 1, 0 as char)])
    ensures RunLockstep(INITIAL_STATE, sched, getDigit).None?
  {
    var c1 := [ConsumerStep(1)];
    assert sched[..1] == c1 && c1[..0] == [];
    assert ScheduleRecords(sched, getDigit) == [PieceOfPi(0, 1, 0 as char)] by {
      assert ScheduleRecords(c1, getDigit) == [Observed([], 1, getDigit)];
    }
    MutexOnlyLog(sched, getDigit);
    assert RunLockstep(INITIAL_STATE, c1, getDigit) == None by {
      assert RunLockstep(INITIAL_STATE, c1[..0], getDigit) == Some(INITIAL_STATE);
    }
  }

  /** Two consumers after one producer log the same digit twice. */
  lemma MutexOnlyRepeatedRead(sched: seq<Event>, getDigit: DigitSource)
    requires sched == [ProducerStep(1), ConsumerStep(1), ConsumerStep(2)]
    ensures ParseLog(RunMutexOnly(INITIAL_STATE, sched, getDigit).toPrint)
         == Some([PieceOfPi(1, 1, getDigit(FIRST_DIGIT)), PieceOfPi(1, 2, getDigit(FIRST_DIGIT))])
    ensures RunLockstep(INITIAL_STATE, sched, getDigit).None?
  {
    var p1 := [ProducerStep(1)];
    var p1c1 := p1 + [ConsumerStep(1)];
    assert sched[..2] == p1c1 && p1c1[..1] == p1 && p1[..0] == [];
    assert ScheduleRecords(sched, getDigit)
        == [PieceOfPi(1, 1, getDigit(FIRST_DIGIT)), PieceOfPi(1, 2, getDigit(FIRST_DIGIT))] by {
      assert ProducerIds(p1) == [1];
      assert ProducerIds(p1c1) == [1];
      assert ScheduleRecords(p1, getDigit) == [];
      assert ScheduleRecords(p1c1, getDigit) == [Observed([1], 1, getDigit)];
    }
    MutexOnlyLog(sched, getDigit);
    assert RunLockstep(INITIAL_STATE, p1c1, getDigit).Some? && !RunLockstep(INITIAL_STATE, p1c1, getDigit).value.produced by {
      assert RunLockstep(INITIAL_STATE, p1[..0], getDigit) == Some(INITIAL_STATE);
      assert RunLockstep(INITIAL_STATE, p1, getDigit).value.produced;
    }
  }

  /** Two producers before one consumer lose a digit: only the second one is logged. */
  lemma MutexOnlyLostDigit(sched: seq<Event>, getDigit: DigitSource)
    requires sched == [ProducerStep(1), ProducerStep(2), ConsumerStep(1)]
    ensures ParseLog(RunMutexOnly(INITIAL_STATE, sched, getDigit).toPrint)
         == Some([PieceOfPi(2, 1, getDigit(FIRST_DIGIT + 1))])
    ensures RunLockstep(INITIAL_STATE, sched, getDigit).None?
  {
    var p1 := [ProducerStep(1)];
    var p1p2 := p1 + [ProducerStep(2)];
    assert sched[..2] == p1p2 && p1p2[..1] == p1 && p1[..0] == [];
    assert ScheduleRecords(sched, getDigit) == [PieceOfPi(2, 1, getDigit(FIRST_DIGIT + 1))] by {
      assert ProducerIds(p1) == [1];
      assert ProducerIds(p1p2) == [1, 2];
      assert ScheduleRecords(p1, getDigit) == [];
      assert ScheduleRecords(p1p2, getDigit) == [];
    }
    MutexOnlyLog(sched, getDigit);
    assert RunLockstep(INITIAL_STATE, p1p2, getDigit).None? by {
      assert RunLockstep(INITIAL_STATE, p1[..0], getDigit) == Some(INITIAL_STATE);
      assert RunLockstep(INITIAL_STATE, p1, getDigit).value.produced;
    }
  }

  // ---------------------------------------------------------------------------
  // Lockstep schedules.

  lemma AlternatesPrefix(sched: seq<Event>, i: nat)
    requires Alternates(sched) && i <= |sched|
    ensures Alternates(sched[..i])
  {
    assert forall j :: 0 <= j < i ==> sched[..i][j] == sched[j];
  }

  /** The step-by-step alternation is the alternation. */
  lemma {:induction false} TurnByTurnIffAlternates(sched: seq<Event>)
    ensures TurnByTurn(sched) <==> Alternates(sched)
    decreases |sched|
  {
    if sched != [] {
      var pre := sched[..|sched| - 1];
      TurnByTurnIffAlternates(pre);
      if Alternates(sched) {
        AlternatesPrefix(sched, |sched| - 1);
      }
      if Alternates(pre) && (sched[|sched| - 1].ProducerStep? <==> |pre| % 2 == 0) {
        forall i | 0 <= i < |sched| ensures sched[i].ProducerStep? <==> i % 2 == 0 {
          if i < |pre| { assert sched[i] == pre[i]; }
        }
      }
    }
  }

  /** A lockstep run reaches its end iff its steps take turns; `produced` then says whether the last step was a producer's. */
  lemma {:induction false} LockstepRunsIffTurnByTurn(sched: seq<Event>, getDigit: DigitSource)
    ensures RunLockstep(INITIAL_STATE, sched, getDigit).Some? <==> TurnByTurn(sched)
    ensures RunLockstep(INITIAL_STATE, sched, getDigit).Some? ==>
      RunLockstep(INITIAL_STATE, sched, getDigit).value.produced == (|sched| % 2 == 1)
    decreases |sched|
  {
    if sched != [] {
      LockstepRunsIffTurnByTurn(sched[..|sched| - 1], getDigit);
    }
  }

  /**
   * The lockstep predicates admit exactly the alternating schedules: a
   * schedule can run to the end iff producer and consumer steps take turns,
   * starting with a producer, and `produced` is then true iff the last step
   * was a producer's.
   */
  lemma LockstepRunsIffAlternates(sched: seq<Event>, getDigit: DigitSource)
    ensures RunLockstep(INITIAL_STATE, sched, getDigit).Some? <==> Alternates(sched)
    ensures RunLockstep(INITIAL_STATE, sched, getDigit).Some? ==>
      RunLockstep(INITIAL_STATE, sched, getDigit).value.produced == (|sched| % 2 == 1)
  {
    LockstepRunsIffTurnByTurn(sched, getDigit);
    TurnByTurnIffAlternates(sched);
  }

  /**
   * The trace of `produced` under lockstep: after the first i steps it is
   * false for even i and true for odd i, so it is never set twice in a row.
   */
  lemma LockstepFlagTrace(sched: seq<Event>, getDigit: DigitSource)
    requires RunLockstep(INITIAL_STATE, sched, getDigit).Some?
    ensures forall i :: 0 <= i <= |sched| ==>
      RunLockstep(INITIAL_STATE, sched[..i], getDigit).Some?
      && RunLockstep(INITIAL_STATE, sched[..i], getDigit).value.produced == (i % 2 == 1)
  {
    LockstepRunsIffAlternates(sched, getDigit);
    forall i | 0 <= i <= |sched|
      ensures RunLockstep(INITIAL_STATE, sched[..i], getDigit).Some?
      ensures RunLockstep(INITIAL_STATE, sched[..i], getDigit).value.produced == (i % 2 == 1)
    {
      AlternatesPrefix(sched, i);
      LockstepRunsIffAlternates(sched[..i], getDigit);
    }
  }

  /** On an alternating schedule, two steps of the same kind always have a step of the other kind between them. */
  lemma AlternatesTakeTurns(sched: seq<Event>)
    requires Alternates(sched)
    ensures forall i, j :: 0 <= i < j < |sched| && sched[i].ProducerStep? == sched[j].ProducerStep? ==>
      exists k :: i < k < j && sched[k].ProducerStep? != sched[i].ProducerStep?
  {
    forall i, j | 0 <= i < j < |sched| && sched[i].ProducerStep? == sched[j].ProducerStep?
      ensures exists k :: i < k < j && sched[k].ProducerStep? != sched[i].ProducerStep?
    {
      assert (i % 2 == 0) == (j % 2 == 0);
      assert i + 1 < j;
      assert sched[i + 1].ProducerStep? != sched[i].ProducerStep?;
    }
  }

  /**
   * Under lockstep, no two producer steps occur without a consumer step
   * between them, and no two consumer steps without a producer step between
   * them; the first step is a producer's.
   */
  lemma LockstepTakesTurns(sched: seq<Event>, getDigit: DigitSource)
    requires RunLockstep(INITIAL_STATE, sched, getDigit).Some?
    ensures |sched| > 0 ==> sched[0].ProducerStep?
    ensures forall i, j :: 0 <= i < j < |sched| && sched[i].ProducerStep? == sched[j].ProducerStep? ==>
      exists k :: i < k < j && sched[k].ProducerStep? != sched[i].ProducerStep?
  {
    LockstepRunsIffAlternates(sched, getDigit);
    AlternatesTakeTurns(sched);
  }

  /** A lockstep run does what the same steps do under the mutex alone, and also keeps `produced`. */
  lemma {:induction false} LockstepRefinesMutexOnly(sched: seq<Event>, getDigit: DigitSource)
    requires RunLockstep(INITIAL_STATE, sched, getDigit).Some?
    ensures RunLockstep(INITIAL_STATE, sched, getDigit).value
         == RunMutexOnly(INITIAL_STATE, sched, getDigit).(produced := |sched| % 2 == 1)
    decreases |sched|
  {
    LockstepRunsIffTurnByTurn(sched, getDigit);
    if sched != [] {
      var pre := sched[..|sched| - 1];
      LockstepRunsIffTurnByTurn(pre, getDigit);
      LockstepRefinesMutexOnly(pre, getDigit);
    }
  }

  /** A schedule that takes turns has one more producer step than consumer steps iff its length is odd. */
  lemma {:induction false} TurnByTurnCounts(sched: seq<Event>)
    requires TurnByTurn(sched)
    ensures |ProducerIds(sched)| == (|sched| + 1) / 2 && |ConsumerIds(sched)| == |sched| / 2
    decreases |sched|
  {
    if sched != [] {
      TurnByTurnCounts(sched[..|sched| - 1]);
    }
  }

  /**
   * On a schedule that takes turns every consumer reads the record of the
   * producer just before it: the log is exactly the correct handoffs.
   */
  lemma {:induction false} TurnByTurnRecords(sched: seq<Event>, getDigit: DigitSource)
    requires TurnByTurn(sched)
    ensures |ConsumerIds(sched)| <= |ProducerIds(sched)|
    ensures ScheduleRecords(sched, getDigit) == Handoffs(ProducerIds(sched), ConsumerIds(sched), getDigit)
    decreases |sched|
  {
    TurnByTurnCounts(sched);
    if sched != [] {
      var pre := sched[..|sched| - 1];
      var e := sched[|sched| - 1];
      TurnByTurnCounts(pre);
      TurnByTurnRecords(pre, getDigit);
      var pids, cids := ProducerIds(pre), ConsumerIds(pre);
      var rs := ScheduleRecords(pre, getDigit);
      if e.ProducerStep? {
        assert ProducerIds(sched) == pids + [e.id] && ConsumerIds(sched) == cids;
        assert ScheduleRecords(sched, getDigit) == rs;
        HandoffsIgnoreUnread(pids, pids + [e.id], cids, getDigit);
      } else {
        var r := Observed(pids, e.id, getDigit);
        assert ProducerIds(sched) == pids && ConsumerIds(sched) == cids + [e.id];
        assert ScheduleRecords(sched, getDigit) == rs + [r];
        assert (cids + [e.id])[..|cids|] == cids && (cids + [e.id])[|cids|] == e.id;
        assert Handoffs(pids, cids + [e.id], getDigit) == Handoffs(pids, cids, getDigit) + [r];
      }
    }
  }

  /**
   * Under any lockstep schedule: the log is exactly the lines of the correct
   * handoffs, one per consumer step; `iteration` has moved once per producer
   * step; and `produced` says whether a producer step is still waiting to be
   * consumed.
   */
  lemma LockstepLog(sched: seq<Event>, getDigit: DigitSource)
    requires RunLockstep(INITIAL_STATE, sched, getDigit).Some?
    ensures |ProducerIds(sched)| == |ConsumerIds(sched)|
              + (if RunLockstep(INITIAL_STATE, sched, getDigit).value.produced then 1 else 0)
    ensures RunLockstep(INITIAL_STATE, sched, getDigit).value.toPrint
         == Render(Handoffs(ProducerIds(sched), ConsumerIds(sched), getDigit))
    ensures RunLockstep(INITIAL_STATE, sched, getDigit).value.iteration == Wrap(FIRST_DIGIT + |ProducerIds(sched)|)
  {
    var t := RunLockstep(INITIAL_STATE, sched, getDigit).value;
    var m := RunMutexOnly(INITIAL_STATE, sched, getDigit);
    var pids, cids := ProducerIds(sched), ConsumerIds(sched);
    var rs := ScheduleRecords(sched, getDigit);
    assert TurnByTurn(sched) && t.produced == (|sched| % 2 == 1) by {
      LockstepRunsIffTurnByTurn(sched, getDigit);
    }
    assert |pids| == |cids| + (if t.produced then 1 else 0) by {
      TurnByTurnCounts(sched);
    }
    assert rs == Handoffs(pids, cids, getDigit) by {
      TurnByTurnRecords(sched, getDigit);
    }
    assert t == m.(produced := |sched| % 2 == 1) by {
      LockstepRefinesMutexOnly(sched, getDigit);
    }
    assert m.iteration == Wrap(FIRST_DIGIT + |pids|) by {
      MutexOnlyState(sched, getDigit);
    }
    assert m.toPrint == Render(rs) by {
      MutexOnlyText(sched, getDigit);
    }
  }

  /**
   * Under any lockstep schedule the log reads back as one record per consumer
   * step, and record k carries digit FIRST_DIGIT + k: no digit is skipped or
   * repeated.
   */
  lemma LockstepDigits(sched: seq<Event>, getDigit: DigitSource)
    requires RunLockstep(INITIAL_STATE, sched, getDigit).Some?
    ensures ParseLog(RunLockstep(INITIAL_STATE, sched, getDigit).value.toPrint).Some?
    ensures |ParseLog(RunLockstep(INITIAL_STATE, sched, getDigit).value.toPrint).value| == |ConsumerIds(sched)|
    ensures forall k :: 0 <= k < |ConsumerIds(sched)| ==>
      ParseLog(RunLockstep(INITIAL_STATE, sched, getDigit).value.toPrint).value[k].digit == getDigit(Wrap(FIRST_DIGIT + k))
  {
    var pids, cids := ProducerIds(sched), ConsumerIds(sched);
    var log := RunLockstep(INITIAL_STATE, sched, getDigit).value.toPrint;
    LockstepLog(sched, getDigit);
    assert ParseLog(log) == Some(Handoffs(pids, cids, getDigit)) by {
      LogRoundTrip(Handoffs(pids, cids, getDigit));
    }
    HandoffsDigits(pids, cids, getDigit);
  }

  // ---------------------------------------------------------------------------
  // The single-threaded reference.

  /** The rounds of the single-threaded run call the producer and the consumer with each id in turn. */
  lemma {:induction false} RoundsIds(ids: seq<Size>)
    ensures ProducerIds(Rounds(ids)) == ids && ConsumerIds(Rounds(ids)) == ids
    decreases |ids|
  {
    if ids != [] {
      var pre, id := ids[..|ids| - 1], ids[|ids| - 1];
      RoundsIds(pre);
      var a := Rounds(pre) + [ProducerStep(id)];
      var sched := Rounds(ids);
      assert sched[..|sched| - 1] == a && a[..|a| - 1] == Rounds(pre);
      assert pre + [id] == ids;
    }
  }

  /** The rounds of the single-threaded run take turns. */
  lemma {:induction false} RoundsTurnByTurn(ids: seq<Size>)
    ensures TurnByTurn(Rounds(ids))
    decreases |ids|
  {
    if ids != [] {
      var pre, id := ids[..|ids| - 1], ids[|ids| - 1];
      RoundsTurnByTurn(pre);
      var a := Rounds(pre) + [ProducerStep(id)];
      var sched := Rounds(ids);
      assert sched[..|sched| - 1] == a && a[..|a| - 1] == Rounds(pre);
    }
  }

  /** The single-threaded run is its rounds run under the mutex. */
  lemma {:induction false} RoundsRunMutexOnly(ids: seq<Size>, getDigit: DigitSource)
    ensures RunMutexOnly(INITIAL_STATE, Rounds(ids), getDigit) == SingleThreaded(INITIAL_STATE, ids, getDigit)
    decreases |ids|
  {
    if ids != [] {
      var pre, id := ids[..|ids| - 1], ids[|ids| - 1];
      RoundsRunMutexOnly(pre, getDigit);
      var a := Rounds(pre) + [ProducerStep(id)];
      var sched := Rounds(ids);
      assert sched[..|sched| - 1] == a && a[..|a| - 1] == Rounds(pre);
      assert sched[|sched| - 1] == ConsumerStep(id) && a[|a| - 1] == ProducerStep(id);
    }
  }

  /**
   * A mutex-only schedule that happens to take turns, calling the producer and
   * the consumer with the same ids in turn, logs the correct handoffs.
   */
  lemma MutexOnlyTurnByTurn(sched: seq<Event>, ids: seq<Size>, getDigit: DigitSource)
    requires TurnByTurn(sched) && ProducerIds(sched) == ids && ConsumerIds(sched) == ids
    ensures RunMutexOnly(INITIAL_STATE, sched, getDigit).toPrint == Render(Handoffs(ids, ids, getDigit))
  {
    var rs := ScheduleRecords(sched, getDigit);
    assert RunMutexOnly(INITIAL_STATE, sched, getDigit).toPrint == Render(rs) by {
      MutexOnlyText(sched, getDigit);
    }
    assert rs == Handoffs(ProducerIds(sched), ConsumerIds(sched), getDigit) by {
      TurnByTurnRecords(sched, getDigit);
    }
  }

  /** The same schedule leaves `iteration` moved once per round, `produced` false and the last round's record in the buffer. */
  lemma MutexOnlyTurnByTurnState(sched: seq<Event>, ids: seq<Size>, getDigit: DigitSource)
    requires ProducerIds(sched) == ids && ConsumerIds(sched) == ids
    ensures RunMutexOnly(INITIAL_STATE, sched, getDigit).iteration == Wrap(FIRST_DIGIT + |ids|)
    ensures !RunMutexOnly(INITIAL_STATE, sched, getDigit).produced
    ensures RunMutexOnly(INITIAL_STATE, sched, getDigit).buffer == Observed(ids, LastOr(ids, 0), getDigit)
  {
    assert |ProducerIds(sched)| == |ids| && Observed(ProducerIds(sched), LastOr(ConsumerIds(sched), 0), getDigit) == Observed(ids, LastOr(ids, 0), getDigit);
    MutexOnlyState(sched, getDigit);
  }

  /**
   * Baseline correctness: after the single-threaded rounds for `ids`, the log
   * reads back as one record per round, record k carrying digit
   * FIRST_DIGIT + k and the id of round k as both producer and consumer;
   * `iteration` has moved once per round.
   */
  lemma SingleThreadedReference(ids: seq<Size>, getDigit: DigitSource)
    ensures ParseLog(SingleThreaded(INITIAL_STATE, ids, getDigit).toPrint) == Some(Handoffs(ids, ids, getDigit))
    ensures SingleThreaded(INITIAL_STATE, ids, getDigit).iteration == Wrap(FIRST_DIGIT + |ids|)
    ensures !SingleThreaded(INITIAL_STATE, ids, getDigit).produced
    ensures ids != [] ==>
      SingleThreaded(INITIAL_STATE, ids, getDigit).buffer
      == PieceOfPi(ids[|ids| - 1], ids[|ids| - 1], getDigit(Wrap(FIRST_DIGIT + |ids| - 1)))
  {
    RoundsIds(ids);
    RoundsTurnByTurn(ids);
    RoundsRunMutexOnly(ids, getDigit);
    MutexOnlyTurnByTurn(Rounds(ids), ids, getDigit);
    MutexOnlyTurnByTurnState(Rounds(ids), ids, getDigit);
    LogRoundTrip(Handoffs(ids, ids, getDigit));
  }

  /** Running the rounds of the single-threaded reference under lockstep never blocks and gives the same state. */
  lemma LockstepMatchesReference(ids: seq<Size>, getDigit: DigitSource)
    ensures RunLockstep(INITIAL_STATE, Rounds(ids), getDigit) == Some(SingleThreaded(INITIAL_STATE, ids, getDigit))
  {
    var sched := Rounds(ids);
    RoundsTurnByTurn(ids);
    RoundsRunMutexOnly(ids, getDigit);
    LockstepRunsIffTurnByTurn(sched, getDigit);
    LockstepRefinesMutexOnly(sched, getDigit);
    MutexOnlyState(sched, getDigit);
  }

  /**
   * Whatever the lockstep schedule, its log carries the same digits, in the
   * same order, as the single-threaded reference with as many rounds.
   */
  lemma LockstepDigitsMatchReference(sched: seq<Event>, ids: seq<Size>, getDigit: DigitSource)
    requires RunLockstep(INITIAL_STATE, sched, getDigit).Some?
    requires |ids| == |ConsumerIds(sched)|
    ensures ParseLog(RunLockstep(INITIAL_STATE, sched, getDigit).value.toPrint).Some?
    ensures ParseLog(SingleThreaded(INITIAL_STATE, ids, getDigit).toPrint).Some?
    ensures |ParseLog(RunLockstep(INITIAL_STATE, sched, getDigit).value.toPrint).value|
         == |ParseLog(SingleThreaded(INITIAL_STATE, ids, getDigit).toPrint).value| == |ids|
    ensures forall k :: 0 <= k < |ids| ==>
      ParseLog(RunLockstep(INITIAL_STATE, sched, getDigit).value.toPrint).value[k].digit
      == ParseLog(SingleThreaded(INITIAL_STATE, ids, getDigit).toPrint).value[k].digit
  {
    var a := ParseLog(RunLockstep(INITIAL_STATE, sched, getDigit).value.toPrint);
    var b := ParseLog(SingleThreaded(INITIAL_STATE, ids, getDigit).toPrint);
    assert a.Some? && |a.value| == |ids|
      && forall k :: 0 <= k < |ids| ==> a.value[k].digit == getDigit(Wrap(FIRST_DIGIT + k)) by {
      LockstepDigits(sched, getDigit);
    }
    assert b.Some? && |b.value| == |ids|
      && forall k :: 0 <= k < |ids| ==> b.value[k].digit == getDigit(Wrap(FIRST_DIGIT + k)) by {
      SingleThreadedReference(ids, getDigit);
      HandoffsDigits(ids, ids, getDigit);
    }
  }
}
