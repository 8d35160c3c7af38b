# Producing and consuming pi through one shared slot

This project models, in Dafny, the working implementation of the
producer/consumer demonstration in `Application/include/workingImplementation.h`.
Producers compute a digit of pi and store it in the global `PieceOfPi buffer`
together with their id, then advance the global `size_t iteration`. Consumers
stamp `buffer` with their id and append a line
`Consumer has recieved the buffer: { digit: d; producerId: p; consumerId: c }`
to the global `std::string toPrint`. The file defines the step functions of
three strategies but calls none of them:

- `SingleThreaded_Producer` and `SingleThreaded_Consumer`, with no
  synchronisation at all;
- `MutexOnly_Producer` and `MutexOnly_Consumer`, where each body runs under one
  `std::mutex`, in whatever order the threads take the lock;
- `CV_Producer` and `CV_Consumer` (lockstep), where each body also waits on a
  condition variable with a predicate on the global `bool produced`:
  `!produced` for a producer and `produced` for a consumer. When it is done,
  the producer sets `produced` and the consumer clears it.

No file of the repository calls these functions. The call sequence the
single-threaded pair is written for, producer `i` and then consumer `i` for
each round, is this model's own definition (`Handoff.SingleThreaded`, with
its schedule `Handoff.Rounds`). It serves as the reference the other two
strategies are compared with.

The model treats every body as one atomic step. A thread schedule is the
sequence of steps that ran.

- `SizeT`: `size_t` as a 64-bit unsigned integer. `iteration++` wraps
  explicitly.
- `Decimal`: the decimal rendering that `std::to_string` gives a `size_t`, and
  a reader for it.
- `Pieces`: `PieceOfPi`, `PieceOfPi::ToString`, the consumer's log line and
  `Render`, which renders a whole log. A parser, `ParseLog`, reads a log back
  into records. The round-trip lemmas prove that the text of `toPrint`
  determines the records consumed, so every property below is a property of
  the printed log.
- `Handoff`: the four globals as one `State`, with these step functions:
  - `Produce` and `Consume`, the bodies shared by the single-threaded and
    mutex-only variants;
  - `LockstepProduce` and `LockstepConsume`, the guarded bodies.

  It also defines three ways of running steps: `SingleThreaded`, the
  reference rounds described above; `RunMutexOnly`, which runs any schedule; and `RunLockstep`, which returns
  `None` as soon as a step's predicate is false, that is, when that thread
  would keep waiting. Reference definitions stated on the schedule alone
  include `Handoffs`, the records of a correct handoff.
- `Schedules`: what each variant guarantees.
  - The single-threaded run logs the correct handoffs.
  - Mutex-only schedules never log a torn record. They can log stale,
    repeated or skipped digits; three concrete schedules show each of these,
    and lockstep refuses all three.
  - Lockstep admits exactly the alternating schedules. Under it the log is
    always the correct handoffs, with the same digits as the single-threaded
    run.
- `WorkingImplementation`: the globals as fields of the class `SharedSlot`,
  and the producer and consumer bodies as methods that update them in place.
  Each method is proved to match its step function. Each consumer is proved
  to keep the log equal to the rendering of the records consumed so far.

`GetNthPiDigit` and the `std::to_string(...)[0]` around it are a parameter of
type `DigitSource = nat -> char`, because the code that computes digits is not
part of this model.

## Model

| member | source | states |
|---|---|---|
| SizeT.Increment | Application/include/workingImplementation.h:52 | `iteration++` on a `size_t` is one more, wrapped modulo 2^64 (0 after the largest value) |
| SizeT.WrapIsModulo | Application/include/workingImplementation.h:52 | the wrapped count is the count modulo 2^64 |
| SizeT.WrapSucc | Application/include/workingImplementation.h:52 | incrementing a wrapped count equals wrapping the next count, so n increments from FIRST_DIGIT give `Wrap(FIRST_DIGIT + n)` |
| Decimal.Dec | Application/include/workingImplementation.h:26-27 | `std::to_string` of an id is a non-empty string of decimal digits, with a leading '0' exactly for 0 and a single digit exactly below 10 |
| Decimal.DecRoundTrip | Application/include/workingImplementation.h:26-27 | the digits of `Dec(n)` denote `n` |
| Decimal.ParseDecOf | Application/include/workingImplementation.h:26-27 | reading a decimal rendering followed by a non-digit gives back the number and stops right after it |
| Pieces.ToString | Application/include/workingImplementation.h:22-30 | the body concatenates exactly what lines 24-28 append: "{ digit: ", the digit, "; producerId: " and the decimal id, "; consumerId: " and the decimal id, " }"; `RecordRoundTrip` and `ToStringInjective` fix what the rendering means |
| Pieces.Line | Application/include/workingImplementation.h:60-62 | the body concatenates "Consumer has recieved the buffer: ", `ToString` and "\n", as lines 60-62 (and 108, 148 in one expression) append; `LineRoundTrip` reads it back as its record |
| Pieces.RecordRoundTrip | Application/include/workingImplementation.h:22-30 | the `ToString` rendering of a record reads back as that record (digit, producerId, consumerId), and reading stops right after the closing " }" |
| Pieces.ToStringInjective | Application/include/workingImplementation.h:22-30 | two records with the same `ToString` rendering are equal |
| Pieces.LineRoundTrip | Application/include/workingImplementation.h:60-62 | one consumer line ("Consumer has recieved the buffer: " + ToString + "\n") reads back as its record |
| Pieces.LogRoundTrip | Application/include/workingImplementation.h:43 | a log made of consumer lines reads back as exactly the records rendered into it, in order |
| Pieces.RenderSnoc | Application/include/workingImplementation.h:108 | consuming one more record appends one line to the log and leaves what was already there unchanged |
| Handoff.Produce | Application/include/workingImplementation.h:46-53 | the producer stores the digit for the old `iteration` and its own id, increments `iteration` with wrap-around, and leaves `consumerId`, `toPrint` and `produced` unchanged |
| Handoff.Consume | Application/include/workingImplementation.h:55-63 | the consumer sets `consumerId` to its id, leaves digit and producerId unchanged, and leaves `iteration` and `produced` unchanged |
| Handoff.ConsumeAppendsRecord | Application/include/workingImplementation.h:55-63 | if the log was the rendering of some records, the consumer step makes it the rendering of those records plus the buffer it stamped, and it reads back as such |
| Handoff.ConsumeExtendsLog | Application/include/workingImplementation.h:60-62 | the old log is a prefix of the new one, and what the consumer appended reads back as exactly one line for the stamped buffer |
| Handoff.LockstepProduce | Application/include/workingImplementation.h:120-131 | run only when `!produced`, the guarded producer does what the plain producer does and leaves `produced` true |
| Handoff.LockstepConsume | Application/include/workingImplementation.h:142-151 | run only when `produced`, the guarded consumer does what the plain consumer does and leaves `produced` false |
| Handoff.LockstepStep | Application/include/workingImplementation.h:115-155 | a lockstep step can run iff its wait predicate holds (`!produced` for a producer, `produced` for a consumer), and afterwards `produced` is true iff the step was a producer's |
| Handoff.MutexOnlyStep | Application/include/workingImplementation.h:87-109 | one locked body: the producer's three updates or the consumer's stamp-and-append, whatever the state of the slot; `MutexOnlyState` and `MutexOnlyText` state its effect over a schedule |
| Handoff.RunMutexOnly | Application/include/workingImplementation.h:87-109 | the locked bodies in any order the lock is taken; `MutexOnlyState`, `MutexOnlyText` and `MutexOnlyNoTornRecord` give its result from the schedule alone |
| Handoff.LockstepEnabled | Application/include/workingImplementation.h:120 | the predicates passed to `cv_producer.wait` (`!produced`, line 120) and `cv_consumer.wait` (`produced`, line 142); `LockstepStep` runs a step exactly when it holds |
| Handoff.RunLockstep | Application/include/workingImplementation.h:115-155 | the guarded bodies in schedule order, `None` once a thread would keep waiting; `LockstepRunsIffAlternates` says which schedules complete and `LockstepLog` what they log |
| Handoff.SingleThreaded | Application/include/workingImplementation.h:46-63 | this model's reference rounds, producer i then consumer i; `RoundsRunMutexOnly` and `SingleThreadedReference` state the log, `iteration` and buffer it leaves |
| Handoff.HandoffsAt | Application/include/workingImplementation.h:46-63 | record k of a correct handoff has producer k's id, consumer k's id and the digit for index FIRST_DIGIT + k |
| Handoff.HandoffsIgnoreUnread | Application/include/workingImplementation.h:46-63 | producers that no consumer has read from yet do not change the correct handoffs |
| Handoff.HandoffsDigits | Application/include/workingImplementation.h:46-63 | record k of the correct handoffs carries the digit for index FIRST_DIGIT + k, so no digit is skipped or repeated |
| Schedules.ScheduleRecordsCount | Application/include/workingImplementation.h:99-109 | every consumer step of a schedule logs exactly one record |
| Schedules.MutexOnlyState | Application/include/workingImplementation.h:87-109 | after any mutex-only schedule, `iteration` is FIRST_DIGIT plus the number of producer steps (wrapped), the buffer holds what the last producer wrote with the last consumer's id (or the default record), and `produced` is false |
| Schedules.MutexOnlyText | Application/include/workingImplementation.h:99-109 | after any mutex-only schedule the log renders one record per consumer step: what that consumer found in the buffer |
| Schedules.MutexOnlyAppendOnly | Application/include/workingImplementation.h:108 | under the mutex the log is append-only: the log after any prefix of a schedule is a prefix of the final log |
| Schedules.MutexOnlyNoTornRecord | Application/include/workingImplementation.h:93-94 | under the mutex, record j of the log names consumer j, and its digit and producerId were written together by one producer step (or are both still the defaults) |
| Schedules.MutexOnlyLog | Application/include/workingImplementation.h:87-109 | the mutex-only log reads back as one record per consumer step, none of them torn |
| Schedules.MutexOnlyStaleRead | Application/include/workingImplementation.h:99-109 | a consumer that takes the lock before any producer logs the default record (digit NUL, producerId 0); lockstep refuses this schedule |
| Schedules.MutexOnlyRepeatedRead | Application/include/workingImplementation.h:99-109 | two consumers after one producer log the same digit twice; lockstep refuses this schedule |
| Schedules.MutexOnlyLostDigit | Application/include/workingImplementation.h:87-97 | two producers before one consumer lose the first digit; lockstep refuses this schedule |
| Schedules.TurnByTurnIffAlternates | Application/include/workingImplementation.h:115-155 | the step-by-step and the index-by-index definitions of alternation agree |
| Schedules.LockstepRunsIffTurnByTurn | Application/include/workingImplementation.h:115-155 | a lockstep schedule can run to its end iff each step is a producer's exactly when an even number of steps came before it; `produced` then says whether the length is odd |
| Schedules.LockstepRunsIffAlternates | Application/include/workingImplementation.h:115-155 | the lockstep predicates admit exactly the schedules whose producer and consumer steps alternate, starting with a producer |
| Schedules.LockstepFlagTrace | Application/include/workingImplementation.h:131-151 | under lockstep `produced` is false, true, false, ... after 0, 1, 2, ... steps: it is never set twice in a row |
| Schedules.AlternatesTakeTurns | Application/include/workingImplementation.h:115-155 | on an alternating schedule any two steps of the same kind have a step of the other kind between them |
| Schedules.LockstepTakesTurns | Application/include/workingImplementation.h:120-142 | under lockstep the first step is a producer's, and no two producer steps (or two consumer steps) occur without a step of the other kind between them |
| Schedules.LockstepRefinesMutexOnly | Application/include/workingImplementation.h:115-155 | a lockstep run changes buffer, log and `iteration` exactly as the same steps do under the mutex alone |
| Schedules.TurnByTurnCounts | Application/include/workingImplementation.h:115-155 | a schedule that takes turns has (n+1)/2 producer steps and n/2 consumer steps |
| Schedules.TurnByTurnRecords | Application/include/workingImplementation.h:115-155 | on a schedule that takes turns every consumer logs the record of the producer just before it, so the records logged are exactly the correct handoffs |
| Schedules.LockstepLog | Application/include/workingImplementation.h:124-151 | under any lockstep schedule the log is exactly the lines of the correct handoffs, one per consumer step; `iteration` is FIRST_DIGIT plus the number of producer steps; `produced` says whether one producer is still unconsumed |
| Schedules.LockstepDigits | Application/include/workingImplementation.h:124-148 | under any lockstep schedule the log reads back as one record per consumer step, and record k carries digit FIRST_DIGIT + k: none skipped, none repeated |
| Schedules.RoundsIds | Application/include/workingImplementation.h:46-63 | the single-threaded rounds call producer and consumer with each id in turn |
| Schedules.RoundsTurnByTurn | Application/include/workingImplementation.h:46-63 | the single-threaded rounds take turns |
| Schedules.RoundsRunMutexOnly | Application/include/workingImplementation.h:46-63 | the single-threaded run is its rounds run under the mutex |
| Schedules.MutexOnlyTurnByTurn | Application/include/workingImplementation.h:87-109 | a mutex-only schedule that happens to take turns with matching ids logs the correct handoffs |
| Schedules.MutexOnlyTurnByTurnState | Application/include/workingImplementation.h:87-109 | a mutex-only schedule with the same ids for producers and consumers leaves `iteration` at FIRST_DIGIT plus one per round (wrapped), `produced` false, and the last round's record in the buffer |
| Schedules.SingleThreadedReference | Application/include/workingImplementation.h:46-63 | after N single-threaded rounds the log reads back as N records, record k with digit FIRST_DIGIT + k and round k's id as producer and consumer; `iteration` is FIRST_DIGIT + N (wrapped) and the buffer holds the last round's record |
| Schedules.LockstepMatchesReference | Application/include/workingImplementation.h:115-155 | the single-threaded rounds run under lockstep never block and reach the same state |
| Schedules.LockstepDigitsMatchReference | Application/include/workingImplementation.h:115-155 | any lockstep schedule logs the same digits, in the same order, as the single-threaded run with as many rounds |
| WorkingImplementation.SharedSlot.constructor | Application/include/workingImplementation.h:42-44 | the globals start as a default `PieceOfPi` (ids 0, digit NUL), an empty `toPrint`, `iteration = FIRST_DIGIT` and `produced = false` |
| WorkingImplementation.SharedSlot.SingleThreadedProducer | Application/include/workingImplementation.h:46-53 | updates the fields exactly as `Produce` and keeps the log invariant |
| WorkingImplementation.SharedSlot.SingleThreadedConsumer | Application/include/workingImplementation.h:55-63 | the three appends leave the fields as `Consume` does; the log then reads back as the records consumed so far, the new one last |
| WorkingImplementation.SharedSlot.MutexOnlyProducer | Application/include/workingImplementation.h:87-97 | the locked body updates the fields exactly as `Produce` |
| WorkingImplementation.SharedSlot.MutexOnlyConsumer | Application/include/workingImplementation.h:99-109 | the locked body leaves the fields as `Consume` does; the log reads back as the records consumed so far |
| WorkingImplementation.SharedSlot.LockstepProducer | Application/include/workingImplementation.h:115-135 | callable only when `!produced`; updates the fields as `LockstepProduce` and sets `produced` |
| WorkingImplementation.SharedSlot.LockstepConsumer | Application/include/workingImplementation.h:137-155 | callable only when `produced`; updates the fields as `LockstepConsume`, clears `produced`, and the log reads back as the records consumed so far |

## Left out

- Threads, `std::mutex` locking, `std::condition_variable` waiting and
  `notify_one` (workingImplementation.h:85, 111-112, 118-120, 133, 140-142, 153):
  each locked or guarded body is one atomic step, and a schedule is the order
  in which those steps ran. Wait queues and wakeups are not modelled.
- WorkingImplementation.SharedSlot.LockstepProducer and
  WorkingImplementation.SharedSlot.LockstepConsumer require their wait
  predicate instead of blocking until it holds. At the level of schedules,
  `RunLockstep` returns `None` for a step that would still be waiting.
- `NoMutex_Producer` and `NoMutex_Consumer` (workingImplementation.h:65-83):
  their torn records come from unsynchronised memory access, which a model of
  atomic steps cannot express.
- `MessWithCompiler` (workingImplementation.h:34-40): a random sleep. It only
  changes timing, which the choice of schedule already covers.
- The `EASY_FUNCTION` profiler macros: instrumentation only.
- `GetNthPiDigit` and `std::to_string(...)[0]`: the digit code lives in
  `digitsOfPi.h`, which is not part of this model. The character a producer
  stores for index n is the parameter `getDigit(n)`.
- C++ `char` is one byte, while a Dafny `char` is a Unicode scalar value. The
  digit is stored and rendered as one character either way.
- `LAST_DIGIT` (workingImplementation.h:12) is declared but used nowhere, and
  no driver for the modelled functions exists: schedules of any length stand
  in for the threads that would call them.
- `Application/src/main.cpp`: an unrelated demo loop with its own `Produce`
  and `Consume` over a separate `char buffer` and `int iteration`. It starts no
  thread, never touches `toPrint` and calls none of the modelled functions.
- `Application/include/exercise.h`: a skeleton whose bodies are empty, with
  a copy of `PieceOfPi`.
- A reset of the globals: the source has no such operation. The globals are
  initialised once, as the constructor of `SharedSlot` and `INITIAL_STATE`
  state.
- A condition-variable strategy whose waits have no predicate: both `CV_`
  functions in this file pass a predicate to `wait`, so lost and spurious
  wakeups have no counterpart here.
- SizeT.Increment: `size_t` is fixed at 64 bits, so `iteration++` wraps at
  2^64. A 32-bit build, where it would wrap at 2^32, is not modelled.
