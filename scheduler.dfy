/** The lookahead scheduler: 16th steps are turned into seconds (with swing on the
    off-16ths), and every tick dispatches, up to a quarter of a second ahead of the
    clock, the drum steps and the note events that fall due, looping the event list
    for ever. The clock is a parameter; the synthesiser and the note listener are
    a trace of the calls made to them. */
module Scheduler {
  import opened Notes
  import opened Sorting
  import Sequence

  /** How far ahead of the clock a tick dispatches, in seconds. */
  const Lookahead: real := 0.25
  const StepsPerBar: int := 16

  /** The length of a 16th note at `bpm` beats per minute: a quarter of a beat. */
  function StepDurationSeconds(bpm: real): (d: real)
    requires bpm > 0.0
    ensures d > 0.0
  {
    60.0 / bpm / 4.0
  }

  lemma StepDurationExample()
    ensures StepDurationSeconds(120.0) == 0.125
  {
  }

  /** `n` whole step lengths. */
  function Scaled(n: int, base: real): real {
    n as real * base
  }

  /** Whether `step` is an off-16th, the second or fourth of its beat. Both
      remainders are the runtime's sign-keeping ones. */
  predicate Swung(step: int) {
    var beatPosition := TruncRem(step, 4);
    TruncRem(beatPosition, 2) == 1
  }

  function SwingOffset(step: int, base: real, swing: real): real {
    if Swung(step) then base * swing else 0.0
  }

  /** The time of 16th `step` from the start of the loop: whole steps, plus `swing`
      of a step on the off-16ths. */
  function StepToTime(step: int, bpm: real, swing: real): (t: real)
    requires bpm > 0.0
    ensures step >= 0 && step % 2 == 1 ==> t == (step as real + swing) * 15.0 / bpm
    ensures !(step >= 0 && step % 2 == 1) ==> t == step as real * 15.0 / bpm
  {
    SwungIsOdd(step);
    var base := StepDurationSeconds(bpm);
    Scaled(step, base) + SwingOffset(step, base, swing)
  }

  /** The off-16ths are the odd steps from 0 on: a negative step's remainders are
      never 1. */
  lemma SwungIsOdd(step: int)
    ensures Swung(step) <==> step >= 0 && step % 2 == 1
  {
    if step >= 0 {
      ParityOfQuarter(step);
    } else {
      var r := (-step) % 4;
      assert 0 <= r < 4;
      assert TruncRem(-r, 2) != 1;
    }
  }

  /** The parity of a natural number is the parity of its remainder by 4. */
  lemma ParityOfQuarter(n: int)
    requires n >= 0
    ensures TruncRem(n, 4) % 2 == n % 2
  {
    var q := n / 4;
    var r := n % 4;
    assert n == 2 * (2 * q) + r;
  }

  /** The timing examples: step 0 is at 0; without swing step 1 is one step length
      in; every fourth step (a beat) is unswung; the off-16th and the step after it
      are a step length less the swing apart; swing delays step 1. */
  lemma StepTimeExamples(bpm: real, swing: real, k: nat)
    requires bpm > 0.0
    ensures StepToTime(0, bpm, swing) == 0.0
    ensures StepToTime(1, bpm, 0.0) == StepDurationSeconds(bpm)
    ensures StepToTime(4 * k, bpm, swing) == (4 * k) as real * StepDurationSeconds(bpm)
    ensures StepToTime(4 * k + 2, bpm, swing) - StepToTime(4 * k + 1, bpm, swing)
      == StepDurationSeconds(bpm) * (1.0 - swing)
    ensures swing > 0.0 ==> StepToTime(1, bpm, swing) > StepDurationSeconds(bpm)
  {
    SwungIsOdd(0);
    SwungIsOdd(1);
    SwungIsOdd(4 * k);
    SwungIsOdd(4 * k + 1);
    SwungIsOdd(4 * k + 2);
  }

  /** With swing at least 0 a step is never early: it is at least `step` step lengths in. */
  lemma StepTimeAtLeast(step: int, bpm: real, swing: real)
    requires bpm > 0.0 && swing >= 0.0
    ensures StepToTime(step, bpm, swing) >= step as real * StepDurationSeconds(bpm)
  {
    OffsetNonnegative(step, StepDurationSeconds(bpm), swing);
  }

  /** With swing between 0 and 1, later steps are never earlier. */
  lemma StepTimeMonotone(a: int, b: int, bpm: real, swing: real)
    requires bpm > 0.0 && 0.0 <= swing <= 1.0 && a <= b
    ensures StepToTime(a, bpm, swing) <= StepToTime(b, bpm, swing)
  {
    if a < b {
      var base := StepDurationSeconds(bpm);
      StepApart(a, b, base);
      OffsetAtMostStep(a, base, swing);
      OffsetNonnegative(b, base, swing);
    }
  }

  lemma OffsetAtMostStep(step: int, base: real, swing: real)
    requires base > 0.0 && 0.0 <= swing <= 1.0
    ensures SwingOffset(step, base, swing) <= base
  {
  }

  lemma OffsetNonnegative(step: int, base: real, swing: real)
    requires base > 0.0 && swing >= 0.0
    ensures SwingOffset(step, base, swing) >= 0.0
  {
  }

  lemma StepApart(a: int, b: int, base: real)
    requires base > 0.0 && a < b
    ensures Scaled(a, base) + base <= Scaled(b, base)
  {
    assert Scaled(b, base) - Scaled(a, base) == (b - a) as real * base;
    AtLeastOnce((b - a) as real, base);
  }

  lemma AtLeastOnce(d: real, base: real)
    requires d >= 1.0 && base > 0.0
    ensures d * base >= base
  {
  }

  /** A step due by `horizon` lies within the number of whole step lengths between the
      start and the horizon. */
  lemma DueStepBound(step: int, start: real, horizon: real, bpm: real, swing: real)
    requires bpm > 0.0 && swing >= 0.0
    requires start + StepToTime(step, bpm, swing) <= horizon
    ensures step <= ((horizon - start) / StepDurationSeconds(bpm)).Floor
  {
    var base := StepDurationSeconds(bpm);
    StepTimeAtLeast(step, bpm, swing);
    assert step as real * base <= horizon - start;
    assert step as real <= (horizon - start) / base;
  }

  /** What the scheduler does to the synthesiser and the note listener. */
  datatype Call =
    | PlayDrums(step: int, time: real, settings: Settings)
    | Play(event: NoteEvent, time: real, settings: Settings)
    | StopAll
    | Notified(playing: Option<NoteEvent>)

  /** A listener, when one is set, hears `e`. */
  function Notification(listening: bool, e: Option<NoteEvent>): seq<Call> {
    if listening then [Notified(e)] else []
  }

  /** The drum calls for absolute steps `from` .. `to - 1`: each passes its step within
      the loop and its time. */
  function DrumCalls(start: real, settings: Settings, loopSteps: int, first: int, last: int): (r: seq<Call>)
    requires settings.bpm > 0.0 && loopSteps >= 1
    ensures |r| == (if first <= last then last - first else 0)
    decreases last - first
  {
    if last <= first then
      []
    else
      DrumCalls(start, settings, loopSteps, first, last - 1)
      + [PlayDrums((last - 1) % loopSteps, start + StepToTime(last - 1, settings.bpm, settings.swing), settings)]
  }

  /** Where the event cursor is: an index into the list and a count of finished loops. */
  datatype Cursor = Cursor(index: nat, loop: nat)

  /** The cursor after one event: the next index, or index 0 of the next loop. */
  function Next(c: Cursor, n: nat): (r: Cursor)
    ensures c.index < n ==> r.index < n
  {
    if c.index + 1 >= n then Cursor(0, c.loop + 1) else Cursor(c.index + 1, c.loop)
  }

  function Advance(c: Cursor, n: nat, k: nat): (r: Cursor)
    ensures c.index < n ==> r.index < n
    decreases k
  {
    if k == 0 then c else Next(Advance(c, n, k - 1), n)
  }

  /** Going once through the list from its start lands on its start one loop later. */
  lemma {:induction false} AdvanceWithinLoop(n: nat, loop: nat, j: nat)
    requires j < n
    ensures Advance(Cursor(0, loop), n, j) == Cursor(j, loop)
  {
    if j > 0 {
      AdvanceWithinLoop(n, loop, j - 1);
    }
  }

  lemma AdvanceOneLoop(n: nat, loop: nat)
    requires n >= 1
    ensures Advance(Cursor(0, loop), n, n) == Cursor(0, loop + 1)
  {
    AdvanceWithinLoop(n, loop, n - 1);
  }

  /** The absolute step of the event under the cursor: its step plus the loops done. */
  function AbsoluteStep(events: seq<NoteEvent>, loopSteps: int, c: Cursor): int
    requires c.index < |events|
  {
    events[c.index].step + c.loop * loopSteps
  }

  function EventTime(events: seq<NoteEvent>, start: real, settings: Settings, loopSteps: int, c: Cursor): real
    requires c.index < |events| && settings.bpm > 0.0
  {
    start + StepToTime(AbsoluteStep(events, loopSteps, c), settings.bpm, settings.swing)
  }

  /** The listener hears each event just before the synthesiser plays it. */
  function EventCall(events: seq<NoteEvent>, start: real, settings: Settings, loopSteps: int, c: Cursor, listening: bool): seq<Call>
    requires c.index < |events| && settings.bpm > 0.0
  {
    Notification(listening, Some(events[c.index]))
      + [Play(events[c.index], EventTime(events, start, settings, loopSteps, c), settings)]
  }

  /** The calls for `k` events from cursor `c`. */
  function EventCalls(events: seq<NoteEvent>, start: real, settings: Settings, loopSteps: int, c: Cursor, k: nat, listening: bool): seq<Call>
    requires c.index < |events| && settings.bpm > 0.0
    decreases k
  {
    if k == 0 then
      []
    else
      EventCalls(events, start, settings, loopSteps, c, k - 1, listening)
      + EventCall(events, start, settings, loopSteps, Advance(c, |events|, k - 1), listening)
  }

  /** No step of a sorted list lies before the loop or past its end: the absolute
      steps then never go down as the cursor moves. */
  predicate FitsLoop(events: seq<NoteEvent>, loopSteps: int) {
    (forall i, j :: 0 <= i < j < |events| ==> events[i].step <= events[j].step)
    && (forall i :: 0 <= i < |events| ==> 0 <= events[i].step < loopSteps)
  }

  lemma NextStepNotEarlier(events: seq<NoteEvent>, loopSteps: int, c: Cursor)
    requires FitsLoop(events, loopSteps) && c.index < |events|
    ensures AbsoluteStep(events, loopSteps, c) <= AbsoluteStep(events, loopSteps, Next(c, |events|))
  {
    var d := Next(c, |events|);
    if c.index + 1 >= |events| {
      assert (c.loop + 1) * loopSteps == c.loop * loopSteps + loopSteps;
    }
  }

  /** Over a list that fits its loop, and swing between 0 and 1, the events are played
      in time order. */
  lemma EventsInTimeOrder(events: seq<NoteEvent>, start: real, settings: Settings, loopSteps: int, c: Cursor, k: nat)
    requires FitsLoop(events, loopSteps) && c.index < |events|
    requires settings.bpm > 0.0 && 0.0 <= settings.swing <= 1.0
    ensures EventTime(events, start, settings, loopSteps, Advance(c, |events|, k))
      <= EventTime(events, start, settings, loopSteps, Advance(c, |events|, k + 1))
  {
    var a := Advance(c, |events|, k);
    NextStepNotEarlier(events, loopSteps, a);
    StepTimeMonotone(AbsoluteStep(events, loopSteps, a), AbsoluteStep(events, loopSteps, Next(a, |events|)),
                     settings.bpm, settings.swing);
  }

  /** The least step of a list, or 0 if that is less. */
  function MinStep(events: seq<NoteEvent>): (m: int)
    ensures m <= 0 && forall i :: 0 <= i < |events| ==> m <= events[i].step
  {
    if events == [] then 0
    else
      var rest := MinStep(events[1..]);
      if events[0].step < rest then events[0].step else rest
  }

  lemma EventCallsStep(events: seq<NoteEvent>, start: real, settings: Settings, loopSteps: int, c0: Cursor, k: nat, listening: bool)
    requires c0.index < |events| && settings.bpm > 0.0
    ensures EventCalls(events, start, settings, loopSteps, c0, k + 1, listening)
      == EventCalls(events, start, settings, loopSteps, c0, k, listening)
         + EventCall(events, start, settings, loopSteps, Advance(c0, |events|, k), listening)
  {
  }

  /** The first `k` events from cursor `c0` are all due by `horizon`. */
  predicate AllDue(events: seq<NoteEvent>, start: real, settings: Settings, loopSteps: int, c0: Cursor, k: nat, horizon: real)
    requires c0.index < |events| && settings.bpm > 0.0
  {
    forall j :: 0 <= j < k ==> EventTime(events, start, settings, loopSteps, Advance(c0, |events|, j)) <= horizon
  }

  /** One more due event extends the run of due events. */
  lemma DueExtend(events: seq<NoteEvent>, start: real, settings: Settings, loopSteps: int, c0: Cursor, k: nat, horizon: real)
    requires c0.index < |events| && settings.bpm > 0.0
    requires AllDue(events, start, settings, loopSteps, c0, k, horizon)
    requires EventTime(events, start, settings, loopSteps, Advance(c0, |events|, k)) <= horizon
    ensures AllDue(events, start, settings, loopSteps, c0, k + 1, horizon)
  {
  }

  /** An event due by `horizon` bounds the loop count: it cannot exceed the whole
      step lengths up to the horizon less the least step. */
  lemma LoopWithinBound(events: seq<NoteEvent>, start: real, settings: Settings, loopSteps: int, c: Cursor, horizon: real)
    requires c.index < |events| && settings.bpm > 0.0 && settings.swing >= 0.0 && loopSteps >= 1
    requires EventTime(events, start, settings, loopSteps, c) <= horizon
    ensures c.loop <= ((horizon - start) / StepDurationSeconds(settings.bpm)).Floor - MinStep(events)
  {
    DueStepBound(AbsoluteStep(events, loopSteps, c), start, horizon, settings.bpm, settings.swing);
    assert c.loop <= c.loop * loopSteps;
  }

  /** Drum steps `first` .. `last - 1` are all due by `horizon`. */
  predicate DrumsDue(start: real, settings: Settings, first: int, last: int, horizon: real)
    requires settings.bpm > 0.0
  {
    forall s :: first <= s < last ==> start + StepToTime(s, settings.bpm, settings.swing) <= horizon
  }

  /** What one tick up to `horizon` does to the drum cursor: it moves from `drum0`
      past every due step and stops at the first step not due. */
  predicate DrumsTicked(start: real, settings: Settings, drum0: int, drum1: int, horizon: real)
    requires settings.bpm > 0.0
  {
    drum0 <= drum1
    && DrumsDue(start, settings, drum0, drum1, horizon)
    && start + StepToTime(drum1, settings.bpm, settings.swing) > horizon
  }

  /** What one tick up to `horizon` does to the event cursor: it moves `dispatched`
      events from `c0`, all of them due, and stops at the first event not due. */
  predicate EventsTicked(events: seq<NoteEvent>, start: real, settings: Settings, loopSteps: int,
                         c0: Cursor, c1: Cursor, dispatched: nat, horizon: real)
    requires settings.bpm > 0.0
  {
    (|events| == 0 ==> dispatched == 0 && c1 == c0)
    && (|events| > 0 ==>
          c0.index < |events| && c1 == Advance(c0, |events|, dispatched)
          && AllDue(events, start, settings, loopSteps, c0, dispatched, horizon)
          && EventTime(events, start, settings, loopSteps, c1) > horizon)
  }

  predicate Ticked(events: seq<NoteEvent>, start: real, settings: Settings, loopSteps: int,
                   drum0: int, drum1: int, c0: Cursor, c1: Cursor, dispatched: nat, horizon: real)
    requires settings.bpm > 0.0
  {
    DrumsTicked(start, settings, drum0, drum1, horizon)
    && EventsTicked(events, start, settings, loopSteps, c0, c1, dispatched, horizon)
  }

  /** The calls of an event pass: none over an empty list. */
  function PassCalls(events: seq<NoteEvent>, start: real, settings: Settings, loopSteps: int,
                     c0: Cursor, dispatched: nat, listening: bool): seq<Call>
    requires settings.bpm > 0.0
    requires |events| > 0 ==> c0.index < |events|
  {
    if |events| == 0 then [] else EventCalls(events, start, settings, loopSteps, c0, dispatched, listening)
  }

  /** The calls of one tick: the due drum steps, then the due events. */
  function TickCalls(events: seq<NoteEvent>, start: real, settings: Settings, loopSteps: int,
                     drum0: int, drum1: int, c0: Cursor, dispatched: nat, listening: bool): seq<Call>
    requires settings.bpm > 0.0 && loopSteps >= 1
    requires |events| > 0 ==> c0.index < |events|
  {
    DrumCalls(start, settings, loopSteps, drum0, drum1) + PassCalls(events, start, settings, loopSteps, c0, dispatched, listening)
  }

  /** Events whose steps lie within the loop fit it once sorted by step. */
  lemma SortedFitsLoop(events: seq<NoteEvent>, loopSteps: int)
    requires forall i :: 0 <= i < |events| ==> 0 <= events[i].step < loopSteps
    ensures FitsLoop(SortBy(events, Sequence.StepKey), loopSteps)
  {
    var sorted := SortBy(events, Sequence.StepKey);
    SortBySorted(events, Sequence.StepKey);
    forall i | 0 <= i < |sorted| ensures 0 <= sorted[i].step < loopSteps {
      assert sorted[i] in multiset(sorted);
      var k :| 0 <= k < |events| && events[k] == sorted[i];
    }
  }

  /** Over a list that fits its loop, with swing between 0 and 1, a tick leaves nothing
      due behind it: every drum step from the drum cursor on, and every event from the
      event cursor on, is later than the horizon. */
  lemma LaterDrumsNotDue(start: real, settings: Settings, drum1: int, s: int, horizon: real)
    requires settings.bpm > 0.0 && 0.0 <= settings.swing <= 1.0 && drum1 <= s
    requires start + StepToTime(drum1, settings.bpm, settings.swing) > horizon
    ensures start + StepToTime(s, settings.bpm, settings.swing) > horizon
  {
    StepTimeMonotone(drum1, s, settings.bpm, settings.swing);
  }

  lemma {:induction false} LaterEventsNotDue(events: seq<NoteEvent>, start: real, settings: Settings, loopSteps: int,
                                            c0: Cursor, dispatched: nat, j: nat, horizon: real)
    requires FitsLoop(events, loopSteps) && c0.index < |events|
    requires settings.bpm > 0.0 && 0.0 <= settings.swing <= 1.0 && dispatched <= j
    requires EventTime(events, start, settings, loopSteps, Advance(c0, |events|, dispatched)) > horizon
    ensures EventTime(events, start, settings, loopSteps, Advance(c0, |events|, j)) > horizon
    decreases j - dispatched
  {
    if j > dispatched {
      LaterEventsNotDue(events, start, settings, loopSteps, c0, dispatched, j - 1, horizon);
      EventsInTimeOrder(events, start, settings, loopSteps, c0, j - 1);
    }
  }

  /** Later events along the cursor are never earlier. */
  lemma {:induction false} EventTimesAscend(events: seq<NoteEvent>, start: real, settings: Settings, loopSteps: int,
                                           c0: Cursor, i: nat, j: nat)
    requires FitsLoop(events, loopSteps) && c0.index < |events|
    requires settings.bpm > 0.0 && 0.0 <= settings.swing <= 1.0
    ensures i <= j ==> EventTime(events, start, settings, loopSteps, Advance(c0, |events|, i))
                       <= EventTime(events, start, settings, loopSteps, Advance(c0, |events|, j))
    decreases j
  {
    if i < j {
      EventTimesAscend(events, start, settings, loopSteps, c0, i, j - 1);
      EventsInTimeOrder(events, start, settings, loopSteps, c0, j - 1);
    }
  }

  /** A tick stops the drum cursor exactly at the first step not due: the step `n`
      that is not due, just after one that is (or where the cursor stood). */
  lemma DrumCursorAt(start: real, settings: Settings, drum0: int, drum1: int, n: int, horizon: real)
    requires settings.bpm > 0.0 && 0.0 <= settings.swing <= 1.0
    requires DrumsTicked(start, settings, drum0, drum1, horizon)
    requires drum0 <= n && start + StepToTime(n, settings.bpm, settings.swing) > horizon
    requires n == drum0 || start + StepToTime(n - 1, settings.bpm, settings.swing) <= horizon
    ensures drum1 == n
  {
    if drum1 <= n - 1 {
      StepTimeMonotone(drum1, n - 1, settings.bpm, settings.swing);
    }
  }

  /** A tick stops the event cursor exactly at the first event not due. */
  lemma EventCursorAt(events: seq<NoteEvent>, start: real, settings: Settings, loopSteps: int,
                      c0: Cursor, c1: Cursor, dispatched: nat, m: nat, horizon: real)
    requires FitsLoop(events, loopSteps) && c0.index < |events|
    requires settings.bpm > 0.0 && 0.0 <= settings.swing <= 1.0
    requires EventsTicked(events, start, settings, loopSteps, c0, c1, dispatched, horizon)
    requires EventTime(events, start, settings, loopSteps, Advance(c0, |events|, m)) > horizon
    requires m == 0 || EventTime(events, start, settings, loopSteps, Advance(c0, |events|, m - 1)) <= horizon
    ensures dispatched == m
  {
    if m > 0 {
      EventTimesAscend(events, start, settings, loopSteps, c0, dispatched, m - 1);
    }
  }

  /** When the event under the cursor is due, a tick plays it: at least one event is
      dispatched, and the first calls are its notification and its play. */
  lemma FirstDueIsPlayed(events: seq<NoteEvent>, start: real, settings: Settings, loopSteps: int,
                         c0: Cursor, c1: Cursor, dispatched: nat, horizon: real, listening: bool)
    requires settings.bpm > 0.0 && c0.index < |events|
    requires EventsTicked(events, start, settings, loopSteps, c0, c1, dispatched, horizon)
    requires EventTime(events, start, settings, loopSteps, c0) <= horizon
    ensures dispatched >= 1
    ensures var first := EventCall(events, start, settings, loopSteps, c0, listening);
      PassCalls(events, start, settings, loopSteps, c0, dispatched, listening)[..|first|] == first
  {
    EventCallsOpen(events, start, settings, loopSteps, c0, dispatched, listening);
  }

  lemma {:induction false} EventCallsOpen(events: seq<NoteEvent>, start: real, settings: Settings, loopSteps: int,
                                         c0: Cursor, k: nat, listening: bool)
    requires settings.bpm > 0.0 && c0.index < |events| && k >= 1
    ensures var first := EventCall(events, start, settings, loopSteps, c0, listening);
      |first| <= |EventCalls(events, start, settings, loopSteps, c0, k, listening)|
      && EventCalls(events, start, settings, loopSteps, c0, k, listening)[..|first|] == first
  {
    if k > 1 {
      EventCallsOpen(events, start, settings, loopSteps, c0, k - 1, listening);
    }
  }

  /** The run state of a playing scheduler, updated in place by each tick. */
  class ScheduleState {
    var events: seq<NoteEvent>
    var settings: Settings
    var startTime: real
    var loopSteps: int
    var nextEventIndex: nat
    var loopCount: nat
    var nextDrumStep: nat

    predicate Valid()
      reads this
    {
      settings.bpm > 0.0 && settings.swing >= 0.0 && loopSteps >= 1
      && (if |events| == 0 then nextEventIndex == 0 else nextEventIndex < |events|)
    }

    /** A state for a fresh start: all cursors at zero. */
    constructor(events: seq<NoteEvent>, settings: Settings, startTime: real)
      requires settings.bpm > 0.0 && settings.swing >= 0.0
      ensures Valid()
      ensures this.events == events && this.settings == settings && this.startTime == startTime
      ensures loopSteps == settings.bars * StepsPerBar
      ensures nextEventIndex == 0 && loopCount == 0 && nextDrumStep == 0
    {
      this.events := events;
      this.settings := settings;
      this.startTime := startTime;
      loopSteps := settings.bars * StepsPerBar;
      nextEventIndex := 0;
      loopCount := 0;
      nextDrumStep := 0;
    }

    /** Restarts the run from `now` with all cursors at zero. */
    method Rewind(now: real)
      requires settings.bpm > 0.0 && settings.swing >= 0.0 && loopSteps >= 1
      modifies this`startTime, this`nextEventIndex, this`loopCount, this`nextDrumStep
      ensures Valid()
      ensures startTime == now && nextEventIndex == 0 && loopCount == 0 && nextDrumStep == 0
    {
      startTime := now;
      nextEventIndex := 0;
      loopCount := 0;
      nextDrumStep := 0;
    }

    /** Dispatches every drum step from the drum cursor on that is due by `horizon`. */
    method DrumPass(horizon: real) returns (calls: seq<Call>)
      requires Valid()
      modifies this`nextDrumStep
      ensures Valid()
      ensures DrumsTicked(startTime, settings, old(nextDrumStep), nextDrumStep, horizon)
      ensures calls == DrumCalls(startTime, settings, loopSteps, old(nextDrumStep), nextDrumStep)
    {
      calls := [];
      ghost var first := nextDrumStep;
      ghost var bound := ((horizon - startTime) / StepDurationSeconds(settings.bpm)).Floor;
      var time := startTime + StepToTime(nextDrumStep, settings.bpm, settings.swing);
      while time <= horizon
        invariant first <= nextDrumStep
        invariant time == startTime + StepToTime(nextDrumStep, settings.bpm, settings.swing)
        invariant DrumsDue(startTime, settings, first, nextDrumStep, horizon)
        invariant calls == DrumCalls(startTime, settings, loopSteps, first, nextDrumStep)
        decreases bound - nextDrumStep
      {
        var absoluteStep := nextDrumStep;
        DueStepBound(absoluteStep, startTime, horizon, settings.bpm, settings.swing);
        calls := calls + [PlayDrums(absoluteStep % loopSteps, time, settings)];
        nextDrumStep := nextDrumStep + 1;
        time := startTime + StepToTime(nextDrumStep, settings.bpm, settings.swing);
      }
    }

    /** One tick of a playing scheduler: the drum pass, then the event pass. */
    method Poll(horizon: real, listening: bool) returns (calls: seq<Call>, ghost dispatched: nat)
      requires Valid()
      modifies this`nextDrumStep, this`nextEventIndex, this`loopCount
      ensures Valid()
      ensures var c0 := Cursor(old(nextEventIndex), old(loopCount));
        calls == TickCalls(events, startTime, settings, loopSteps, old(nextDrumStep), nextDrumStep, c0, dispatched, listening)
        && Ticked(events, startTime, settings, loopSteps, old(nextDrumStep), nextDrumStep,
                  c0, Cursor(nextEventIndex, loopCount), dispatched, horizon)
    {
      var drumCalls := DrumPass(horizon);
      var eventCalls;
      eventCalls, dispatched := EventPass(horizon, listening);
      calls := drumCalls + eventCalls;
    }

    /** Dispatches events from the event cursor on while they are due by `horizon`,
        wrapping to the start of the list and counting a loop at its end. */
    method EventPass(horizon: real, listening: bool) returns (calls: seq<Call>, ghost dispatched: nat)
      requires Valid()
      modifies this`nextEventIndex, this`loopCount
      ensures Valid()
      ensures EventsTicked(events, startTime, settings, loopSteps, Cursor(old(nextEventIndex), old(loopCount)),
                           Cursor(nextEventIndex, loopCount), dispatched, horizon)
      ensures calls == PassCalls(events, startTime, settings, loopSteps, Cursor(old(nextEventIndex), old(loopCount)),
                                 dispatched, listening)
    {
      calls := [];
      dispatched := 0;
      var events, settings, startTime, loopSteps := this.events, this.settings, this.startTime, this.loopSteps;
      if |events| == 0 {
        return;
      }
      ghost var c0 := Cursor(nextEventIndex, loopCount);
      ghost var bound := ((horizon - startTime) / StepDurationSeconds(settings.bpm)).Floor - MinStep(events);
      var cursor := Cursor(nextEventIndex, loopCount);
      var time := EventTime(events, startTime, settings, loopSteps, cursor);
      while time <= horizon
        invariant cursor.index < |events|
        invariant cursor == Advance(c0, |events|, dispatched)
        invariant time == EventTime(events, startTime, settings, loopSteps, cursor)
        invariant calls == EventCalls(events, startTime, settings, loopSteps, c0, dispatched, listening)
        invariant AllDue(events, startTime, settings, loopSteps, c0, dispatched, horizon)
        decreases bound - cursor.loop, |events| - cursor.index
      {
        var event := events[cursor.index];
        LoopWithinBound(events, startTime, settings, loopSteps, cursor, horizon);
        DueExtend(events, startTime, settings, loopSteps, c0, dispatched, horizon);
        EventCallsStep(events, startTime, settings, loopSteps, c0, dispatched, listening);
        calls := calls + (Notification(listening, Some(event)) + [Play(event, time, settings)]);
        cursor := Next(cursor, |events|);
        time := EventTime(events, startTime, settings, loopSteps, cursor);
        dispatched := dispatched + 1;
      }
      nextEventIndex, loopCount := cursor.index, cursor.loop;
    }
  }

  /** The scheduler: the run state (None while stopped), whether the polling timer is
      set, the events and settings last given, whether a note listener is set, and
      the calls made so far. */
  class Scheduler {
    var state: ScheduleState?
    var timerSet: bool
    var cachedEvents: seq<NoteEvent>
    var cachedSettings: Option<Settings>
    var listening: bool
    var trace: seq<Call>

    predicate Valid()
      reads this, state
    {
      state != null ==> state.Valid() && cachedSettings.Some?
    }

    constructor()
      ensures Valid() && state == null && !timerSet && cachedEvents == [] && cachedSettings.None?
      ensures !listening && trace == []
    {
      state := null;
      timerSet := false;
      cachedEvents := [];
      cachedSettings := None;
      listening := false;
      trace := [];
    }

    /** One tick of the polling timer at clock time `now`: nothing while stopped;
        otherwise the drum pass and then the event pass up to `now` plus the
        lookahead. */
    method Tick(now: real) returns (ghost dispatched: nat)
      requires Valid()
      modifies this`trace, state
      ensures Valid()
      ensures state == old(state) && cachedEvents == old(cachedEvents) && cachedSettings == old(cachedSettings)
      ensures timerSet == old(timerSet) && listening == old(listening)
      ensures state == null ==> trace == old(trace)
      ensures state != null ==>
        state.events == old(state.events) && state.settings == old(state.settings)
        && state.startTime == old(state.startTime) && state.loopSteps == old(state.loopSteps)
      ensures state != null ==>
        var s := state;
        var c0 := Cursor(old(s.nextEventIndex), old(s.loopCount));
        trace == old(trace) + TickCalls(s.events, s.startTime, s.settings, s.loopSteps,
                                        old(s.nextDrumStep), s.nextDrumStep, c0, dispatched, listening)
        && Ticked(s.events, s.startTime, s.settings, s.loopSteps, old(s.nextDrumStep), s.nextDrumStep,
                  c0, Cursor(s.nextEventIndex, s.loopCount), dispatched, now + Lookahead)
    {
      dispatched := 0;
      if state == null {
        return;
      }
      var calls;
      calls, dispatched := state.Poll(now + Lookahead, listening);
      trace := trace + calls;
    }

    /** Sorts the events by step and makes a fresh run state anchored at `now`. */
    method ResetSchedule(events: seq<NoteEvent>, settings: Settings, now: real)
      requires settings.bpm > 0.0 && settings.swing >= 0.0
      modifies this`cachedEvents, this`cachedSettings, this`state
      ensures Valid() && state != null && fresh(state)
      ensures cachedEvents == SortBy(events, Sequence.StepKey) && cachedSettings == Some(settings)
      ensures state.events == cachedEvents && state.settings == settings && state.startTime == now
      ensures state.loopSteps == settings.bars * StepsPerBar
      ensures state.nextEventIndex == 0 && state.loopCount == 0 && state.nextDrumStep == 0
    {
      cachedEvents := SortBy(events, Sequence.StepKey);
      cachedSettings := Some(settings);
      state := new ScheduleState(cachedEvents, settings, now);
    }

    /** Starts playing: a fresh run state, all sounding notes stopped, the listener
        told that nothing plays, the timer set, and one tick straight away. */
    method Start(events: seq<NoteEvent>, settings: Settings, now: real) returns (ghost dispatched: nat)
      requires Valid() && settings.bpm > 0.0 && settings.swing >= 0.0
      modifies this, state
      ensures Valid() && state != null && fresh(state) && timerSet && listening == old(listening)
      ensures cachedEvents == SortBy(events, Sequence.StepKey) && cachedSettings == Some(settings)
      ensures state.events == cachedEvents && state.settings == settings && state.startTime == now
      ensures state.loopSteps == settings.bars * StepsPerBar
      ensures trace == old(trace) + [StopAll] + Notification(listening, None)
        + TickCalls(state.events, now, settings, state.loopSteps, 0, state.nextDrumStep, Cursor(0, 0), dispatched, listening)
      ensures Ticked(state.events, now, settings, state.loopSteps, 0, state.nextDrumStep,
                     Cursor(0, 0), Cursor(state.nextEventIndex, state.loopCount), dispatched, now + Lookahead)
    {
      ResetSchedule(events, settings, now);
      trace := trace + [StopAll];
      trace := trace + Notification(listening, None);
      timerSet := true;
      dispatched := Tick(now);
    }

    /** Stops playing: the timer cleared, all notes stopped, the run state dropped and
        the listener told that nothing plays. */
    method Stop()
      modifies this`timerSet, this`trace, this`state
      ensures state == null && !timerSet && Valid()
      ensures trace == old(trace) + [StopAll] + Notification(listening, None)
    {
      timerSet := false;
      trace := trace + [StopAll];
      state := null;
      trace := trace + Notification(listening, None);
    }

    /** New events: kept sorted; while playing they replace the running list and the
        run restarts from `now` with all cursors at zero. */
    method SetEvents(events: seq<NoteEvent>, now: real)
      requires Valid()
      modifies this`cachedEvents, this`trace, state
      ensures Valid()
      ensures cachedEvents == SortBy(events, Sequence.StepKey)
      ensures trace == old(trace) + Notification(listening, None)
      ensures state != null ==>
        state.events == cachedEvents && state.startTime == now
        && state.nextEventIndex == 0 && state.loopCount == 0 && state.nextDrumStep == 0
        && state.settings == old(state.settings) && state.loopSteps == old(state.loopSteps)
    {
      cachedEvents := SortBy(events, Sequence.StepKey);
      if state != null && cachedSettings.Some? {
        state.events := cachedEvents;
        state.Rewind(now);
      }
      trace := trace + Notification(listening, None);
    }

    /** New settings: kept; while playing they replace the running settings, the loop
        length follows the bar count, and the run restarts from `now` with all
        cursors at zero. */
    method UpdateSettings(settings: Settings, now: real)
      requires Valid() && settings.bpm > 0.0 && settings.swing >= 0.0
      modifies this`cachedSettings, this`trace, state
      ensures Valid()
      ensures cachedSettings == Some(settings)
      ensures trace == old(trace) + Notification(listening, None)
      ensures state != null ==>
        state.settings == settings && state.loopSteps == settings.bars * StepsPerBar && state.startTime == now
        && state.nextEventIndex == 0 && state.loopCount == 0 && state.nextDrumStep == 0
        && state.events == old(state.events)
    {
      cachedSettings := Some(settings);
      if state != null {
        state.settings := settings;
        state.loopSteps := settings.bars * StepsPerBar;
        state.Rewind(now);
      }
      trace := trace + Notification(listening, None);
    }

    method IsRunning() returns (r: bool)
      ensures r == timerSet
    {
      r := timerSet;
    }

    /** Sets the note listener and tells it at once that nothing plays. */
    method SetOnNote()
      modifies this`listening, this`trace
      ensures listening && trace == old(trace) + [Notified(None)]
    {
      listening := true;
      trace := trace + Notification(listening, None);
    }
  }

  /** The run of the scheduler's runtime test: four bars at 120 beats per minute with
      a swing of 0.1, and two lead notes, on steps 0 and 4. */
  const ScenarioSettings: Settings :=
    Settings(C, Major, 4, 120.0, 0.1, 0.8, 1800.0, 0.3, 0.2, true, true, false, false, Modern)
  const ScenarioEvents: seq<NoteEvent> := [NoteEvent(Lead, 0, 4, Some(60)), NoteEvent(Lead, 4, 4, Some(62))]

  lemma ScenarioSorted()
    ensures SortBy(ScenarioEvents, Sequence.StepKey) == ScenarioEvents
    ensures FitsLoop(ScenarioEvents, 64)
  {
    assert ScenarioEvents[..1] == [ScenarioEvents[0]];
    assert ScenarioEvents[..1][..0] == [];
  }

  /** The steps of the scenario, an eighth of a second apart, the odd ones late by a
      tenth of a step. */
  lemma ScenarioTimes()
    ensures StepToTime(0, 120.0, 0.1) == 0.0 && StepToTime(1, 120.0, 0.1) == 0.1375
    ensures StepToTime(2, 120.0, 0.1) == 0.25 && StepToTime(3, 120.0, 0.1) == 0.3875
    ensures StepToTime(4, 120.0, 0.1) == 0.5 && StepToTime(5, 120.0, 0.1) == 0.6375
    ensures StepToTime(64, 120.0, 0.1) == 8.0
  {
    assert Swung(1) && !Swung(2) && Swung(3) && !Swung(4) && Swung(5) && !Swung(64);
  }

  /** Starting at time 0 looks ahead to 0.25 s: drum steps 0 to 2 and the first note,
      which plays at once. */
  const ScenarioStartCalls: seq<Call> :=
    [PlayDrums(0, 0.0, ScenarioSettings), PlayDrums(1, 0.1375, ScenarioSettings),
     PlayDrums(2, 0.25, ScenarioSettings), Play(ScenarioEvents[0], 0.0, ScenarioSettings)]

  /** A tick at 0.35 s looks ahead to 0.6 s: drum steps 3 and 4 and the second note, at
      0.5 s; the first note's next loop, at 8 s, waits. */
  const ScenarioTickCalls: seq<Call> :=
    [PlayDrums(3, 0.3875, ScenarioSettings), PlayDrums(4, 0.5, ScenarioSettings),
     Play(ScenarioEvents[1], 0.5, ScenarioSettings)]

  /** Where the first tick leaves the cursors. */
  lemma ScenarioStartCursors(drum1: int, c1: Cursor, dispatched: nat)
    requires Ticked(ScenarioEvents, 0.0, ScenarioSettings, 64, 0, drum1, Cursor(0, 0), c1, dispatched, 0.0 + Lookahead)
    ensures drum1 == 3 && dispatched == 1 && c1 == Cursor(1, 0)
  {
    ScenarioSorted();
    ScenarioTimes();
    DrumCursorAt(0.0, ScenarioSettings, 0, drum1, 3, 0.25);
    assert Advance(Cursor(0, 0), 2, 1) == Cursor(1, 0);
    EventCursorAt(ScenarioEvents, 0.0, ScenarioSettings, 64, Cursor(0, 0), c1, dispatched, 1, 0.25);
  }

  lemma ScenarioStartTrace()
    ensures TickCalls(ScenarioEvents, 0.0, ScenarioSettings, 64, 0, 3, Cursor(0, 0), 1, false) == ScenarioStartCalls
  {
    ScenarioTimes();
    assert Advance(Cursor(0, 0), 2, 0) == Cursor(0, 0);
    assert DrumCalls(0.0, ScenarioSettings, 64, 0, 3)
      == [PlayDrums(0, 0.0, ScenarioSettings), PlayDrums(1, 0.1375, ScenarioSettings), PlayDrums(2, 0.25, ScenarioSettings)];
    assert EventCalls(ScenarioEvents, 0.0, ScenarioSettings, 64, Cursor(0, 0), 1, false)
      == [Play(ScenarioEvents[0], 0.0, ScenarioSettings)];
  }

  /** Where the tick at 0.35 s leaves the cursors. */
  lemma ScenarioTickCursors(drum2: int, c2: Cursor, dispatched: nat)
    requires Ticked(ScenarioEvents, 0.0, ScenarioSettings, 64, 3, drum2, Cursor(1, 0), c2, dispatched, 0.35 + Lookahead)
    ensures drum2 == 5 && dispatched == 1 && c2 == Cursor(0, 1)
  {
    ScenarioSorted();
    ScenarioTimes();
    DrumCursorAt(0.0, ScenarioSettings, 3, drum2, 5, 0.6);
    assert Advance(Cursor(1, 0), 2, 1) == Cursor(0, 1);
    EventCursorAt(ScenarioEvents, 0.0, ScenarioSettings, 64, Cursor(1, 0), c2, dispatched, 1, 0.6);
  }

  lemma ScenarioTickTrace()
    ensures TickCalls(ScenarioEvents, 0.0, ScenarioSettings, 64, 3, 5, Cursor(1, 0), 1, false) == ScenarioTickCalls
  {
    ScenarioTimes();
    assert Advance(Cursor(1, 0), 2, 0) == Cursor(1, 0);
    assert EventCalls(ScenarioEvents, 0.0, ScenarioSettings, 64, Cursor(1, 0), 1, false)
      == [Play(ScenarioEvents[1], 0.5, ScenarioSettings)];
  }

  /** What starting the scenario's run writes into an empty trace. */
  lemma ScenarioStarted(trace: seq<Call>, events: seq<NoteEvent>, loopSteps: int, drum1: int, c1: Cursor,
                        dispatched: nat)
    requires events == SortBy(ScenarioEvents, Sequence.StepKey) && loopSteps == 4 * StepsPerBar
    requires trace == [] + [StopAll] + Notification(false, None)
      + TickCalls(events, 0.0, ScenarioSettings, loopSteps, 0, drum1, Cursor(0, 0), dispatched, false)
    requires Ticked(events, 0.0, ScenarioSettings, loopSteps, 0, drum1, Cursor(0, 0), c1, dispatched, 0.0 + Lookahead)
    ensures events == ScenarioEvents && loopSteps == 64 && drum1 == 3 && c1 == Cursor(1, 0)
    ensures trace == [StopAll] + ScenarioStartCalls
  {
    ScenarioSorted();
    ScenarioStartCursors(drum1, c1, dispatched);
    ScenarioStartTrace();
  }

  /** What the tick at 0.35 s appends to the trace. */
  lemma ScenarioTicked(trace: seq<Call>, started: seq<Call>, events: seq<NoteEvent>, loopSteps: int,
                       drum2: int, c2: Cursor, dispatched: nat)
    requires events == ScenarioEvents && loopSteps == 64
    requires trace == started
      + TickCalls(events, 0.0, ScenarioSettings, loopSteps, 3, drum2, Cursor(1, 0), dispatched, false)
    requires Ticked(events, 0.0, ScenarioSettings, loopSteps, 3, drum2, Cursor(1, 0), c2, dispatched, 0.35 + Lookahead)
    ensures trace == started + ScenarioTickCalls
  {
    ScenarioTickCursors(drum2, c2, dispatched);
    ScenarioTickTrace();
  }

  /** The start of the runtime test: a new scheduler started at time 0 on the test's
      events, with the run state the first tick leaves. */
  method StartScenario() returns (scheduler: Scheduler)
    ensures fresh(scheduler) && scheduler.Valid() && scheduler.timerSet && !scheduler.listening
    ensures scheduler.trace == [StopAll] + ScenarioStartCalls
    ensures scheduler.state != null && fresh(scheduler.state)
    ensures var s := scheduler.state;
      s.events == ScenarioEvents && s.settings == ScenarioSettings && s.startTime == 0.0
      && s.loopSteps == 64 && s.nextDrumStep == 3 && s.nextEventIndex == 1 && s.loopCount == 0
  {
    scheduler := new Scheduler();
    ghost var dispatched := scheduler.Start(ScenarioEvents, ScenarioSettings, 0.0);
    var state := scheduler.state;
    ScenarioStarted(scheduler.trace, state.events, state.loopSteps, state.nextDrumStep,
                    Cursor(state.nextEventIndex, state.loopCount), dispatched);
  }

  /** The runtime test as a run of the model: start at time 0, one tick at 0.35 s,
      then stop; the trace after each step, and whether the scheduler runs after the
      tick and after the stop. */
  method RuntimeScenario() returns (started: seq<Call>, ticked: seq<Call>, stopped: seq<Call>,
                                    runningAfterTick: bool, runningAfterStop: bool)
    ensures started == [StopAll] + ScenarioStartCalls
    ensures ticked == started + ScenarioTickCalls
    ensures stopped == ticked + [StopAll]
    ensures runningAfterTick && !runningAfterStop
  {
    var scheduler := StartScenario();
    var state := scheduler.state;
    started := scheduler.trace;
    ghost var dispatched := scheduler.Tick(0.35);
    ScenarioTicked(scheduler.trace, started, state.events, state.loopSteps, state.nextDrumStep,
                   Cursor(state.nextEventIndex, state.loopCount), dispatched);
    ticked := scheduler.trace;
    runningAfterTick := scheduler.IsRunning();
    scheduler.Stop();
    stopped := scheduler.trace;
    runningAfterStop := scheduler.IsRunning();
  }
}
