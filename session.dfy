/** The test session of ArmStrengthTest: the component's state variables,
    the start and reset buttons, the one-second countdown tick and the frame
    callback. Each transition is a function on SessionState; the class
    TestSession keeps the same fields and its methods are proved to follow
    those functions. */
module Session {
  import opened Wrappers
  import opened Geometry
  import opened Posture

  /** How long the arm must be held, in seconds. */
  const HoldSeconds: int := 15

  datatype SessionState = SessionState(
    isReady: bool,
    isInPosition: bool,
    testStarted: bool,
    countdown: int,
    showPopup: bool,
    testCompleted: bool,
    progress: real)

  /** The progress percentage shown for a given number of seconds left. */
  function ProgressOf(count: int): real {
    (HoldSeconds as real - count as real) / HoldSeconds as real * 100.0
  }

  /** Progress runs from 0 with the full countdown left to 100 with none
      left, and grows as the countdown falls. */
  lemma ProgressBounds(count: int, other: int)
    requires 0 <= count <= HoldSeconds
    ensures 0.0 <= ProgressOf(count) <= 100.0
    ensures ProgressOf(count) == 100.0 <==> count == 0
    ensures ProgressOf(count) == 0.0 <==> count == HoldSeconds
    ensures other < count ==> ProgressOf(other) > ProgressOf(count)
  {
  }

  /** What every reachable session satisfies. */
  predicate Inv(s: SessionState) {
    0 <= s.countdown <= HoldSeconds &&
    s.progress == ProgressOf(s.countdown) &&
    (s.testCompleted <==> s.countdown == 0) &&
    (s.testCompleted ==> !s.testStarted) &&
    (s.testStarted ==> !s.showPopup) &&
    (s.showPopup ==> !s.testCompleted)
  }

  /** The component's state when it is first rendered. */
  function Initial(): (s: SessionState)
    ensures Inv(s) && !s.testStarted && s.showPopup && !s.isReady && !s.isInPosition
    ensures s.countdown == HoldSeconds && s.progress == 0.0 && !s.testCompleted
  {
    SessionState(false, false, false, HoldSeconds, true, false, 0.0)
  }

  /** The pose tracker has been created. */
  function ReadyStep(s: SessionState): (t: SessionState)
    ensures t.isReady && t.(isReady := s.isReady) == s
    ensures Inv(s) ==> Inv(t)
  {
    s.(isReady := true)
  }

  /** startTest: hide the popup, start, and rewind countdown, completion and
      progress. The position flag is left as it was. */
  function StartStep(s: SessionState): (t: SessionState)
    ensures Inv(t)
    ensures t.testStarted && !t.showPopup && !t.testCompleted
    ensures t.countdown == HoldSeconds && t.progress == 0.0
    ensures t.isReady == s.isReady && t.isInPosition == s.isInPosition
  {
    s.(showPopup := false, testStarted := true, countdown := HoldSeconds,
       testCompleted := false, progress := 0.0)
  }

  /** resetTest: stop, rewind countdown, completion and progress, and show
      the popup again. The position flag is left as it was. */
  function ResetStep(s: SessionState): (t: SessionState)
    ensures Inv(t)
    ensures !t.testStarted && t.showPopup && !t.testCompleted
    ensures t.countdown == HoldSeconds && t.progress == 0.0
    ensures t.isReady == s.isReady && t.isInPosition == s.isInPosition
  {
    s.(testStarted := false, countdown := HoldSeconds, testCompleted := false,
       showPopup := true, progress := 0.0)
  }

  /** The interval is running only while the user is in position, the test
      is started and seconds are left. */
  predicate TickApplies(s: SessionState) {
    s.isInPosition && s.testStarted && s.countdown > 0
  }

  /** One second of the interval: one second less, progress recomputed, and
      completion when the last second runs out. */
  function TickStep(s: SessionState): (t: SessionState)
    ensures !TickApplies(s) ==> t == s
    ensures TickApplies(s) ==> t.countdown == s.countdown - 1 && t.progress == ProgressOf(t.countdown)
    ensures TickApplies(s) ==> (t.testCompleted <==> s.testCompleted || s.countdown == 1)
    ensures TickApplies(s) ==> (t.testStarted <==> s.countdown != 1)
    ensures t.isReady == s.isReady && t.isInPosition == s.isInPosition && t.showPopup == s.showPopup
    ensures Inv(s) ==> Inv(t)
  {
    if TickApplies(s) then
      var prev := s.countdown;
      var newCount := prev - 1;
      var s' := s.(progress := ProgressOf(newCount));
      if prev <= 1 then s'.(testCompleted := true, testStarted := false, countdown := 0)
      else s'.(countdown := newCount)
    else s
  }

  /** Frames reach processResults only while the tracker is ready and the
      test is started (and the callback itself may stop early, `None`). */
  predicate FrameApplies(s: SessionState, verdict: Option<bool>) {
    s.isReady && s.testStarted && verdict.Some?
  }

  /** A processed frame: only the position flag changes. Leaving the position
      does not touch the countdown. */
  function FrameStep(s: SessionState, verdict: Option<bool>): (t: SessionState)
    ensures FrameApplies(s, verdict) ==> t.isInPosition == verdict.value
    ensures !FrameApplies(s, verdict) ==> t == s
    ensures t.(isInPosition := s.isInPosition) == s
    ensures Inv(s) ==> Inv(t)
  {
    if FrameApplies(s, verdict) then s.(isInPosition := verdict.value) else s
  }

  /** The events that drive a session. A frame event carries what
      processResults computed for that frame. */
  datatype Event = Ready | Start | Reset | Tick | Frame(verdict: Option<bool>)

  function Apply(s: SessionState, e: Event): SessionState {
    match e
    case Ready => ReadyStep(s)
    case Start => StartStep(s)
    case Reset => ResetStep(s)
    case Tick => TickStep(s)
    case Frame(v) => FrameStep(s, v)
  }

  function Run(s: SessionState, events: seq<Event>): SessionState
    decreases |events|
  {
    if events == [] then s else Run(Apply(s, events[0]), events[1..])
  }

  predicate NoRestart(events: seq<Event>) {
    forall k :: 0 <= k < |events| ==> events[k] != Start && events[k] != Reset
  }

  function Ticks(n: nat): (events: seq<Event>)
    ensures |events| == n && forall k :: 0 <= k < n ==> events[k] == Tick
  {
    seq(n, _ => Tick)
  }

  lemma {:induction false} RunAppend(s: SessionState, a: seq<Event>, b: seq<Event>)
    ensures Run(s, a + b) == Run(Run(s, a), b)
    decreases |a|
  {
    if a != [] {
      assert (a + b)[0] == a[0];
      assert (a + b)[1..] == a[1..] + b;
      RunAppend(Apply(s, a[0]), a[1..], b);
    } else {
      assert a + b == b;
    }
  }

  /** Every sequence of events keeps the session invariant: the countdown
      stays in [0, 15] and progress matches it. */
  lemma {:induction false} RunKeepsInv(s: SessionState, events: seq<Event>)
    requires Inv(s)
    ensures Inv(Run(s, events))
    ensures 0 <= Run(s, events).countdown <= HoldSeconds
    decreases |events|
  {
    if events != [] {
      RunKeepsInv(Apply(s, events[0]), events[1..]);
    }
  }

  /** Without a start or a reset the countdown never goes up. */
  lemma {:induction false} CountdownNeverRises(s: SessionState, events: seq<Event>)
    requires NoRestart(events)
    ensures Run(s, events).countdown <= s.countdown
    decreases |events|
  {
    if events != [] {
      assert events[0] != Start && events[0] != Reset;
      CountdownNeverRises(Apply(s, events[0]), events[1..]);
    }
  }

  /** Once completed, a session stays completed, with no time left and
      progress at 100, until it is started or reset again; ticks and frames
      change nothing but the position flag. */
  lemma {:induction false} CompletionIsSticky(s: SessionState, events: seq<Event>)
    requires Inv(s) && s.testCompleted
    requires NoRestart(events)
    ensures Run(s, events).testCompleted && !Run(s, events).testStarted
    ensures Run(s, events).countdown == 0 && Run(s, events).progress == 100.0
    decreases |events|
  {
    if events != [] {
      assert events[0] != Start && events[0] != Reset;
      CompletionIsSticky(Apply(s, events[0]), events[1..]);
    }
  }

  /** k ticks in position, fewer than the seconds left, take exactly k
      seconds off and change nothing else but progress. */
  lemma {:induction false} TicksCountDown(s: SessionState, k: nat)
    requires Inv(s) && TickApplies(s) && k < s.countdown
    ensures Run(s, Ticks(k)) == s.(countdown := s.countdown - k, progress := ProgressOf(s.countdown - k))
    decreases k
  {
    if k > 0 {
      var t := TickStep(s);
      assert Ticks(k)[0] == Tick && Ticks(k)[1..] == Ticks(k - 1);
      TicksCountDown(t, k - 1);
    }
  }

  /** Holding the position for as many ticks as seconds are left completes
      the test with progress 100. */
  lemma {:induction false} HoldCompletes(s: SessionState)
    requires Inv(s) && TickApplies(s)
    ensures Run(s, Ticks(s.countdown)).testCompleted
    ensures !Run(s, Ticks(s.countdown)).testStarted
    ensures Run(s, Ticks(s.countdown)).progress == 100.0
  {
    var n := s.countdown;
    assert Ticks(n) == Ticks(n - 1) + [Tick];
    RunAppend(s, Ticks(n - 1), [Tick]);
    TicksCountDown(s, n - 1);
    var u := Run(s, Ticks(n - 1));
    assert Run(u, [Tick]) == TickStep(u);
  }

  /** The hold is cumulative: after five seconds in position, one frame out
      of position and a tick that does nothing, ten more seconds in position
      complete the test: the interruption did not restart the 15-second
      hold. */
  lemma CumulativeHold(s: SessionState)
    requires Inv(s) && s.isReady
    ensures var events := [Start, Frame(Some(true))] + Ticks(5) + [Frame(Some(false)), Tick, Frame(Some(true))] + Ticks(10);
            Run(s, events).testCompleted
  {
    var a := [Start, Frame(Some(true))];
    var b := [Frame(Some(false)), Tick, Frame(Some(true))];
    var s1 := Run(s, a);
    assert s1 == FrameStep(StartStep(s), Some(true));
    TicksCountDown(s1, 5);
    var s2 := Run(s1, Ticks(5));
    assert s2.countdown == 10;
    var s3 := Run(s2, b);
    assert s3 == FrameStep(TickStep(FrameStep(s2, Some(false))), Some(true));
    assert s3.countdown == 10;
    HoldCompletes(s3);
    RunAppend(s, a, Ticks(5));
    RunAppend(s, a + Ticks(5), b);
    RunAppend(s, a + Ticks(5) + b, Ticks(10));
  }

  /** A tick arriving after a reset, or after completion, has no effect. */
  lemma StaleTickIsNoop(s: SessionState)
    requires Inv(s)
    ensures TickStep(ResetStep(s)) == ResetStep(s)
    ensures s.testCompleted ==> TickStep(s) == s
  {
  }

  /** The position flag survives reset and start: after a test completed
      with the arm in position, the next test counts its first second before
      any frame has been processed. */
  lemma StalePositionCarriesOver(s: SessionState)
    requires Inv(s) && s.testCompleted && s.isInPosition
    ensures TickStep(StartStep(ResetStep(s))).countdown == HoldSeconds - 1
  {
  }

  /** One ArmStrengthTest component, with its state variables as fields. */
  class TestSession {
    var isReady: bool
    var isInPosition: bool
    var testStarted: bool
    var countdown: int
    var showPopup: bool
    var testCompleted: bool
    var progress: real

    function State(): SessionState
      reads this
    {
      SessionState(isReady, isInPosition, testStarted, countdown, showPopup, testCompleted, progress)
    }

    ghost predicate Valid()
      reads this
    {
      Inv(State())
    }

    constructor ()
      ensures Valid() && State() == Initial()
    {
      isReady := false;
      isInPosition := false;
      testStarted := false;
      countdown := HoldSeconds;
      showPopup := true;
      testCompleted := false;
      progress := 0.0;
    }

    /** The pose tracker has been set up. */
    method MarkReady()
      requires Valid()
      modifies this
      ensures Valid() && State() == ReadyStep(old(State()))
    {
      isReady := true;
    }

    method StartTest()
      requires Valid()
      modifies this
      ensures Valid() && State() == StartStep(old(State()))
    {
      showPopup := false;
      testStarted := true;
      countdown := HoldSeconds;
      testCompleted := false;
      progress := 0.0;
    }

    method ResetTest()
      requires Valid()
      modifies this
      ensures Valid() && State() == ResetStep(old(State()))
    {
      testStarted := false;
      countdown := HoldSeconds;
      testCompleted := false;
      showPopup := true;
      progress := 0.0;
    }

    /** One firing of the one-second interval, which runs only while the
        user is in position, the test is started and seconds are left. */
    method Tick()
      requires Valid()
      modifies this
      ensures Valid() && State() == TickStep(old(State()))
      ensures countdown <= old(countdown)
    {
      if isInPosition && testStarted && countdown > 0 {
        var prev := countdown;
        var newCount := prev - 1;
        progress := ProgressOf(newCount);
        if prev <= 1 {
          testCompleted := true;
          testStarted := false;
          countdown := 0;
        } else {
          countdown := newCount;
        }
      }
    }

    /** The tracker's result callback for one camera frame. */
    method Frame(hasVideo: bool, canvasHeight: nat, landmarks: Option<Landmarks>, readings: Readings)
      requires Valid()
      modifies this
      ensures Valid()
      ensures State() == FrameStep(old(State()), ProcessResults(hasVideo, canvasHeight, landmarks, readings))
      ensures countdown == old(countdown)
    {
      if isReady && testStarted {
        var verdict := EvaluateFrame(hasVideo, canvasHeight, landmarks, readings);
        if verdict.Some? {
          isInPosition := verdict.value;
        }
      }
    }
  }
}
