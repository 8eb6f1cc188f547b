/** The countdown of `useCountdown`: three state variables (`timeLeft`, the
    running interval `timer`, and `endTime`) changed by setting the end time,
    by the interval firing once a second, and by clearing; `onComplete` fires
    when a running timer sees no time left. The clock is a parameter `now` (in
    milliseconds) and each interval callback is an explicit tick. */
module Countdown {
  import opened Wrappers

  /** JavaScript truthiness of the end time: null and 0 are falsy. */
  predicate IsSet(endTime: Option<int>) {
    endTime.Some? && endTime.value != 0
  }

  /** `Math.max(end - now, 0)`: the larger of the time to the deadline and 0. */
  function Remaining(end: int, now: int): (r: nat)
    ensures r >= end - now
    ensures r == end - now || r == 0
  {
    if end - now > 0 then end - now else 0
  }

  /** `getTimeLeft()`: a falsy end time is returned as it is, a truthy one
      gives the clamped remaining time. It is unset when the end time is
      unset, never negative, and for a truthy end time it counts down to the
      deadline and stays at 0 from then on. */
  function TimeLeftAt(endTime: Option<int>, now: int): (r: Option<int>)
    ensures r.None? <==> endTime.None?
    ensures r.Some? ==> r.value >= 0
    ensures endTime == Some(0) ==> r == Some(0)
    ensures IsSet(endTime) && now < endTime.value ==> r == Some(endTime.value - now)
    ensures IsSet(endTime) && now >= endTime.value ==> r == Some(0)
  {
    match endTime
    case None => None
    case Some(e) => if e == 0 then Some(0) else Some(Remaining(e, now))
  }

  /** The remaining time never grows as the clock advances. */
  lemma TimeLeftNonIncreasing(endTime: Option<int>, now1: int, now2: int)
    requires endTime.Some? && now1 <= now2
    ensures TimeLeftAt(endTime, now2).value <= TimeLeftAt(endTime, now1).value
  {
  }

  /** The hook's state. `timer` is the running interval, if any; it carries
      the end time its callback captured when it was started, which the
      callback keeps using whatever `endTime` becomes later. */
  datatype State = State(timeLeft: int, timer: Option<int>, endTime: Option<int>)

  /** A state after one operation, and whether `onComplete` fired during it. */
  datatype Stepped = Stepped(state: State, fired: bool)

  /** The state after mounting. */
  const INITIAL: State := State(0, None, None)

  /** A settled state: no time is negative, and a running timer still has time
      left and a truthy captured end time. */
  predicate Inv(s: State) {
    s.timeLeft >= 0 && (s.timer.Some? ==> s.timeLeft > 0 && s.timer.value != 0)
  }

  /** `clearTimer()`: no time left, no timer; the end time is kept. */
  function Cleared(s: State): (r: State)
    ensures r.timeLeft == 0 && r.timer.None? && r.endTime == s.endTime
    ensures Inv(r)
  {
    s.(timeLeft := 0, timer := None)
  }

  /** The completion effect: a running timer that sees no time left is
      cleared and `onComplete` fires. Afterwards the state is settled. */
  function Settle(s: State): (r: Stepped)
    ensures r.fired <==> s.timer.Some? && s.timeLeft == 0
    ensures r.fired ==> r.state == Cleared(s)
    ensures !r.fired ==> r.state == s
    ensures s.timeLeft >= 0 && (s.timer.Some? ==> s.timer.value != 0) ==> Inv(r.state)
  {
    if s.timer.Some? && s.timeLeft == 0 then Stepped(Cleared(s), true) else Stepped(s, false)
  }

  /** `setEndTime(e)` at time `now`. Setting the current value again changes
      nothing. A falsy value is stored but starts nothing, and an interval
      that is already running goes on. A truthy new value replaces any
      running timer with exactly one new one counting down to `e`, and
      completes at once when `e` is already past. */
  function AfterSetEnd(s: State, e: Option<int>, now: int): (r: Stepped)
    ensures e == s.endTime ==> r == Stepped(s, false)
    ensures r.state.endTime == e
    ensures e != s.endTime && !IsSet(e) ==> !r.fired && r.state.timer == s.timer && r.state.timeLeft == s.timeLeft
    ensures e != s.endTime && IsSet(e) ==> (r.fired <==> now >= e.value)
    ensures e != s.endTime && IsSet(e) && now >= e.value ==> r.state.timer.None? && r.state.timeLeft == 0
    ensures e != s.endTime && IsSet(e) && now < e.value
            ==> r.state.timer == Some(e.value) && r.state.timeLeft == e.value - now
    ensures Inv(s) ==> Inv(r.state)
  {
    if e == s.endTime then Stepped(s, false)
    else if !IsSet(e) then Stepped(s.(endTime := e), false)
    else
      var started := Cleared(s.(endTime := e)).(timeLeft := TimeLeftAt(e, now).value, timer := Some(e.value));
      Settle(started)
  }

  /** The interval callback at time `now`: it recomputes the time left from
      the end time it captured and completes once the deadline is reached.
      Without a running timer nothing happens. */
  function AfterTick(s: State, now: int): (r: Stepped)
    ensures s.timer.None? ==> r == Stepped(s, false)
    ensures r.state.endTime == s.endTime
    ensures s.timer.Some? && s.timer.value != 0 ==> (r.fired <==> now >= s.timer.value)
    ensures s.timer.Some? && s.timer.value != 0 && now < s.timer.value
            ==> r.state.timer == s.timer && r.state.timeLeft == s.timer.value - now
    ensures s.timer.Some? && s.timer.value != 0 && now >= s.timer.value ==> r.state == Cleared(s)
    ensures Inv(s) ==> Inv(r.state)
  {
    match s.timer
    case None => Stepped(s, false)
    case Some(d) => Settle(s.(timeLeft := TimeLeftAt(Some(d), now).value))
  }

  /** Clearing twice is clearing once. */
  lemma ClearedIdempotent(s: State)
    ensures Cleared(Cleared(s)) == Cleared(s)
  {
  }

  /** What can happen to the hook. */
  datatype Event = EndTimeSet(e: Option<int>, now: int) | IntervalFired(now: int) | ClearCalled

  function Step(s: State, ev: Event): (r: Stepped)
    ensures Inv(s) ==> Inv(r.state)
    ensures ev.ClearCalled? ==> !r.fired
  {
    match ev
    case EndTimeSet(e, now) => AfterSetEnd(s, e, now)
    case IntervalFired(now) => AfterTick(s, now)
    case ClearCalled => Stepped(Cleared(s), false)
  }

  /** Final state and number of `onComplete` calls of a sequence of events. */
  datatype Outcome = Outcome(state: State, completions: nat)

  function Run(s: State, evs: seq<Event>): (r: Outcome)
    decreases |evs|
  {
    if evs == [] then Outcome(s, 0)
    else
      var st := Step(s, evs[0]);
      var rest := Run(st.state, evs[1..]);
      Outcome(rest.state, rest.completions + (if st.fired then 1 else 0))
  }

  /** Number of events that set a truthy end time. */
  function Starts(evs: seq<Event>): nat
    decreases |evs|
  {
    if evs == [] then 0
    else Starts(evs[1..]) + (if evs[0].EndTimeSet? && IsSet(evs[0].e) then 1 else 0)
  }

  function Running(s: State): nat {
    if s.timer.Some? then 1 else 0
  }

  /** One event fires `onComplete` only by stopping the running timer, and
      only a truthy end time starts one. */
  lemma StepBound(s: State, ev: Event)
    ensures var r := Step(s, ev);
      (if r.fired then 1 else 0) + Running(r.state)
      <= Running(s) + (if ev.EndTimeSet? && IsSet(ev.e) then 1 else 0)
  {
  }

  /** Every completion is paid for by a timer: over any sequence of events the
      completions plus a timer still running never exceed the timer running
      at the start plus the truthy end times set. */
  lemma {:induction false} CompletionsBounded(s: State, evs: seq<Event>)
    ensures Run(s, evs).completions + Running(Run(s, evs).state) <= Running(s) + Starts(evs)
    decreases |evs|
  {
    if evs != [] {
      StepBound(s, evs[0]);
      CompletionsBounded(Step(s, evs[0]).state, evs[1..]);
    }
  }

  /** From mount, `onComplete` fires at most once per truthy end time set. */
  lemma CompletesAtMostOncePerStart(evs: seq<Event>)
    ensures Run(INITIAL, evs).completions <= Starts(evs)
  {
    CompletionsBounded(INITIAL, evs);
  }

  /** Any sequence of events keeps the state settled. */
  lemma {:induction false} RunKeepsInv(s: State, evs: seq<Event>)
    requires Inv(s)
    ensures Inv(Run(s, evs).state)
    decreases |evs|
  {
    if evs != [] {
      RunKeepsInv(Step(s, evs[0]).state, evs[1..]);
    }
  }

  /** A deadline that is already past completes on the first step: setting it
      fires `onComplete` once and leaves nothing running. */
  lemma PastDeadlineCompletesAtOnce(s: State, e: int, now: int)
    requires e != 0 && e <= now && s.endTime != Some(e)
    ensures Run(s, [EndTimeSet(Some(e), now)]) == Outcome(State(0, None, Some(e)), 1)
  {
  }

  /** A timer started for a future deadline, then ticked at or after it,
      completes exactly once and leaves nothing running. */
  lemma FutureDeadlineCompletesOnLateTick(s: State, e: int, now: int, later: int)
    requires e != 0 && now < e <= later && s.endTime != Some(e)
    ensures Run(s, [EndTimeSet(Some(e), now), IntervalFired(later)]) == Outcome(State(0, None, Some(e)), 1)
  {
    var evs := [EndTimeSet(Some(e), now), IntervalFired(later)];
    var started := AfterSetEnd(s, Some(e), now);
    assert started == Stepped(State(e - now, Some(e), Some(e)), false);
    assert AfterTick(started.state, later) == Stepped(State(0, None, Some(e)), true);
    assert evs[1..] == [IntervalFired(later)];
    assert Run(started.state, evs[1..]) == Outcome(State(0, None, Some(e)), 1);
  }

  /** The hook as a stateful object. */
  class CountdownHook {
    var timeLeft: int
    var timer: Option<int>
    var endTime: Option<int>

    function Current(): State
      reads this
    {
      State(timeLeft, timer, endTime)
    }

    ghost predicate Valid()
      reads this
    {
      Inv(Current())
    }

    /** Mount: no time left, no timer, no end time. */
    constructor ()
      ensures Valid()
      ensures Current() == INITIAL
    {
      timeLeft := 0;
      timer := None;
      endTime := None;
    }

    /** `clearTimer()`, also handed to the caller. */
    method ClearTimer()
      modifies this
      ensures Current() == Cleared(old(Current()))
    {
      timeLeft := 0;
      timer := None;
    }

    /** The completion effect; returns whether `onComplete` fired. */
    method CompleteIfDue() returns (fired: bool)
      modifies this
      ensures Stepped(Current(), fired) == Settle(old(Current()))
    {
      fired := timer.Some? && timeLeft == 0;
      if fired {
        ClearTimer();
      }
    }

    /** `setEndTime(e)` at time `now`, with the effects it triggers. */
    method SetEndTime(e: Option<int>, now: int) returns (fired: bool)
      requires Valid()
      modifies this
      ensures Valid()
      ensures Stepped(Current(), fired) == AfterSetEnd(old(Current()), e, now)
    {
      fired := false;
      if e == endTime {
        return;
      }
      endTime := e;
      if IsSet(e) {
        ClearTimer();
        timeLeft := TimeLeftAt(endTime, now).value;
        timer := Some(e.value);
        fired := CompleteIfDue();
      }
    }

    /** The interval callback at time `now`, with the completion effect. */
    method Tick(now: int) returns (fired: bool)
      requires Valid()
      modifies this
      ensures Valid()
      ensures Stepped(Current(), fired) == AfterTick(old(Current()), now)
    {
      fired := false;
      if timer.Some? {
        timeLeft := TimeLeftAt(timer, now).value;
        fired := CompleteIfDue();
      }
    }
  }
}
