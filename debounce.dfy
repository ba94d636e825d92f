/** The tray client's duplicate-alert gate: a matching message shows an alert
    only when more than ten seconds have passed since the last alert shown by
    the same client. The clock is read only for matching messages; its reading
    is given here as an exact `real`. */
module Debounce {
  import opened Trigger

  /** Seconds within which a repeated alert is suppressed. */
  const WINDOW: real := 10.0

  /** `last_alert_time` of a freshly created client. */
  const NEVER: real := 0.0

  /** The gate: strictly more than WINDOW seconds since the last alert. */
  predicate Elapsed(lastAlertTime: real, now: real) {
    now - lastAlertTime > WINDOW
  }

  /** Whether a message handled at `now` shows an alert: exactly when the
      gate over whole message streams, given that one message, fires at
      `now`. */
  predicate ShouldAlert(payload: string, lastAlertTime: real, now: real)
    ensures AlertTimes(lastAlertTime, [Message(payload, now)]) ==
            if ShouldAlert(payload, lastAlertTime, now) then [now] else []
  {
    MatchTimesOfOne(payload, now);
    assert [now][1..] == [];
    Matches(payload) && Elapsed(lastAlertTime, now)
  }

  /** `last_alert_time` after handling a message at `now`: it stays, or moves
      forward by more than WINDOW, as the gate over readings moves it. */
  function NextAlertTime(payload: string, lastAlertTime: real, now: real): (r: real)
    ensures r == lastAlertTime || r - lastAlertTime > WINDOW
    ensures r == LastAfter(lastAlertTime, MatchTimes([Message(payload, now)]))
  {
    MatchTimesOfOne(payload, now);
    assert [now][1..] == [];
    if ShouldAlert(payload, lastAlertTime, now) then now else lastAlertTime
  }

  // ---------------------------------------------------------------------
  // The gate over the clock readings of matching messages

  /** The readings, among `times`, at which the gate opens, starting from a
      last alert at `last`. Whatever the readings (the clock may even step
      back), every alert comes more than WINDOW after the previous one, and
      the first more than WINDOW after `last`. */
  function Fired(last: real, times: seq<real>): (r: seq<real>)
    ensures |r| <= |times|
    ensures forall i :: 0 <= i < |r| ==> r[i] - last > WINDOW
    ensures forall i, j :: 0 <= i < j < |r| ==> r[j] - r[i] > WINDOW
    decreases |times|
  {
    if times == [] then []
    else if Elapsed(last, times[0]) then [times[0]] + Fired(times[0], times[1..])
    else Fired(last, times[1..])
  }

  /** The last alert time after the gate has seen `times`. */
  function LastAfter(last: real, times: seq<real>): (r: real)
    decreases |times|
  {
    if times == [] then last
    else LastAfter(if Elapsed(last, times[0]) then times[0] else last, times[1..])
  }

  /** The recorded last alert time is always the time of the last alert
      shown, or the starting value when none was shown. */
  lemma {:induction false} LastAfterIsLastFired(last: real, times: seq<real>)
    ensures var r := Fired(last, times);
            LastAfter(last, times) == if r == [] then last else r[|r| - 1]
    decreases |times|
  {
    if times != [] {
      var t := times[0];
      if Elapsed(last, t) {
        LastAfterIsLastFired(t, times[1..]);
      } else {
        LastAfterIsLastFired(last, times[1..]);
      }
    }
  }

  /** Every alert is shown at one of the readings it was given. */
  lemma {:induction false} FiredFromReadings(last: real, times: seq<real>)
    ensures forall t :: t in Fired(last, times) ==> t in times
    decreases |times|
  {
    if times != [] {
      if Elapsed(last, times[0]) {
        FiredFromReadings(times[0], times[1..]);
      } else {
        FiredFromReadings(last, times[1..]);
      }
    }
  }

  // ---------------------------------------------------------------------
  // Messages

  /** A message as the client handles it: decoded payload and the clock
      reading taken when it is handled. */
  datatype Message = Message(payload: string, time: real)

  /** The clock readings of the matching messages, in order. */
  function MatchTimes(msgs: seq<Message>): (r: seq<real>)
    decreases |msgs|
  {
    if msgs == [] then []
    else if Matches(msgs[0].payload) then [msgs[0].time] + MatchTimes(msgs[1..])
    else MatchTimes(msgs[1..])
  }

  /** A single message contributes its time exactly when it matches. */
  lemma MatchTimesOfOne(payload: string, now: real)
    ensures MatchTimes([Message(payload, now)]) == if Matches(payload) then [now] else []
  {
    assert [Message(payload, now)][1..] == [];
  }

  /** The times at which alerts are shown when `msgs` reach, in order, a
      client whose last alert was at `last`. */
  function AlertTimes(last: real, msgs: seq<Message>): (r: seq<real>) {
    Fired(last, MatchTimes(msgs))
  }

  /** AlertTimes follows the client message by message: each message either
      shows an alert at its own time and moves the last alert time there, or
      changes nothing. */
  lemma AlertTimesStep(last: real, m: Message, rest: seq<Message>)
    ensures AlertTimes(last, [m] + rest) ==
            (if ShouldAlert(m.payload, last, m.time) then [m.time] else [])
            + AlertTimes(NextAlertTime(m.payload, last, m.time), rest)
  {
    assert ([m] + rest)[1..] == rest;
  }

  /** The client's `last_alert_time` after handling `msgs` one by one. */
  function LastAlertAfter(last: real, msgs: seq<Message>): (r: real)
    decreases |msgs|
  {
    if msgs == [] then last
    else LastAlertAfter(NextAlertTime(msgs[0].payload, last, msgs[0].time), msgs[1..])
  }

  /** Handling messages one by one moves `last_alert_time` exactly as the gate
      does over the readings of the matching ones. */
  lemma {:induction false} LastAlertAfterFollowsGate(last: real, msgs: seq<Message>)
    ensures LastAlertAfter(last, msgs) == LastAfter(last, MatchTimes(msgs))
    decreases |msgs|
  {
    if msgs != [] {
      var m := msgs[0];
      var next := NextAlertTime(m.payload, last, m.time);
      LastAlertAfterFollowsGate(next, msgs[1..]);
      if Matches(m.payload) {
        assert MatchTimes(msgs) == [m.time] + MatchTimes(msgs[1..]);
        assert ([m.time] + MatchTimes(msgs[1..]))[1..] == MatchTimes(msgs[1..]);
      }
    }
  }

  /** The client's `last_alert_time` is always the time of the last alert it
      showed, or its starting value when it has shown none. */
  lemma ClientRecordsLastAlert(last: real, msgs: seq<Message>)
    ensures var r := AlertTimes(last, msgs);
            LastAlertAfter(last, msgs) == if r == [] then last else r[|r| - 1]
  {
    var times := MatchTimes(msgs);
    LastAlertAfterFollowsGate(last, msgs);
    LastAfterIsLastFired(last, times);
    assert AlertTimes(last, msgs) == Fired(last, times);
  }

  /** A message that does not match shows no alert and moves nothing. */
  lemma NonMatchingIsIgnored(last: real, m: Message, rest: seq<Message>)
    requires !Matches(m.payload)
    ensures AlertTimes(last, [m] + rest) == AlertTimes(last, rest)
    ensures NextAlertTime(m.payload, last, m.time) == last
  {
    assert ([m] + rest)[1..] == rest;
  }

  // ---------------------------------------------------------------------
  // Scenarios on a fresh client

  /** Two matching readings five seconds apart: the first alerts, the second
      is suppressed. */
  lemma SuppressedWithinWindow()
    ensures Fired(NEVER, [100.0, 105.0]) == [100.0]
  {
    var times := [100.0, 105.0];
    assert times[1..] == [105.0];
    assert times[1..][1..] == [];
  }

  /** Exactly ten seconds apart: still suppressed, the comparison is strict. */
  lemma SuppressedAtBoundary()
    ensures Fired(NEVER, [100.0, 110.0]) == [100.0]
  {
    var times := [100.0, 110.0];
    assert times[1..] == [110.0];
    assert times[1..][1..] == [];
  }

  /** Eleven seconds apart: both alert. */
  lemma AlertsAgainAfterWindow()
    ensures Fired(NEVER, [100.0, 111.0]) == [100.0, 111.0]
  {
    var times := [100.0, 111.0];
    assert times[1..] == [111.0];
    assert times[1..][1..] == [];
  }

  /** A fresh client alerts on its first matching message exactly when the
      clock reads more than ten seconds. */
  lemma FirstMatchAlerts(payload: string, now: real)
    requires Matches(payload)
    ensures AlertTimes(NEVER, [Message(payload, now)]) == if now > WINDOW then [now] else []
  {
    assert ShouldAlert(payload, NEVER, now) <==> now > WINDOW;
  }
}
