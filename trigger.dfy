/** The audio trigger / timeout state machine that SimpleARView.renderLoop runs
    once per rendered frame, stated as pure functions over a two-field state.
    A loud enough microphone reading starts the clip ("play") once; the clip is
    stopped once more than Window seconds have passed since the last update
    time, which the tick reads BEFORE a trigger in the same tick overwrites it. */
module Trigger {

  /** An audio command issued to the pinwheel's audio playback controller. */
  datatype Command = Play | Stop

  /** hasBeenTriggered and lastUpdateTime (seconds) of SimpleARView. */
  datatype TriggerState = TriggerState(triggered: bool, lastUpdate: real)

  /** What one tick reads: the averaged channel power in decibels and the clock. */
  datatype Reading = Reading(level: real, now: real)

  /** The state after some ticks and the commands they issued, in order. */
  datatype Outcome = Outcome(state: TriggerState, cmds: seq<Command>)

  /** Decibel level a reading must strictly exceed to trigger playback. */
  const Threshold: real := -6.0

  /** Seconds after the last update beyond which a triggered clip is stopped. */
  const Window: real := 19.0

  /** One tick. The elapsed time is taken from the state as it was on entry;
      the trigger branch runs first, then the stop branch. */
  function Step(s: TriggerState, r: Reading): Outcome
  {
    var elapsed := r.now - s.lastUpdate;
    var fire := r.level > Threshold && !s.triggered;
    var mid := if fire then TriggerState(true, r.now) else s;
    var stop := elapsed > Window && mid.triggered;
    Outcome(if stop then TriggerState(false, r.now) else mid,
            if fire && stop then [Play, Stop]
            else if fire then [Play]
            else if stop then [Stop]
            else [])
  }

  /** What one tick promises. */
  lemma TickContract(s: TriggerState, r: Reading)
    // Strict threshold and debounce: play exactly when loud and not yet triggered.
    ensures Play in Step(s, r).cmds <==> r.level > Threshold && !s.triggered
    // Stop when triggered after the trigger branch and the entry elapsed time exceeds the window.
    ensures Stop in Step(s, r).cmds <==>
              (s.triggered || Play in Step(s, r).cmds) && r.now - s.lastUpdate > Window
    // Each command is issued at most once, Play first.
    ensures |Step(s, r).cmds| ==
              (if Play in Step(s, r).cmds then 1 else 0) + (if Stop in Step(s, r).cmds then 1 else 0)
    ensures Play in Step(s, r).cmds ==> Step(s, r).cmds[0] == Play
    // After a stop the machine is idle and stamped with this tick's time.
    ensures Stop in Step(s, r).cmds ==> Step(s, r).state == TriggerState(false, r.now)
    // A trigger without a same-tick stop leaves the machine triggered at this tick's time.
    ensures Play in Step(s, r).cmds && Stop !in Step(s, r).cmds ==>
              Step(s, r).state == TriggerState(true, r.now)
    // A tick that issues nothing changes nothing.
    ensures Play !in Step(s, r).cmds && Stop !in Step(s, r).cmds ==> Step(s, r).state == s
  {
  }

  /** Consecutive ticks, starting from state s. */
  function Run(s: TriggerState, rs: seq<Reading>): Outcome
    decreases |rs|
  {
    if rs == [] then Outcome(s, [])
    else
      var first := Step(s, rs[0]);
      var rest := Run(first.state, rs[1..]);
      Outcome(rest.state, first.cmds + rest.cmds)
  }

  /** The triggered flag after n commands, each of which toggles it. */
  function Flip(t: bool, n: nat): bool
  {
    if n % 2 == 0 then t else !t
  }

  /** Play and Stop strictly alternate, beginning with Stop when the machine
      starts triggered and with Play when it starts idle. */
  predicate Alternating(cmds: seq<Command>, triggered: bool)
    decreases |cmds|
  {
    cmds == [] || (cmds[0] == (if triggered then Stop else Play) && Alternating(cmds[1..], !triggered))
  }

  /** A same-tick trigger and stop: a trigger whose previous update lies more
      than Window seconds back plays and stops at once and ends idle. */
  lemma SameTickStop(s: TriggerState, r: Reading)
    requires !s.triggered && r.level > Threshold && r.now - s.lastUpdate > Window
    ensures Step(s, r) == Outcome(TriggerState(false, r.now), [Play, Stop])
  {
  }

  /** A single tick keeps the alternation and toggles the flag once per command. */
  lemma StepAlternates(s: TriggerState, r: Reading)
    ensures Alternating(Step(s, r).cmds, s.triggered)
    ensures Step(s, r).state.triggered == Flip(s.triggered, |Step(s, r).cmds|)
  {
  }

  /** Toggling m times and then n times is toggling m + n times. */
  lemma FlipAdd(t: bool, m: nat, n: nat)
    ensures Flip(Flip(t, m), n) == Flip(t, m + n)
  {
  }

  /** Two alternating streams joined where the first leaves the flag alternate as one. */
  lemma {:induction false} AlternatingAppend(a: seq<Command>, b: seq<Command>, t: bool)
    requires Alternating(a, t) && Alternating(b, Flip(t, |a|))
    ensures Alternating(a + b, t)
    decreases |a|
  {
    if a != [] {
      FlipAdd(t, 1, |a| - 1);
      AlternatingAppend(a[1..], b, !t);
      assert (a + b)[0] == a[0];
      assert (a + b)[1..] == a[1..] + b;
    } else {
      assert a + b == b;
    }
  }

  /** A tick extends an alternating command log that started idle, and the
      flag after the tick is still the one the extended log ends in. */
  lemma AppendTickAlternates(log: seq<Command>, s: TriggerState, r: Reading)
    requires Alternating(log, false) && s.triggered == Flip(false, |log|)
    ensures Alternating(log + Step(s, r).cmds, false)
    ensures Step(s, r).state.triggered == Flip(false, |log + Step(s, r).cmds|)
  {
    StepAlternates(s, r);
    AlternatingAppend(log, Step(s, r).cmds, false);
    FlipAdd(false, |log|, |Step(s, r).cmds|);
  }

  /** Running ticks one batch after another is one run over both batches. */
  lemma {:induction false} RunAppend(s: TriggerState, a: seq<Reading>, b: seq<Reading>)
    ensures Run(s, a + b).state == Run(Run(s, a).state, b).state
    ensures Run(s, a + b).cmds == Run(s, a).cmds + Run(Run(s, a).state, b).cmds
    decreases |a|
  {
    if a == [] {
      assert a + b == b;
    } else {
      var ab := a + b;
      var first := Step(s, a[0]);
      assert ab[0] == a[0];
      assert ab[1..] == a[1..] + b;
      var rest := Run(first.state, ab[1..]);
      assert Run(s, ab) == Outcome(rest.state, first.cmds + rest.cmds);
      RunAppend(first.state, a[1..], b);
      var mid := Run(first.state, a[1..]);
      assert Run(s, a) == Outcome(mid.state, first.cmds + mid.cmds);
      var last := Run(mid.state, b);
      assert rest == Outcome(last.state, mid.cmds + last.cmds);
      assert first.cmds + (mid.cmds + last.cmds) == (first.cmds + mid.cmds) + last.cmds;
    }
  }

  /** Debounce over any sequence of readings: the commands of a run alternate,
      so no second Play is issued before a Stop, and the final flag is the
      initial one toggled once per command. */
  lemma {:induction false} RunAlternates(s: TriggerState, rs: seq<Reading>)
    ensures Alternating(Run(s, rs).cmds, s.triggered)
    ensures Run(s, rs).state.triggered == Flip(s.triggered, |Run(s, rs).cmds|)
    decreases |rs|
  {
    if rs != [] {
      var first := Step(s, rs[0]);
      StepAlternates(s, rs[0]);
      RunAlternates(first.state, rs[1..]);
      AlternatingAppend(first.cmds, Run(first.state, rs[1..]).cmds, s.triggered);
      FlipAdd(s.triggered, |first.cmds|, |Run(first.state, rs[1..]).cmds|);
    }
  }

  /** In an alternating stream no command is immediately repeated. */
  lemma {:induction false} AlternatingNoRepeat(cmds: seq<Command>, t: bool, i: nat)
    requires Alternating(cmds, t) && i + 1 < |cmds|
    ensures cmds[i] != cmds[i + 1]
    decreases i
  {
    if i > 0 {
      AlternatingNoRepeat(cmds[1..], !t, i - 1);
    } else {
      assert cmds[1..][0] == cmds[1];
    }
  }

  /** At most one Play between two Stops: in an alternating stream, such as
      the commands of any run, any two Plays are separated by a Stop. */
  lemma PlaysSeparatedByStop(cmds: seq<Command>, t: bool, i: nat, j: nat)
    requires Alternating(cmds, t)
    requires i < j < |cmds| && cmds[i] == Play && cmds[j] == Play
    ensures exists k :: i < k < j && cmds[k] == Stop
  {
    AlternatingNoRepeat(cmds, t, i);
    assert cmds[i + 1] == Stop;
  }

  /** Every reading lies at most Window seconds after t0. */
  predicate Within(t0: real, rs: seq<Reading>)
  {
    forall i :: 0 <= i < |rs| ==> rs[i].now - t0 <= Window
  }

  /** Timeout window, first half: once triggered at t0, the machine stays
      triggered at t0 and issues nothing on every tick within the window,
      whatever the levels. */
  lemma {:induction false} StaysTriggered(t0: real, rs: seq<Reading>)
    requires Within(t0, rs)
    ensures Run(TriggerState(true, t0), rs) == Outcome(TriggerState(true, t0), [])
    decreases |rs|
  {
    if rs != [] {
      assert rs[0].now - t0 <= Window;
      assert Within(t0, rs[1..]) by {
        forall i | 0 <= i < |rs[1..]| ensures rs[1..][i].now - t0 <= Window {
          assert rs[1..][i] == rs[i + 1];
        }
      }
      StaysTriggered(t0, rs[1..]);
    }
  }

  /** Timeout window, second half: the first tick past the window stops the
      clip and leaves the machine idle, stamped with that tick's time. */
  lemma ResetsAfterWindow(t0: real, rs: seq<Reading>, r: Reading)
    requires Within(t0, rs) && r.now - t0 > Window
    ensures Run(TriggerState(true, t0), rs + [r]) == Outcome(TriggerState(false, r.now), [Stop])
  {
    var s := TriggerState(true, t0);
    StaysTriggered(t0, rs);
    RunAppend(s, rs, [r]);
    assert [r][1..] == [];
  }

  /** The threshold is strict: from idle, and within the window, a reading of
      exactly -6.0 dB issues nothing, while one a hundredth of a decibel louder
      plays. */
  lemma ThresholdIsStrict(t: real, now: real)
    requires now - t <= Window
    ensures Step(TriggerState(false, t), Reading(Threshold, now)) == Outcome(TriggerState(false, t), [])
    ensures Step(TriggerState(false, t), Reading(Threshold + 0.01, now)) == Outcome(TriggerState(true, now), [Play])
  {
  }

  /** Readings one second apart: only -5.9 dB exceeds the threshold while the
      view is idle, and the louder readings after it are debounced. */
  lemma ScenarioPlaysOnce()
    ensures Run(TriggerState(false, 0.0),
                [Reading(-10.0, 0.0), Reading(-7.0, 1.0), Reading(-5.9, 2.0),
                 Reading(-6.0, 3.0), Reading(-3.0, 4.0)])
            == Outcome(TriggerState(true, 2.0), [Play])
  {
    var rs := [Reading(-10.0, 0.0), Reading(-7.0, 1.0), Reading(-5.9, 2.0),
               Reading(-6.0, 3.0), Reading(-3.0, 4.0)];
    var s0 := TriggerState(false, 0.0);
    assert rs == rs[..3] + rs[3..];
    RunAppend(s0, rs[..3], rs[3..]);
    assert Within(2.0, rs[3..]);
    StaysTriggered(2.0, rs[3..]);
  }
}
