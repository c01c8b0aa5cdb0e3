/**
 * The relay controller: exclusive owner of the expander driver, which it
 * drives one relay at a time and through whole timed sequences.
 *
 * The controller's mutex only grants exclusive use of the driver, so one
 * sequence run is one uninterrupted method call here. The timed hold after
 * each step advances the driver's ghost clock.
 */
module Relay {
  import opened Hardware
  import opened Tca9554
  import opened Sequence

  /** Register value after driving `relay` to `state` (`set_relay` on the shadow). */
  function Drive(s: bv8, relay: RelayOutput, state: RelayState): bv8
  {
    if state == High then SetBit(s, RelayOrdinal(relay)) else ClearBit(s, RelayOrdinal(relay))
  }

  /** Driving a relay gives its pin the requested level and leaves the other pins as they were. */
  lemma DriveLevels(s: bv8, relay: RelayOutput, state: RelayState)
    ensures forall q: bv8 | q < 8 ::
      Bit(Drive(s, relay, state), q) == if q == RelayOrdinal(relay) then state == High else Bit(s, q)
  {
    if state == High {
      SetBitLevels(s, RelayOrdinal(relay));
    } else {
      ClearBitLevels(s, RelayOrdinal(relay));
    }
  }

  /** One `set_relay` on a driver in state `d`: the shadow is updated, then written out. */
  function Switch(d: ExpanderState, address: bv8, failing: set<nat>, relay: RelayOutput, state: RelayState)
    : (ExpanderState, BusResult)
  {
    var v := Drive(d.shadow, relay, state);
    (ExpanderState(v, d.writes + [Write(address, OUTPUT_PORT, v)], d.times + [d.clock], d.clock),
     if |d.writes| in failing then Err else Ok)
  }

  /**
   * `execute_sequence` as a function of the driver state: each step switches
   * its relay and, when the write succeeded, holds for its duration; the first
   * failed write ends the run with Err.
   */
  function Run(d: ExpanderState, address: bv8, failing: set<nat>, steps: seq<SequenceStep>)
    : (ExpanderState, BusResult)
    decreases steps
  {
    if steps == [] then (d, Ok)
    else
      var (d1, r) := Switch(d, address, failing, steps[0].relay, steps[0].state);
      if r == Err then (d1, Err)
      else Run(d1.(clock := d1.clock + steps[0].durationMs), address, failing, steps[1..])
  }

  /** Register value after applying all of `steps` in order, starting from `s`. */
  function Replay(s: bv8, steps: seq<SequenceStep>): bv8
    decreases steps
  {
    if steps == [] then s
    else Replay(Drive(s, steps[0].relay, steps[0].state), steps[1..])
  }

  /** The output-port writes made by applying all of `steps` in order from register value `s`. */
  function WritesOf(address: bv8, s: bv8, steps: seq<SequenceStep>): (w: seq<Write>)
    ensures |w| == |steps|
    decreases steps
  {
    if steps == [] then []
    else
      var s1 := Drive(s, steps[0].relay, steps[0].state);
      [Write(address, OUTPUT_PORT, s1)] + WritesOf(address, s1, steps[1..])
  }

  /** The clock readings at which those writes are issued, when the first is issued at `t0`. */
  function WriteTimes(t0: nat, steps: seq<SequenceStep>): (t: seq<nat>)
    ensures |t| == |steps|
    decreases steps
  {
    if steps == [] then [] else [t0] + WriteTimes(t0 + steps[0].durationMs, steps[1..])
  }

  /** No bus transaction numbered `base` .. `base + count - 1` fails. */
  predicate AllSucceed(failing: set<nat>, base: nat, count: nat)
  {
    forall k | base <= k < base + count :: k !in failing
  }

  /**
   * How many of `count` consecutive writes, the first numbered `base`, are
   * attempted when a run stops at the first failing one.
   */
  function Attempted(failing: set<nat>, base: nat, count: nat): (n: nat)
    ensures n <= count
    ensures AllSucceed(failing, base, count) ==> n == count
    ensures !AllSucceed(failing, base, count) ==>
      1 <= n && base + n - 1 in failing && AllSucceed(failing, base, n - 1)
    decreases count
  {
    if count == 0 then 0
    else if base in failing then 1
    else 1 + Attempted(failing, base + 1, count - 1)
  }

  /** Unfolds the prefix functions on the first `m + 1` steps into the first step and the next `m`. */
  lemma PrefixUnfold(address: bv8, s: bv8, t0: nat, steps: seq<SequenceStep>, m: nat)
    requires m < |steps|
    ensures var s1 := Drive(s, steps[0].relay, steps[0].state);
      var rest := steps[1..];
      Replay(s, steps[..m + 1]) == Replay(s1, rest[..m])
      && WritesOf(address, s, steps[..m + 1]) == [Write(address, OUTPUT_PORT, s1)] + WritesOf(address, s1, rest[..m])
      && WriteTimes(t0, steps[..m + 1]) == [t0] + WriteTimes(t0 + steps[0].durationMs, rest[..m])
      && TotalHold(steps[..m + 1]) == steps[0].durationMs + TotalHold(rest[..m])
  {
    assert steps[..m + 1][1..] == steps[1..][..m];
  }

  /** A run ends Ok exactly when none of its writes fails. */
  lemma {:induction false} RunResult(d: ExpanderState, address: bv8, failing: set<nat>, steps: seq<SequenceStep>)
    ensures Run(d, address, failing, steps).1 == Ok <==> AllSucceed(failing, |d.writes|, |steps|)
    decreases |steps|
  {
    if steps != [] && |d.writes| !in failing {
      var d1 := Switch(d, address, failing, steps[0].relay, steps[0].state).0;
      RunResult(d1.(clock := d1.clock + steps[0].durationMs), address, failing, steps[1..]);
      assert AllSucceed(failing, |d.writes|, |steps|) <==> AllSucceed(failing, |d.writes| + 1, |steps| - 1);
    }
  }

  /** A run whose first write succeeds continues, after that step's hold, as a run of the remaining steps. */
  lemma RunUnfold(d: ExpanderState, address: bv8, failing: set<nat>, steps: seq<SequenceStep>)
    requires steps != [] && |d.writes| !in failing
    ensures var s1 := Drive(d.shadow, steps[0].relay, steps[0].state);
      var d2 := ExpanderState(s1, d.writes + [Write(address, OUTPUT_PORT, s1)], d.times + [d.clock],
                              d.clock + steps[0].durationMs);
      Run(d, address, failing, steps) == Run(d2, address, failing, steps[1..])
      && Attempted(failing, |d.writes|, |steps|) == 1 + Attempted(failing, |d2.writes|, |steps| - 1)
  {
  }

  /** The first step of a run followed by the writes of the next `m` steps are the writes of the first `m + 1` steps. */
  lemma WritesStep(d: ExpanderState, address: bv8, steps: seq<SequenceStep>, m: nat, e: ExpanderState)
    requires m < |steps|
    requires var s1 := Drive(d.shadow, steps[0].relay, steps[0].state);
      e.shadow == Replay(s1, steps[1..][..m])
      && e.writes == (d.writes + [Write(address, OUTPUT_PORT, s1)]) + WritesOf(address, s1, steps[1..][..m])
      && e.times == (d.times + [d.clock]) + WriteTimes(d.clock + steps[0].durationMs, steps[1..][..m])
    ensures e.shadow == Replay(d.shadow, steps[..m + 1])
    ensures e.writes == d.writes + WritesOf(address, d.shadow, steps[..m + 1])
    ensures e.times == d.times + WriteTimes(d.clock, steps[..m + 1])
  {
    PrefixUnfold(address, d.shadow, d.clock, steps, m);
  }

  /**
   * What a run leaves on the bus and in the shadow: it attempts the steps up
   * to and including the first failing write (all of them if none fails); the
   * bus sees one output-port write per attempted step, in step order, each
   * carrying the register after that step, issued at the clock reading of
   * that moment; the shadow ends at the register after the attempted steps,
   * even when the last write failed.
   */
  lemma {:induction false} RunWrites(d: ExpanderState, address: bv8, failing: set<nat>, steps: seq<SequenceStep>)
    ensures var n := Attempted(failing, |d.writes|, |steps|);
      var d' := Run(d, address, failing, steps).0;
      d'.shadow == Replay(d.shadow, steps[..n])
      && d'.writes == d.writes + WritesOf(address, d.shadow, steps[..n])
      && d'.times == d.times + WriteTimes(d.clock, steps[..n])
    decreases |steps|
  {
    if steps == [] {
      assert steps[..0] == [];
    } else if |d.writes| in failing {
      var s1 := Drive(d.shadow, steps[0].relay, steps[0].state);
      assert Attempted(failing, |d.writes|, |steps|) == 1;
      assert Run(d, address, failing, steps).0
        == ExpanderState(s1, d.writes + [Write(address, OUTPUT_PORT, s1)], d.times + [d.clock], d.clock);
      PrefixUnfold(address, d.shadow, d.clock, steps, 0);
      assert steps[1..][..0] == [];
    } else {
      var s1 := Drive(d.shadow, steps[0].relay, steps[0].state);
      var d2 := ExpanderState(s1, d.writes + [Write(address, OUTPUT_PORT, s1)], d.times + [d.clock],
                              d.clock + steps[0].durationMs);
      RunUnfold(d, address, failing, steps);
      RunWrites(d2, address, failing, steps[1..]);
      var m := Attempted(failing, |d2.writes|, |steps| - 1);
      var e := Run(d2, address, failing, steps[1..]).0;
      WritesStep(d, address, steps, m, e);
      assert Run(d, address, failing, steps).0 == e;
      assert Attempted(failing, |d.writes|, |steps|) == m + 1;
    }
  }

  /** A run on which no write fails holds for the total hold time of its steps. */
  lemma {:induction false} RunClockOk(d: ExpanderState, address: bv8, failing: set<nat>, steps: seq<SequenceStep>)
    requires AllSucceed(failing, |d.writes|, |steps|)
    ensures Run(d, address, failing, steps).0.clock == d.clock + TotalHold(steps)
    decreases |steps|
  {
    if steps != [] {
      var s1 := Drive(d.shadow, steps[0].relay, steps[0].state);
      var d2 := ExpanderState(s1, d.writes + [Write(address, OUTPUT_PORT, s1)], d.times + [d.clock],
                              d.clock + steps[0].durationMs);
      assert |d.writes| !in failing;
      RunUnfold(d, address, failing, steps);
      assert AllSucceed(failing, |d2.writes|, |steps| - 1);
      RunClockOk(d2, address, failing, steps[1..]);
    }
  }

  /** A run on which a write fails holds for the steps before the failing one, and not after it. */
  lemma {:induction false} RunClockErr(d: ExpanderState, address: bv8, failing: set<nat>, steps: seq<SequenceStep>)
    requires !AllSucceed(failing, |d.writes|, |steps|)
    ensures var n := Attempted(failing, |d.writes|, |steps|);
      Run(d, address, failing, steps).0.clock == d.clock + TotalHold(steps[..n - 1])
    decreases |steps|
  {
    if |d.writes| in failing {
      assert steps[..0] == [];
    } else {
      var s1 := Drive(d.shadow, steps[0].relay, steps[0].state);
      var d2 := ExpanderState(s1, d.writes + [Write(address, OUTPUT_PORT, s1)], d.times + [d.clock],
                              d.clock + steps[0].durationMs);
      RunUnfold(d, address, failing, steps);
      assert !AllSucceed(failing, |d2.writes|, |steps| - 1);
      RunClockErr(d2, address, failing, steps[1..]);
      TotalHoldCons(steps, Attempted(failing, |d2.writes|, |steps| - 1) - 1);
    }
  }

  /**
   * A run advances the clock by the holds of exactly the steps whose write
   * succeeded: all attempted steps when it ends Ok, all but the failing last
   * one when it ends Err.
   */
  lemma RunClock(d: ExpanderState, address: bv8, failing: set<nat>, steps: seq<SequenceStep>)
    ensures var n := Attempted(failing, |d.writes|, |steps|);
      var held := if Run(d, address, failing, steps).1 == Ok then n else n - 1;
      0 <= held <= |steps| && Run(d, address, failing, steps).0.clock == d.clock + TotalHold(steps[..held])
  {
    RunResult(d, address, failing, steps);
    if AllSucceed(failing, |d.writes|, |steps|) {
      RunClockOk(d, address, failing, steps);
      assert steps[..|steps|] == steps;
    } else {
      RunClockErr(d, address, failing, steps);
    }
  }

  /**
   * On a bus where none of the run's writes fails, a run returns Ok after
   * exactly one write per step; the shadow ends at the register after all
   * steps and the clock has advanced by the sequence's total hold.
   */
  lemma HealthyRun(d: ExpanderState, address: bv8, failing: set<nat>, steps: seq<SequenceStep>)
    requires AllSucceed(failing, |d.writes|, |steps|)
    ensures var (d', r) := Run(d, address, failing, steps);
      r == Ok
      && d'.shadow == Replay(d.shadow, steps)
      && d'.writes == d.writes + WritesOf(address, d.shadow, steps)
      && |d'.writes| == |d.writes| + |steps|
      && d'.clock == d.clock + TotalHold(steps)
  {
    RunResult(d, address, failing, steps);
    RunWrites(d, address, failing, steps);
    RunClock(d, address, failing, steps);
    assert steps[..|steps|] == steps;
  }

  /**
   * When some write of a run fails, the run returns Err and the failing write
   * is the last one on the bus: the steps after it are never attempted.
   */
  lemma FailedRunStops(d: ExpanderState, address: bv8, failing: set<nat>, steps: seq<SequenceStep>)
    requires !AllSucceed(failing, |d.writes|, |steps|)
    ensures var (d', r) := Run(d, address, failing, steps);
      var n := Attempted(failing, |d.writes|, |steps|);
      r == Err && 1 <= n <= |steps|
      && |d'.writes| == |d.writes| + n
      && |d'.writes| - 1 in failing
      && forall k | |d.writes| <= k < |d'.writes| - 1 :: k !in failing
  {
    RunResult(d, address, failing, steps);
    RunWrites(d, address, failing, steps);
  }

  /** A run whose steps never drive `relay` leaves that relay's level alone. */
  lemma {:induction false} ReplayUntouched(s: bv8, steps: seq<SequenceStep>, relay: RelayOutput)
    requires forall k | 0 <= k < |steps| :: steps[k].relay != relay
    ensures Bit(Replay(s, steps), RelayOrdinal(relay)) == Bit(s, RelayOrdinal(relay))
    decreases |steps|
  {
    if steps != [] {
      ReplayUntouched(Drive(s, steps[0].relay, steps[0].state), steps[1..], relay);
      DriveLevels(s, steps[0].relay, steps[0].state);
      RelayOrdinalInjective(steps[0].relay, relay);
    }
  }

  /** When step `k` is the last one that drives `relay`, the relay ends at step `k`'s level. */
  lemma {:induction false} ReplayLastWins(s: bv8, steps: seq<SequenceStep>, relay: RelayOutput, k: nat)
    requires k < |steps| && steps[k].relay == relay
    requires forall j | k < j < |steps| :: steps[j].relay != relay
    ensures Bit(Replay(s, steps), RelayOrdinal(relay)) == (steps[k].state == High)
    decreases k
  {
    var s1 := Drive(s, steps[0].relay, steps[0].state);
    if k == 0 {
      ReplayUntouched(s1, steps[1..], relay);
      DriveLevels(s, steps[0].relay, steps[0].state);
    } else {
      ReplayLastWins(s1, steps[1..], relay, k - 1);
    }
  }

  /** The k-th write of a run carries the register value after its first k + 1 steps. */
  lemma {:induction false} WritesOfAt(address: bv8, s: bv8, steps: seq<SequenceStep>, k: nat)
    requires k < |steps|
    ensures WritesOf(address, s, steps)[k] == Write(address, OUTPUT_PORT, Replay(s, steps[..k + 1]))
    decreases k
  {
    var s1 := Drive(s, steps[0].relay, steps[0].state);
    if k == 0 {
      assert steps[..1][1..] == [];
    } else {
      WritesOfAt(address, s1, steps[1..], k - 1);
      assert steps[..k + 1][1..] == steps[1..][..k];
    }
  }

  /** The k-th write of a run is issued after the holds of the k steps before it. */
  lemma {:induction false} WriteTimesAt(t0: nat, steps: seq<SequenceStep>, k: nat)
    requires k < |steps|
    ensures WriteTimes(t0, steps)[k] == t0 + TotalHold(steps[..k])
    decreases k
  {
    if k == 0 {
      assert steps[..0] == [];
    } else {
      WriteTimesAt(t0 + steps[0].durationMs, steps[1..], k - 1);
      assert steps[..k][1..] == steps[1..][..k - 1];
    }
  }

  /** Consecutive writes of a run are separated by exactly the hold of the earlier step. */
  lemma WriteTimesGap(t0: nat, steps: seq<SequenceStep>, k: nat)
    requires k + 1 < |steps|
    ensures WriteTimes(t0, steps)[k + 1] == WriteTimes(t0, steps)[k] + steps[k].durationMs
  {
    WriteTimesAt(t0, steps, k);
    WriteTimesAt(t0, steps, k + 1);
    TotalHoldSnoc(steps, k);
  }

  /**
   * A sequence that drives only `relay` and ends with a Low step leaves that
   * relay off and every other pin as it found it.
   */
  lemma SingleRelayEndsOff(s: bv8, steps: seq<SequenceStep>, relay: RelayOutput)
    requires OnlyRelay(steps, relay) && EndsLow(steps)
    ensures Replay(s, steps) == ClearBit(s, RelayOrdinal(relay))
  {
    ClearBitLevels(s, RelayOrdinal(relay));
    forall q: bv8 | q < 8
      ensures Bit(Replay(s, steps), q) == Bit(ClearBit(s, RelayOrdinal(relay)), q)
    {
      if q == RelayOrdinal(relay) {
        ReplayLastWins(s, steps, relay, |steps| - 1);
      } else {
        RelayOrdinalInjective(RelayAt(q), relay);
        ReplayUntouched(s, steps, RelayAt(q));
      }
    }
    BitsDetermine(Replay(s, steps), ClearBit(s, RelayOrdinal(relay)));
  }

  /** After a complete run, JUMP_SCARE leaves relay 1 off and SNAKE_SEQUENCE leaves relay 2 off; nothing else changes. */
  lemma SequencesEndOff(s: bv8)
    ensures Replay(s, JUMP_SCARE) == ClearBit(s, 0)
    ensures Replay(s, SNAKE_SEQUENCE) == ClearBit(s, 1)
  {
    JumpScareShape();
    SnakeShape();
    SingleRelayEndsOff(s, JUMP_SCARE, Relay1);
    SingleRelayEndsOff(s, SNAKE_SEQUENCE, Relay2);
  }

  /**
   * JUMP_SCARE from an all-off register on a healthy bus: the bus sees
   * `[0x01, 0x01]` and then, 1000 ms later, `[0x01, 0x00]`; the register ends
   * all-off and the clock 1000 ms later than it started.
   */
  lemma JumpScareFromAllOff(address: bv8, failing: set<nat>, d: ExpanderState)
    requires d.shadow == 0
    requires |d.writes| !in failing && |d.writes| + 1 !in failing
    ensures Run(d, address, failing, JUMP_SCARE) ==
      (ExpanderState(0,
                     d.writes + [Write(address, OUTPUT_PORT, 0x01), Write(address, OUTPUT_PORT, 0x00)],
                     d.times + [d.clock, d.clock + 1000],
                     d.clock + 1000),
       Ok)
  {
    assert Drive(0, Relay1, High) == 0x01;
    assert Drive(0x01, Relay1, Low) == 0x00;
    RunUnfold(d, address, failing, JUMP_SCARE);
    var d2 := ExpanderState(0x01, d.writes + [Write(address, OUTPUT_PORT, 0x01)], d.times + [d.clock], d.clock + 1000);
    assert JUMP_SCARE[1..][0] == SequenceStep(Relay1, Low, 0);
    RunUnfold(d2, address, failing, JUMP_SCARE[1..]);
    var d3 := ExpanderState(0x00, d2.writes + [Write(address, OUTPUT_PORT, 0x00)], d2.times + [d2.clock], d2.clock);
    assert Run(d2, address, failing, JUMP_SCARE[1..]) == Run(d3, address, failing, JUMP_SCARE[1..][1..]);
    assert JUMP_SCARE[1..][1..] == [];
    assert Run(d, address, failing, JUMP_SCARE) == Run(d2, address, failing, JUMP_SCARE[1..]);
    assert d3.writes == d.writes + [Write(address, OUTPUT_PORT, 0x01), Write(address, OUTPUT_PORT, 0x00)];
    assert d3.times == d.times + [d.clock, d.clock + 1000];
  }

  class RelayController {
    const expander: Tca9554

    /** `RelayController::new`: takes ownership of the driver. */
    constructor (expander: Tca9554)
      ensures this.expander == expander
    {
      this.expander := expander;
    }

    /** Delegates to the driver's initialisation and passes its result on unchanged. */
    method Init() returns (r: BusResult)
      modifies expander
      ensures expander.clock == old(expander.clock)
      ensures |old(expander.writes)| in expander.failing ==>
        r == Err && expander.writes == old(expander.writes) + [Write(expander.address, CONFIGURATION, 0)]
        && expander.times == old(expander.times) + [expander.clock]
        && expander.outputState == old(expander.outputState)
      ensures |old(expander.writes)| !in expander.failing ==>
        expander.writes == old(expander.writes)
          + [Write(expander.address, CONFIGURATION, 0), Write(expander.address, OUTPUT_PORT, 0)]
        && expander.times == old(expander.times) + [expander.clock, expander.clock]
        && (r == Ok <==> |old(expander.writes)| + 1 !in expander.failing)
        && expander.outputState == (if r == Ok then 0 else old(expander.outputState))
    {
      r := expander.Init();
    }

    /** Drives one relay: High through `set_pin_high`, Low through `set_pin_low`, on the relay's ordinal. */
    method SetRelay(relay: RelayOutput, state: RelayState) returns (r: BusResult)
      modifies expander
      ensures (expander.State(), r)
        == Switch(old(expander.State()), expander.address, expander.failing, relay, state)
    {
      var pin := RelayOrdinal(relay);
      match state
      case High => r := expander.SetPinHigh(pin);
      case Low => r := expander.SetPinLow(pin);
    }

    /**
     * Runs `steps` in order: one relay write per step, then the step's hold.
     * The first failed write ends the run at once with Err.
     */
    method ExecuteSequence(steps: seq<SequenceStep>) returns (r: BusResult)
      modifies expander
      ensures (expander.State(), r)
        == Run(old(expander.State()), expander.address, expander.failing, steps)
    {
      ghost var d0 := expander.State();
      var i := 0;
      while i < |steps|
        invariant 0 <= i <= |steps|
        invariant Run(d0, expander.address, expander.failing, steps)
          == Run(expander.State(), expander.address, expander.failing, steps[i..])
      {
        var step := steps[i];
        assert steps[i..][0] == step && steps[i..][1..] == steps[i + 1..];
        r := SetRelay(step.relay, step.state);
        if r == Err {
          return;
        }
        expander.clock := expander.clock + step.durationMs;
        i := i + 1;
      }
      r := Ok;
    }

    /** Delegates to the driver's all-off and passes its result on unchanged. */
    method AllOff() returns (r: BusResult)
      modifies expander
      ensures expander.clock == old(expander.clock)
      ensures expander.outputState == 0
      ensures expander.writes == old(expander.writes) + [Write(expander.address, OUTPUT_PORT, 0)]
      ensures expander.times == old(expander.times) + [expander.clock]
      ensures r == Ok <==> |old(expander.writes)| !in expander.failing
    {
      r := expander.AllOff();
    }
  }
}
