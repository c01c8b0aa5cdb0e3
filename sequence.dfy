/**
 * Timed relay sequences: a sequence is an ordered list of steps, each driving
 * one relay to a level and then holding for a number of milliseconds. The two
 * sequences the prop ships with are fixed constants.
 */
module Sequence {
  import opened Hardware

  /** `SequenceStep::new(relay, state, duration_ms)`. */
  datatype SequenceStep = SequenceStep(relay: RelayOutput, state: RelayState, durationMs: nat)

  /** Relay 1 on for one second, then off. */
  const JUMP_SCARE: seq<SequenceStep> := [
    SequenceStep(Relay1, High, 1000),
    SequenceStep(Relay1, Low, 0)
  ]

  /** Relay 2 pulsed four times, half a second on and half a second off. */
  const SNAKE_SEQUENCE: seq<SequenceStep> := [
    SequenceStep(Relay2, High, 500),
    SequenceStep(Relay2, Low, 500),
    SequenceStep(Relay2, High, 500),
    SequenceStep(Relay2, Low, 500),
    SequenceStep(Relay2, High, 500),
    SequenceStep(Relay2, Low, 500),
    SequenceStep(Relay2, High, 500),
    SequenceStep(Relay2, Low, 500)
  ]

  /** Sum of the hold times of the steps. */
  function TotalHold(steps: seq<SequenceStep>): nat
  {
    if steps == [] then 0 else steps[0].durationMs + TotalHold(steps[1..])
  }

  /** Extending a prefix by the next step adds that step's hold. */
  lemma {:induction false} TotalHoldSnoc(steps: seq<SequenceStep>, k: nat)
    requires k < |steps|
    ensures TotalHold(steps[..k + 1]) == TotalHold(steps[..k]) + steps[k].durationMs
  {
    if k > 0 {
      assert steps[..k + 1][1..] == steps[1..][..k];
      assert steps[..k][1..] == steps[1..][..k - 1];
      TotalHoldSnoc(steps[1..], k - 1);
    }
  }

  /** The first `k + 1` steps hold the first step's duration plus what the next `k` hold. */
  lemma TotalHoldCons(steps: seq<SequenceStep>, k: nat)
    requires k < |steps|
    ensures TotalHold(steps[..k + 1]) == steps[0].durationMs + TotalHold(steps[1..][..k])
  {
    assert steps[..k + 1][1..] == steps[1..][..k];
  }

  /** Steps that all hold `d` milliseconds hold `d` times their number in all. */
  lemma {:induction false} UniformHold(steps: seq<SequenceStep>, d: nat)
    requires forall k | 0 <= k < |steps| :: steps[k].durationMs == d
    ensures TotalHold(steps) == d * |steps|
  {
    if steps != [] {
      UniformHold(steps[1..], d);
    }
  }

  /** Every step of `steps` drives `relay`. */
  predicate OnlyRelay(steps: seq<SequenceStep>, relay: RelayOutput)
  {
    forall k | 0 <= k < |steps| :: steps[k].relay == relay
  }

  /** The sequence is non-empty and its last step switches its relay off. */
  predicate EndsLow(steps: seq<SequenceStep>)
  {
    steps != [] && steps[|steps| - 1].state == Low
  }

  /** JUMP_SCARE: two steps on relay 1, on for 1000 ms then off, 1000 ms in all. */
  lemma JumpScareShape()
    ensures |JUMP_SCARE| == 2
    ensures OnlyRelay(JUMP_SCARE, Relay1) && EndsLow(JUMP_SCARE)
    ensures JUMP_SCARE[0].state == High && JUMP_SCARE[0].durationMs == 1000
    ensures JUMP_SCARE[1].durationMs == 0
    ensures TotalHold(JUMP_SCARE) == 1000
  {
    assert JUMP_SCARE[1..][1..] == [];
  }

  /**
   * SNAKE_SEQUENCE: eight steps on relay 2, alternating High and Low starting
   * with High, each held 500 ms, 4000 ms in all.
   */
  lemma SnakeShape()
    ensures |SNAKE_SEQUENCE| == 8
    ensures OnlyRelay(SNAKE_SEQUENCE, Relay2) && EndsLow(SNAKE_SEQUENCE)
    ensures forall k | 0 <= k < 8 ::
      SNAKE_SEQUENCE[k].durationMs == 500
      && SNAKE_SEQUENCE[k].state == (if k % 2 == 0 then High else Low)
    ensures TotalHold(SNAKE_SEQUENCE) == 4000
  {
    UniformHold(SNAKE_SEQUENCE, 500);
  }
}
