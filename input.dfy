/**
 * Input side of the prop: the event record sent for each accepted sensor
 * trigger, the bounded event channel, the per-input debounce monitor and the
 * per-input cooldown tracker.
 *
 * Time is an explicit parameter `now`, in milliseconds since boot (the
 * firmware's `Instant::now()`); `Instant::MIN` is time 0. `duration_since`
 * panics when its argument lies in the future, so every operation that
 * measures an elapsed time requires the earlier instant not to be later than
 * `now`.
 */
module Input {
  import opened Hardware
  import opened Wrappers

  /** One accepted trigger: which input fired and when, in milliseconds. */
  datatype InputEvent = InputEvent(input: DigitalInput, timestampMs: nat)

  /** Capacity of the event channel shared by the monitors and the control task. */
  const CHANNEL_CAPACITY: nat := 16

  /**
   * The input-event channel as a bounded FIFO queue. Sending never waits: a
   * full queue drops the event. Receiving takes the oldest event; on an empty
   * queue the receiver would suspend, which is reported here as None.
   */
  class EventChannel {
    var queue: seq<InputEvent>

    ghost predicate Valid()
      reads this
    {
      |queue| <= CHANNEL_CAPACITY
    }

    /** `Channel::new()`: an empty queue. */
    constructor ()
      ensures Valid() && queue == []
    {
      queue := [];
    }

    /** `try_send`: appends at the tail when there is room; otherwise drops the event. */
    method TrySend(e: InputEvent) returns (sent: bool)
      requires Valid()
      modifies this
      ensures Valid()
      ensures sent <==> |old(queue)| < CHANNEL_CAPACITY
      ensures queue == if sent then old(queue) + [e] else old(queue)
    {
      sent := |queue| < CHANNEL_CAPACITY;
      if sent {
        queue := queue + [e];
      }
    }

    /** `receive`: removes and returns the oldest event; None means the receiver would wait. */
    method Receive() returns (e: Option<InputEvent>)
      requires Valid()
      modifies this
      ensures Valid()
      ensures old(queue) == [] ==> e == None && queue == []
      ensures old(queue) != [] ==> e == Some(old(queue)[0]) && queue == old(queue)[1..]
    {
      if queue == [] {
        e := None;
      } else {
        e := Some(queue[0]);
        queue := queue[1..];
      }
    }
  }

  /** Times that never go backwards. */
  predicate NonDecreasing(s: seq<nat>)
  {
    forall i, j | 0 <= i < j < |s| :: s[i] <= s[j]
  }

  /** Last element of `t`, or `dflt` when `t` is empty. */
  function LastOr(t: seq<nat>, dflt: nat): nat
  {
    if t == [] then dflt else t[|t| - 1]
  }

  /** The debounce rule: `now.duration_since(last) >= debounce`. */
  predicate Debounced(last: nat, now: nat, debounce: nat)
    requires last <= now
  {
    now - last >= debounce
  }

  /**
   * The timestamps of the events a monitor emits for the rising edges it
   * observes, in order: an edge is accepted when at least `debounce` ms have
   * passed since the last accepted edge (since time 0 for the first one).
   * Every emitted time is an observed edge, the first is at least `debounce`
   * after boot, and emitted times are at least `debounce` apart.
   */
  function Triggers(edges: seq<nat>, debounce: nat): (t: seq<nat>)
    requires NonDecreasing(edges)
    ensures |t| <= |edges|
    ensures forall i | 0 <= i < |t| :: t[i] in edges
    ensures t != [] ==> debounce <= t[0]
    ensures forall i | 0 <= i < |t| - 1 :: t[i] + debounce <= t[i + 1]
    decreases |edges|
  {
    if edges == [] then []
    else
      var init := edges[..|edges| - 1];
      var prev := Triggers(init, debounce);
      var now := edges[|edges| - 1];
      assert forall i | 0 <= i < |prev| :: prev[i] <= now;
      if Debounced(LastOr(prev, 0), now, debounce) then prev + [now] else prev
  }

  /** Observing one more edge, no earlier than the last, either appends it to the triggers or leaves them as they were. */
  lemma TriggersSnoc(edges: seq<nat>, now: nat, debounce: nat)
    requires NonDecreasing(edges) && (edges != [] ==> edges[|edges| - 1] <= now)
    ensures NonDecreasing(edges + [now])
    ensures LastOr(Triggers(edges, debounce), 0) <= now
    ensures Triggers(edges + [now], debounce)
      == Triggers(edges, debounce)
         + (if Debounced(LastOr(Triggers(edges, debounce), 0), now, debounce) then [now] else [])
  {
    assert (edges + [now])[..|edges|] == edges;
  }

  /** `last_trigger` starts at time 0, so a first edge is accepted only from `debounce` ms after boot. */
  lemma FirstEdge(a: nat, debounce: nat)
    ensures Triggers([a], debounce) == if a >= debounce then [a] else []
  {
    assert [a][..0] == [];
  }

  /** Of two accepted-eligible edges, the second is accepted exactly when it comes `debounce` ms or more after the first. */
  lemma TwoEdges(a: nat, b: nat, debounce: nat)
    requires debounce <= a <= b
    ensures Triggers([a, b], debounce) == if b - a >= debounce then [a, b] else [a]
  {
    FirstEdge(a, debounce);
    assert [a, b][..1] == [a];
  }

  /**
   * The monitor's bookkeeping after observing `edges`: `emitted` are the
   * accepted ones, `last` the latest of them (0 before any) and `wake` the
   * end of the current debounce hold.
   */
  ghost predicate MonitorState(edges: seq<nat>, emitted: seq<nat>, last: nat, wake: nat, debounce: nat)
  {
    NonDecreasing(edges)
    && emitted == Triggers(edges, debounce)
    && last == LastOr(emitted, 0)
    && wake == (if emitted == [] then 0 else last + debounce)
  }

  /**
   * One observed edge keeps the bookkeeping consistent; an edge observed after
   * the hold that followed an accepted edge is always accepted.
   */
  lemma MonitorStep(edges: seq<nat>, emitted: seq<nat>, last: nat, wake: nat, debounce: nat, now: nat)
    requires MonitorState(edges, emitted, last, wake, debounce)
    requires wake <= now && (edges != [] ==> edges[|edges| - 1] <= now)
    ensures last <= now
    ensures var acc := Debounced(last, now, debounce);
      MonitorState(edges + [now], emitted + (if acc then [now] else []),
                   if acc then now else last, if acc then now + debounce else wake, debounce)
      && (emitted != [] ==> acc)
  {
    TriggersSnoc(edges, now, debounce);
  }

  /**
   * One `input_monitor_task`: the input it watches, its debounce time, the
   * shared channel and the time of the last accepted edge.
   *
   * The ghost `edges` records every rising edge the task has observed. After
   * accepting an edge the task sleeps for the debounce time before waiting
   * for the next edge, so edges before `wakeAt` are never observed.
   */
  class InputMonitor {
    const input: DigitalInput
    const debounceMs: nat
    const channel: EventChannel
    var lastTrigger: nat
    ghost var edges: seq<nat>
    /** Times of the edges accepted so far. */
    ghost var emitted: seq<nat>
    ghost var wakeAt: nat

    ghost predicate Valid()
      reads this, channel
    {
      channel.Valid() && MonitorState(edges, emitted, lastTrigger, wakeAt, debounceMs)
    }

    /** Task start: `last_trigger` is `Instant::MIN` and nothing has been observed. */
    constructor (input: DigitalInput, debounceMs: nat, channel: EventChannel)
      requires channel.Valid()
      ensures Valid()
      ensures this.input == input && this.debounceMs == debounceMs && this.channel == channel
      ensures lastTrigger == 0 && edges == [] && wakeAt == 0
    {
      this.input := input;
      this.debounceMs := debounceMs;
      this.channel := channel;
      lastTrigger := 0;
      edges := [];
      emitted := [];
      wakeAt := 0;
    }

    /**
     * One pass of the monitor loop for a rising edge observed at `now`: an
     * accepted edge moves `last_trigger` to `now`, offers exactly one event
     * carrying this monitor's input and `now` to the channel (dropped when
     * the channel is full) and starts the debounce hold; a rejected edge
     * changes nothing.
     */
    method OnEdge(now: nat) returns (accepted: bool, sent: bool)
      requires Valid()
      requires wakeAt <= now && (edges != [] ==> edges[|edges| - 1] <= now)
      modifies this`lastTrigger, this`edges, this`emitted, this`wakeAt, channel
      ensures Valid()
      ensures edges == old(edges) + [now]
      ensures accepted <==> now - old(lastTrigger) >= debounceMs
      ensures emitted == old(emitted) + (if accepted then [now] else [])
      ensures accepted ==>
        lastTrigger == now && wakeAt == now + debounceMs
        && (sent <==> |old(channel.queue)| < CHANNEL_CAPACITY)
        && channel.queue == (if sent then old(channel.queue) + [InputEvent(input, now)] else old(channel.queue))
      ensures !accepted ==>
        !sent && lastTrigger == old(lastTrigger) && wakeAt == old(wakeAt)
        && channel.queue == old(channel.queue)
      // The hold already spans the debounce time, so once an edge has been
      // accepted every later observed edge is accepted as well.
      ensures old(emitted) != [] ==> accepted
    {
      MonitorStep(edges, emitted, lastTrigger, wakeAt, debounceMs, now);
      accepted := Debounced(lastTrigger, now, debounceMs);
      edges := edges + [now];
      sent := false;
      if accepted {
        lastTrigger := now;
        emitted := emitted + [now];
        var event := InputEvent(input, now);
        sent := channel.TrySend(event);
        wakeAt := now + debounceMs;
      }
    }
  }

  /**
   * `is_cooling_down` for one slot: the slot holds a trigger time and less
   * than `duration` has elapsed since it.
   */
  predicate CoolingDown(slot: Option<nat>, now: nat, duration: nat)
    requires slot.Some? ==> slot.value <= now
  {
    match slot
    case None => false
    case Some(last) => now - last < duration
  }

  /**
   * `remaining_ms` for one slot: how long the cooldown still lasts; at most
   * `duration`, positive exactly while cooling down, and then it ends at
   * `last + duration`.
   */
  function Remaining(slot: Option<nat>, now: nat, duration: nat): (r: nat)
    requires slot.Some? ==> slot.value <= now
    ensures r <= duration
    ensures r > 0 <==> CoolingDown(slot, now, duration)
    ensures r > 0 ==> now + r == slot.value + duration
  {
    match slot
    case None => 0
    case Some(last) =>
      var elapsed := now - last;
      if elapsed < duration then duration - elapsed else 0
  }

  /** As time passes with no new trigger, the remaining cooldown never grows and a finished cooldown stays finished. */
  lemma RemainingNonIncreasing(slot: Option<nat>, now: nat, later: nat, duration: nat)
    requires slot.Some? ==> slot.value <= now
    requires now <= later
    ensures Remaining(slot, later, duration) <= Remaining(slot, now, duration)
    ensures CoolingDown(slot, later, duration) ==> CoolingDown(slot, now, duration)
  {
  }

  /** Right after a trigger the cooldown is active (when the duration is positive) with the full duration remaining. */
  lemma TriggerStartsCooldown(now: nat, duration: nat)
    ensures CoolingDown(Some(now), now, duration) <==> duration > 0
    ensures Remaining(Some(now), now, duration) == duration
  {
  }

  /** The cooldown of a trigger at `last` is over exactly from `last + duration` on. */
  lemma CooldownEnds(last: nat, now: nat, duration: nat)
    requires last <= now
    ensures CoolingDown(Some(last), now, duration) <==> now < last + duration
  {
  }

  /** `CooldownTracker`: one optional trigger time per input and one shared cooldown duration. */
  class CooldownTracker {
    const cooldowns: array<Option<nat>>
    const cooldownDuration: nat

    ghost predicate Valid()
      reads this
    {
      cooldowns.Length == 8
    }

    /** The slot of `input` holds no trigger time later than `now`. */
    ghost predicate SlotBefore(input: DigitalInput, now: nat)
      reads this, cooldowns
      requires Valid()
    {
      var slot := cooldowns[InputOrdinal(input)];
      slot.Some? ==> slot.value <= now
    }

    /** `CooldownTracker::new`: no input has triggered yet. */
    constructor (cooldownMs: nat)
      ensures Valid() && fresh(cooldowns) && cooldownDuration == cooldownMs
      ensures forall i | 0 <= i < 8 :: cooldowns[i] == None
    {
      cooldownDuration := cooldownMs;
      cooldowns := new Option<nat>[8](_ => None);
    }

    /** `is_cooling_down`: the input has triggered and less than the duration has elapsed since. */
    method IsCoolingDown(input: DigitalInput, now: nat) returns (b: bool)
      requires Valid() && SlotBefore(input, now)
      ensures b <==> CoolingDown(cooldowns[InputOrdinal(input)], now, cooldownDuration)
      ensures b <==> exists last :: cooldowns[InputOrdinal(input)] == Some(last) && now < last + cooldownDuration
    {
      match cooldowns[InputOrdinal(input)]
      case Some(last) =>
        b := now - last < cooldownDuration;
      case None =>
        b := false;
    }

    /** `mark_triggered`: records `now` in the input's slot and leaves the other seven slots alone. */
    method MarkTriggered(input: DigitalInput, now: nat)
      requires Valid()
      modifies cooldowns
      ensures cooldowns[InputOrdinal(input)] == Some(now)
      ensures forall i | 0 <= i < 8 && i != InputOrdinal(input) :: cooldowns[i] == old(cooldowns[i])
      ensures SlotBefore(input, now) && CoolingDown(cooldowns[InputOrdinal(input)], now, cooldownDuration) == (cooldownDuration > 0)
    {
      cooldowns[InputOrdinal(input)] := Some(now);
    }

    /** `remaining_ms`: how long the input's cooldown still lasts, 0 when it is not cooling down. */
    method RemainingMs(input: DigitalInput, now: nat) returns (ms: nat)
      requires Valid() && SlotBefore(input, now)
      ensures ms == Remaining(cooldowns[InputOrdinal(input)], now, cooldownDuration)
      ensures ms <= cooldownDuration
      ensures ms > 0 <==> CoolingDown(cooldowns[InputOrdinal(input)], now, cooldownDuration)
    {
      match cooldowns[InputOrdinal(input)]
      case Some(last) =>
        var elapsed := now - last;
        if elapsed < cooldownDuration {
          ms := cooldownDuration - elapsed;
        } else {
          ms := 0;
        }
      case None =>
        ms := 0;
    }
  }
}
