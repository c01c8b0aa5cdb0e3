/**
 * The firmware's top level: the table that maps trigger inputs to relay
 * sequences, the sequence dispatcher with its per-input cooldowns, one
 * iteration of the control task's event loop, and start-up of the relay
 * controller and the eight input monitors.
 *
 * The control task handles one event at a time: it receives the oldest event
 * from the shared channel and, unless that input is cooling down or mapped
 * to nothing, starts the input's cooldown and runs its sequence to the end
 * before it looks at the next event.
 */
module Control {
  import opened Hardware
  import opened Wrappers
  import opened Tca9554
  import opened Sequence
  import opened Relay
  import opened Input

  /** `SequenceConfig::new(trigger, cooldown_ms, sequence, name)`. */
  datatype SequenceConfig = SequenceConfig(
    trigger: DigitalInput,
    cooldownMs: nat,
    sequence: seq<SequenceStep>,
    name: string)

  /** The sequence registry: DI1 runs the jump scare, DI2 the snake. */
  const SEQUENCE_CONFIGS: seq<SequenceConfig> := [
    SequenceConfig(DI1, 5000, JUMP_SCARE, "Jump Scare"),
    SequenceConfig(DI2, 30000, SNAKE_SEQUENCE, "Snake Attack")
  ]

  /** Debounce time every input monitor is started with. */
  const DEBOUNCE_MS: nat := 100

  /** One spawned monitor task: the GPIO it watches, the input it reports and its debounce time. */
  datatype MonitorConfig = MonitorConfig(gpio: nat, input: DigitalInput, debounceMs: nat)

  /** The eight monitor tasks started at boot. */
  const MONITOR_TASKS: seq<MonitorConfig> := [
    MonitorConfig(4, DI1, 100),
    MonitorConfig(5, DI2, 100),
    MonitorConfig(6, DI3, 100),
    MonitorConfig(7, DI4, 100),
    MonitorConfig(8, DI5, 100),
    MonitorConfig(9, DI6, 100),
    MonitorConfig(10, DI7, 100),
    MonitorConfig(11, DI8, 100)
  ]

  /** No input triggers two entries of the table. */
  predicate DistinctTriggers(configs: seq<SequenceConfig>)
  {
    forall i, j | 0 <= i < j < |configs| :: configs[i].trigger != configs[j].trigger
  }

  /**
   * Index of the first entry of `configs` triggered by `input`: None exactly
   * when no entry is, otherwise an entry with that trigger and no earlier one.
   */
  function FirstMatch(configs: seq<SequenceConfig>, input: DigitalInput): (k: Option<nat>)
    ensures k.None? <==> forall j | 0 <= j < |configs| :: configs[j].trigger != input
    ensures k.Some? ==>
      k.value < |configs| && configs[k.value].trigger == input
      && forall j | 0 <= j < k.value :: configs[j].trigger != input
    decreases |configs|
  {
    if configs == [] then None
    else if configs[0].trigger == input then Some(0)
    else
      match FirstMatch(configs[1..], input)
      case None => None
      case Some(k) => Some(k + 1)
  }

  /** With distinct triggers, the entry found for an input is the only one it triggers. */
  lemma FirstMatchUnique(configs: seq<SequenceConfig>, input: DigitalInput, k: nat)
    requires DistinctTriggers(configs)
    requires k < |configs| && configs[k].trigger == input
    ensures FirstMatch(configs, input) == Some(k)
  {
  }

  /** Cooldown of an input: that of the first entry it triggers, none (0) when unmapped. */
  function CooldownFor(configs: seq<SequenceConfig>, input: DigitalInput): nat
  {
    match FirstMatch(configs, input)
    case None => 0
    case Some(k) => configs[k].cooldownMs
  }

  /** What the control task does with an event. */
  datatype Decision =
    | Ignore(remainingMs: nat)   // the input is cooling down
    | Unmapped                   // no sequence is mapped to the input
    | Execute(index: nat)        // run the sequence of entry `index`

  /**
   * The decision for an event of `input` at `now` whose cooldown slot is
   * `slot`: ignored (with a positive remaining time) exactly while the input
   * is cooling down; otherwise unmapped exactly when no entry is triggered
   * by it; otherwise the first entry it triggers is run.
   */
  function Decide(configs: seq<SequenceConfig>, slot: Option<nat>, now: nat, input: DigitalInput): (d: Decision)
    requires slot.Some? ==> slot.value <= now
    ensures d.Ignore? <==> CoolingDown(slot, now, CooldownFor(configs, input))
    ensures d.Ignore? ==> 0 < d.remainingMs <= CooldownFor(configs, input)
    ensures d.Unmapped? <==>
      !CoolingDown(slot, now, CooldownFor(configs, input))
      && forall j | 0 <= j < |configs| :: configs[j].trigger != input
    ensures d.Ignore? ==> d.remainingMs == Remaining(slot, now, CooldownFor(configs, input))
    ensures d.Execute? ==> d.index < |configs| && configs[d.index].trigger == input
    ensures d.Execute? ==> FirstMatch(configs, input) == Some(d.index)
  {
    var duration := CooldownFor(configs, input);
    if CoolingDown(slot, now, duration) then Ignore(Remaining(slot, now, duration))
    else
      match FirstMatch(configs, input)
      case None => Unmapped
      case Some(k) => Execute(k)
  }

  /**
   * The registry maps DI1 to JUMP_SCARE with a 5000 ms cooldown and DI2 to
   * SNAKE_SEQUENCE with a 30000 ms cooldown; no trigger appears twice and
   * every other input is unmapped.
   */
  lemma ConfigTable()
    ensures DistinctTriggers(SEQUENCE_CONFIGS)
    ensures FirstMatch(SEQUENCE_CONFIGS, DI1) == Some(0)
    ensures SEQUENCE_CONFIGS[0].sequence == JUMP_SCARE && CooldownFor(SEQUENCE_CONFIGS, DI1) == 5000
    ensures FirstMatch(SEQUENCE_CONFIGS, DI2) == Some(1)
    ensures SEQUENCE_CONFIGS[1].sequence == SNAKE_SEQUENCE && CooldownFor(SEQUENCE_CONFIGS, DI2) == 30000
    ensures forall d: DigitalInput | d != DI1 && d != DI2 :: FirstMatch(SEQUENCE_CONFIGS, d) == None
  {
    FirstMatchUnique(SEQUENCE_CONFIGS, DI1, 0);
    FirstMatchUnique(SEQUENCE_CONFIGS, DI2, 1);
  }

  /**
   * DI1 fired at `t`: an event 1000 ms later is ignored with 4000 ms left, one
   * 5000 ms later runs the jump scare again; DI2 is still cooling down 1 ms
   * before its 30000 ms are over; DI3 is unmapped.
   */
  lemma CooldownScenario(t: nat)
    ensures Decide(SEQUENCE_CONFIGS, None, t, DI1) == Execute(0)
    ensures Decide(SEQUENCE_CONFIGS, Some(t), t + 1000, DI1) == Ignore(4000)
    ensures Decide(SEQUENCE_CONFIGS, Some(t), t + 5000, DI1) == Execute(0)
    ensures Decide(SEQUENCE_CONFIGS, Some(t), t + 29999, DI2) == Ignore(1)
    ensures Decide(SEQUENCE_CONFIGS, None, t, DI3) == Unmapped
  {
    ConfigTable();
  }

  /** The monitor table starts one monitor per input, in input order, on the input's GPIO, all with the 100 ms debounce. */
  lemma MonitorTable()
    ensures |MONITOR_TASKS| == 8
    ensures forall i | 0 <= i < 8 ::
      MONITOR_TASKS[i].input == InputAt(i)
      && MONITOR_TASKS[i].gpio == InputPin(MONITOR_TASKS[i].input)
      && MONITOR_TASKS[i].debounceMs == DEBOUNCE_MS
  {
  }

  /**
   * `SequenceDispatcher`: the registry and one optional trigger time per
   * input; each input's cooldown lasts the `cooldown_ms` of its entry.
   */
  class SequenceDispatcher {
    const configs: seq<SequenceConfig>
    const cooldowns: array<Option<nat>>

    ghost predicate Valid()
      reads this
    {
      cooldowns.Length == 8
    }

    /** No slot holds a trigger time later than `now`. */
    ghost predicate SlotsBefore(now: nat)
      reads this, cooldowns
      requires Valid()
    {
      forall i | 0 <= i < 8 :: cooldowns[i].Some? ==> cooldowns[i].value <= now
    }

    /** `SequenceDispatcher::new(configs)`: nothing has triggered yet. */
    constructor (configs: seq<SequenceConfig>)
      ensures Valid() && fresh(cooldowns) && this.configs == configs
      ensures forall i | 0 <= i < 8 :: cooldowns[i] == None
    {
      this.configs := configs;
      cooldowns := new Option<nat>[8](_ => None);
    }

    /**
     * `find_config`: scans `table` in order and returns the first entry
     * triggered by `input`, None when there is none.
     */
    method FindConfig(table: seq<SequenceConfig>, input: DigitalInput) returns (c: Option<SequenceConfig>)
      ensures c.None? <==> forall j | 0 <= j < |table| :: table[j].trigger != input
      ensures c.Some? ==> exists k | 0 <= k < |table| ::
        table[k] == c.value && c.value.trigger == input
        && forall j | 0 <= j < k :: table[j].trigger != input
    {
      var i := 0;
      while i < |table|
        invariant 0 <= i <= |table|
        invariant forall j | 0 <= j < i :: table[j].trigger != input
      {
        if table[i].trigger == input {
          return Some(table[i]);
        }
        i := i + 1;
      }
      return None;
    }

    /**
     * `mark_triggered`: records `now` in the input's slot and leaves the other
     * slots alone. This is the dispatcher's counterpart of
     * `Input.CooldownTracker.MarkTriggered`: the slot update is the same, but
     * here each input's cooldown length comes from its registry entry
     * (`CooldownFor`) instead of one shared duration.
     */
    method MarkTriggered(input: DigitalInput, now: nat)
      requires Valid()
      modifies cooldowns
      ensures cooldowns[InputOrdinal(input)] == Some(now)
      ensures forall i | 0 <= i < 8 && i != InputOrdinal(input) :: cooldowns[i] == old(cooldowns[i])
    {
      cooldowns[InputOrdinal(input)] := Some(now);
    }
  }

  /**
   * One event of the control loop, handled at `now`: a cooling-down input and
   * an unmapped input change nothing; a mapped input has its cooldown started
   * at `now`, before its sequence runs, and the sequence's outcome leaves the
   * cooldown as it is.
   */
  method HandleEvent(dispatcher: SequenceDispatcher, controller: RelayController, event: InputEvent, now: nat)
    returns (decision: Decision, result: Option<BusResult>)
    requires dispatcher.Valid() && dispatcher.SlotsBefore(now)
    requires controller.expander.clock <= now
    modifies dispatcher.cooldowns, controller.expander
    ensures decision
      == Decide(dispatcher.configs, old(dispatcher.cooldowns[InputOrdinal(event.input)]), now, event.input)
    ensures !decision.Execute? ==>
      result == None
      && (forall i | 0 <= i < 8 :: dispatcher.cooldowns[i] == old(dispatcher.cooldowns[i]))
      && controller.expander.State() == old(controller.expander.State())
    ensures decision.Execute? ==>
      result.Some?
      && dispatcher.cooldowns[InputOrdinal(event.input)] == Some(now)
      && (forall i | 0 <= i < 8 && i != InputOrdinal(event.input) ::
            dispatcher.cooldowns[i] == old(dispatcher.cooldowns[i]))
      && (controller.expander.State(), result.value)
         == Run(old(controller.expander.State()).(clock := now), controller.expander.address,
                controller.expander.failing, dispatcher.configs[decision.index].sequence)
    ensures dispatcher.SlotsBefore(now)
  {
    var input := event.input;
    var slot := dispatcher.cooldowns[InputOrdinal(input)];
    var duration := CooldownFor(dispatcher.configs, input);
    if CoolingDown(slot, now, duration) {
      decision := Ignore(Remaining(slot, now, duration));
      result := None;
      return;
    }
    var config := dispatcher.FindConfig(dispatcher.configs, input);
    match config
    case None =>
      decision := Unmapped;
      result := None;
    case Some(c) =>
      var k := FirstMatch(dispatcher.configs, input).value;
      assert dispatcher.configs[k] == c;
      decision := Execute(k);
      dispatcher.MarkTriggered(input, now);
      controller.expander.clock := now;
      var r := controller.ExecuteSequence(c.sequence);
      result := Some(r);
  }

  /**
   * One iteration of `control_task`: takes the oldest event from the channel
   * and handles it to the end (a started sequence finishes or aborts before
   * the step returns); an empty channel means the task waits, and nothing
   * changes. The driver's clock never goes back, so the next iteration can be
   * handled at any `now` from the returned clock on.
   */
  method ControlStep(
    channel: EventChannel, dispatcher: SequenceDispatcher, controller: RelayController, now: nat)
    returns (event: Option<InputEvent>, decision: Option<Decision>)
    requires channel.Valid() && dispatcher.Valid() && dispatcher.SlotsBefore(now)
    requires controller.expander.clock <= now
    modifies channel, dispatcher.cooldowns, controller.expander
    ensures channel.Valid() && dispatcher.SlotsBefore(now)
    ensures old(channel.queue) == [] ==>
      event == None && decision == None && channel.queue == []
      && (forall i | 0 <= i < 8 :: dispatcher.cooldowns[i] == old(dispatcher.cooldowns[i]))
      && controller.expander.State() == old(controller.expander.State())
    ensures old(channel.queue) != [] ==>
      event == Some(old(channel.queue)[0]) && channel.queue == old(channel.queue)[1..]
      && decision == Some(Decide(dispatcher.configs,
                                 old(dispatcher.cooldowns[InputOrdinal(event.value.input)]),
                                 now, event.value.input))
    ensures old(channel.queue) != [] && !decision.value.Execute? ==>
      (forall i | 0 <= i < 8 :: dispatcher.cooldowns[i] == old(dispatcher.cooldowns[i]))
      && controller.expander.State() == old(controller.expander.State())
    ensures old(channel.queue) != [] && decision.value.Execute? ==>
      dispatcher.cooldowns[InputOrdinal(event.value.input)] == Some(now)
      && (forall i | 0 <= i < 8 && i != InputOrdinal(event.value.input) ::
            dispatcher.cooldowns[i] == old(dispatcher.cooldowns[i]))
      && controller.expander.State()
         == Run(old(controller.expander.State()).(clock := now), controller.expander.address,
                controller.expander.failing, dispatcher.configs[decision.value.index].sequence).0
      && now <= controller.expander.clock
    ensures old(controller.expander.clock) <= controller.expander.clock
  {
    event := channel.Receive();
    decision := None;
    if event.Some? {
      ghost var before := controller.expander.State();
      var d, r := HandleEvent(dispatcher, controller, event.value, now);
      decision := Some(d);
      if d.Execute? {
        RunClock(before.(clock := now), controller.expander.address, controller.expander.failing,
                 dispatcher.configs[d.index].sequence);
      }
    }
  }

  /**
   * Start-up: the driver at TCA9554_ADDRESS is wrapped in a controller and
   * initialised; a failed initialisation is only reported, and start-up goes
   * on with the channel, the dispatcher over SEQUENCE_CONFIGS and the monitors.
   */
  method Start(failing: set<nat>)
    returns (controller: RelayController, initResult: BusResult, channel: EventChannel,
             dispatcher: SequenceDispatcher, monitors: seq<InputMonitor>)
    ensures fresh(controller) && fresh(controller.expander)
    ensures controller.expander.address == TCA9554_ADDRESS && controller.expander.failing == failing
    ensures controller.expander.clock == 0
    ensures 0 in failing ==>
      initResult == Err && controller.expander.writes == [Write(TCA9554_ADDRESS, CONFIGURATION, 0)]
    ensures 0 !in failing ==>
      controller.expander.writes
        == [Write(TCA9554_ADDRESS, CONFIGURATION, 0), Write(TCA9554_ADDRESS, OUTPUT_PORT, 0)]
      && (initResult == Ok <==> 1 !in failing)
    ensures controller.expander.outputState == 0
    ensures fresh(channel) && channel.Valid() && channel.queue == []
    ensures fresh(dispatcher) && fresh(dispatcher.cooldowns) && dispatcher.Valid()
    ensures dispatcher.configs == SEQUENCE_CONFIGS
    ensures forall i | 0 <= i < 8 :: dispatcher.cooldowns[i] == None
    ensures |monitors| == 8
    ensures forall i | 0 <= i < 8 ::
      fresh(monitors[i]) && monitors[i].Valid() && monitors[i].channel == channel
      && monitors[i].input == InputAt(i) && monitors[i].debounceMs == DEBOUNCE_MS
  {
    var expander := new Tca9554(failing, TCA9554_ADDRESS);
    controller := new RelayController(expander);
    initResult := controller.Init();
    channel := new EventChannel();
    dispatcher := new SequenceDispatcher(SEQUENCE_CONFIGS);
    monitors := StartMonitors(channel);
  }

  /** Spawns the monitor tasks of MONITOR_TASKS, all sending to `channel`. */
  method StartMonitors(channel: EventChannel) returns (monitors: seq<InputMonitor>)
    requires channel.Valid()
    ensures |monitors| == |MONITOR_TASKS|
    ensures forall i | 0 <= i < |monitors| ::
      fresh(monitors[i]) && monitors[i].Valid() && monitors[i].channel == channel
      && monitors[i].input == MONITOR_TASKS[i].input && monitors[i].debounceMs == MONITOR_TASKS[i].debounceMs
  {
    monitors := [];
    var i := 0;
    while i < |MONITOR_TASKS|
      invariant 0 <= i <= |MONITOR_TASKS| && |monitors| == i
      invariant forall j | 0 <= j < i ::
        fresh(monitors[j]) && monitors[j].Valid() && monitors[j].channel == channel
        && monitors[j].input == MONITOR_TASKS[j].input && monitors[j].debounceMs == MONITOR_TASKS[j].debounceMs
    {
      var m := new InputMonitor(MONITOR_TASKS[i].input, MONITOR_TASKS[i].debounceMs, channel);
      monitors := monitors + [m];
      i := i + 1;
    }
  }
}
