# prop-relay-control, modelled in Dafny

This is a model of the firmware core of an ESP32-S3 prop controller. The firmware watches eight
digital sensor inputs. It debounces each rising edge and puts accepted triggers on a bounded event
channel. A single control task takes events off the channel. It ignores inputs that are cooling
down, looks up the relay sequence configured for the input, starts the input's cooldown and runs
the sequence. A sequence runs step by step through a relay controller. The controller drives a
TCA9554 8-bit I2C I/O expander, which keeps a shadow copy of its output register.

Modules follow the source files:

- `hardware.dfy`: the input, relay and level enums with their fixed ordinals, and the input GPIO
  numbers.
- `tca9554.dfy`: the expander driver, a class with the shadow register.
  - The I2C bus is a log of every attempted write plus an oracle set: the k-th write fails exactly
    when k is in it.
  - A ghost clock stamps each write with its issue time.
- `sequence.dfy`: the step record and the two built-in sequences.
- `relay.dfy`: the relay controller.
  - `Run` specifies `execute_sequence` as a function of the driver state.
  - The method is proved equal to it.
  - Lemmas characterise `Run`: the writes made, early abort, final levels and timing.
- `input.dfy`: the input-event record, the capacity-16 channel, one input monitor's debounce step,
  and the cooldown tracker.
- `control.dfy`: `SEQUENCE_CONFIGS`, the sequence dispatcher, one iteration of the control loop,
  and start-up.
- `wrappers.dfy`: `Option`.

Time is an explicit `now` in milliseconds since boot, and `Instant::MIN` is 0. `duration_since`
panics when the earlier instant lies in the future. So the operations that measure elapsed time
require the stored instant to be at most `now`.

The driver (src/tca9554.rs:50-52, 59-61, 65-66) assigns the shadow first and then writes, so
after a failed write the shadow holds the value that was attempted; the model does the same.

`SequenceStep`, `SequenceConfig` and `SequenceDispatcher` are used but not defined in the source
files. They are reconstructed from their uses:

- A step has a relay, a level and a hold in milliseconds.
- A configuration has a trigger, `cooldown_ms`, a sequence and a name.
- `find_config` returns the first entry whose trigger matches.
- Each input's cooldown is the `cooldown_ms` of its first entry, and 0 for an unmapped input.

## Model

| member | source | states |
|---|---|---|
| `Hardware.InputOrdinal` | src/hardware.rs:39-48 | every input's ordinal is below 8, so it always indexes an 8-slot array |
| `Hardware.InputAt` | src/hardware.rs:39-48 | every index 0..7 is the ordinal of some input |
| `Hardware.InputOrdinalInjective` | src/hardware.rs:40-47 | distinct inputs have distinct ordinals; InputAt inverts InputOrdinal |
| `Hardware.RelayOrdinal` | src/hardware.rs:53-62 | every relay's pin is below 8, so `set_relay` never reaches the pin-out-of-range branch |
| `Hardware.RelayAt` | src/hardware.rs:53-62 | every pin 0..7 belongs to some relay |
| `Hardware.RelayOrdinalInjective` | src/hardware.rs:54-61 | distinct relays drive distinct pins; RelayAt inverts RelayOrdinal |
| `Hardware.RelayStateTwoValued` | src/hardware.rs:66-69 | a level is High or Low and nothing else |
| `Hardware.InputPin` | src/hardware.rs:12-19 | input k (1..8) sits on GPIO k+3, a consecutive range 4..11 |
| `Tca9554.SetBitLevels` | src/tca9554.rs:50 | OR-ing in `1 << pin` turns that pin on and leaves the other seven pins unchanged |
| `Tca9554.ClearBitLevels` | src/tca9554.rs:59 | AND-ing with `!(1 << pin)` turns that pin off and leaves the other seven pins unchanged |
| `Tca9554.SetBitIdempotent` | src/tca9554.rs:46-53 | switching a pin on twice gives the same shadow as switching it on once |
| `Tca9554.ClearBitIdempotent` | src/tca9554.rs:55-62 | switching a pin off twice gives the same shadow as switching it off once |
| `Tca9554.Tca9554.constructor` | src/tca9554.rs:25-31 | a new driver has shadow 0 and has made no write |
| `Tca9554.Tca9554.WriteRegister` | src/tca9554.rs:42-44 | appends exactly one `[register, value]` write to the device address; Ok exactly when the bus accepts it |
| `Tca9554.Tca9554.Init` | src/tca9554.rs:33-40 | writes configuration 0x00 and then output 0x00; a failed first write stops it; the shadow is zeroed only when both succeed |
| `Tca9554.Tca9554.SetPinHigh` | src/tca9554.rs:46-53 | a pin of 8 or more gives Ok with no write and no change; otherwise the shadow becomes `old OR (1 << pin)` and exactly that value is written to the output port, and it stays in the shadow even if the write fails |
| `Tca9554.Tca9554.SetPinLow` | src/tca9554.rs:55-62 | a pin of 8 or more gives Ok with no write and no change; otherwise the shadow becomes `old AND NOT (1 << pin)` and exactly that value is written, and it stays in the shadow even if the write fails |
| `Tca9554.Tca9554.AllOff` | src/tca9554.rs:64-67 | the shadow becomes 0 and exactly one write `[0x01, 0x00]` is made |
| `Tca9554.Tca9554.GetOutputState` | src/tca9554.rs:69-71 | returns the shadow and changes nothing |
| `Sequence.JumpScareShape` | src/sequence.rs:4-7 | JUMP_SCARE is relay 1 High for 1000 ms, then Low for 0 ms; 1000 ms in all |
| `Sequence.SnakeShape` | src/sequence.rs:9-18 | SNAKE_SEQUENCE is 8 steps on relay 2, alternating High and Low from High, each 500 ms; 4000 ms in all |
| `Relay.DriveLevels` | src/relay.rs:32-41 | driving a relay gives its pin the requested level and leaves every other pin as it was |
| `Relay.Attempted` | src/relay.rs:54 | a run attempts every step when no write fails; otherwise it attempts exactly the steps up to and including the first failing write |
| `Relay.RunResult` | src/relay.rs:43-60 | a run returns Ok exactly when none of its writes fails |
| `Relay.RunWrites` | src/relay.rs:43-60 | the bus sees one output-port write per attempted step, in step order; each carries the register after its step and is stamped with the clock of that moment; the shadow ends at the register after the attempted steps |
| `Relay.RunClockOk` | src/relay.rs:54-55 | a run on which no write fails holds for the total hold time of its steps |
| `Relay.RunClockErr` | src/relay.rs:54-55 | a run on which a write fails holds for the steps before the failing one, and not for the failing step or any after it |
| `Relay.RunClock` | src/relay.rs:54-55 | the clock advances by the holds of exactly the steps whose write succeeded |
| `Relay.HealthyRun` | src/relay.rs:46-59 | when no write fails, the run returns Ok after exactly one write per step (none for an empty sequence) and holds for the total hold time |
| `Relay.FailedRunStops` | src/relay.rs:54 | when some write fails, the run returns Err; the failing write is the last one on the bus, and all writes before it succeeded |
| `Relay.ReplayUntouched` | src/relay.rs:46-56 | a relay that no step targets keeps its level |
| `Relay.ReplayLastWins` | src/relay.rs:46-56 | a targeted relay ends at the level of the last step that targets it |
| `Relay.WritesOfAt` | src/relay.rs:46-56 | the k-th write of a run carries the register after the first k+1 steps |
| `Relay.WriteTimesAt` | src/relay.rs:54-55 | the k-th write is issued after the holds of the k steps before it |
| `Relay.WriteTimesGap` | src/relay.rs:54-55 | the write for step k+1 comes exactly the hold of step k after the write for step k |
| `Relay.SingleRelayEndsOff` | src/relay.rs:46-56 | a sequence that targets one relay and ends Low turns that relay off and leaves the other pins unchanged |
| `Relay.SequencesEndOff` | src/sequence.rs:4-18 | after a full run, JUMP_SCARE has turned relay 1 off and SNAKE_SEQUENCE relay 2, and no other pin has changed |
| `Relay.JumpScareFromAllOff` | src/sequence.rs:4-7 | from shadow 0 on a healthy bus, JUMP_SCARE writes `[0x01,0x01]` and, 1000 ms later, `[0x01,0x00]`; it ends with shadow 0 and returns Ok |
| `Relay.RelayController.constructor` | src/relay.rs:19-23 | the controller owns the given driver |
| `Relay.RelayController.Init` | src/relay.rs:25-30 | behaves exactly as the driver's `init` and passes its result on |
| `Relay.RelayController.SetRelay` | src/relay.rs:32-41 | High calls `set_pin_high` and Low calls `set_pin_low` on the relay's pin; the driver state and the error are exactly those of one switch |
| `Relay.RelayController.ExecuteSequence` | src/relay.rs:43-60 | the new driver state and the result are those of `Run` on the old state; the Run lemmas say what that means |
| `Relay.RelayController.AllOff` | src/relay.rs:62-66 | behaves exactly as the driver's `all_off` and passes its result on |
| `Input.EventChannel.constructor` | src/input.rs:16 | the channel starts empty |
| `Input.EventChannel.TrySend` | src/input.rs:46-50 | with fewer than 16 events queued, the event is appended at the tail; otherwise it is dropped and the queue is unchanged |
| `Input.EventChannel.Receive` | src/bin/main.rs:164 | takes the oldest event (FIFO); an empty queue gives nothing and stays empty |
| `Input.Triggers` | src/input.rs:30-55 | every accepted edge is an observed edge; the first is at least the debounce after boot; accepted edges are at least the debounce apart |
| `Input.TriggersSnoc` | src/input.rs:34-38 | an edge is accepted exactly when at least the debounce has passed since the last accepted edge (time 0 before any); a rejected edge changes nothing |
| `Input.FirstEdge` | src/input.rs:26-38 | since `last_trigger` starts at time 0, a first edge is accepted only from the debounce time on |
| `Input.TwoEdges` | src/input.rs:34-38 | two edges Δ apart give one event when Δ < debounce and two when Δ ≥ debounce |
| `Input.MonitorStep` | src/input.rs:30-54 | one observed edge keeps the monitor's bookkeeping consistent; after the post-acceptance hold, the next observed edge is always accepted |
| `Input.InputMonitor.constructor` | src/input.rs:19-28 | a monitor starts with `last_trigger` at time 0 and nothing observed |
| `Input.InputMonitor.OnEdge` | src/input.rs:30-54 | an accepted edge sets `last_trigger` to now and offers exactly one event (this input, now) to the channel, dropped when the channel is full, then holds for the debounce; a rejected edge changes nothing |
| `Input.Remaining` | src/input.rs:83-94 | the remaining cooldown is at most the duration; it is positive exactly while cooling down, and then the cooldown ends at last + duration |
| `Input.RemainingNonIncreasing` | src/input.rs:83-94 | with no new trigger, the remaining time never grows as time passes, and a finished cooldown stays finished |
| `Input.TriggerStartsCooldown` | src/input.rs:79-88 | right after a trigger, the input is cooling down exactly when the duration is positive, and the full duration remains |
| `Input.CooldownEnds` | src/input.rs:71-77 | a trigger at `last` keeps the input cooling down exactly until `last + duration` |
| `Input.CooldownTracker.constructor` | src/input.rs:64-69 | every slot starts empty, so nothing is cooling down |
| `Input.CooldownTracker.IsCoolingDown` | src/input.rs:71-77 | true exactly when the slot holds a trigger time `last` and `now < last + duration` |
| `Input.CooldownTracker.MarkTriggered` | src/input.rs:79-81 | the input's slot becomes `now` and the other seven slots are unchanged; the input is then cooling down exactly when the duration is positive |
| `Input.CooldownTracker.RemainingMs` | src/input.rs:83-94 | the remaining cooldown, at most the duration, and positive exactly while cooling down |
| `Control.FirstMatch` | src/bin/main.rs:178 | None exactly when no entry has the input as its trigger; otherwise the earliest entry that does |
| `Control.FirstMatchUnique` | src/bin/main.rs:46-50 | with distinct triggers, the entry found for an input is its only entry |
| `Control.Decide` | src/bin/main.rs:167-195 | an event is ignored, with a positive remaining time, exactly while its input cools down; otherwise it is unmapped exactly when no entry matches, and otherwise the first matching entry runs; an ignored event reports the remaining cooldown |
| `Control.ConfigTable` | src/bin/main.rs:46-50 | DI1 maps to JUMP_SCARE with 5000 ms and DI2 to SNAKE_SEQUENCE with 30000 ms; no trigger appears twice; the other inputs are unmapped |
| `Control.CooldownScenario` | src/bin/main.rs:168-191 | DI1 runs; 1000 ms later it is ignored with 4000 ms left; 5000 ms later it runs again; DI2 is still cooling down at 29999 ms; DI3 is unmapped |
| `Control.MonitorTable` | src/bin/main.rs:110-148 | eight monitors, one per input in order, each on its input's GPIO and with a 100 ms debounce |
| `Control.SequenceDispatcher.constructor` | src/bin/main.rs:160 | the dispatcher holds the table and no input has triggered |
| `Control.SequenceDispatcher.FindConfig` | src/bin/main.rs:178 | returns None exactly when no entry matches; otherwise the first entry whose trigger is the input |
| `Control.SequenceDispatcher.MarkTriggered` | src/bin/main.rs:182 | the input's slot becomes `now`; the other slots are unchanged (the per-entry-duration counterpart of `Input.CooldownTracker.MarkTriggered`) |
| `Control.HandleEvent` | src/bin/main.rs:167-195 | the decision is `Decide` on the old slot. Ignored and unmapped events change neither the cooldowns nor the driver. A run first sets the slot to `now` and then executes the sequence; its result does not undo the cooldown |
| `Control.ControlStep` | src/bin/main.rs:162-196 | handles the oldest queued event and removes it, one at a time in receive order; an empty channel changes nothing. For a queued event the decision is `Decide` on its old slot; ignored and unmapped events change neither the cooldowns nor the driver; a run sets the slot to `now`, leaves the other slots, and leaves the driver in the state `Run` gives from `now`, so the step ends no earlier than `now` and the clock never goes back |
| `Control.Start` | src/bin/main.rs:73-78 | the driver sits at 0x20 and is initialised; a failed init still returns a controller, with an empty channel, a fresh dispatcher over SEQUENCE_CONFIGS and eight monitors |
| `Control.StartMonitors` | src/bin/main.rs:93-101 | one monitor per table entry, with that entry's input and debounce, all on the one shared channel |

## Left out

- Async execution is not modelled: the embassy executor, task spawning, `.await` suspension and
  the controller's `Mutex`. The lock only gives exclusive use of the driver. So one sequence run is
  one uninterrupted method call, and one control-loop iteration handles one event to completion.
- `Instant::now()` becomes an explicit `now` argument. `Timer::after` becomes a ghost clock on the
  driver (in the relay controller) or a ghost wake-up time (in a monitor).
- `wait_for_rising_edge` is not modelled. The caller supplies the time of each observed edge.
  Edges during a monitor's debounce hold are never observed, which is a precondition of `OnEdge`.
- Durations are whole milliseconds. The tick resolution of embassy-time, and the rounding of
  `as_millis` in `remaining_ms`, are not modelled.
- `u64` timestamps and the `u32` debounce and cooldown arguments are unbounded `nat`s, because
  wrap-around needs uptimes far beyond the prop's.
- The embassy `Channel` internals are replaced by a bounded FIFO of capacity 16. A receive on an
  empty channel would suspend; the model returns None instead.
- The real I2C transaction is replaced by an appended write log and a failure oracle. Bus error
  values are collapsed to a single `Err`.
- All `defmt` logging and message text is left out. Configuration names are kept only as data.
- Peripheral bring-up is left out (src/bin/main.rs:53-72, 80-107): clocks, the heap, the timer,
  I2C and GPIO pin configuration with pull-ups, and the spawner. Monitor start-up is modelled
  only as creating the eight monitor objects.
- The unused registers are left out: `Register::InputPort` and `Register::Polarity`.
- The unused pin constants are left out: Ethernet, buzzer and I2C (src/hardware.rs:21-33).
- The dispatcher's `is_cooling_down` and `remaining_ms` are not separate members. `HandleEvent`
  evaluates the same `CoolingDown` and `Remaining` definitions that `CooldownTracker` uses,
  with the input's per-entry duration.
- `SequenceStep`, `SequenceConfig` and `SequenceDispatcher` are reconstructions. They are
  faithful only to how the shown files use them.
- `CooldownTracker` itself, with its single shared duration, is modelled as written. The firmware
  reports each entry's own `cooldown_ms`, so the dispatcher uses per-entry durations.
