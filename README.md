# PV inverter bridge: MQTT meter readings to a Victron DBus service

The bridge subscribes to the `ehzmeter/#` topics of an MQTT broker. There an energy
meter logger publishes four readings:

- the total PV power (`ehzmeter/pvpower`);
- today's energy (`ehzmeter/pvtoday`);
- the cumulative energy counter in 0.1 Wh (`ehzmeter/pvtotal`);
- the three phase powers as `p1,p2,p3` (`ehzmeter/pvpwrl123`).

Every ten seconds the bridge republishes them on a DBus service of type
`com.victronenergy.pvinverter`. It writes the total power, the energy since the
installation day in kWh (`e_total / 10000 - 73311`), and for each phase the current at
230 V, the power and a fixed share (0.576 / 0.212 / 0.212) of the energy. Each cycle
then advances the revision counter `/UpdateIndex`, which wraps from 255 to 0.

The repository holds two variants, and both are modelled:

- **Refactored** (`pvinverter_new_refactored_untested.py`):
  - a lock-protected measurement store (`MQTTDataStore`), modelled as the class
    `Store.DataStore`;
  - an MQTT client with exponential reconnect back-off (`MQTTClient`), modelled as
    `Ingest.MqttClient`;
  - a DBus publisher (`DbusPVInverter`), modelled as `Publisher.PvInverter`.
- **Original** (`pvinverter_new.py`): module globals rebound by `on_message` and
  `on_disconnect`, and `DbusDummyService2._update`. All of it is in module `Legacy`.
  The globals become the fields of the class `Legacy.Bridge`, and the service becomes
  `Legacy.DummyService`.

How the model represents the program:

- **Numbers and rounding.** Readings are exact reals. Python's `float()` on a payload
  is a parameter `parse: string -> Option<real>`, where `None` means `ValueError`.
  Python's `round` is round-half-to-even on exact reals.
- **The DBus service** is a map from `Sink.Path` to `Sink.Value` (int or float). A
  publish cycle is the sequence of assignments it issues, and `Sink.ApplyWrites`
  folds that sequence into the map. Each `Update` method is proved to leave exactly
  `ApplyWrites(old service, <the cycle's writes>)`. Separate lemmas state what every
  path then holds.
- **Write failures.** In the refactored cycle, one `try` covers every assignment, so
  an assignment that raises skips the rest of the cycle, including the index bump.
  The set of paths whose write raises is a parameter, and `Sink.Attempted` gives the
  writes that get through.
- **Back-off.** The refactored client's back-off is tied to the number of reconnects
  scheduled since the last successful connection: `Backoff.DelayAfter`.

Behaviours of the code worth knowing, each proved below:

- **Phase updates are not all-or-nothing.** A phase payload with the wrong number of
  parts changes nothing. But the three parts are converted and assigned one after the
  other. So when the second part does not convert, L1 is already replaced
  (`Ingest.PartialPhaseUpdate`, `Legacy.PhaseAssignments`).
- **Net energy.** The formula `e_total / 10000 - 73311` maps a counter of 733120000
  to 1.0 kWh, and 733111000 to 0.1 kWh (`Derived.ReferenceValues`).
- **A failing write skips the rest of the cycle.** In the refactored `_update`, one
  `try` covers every assignment. A write that raises ends the cycle, and the index is
  not advanced (`Publisher.PvInverter.Update`).
- **Voltages.** The refactored cycle never writes the voltage paths; it registers them
  at 230. The original registers them at 0 and writes 230 every cycle.
- **`/Ac/Power`.** The refactored cycle rounds it to one decimal; the original rounds
  it to a whole number.
- **Phase powers before the first reading.** The original binds `pow_l1..3` to the int
  `0`, and `round(0, 1)` is the int `0`. Its phase power paths hold int `0` until a
  phase payload converts; the refactored store starts from `0.0`
  (`Legacy.FirstCyclePowersAreInts`).

## Model

| member | source | states |
|---|---|---|
| Text.TrimStart | pvinverter_new_refactored_untested.py:184 | the result is a suffix of the input, only whitespace was dropped, and it does not start with whitespace |
| Text.TrimEnd | pvinverter_new_refactored_untested.py:184 | the result is a prefix of the input, only whitespace was dropped, and it does not end with whitespace |
| Text.Strip | pvinverter_new_refactored_untested.py:184 | `str.strip()`: the result has no whitespace at either end, is no longer than the input, and a trimmed input is left as it is |
| Text.TrimStartSplit | pvinverter_new_refactored_untested.py:184 | the input is the whitespace dropped in front followed by what is kept |
| Text.TrimEndSplit | pvinverter_new_refactored_untested.py:184 | the input is what is kept followed by the whitespace dropped at the end |
| Text.StripSurround | pvinverter_new_refactored_untested.py:184 | a payload is its stripped core with whitespace-only text on both sides |
| Text.StripIdempotent | pvinverter_new_refactored_untested.py:184 | stripping twice is stripping once |
| Text.Count | pvinverter_new_refactored_untested.py:200-201 | the separator count is at most the length, and zero exactly when the separator does not occur |
| Text.Split | pvinverter_new_refactored_untested.py:200 | `str.split(',')` always yields at least one piece |
| Text.JoinSplit | pvinverter_new_refactored_untested.py:200 | joining the pieces with the separator gives back the payload |
| Text.SplitPiecesFree | pvinverter_new_refactored_untested.py:200 | no piece contains the separator |
| Text.SplitCount | pvinverter_new_refactored_untested.py:200-201 | there is always one more piece than separators, so "3 parts" means "exactly two commas" |
| Text.SplitNoSeparator | pvinverter_new_refactored_untested.py:200 | a payload without a comma is one piece |
| Text.SplitAfterPiece | pvinverter_new_refactored_untested.py:200 | a comma-free piece followed by a comma and the rest splits to that piece followed by the rest's pieces |
| Text.SplitJoin | pvinverter_new_refactored_untested.py:200 | splitting undoes joining for comma-free pieces |
| Text.JoinThree | pvinverter_new_refactored_untested.py:200 | joining three pieces with commas puts a comma between them |
| Text.CountAppend | pvinverter_new_refactored_untested.py:200-201 | the separators of two texts laid end to end are the separators of each, added |
| Text.SplitCountSurrounded | pvinverter_new.py:90 | comma-free text around a payload leaves its piece count unchanged |
| Text.SplitThreeSurrounded | pvinverter_new.py:90 | comma-free text around a three-piece payload only extends its first and last pieces |
| Numeric.Min | pvinverter_new_refactored_untested.py:216 | `min`: no larger than either argument and equal to one of them |
| Numeric.RoundHalfEven | pvinverter_new.py:139 | `round(x)`: within 0.5 of `x`, and even on a tie |
| Numeric.Round1 | pvinverter_new_refactored_untested.py:298-301 | `round(x, 1)`: within 0.05 of `x`, with at most one decimal digit |
| Numeric.Round1Exact | pvinverter_new_refactored_untested.py:298 | a value with one decimal digit is left alone by `round(x, 1)` |
| Backoff.ArmedDelay | pvinverter_new_refactored_untested.py:216 | the armed delay is capped at 300 s and is either the current delay or the cap |
| Backoff.NextDelay | pvinverter_new_refactored_untested.py:223 | the next delay never exceeds 300 s nor 1.5 times the old one, never shrinks within [0, 300], and is one of those two: `min(d * 1.5, 300)` |
| Backoff.DelayAfter | pvinverter_new_refactored_untested.py:211-223 | after any number of schedules the delay lies in [5, 300] |
| Backoff.ArmedDelays | pvinverter_new_refactored_untested.py:211-223 | the n-th schedule after a reset arms exactly the n-th delay of the sequence |
| Backoff.DelayAfterMonotone | pvinverter_new_refactored_untested.py:223 | delays never shrink while failures accumulate |
| Backoff.DelayAfterClosedForm | pvinverter_new_refactored_untested.py:223 | the n-th delay is `min(5 * 1.5^n, 300)` |
| Backoff.DelaySaturates | pvinverter_new_refactored_untested.py:42-43 | the delay reaches the 300 s ceiling at the eleventh schedule and stays there, and not before |
| Backoff.FirstThreeDelays | pvinverter_new_refactored_untested.py:211-223 | three failures in a row arm 5, 7.5 and 11.25 s |
| Store.AssignPhases | pvinverter_new_refactored_untested.py:96-101 | `update_phase_powers`: each phase takes its parsed value only if it and every phase before it converted, and no other field changes |
| Store.Initial | pvinverter_new_refactored_untested.py:68-76 | the seed reads zero everywhere but the energy counter, which holds 733110000 (the installation-day offset in 0.1 Wh), and is not connected |
| Store.DataStore.constructor | pvinverter_new_refactored_untested.py:68-76 | a new store holds the initial seed |
| Store.DataStore.UpdatePower | pvinverter_new_refactored_untested.py:78-82 | the total power takes the parsed value exactly when conversion succeeds; otherwise nothing changes |
| Store.DataStore.UpdateEnergyToday | pvinverter_new_refactored_untested.py:84-88 | today's energy takes the parsed value exactly when conversion succeeds; otherwise nothing changes |
| Store.DataStore.UpdateEnergyTotal | pvinverter_new_refactored_untested.py:90-94 | the energy counter takes the parsed value exactly when conversion succeeds; otherwise nothing changes |
| Store.DataStore.UpdatePhasePowers | pvinverter_new_refactored_untested.py:96-102 | the store becomes `AssignPhases` of the old one; success is reported exactly when all three parts convert |
| Store.DataStore.SetConnected | pvinverter_new_refactored_untested.py:104-108 | only the connection flag changes |
| Store.DataStore.GetAll | pvinverter_new_refactored_untested.py:110-121 | the snapshot carries every field's current value |
| Ingest.ApplyMessage | pvinverter_new_refactored_untested.py:181-209 | a message never touches the connection flag, and each reading changes only under its own topic |
| Ingest.UnknownTopicIgnored | pvinverter_new_refactored_untested.py:189-198 | a topic other than the four changes nothing |
| Ingest.ScalarMessage | pvinverter_new_refactored_untested.py:189-196 | a scalar topic sets its reading to the stripped payload's value, and a payload that does not convert changes nothing |
| Ingest.WrongPartCountIgnored | pvinverter_new_refactored_untested.py:199-203 | a phase payload without exactly two commas changes nothing |
| Ingest.ThreePhaseValues | pvinverter_new_refactored_untested.py:184-204 | any payload that strips to `a,b,c` with three convertible parts sets L1, L2, L3 to them and nothing else |
| Ingest.PartialPhaseUpdate | pvinverter_new_refactored_untested.py:184-206 | for any payload that strips to three comma-free parts `a,b,c`, the store is assigned part by part (`AssignPhases`) whichever parts convert; in particular when only the second part fails, L1 is already replaced and L2, L3 keep their values |
| Ingest.MqttClient.constructor | pvinverter_new_refactored_untested.py:131-140 | a new client starts at the 5 s delay with no timer armed |
| Ingest.MqttClient.ScheduleReconnect | pvinverter_new_refactored_untested.py:211-223 | the armed delay is the capped current delay, which equals `DelayAfter(retries)`; the delay then grows by 1.5 up to 300 s |
| Ingest.MqttClient.Connect | pvinverter_new_refactored_untested.py:142-150 | a connect that raises schedules a reconnect with the next back-off delay; one that succeeds changes nothing here |
| Ingest.MqttClient.Disconnect | pvinverter_new_refactored_untested.py:152-158 | the armed reconnect is cancelled and the back-off is kept |
| Ingest.MqttClient.OnConnect | pvinverter_new_refactored_untested.py:160-170 | the store's connection flag becomes `rc == 0`; success resets the delay to 5 s |
| Ingest.MqttClient.OnDisconnect | pvinverter_new_refactored_untested.py:172-179 | the store is marked disconnected; an unexpected disconnect (`rc != 0`) arms the next back-off delay, and a clean one leaves the back-off alone |
| Ingest.MqttClient.OnMessage | pvinverter_new_refactored_untested.py:181-209 | the store changes exactly as `ApplyMessage` says |
| Sink.PathCases | pvinverter_new_refactored_untested.py:258-269 | the measurement paths are exactly the fifteen that are registered |
| Sink.NamesDistinct | pvinverter_new_refactored_untested.py:258-269 | two paths have the same DBus object path string exactly when they are the same path |
| Sink.ApplyWrites | pvinverter_new_refactored_untested.py:280-305 | the service after a run of `service[path] = value` assignments in order; the last assignment's path holds its value |
| Sink.ApplyWritesFrame | pvinverter_new_refactored_untested.py:280-305 | a cycle's assignments add exactly the paths they name and leave every other path as it was |
| Sink.ApplyWritesLastWins | pvinverter_new_refactored_untested.py:280-305 | a path holds the last value assigned to it |
| Sink.ApplyWritesSnoc | pvinverter_new_refactored_untested.py:280-305 | one more assignment updates one more path |
| Sink.ApplyWritesAppend | pvinverter_new_refactored_untested.py:280-305 | issuing two runs of assignments in turn is issuing their concatenation |
| Sink.ApplyThreeWrites | pvinverter_new_refactored_untested.py:299-301 | three assignments are three map updates in order |
| Sink.Attempted | pvinverter_new_refactored_untested.py:273-313 | the writes that get through are a prefix of the cycle, none of them fails, and the write after them is the one that raised |
| Sink.AttemptedAll | pvinverter_new_refactored_untested.py:273-313 | when no write fails, the whole cycle gets through |
| Sink.NextIndex | pvinverter_new_refactored_untested.py:304 | `(i + 1) % 256` stays in [0, 255], counts up below 255 and wraps 255 to 0 |
| Sink.IndexAfter | pvinverter_new_refactored_untested.py:303-304 | after at least one cycle, or from an in-range start, the index lies in [0, 255] |
| Sink.IndexAfterClosedForm | pvinverter_new_refactored_untested.py:303-305 | after n cycles the index is `(i + n) % 256` |
| Sink.IndexFullCycle | pvinverter_new_refactored_untested.py:303-305 | the index first returns to its start after exactly 256 cycles |
| Derived.NetEnergyKWh | pvinverter_new_refactored_untested.py:277 | the net energy times 10000 plus the offset gives back the counter, and it is zero exactly at the initial seed |
| Derived.CurrentAt | pvinverter_new_refactored_untested.py:298 | the current times 230 V is the phase power, with the same sign |
| Derived.Share | pvinverter_new_refactored_untested.py:291-295 | each phase's energy share lies strictly between 0 and 1 |
| Derived.PhaseEnergiesAddUp | pvinverter_new_refactored_untested.py:291-295 | before rounding, the three phase energies add up to the net energy |
| Derived.ReferenceValues | pvinverter_new_refactored_untested.py:277-298 | the seed counter reads 0 kWh, 733120000 reads 1.0 kWh, 733111000 reads 0.1 kWh, and phase powers 230, 460, 0 W give 1.0, 2.0, 0.0 A |
| Publisher.Registered | pvinverter_new_refactored_untested.py:258-269 | `_setup_paths` registers every measurement path, the voltages at 230 and everything else at 0 |
| Publisher.PhasesFrom | pvinverter_new_refactored_untested.py:297-301 | the phase loop from the k-th phase on issues three writes per remaining phase |
| Publisher.PhasesFromStep | pvinverter_new_refactored_untested.py:297-301 | each pass of the phase loop issues its three writes and leaves the later phases' writes |
| Publisher.CycleWrites | pvinverter_new_refactored_untested.py:279-305 | a cycle issues twelve assignments, the last of which sets the index to `(i + 1) % 256` |
| Publisher.CycleWritesSplit | pvinverter_new_refactored_untested.py:279-305 | a cycle is the two totals, then the phase loop, then the index |
| Publisher.CycleWritesListed | pvinverter_new_refactored_untested.py:297-301 | the phase loop writes L1, then L2, then L3 |
| Publisher.PhaseNumber | pvinverter_new_refactored_untested.py:284-288 | each phase's position in the loop order |
| Publisher.AfterCycleLookup | pvinverter_new_refactored_untested.py:279-305 | after the cycle's map updates each path holds the value written to it, and the voltages are untouched |
| Publisher.CycleAsUpdates | pvinverter_new_refactored_untested.py:279-305 | a complete cycle is the chain of map updates in the code's order |
| Publisher.CycleEffect | pvinverter_new_refactored_untested.py:279-305 | after a complete cycle: `/Ac/Power` is the total power rounded to 0.1, `/Ac/Energy/Forward` the rounded net energy, each phase carries its rounded current, power and energy share, the voltages keep their values, and the index advances modulo 256 |
| Publisher.PvInverter.constructor | pvinverter_new_refactored_untested.py:243-269 | the service starts with every path registered: 230 on the voltages, 0 elsewhere, index 0 |
| Publisher.PvInverter.Put | pvinverter_new_refactored_untested.py:299-301 | an assignment either updates one path and moves on, or raises, changes nothing and ends the cycle |
| Publisher.PvInverter.PublishTotals | pvinverter_new_refactored_untested.py:280-281 | total power and energy are written first, or the cycle ends where one raised |
| Publisher.PvInverter.PublishPhase | pvinverter_new_refactored_untested.py:298-301 | one loop pass writes current, power, energy of its phase, or the cycle ends where one raised |
| Publisher.PvInverter.PublishPhases | pvinverter_new_refactored_untested.py:297-301 | the loop writes the three phases in order, or the cycle ends where one raised |
| Publisher.PvInverter.Update | pvinverter_new_refactored_untested.py:271-313 | `_update` issues exactly the prefix of the cycle's writes that gets through, the service is those writes applied to the old one, the index stays in [0, 255], and it always returns True |
| Legacy.InitialGlobals | pvinverter_new.py:33-48 | read as numbers the module-load globals are the refactored store's seed, and the phase powers are still ints |
| Legacy.Dispatch | pvinverter_new.py:76-94 | `on_message` rebinds only the global of its topic, never `verbunden`; an unknown topic neither raises nor changes anything; a scalar topic raises exactly when conversion fails, and then changes nothing |
| Legacy.UnpackFailsFirst | pvinverter_new.py:90 | unpacking a phase payload without exactly two commas raises before any phase is assigned |
| Legacy.PhaseAssignments | pvinverter_new.py:89-93 | `a,b,c` assigns the phases in order as floats; it raises exactly when a part fails to convert, and the parts before it stay assigned |
| Legacy.AsSnapshot | pvinverter_new.py:33-48 | the globals read as a snapshot, int or float phase powers as their numbers: connected exactly when `verbunden == 1` |
| Legacy.HandlersAgree | pvinverter_new.py:76-94 | on a payload without surrounding whitespace, both variants' handlers leave the same readings |
| Legacy.LeadingSpaceIgnored | pvinverter_new.py:84 | leading whitespace does not change what `float` makes of a text |
| Legacy.TrailingSpaceIgnored | pvinverter_new.py:84 | trailing whitespace does not change what `float` makes of a text |
| Legacy.StripIgnored | pvinverter_new_refactored_untested.py:184 | the whitespace `strip()` removes does not change what a payload converts to |
| Legacy.StrippedPiecesAgree | pvinverter_new_refactored_untested.py:184-204 | splitting the raw or the stripped payload gives the same piece count, and three pieces that convert alike |
| Legacy.HandlersAgreeOnReadings | pvinverter_new.py:76-94 | with `float` ignoring surrounding whitespace, the two variants' handlers leave the same readings on every topic and payload, so the refactored `strip()` changes nothing |
| Legacy.Bridge.constructor | pvinverter_new.py:33-48 | loading the module binds the initial globals: `verbunden` 0, readings 0, energy counter 733110000 |
| Legacy.Bridge.OnMessage | pvinverter_new.py:76-94 | the globals and the raised flag are exactly what `Dispatch` says |
| Legacy.Bridge.OnDisconnect | pvinverter_new.py:52-69 | for any `rc`, `verbunden` becomes 1 when the immediate reconnect succeeds and 0 when it raises; nothing else changes |
| Legacy.WrapIndex | pvinverter_new.py:145-148 | the wrapped index never exceeds 255, is never negative for a non-negative input, agrees with `(i + 1) % 256` on [0, 255], and stays negative below -1 |
| Legacy.WrapIndexAfter | pvinverter_new.py:145-148 | starting in range, any number of cycles keeps the index in [0, 255] and equal to the refactored counter |
| Legacy.LegacyRegistered | pvinverter_new.py:166-182 | `main` registers every measurement path, each at 0 |
| Legacy.RegistrationsDiffer | pvinverter_new.py:166-182 | both variants register the same paths; only the voltages start differently (0 against 230) |
| Legacy.RoundTenth | pvinverter_new.py:136-138 | `round(v, 1)` keeps an int an int and unchanged, and is numerically `round(x, 1)` |
| Legacy.LegacyList | pvinverter_new.py:124-148 | the fourteen assignments and the index, in order: fifteen writes ending with the index |
| Legacy.LegacyWrites | pvinverter_new.py:124-148 | `_update` issues fifteen assignments, the last of which sets the wrapped index |
| Legacy.AfterLegacyCycleLookup | pvinverter_new.py:124-149 | after the fourteen map updates and the index, every path is present and holds the value written to it |
| Legacy.LegacyListAsUpdates | pvinverter_new.py:124-148 | the fifteen writes, whatever their values, are the chain of map updates in the code's order |
| Legacy.LegacyAsUpdates | pvinverter_new.py:124-149 | a legacy cycle is the chain of map updates in the code's order |
| Legacy.LegacyCycleEffect | pvinverter_new.py:124-149 | after a cycle every path is written: 230 on each voltage, each phase's rounded current and energy share, its power as `round(pow_lx, 1)` (an int while the global is the initial int), `/Ac/Power` rounded to a whole number, and the wrapped index |
| Legacy.CyclesAgree | pvinverter_new.py:124-149 | from the same readings and an in-range index, both cycles leave the same number on every path except `/Ac/Power` and the voltages, and the same value except on the power of a phase whose global is still the initial int |
| Legacy.FirstCyclePowersAreInts | pvinverter_new.py:46-48 | from the module-load globals a cycle writes int `0` to each phase power, where the refactored cycle from its seed writes `0.0` |
| Legacy.DummyService.constructor | pvinverter_new.py:163-182 | the service starts with every path registered at 0 |
| Legacy.DummyService.Update | pvinverter_new.py:124-149 | `_update` leaves exactly the fourteen writes and the wrapped index applied to the old service, and returns True |

## Left out

- The MQTT transport is not modelled: paho's `connect`, `loop_start`, `loop_stop`,
  `subscribe`, `disconnect` and payload decoding. Only the callbacks' effect on state
  is kept. A payload is the already decoded string.
- The reconnect `Timer` thread is not modelled. An armed timer is the delay it was
  armed with, and its firing is a later call to `connect`.
- The `Lock` is not modelled. Each store method is one atomic step, which is all the
  lock provides.
- Concurrency between the MQTT thread and the GLib loop is not modelled.
- Binary floating point is not modelled. Readings and rounding are on exact reals, so
  cases where a binary double rounds differently (such as `round(2.675, 2)`) are not
  captured.
- `float()` is an arbitrary parser. Its accepted syntax is not modelled.
  `Legacy.HandlersAgreeOnReadings` takes as a hypothesis that it ignores surrounding
  whitespace.
- The original script has Python 2 fallbacks, under which `/` on integers and `round`
  behave differently. The model uses Python 3 semantics throughout.
- The management and static DBus paths (`/Mgmt/*`, `/DeviceInstance`, `/ProductId`,
  ...) are left out. They are constant registrations.
- The original's accept-all `_handlechangedvalue` is left out, so outside writes to
  its writeable paths are not modelled. `Legacy.DummyService` assumes `/UpdateIndex`
  holds an integer.
- The original's `on_connect` only subscribes and is left out.
- The `Application` class, signal handlers, `main` and the GLib main loop are left
  out, and so is the ten-second `timeout_add` that fires `_update`.
- Logging and `print` are left out.
- The unused globals `durchlauf`, `volt_*`, `amp_*` and `e_totkwh` are left out. The
  last is shadowed by a local in `_update`.
- Legacy.DummyService.Update: non-finite readings are not modelled. `float()` accepts
  `"nan"` and `"inf"`, and `round(pow_ges)` then raises after thirteen assignments,
  before the index is advanced, so `_update` returns no value. Readings here are
  finite reals. (The refactored cycle only calls `round(x, 1)`, which does not raise
  on them.)
- Legacy.DummyService.Update: a service assignment that raises is not modelled. The
  exception would leave `_update` without a return value, and what GLib then does with
  the timer is outside the model.
- Legacy.Bridge.OnMessage: returns whether the handler raised. What paho then does
  with the exception is not modelled.
- Ingest.MqttClient.Disconnect: the timer's cancellation is modelled as clearing
  `pending`. The stopped network loop and the disconnect callback it triggers are not.
- Ingest.MqttClient.Connect: a connect that succeeds is modelled as changing nothing.
  The connection it opens reaches the model only through `OnConnect`.
