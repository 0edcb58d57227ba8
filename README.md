# DS18B20 driver and Home Assistant publisher of pico-home-assistant

This project models, in Dafny, the firmware core of a Raspberry Pi Pico W
temperature sensor:

- the bit-banged DS18B20 1-Wire driver (`ds18b20.c`): the reset and
  presence probe, the write and read bit slots, LSB-first bytes, the
  two-phase temperature transaction (reset, SKIP ROM 0xCC, CONVERT T 0x44,
  750 ms, reset, SKIP ROM, READ SCRATCHPAD 0xBE, nine byte reads), and
  the validation of the raw sample;
- the host-testable copies of the two pure helpers
  (`tests/unit/ds18b20_utils.c`);
- the publication state machines of `sensor.c`. These are:
  - the worker's availability → discovery → temperature sequence;
  - the once-only discovery flag;
  - the subscription counter and its disconnect rule;
  - the dispatch of incoming messages and the LED command;
  - `full_topic`;
  - the client id, device id and topic strings built in `main`.

Files:

- `hal.dfy` (module `Hal`) models the Pico SDK calls the driver makes.
  - `Board` is a class holding:
    - the pin's direction, its output latch and the pull-up;
    - the interrupt-enabled flag;
    - a device script: the levels the device presents at successive
      samples;
    - the trace of calls made.
  - `Board.Valid()` says that the direction, the latch and the interrupt
    flag are what the calls in the trace leave behind, from the power-up
    state. Every SDK method and every driver method keeps it.
  - Past the end of the script the line reads high, because the pull-up
    wins when nothing drives it.
  - Functions over the trace read off busy-wait time, sleep time, the time
    the host holds the line low, the instants of the samples, the interrupt
    state, and whether every line operation ran masked.
- `bits.dfy` (module `Bits`): bit `i` of a byte, tested as the driver tests
  it (`v & (1 << i)`).
- `ds18b20.dfy` (module `Ds18b20`) holds the driver class and the
  specification functions its methods are proved against.
  - Each primitive is a method of `Driver`. Its postcondition gives the
    new trace as a function of the old one and states the result.
  - `read_temperature` is also described as protocol steps (`BusStep`),
    and lemmas connect the steps to the trace and to the bytes sent and
    received.
- `ds18b20_timing.dfy` (module `Ds18b20Timing`) proves, for every slot,
  reset, byte, command and scratchpad read and for each path of the whole
  transaction:
  - its length in µs;
  - how long the line is held low;
  - the instants of the samples, and that the line is released at each
    one;
  - the pin state left behind;
  - that interrupts are masked around every line operation and restored
    afterwards.
  - For the whole transaction the low time and the sample instants are in
    `TransactionLow` and `TransactionSamples`, beside `TransactionTiming`.
- `ds18b20_reading.dfy` (module `Ds18b20Reading`) covers the validation of
  the two temperature bytes, the result of each transaction path, and the
  0xFFFF finding below.
- `ds18b20_utils.dfy` (module `Ds18b20Utils`) models the host copies of the
  unit conversion and the error text, and proves they agree with the
  driver's copies.
- `sensor.dfy` (module `Sensor`) models the client state of `sensor.c` as a
  class.
  - Its callbacks and the worker are methods that append the calls they
    make (to the MQTT client, the LED and the scheduler) to an action log.
  - What the network answers comes in as method parameters:
    - whether the client is connected;
    - the result of `mqtt_publish`;
    - the callbacks' error codes;
    - the uptime clock.
  - A `panic` or a failed `assert` sets `halted`. Nothing runs after that.

## Model

| member | source | states |
|---|---|---|
| Ds18b20.Int16 | ds18b20.c:209 | storing a 16-bit word in an int16_t gives a value in [-32768, 32767] whose residue mod 65536 is the word |
| Ds18b20.Driver.constructor | ds18b20.c:15 | the driver starts on GPIO 2 |
| Ds18b20.Driver.Init | ds18b20.c:37-69 | stores the pin; gpio_init, input, pull-up, 10 ms settle, then the reset probe with interrupts saved and restored; returns OK iff the sampled level is low, else NO_DEVICE; leaves the line an input with pull-up; consumes one sample |
| Ds18b20.Driver.Reset | ds18b20.c:74-95 | presence iff the sampled level is low; the trace is the 500/70/240 µs reset cycle inside save/restore; the line is left released; the interrupt state is restored |
| Ds18b20.Driver.WriteBit | ds18b20.c:100-120 | the trace is the write slot for the bit (6/64 µs for a 1, 60/10 µs for a 0) inside save/restore; no sample; the line is left released |
| Ds18b20.Driver.ReadBit | ds18b20.c:125-144 | returns the level sampled; the trace is the 6/9/55 µs read slot inside save/restore; one sample; the line is left released |
| Ds18b20.Driver.WriteByte | ds18b20.c:149-153 | the trace is eight write slots, slot i carrying bit i of the byte (LSB first); no sample |
| Ds18b20.Driver.ReadByte | ds18b20.c:158-166 | returns the byte whose bit i is the level of the i-th slot; the trace is the eight read slots of that byte; eight samples |
| Ds18b20.Driver.SkipRomCommand | ds18b20.c:184-197 | SKIP ROM then the function command, as two write bytes |
| Ds18b20.Driver.ReadScratchpadBytes | ds18b20.c:199-206 | nine byte reads, 72 samples; the first two bytes are returned as the temperature LSB and MSB |
| Ds18b20.Driver.ReadTemperature | ds18b20.c:171-225 | a null destination returns TIMEOUT and leaves the board as it was (trace, samples, direction, latch, pull-up, interrupts); otherwise the result and `*temperature_c` are those of `Outcome`, and the trace is `TransactionOn`, with exactly `SamplesUsed` samples taken; the interrupt state and pull-up are unchanged |
| Ds18b20.RawSample | ds18b20.c:209 | `(temp_msb << 8) \| temp_lsb` stored in an int16_t: a value in [-32768, 32767]; `Ds18b20Reading.RawSampleBytes` and `Int16RoundTrip` give its bytes and its inverse |
| Ds18b20.Sentinel | ds18b20.c:212 | the three-way test as written, against 0x0550, 0xFFFF and 0; `Ds18b20Reading.AllOnesNeverSentinel` shows the middle arm never fires |
| Ds18b20.Validate | ds18b20.c:208-224 | the decision on the two bytes: sentinel, then the stored raw/16, then the range test; its properties are those of `Ds18b20Reading.ValidateAccepts` and `AcceptedInRange` |
| Ds18b20.Outcome | ds18b20.c:171-225 | the result code and `*temperature_c` of a transaction for a device script; its properties are those of `Ds18b20Reading.OutcomeCases` |
| Ds18b20.CelsiusToFahrenheit | ds18b20.c:230-232 | the driver's conversion: the result converts back to the input by (f - 32)·5/9 |
| Ds18b20.ErrorString | ds18b20.c:237-250 | "Unknown error" exactly for codes outside -3..0, the four result codes |
| Ds18b20.Driver.CheckSample | ds18b20.c:208-224 | the status of `Validate`; a sentinel leaves `*temperature_c` untouched, otherwise it holds raw/16 even when the range check then fails |
| Ds18b20.FirstResetAbsent | ds18b20.c:180-182 | with no presence on the first reset the transaction is a single reset, one sample, NO_DEVICE with 0.0 |
| Ds18b20.SecondResetAbsent | ds18b20.c:184-194 | with no presence on the second reset the transaction is reset, 0xCC, 0x44, 750 ms, reset; two samples; NO_DEVICE with 0.0 |
| Ds18b20.CommandTrace | ds18b20.c:180-197 | the command prefix of steps expands to the calls reset, 0xCC, 0x44, sleep, reset, 0xCC, 0xBE |
| Ds18b20.ExpandReads | ds18b20.c:204-206 | each received byte appended to any step sequence adds the eight read slots of that byte |
| Ds18b20.ReadsTrace | ds18b20.c:180-206 | the command prefix followed by n byte reads expands to the command calls followed by the read slots of the first n scratchpad bytes |
| Ds18b20.FullTrace | ds18b20.c:180-206 | with both presence pulses the transaction is the command prefix and nine scratchpad bytes, 74 samples, and the reading is decided on bytes 0 and 1 |
| Ds18b20.ByteFromBit | ds18b20.c:158-166 | bit j of the byte accumulated after n slots is the level of slot j when j < n, and clear otherwise |
| Ds18b20.SlotsAreByte | ds18b20.c:158-166 | the slots read from the device are the read slots of the byte they assemble to |
| Ds18b20.ReadByteRoundTrip | ds18b20.c:149-166 | a device presenting the bits of v LSB first, which is the order `write_byte` sends them in, makes `read_byte` return v |
| Ds18b20.TransactionExpands | ds18b20.c:171-225 | the trace of `read_temperature` is the expansion of its protocol transcript, on all three paths |
| Ds18b20.BytesOfCommand | ds18b20.c:184-197 | the command prefix writes 0xCC, 0x44, 0xCC, 0xBE and reads nothing |
| Ds18b20.ScratchpadBytes | ds18b20.c:199-206 | the first n scratchpad bytes in read order: element j is scratchpad byte j |
| Ds18b20.BytesOfReads | ds18b20.c:196-206 | after the prefix, n byte reads add nothing written and exactly the first n scratchpad bytes read |
| Ds18b20.TranscriptBytes | ds18b20.c:171-206 | bytes written and read on each path: none after a first missing presence; 0xCC, 0x44 and none read after a second; otherwise 0xCC, 0x44, 0xCC, 0xBE and the nine scratchpad bytes in order |
| Ds18b20.SecondAbsentBytes | ds18b20.c:184-194 | a missing second presence pulse leaves only 0xCC, 0x44 written and nothing read |
| Ds18b20Timing.ResetCycle | ds18b20.c:74-95 | a reset is 810 µs, 500 µs low, one sample 570 µs in with the line released, the line left released, masked throughout, the interrupt state restored |
| Ds18b20Timing.WriteSlot | ds18b20.c:100-120 | a write slot is 70 µs for either bit; the line is low 6 µs for a 1 and 60 µs for a 0, so it is released before the device samples 15 µs in exactly when the bit is 1; no sample; masked; restored |
| Ds18b20Timing.ReadSlot | ds18b20.c:125-144 | a read slot is 70 µs; 6 µs low; one sample 15 µs in with the line released; left released; masked; restored |
| Ds18b20Timing.ReadInstantsSplit | ds18b20.c:158-166 | the sample instants of a + b back-to-back read slots are those of the first a followed by those of b slots starting 70a µs later |
| Ds18b20Timing.WriteLowBounds | ds18b20.c:100-120 | n write slots hold the line low for between 6n and 60n µs |
| Ds18b20Timing.CommandLowTimes | ds18b20.c:149-153 | writing 0xCC, 0x44 and 0xBE holds the line low for 264, 372 and 156 µs |
| Ds18b20Timing.WriteByteSlots | ds18b20.c:149-153 | n write slots take 70n µs, hold the line low for the sum of their bits' low phases, take no sample, and stay masked |
| Ds18b20Timing.ReadByteSlots | ds18b20.c:158-166 | n read slots take 70n µs and sample 15 µs into each slot, with the line released |
| Ds18b20Timing.ReadByteLow | ds18b20.c:158-166 | n read slots hold the line low for 6n µs |
| Ds18b20Timing.ByteTiming | ds18b20.c:149-166 | a byte written or read takes 560 µs; a written byte is low for the sum of its slots' low phases, a read byte for 48 µs; a read samples 15 µs into each of its eight slots |
| Ds18b20Timing.InitTiming | ds18b20.c:37-69 | `init` is 10 ms of settling and the 810 µs probe; its one sample is 10570 µs after the call, with the line released; the interrupt state is restored |
| Ds18b20Timing.ScratchpadElapsed | ds18b20.c:204-206 | n scratchpad bytes take 560n µs |
| Ds18b20Timing.ScratchpadLow | ds18b20.c:204-206 | n scratchpad bytes hold the line low for 48n µs |
| Ds18b20Timing.InstantsStep | ds18b20.c:204-206 | one more byte of read slots, 560(n-1) µs after the first, extends the instants of 8(n-1) samples to those of 8n |
| Ds18b20Timing.ScratchpadSamples | ds18b20.c:204-206 | the 8n samples of n scratchpad bytes are taken 70i + 15 µs after the start of the reads |
| Ds18b20Timing.ScratchpadTiming | ds18b20.c:204-206 | n scratchpad bytes take 560n µs, 48n µs low, samples 70i + 15 µs in, all with the line released, masked |
| Ds18b20Timing.ConvertTiming | ds18b20.c:185-189 | SKIP ROM, CONVERT T and the conversion wait take 751120 µs, 636 µs of them low, with no sample |
| Ds18b20Timing.RequestTiming | ds18b20.c:196-197 | SKIP ROM and READ SCRATCHPAD take 1120 µs, 420 µs of them low, with no sample |
| Ds18b20Timing.TransactionLow | ds18b20.c:171-206 | `read_temperature` holds the line low for 500, 1636 or 2488 µs on its three paths |
| Ds18b20Timing.ResetSamples | ds18b20.c:180-194 | the presence pulses are sampled 570 µs and 752500 µs after the start, and the second reset ends 752740 µs in |
| Ds18b20Timing.FullSamples | ds18b20.c:171-206 | a full read samples at 570 and 752500 µs, then 72 times 15 µs into back-to-back slots from 753860 µs on |
| Ds18b20Timing.TransactionSamples | ds18b20.c:171-206 | the sample instants of each of the three paths: [570], [570, 752500], and those two followed by the 72 scratchpad samples |
| Ds18b20Timing.TransactionTiming | ds18b20.c:171-225 | `read_temperature` takes 810, 752740 or 758900 µs on its three paths; it takes exactly the samples the driver consumes, all with the line released; the line is left released; every line operation runs masked and the interrupt state is restored |
| Ds18b20Reading.Int16RoundTrip | ds18b20.c:209 | every int16_t value is the raw sample of its own 16-bit word |
| Ds18b20Reading.RawSampleBytes | ds18b20.c:209 | the raw sample's word has `temp_lsb` as its low byte and `temp_msb` as its high byte |
| Ds18b20Reading.ValidateAccepts | ds18b20.c:209-224 | OK iff -880 ≤ raw ≤ 2000 and raw is neither 0 nor 0x0550; the status is always OK or CRC; a sentinel gives CRC with 0.0; otherwise the value is raw/16 |
| Ds18b20Reading.AcceptedInRange | ds18b20.c:219-224 | an accepted reading lies in [-55, 125] °C and is neither 0 nor 85 °C |
| Ds18b20Reading.ValidateExamples | ds18b20.c:209-224 | 0x0191 gives OK 25.0625; 0x0550 and 0 give CRC 0.0; 0x07D0 and 0xFC90 give OK 125 and -55; 0x07E0 and 0xFC80 give CRC with 126 and -56 stored; 0xFF5E gives OK -10.125 |
| Ds18b20Reading.AllOnesNeverSentinel | ds18b20.c:212 | no raw sample equals 0xFFFF, so the sentinel test reduces to 0 and 0x0550 |
| Ds18b20Reading.AllOnesAccepted | ds18b20.c:209-224 | bytes FF FF give raw -1 and are accepted as OK -0.0625 °C |
| Ds18b20Reading.ValidateIntended | ds18b20.c:212 | the validation with the all-ones word rejected: the status is OK or CRC, and it agrees with the code on every other word |
| Ds18b20Reading.ValidateIntendedAccepts | ds18b20.c:209-224 | with the intended test, OK iff in range and not one of 0x0550, 0xFFFF, 0; the three sentinels give CRC with 0.0, FF FF included |
| Ds18b20Reading.OutcomeCases | ds18b20.c:171-225 | never TIMEOUT for a real destination; NO_DEVICE iff either reset saw no presence, with 0.0; an OK reading is in range and is raw/16 of scratchpad bytes 0 and 1 |
| Ds18b20Utils.CelsiusToFahrenheit | tests/unit/ds18b20_utils.c:6-8 | the result converts back to the input by (f - 32)·5/9 |
| Ds18b20Utils.FahrenheitExamples | tests/unit/ds18b20_utils.c:6-8 | 0→32, 100→212, -40→-40, 25→77, -10→14, 125→257, -55→-67 |
| Ds18b20Utils.FahrenheitMonotone | tests/unit/ds18b20_utils.c:6-8 | the conversion is strictly increasing in both directions, and [-55, 125] °C maps into [-67, 257] °F |
| Ds18b20Utils.ErrorString | tests/unit/ds18b20_utils.c:13-25 | "Unknown error" exactly for codes other than the four result codes |
| Ds18b20Utils.ErrorStringsDistinct | tests/unit/ds18b20_utils.c:13-25 | the four result codes have pairwise different texts |
| Ds18b20Utils.CodesAgree | ds18b20.h:22-27 | the driver's result enumerators have the values 0, -1, -2, -3 that the helpers switch on |
| Ds18b20Utils.AgreesWithDriver | tests/unit/ds18b20_utils.c:6-26 | both host helpers equal the driver's copies for every input |
| Sensor.CString | sensor.c:387-389 | the string copied into `data` is the prefix of the payload before its first NUL |
| Sensor.LowerAll | sensor.c:565-567 | lowercasing keeps the length and applies `tolower` to each character |
| Sensor.EqualIgnoringCase | sensor.c:393-398 | `lwip_stricmp(a, b) == 0`: same length and equal after `tolower` at each position |
| Sensor.EqualIgnoringCaseLower | sensor.c:393-398 | equality up to case holds exactly when the lowercased strings are equal |
| Sensor.LedCommand | sensor.c:393-398 | "On" in any case or "1" asks for on, "Off" in any case or "0" for off, anything else for nothing; `LedCommandPayloads` lists the payloads |
| Sensor.LedCommandPayloads | sensor.c:393-398 | the LED is switched on by exactly "On" in any case or "1", off by exactly "Off" in any case or "0", and any other payload is ignored |
| Sensor.FullTopic | sensor.c:292-300 | without MQTT_UNIQUE_TOPIC the name itself; with it, "/" + client id + name when that fits the buffer |
| Sensor.BasicTopic | sensor.c:380-386 | without MQTT_UNIQUE_TOPIC the received topic; with it, the rest of the topic after its first strlen(client id) + 1 characters |
| Sensor.TopicRoundTrip | sensor.c:380-386 | a message received on the full form of a topic is dispatched on the topic's own name, in both configurations |
| Sensor.StateTopic | sensor.c:221-222 | a prefix of "pico/<id>/temperature" that fits the topic buffer |
| Sensor.AvailabilityTopic | sensor.c:224-225 | a prefix of "pico/<id>/status" that fits the topic buffer |
| Sensor.ConfigTopic | sensor.c:218-219 | a prefix of "homeassistant/sensor/<id>/temperature/config" that fits the topic buffer |
| Sensor.TopicsWhole | sensor.c:218-225 | for a device id of at most 15 characters the state, availability and config topics are "pico/<id>/temperature", "pico/<id>/status" and "homeassistant/sensor/<id>/temperature/config", untruncated |
| Sensor.TopicsDistinct | sensor.c:218-225 | the state, availability and config topics never coincide |
| Sensor.TopicsInjective | sensor.c:218-225 | each topic determines the device id |
| Sensor.ClientId | sensor.c:562-573 | the device name followed by the board id, each id character passed through `tolower` |
| Sensor.DeviceId | sensor.c:577-578 | a prefix of the client id, of at most 15 characters, and the whole client id when it fits |
| Sensor.ClientIdShape | sensor.c:562-578 | the client id is "pico" followed by the four board-id characters without capitals, and the device id equals it |
| Sensor.DeviceIdFits | sensor.c:577-578 | the device id is the longest prefix of the client id of at most 15 characters |
| Sensor.LowercaseBoardId | sensor.c:565-567 | the loop lowercases the four id characters in place and keeps the terminator |
| Sensor.MakeIdentity | sensor.c:562-593 | the client id, the device id and the will topic, which is the availability topic of the device id |
| Sensor.WorkerStep | sensor.c:421-460 | one run of the worker: disconnected publishes nothing and retries in 5 s; steps 0 and 1 publish availability and discovery 2 s apart; from step 2 a temperature every TEMP_WORKER_TIME_S; `WorkerStepBounds` states its properties |
| Sensor.WorkerStepBounds | sensor.c:421-460 | the step stays in 0..3; a lost connection publishes nothing, resets to 0 and retries in 5 s; when connected the step advances to at most 3; temperatures are published exactly from step 2 on |
| Sensor.WorkerSequence | sensor.c:416-461 | over a connected run: availability first, then discovery, then temperature every run after |
| Sensor.TemperatureForever | sensor.c:446-459 | from step 2 on, every connected run publishes a temperature |
| Sensor.JobsOrdered | sensor.c:416-461 | whatever the connection does, discovery only follows availability, and a temperature only follows discovery or a temperature |
| Sensor.Requests | sensor.c:372-378 | four requests, for "/led", "/print", "/ping", "/exit" in that order |
| Sensor.Dispatch | sensor.c:380-409 | the calls made for a payload on a basic topic: the LED command, nothing for "/print", the uptime for "/ping", the four unsubscriptions for "/exit"; `DispatchFacts` states its properties |
| Sensor.DispatchFacts | sensor.c:380-409 | only the four subscribed topics cause any call; on "/led" the LED and "/led/state" follow the payload; other payloads do nothing; "/exit" unsubscribes the four topics in order |
| Sensor.Client.constructor | sensor.c:556-582 | nothing connected, none subscribed, discovery not sent, step 0, the device id and will topic derived from the client id |
| Sensor.Client.PublishHaAvailability | sensor.c:273-290 | one retained publish of "online" or "offline" on the availability topic |
| Sensor.Client.PublishHaDiscovery | sensor.c:206-271 | nothing once sent; otherwise one retained config on the config topic naming the state and availability topics, and the flag is set iff the publish returned ERR_OK |
| Sensor.Client.PublishTemperature | sensor.c:313-348 | one publish on the state topic when the deadband test passed, nothing otherwise |
| Sensor.Client.TemperatureWorker | sensor.c:416-461 | the step, the publications and the reschedule delay of `WorkerStep`; the discovery flag becomes set only by a discovery run whose publish is accepted |
| Sensor.Client.SubUnsubTopics | sensor.c:372-378 | logs the four requests of `Requests` |
| Sensor.Client.OnSubscribed | sensor.c:350-356 | an error panics; otherwise the count grows by one |
| Sensor.Client.OnUnsubscribed | sensor.c:358-370 | an error panics, and so does the assert when the count would go negative; otherwise the count drops by one, and a disconnect is requested iff none is left and a stop was asked for |
| Sensor.Client.ControlLed | sensor.c:302-311 | sets the LED, then publishes "On" or "Off" on "/led/state" |
| Sensor.Client.OnIncomingPublish | sensor.c:411-414 | keeps the topic of the message that follows |
| Sensor.Client.OnIncomingData | sensor.c:380-409 | stores the payload as a C string and its length; makes the calls of `Dispatch` on the basic topic; "/exit" sets `stop_client` |
| Sensor.Client.OnConnectionAccepted | sensor.c:466-483 | marks the client connected, clears the discovery flag, subscribes the four topics and starts the worker after 1 s |
| Sensor.Client.OnDisconnected | sensor.c:484-486 | marks the client disconnected |

## Left out

- Timing is modelled as the sum of the microseconds and milliseconds the
  driver asks `busy_wait_us` and `sleep_ms` for. The model does not cover
  the accuracy of those waits, the time the calls themselves take, or what
  interrupt masking does on the chip.
- The device is a script of levels, one per sample. It is not a model of
  the DS18B20's own behaviour, such as a presence pulse's length.
- The driver does no scratchpad CRC-8 check, so none is modelled.
- Floating point: `temp_raw / 16.0f` and the Fahrenheit formula are over
  `real`. The division is exact in `float` for every int16_t sample. The
  Fahrenheit formula is not: `c * 9.0f / 5.0f + 32.0f` rounds (0.0625 °C
  gives 32.1125 °F, which `float` cannot hold), and that rounding is not
  modelled.
- Ds18b20.CelsiusToFahrenheit and Ds18b20Utils.CelsiusToFahrenheit: the
  inverse property holds for the exact conversion only, because `float`
  rounding is left out.
- `read_onboard_temperature` is not modelled, because it is ADC and
  floating-point arithmetic.
- The 0.1° deadband in `publish_temperature` is an input `changed`,
  because it is a float comparison against a static.
- The text of the JSON payloads and `%.2f` formatting are not modelled. A
  payload is a tag naming the topics it embeds.
- The uptime is reduced to whole seconds. The 10-character formatting
  through `snprintf` is left out.
- The WiFi, DNS, TLS and MQTT client set-up and `main`'s loop
  (sensor.c:488-685) are I/O and foreign calls.
- The WiFi recovery branch of the disconnect callback is left out.
- `discovery_send_time` is written but never read, so it is not modelled.
- The failed-connection branch of `mqtt_connection_cb` only logs, so it
  is not modelled.
- `pub_request_cb` only logs, so it is not modelled.
- ping.c, scan.c, version_display.c, ds18b20_test.c and the test mocks
  are not part of this model.
- `mqtt_client_is_connected`, the `mqtt_publish` result and the callbacks'
  error codes are parameters. They are not a model of the MQTT client.
- `panic` and a failed `assert` are modelled as `halted`. After that no
  method may be called.
- Sensor.Client.OnUnsubscribed: when the assert fails, the model keeps
  the old count, while the C code has already decremented it. Nothing runs
  afterwards in either case.
- Sensor.Client.OnIncomingData requires the payload to be shorter than the
  2048-byte `data` buffer. `mqtt_incoming_data_cb` does not check this; a
  longer payload would overflow the buffer, and that is not modelled.
- Sensor.Client.OnIncomingData requires, in the MQTT_UNIQUE_TOPIC
  configuration, that the received topic is longer than the client id.
  Otherwise `basic_topic` points past the string, which is not modelled.
- Sensor.Client.OnIncomingPublish requires a topic of fewer than 200
  characters with no NUL. A longer one leaves `state->topic` without a
  terminator, which is not modelled.
- Sensor.FullTopic states the unique form only when it fits in 199
  characters; beyond that the buffer truncates it.
- Sensor.MakeIdentity and Sensor.ClientIdShape take the board id as the
  four characters that `pico_get_unique_board_id_string` writes.
  `pico_get_unique_board_id_string` itself is not part of this model.
- `lwip_stricmp` is modelled as equality up to the case of ASCII letters.
- Ds18b20.Driver.ReadTemperature is split into helper methods
  (SkipRomCommand, ReadScratchpadBytes, CheckSample). Together they make
  the same calls in the same order.

## Findings

| source | as written | input that shows it | evidently intended | confidence | as-written member | corrected member |
|---|---|---|---|---|---|---|
| ds18b20.c:212 | `temp_raw == 0xFFFF` compares an `int16_t`, promoted to `int`, with 65535, so it is never true | scratchpad bytes FF FF: raw is -1, and the reading is returned as OK with -0.0625 °C | the all-ones word (raw -1), which a bus with nothing driving it reads, is rejected as an invalid reading | not executed | Ds18b20Reading.AllOnesAccepted | Ds18b20Reading.ValidateIntendedAccepts |

The driver model keeps the behaviour as written, because the driver is
what the firmware runs. `Ds18b20Reading.ValidateIntended` is the
corrected validation; it differs from the driver's only on the all-ones
word.
