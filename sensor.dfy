/**
 * The publication logic of sensor.c: the worker that steps through
 * availability, discovery and temperature publication, the once-only
 * discovery flag, the subscription counter and its disconnect rule, the
 * dispatch of incoming messages, and the construction of the client id,
 * the device id and the topics. Every call into the MQTT client, the LED
 * and the worker scheduler is recorded as an `Action`; what the network
 * answers (connection state, publish result, callback error codes) comes
 * in as parameters.
 */
module Sensor {

  const MqttTopicLen: nat := 200
  const MqttOutputRingbufSize: nat := 2048
  const TempWorkerTimeS: nat := 10
  const DeviceName: string := "pico"
  const DeviceIdSize: nat := 16
  const HaDiscoveryPrefix: string := "homeassistant"

  datatype Option<T> = None | Some(value: T)

  // ---------------------------------------------------------------------
  // C strings.
  // ---------------------------------------------------------------------

  /** What snprintf or strncpy leaves of s in a buffer that holds n
      characters before the terminator. */
  function Truncate(s: string, n: nat): (r: string)
    ensures r <= s
    ensures |r| == if |s| < n then |s| else n
  {
    if |s| <= n then s else s[..n]
  }

  /** The C string a buffer of characters holds: everything before the
      first NUL. */
  function CString(s: string): (r: string)
    ensures r <= s && '\0' !in r
    ensures |r| < |s| ==> s[|r|] == '\0'
  {
    if s == [] || s[0] == '\0' then [] else [s[0]] + CString(s[1..])
  }

  /** tolower in the C locale. */
  function Lower(c: char): char
  {
    if 'A' <= c <= 'Z' then (c as int + 32) as char else c
  }

  lemma LowerFacts(c: char)
    ensures !('A' <= Lower(c) <= 'Z')
    ensures 'a' <= c <= 'z' ==> Lower(c) == c
    ensures Lower(c) == 'o' <==> c == 'o' || c == 'O'
    ensures Lower(c) == 'n' <==> c == 'n' || c == 'N'
    ensures Lower(c) == 'f' <==> c == 'f' || c == 'F'
  {
  }

  function LowerAll(s: string): (r: string)
    ensures |r| == |s|
    ensures forall i :: 0 <= i < |s| ==> r[i] == Lower(s[i])
  {
    if s == [] then [] else [Lower(s[0])] + LowerAll(s[1..])
  }

  /** lwip_stricmp(a, b) == 0: equal up to the case of ASCII letters. */
  predicate EqualIgnoringCase(a: string, b: string)
  {
    |a| == |b| && forall i :: 0 <= i < |a| ==> Lower(a[i]) == Lower(b[i])
  }

  /** Equality up to case is equality of the lowercased strings. */
  lemma EqualIgnoringCaseLower(a: string, b: string)
    ensures EqualIgnoringCase(a, b) <==> LowerAll(a) == LowerAll(b)
  {
    if LowerAll(a) == LowerAll(b) {
      assert |a| == |b|;
      forall i | 0 <= i < |a|
        ensures Lower(a[i]) == Lower(b[i])
      {
        assert LowerAll(a)[i] == LowerAll(b)[i];
      }
    }
  }

  // ---------------------------------------------------------------------
  // LED commands (sensor.c:393-398).
  // ---------------------------------------------------------------------

  /** The LED state a payload on "/led" asks for, if any. */
  function LedCommand(payload: string): Option<bool>
  {
    if EqualIgnoringCase(payload, "On") || payload == "1" then Some(true)
    else if EqualIgnoringCase(payload, "Off") || payload == "0" then Some(false)
    else None
  }

  /** The LED is switched on by exactly the five payloads "On", "ON",
      "oN", "on" and "1", off by exactly the nine payloads spelling "off"
      in any case and "0", and every other payload is ignored. */
  lemma LedCommandPayloads(payload: string)
    ensures LedCommand(payload) == Some(true) <==> payload in {"On", "ON", "oN", "on", "1"}
    ensures LedCommand(payload) == Some(false)
        <==> payload in {"Off", "OFF", "OFf", "OfF", "oFF", "oFf", "ofF", "off", "0"}
  {
    if |payload| == 2 {
      LowerFacts(payload[0]);
      LowerFacts(payload[1]);
      assert payload == [payload[0], payload[1]];
    } else if |payload| == 3 {
      LowerFacts(payload[0]);
      LowerFacts(payload[1]);
      LowerFacts(payload[2]);
      assert payload == [payload[0], payload[1], payload[2]];
    }
  }

  // ---------------------------------------------------------------------
  // Topics.
  // ---------------------------------------------------------------------

  /** full_topic: with MQTT_UNIQUE_TOPIC set, "/" + client id + name, as
      snprintf leaves it in a topic buffer; otherwise the name itself. */
  function FullTopic(unique: bool, clientId: string, name: string): (r: string)
    ensures !unique ==> r == name
    ensures unique && 1 + |clientId| + |name| < MqttTopicLen ==> r == "/" + clientId + name
  {
    if unique then Truncate("/" + clientId + name, MqttTopicLen - 1) else name
  }

  /** The topic mqtt_incoming_data_cb dispatches on: with MQTT_UNIQUE_TOPIC
      set, the received topic past strlen(client id) + 1 characters. */
  function BasicTopic(unique: bool, clientId: string, topic: string): (r: string)
    requires unique ==> |clientId| < |topic|
    ensures !unique ==> r == topic
    ensures unique ==> topic == topic[..|clientId| + 1] + r
  {
    if unique then topic[|clientId| + 1..] else topic
  }

  /** A message received on the full form of a topic is dispatched on the
      topic's own name, in both configurations. */
  lemma TopicRoundTrip(unique: bool, clientId: string, name: string)
    requires 1 + |clientId| + |name| < MqttTopicLen
    ensures unique ==> |clientId| < |FullTopic(unique, clientId, name)|
    ensures BasicTopic(unique, clientId, FullTopic(unique, clientId, name)) == name
  {
    if unique {
      assert ("/" + clientId + name)[|clientId| + 1..] == name;
    }
  }

  /** The state topic, "pico/<device id>/temperature" (sensor.c:221-222 and 326-327). */
  function StateTopic(deviceId: string): (r: string)
    ensures r <= "pico/" + deviceId + "/temperature" && |r| < MqttTopicLen
  {
    Truncate("pico/" + deviceId + "/temperature", MqttTopicLen - 1)
  }

  /** The availability topic, "pico/<device id>/status" (sensor.c:224-225,
      275-276, and the will topic at 592). */
  function AvailabilityTopic(deviceId: string): (r: string)
    ensures r <= "pico/" + deviceId + "/status" && |r| < MqttTopicLen
  {
    Truncate("pico/" + deviceId + "/status", MqttTopicLen - 1)
  }

  /** The discovery config topic (sensor.c:218-219). */
  function ConfigTopic(deviceId: string): (r: string)
    ensures r <= HaDiscoveryPrefix + "/sensor/" + deviceId + "/temperature/config" && |r| < MqttTopicLen
  {
    Truncate(HaDiscoveryPrefix + "/sensor/" + deviceId + "/temperature/config", MqttTopicLen - 1)
  }

  /** A device id of at most 15 characters fits in every topic whole. */
  lemma TopicsWhole(id: string)
    requires |id| < DeviceIdSize
    ensures StateTopic(id) == "pico/" + id + "/temperature"
    ensures AvailabilityTopic(id) == "pico/" + id + "/status"
    ensures ConfigTopic(id) == "homeassistant/sensor/" + id + "/temperature/config"
  {
  }

  /** The three topics of two devices never coincide. */
  lemma TopicsDistinct(a: string, b: string)
    requires |a| < DeviceIdSize && |b| < DeviceIdSize
    ensures StateTopic(a) != AvailabilityTopic(b)
    ensures StateTopic(a) != ConfigTopic(b) && AvailabilityTopic(a) != ConfigTopic(b)
  {
    TopicsWhole(a);
    TopicsWhole(b);
    var sa, vb := StateTopic(a), AvailabilityTopic(b);
    assert sa[|sa| - 1] == 'e' && vb[|vb| - 1] == 's';
    assert sa[0] == 'p' && AvailabilityTopic(a)[0] == 'p' && ConfigTopic(b)[0] == 'h';
  }

  /** Each topic determines the device id. */
  lemma TopicsInjective(a: string, b: string)
    requires |a| < DeviceIdSize && |b| < DeviceIdSize
    ensures StateTopic(a) == StateTopic(b) ==> a == b
    ensures AvailabilityTopic(a) == AvailabilityTopic(b) ==> a == b
    ensures ConfigTopic(a) == ConfigTopic(b) ==> a == b
  {
    TopicsWhole(a);
    TopicsWhole(b);
    var sa, sb := StateTopic(a), StateTopic(b);
    var va, vb := AvailabilityTopic(a), AvailabilityTopic(b);
    var ca, cb := ConfigTopic(a), ConfigTopic(b);
    if sa == sb {
      assert a == sa[5..|sa| - 12] && b == sb[5..|sb| - 12];
    }
    if va == vb {
      assert a == va[5..|va| - 7] && b == vb[5..|vb| - 7];
    }
    if ca == cb {
      assert a == ca[21..|ca| - 19] && b == cb[21..|cb| - 19];
    }
  }

  /** The four command topics, in the order sub_unsub_topics requests them. */
  function CommandNames(): seq<string>
  {
    ["/led", "/print", "/ping", "/exit"]
  }

  // ---------------------------------------------------------------------
  // Client id and device id (sensor.c:562-578).
  // ---------------------------------------------------------------------

  /** The client id: MQTT_DEVICE_NAME followed by the lowercased board id. */
  function ClientId(name: string, boardId: string): (r: string)
    ensures |r| == |name| + |boardId| && r[..|name|] == name
    ensures forall i :: |name| <= i < |r| ==> r[i] == Lower(boardId[i - |name|])
  {
    name + LowerAll(boardId)
  }

  /** The device id: strncpy into 16 bytes with the last forced to NUL. */
  function DeviceId(clientId: string): (r: string)
    ensures r <= clientId && |r| < DeviceIdSize
    ensures |r| == if |clientId| < DeviceIdSize then |clientId| else DeviceIdSize - 1
  {
    Truncate(clientId, DeviceIdSize - 1)
  }

  /** With the default name the client id is "pico" and the board id's four
      characters without capitals, and the device id is the client id. */
  lemma ClientIdShape(boardId: string)
    requires |boardId| == 4
    ensures |ClientId(DeviceName, boardId)| == 8
    ensures ClientId(DeviceName, boardId)[..4] == "pico"
    ensures forall i :: 4 <= i < 8 ==> !('A' <= ClientId(DeviceName, boardId)[i] <= 'Z')
    ensures DeviceId(ClientId(DeviceName, boardId)) == ClientId(DeviceName, boardId)
  {
    var c := ClientId(DeviceName, boardId);
    forall i | 4 <= i < 8
      ensures !('A' <= c[i] <= 'Z')
    {
      LowerFacts(boardId[i - 4]);
    }
  }

  /** The device id is the longest prefix of the client id that fits in 15
      characters, so it always fits in every topic whole. */
  lemma DeviceIdFits(clientId: string)
    ensures DeviceId(clientId) <= clientId && |DeviceId(clientId)| < DeviceIdSize
    ensures |clientId| < DeviceIdSize ==> DeviceId(clientId) == clientId
  {
  }

  /**
   * The loop of main that lowercases the four characters of the board id
   * string in place; the fifth byte is its NUL.
   */
  method LowercaseBoardId(buf: array<char>)
    requires buf.Length == 5
    modifies buf
    ensures buf[..4] == LowerAll(old(buf[..4])) && buf[4] == old(buf[4])
  {
    for i := 0 to buf.Length - 1
      invariant buf[..i] == LowerAll(old(buf[..i]))
      invariant buf[i..] == old(buf[i..])
    {
      buf[i] := Lower(buf[i]);
    }
  }

  /** The identity main sets up: the board id lowercased, the client id, the
      device id and the will topic. */
  method MakeIdentity(buf: array<char>) returns (clientId: string, deviceId: string, willTopic: string)
    requires buf.Length == 5
    modifies buf
    ensures clientId == ClientId(DeviceName, old(buf[..4]))
    ensures deviceId == DeviceId(clientId) && willTopic == AvailabilityTopic(deviceId)
  {
    LowercaseBoardId(buf);
    clientId := DeviceName + buf[..4];
    deviceId := DeviceId(clientId);
    willTopic := AvailabilityTopic(deviceId);
  }

  // ---------------------------------------------------------------------
  // The publication worker (sensor.c:416-461).
  // ---------------------------------------------------------------------

  datatype Job = Idle | Availability | Discovery | Temperature

  /** One run of temperature_worker_fn: what it publishes, the step it
      leaves, and when it runs next. */
  datatype WorkerRun = WorkerRun(job: Job, next: int, delayMs: nat)

  function WorkerStep(step: int, connected: bool): WorkerRun
  {
    if !connected then WorkerRun(Idle, 0, 5000)
    else if step == 0 then WorkerRun(Availability, 1, 2000)
    else if step == 1 then WorkerRun(Discovery, 2, 2000)
    else if step == 2 then WorkerRun(Temperature, 3, TempWorkerTimeS * 1000)
    else WorkerRun(Temperature, step, TempWorkerTimeS * 1000)
  }

  /** The jobs of successive runs from `step`, one per connection state
      observed. */
  function Jobs(step: int, connected: seq<bool>): (r: seq<Job>)
    ensures |r| == |connected|
    decreases |connected|
  {
    if connected == [] then []
    else
      var run := WorkerStep(step, connected[0]);
      [run.job] + Jobs(run.next, connected[1..])
  }

  /** The step stays in 0..3; a lost connection resets it and retries in
      5 s; the worker is rescheduled after 2 s, 2 s, then every 10 s. */
  lemma WorkerStepBounds(step: int, connected: bool)
    requires 0 <= step <= 3
    ensures 0 <= WorkerStep(step, connected).next <= 3
    ensures !connected <==> WorkerStep(step, connected).job == Idle
    ensures !connected ==> WorkerStep(step, connected) == WorkerRun(Idle, 0, 5000)
    ensures connected ==> WorkerStep(step, connected).next == if step < 3 then step + 1 else 3
    ensures WorkerStep(step, connected).job == Temperature <==> connected && step >= 2
  {
  }

  /** Once connected, the worker publishes availability, then discovery,
      then temperatures every 10 s. */
  lemma WorkerSequence(more: seq<bool>)
    requires forall i :: 0 <= i < |more| ==> more[i]
    ensures Jobs(0, [true, true] + more)[0] == Availability
    ensures Jobs(0, [true, true] + more)[1] == Discovery
    ensures forall i :: 2 <= i < 2 + |more| ==> Jobs(0, [true, true] + more)[i] == Temperature
  {
    var c := [true, true] + more;
    var tail := Jobs(2, more);
    TemperatureForever(2, more);
    assert c[1..] == [true] + more;
    assert ([true] + more)[1..] == more;
    assert Jobs(1, c[1..]) == [Discovery] + tail;
    assert Jobs(0, c) == [Availability, Discovery] + tail;
  }

  lemma {:induction false} TemperatureForever(step: int, more: seq<bool>)
    requires step >= 2
    requires forall i :: 0 <= i < |more| ==> more[i]
    ensures forall i :: 0 <= i < |more| ==> Jobs(step, more)[i] == Temperature
    decreases |more|
  {
    if more != [] {
      TemperatureForever(WorkerStep(step, true).next, more[1..]);
    }
  }

  /** Whatever the connection does, discovery is only ever published by the
      run right after one that published availability, and temperatures only
      after one that published discovery or a temperature. */
  lemma {:induction false} JobsOrdered(step: int, connected: seq<bool>, prev: Job)
    requires 0 <= step <= 3
    requires step == 1 ==> prev == Availability
    requires step >= 2 ==> prev == Discovery || prev == Temperature
    ensures forall i :: 0 <= i < |connected| && Jobs(step, connected)[i] == Discovery ==>
      (if i == 0 then prev else Jobs(step, connected)[i - 1]) == Availability
    ensures forall i :: 0 <= i < |connected| && Jobs(step, connected)[i] == Temperature ==>
      (if i == 0 then prev else Jobs(step, connected)[i - 1]) in {Discovery, Temperature}
    decreases |connected|
  {
    if connected != [] {
      var run := WorkerStep(step, connected[0]);
      JobsOrdered(run.next, connected[1..], run.job);
      var js := Jobs(step, connected);
      assert js == [run.job] + Jobs(run.next, connected[1..]);
    }
  }

  // ---------------------------------------------------------------------
  // The client state.
  // ---------------------------------------------------------------------

  /** The JSON documents published; their text is not modelled beyond the
      topics they name. */
  datatype Payload =
    | Text(s: string)
    | DiscoveryConfig(stateTopic: string, availabilityTopic: string)
    | TemperatureJson
    | UptimeSeconds(seconds: nat)

  datatype Action =
    | Publish(topic: string, payload: Payload, retain: bool)
    | Request(topic: string, subscribe: bool)   // mqtt_sub_unsub
    | Disconnect
    | Led(on: bool)                             // cyw43_arch_gpio_put on the LED pin
    | ScheduleWorker(ms: nat)                   // async_context_add_at_time_worker_in_ms

  /** The four requests of sub_unsub_topics. */
  function Requests(unique: bool, clientId: string, subscribe: bool): (r: seq<Action>)
    ensures |r| == 4
    ensures forall i :: 0 <= i < 4 ==> r[i] == Request(FullTopic(unique, clientId, CommandNames()[i]), subscribe)
  {
    [Request(FullTopic(unique, clientId, "/led"), subscribe),
     Request(FullTopic(unique, clientId, "/print"), subscribe),
     Request(FullTopic(unique, clientId, "/ping"), subscribe),
     Request(FullTopic(unique, clientId, "/exit"), subscribe)]
  }

  /** control_led: the LED, then its state on "/led/state". */
  function LedActions(unique: bool, clientId: string, on: bool): seq<Action>
  {
    [Led(on), Publish(FullTopic(unique, clientId, "/led/state"), Text(if on then "On" else "Off"), false)]
  }

  /** The calls mqtt_incoming_data_cb makes for a message with payload
      `data` (as a C string) on dispatch topic `basic`. */
  function Dispatch(unique: bool, clientId: string, basic: string, data: string, nowMs: nat): seq<Action>
  {
    if basic == "/led" then
      match LedCommand(data)
      case Some(on) => LedActions(unique, clientId, on)
      case None => []
    else if basic == "/print" then []
    else if basic == "/ping" then [Publish(FullTopic(unique, clientId, "/uptime"), UptimeSeconds(nowMs / 1000), false)]
    else if basic == "/exit" then Requests(unique, clientId, false)
    else []
  }

  /** Every topic the dispatcher acts on is one of the four subscribed
      names; on "/led" the LED follows the payload and its state is
      published; "/exit" unsubscribes all four topics in order. */
  lemma DispatchFacts(unique: bool, clientId: string, basic: string, data: string, nowMs: nat)
    ensures Dispatch(unique, clientId, basic, data, nowMs) != [] ==> basic in CommandNames()
    ensures basic == "/led" && data in {"On", "ON", "oN", "on", "1"} ==>
      Dispatch(unique, clientId, basic, data, nowMs) == LedActions(unique, clientId, true)
    ensures basic == "/led" && data in {"Off", "OFF", "OFf", "OfF", "oFF", "oFf", "ofF", "off", "0"} ==>
      Dispatch(unique, clientId, basic, data, nowMs) == LedActions(unique, clientId, false)
    ensures basic == "/led" && LedCommand(data) == None ==> Dispatch(unique, clientId, basic, data, nowMs) == []
    ensures basic == "/exit" ==>
      forall i :: 0 <= i < 4 ==>
        Dispatch(unique, clientId, basic, data, nowMs)[i] == Request(FullTopic(unique, clientId, CommandNames()[i]), false)
  {
    LedCommandPayloads(data);
  }

  /**
   * The MQTT_CLIENT_DATA_T fields the callbacks update, the static
   * `publish_step` of the worker, and the log of calls made. `halted`
   * records a panic or a failed assert, after which nothing runs.
   */
  class Client {
    const unique: bool
    const clientId: string
    const deviceId: string
    const willTopic: string
    var connectDone: bool
    var subscribeCount: int
    var stopClient: bool
    var haDiscoverySent: bool
    var publishStep: int
    var topic: string
    var data: string
    var len: nat
    var halted: bool
    var log: seq<Action>

    /** What the callbacks and the worker keep true. */
    predicate Valid()
      reads this
    {
      0 <= publishStep <= 3 && subscribeCount >= 0
      && deviceId == DeviceId(clientId) && willTopic == AvailabilityTopic(deviceId)
    }

    /** The state main sets up before connecting. */
    constructor (unique: bool, clientId: string)
      ensures Valid() && this.unique == unique && this.clientId == clientId
      ensures !connectDone && subscribeCount == 0 && !stopClient && !haDiscoverySent && publishStep == 0
      ensures topic == [] && data == [] && len == 0 && !halted && log == []
    {
      this.unique, this.clientId := unique, clientId;
      deviceId := DeviceId(clientId);
      willTopic := AvailabilityTopic(DeviceId(clientId));
      connectDone, subscribeCount, stopClient, haDiscoverySent, publishStep := false, 0, false, false, 0;
      topic, data, len := [], [], 0;
      halted, log := false, [];
    }

    /** publish_ha_availability: the retained status on the availability
        topic; the result is only logged. */
    method PublishHaAvailability(online: bool)
      requires !halted
      modifies this`log
      ensures log == old(log) + [Publish(AvailabilityTopic(deviceId), Text(if online then "online" else "offline"), true)]
    {
      log := log + [Publish(AvailabilityTopic(deviceId), Text(if online then "online" else "offline"), true)];
    }

    /** publish_ha_discovery: nothing once sent; otherwise the retained
        config, and the flag is set only if mqtt_publish returned ERR_OK. */
    method PublishHaDiscovery(accepted: bool)
      requires !halted
      modifies this`log, this`haDiscoverySent
      ensures old(haDiscoverySent) ==> log == old(log) && haDiscoverySent
      ensures !old(haDiscoverySent) ==>
        log == old(log) + [Publish(ConfigTopic(deviceId), DiscoveryConfig(StateTopic(deviceId), AvailabilityTopic(deviceId)), true)]
        && haDiscoverySent == accepted
    {
      if haDiscoverySent {
        return;
      }
      log := log + [Publish(ConfigTopic(deviceId), DiscoveryConfig(StateTopic(deviceId), AvailabilityTopic(deviceId)), true)];
      if accepted {
        haDiscoverySent := true;
      }
    }

    /** publish_temperature, once its deadband test has decided. */
    method PublishTemperature(changed: bool)
      requires !halted
      modifies this`log
      ensures log == old(log) + if changed then [Publish(StateTopic(deviceId), TemperatureJson, false)] else []
    {
      if changed {
        log := log + [Publish(StateTopic(deviceId), TemperatureJson, false)];
      }
    }

    /** temperature_worker_fn. `connected` is mqtt_client_is_connected,
        `accepted` the result of a discovery publish and `changed` the
        outcome of the temperature deadband. */
    method TemperatureWorker(connected: bool, accepted: bool, changed: bool)
      requires Valid() && !halted
      modifies this`log, this`haDiscoverySent, this`publishStep
      ensures Valid()
      ensures publishStep == WorkerStep(old(publishStep), connected).next
      ensures log == old(log) + JobActions(WorkerStep(old(publishStep), connected).job, old(haDiscoverySent), changed)
                    + [ScheduleWorker(WorkerStep(old(publishStep), connected).delayMs)]
      ensures haDiscoverySent == (old(haDiscoverySent)
                                  || (WorkerStep(old(publishStep), connected).job == Discovery && accepted))
    {
      if !connected {
        publishStep := 0;
        log := log + [ScheduleWorker(5000)];
        return;
      }
      if publishStep == 0 {
        PublishHaAvailability(true);
        publishStep := publishStep + 1;
        log := log + [ScheduleWorker(2000)];
      } else if publishStep == 1 {
        PublishHaDiscovery(accepted);
        publishStep := publishStep + 1;
        log := log + [ScheduleWorker(2000)];
      } else if publishStep == 2 {
        PublishTemperature(changed);
        publishStep := publishStep + 1;
        log := log + [ScheduleWorker(TempWorkerTimeS * 1000)];
      } else {
        PublishTemperature(changed);
        log := log + [ScheduleWorker(TempWorkerTimeS * 1000)];
      }
    }

    /** The publications of one worker job. */
    function JobActions(job: Job, sent: bool, changed: bool): seq<Action>
      reads this
    {
      match job
      case Idle => []
      case Availability => [Publish(AvailabilityTopic(deviceId), Text("online"), true)]
      case Discovery =>
        if sent then [] else [Publish(ConfigTopic(deviceId), DiscoveryConfig(StateTopic(deviceId), AvailabilityTopic(deviceId)), true)]
      case Temperature => if changed then [Publish(StateTopic(deviceId), TemperatureJson, false)] else []
    }

    /** sub_unsub_topics */
    method SubUnsubTopics(subscribe: bool)
      requires !halted
      modifies this`log
      ensures log == old(log) + Requests(unique, clientId, subscribe)
    {
      log := log + [Request(FullTopic(unique, clientId, "/led"), subscribe)];
      log := log + [Request(FullTopic(unique, clientId, "/print"), subscribe)];
      log := log + [Request(FullTopic(unique, clientId, "/ping"), subscribe)];
      log := log + [Request(FullTopic(unique, clientId, "/exit"), subscribe)];
    }

    /** sub_request_cb: a failed request panics; otherwise one more
        subscription. */
    method OnSubscribed(err: int)
      requires Valid() && !halted
      modifies this`subscribeCount, this`halted
      ensures Valid()
      ensures halted == (err != 0)
      ensures subscribeCount == if err != 0 then old(subscribeCount) else old(subscribeCount) + 1
    {
      if err != 0 {
        halted := true;
        return;
      }
      subscribeCount := subscribeCount + 1;
    }

    /** unsub_request_cb: a failed request panics, and so does the assert
        when more unsubscriptions than subscriptions are acknowledged;
        otherwise one fewer subscription, and disconnect once none is left
        and a stop was requested. */
    method OnUnsubscribed(err: int)
      requires Valid() && !halted
      modifies this`subscribeCount, this`halted, this`log
      ensures Valid()
      ensures halted == (err != 0 || old(subscribeCount) == 0)
      ensures halted ==> subscribeCount == old(subscribeCount)
      ensures !halted ==> subscribeCount == old(subscribeCount) - 1
      ensures log == old(log) + if !halted && subscribeCount == 0 && stopClient then [Disconnect] else []
    {
      if err != 0 {
        halted := true;
        return;
      }
      if subscribeCount - 1 < 0 {
        halted := true;
        return;
      }
      subscribeCount := subscribeCount - 1;
      if subscribeCount <= 0 && stopClient {
        log := log + [Disconnect];
      }
    }

    /** control_led */
    method ControlLed(on: bool)
      requires !halted
      modifies this`log
      ensures log == old(log) + LedActions(unique, clientId, on)
    {
      log := log + [Led(on)];
      log := log + [Publish(FullTopic(unique, clientId, "/led/state"), Text(if on then "On" else "Off"), false)];
    }

    /** mqtt_incoming_publish_cb: keep the topic of the message that
        follows. */
    method OnIncomingPublish(t: string)
      requires Valid() && !halted
      requires |t| < MqttTopicLen && '\0' !in t
      modifies this`topic
      ensures Valid() && topic == t
    {
      topic := t;
    }

    /** mqtt_incoming_data_cb, with the uptime clock `nowMs` as input. */
    method OnIncomingData(payload: string, nowMs: nat)
      requires Valid() && !halted
      requires |payload| < MqttOutputRingbufSize
      requires unique ==> |clientId| < |topic|
      modifies this`data, this`len, this`stopClient, this`log
      ensures Valid()
      ensures data == CString(payload) && len == |payload|
      ensures log == old(log) + Dispatch(unique, clientId, BasicTopic(unique, clientId, topic), data, nowMs)
      ensures stopClient == (old(stopClient) || BasicTopic(unique, clientId, topic) == "/exit")
    {
      var basic := BasicTopic(unique, clientId, topic);
      data := CString(payload);
      len := |payload|;
      if basic == "/led" {
        if EqualIgnoringCase(data, "On") || data == "1" {
          ControlLed(true);
        } else if EqualIgnoringCase(data, "Off") || data == "0" {
          ControlLed(false);
        }
      } else if basic == "/print" {
      } else if basic == "/ping" {
        log := log + [Publish(FullTopic(unique, clientId, "/uptime"), UptimeSeconds(nowMs / 1000), false)];
      } else if basic == "/exit" {
        stopClient := true;
        SubUnsubTopics(false);
      }
    }

    /** The MQTT_CONNECT_ACCEPTED branch of mqtt_connection_cb. */
    method OnConnectionAccepted()
      requires Valid() && !halted
      modifies this`connectDone, this`haDiscoverySent, this`log
      ensures Valid() && connectDone && !haDiscoverySent
      ensures log == old(log) + Requests(unique, clientId, true) + [ScheduleWorker(1000)]
    {
      connectDone := true;
      haDiscoverySent := false;
      SubUnsubTopics(true);
      log := log + [ScheduleWorker(1000)];
    }

    /** The MQTT_CONNECT_DISCONNECTED branch of mqtt_connection_cb, without
        its WiFi recovery. */
    method OnDisconnected()
      requires Valid() && !halted
      modifies this`connectDone
      ensures Valid() && !connectDone
    {
      connectDone := false;
    }
  }
}
