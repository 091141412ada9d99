/**
 * The refactored bridge's MQTT client (`MQTTClient`): the callbacks the transport
 * fires (connect, disconnect, message), the reconnect scheduler with back-off, and
 * `disconnect`. The transport itself and the `Timer` thread are not modelled: an
 * armed reconnect timer is the delay it was armed with, held in `pending`.
 */
module Ingest {
  import opened Wrappers
  import opened Numeric
  import opened Text
  import opened Store
  import Backoff
  import Config

  /**
   * `_on_message` on the store's values: the payload is stripped, the topic selects one
   * handler by exact equality, and a conversion failure is swallowed.
   */
  function ApplyMessage(s: Snapshot, topic: string, payload: string, parse: RealParser): (r: Snapshot)
    ensures r.connected == s.connected
    ensures topic != Config.PowerTopic ==> r.totalPower == s.totalPower
    ensures topic != Config.TodayTopic ==> r.energyToday == s.energyToday
    ensures topic != Config.TotalTopic ==> r.energyTotal == s.energyTotal
    ensures topic != Config.PhasesTopic ==> r.powerL1 == s.powerL1 && r.powerL2 == s.powerL2 && r.powerL3 == s.powerL3
  {
    var msg := Strip(payload);
    if topic == Config.PowerTopic then
      (match parse(msg) case None => s case Some(v) => s.(totalPower := v))
    else if topic == Config.TodayTopic then
      (match parse(msg) case None => s case Some(v) => s.(energyToday := v))
    else if topic == Config.TotalTopic then
      (match parse(msg) case None => s case Some(v) => s.(energyTotal := v))
    else if topic == Config.PhasesTopic then
      var parts := Split(msg, ',');
      if |parts| != 3 then s else AssignPhases(s, parts[0], parts[1], parts[2], parse)
    else
      s
  }

  /** A topic other than the four is ignored. */
  lemma UnknownTopicIgnored(s: Snapshot, topic: string, payload: string, parse: RealParser)
    requires !Config.IsKnownTopic(topic)
    ensures ApplyMessage(s, topic, payload, parse) == s
  {
  }

  /** A scalar topic sets its field to the parsed payload, or leaves the store alone when parsing fails. */
  lemma ScalarMessage(s: Snapshot, topic: string, payload: string, parse: RealParser)
    requires topic == Config.PowerTopic || topic == Config.TodayTopic || topic == Config.TotalTopic
    ensures parse(Strip(payload)).None? ==> ApplyMessage(s, topic, payload, parse) == s
    ensures parse(Strip(payload)).Some? ==>
      var v := parse(Strip(payload)).value;
      var r := ApplyMessage(s, topic, payload, parse);
      (topic == Config.PowerTopic ==> r.totalPower == v) &&
      (topic == Config.TodayTopic ==> r.energyToday == v) &&
      (topic == Config.TotalTopic ==> r.energyTotal == v)
  {
  }

  /** A phase payload that does not hold exactly two commas changes nothing. */
  lemma WrongPartCountIgnored(s: Snapshot, payload: string, parse: RealParser)
    requires Count(Strip(payload), ',') != 2
    ensures ApplyMessage(s, Config.PhasesTopic, payload, parse) == s
  {
    SplitCount(Strip(payload), ',');
  }

  /**
   * A phase payload that strips to `a,b,c` with three parsable parts sets L1, L2, L3 to
   * them and nothing else, whatever whitespace surrounds it.
   */
  lemma ThreePhaseValues(s: Snapshot, payload: string, a: string, b: string, c: string,
                         x: real, y: real, z: real, parse: RealParser)
    requires ',' !in a && ',' !in b && ',' !in c
    requires Strip(payload) == a + "," + b + "," + c
    requires parse(a) == Some(x) && parse(b) == Some(y) && parse(c) == Some(z)
    ensures ApplyMessage(s, Config.PhasesTopic, payload, parse) == s.(powerL1 := x, powerL2 := y, powerL3 := z)
  {
    JoinThree(a, b, c, ',');
    SplitJoin([a, b, c], ',');
  }

  /**
   * A phase payload of three parts is assigned part by part, whichever parts convert.
   * The update is not all-or-nothing: when only the second part fails to parse, L1 is
   * already replaced and L2, L3 keep their old values.
   */
  lemma PartialPhaseUpdate(s: Snapshot, payload: string, a: string, b: string, c: string, parse: RealParser)
    requires ',' !in a && ',' !in b && ',' !in c
    requires Strip(payload) == a + "," + b + "," + c
    ensures ApplyMessage(s, Config.PhasesTopic, payload, parse) == AssignPhases(s, a, b, c, parse)
    ensures parse(a).Some? && parse(b).None? ==>
      ApplyMessage(s, Config.PhasesTopic, payload, parse) == s.(powerL1 := parse(a).value)
  {
    JoinThree(a, b, c, ',');
    SplitJoin([a, b, c], ',');
    var parts := Split(Strip(payload), ',');
    assert parts == [a, b, c];
    assert ApplyMessage(s, Config.PhasesTopic, payload, parse) == AssignPhases(s, parts[0], parts[1], parts[2], parse);
  }

  class MqttClient {
    const store: DataStore
    /** The delay the next schedule will use, before capping. */
    var reconnectDelay: real
    /** The armed reconnect timer, as the delay it was armed with. */
    var pending: Option<real>
    /** Reconnects scheduled since the last successful connection. */
    ghost var retries: nat

    ghost predicate Valid()
      reads this
    {
      reconnectDelay == Backoff.DelayAfter(retries)
    }

    constructor (store: DataStore)
      ensures this.store == store && Valid()
      ensures retries == 0 && reconnectDelay == Config.InitialReconnectDelay && pending == None
    {
      this.store := store;
      reconnectDelay := Config.InitialReconnectDelay;
      pending := None;
      retries := 0;
    }

    /**
     * `_schedule_reconnect`: the pending timer is dropped and a new one armed with the
     * capped current delay, which is then grown by 1.5 up to the ceiling.
     */
    method ScheduleReconnect()
      requires Valid()
      modifies this
      ensures Valid() && retries == old(retries) + 1
      ensures pending == Some(Backoff.ArmedDelay(old(reconnectDelay)))
      ensures pending == Some(Backoff.DelayAfter(old(retries)))
      ensures reconnectDelay == Backoff.NextDelay(old(reconnectDelay))
    {
      pending := None;  // cancel the previous timer
      var delay := Min(reconnectDelay, Config.MaxReconnectDelay);
      pending := Some(delay);
      reconnectDelay := Min(reconnectDelay * Config.ReconnectGrowth, Config.MaxReconnectDelay);
      retries := retries + 1;
    }

    /** `connect()`; `raised` says whether the transport's connect raised. */
    method Connect(raised: bool)
      requires Valid()
      modifies this
      ensures Valid()
      ensures !raised ==> reconnectDelay == old(reconnectDelay) && pending == old(pending) && retries == old(retries)
      ensures raised ==> retries == old(retries) + 1 && pending == Some(Backoff.DelayAfter(old(retries)))
    {
      if raised {
        ScheduleReconnect();
      }
    }

    /** `disconnect()`: the pending reconnect timer is cancelled. */
    method Disconnect()
      modifies this
      ensures pending == None
      ensures reconnectDelay == old(reconnectDelay) && retries == old(retries)
    {
      pending := None;
    }

    /** `_on_connect(rc)`: success marks the store connected and resets the back-off. */
    method OnConnect(rc: int)
      requires Valid()
      modifies this, store
      ensures Valid() && pending == old(pending)
      ensures store.Values() == old(store.Values()).(connected := rc == 0)
      ensures rc == 0 ==> retries == 0 && reconnectDelay == Config.InitialReconnectDelay
      ensures rc != 0 ==> retries == old(retries) && reconnectDelay == old(reconnectDelay)
    {
      if rc == 0 {
        store.SetConnected(true);
        reconnectDelay := Config.InitialReconnectDelay;
        retries := 0;
      } else {
        store.SetConnected(false);
      }
    }

    /** `_on_disconnect(rc)`: marks the store disconnected and schedules a reconnect unless `rc == 0`. */
    method OnDisconnect(rc: int)
      requires Valid()
      modifies this, store
      ensures Valid()
      ensures store.Values() == old(store.Values()).(connected := false)
      ensures rc == 0 ==> pending == old(pending) && retries == old(retries) && reconnectDelay == old(reconnectDelay)
      ensures rc != 0 ==> retries == old(retries) + 1 && pending == Some(Backoff.DelayAfter(old(retries)))
    {
      store.SetConnected(false);
      if rc != 0 {
        ScheduleReconnect();
      }
    }

    /** `_on_message(topic, payload)`: only the store changes, as `ApplyMessage` says. */
    method OnMessage(topic: string, payload: string, parse: RealParser)
      modifies store
      ensures store.Values() == ApplyMessage(old(store.Values()), topic, payload, parse)
    {
      var msg := Strip(payload);
      var ok;
      if topic == Config.PowerTopic {
        ok := store.UpdatePower(msg, parse);
      } else if topic == Config.TodayTopic {
        ok := store.UpdateEnergyToday(msg, parse);
      } else if topic == Config.TotalTopic {
        ok := store.UpdateEnergyTotal(msg, parse);
      } else if topic == Config.PhasesTopic {
        var parts := Split(msg, ',');
        if |parts| != 3 {
          return;
        }
        ok := store.UpdatePhasePowers(parts[0], parts[1], parts[2], parse);
      }
    }
  }
}
