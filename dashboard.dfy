/**
 * The page's session as the script keeps it: module-level variables updated
 * in place by the connect button, the transport's event handlers, the timers
 * and the command buttons. Each method does what its handler in script.js
 * does, step by step, and is proved to end in the state Protocol.Step
 * describes for its event.
 */
module Dashboard {
  import opened Wrappers
  import opened Strings
  import opened Topics
  import opened Log
  import opened Codec
  import opened Protocol

  // The four sections of saveConfig, each adding the keys whose inputs are filled in.

  method PutTemperatureKeys(f: ConfigForm, config: ConfigRecord) returns (c: ConfigRecord)
    ensures c == config.(T_heat_on := Overwrite(config.T_heat_on, f.tHeatOn),
                         T_heat_off := Overwrite(config.T_heat_off, f.tHeatOff),
                         heater_max_temp := Overwrite(config.heater_max_temp, f.heaterMaxTemp),
                         ntc_low_temp_threshold := Overwrite(config.ntc_low_temp_threshold, f.ntcLowTemp),
                         ntc_heat_on_minutes := Overwrite(config.ntc_heat_on_minutes, f.ntcHeatMinutes))
  {
    c := config;
    if f.tHeatOn.Some? { c := c.(T_heat_on := f.tHeatOn); }
    if f.tHeatOff.Some? { c := c.(T_heat_off := f.tHeatOff); }
    if f.heaterMaxTemp.Some? { c := c.(heater_max_temp := f.heaterMaxTemp); }
    if f.ntcLowTemp.Some? { c := c.(ntc_low_temp_threshold := f.ntcLowTemp); }
    if f.ntcHeatMinutes.Some? { c := c.(ntc_heat_on_minutes := f.ntcHeatMinutes); }
  }

  method PutHumidityKeys(f: ConfigForm, config: ConfigRecord) returns (c: ConfigRecord)
    ensures c == config.(H_mist_on := Overwrite(config.H_mist_on, f.hMistOn),
                         H_mist_off := Overwrite(config.H_mist_off, f.hMistOff),
                         mist_max_on_seconds := Overwrite(config.mist_max_on_seconds, f.mistMaxOn),
                         mist_min_off_seconds := Overwrite(config.mist_min_off_seconds, f.mistMinOff))
  {
    c := config;
    if f.hMistOn.Some? { c := c.(H_mist_on := f.hMistOn); }
    if f.hMistOff.Some? { c := c.(H_mist_off := f.hMistOff); }
    if f.mistMaxOn.Some? { c := c.(mist_max_on_seconds := f.mistMaxOn); }
    if f.mistMinOff.Some? { c := c.(mist_min_off_seconds := f.mistMinOff); }
  }

  /** The feed interval is entered in minutes and sent in seconds; the duration is sent as entered. */
  method PutFeedKeys(f: ConfigForm, config: ConfigRecord) returns (c: ConfigRecord)
    ensures c == config.(feed_interval_seconds := Overwrite(config.feed_interval_seconds, Scaled(f.feedInterval)),
                         feed_duration_ms := Overwrite(config.feed_duration_ms, f.feedDuration),
                         feed_times_csv := Overwrite(config.feed_times_csv, NonEmpty(f.feedTimes)))
  {
    c := config;
    if f.feedInterval.Some? { c := c.(feed_interval_seconds := Some(f.feedInterval.value * 60)); }
    if f.feedDuration.Some? { c := c.(feed_duration_ms := f.feedDuration); }
    if f.feedTimes != "" { c := c.(feed_times_csv := Some(f.feedTimes)); }
  }

  /** The upload interval is entered in minutes and sent in seconds. */
  method PutSystemKeys(f: ConfigForm, config: ConfigRecord) returns (c: ConfigRecord)
    ensures c == config.(upload_interval_seconds := Overwrite(config.upload_interval_seconds, Scaled(f.uploadInterval)),
                         mode := Overwrite(config.mode, NonEmpty(f.mode)))
  {
    c := config;
    if f.uploadInterval.Some? { c := c.(upload_interval_seconds := Some(f.uploadInterval.value * 60)); }
    if f.mode != "" { c := c.(mode := Some(f.mode)); }
  }

  /** The object saveConfig fills key by key, starting from an empty one. */
  method BuildConfig(f: ConfigForm) returns (config: ConfigRecord)
    ensures config == EncodeConfig(f)
  {
    config := EmptyConfig;
    config := PutTemperatureKeys(f, config);
    config := PutHumidityKeys(f, config);
    config := PutFeedKeys(f, config);
    config := PutSystemKeys(f, config);
  }

  class Session {
    var deviceId: string
    var topics: TopicSet
    var isConnected: bool
    /** The broker of every transport client created, the current one last. */
    var clients: seq<string>
    var subscriptions: seq<string>
    var published: seq<Publish>
    /** The painted connection status. */
    var indicator: bool
    /** The activity log, newest first. */
    var log: seq<LogEntry>
    var telemetry: TelemetryView
    var form: ConfigForm
    var feedStatus: FeedStatus
    /** Timers set and not yet fired: the delayed config fetch and the feed badge reset. */
    var pendingConfigFetches: nat
    var pendingFeedResets: nat
    var storage: Storage

    function Snapshot(): SessionState
      reads this
    {
      SessionState(deviceId, topics, isConnected, clients, subscriptions, published, indicator, log,
                   telemetry, form, feedStatus, pendingConfigFetches, pendingFeedResets, storage)
    }

    ghost predicate Valid()
      reads this
    {
      Inv(Snapshot())
    }

    /** The page as loaded: the default device id, blank topics, no client, then the saved settings. */
    constructor(saved: Storage, initialForm: ConfigForm)
      ensures Snapshot() == Initial(saved, initialForm)
      ensures Valid()
    {
      deviceId := DefaultDeviceId;
      topics := Unset;
      isConnected := false;
      clients := [];
      subscriptions := [];
      published := [];
      indicator := false;
      log := [];
      telemetry := NoTelemetry;
      form := initialForm;
      feedStatus := Standby;
      pendingConfigFetches := 0;
      pendingFeedResets := 0;
      storage := saved;
      new;
      LoadSavedSettings();
      InitialInv(saved, initialForm);
    }

    /** loadSavedSettings: show the configuration stored under config_<id> for the saved device id. */
    method LoadSavedSettings()
      modifies this`form, this`log
      ensures Snapshot() == LoadSettingsStep(old(Snapshot()))
    {
      if storage.deviceId.Some? && storage.deviceId.value != "" && storage.deviceId.value in storage.configs {
        UpdateConfigDisplay(storage.configs[storage.deviceId.value]);
      }
    }

    /** addLog: insert the entry in front, then drop the last entry while more than MaxLogs remain. */
    method AddLog(kind: LogKind, message: LogMessage)
      modifies this`log
      ensures log == Logged(old(log), [LogEntry(kind, message)])
    {
      var full := [LogEntry(kind, message)] + log;
      log := full;
      while |log| > MaxLogs
        invariant |log| <= |full| && log == full[..|log|]
        invariant |log| >= (if |full| <= MaxLogs then |full| else MaxLogs)
        decreases |log|
      {
        log := log[..|log| - 1];
      }
      assert Reversed([LogEntry(kind, message)]) == [LogEntry(kind, message)] by {
        assert [LogEntry(kind, message)][1..] == [];
      }
    }

    /** Two addLog calls in a row log both entries, in order. */
    method AddLogs(e1: LogEntry, e2: LogEntry)
      modifies this`log
      ensures log == Logged(old(log), [e1, e2])
    {
      AddLog(e1.kind, e1.message);
      AddLog(e2.kind, e2.message);
      LoggedAppend(old(log), [e1], [e2]);
      assert [e1] + [e2] == [e1, e2];
    }

    /** The eight topic assignments of connectToDevice, one per channel. */
    method DeriveTopics(id: string)
      modifies this`topics
      ensures topics == TopicsFor(id)
    {
      topics := topics.(telemetry := Topic(id, Telemetry));
      topics := topics.(controlHeater := Topic(id, Channel.ControlHeater));
      topics := topics.(controlMist := Topic(id, Channel.ControlMist));
      topics := topics.(controlFeed := Topic(id, ControlFeed));
      topics := topics.(configIn := Topic(id, ConfigIn));
      topics := topics.(configOut := Topic(id, ConfigOut));
      topics := topics.(status := Topic(id, Status));
      topics := topics.(command := Topic(id, Command));
    }

    /** mqttClient.subscribe: the transport records the subscription. */
    method Subscribe(topic: string)
      modifies this`subscriptions
      ensures subscriptions == old(subscriptions) + [topic]
    {
      subscriptions := subscriptions + [topic];
    }

    /** The try block of connectToDevice, with the error's message when creating the client throws. */
    method CreateClient(broker: string, failure: Option<string>)
      modifies this`clients, this`indicator, this`log
      ensures Snapshot() == ClientStep(old(Snapshot()), broker, failure)
    {
      match failure {
        case None =>
          AddLog(Info, Connecting(broker));
          clients := clients + [broker];
        case Some(reason) =>
          AddLogs(LogEntry(Info, Connecting(broker)), LogEntry(Error, ConnectFailed(reason)));
          indicator := false;
      }
    }

    /**
     * connectToDevice, with the two input fields as given and, when creating
     * the transport client throws, the error's message.
     */
    method ConnectToDevice(idInput: string, brokerInput: string, failure: Option<string>)
      requires Valid()
      modifies this
      ensures Snapshot() == ConnectStep(old(Snapshot()), idInput, brokerInput, failure)
      ensures Valid()
    {
      ghost var s0 := Snapshot();
      var id := Trim(idInput);
      var broker := Trim(brokerInput);
      if id == "" || broker == "" {
        AddLog(Error, MissingConnectInput);
      } else {
        deviceId := id;
        storage := storage.(deviceId := Some(id), broker := Some(broker));
        DeriveTopics(id);
        assert Snapshot() == s0.(deviceId := id, topics := TopicsFor(id),
                                 storage := s0.storage.(deviceId := Some(id), broker := Some(broker)));
        CreateClient(broker, failure);
      }
      assert Snapshot() == ConnectStep(s0, idInput, brokerInput, failure);
      ConnectKeepsInv(s0, idInput, brokerInput, failure);
    }

    /** The three subscribe calls of onMqttConnect: telemetry, configOut and status, in this order. */
    method SubscribeInbound()
      modifies this`subscriptions
      ensures subscriptions == old(subscriptions) + [topics.telemetry, topics.configOut, topics.status]
    {
      Subscribe(topics.telemetry);
      Subscribe(topics.configOut);
      Subscribe(topics.status);
    }

    /** The first lines of onMqttConnect: set the flag, paint the indicator, log the connection. */
    method MarkConnected()
      modifies this`isConnected, this`indicator, this`log
      ensures isConnected && indicator && log == Logged(old(log), [LogEntry(Success, BrokerConnected)])
    {
      isConnected := true;
      indicator := true;
      AddLog(Success, BrokerConnected);
    }

    /** The transport's connect event: mark connected, subscribe the three inbound topics, schedule a config fetch. */
    method OnMqttConnect()
      requires Valid() && clients != []
      modifies this
      ensures Snapshot() == BrokerConnectedStep(old(Snapshot()))
      ensures Valid()
    {
      ghost var s0 := Snapshot();
      MarkConnected();
      SubscribeInbound();
      var e2, e3 := LogEntry(Success, Subscribed(deviceId)), LogEntry(Info, AwaitingDevice);
      AddLogs(e2, e3);
      pendingConfigFetches := pendingConfigFetches + 1;
      assert Snapshot() == s0.(isConnected := true, indicator := true, subscriptions := subscriptions,
                              log := log, pendingConfigFetches := pendingConfigFetches);
      LoggedThree(s0.log, LogEntry(Success, BrokerConnected), e2, e3);
      BrokerConnectedKeepsInv(s0);
    }

    /** handleStatusUpdate: three independent checks, each logging on its own. */
    method HandleStatusUpdate(st: StatusFields)
      requires |log| <= MaxLogs
      modifies this
      ensures Snapshot() == StatusStep(old(Snapshot()), st)
    {
      ghost var added: seq<LogEntry> := [];
      LoggedNothing(log);
      if st.event == Some("feed") {
        MarkFed();
        added := [LogEntry(Success, DeviceFed)];
      }
      if st.warning.Some? && st.warning.value != "" {
        AddLog(Warning, DeviceWarning(st.warning.value));
        LoggedAppend(old(log), added, [LogEntry(Warning, DeviceWarning(st.warning.value))]);
        added := added + [LogEntry(Warning, DeviceWarning(st.warning.value))];
      }
      if st.status == Some("online") {
        AddLog(Success, DeviceOnline);
        LoggedAppend(old(log), added, [LogEntry(Success, DeviceOnline)]);
        added := added + [LogEntry(Success, DeviceOnline)];
      }
      assert added == StatusLogs(st);
    }

    /** The telemetry branch of onMqttMessage: updateTelemetry, then the success entry, or the caught fault. */
    method ReceiveTelemetry(t: TelemetryFields)
      modifies this`telemetry, this`log
      ensures Snapshot() == TelemetryStep(old(Snapshot()), t)
    {
      var outcome := UpdateTelemetry(telemetry, t);
      telemetry := outcome.view;
      if outcome.fault.Some? {
        AddLog(Error, MessageFailed(NotFormattable(outcome.fault.value)));
      } else {
        AddLog(Success, TelemetryReceived);
      }
    }

    /** updateConfigDisplay: the present keys overwrite the form, then the loaded entry. */
    method UpdateConfigDisplay(c: ConfigRecord)
      modifies this`form, this`log
      ensures Snapshot() == ConfigDisplayStep(old(Snapshot()), c)
    {
      form := DisplayConfig(form, c);
      AddLog(Success, ConfigLoaded);
    }

    /** The feed branch of handleStatusUpdate: log it, mark the badge, schedule its reset. */
    method MarkFed()
      modifies this`log, this`feedStatus, this`pendingFeedResets
      ensures log == Logged(old(log), [LogEntry(Success, DeviceFed)])
      ensures feedStatus == Fed && pendingFeedResets == old(pendingFeedResets) + 1
    {
      AddLog(Success, DeviceFed);
      feedStatus := Fed;
      pendingFeedResets := pendingFeedResets + 1;
    }

    /** Publish one message and log what was sent, as every connected command handler does. */
    method Send(message: Publish, kind: LogKind, entry: LogMessage)
      modifies this`published, this`log
      ensures published == old(published) + [message]
      ensures log == Logged(old(log), [LogEntry(kind, entry)])
    {
      published := published + [message];
      AddLog(kind, entry);
    }

    /** onMqttMessage: dispatch the parsed body by exact topic; a failure is logged and ends the handling. */
    method OnMqttMessage(topic: string, body: Inbound)
      requires Valid() && clients != []
      modifies this
      ensures Snapshot() == MessageStep(old(Snapshot()), topic, body)
      ensures Valid()
    {
      ghost var s0 := Snapshot();
      match body {
        case Unparsable(detail) =>
          AddLog(Error, MessageFailed(SyntaxError(detail)));
        case NullValue =>
          if topic == topics.telemetry || topic == topics.configOut || topic == topics.status {
            AddLog(Error, MessageFailed(NullRead));
          }
        case Parsed(t, c, st) =>
          if topic == topics.telemetry {
            ReceiveTelemetry(t);
          } else if topic == topics.configOut {
            UpdateConfigDisplay(c);
          } else if topic == topics.status {
            HandleStatusUpdate(st);
          }
      }
      MessageKeepsInv(s0, topic, body);
    }

    /** The transport's error event: log it and paint disconnected; the flag stays. */
    method OnMqttError(reason: string)
      requires Valid() && clients != []
      modifies this
      ensures Snapshot() == ErrorStep(old(Snapshot()), reason)
      ensures Valid()
    {
      AddLog(Error, TransportFault(reason));
      indicator := false;
    }

    /** The transport's offline event: the only place the flag is cleared. */
    method OnMqttOffline()
      requires Valid() && clients != []
      modifies this
      ensures Snapshot() == OfflineStep(old(Snapshot()))
      ensures Valid()
    {
      isConnected := false;
      indicator := false;
      AddLog(Warning, BrokerLost);
    }

    /** The transport's reconnect event: a log entry only. */
    method OnMqttReconnect()
      requires Valid() && clients != []
      modifies this
      ensures Snapshot() == ReconnectStep(old(Snapshot()))
      ensures Valid()
    {
      AddLog(Info, Reconnecting);
    }

    /** The 5 s poll: a client that reports itself disconnected repaints the indicator. */
    method OnStatusPoll(transportConnected: bool)
      requires Valid()
      modifies this
      ensures Snapshot() == PollStep(old(Snapshot()), transportConnected)
      ensures Valid()
    {
      if clients != [] && !transportConnected {
        indicator := false;
      }
    }

    /** The config fetch scheduled by the connect event fires. */
    method OnConfigFetchTimer()
      requires Valid() && pendingConfigFetches > 0
      modifies this
      ensures Snapshot() == ConfigFetchStep(old(Snapshot()))
      ensures Valid()
    {
      pendingConfigFetches := pendingConfigFetches - 1;
      LoadCurrentConfig();
    }

    /** A feed badge reset fires; it clears the badge whichever feed event set it. */
    method OnFeedResetTimer()
      requires Valid() && pendingFeedResets > 0
      modifies this
      ensures Snapshot() == FeedResetStep(old(Snapshot()))
      ensures Valid()
    {
      pendingFeedResets := pendingFeedResets - 1;
      feedStatus := Standby;
    }

    /** The operator edits the settings form. */
    method EditForm(f: ConfigForm)
      requires Valid()
      modifies this
      ensures Snapshot() == old(Snapshot()).(form := f)
      ensures Valid()
    {
      form := f;
    }

    method ControlHeater(action: string)
      requires Valid()
      modifies this
      ensures Snapshot() == CommandStep(old(Snapshot()), Heater(action))
      ensures Valid()
    {
      if !isConnected {
        AddLog(Error, NotConnected);
      } else {
        Send(Publish(topics.controlHeater, Token(action)), Info, HeaterCommandSent(action));
      }
    }

    method ControlMist(action: string)
      requires Valid()
      modifies this
      ensures Snapshot() == CommandStep(old(Snapshot()), Mist(action))
      ensures Valid()
    {
      if !isConnected {
        AddLog(Error, NotConnected);
      } else {
        Send(Publish(topics.controlMist, Token(action)), Info, MistCommandSent(action));
      }
    }

    method TriggerFeed()
      requires Valid()
      modifies this
      ensures Snapshot() == CommandStep(old(Snapshot()), Feed)
      ensures Valid()
    {
      if !isConnected {
        AddLog(Error, NotConnected);
      } else {
        Send(Publish(topics.controlFeed, Token("TRIGGER")), Info, FeedTriggered);
      }
    }

    method LoadCurrentConfig()
      requires Valid()
      modifies this
      ensures Snapshot() == CommandStep(old(Snapshot()), FetchConfig)
      ensures Valid()
    {
      if !isConnected {
        AddLog(Error, NotConnected);
      } else {
        Send(Publish(topics.command, Token("publish_config")), Info, ReadingConfig);
      }
    }

    /** saveConfig: fill the object key by key from the form, publish it, remember it under config_<id>. */
    method SaveConfig()
      requires Valid()
      modifies this
      ensures Snapshot() == CommandStep(old(Snapshot()), SendConfig)
      ensures Valid()
    {
      if !isConnected {
        AddLog(Error, NotConnected);
      } else {
        var config := BuildConfig(form);
        Send(Publish(topics.configIn, ConfigJson(config)), Success, ConfigSent);
        storage := storage.(configs := storage.configs[deviceId := config]);
      }
    }
  }
}
