/**
 * The dashboard's session as a state machine over values: every handler of
 * script.js is one event, and Step says what the page state is after it. The
 * class in dashboard.dfy performs the same handlers in place and is proved to
 * follow Step.
 */
module Protocol {
  import opened Wrappers
  import opened Strings
  import opened Topics
  import opened Log
  import opened Codec

  datatype LogKind = Info | Success | Warning | Error

  /**
   * What a failed message handling reports: a JSON syntax error, a TypeError
   * from reading a key of null, or a TypeError from formatting a reading.
   */
  datatype Fault = SyntaxError(detail: string) | NullRead | NotFormattable(key: string)

  /** The messages the page logs, one per addLog call site. */
  datatype LogMessage =
    | MissingConnectInput             // script.js:62
    | Connecting(broker: string)      // script.js:82
    | ConnectFailed(reason: string)   // script.js:102
    | BrokerConnected                 // script.js:110
    | Subscribed(deviceId: string)    // script.js:135
    | AwaitingDevice                  // script.js:136
    | TelemetryReceived               // script.js:153
    | MessageFailed(fault: Fault)     // script.js:165
    | TransportFault(reason: string)  // script.js:170
    | BrokerLost                      // script.js:177
    | Reconnecting                    // script.js:181
    | DeviceFed                       // script.js:262
    | DeviceWarning(text: string)     // script.js:270
    | DeviceOnline                    // script.js:274
    | NotConnected                    // script.js:281, 291, 301, 312, 380
    | HeaterCommandSent(action: string) // script.js:286
    | MistCommandSent(action: string) // script.js:296
    | FeedTriggered                   // script.js:306
    | ReadingConfig                   // script.js:317
    | ConfigLoaded                    // script.js:374
    | ConfigSent                      // script.js:432

  datatype LogEntry = LogEntry(kind: LogKind, message: LogMessage)

  /**
   * An inbound message body: text JSON.parse rejects, the JSON value null
   * (reading any key of it throws), or any other value, given by the keys the
   * three handlers read (all absent for a number or a string).
   */
  datatype Inbound =
    | Unparsable(detail: string)
    | NullValue
    | Parsed(telemetry: TelemetryFields, config: ConfigRecord, status: StatusFields)

  /** An outbound message body: a bare token, or a JSON configuration object. */
  datatype Payload = Token(text: string) | ConfigJson(config: ConfigRecord)

  datatype Publish = Publish(topic: string, payload: Payload)

  /** The feeder badge: standby, or "fed" for a while after a feed event. */
  datatype FeedStatus = Standby | Fed

  /** The localStorage keys the core writes: deviceId, mqttBroker and config_<id>. */
  datatype Storage = Storage(deviceId: Option<string>, broker: Option<string>, configs: map<string, ConfigRecord>)

  /** The device id the page starts with. */
  const DefaultDeviceId := "barleybox-001"

  /**
   * Everything the core changes. clients lists the broker of every transport
   * client created, the current one last; subscriptions and published record
   * the subscribe and publish calls in order; indicator is the painted
   * connection status.
   */
  datatype SessionState = SessionState(
    deviceId: string, topics: TopicSet, isConnected: bool,
    clients: seq<string>, subscriptions: seq<string>, published: seq<Publish>,
    indicator: bool, log: seq<LogEntry>,
    telemetry: TelemetryView, form: ConfigForm, feedStatus: FeedStatus,
    pendingConfigFetches: nat, pendingFeedResets: nat, storage: Storage)

  /** Every channel's topic is that channel's template for the id. */
  ghost predicate DerivedTopics(ts: TopicSet, id: string)
  {
    forall ch :: ts.Get(ch) == Topic(id, ch)
  }

  /**
   * The page as loaded, before anything is clicked or received: the globals'
   * initial values, then loadSavedSettings.
   */
  function Initial(storage: Storage, form: ConfigForm): SessionState
  {
    LoadSettingsStep(SessionState(DefaultDeviceId, Unset, false, [], [], [], false, [],
                                  NoTelemetry, form, Standby, 0, 0, storage))
  }

  /** The configuration stored under config_<id> for a non-empty saved device id, if any. */
  function SavedConfig(storage: Storage): Option<ConfigRecord>
  {
    match storage.deviceId
    case Some(id) => if id != "" && id in storage.configs then Some(storage.configs[id]) else None
    case None => None
  }

  /** loadSavedSettings: a configuration saved for the saved device id is shown as if the device had echoed it. */
  function LoadSettingsStep(s: SessionState): SessionState
  {
    match SavedConfig(s.storage)
    case Some(c) => ConfigDisplayStep(s, c)
    case None => s
  }

  /**
   * What holds in every reachable state: the log fits its cap, the device id
   * is a trimmed non-empty string, the topics are either the initial blank
   * ones (no client yet) or the ones derived from the device id, and the page
   * is connected only through a client it created.
   */
  ghost predicate Inv(s: SessionState)
  {
    && |s.log| <= MaxLogs
    && s.deviceId != "" && Trimmed(s.deviceId)
    && (DerivedTopics(s.topics, s.deviceId) || (s.topics == Unset && s.clients == []))
    && (s.isConnected ==> s.clients != [])
  }

  /** The outbound operations an operator can click. */
  datatype Command =
    | Heater(action: string)   // controlHeater
    | Mist(action: string)     // controlMist
    | Feed                     // triggerFeed
    | FetchConfig              // loadCurrentConfig
    | SendConfig               // saveConfig, of the form as it is at the click

  /** Every event the core reacts to. */
  datatype Event =
    | Connect(idInput: string, brokerInput: string, failure: Option<string>)
    | MqttConnect
    | MqttMessage(topic: string, body: Inbound)
    | MqttError(reason: string)
    | MqttOffline
    | MqttReconnect
    | StatusPoll(transportConnected: bool)
    | ConfigFetchDue
    | FeedResetDue
    | Issue(command: Command)
    | Edit(form: ConfigForm)    // the operator types into the settings form

  /**
   * A timer event can only fire after it was scheduled, and a transport event
   * only comes from a client whose handlers connect attached.
   */
  predicate Enabled(s: SessionState, e: Event)
  {
    match e
    case MqttConnect | MqttMessage(_, _) | MqttError(_) | MqttOffline | MqttReconnect => s.clients != []
    case ConfigFetchDue => s.pendingConfigFetches > 0
    case FeedResetDue => s.pendingFeedResets > 0
    case _ => true
  }

  /** Which handler onMqttMessage hands an object to: by exact topic equality, in this order. */
  datatype Handler = TelemetryHandler | ConfigHandler | StatusHandler | Unhandled

  function Route(ts: TopicSet, topic: string): Handler
  {
    if topic == ts.telemetry then TelemetryHandler
    else if topic == ts.configOut then ConfigHandler
    else if topic == ts.status then StatusHandler
    else Unhandled
  }

  function CommandChannel(c: Command): Channel
  {
    match c
    case Heater(_) => ControlHeater
    case Mist(_) => ControlMist
    case Feed => ControlFeed
    case FetchConfig => Command
    case SendConfig => ConfigIn
  }

  /** What a command sends; saveConfig sends the encoded form. */
  function CommandPayload(c: Command, f: ConfigForm): Payload
  {
    match c
    case Heater(a) => Token(a)
    case Mist(a) => Token(a)
    case Feed => Token("TRIGGER")
    case FetchConfig => Token("publish_config")
    case SendConfig => ConfigJson(EncodeConfig(f))
  }

  function CommandSentEntry(c: Command): LogEntry
  {
    match c
    case Heater(a) => LogEntry(Info, HeaterCommandSent(a))
    case Mist(a) => LogEntry(Info, MistCommandSent(a))
    case Feed => LogEntry(Info, FeedTriggered)
    case FetchConfig => LogEntry(Info, ReadingConfig)
    case SendConfig => LogEntry(Success, ConfigSent)
  }

  /** The five command handlers: nothing but an error entry unless connected. */
  function CommandStep(s: SessionState, c: Command): SessionState
  {
    if !s.isConnected then
      s.(log := Logged(s.log, [LogEntry(Error, NotConnected)]))
    else
      s.(published := s.published + [Publish(s.topics.Get(CommandChannel(c)), CommandPayload(c, s.form))],
         log := Logged(s.log, [CommandSentEntry(c)]),
         storage := if c.SendConfig? then s.storage.(configs := s.storage.configs[s.deviceId := EncodeConfig(s.form)])
                    else s.storage)
  }

  /** connectToDevice: validate the trimmed inputs, remember them, derive the topics, create a client. */
  function ConnectStep(s: SessionState, idInput: string, brokerInput: string, failure: Option<string>): SessionState
  {
    var id, broker := Trim(idInput), Trim(brokerInput);
    if id == "" || broker == "" then
      s.(log := Logged(s.log, [LogEntry(Error, MissingConnectInput)]))
    else
      ClientStep(s.(deviceId := id, topics := TopicsFor(id),
                    storage := s.storage.(deviceId := Some(id), broker := Some(broker))),
                 broker, failure)
  }

  /** The try block of connectToDevice: log the attempt, then keep the new client or log why creating it threw. */
  function ClientStep(s: SessionState, broker: string, failure: Option<string>): SessionState
  {
    match failure
    case None =>
      s.(clients := s.clients + [broker], log := Logged(s.log, [LogEntry(Info, Connecting(broker))]))
    case Some(reason) =>
      s.(indicator := false,
         log := Logged(s.log, [LogEntry(Info, Connecting(broker)), LogEntry(Error, ConnectFailed(reason))]))
  }

  /** The entries handleStatusUpdate logs: three independent checks, in this order. */
  function StatusLogs(st: StatusFields): seq<LogEntry>
  {
    (if st.event == Some("feed") then [LogEntry(Success, DeviceFed)] else [])
    + (if st.warning.Some? && st.warning.value != "" then [LogEntry(Warning, DeviceWarning(st.warning.value))] else [])
    + (if st.status == Some("online") then [LogEntry(Success, DeviceOnline)] else [])
  }

  /** handleStatusUpdate: a feed event also marks the feeder and schedules its own reset. */
  function StatusStep(s: SessionState, st: StatusFields): SessionState
  {
    var fed := st.event == Some("feed");
    s.(feedStatus := if fed then Fed else s.feedStatus,
       pendingFeedResets := if fed then s.pendingFeedResets + 1 else s.pendingFeedResets,
       log := Logged(s.log, StatusLogs(st)))
  }

  /** onMqttMessage: parse, then dispatch by topic; failures are logged and stop the handling. */
  function MessageStep(s: SessionState, topic: string, body: Inbound): SessionState
  {
    match body
    case Unparsable(d) =>
      s.(log := Logged(s.log, [LogEntry(Error, MessageFailed(SyntaxError(d)))]))
    case NullValue =>
      if Route(s.topics, topic) == Unhandled then s
      else s.(log := Logged(s.log, [LogEntry(Error, MessageFailed(NullRead))]))
    case Parsed(t, c, st) =>
      match Route(s.topics, topic)
      case TelemetryHandler => TelemetryStep(s, t)
      case ConfigHandler => ConfigDisplayStep(s, c)
      case StatusHandler => StatusStep(s, st)
      case Unhandled => s
  }

  /**
   * The telemetry branch: updateTelemetry, then the success entry; a value
   * that cannot be formatted stops the update where it failed and is logged
   * by the handler's catch instead.
   */
  function TelemetryStep(s: SessionState, t: TelemetryFields): SessionState
  {
    var r := UpdateTelemetry(s.telemetry, t);
    s.(telemetry := r.view,
       log := Logged(s.log, [if r.fault.Some? then LogEntry(Error, MessageFailed(NotFormattable(r.fault.value)))
                             else LogEntry(Success, TelemetryReceived)]))
  }

  /** updateConfigDisplay: the present keys overwrite the form, then the loaded entry. */
  function ConfigDisplayStep(s: SessionState, c: ConfigRecord): SessionState
  {
    s.(form := DisplayConfig(s.form, c), log := Logged(s.log, [LogEntry(Success, ConfigLoaded)]))
  }

  /** onMqttConnect: connected, the three inbound topics subscribed, a config fetch scheduled. */
  function BrokerConnectedStep(s: SessionState): SessionState
  {
    s.(isConnected := true, indicator := true,
       subscriptions := s.subscriptions + [s.topics.telemetry, s.topics.configOut, s.topics.status],
       pendingConfigFetches := s.pendingConfigFetches + 1,
       log := Logged(s.log, [LogEntry(Success, BrokerConnected), LogEntry(Success, Subscribed(s.deviceId)),
                             LogEntry(Info, AwaitingDevice)]))
  }

  /** onMqttError: logged and painted disconnected; the flag stays. */
  function ErrorStep(s: SessionState, reason: string): SessionState
  {
    s.(indicator := false, log := Logged(s.log, [LogEntry(Error, TransportFault(reason))]))
  }

  /** onMqttOffline: the only event that clears the flag. */
  function OfflineStep(s: SessionState): SessionState
  {
    s.(isConnected := false, indicator := false, log := Logged(s.log, [LogEntry(Warning, BrokerLost)]))
  }

  /** onMqttReconnect: a log entry only. */
  function ReconnectStep(s: SessionState): SessionState
  {
    s.(log := Logged(s.log, [LogEntry(Info, Reconnecting)]))
  }

  /** The 5 s poll: an existing client that is not connected repaints the indicator. */
  function PollStep(s: SessionState, transportConnected: bool): SessionState
  {
    if s.clients != [] && !transportConnected then s.(indicator := false) else s
  }

  /** The delayed loadCurrentConfig fires. */
  function ConfigFetchStep(s: SessionState): SessionState
    requires s.pendingConfigFetches > 0
  {
    CommandStep(s.(pendingConfigFetches := s.pendingConfigFetches - 1), FetchConfig)
  }

  /** A feed badge reset fires: standby, whichever feed event scheduled it. */
  function FeedResetStep(s: SessionState): SessionState
    requires s.pendingFeedResets > 0
  {
    s.(pendingFeedResets := s.pendingFeedResets - 1, feedStatus := Standby)
  }

  /** The state after one event. */
  function Step(s: SessionState, e: Event): SessionState
    requires Enabled(s, e)
  {
    match e
    case Connect(idInput, brokerInput, failure) => ConnectStep(s, idInput, brokerInput, failure)
    case MqttConnect => BrokerConnectedStep(s)
    case MqttMessage(topic, body) => MessageStep(s, topic, body)
    case MqttError(reason) => ErrorStep(s, reason)
    case MqttOffline => OfflineStep(s)
    case MqttReconnect => ReconnectStep(s)
    case StatusPoll(up) => PollStep(s, up)
    case ConfigFetchDue => ConfigFetchStep(s)
    case FeedResetDue => FeedResetStep(s)
    case Issue(c) => CommandStep(s, c)
    case Edit(f) => s.(form := f)
  }

  // ------------------------------------------------------------------ lemmas

  /** The topics are derived from an id exactly when they are the eight templates for it. */
  lemma DerivedTopicsIff(ts: TopicSet, id: string)
    ensures DerivedTopics(ts, id) <==> ts == TopicsFor(id)
  {
  }

  /** The page starts in a state that satisfies the invariant. */
  lemma InitialInv(storage: Storage, form: ConfigForm)
    ensures Inv(Initial(storage, form))
  {
  }

  /**
   * The page starts on the default id, with blank topics, no client and
   * nothing sent; its log is empty unless a configuration was saved for the
   * saved device id, which is then shown in the form with one loaded entry.
   */
  lemma InitialLoadsSaved(storage: Storage, form: ConfigForm)
    ensures var s := Initial(storage, form);
      && s.deviceId == DefaultDeviceId && s.topics == Unset && !s.isConnected
      && s.clients == [] && s.subscriptions == [] && s.published == []
      && s.telemetry == NoTelemetry && s.storage == storage
      && (s.log != [] <==> storage.deviceId.Some? && storage.deviceId.value != ""
                           && storage.deviceId.value in storage.configs)
      && (s.log == [] ==> s.form == form)
      && (s.log != [] ==> var c := storage.configs[storage.deviceId.value];
            s.log == [LogEntry(Success, ConfigLoaded)] && s.form == DisplayConfig(form, c))
  {
  }

  /** A message changes neither the device id, the topics nor the clients, and logs within the cap. */
  lemma MessageKeepsInv(s: SessionState, topic: string, body: Inbound)
    requires Inv(s)
    ensures var t := MessageStep(s, topic, body);
      t.deviceId == s.deviceId && t.topics == s.topics && t.clients == s.clients && |t.log| <= MaxLogs
  {
  }

  /** A connect keeps the device id trimmed and non-empty and the topics derived from it. */
  lemma ConnectKeepsInv(s: SessionState, idInput: string, brokerInput: string, failure: Option<string>)
    requires Inv(s)
    ensures Inv(ConnectStep(s, idInput, brokerInput, failure))
  {
    var id, broker := Trim(idInput), Trim(brokerInput);
    if id != "" && broker != "" {
      TrimIsTrimmed(idInput);
      var s1 := s.(deviceId := id, topics := TopicsFor(id),
                   storage := s.storage.(deviceId := Some(id), broker := Some(broker)));
      forall ch ensures TopicsFor(id).Get(ch) == Topic(id, ch) {
        TopicsForGet(id, ch);
      }
      ClientKeepsInv(s1, broker, failure);
    }
  }

  /** The try block keeps the invariant once the topics are derived from the id. */
  lemma ClientKeepsInv(s: SessionState, broker: string, failure: Option<string>)
    requires Inv(s) && DerivedTopics(s.topics, s.deviceId)
    ensures Inv(ClientStep(s, broker, failure))
  {
  }

  /** The connect event changes flags, subscriptions and the log only. */
  lemma BrokerConnectedKeepsInv(s: SessionState)
    requires Inv(s) && s.clients != []
    ensures Inv(BrokerConnectedStep(s))
  {
  }

  /** Every event keeps the invariant: the log stays capped and the topics stay derived from the id. */
  lemma StepKeepsInv(s: SessionState, e: Event)
    requires Inv(s) && Enabled(s, e)
    ensures Inv(Step(s, e))
  {
    match e {
      case Connect(idInput, brokerInput, failure) => ConnectKeepsInv(s, idInput, brokerInput, failure);
      case MqttMessage(topic, body) => MessageKeepsInv(s, topic, body);
      case _ =>
    }
  }

  /**
   * The onMqttMessage dispatch for derived topics: exactly the telemetry,
   * configOut and status topics reach a handler, each its own.
   */
  lemma RouteExact(id: string, topic: string)
    ensures Route(TopicsFor(id), topic) == TelemetryHandler <==> topic == Topic(id, Telemetry)
    ensures Route(TopicsFor(id), topic) == ConfigHandler <==> topic == Topic(id, ConfigOut)
    ensures Route(TopicsFor(id), topic) == StatusHandler <==> topic == Topic(id, Status)
  {
    TopicsDistinct(id, Telemetry, ConfigOut);
    TopicsDistinct(id, Telemetry, Status);
    TopicsDistinct(id, ConfigOut, Status);
  }

  /** isConnected becomes true only on the transport's connect event and false only on its offline event. */
  lemma ConnectedFlag(s: SessionState, e: Event)
    requires Enabled(s, e)
    ensures Step(s, e).isConnected == (e.MqttConnect? || (s.isConnected && !e.MqttOffline?))
  {
  }

  /** The periodic poll repaints the indicator and changes nothing else. */
  lemma PollOnlyRepaints(s: SessionState, up: bool)
    ensures Step(s, StatusPoll(up)) == s.(indicator := if s.clients != [] && !up then false else s.indicator)
  {
  }

  /** A blank device id or broker is rejected with an error entry and nothing else changes. */
  lemma ConnectRejectsBlank(s: SessionState, idInput: string, brokerInput: string, failure: Option<string>)
    requires Blank(idInput) || Blank(brokerInput)
    ensures Step(s, Connect(idInput, brokerInput, failure))
         == s.(log := Logged(s.log, [LogEntry(Error, MissingConnectInput)]))
  {
    TrimEmptyIffBlank(idInput);
    TrimEmptyIffBlank(brokerInput);
  }

  /**
   * A valid connect takes the trimmed id as device id, derives every topic
   * from it alone, stores id and broker, and creates a client unless
   * creating it throws; the connection flag is left to the transport.
   */
  lemma ConnectDerivesTopics(s: SessionState, idInput: string, brokerInput: string, failure: Option<string>)
    requires !Blank(idInput) && !Blank(brokerInput)
    ensures var t := Step(s, Connect(idInput, brokerInput, failure)); var id := Trim(idInput);
      && t.deviceId == id && id != ""
      && (forall ch :: t.topics.Get(ch) == Topic(id, ch))
      && t.storage.deviceId == Some(id) && t.storage.broker == Some(Trim(brokerInput))
      && t.storage.configs == s.storage.configs
      && t.clients == (if failure.None? then s.clients + [Trim(brokerInput)] else s.clients)
      && t.isConnected == s.isConnected && t.published == s.published
  {
    TrimEmptyIffBlank(idInput);
    TrimEmptyIffBlank(brokerInput);
    forall ch ensures TopicsFor(Trim(idInput)).Get(ch) == Topic(Trim(idInput), ch) {
      TopicsForGet(Trim(idInput), ch);
    }
  }

  /** On the connect event exactly the telemetry, configOut and status topics of the device are subscribed, in that order. */
  lemma ConnectSubscribes(s: SessionState)
    requires Inv(s) && s.clients != []
    ensures var t := Step(s, MqttConnect);
      && t.subscriptions == s.subscriptions + [Topic(s.deviceId, Telemetry), Topic(s.deviceId, ConfigOut), Topic(s.deviceId, Status)]
      && t.pendingConfigFetches == s.pendingConfigFetches + 1
      && t.published == s.published
  {
    assert Step(s, MqttConnect) == BrokerConnectedStep(s);
    assert s.topics.telemetry == s.topics.Get(Telemetry) == Topic(s.deviceId, Telemetry);
    assert s.topics.configOut == s.topics.Get(ConfigOut) == Topic(s.deviceId, ConfigOut);
    assert s.topics.status == s.topics.Get(Status) == Topic(s.deviceId, Status);
  }

  /** A command's topic is its own topic of the device, and none the dashboard listens on. */
  lemma CommandTopicUnheard(id: string, c: Command)
    ensures TopicsFor(id).Get(CommandChannel(c)) == Topic(id, CommandChannel(c))
    ensures Route(TopicsFor(id), Topic(id, CommandChannel(c))) == Unhandled
  {
    var ch := CommandChannel(c);
    TopicsForGet(id, ch);
    TopicsDistinct(id, ch, Telemetry);
    TopicsDistinct(id, ch, ConfigOut);
    TopicsDistinct(id, ch, Status);
    assert TopicsFor(id).telemetry == Topic(id, Telemetry) by { TopicsForGet(id, Telemetry); }
    assert TopicsFor(id).configOut == Topic(id, ConfigOut) by { TopicsForGet(id, ConfigOut); }
    assert TopicsFor(id).status == Topic(id, Status) by { TopicsForGet(id, Status); }
  }

  /**
   * Gating: without a connection a command publishes nothing; with one it
   * publishes exactly one message, to its own topic of the device, which is
   * none of the topics the dashboard listens on.
   */
  lemma CommandGated(s: SessionState, c: Command)
    requires Inv(s)
    ensures var t := Step(s, Issue(c));
      && t.isConnected == s.isConnected
      && (!s.isConnected ==> t.published == s.published && t.storage == s.storage)
      && (s.isConnected ==>
            && |t.published| == |s.published| + 1
            && t.published[..|s.published|] == s.published
            && t.published[|s.published|].payload == CommandPayload(c, s.form)
            && t.published[|s.published|].topic == Topic(s.deviceId, CommandChannel(c))
            && Route(s.topics, t.published[|s.published|].topic) == Unhandled)
  {
    var t := Step(s, Issue(c));
    assert t == CommandStep(s, c);
    if s.isConnected {
      var p := Publish(s.topics.Get(CommandChannel(c)), CommandPayload(c, s.form));
      assert t.published == s.published + [p];
      assert t.published[..|s.published|] == s.published;
      DerivedTopicsIff(s.topics, s.deviceId);
      CommandTopicUnheard(s.deviceId, c);
    }
  }

  /** The payload each command sends: the caller's token, "TRIGGER", "publish_config", or the encoded form. */
  lemma CommandPayloads(s: SessionState, c: Command)
    requires s.isConnected
    ensures var p := Step(s, Issue(c)).published[|s.published|];
      && (c.Heater? ==> p.topic == s.topics.controlHeater && p.payload == Token(c.action))
      && (c.Mist? ==> p.topic == s.topics.controlMist && p.payload == Token(c.action))
      && (c.Feed? ==> p.topic == s.topics.controlFeed && p.payload == Token("TRIGGER"))
      && (c.FetchConfig? ==> p.topic == s.topics.command && p.payload == Token("publish_config"))
      && (c.SendConfig? ==> p.topic == s.topics.configIn && p.payload == ConfigJson(EncodeConfig(s.form)))
  {
  }

  /** Only a command or the delayed config fetch publishes; transport events and the poll never do. */
  lemma OnlyCommandsPublish(s: SessionState, e: Event)
    requires Enabled(s, e) && !e.Issue? && !e.ConfigFetchDue?
    ensures Step(s, e).published == s.published
  {
    match e {
      case MqttMessage(topic, body) => MessageFailuresOnlyLog(s, topic, body);
      case _ =>
    }
  }

  /**
   * A message never publishes, never touches the connection or the topics,
   * and a body that cannot be read changes nothing but the log.
   */
  lemma MessageFailuresOnlyLog(s: SessionState, topic: string, body: Inbound)
    requires Enabled(s, MqttMessage(topic, body))
    ensures var t := Step(s, MqttMessage(topic, body));
      && t.published == s.published && t.isConnected == s.isConnected
      && t.deviceId == s.deviceId && t.topics == s.topics && t.clients == s.clients
      && (body.Unparsable? ==>
            t == s.(log := Logged(s.log, [LogEntry(Error, MessageFailed(SyntaxError(body.detail)))])))
      && (body.NullValue? ==>
            t.telemetry == s.telemetry && t.form == s.form && t.feedStatus == s.feedStatus)
  {
  }

  /**
   * An object on the telemetry, configOut or status topic reaches only its own
   * handler and changes only what that handler changes, a null body on one of
   * them only logs the fault, and any other topic changes nothing.
   */
  lemma MessageReachesOwnHandler(s: SessionState, topic: string, body: Inbound)
    requires Inv(s) && Enabled(s, MqttMessage(topic, body)) && !body.Unparsable?
    ensures var t := Step(s, MqttMessage(topic, body)); var id := s.deviceId;
      && (body.Parsed? && topic == Topic(id, Telemetry) ==>
            t == s.(telemetry := UpdateTelemetry(s.telemetry, body.telemetry).view, log := t.log))
      && (body.Parsed? && topic == Topic(id, ConfigOut) ==>
            t == s.(form := DisplayConfig(s.form, body.config), log := t.log))
      && (body.Parsed? && topic == Topic(id, Status) ==>
            t == s.(feedStatus := t.feedStatus, pendingFeedResets := t.pendingFeedResets, log := t.log))
      && (body.NullValue? && topic in {Topic(id, Telemetry), Topic(id, ConfigOut), Topic(id, Status)} ==>
            t == s.(log := Logged(s.log, [LogEntry(Error, MessageFailed(NullRead))])))
      && (topic !in {Topic(id, Telemetry), Topic(id, ConfigOut), Topic(id, Status)} ==> t == s)
  {
    DerivedTopicsIff(s.topics, s.deviceId);
    RouteExact(s.deviceId, topic);
  }

  /** The three status checks are independent: one object can log any combination of them. */
  lemma StatusChecksIndependent(st: StatusFields)
    ensures LogEntry(Success, DeviceFed) in StatusLogs(st) <==> st.event == Some("feed")
    ensures LogEntry(Success, DeviceOnline) in StatusLogs(st) <==> st.status == Some("online")
    ensures (exists e :: e in StatusLogs(st) && e.kind == Warning) <==> st.warning.Some? && st.warning.value != ""
    ensures |StatusLogs(st)| == (if st.event == Some("feed") then 1 else 0)
                               + (if st.warning.Some? && st.warning.value != "" then 1 else 0)
                               + (if st.status == Some("online") then 1 else 0)
  {
  }

  /** The status topic of a device reaches the status handler and no other. */
  lemma StatusTopicRoutes(id: string)
    ensures Route(TopicsFor(id), Topic(id, Status)) == StatusHandler
  {
    TopicsDistinct(id, Telemetry, Status);
    TopicsDistinct(id, ConfigOut, Status);
  }

  /** A status object with a feed event on the device's status topic marks the feeder and schedules one reset. */
  lemma FeedEventMarks(s: SessionState, st: StatusFields)
    requires s.topics == TopicsFor(s.deviceId) && s.clients != [] && st.event == Some("feed")
    ensures var t := Step(s, MqttMessage(Topic(s.deviceId, Status), Parsed(NoFields, EmptyConfig, st)));
      && t.deviceId == s.deviceId && t.topics == s.topics && t.clients == s.clients
      && t.feedStatus == Fed && t.pendingFeedResets == s.pendingFeedResets + 1
  {
    StatusTopicRoutes(s.deviceId);
  }

  /** A telemetry object with none of the keys present. */
  const NoFields := TelemetryFields(Undefined, Undefined, Undefined, None, None, None)

  /**
   * Each feed event schedules its own reset, and any reset clears the badge:
   * after two feed events the first reset already shows standby although the
   * second one's reset is still pending.
   */
  lemma EarlierResetClearsLaterFeed(s: SessionState, st: StatusFields)
    requires s.topics == TopicsFor(s.deviceId) && s.clients != [] && st.event == Some("feed")
    ensures var feed := MqttMessage(Topic(s.deviceId, Status), Parsed(NoFields, EmptyConfig, st));
      var s1 := Step(s, feed);
      var s2 := Step(s1, feed);
      && s2.feedStatus == Fed && s2.pendingFeedResets == s.pendingFeedResets + 2
      && Step(s2, FeedResetDue).feedStatus == Standby
      && Step(s2, FeedResetDue).pendingFeedResets == s.pendingFeedResets + 1
  {
    var feed := MqttMessage(Topic(s.deviceId, Status), Parsed(NoFields, EmptyConfig, st));
    FeedEventMarks(s, st);
    var s1 := Step(s, feed);
    assert s1.deviceId == s.deviceId && s1.clients == s.clients && s1.pendingFeedResets == s.pendingFeedResets + 1;
    FeedEventMarks(s1, st);
    var s2 := Step(s1, feed);
    assert s2.feedStatus == Fed && s2.pendingFeedResets == s.pendingFeedResets + 2;
    assert Step(s2, FeedResetDue) == s2.(pendingFeedResets := s2.pendingFeedResets - 1, feedStatus := Standby);
  }
}
