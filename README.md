# barley-worm-monitor dashboard: the device session in Dafny

The barley-worm-monitor dashboard is a browser page (`script.js`) that talks to
one greenhouse controller over MQTT. This project models the session core of
that page:

- the operator connects to a device id and a broker, and the page derives eight
  topic names `farm/<word>/<id>[/<sub>]` from the id;
- the transport reports connect, message, error, offline and reconnect events;
  the page subscribes to the telemetry, configOut and status topics and routes
  each inbound object by exact topic to one of three handlers;
- telemetry objects repaint the readings and badges, configuration echoes fill
  the settings form, status objects log events and mark the feeder;
- five buttons publish a heater token, a mist token, a feed trigger, a config
  request or the encoded settings form, and each does so only while connected;
- the handlers write to an activity log that keeps the newest 30 entries,
  newest first (the poll, the feed badge reset, form edits and objects on
  topics no handler takes leave it alone).

The model has two layers:

- `Protocol.Step` (protocol.dfy) gives the page state after each event as a
  pure function. Most lemmas about the session are stated against it.
- `Dashboard.Session` (dashboard.dfy) is a class whose fields are the script's
  globals. Its methods update those fields as the handlers do, step by step,
  and each method is proved to end in the state `Step` gives for its event.
  `addLog` keeps its trimming `while` loop, and `saveConfig` fills its object
  key by key.

The supporting modules are:

- strings.dfy: ECMAScript `trim`.
- topics.dfy: the topic templates.
- log.dfy: the capped newest-first log.
- codec.dfy: the telemetry, config and status objects, `Math.round` minutes,
  and the settings encoder and decoder.

Inputs that come from outside the page are parameters or events:

- the text of the two connect inputs, and whether creating the client throws;
- each inbound body, already classified the way the handlers' checks see it;
- whether the transport reports itself connected at a poll;
- the firing of the two timers, and the operator's edits to the settings form.

## Model

| member | source | states |
|---|---|---|
| Strings.Trim | script.js:58-59 | the definition of `String.prototype.trim` over ECMAScript whitespace; its properties are stated by the Strings lemmas below |
| Strings.TrimStartSpec | script.js:58-59 | trimStart drops only leading whitespace and leaves a suffix that starts with a non-space |
| Strings.TrimEndSpec | script.js:58-59 | trimEnd drops only trailing whitespace and leaves a prefix that ends with a non-space |
| Strings.TrimIsMiddle | script.js:58-59 | trim returns the middle of the input, with only whitespace removed on either side |
| Strings.TrimIsTrimmed | script.js:58-59 | a trimmed input neither starts nor ends with whitespace |
| Strings.TrimmedIsFixed | script.js:58-59 | a string without whitespace at its ends trims to itself |
| Strings.TrimIdempotent | script.js:58-59 | trimming twice is trimming once |
| Strings.TrimEmptyIffBlank | script.js:58-64 | an input trims to empty exactly when it is all whitespace, which is the connect form's "missing input" test |
| Topics.Topic | script.js:73-80 | the definition of one channel's template `farm/<word>/<id>[/<sub>]`; its properties are stated by the Topics lemmas below |
| Topics.TopicsFor | script.js:73-80 | the definition of the topic record connect fills in for an id; `Topics.TopicsForGet` ties it to the templates |
| Topics.TopicsForGet | script.js:73-80 | each of the eight topics connect assigns is its channel's template applied to the id |
| Topics.TopicLength | script.js:73-80 | each template adds a fixed number of characters to the id |
| Topics.TopicsDistinct | script.js:73-80 | for one id, the eight topics are pairwise distinct |
| Topics.SlashedIdsCollide | script.js:77-78 | distinct ids can share a topic: the configIn topic of "box/current" is the configOut topic of "box" |
| Topics.TopicLevels | script.js:73-80 | for an id without '/', the levels of a topic are "farm", the channel word, the id, then the sub-level if the channel has one |
| Topics.TopicsInjective | script.js:73-80 | for ids without '/', a topic determines both the id and the channel |
| Log.Logged | script.js:455-480 | the closed form of a batch of addLog calls: the added entries newest first, then the old log, cut to 30; `Log.AddedInTurnIsLogged` proves it equal to one call at a time |
| Log.AddedInTurn | script.js:455-480 | the reference definition: addLog applied to each entry in turn, inserting in front and trimming to 30 |
| Log.Capped | script.js:476-479 | the trimming loop leaves at most 30 entries |
| Log.CappedPrefix | script.js:476-479 | trimming keeps the first entries in order: all of a short log, or the first 30 of a long one |
| Log.AddedInTurnIsLogged | script.js:455-480 | adding entries one addLog call at a time gives the added entries newest first, then the old log, cut to 30 |
| Log.LoggedNewestFirst | script.js:469-473 | the entry added last heads the log, and the log holds at most 30 entries |
| Log.LoggedAppend | script.js:455-480 | adding one batch of entries and then another is adding both, in order |
| Log.LoggedOne | script.js:469-479 | one addLog puts the entry first; below the cap nothing is dropped; at the cap only the oldest entry is dropped |
| Codec.UpdateTelemetry | script.js:201-242 | the definition of updateTelemetry, cell by cell in source order, stopping at the first throw; its properties are stated by the Codec.Telemetry* lemmas below |
| Codec.ShowReading | script.js:203-224 | a reading cell shows a number exactly for numeric values; absent and NaN values show "--"; null shows "--" only for temp_sub; null elsewhere, and coercible non-numbers, throw |
| Codec.TelemetryFault | script.js:201-224 | updateTelemetry throws exactly when some reading cannot be formatted, and the fault names the first such key in cell order |
| Codec.TelemetryFaultKeepsRest | script.js:201-224 | a throw leaves the faulting cell and every later cell and badge as they were |
| Codec.TelemetryReadingsReset | script.js:203-224 | a readable object sets each reading to its number and resets every other reading to "--", so the readings shown depend on the object alone |
| Codec.TelemetryBadgesMerge | script.js:227-241 | the mode and actuator badges change only when the object carries them; "AUTO" shows automatic, and any other non-empty mode shows manual |
| Codec.TelemetryIdempotent | script.js:201-242 | showing the same object twice shows what showing it once does |
| Codec.JsRound | script.js:356 | Math.round gives the integer within half of x, with halves rounded up |
| Codec.RoundMinutes | script.js:356 | seconds are shown as the whole minutes within 30 s of them |
| Codec.MinutesRoundTrip | script.js:368 | whole minutes sent as seconds are shown as the same minutes again |
| Codec.TenMinutes | script.js:368 | 600 s is shown as 10 min, and 10 min is sent as 600 s |
| Codec.EncodeConfig | script.js:384-426 | the definition of the object saveConfig builds from the form; `Codec.EncodeConfigSpec` states it key by key |
| Codec.EncodeConfigSpec | script.js:384-426 | saveConfig sends a key exactly when its input is filled in, sends every value unchanged except the two minute inputs, which go out as minutes × 60, and does not scale feed_duration_ms |
| Codec.DisplayConfig | script.js:321-372 | the definition of the form updateConfigDisplay leaves; `Codec.DisplayOverwritesPresentOnly` states it key by key |
| Codec.DisplayOverwritesPresentOnly | script.js:323-372 | updateConfigDisplay overwrites exactly the inputs whose keys are present, and shows the seconds keys as minutes within 30 s |
| Codec.DisplayNothing | script.js:321-375 | an echo without keys leaves the whole form as it was |
| Codec.DisplayIdempotent | script.js:321-375 | showing the same echo twice shows what showing it once does |
| Codec.EchoMerges | script.js:321-436 | when the device echoes what saveConfig sent for a form f, any form on screen ends up with f's filled-in inputs, the minute inputs included, and keeps its own values elsewhere |
| Codec.EchoRestoresForm | script.js:321-436 | a saved form is unchanged by the save, echo and display round trip |
| Protocol.Route | script.js:151-160 | the definition of onMqttMessage's dispatch by exact topic, in source order; `Protocol.RouteExact` states it for derived topics |
| Protocol.ConnectStep | script.js:57-104 | the definition of connectToDevice on the page state; `Protocol.ConnectRejectsBlank`, `Protocol.ConnectDerivesTopics` and `Protocol.ConnectKeepsInv` state its properties |
| Protocol.ClientStep | script.js:82-104 | the definition of connectToDevice's try block; `Protocol.ClientKeepsInv` states the invariant it keeps |
| Protocol.BrokerConnectedStep | script.js:107-142 | the definition of onMqttConnect; `Protocol.ConnectSubscribes` and `Protocol.BrokerConnectedKeepsInv` state its properties |
| Protocol.MessageStep | script.js:144-167 | the definition of onMqttMessage; `Protocol.MessageReachesOwnHandler` and `Protocol.MessageFailuresOnlyLog` state its properties |
| Protocol.StatusStep | script.js:260-276 | the definition of handleStatusUpdate; `Protocol.StatusChecksIndependent` and `Protocol.FeedEventMarks` state its properties |
| Protocol.CommandStep | script.js:279-436 | the definition of the five command handlers; `Protocol.CommandGated` and `Protocol.CommandPayloads` state its properties |
| Protocol.PollStep | script.js:498-502 | the definition of the 5 s poll; `Protocol.PollOnlyRepaints` states it |
| Protocol.LoadSettingsStep | script.js:439-451 | the definition of loadSavedSettings; `Protocol.InitialLoadsSaved` states what it leaves at page load |
| Protocol.Initial | script.js:2-21 | the definition of the page as loaded: the globals' initial values, then loadSavedSettings; `Protocol.InitialLoadsSaved` and `Protocol.InitialInv` state its properties |
| Protocol.SavedConfig | script.js:440-444 | the definition of loadSavedSettings' lookup: the configuration under config_<id> for a non-empty saved id; `Protocol.InitialLoadsSaved` states when it is found |
| Protocol.TelemetryStep | script.js:151-166 | the definition of the telemetry branch of onMqttMessage: updateTelemetry, then the received entry, or the caught fault logged; `Protocol.MessageReachesOwnHandler` and `Protocol.MessageKeepsInv` state its properties |
| Protocol.ConfigDisplayStep | script.js:321-375 | the definition of updateConfigDisplay on the page state: the form overwritten, then the loaded entry; `Protocol.MessageReachesOwnHandler` and `Protocol.InitialLoadsSaved` state its properties |
| Protocol.StatusLogs | script.js:260-276 | the definition of the entries handleStatusUpdate logs; `Protocol.StatusChecksIndependent` states them |
| Protocol.CommandPayload | script.js:279-436 | the definition of what each command sends; `Protocol.CommandPayloads` states it per command |
| Protocol.ErrorStep | script.js:169-172 | the definition of onMqttError; `Protocol.ConnectedFlag` and `Protocol.OnlyCommandsPublish` state that it leaves the flag and the publishes alone |
| Protocol.OfflineStep | script.js:174-178 | the definition of onMqttOffline; `Protocol.ConnectedFlag` states that it is the only event that clears the flag, and `Protocol.OnlyCommandsPublish` that it publishes nothing |
| Protocol.ReconnectStep | script.js:180-182 | the definition of onMqttReconnect; `Protocol.ConnectedFlag` and `Protocol.OnlyCommandsPublish` state that it leaves the flag and the publishes alone |
| Protocol.ConfigFetchStep | script.js:139-141 | the definition of the delayed loadCurrentConfig; `Protocol.CommandGated` states what the fetch it runs does |
| Protocol.FeedResetStep | script.js:264-266 | the definition of the 3 s feed badge reset; `Protocol.EarlierResetClearsLaterFeed` states that any reset clears the badge |
| Protocol.Enabled | script.js:95-99 | the definition of when an event can occur: transport events only once a client exists, timer events only once scheduled; `Protocol.StepKeepsInv` relies on it |
| Protocol.Step | script.js:57-502 | the definition of the page state after each event, dispatching to the handler steps; `Protocol.StepKeepsInv`, `Protocol.ConnectedFlag` and `Protocol.OnlyCommandsPublish` state its properties over every event |
| Protocol.DerivedTopicsIff | script.js:73-80 | the topics match the channel templates for an id exactly when they are the record connect fills in for that id |
| Protocol.InitialInv | script.js:2-21 | the page as loaded, saved settings included, satisfies the invariant: a trimmed non-empty default id, blank topics with no client, not connected, and a log within the cap |
| Protocol.InitialLoadsSaved | script.js:439-451 | the page starts on the default id with blank topics, no client and nothing sent; the log is empty and the form as given unless a configuration is stored for a non-empty saved id, in which case that configuration is shown in the form and one loaded entry is logged |
| Protocol.MessageKeepsInv | script.js:144-167 | a message changes neither the id, the topics nor the clients, and keeps the log within the cap |
| Protocol.ConnectKeepsInv | script.js:57-104 | a connect keeps the id trimmed and non-empty, and keeps the topics derived from it |
| Protocol.ClientKeepsInv | script.js:84-104 | creating the client, or failing to, keeps the invariant once the topics are derived |
| Protocol.BrokerConnectedKeepsInv | script.js:107-142 | the connect event keeps the invariant |
| Protocol.StepKeepsInv | script.js:57-502 | every event keeps the invariant: the log holds at most 30 entries, the topics are blank with no client or derived from the current id, and the page is connected only through a client it created |
| Protocol.RouteExact | script.js:151-159 | for derived topics, an object reaches the telemetry, config or status handler exactly when its topic is that channel's topic |
| Protocol.StatusTopicRoutes | script.js:156-157 | the device's status topic reaches the status handler |
| Protocol.ConnectedFlag | script.js:107-182 | isConnected becomes true only on the transport's connect event and false only on its offline event; every other event leaves it as it was |
| Protocol.PollOnlyRepaints | script.js:498-502 | the 5 s poll changes nothing but the indicator, and repaints it only when a client exists and reports itself disconnected |
| Protocol.ConnectRejectsBlank | script.js:58-64 | a blank id or broker logs the missing-input error and changes nothing else: not the id, the topics, the storage or the clients |
| Protocol.ConnectDerivesTopics | script.js:57-104 | a valid connect takes the trimmed id, derives all eight topics from it alone, stores the id and broker, adds a client unless creating it throws, and leaves the flag and the publishes alone |
| Protocol.ConnectSubscribes | script.js:107-142 | the connect event subscribes exactly the telemetry, configOut and status topics of the device, in that order, schedules one config fetch and publishes nothing |
| Protocol.CommandTopicUnheard | script.js:279-318 | each command's topic is its own channel's topic for the device, and the page does not listen on it |
| Protocol.CommandGated | script.js:279-436 | when disconnected, a command publishes nothing and stores nothing; when connected, it appends exactly one message with its payload, to its own topic of the device, which is none of the topics the page listens on |
| Protocol.CommandPayloads | script.js:279-436 | heater and mist send the caller's token, feed sends "TRIGGER", the config fetch sends "publish_config", and saveConfig sends the encoded form, each to its own topic |
| Protocol.OnlyCommandsPublish | script.js:107-182 | transport events, the poll and the feed reset never publish |
| Protocol.MessageFailuresOnlyLog | script.js:144-167 | a message never publishes and never changes the flag, the id, the topics or the clients; an unparsable body changes only the log; a null body leaves telemetry, form and feeder as they were |
| Protocol.MessageReachesOwnHandler | script.js:144-167 | an object on the telemetry, configOut or status topic leaves the whole state as it was except what its own handler changes: the readings, the form, or the feeder badge and its reset timers, and the log; a null body on one of those topics only logs the fault; any other topic changes nothing |
| Protocol.StatusChecksIndependent | script.js:260-276 | the feed, warning and online checks each log exactly when their own condition holds, so one object can log any combination of them |
| Protocol.FeedEventMarks | script.js:260-267 | a feed event on the status topic marks the feeder and schedules one reset |
| Protocol.EarlierResetClearsLaterFeed | script.js:260-267 | after two feed events, the first reset already shows standby while the second reset is still pending |
| Dashboard.BuildConfig | script.js:384-426 | the object filled key by key is the encoded form |
| Dashboard.Session.constructor | script.js:2-21 | sets the globals' initial values, then runs loadSavedSettings, and ends in the initial state, which satisfies the invariant |
| Dashboard.Session.LoadSavedSettings | script.js:439-451 | ends in the state LoadSettingsStep gives: a configuration stored for the saved id is shown through updateConfigDisplay |
| Dashboard.Session.AddLog | script.js:455-480 | the insert-then-trim loop leaves the new entry first, followed by the old log, cut to 30 |
| Dashboard.Session.DeriveTopics | script.js:73-80 | the eight assignments give the topic record for the id |
| Dashboard.Session.SubscribeInbound | script.js:113-133 | the subscriptions gain the telemetry, configOut and status topics, in that order |
| Dashboard.Session.CreateClient | script.js:82-104 | logs the attempt, then records the new client or logs why creating it threw and paints disconnected |
| Dashboard.Session.ConnectToDevice | script.js:57-104 | ends in the state ConnectStep gives, and keeps the invariant |
| Dashboard.Session.OnMqttConnect | script.js:107-142 | ends in the state BrokerConnectedStep gives, and keeps the invariant |
| Dashboard.Session.HandleStatusUpdate | script.js:260-276 | ends in the state StatusStep gives: the three checks run in order |
| Dashboard.Session.ReceiveTelemetry | script.js:201-242 | ends in the state TelemetryStep gives |
| Dashboard.Session.UpdateConfigDisplay | script.js:321-375 | ends in the state ConfigDisplayStep gives |
| Dashboard.Session.MarkFed | script.js:261-266 | logs the feed, marks the badge and schedules one reset |
| Dashboard.Session.OnMqttMessage | script.js:144-167 | ends in the state MessageStep gives, and keeps the invariant |
| Dashboard.Session.OnMqttError | script.js:169-172 | ends in the state ErrorStep gives: a log entry and the indicator painted disconnected, with the flag untouched |
| Dashboard.Session.OnMqttOffline | script.js:174-178 | ends in the state OfflineStep gives: the flag cleared, the indicator painted, a warning logged |
| Dashboard.Session.OnMqttReconnect | script.js:180-182 | ends in the state ReconnectStep gives: a log entry only |
| Dashboard.Session.OnStatusPoll | script.js:498-502 | ends in the state PollStep gives |
| Dashboard.Session.OnConfigFetchTimer | script.js:139-141 | the scheduled fetch runs loadCurrentConfig and uses up its timer |
| Dashboard.Session.OnFeedResetTimer | script.js:264-266 | a feed reset shows standby and uses up its timer |
| Dashboard.Session.ControlHeater | script.js:279-287 | ends in the state CommandStep gives for the heater command |
| Dashboard.Session.ControlMist | script.js:289-297 | ends in the state CommandStep gives for the mist command |
| Dashboard.Session.TriggerFeed | script.js:299-307 | ends in the state CommandStep gives for the feed trigger |
| Dashboard.Session.LoadCurrentConfig | script.js:310-318 | ends in the state CommandStep gives for the config request |
| Dashboard.Session.SaveConfig | script.js:378-436 | ends in the state CommandStep gives for saveConfig: the encoded form is published to configIn and stored under the device id |

## What script.js does at its edges

The model keeps each of these behaviours of script.js:

- Telemetry readings that are absent or NaN are reset to "--"; they are not kept
  from the previous object (`Codec.TelemetryReadingsReset`).
- A JSON null temp_env or hum_env passes the `isNaN` test, then throws in
  `toFixed`. The handler's catch logs the error, and the cells written before
  the throw keep their new values (`Codec.TelemetryFault`,
  `Codec.TelemetryFaultKeepsRest`).
- A second connect does not end the previous client and does not reset
  isConnected. clients records every client created.
- There is no mode-control topic, no feed_min_interval_hours key, and no
  seconds/ms conversion of the feed duration.
- Each feed event schedules its own reset, so an earlier reset clears a later
  "fed" badge (`Protocol.EarlierResetClearsLaterFeed`).
- Distinct ids do not always give distinct topics: an id containing '/' can
  produce another id's topic (`Topics.SlashedIdsCollide`). Ids without '/'
  never collide (`Topics.TopicsInjective`).

## Left out

- DOM painting is reduced to model fields: the indicator, the reading cells,
  the mode and actuator badges, the feeder badge and the form inputs. The
  markup, CSS classes, colours, tab switching (`initializeTabs`) and
  `updateLastUpdateTime` with its clock are not modelled.
- The mqtt.js client is not modelled. That covers the wss URL, the random
  clientId, the reconnect period, the QoS options and the subscribe callbacks,
  which only write to the console. A created client is recorded by its
  broker, and subscribe and publish calls are recorded in order. Whether
  creating a client throws is an input of `Connect`. Transport events are
  enabled only once a client exists, because connect attaches the handlers to
  each client it creates and to nothing else.
- `console` output is not modelled, and neither is the `window.mqttDebug`
  helpers' debug tooling.
- Page load is modelled by the constructor: the globals' initial values, then
  `loadSavedSettings`.
  - The form as the HTML sets it and the stored settings are parameters of the
    constructor.
  - The initial localStorage reads that fill the two connect inputs are not
    modelled: the connect inputs are parameters of `ConnectToDevice`.
  - A stored configuration that `JSON.parse` rejects is not represented: the
    `storage` field holds only configurations that saveConfig wrote, and the
    rejection would only reach the console.
  - The writes to localStorage are modelled as the `storage` field.
- JSON text, `JSON.parse`, `JSON.stringify`, `parseFloat`, `parseInt` and
  `toFixed` formatting are not modelled.
  - Inbound bodies arrive classified: unparsable, null, or the keys each
    handler reads.
  - Each reading arrives classified by how the script's checks see it.
  - Form inputs arrive as parsed optional numbers and raw text.
  - Numbers are unbounded reals and integers, so floating-point rounding of
    `minutes * 60` and of `s / 60` is not modelled.
- Codec.ConfigRecord: a configuration echo's values are taken to be of the
  types saveConfig sends (numbers for the numeric keys, text for
  feed_times_csv and mode). A null or mistyped value, which updateConfigDisplay
  would write into its input as it is (a null blanking the input, 2.5 in an
  integer input, a null interval shown as 0 min), is not represented.
- The truthiness of `data.mode` and `data.warning` is modelled on strings
  only: a non-string mode or warning is not represented. `heater_on` and
  `mist_on` carry only their truthiness.
- The timers' real time is not modelled. `setTimeout` and `setInterval` become
  explicit events, which may only fire after their timer was set (pending
  counters). The 5 s poll is an event that carries the client's `connected`
  property.
- The time stamp addLog puts on each entry (`toLocaleTimeString` of the
  clock) is not modelled: a log entry holds only its kind and its message.
- Events are not interleaved concurrently: each handler runs to completion, as
  the browser's event loop does.
- Dashboard.Session.MarkFed, Dashboard.Session.Send, Dashboard.Session.AddLogs,
  Dashboard.Session.MarkConnected, Dashboard.Session.Subscribe and the `Put*`
  section helpers of saveConfig are groupings of consecutive statements of
  their handler. Their contracts state only the fields they change.
