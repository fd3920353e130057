/**
 * The payload side of the dashboard: how a telemetry object changes what the
 * page shows (updateTelemetry, script.js:201-242), how a configuration echo
 * fills the settings form (updateConfigDisplay, script.js:321-375), how the
 * form is encoded for the device (saveConfig, script.js:384-426), and the
 * fields of a status object (handleStatusUpdate, script.js:260-276).
 *
 * A parsed JSON object is given by the fields each handler reads, already
 * classified the way the handler's checks see them; JSON text itself, number
 * parsing and number formatting are outside the model.
 */
module Codec {
  import opened Wrappers

  // ---------------------------------------------------------------- telemetry

  /**
   * One reading key of a telemetry object, as the checks
   * `!== undefined`, `!== null` and `!isNaN(...)` and the call `.toFixed(1)` see it.
   */
  datatype Reading =
    | Undefined          // the key is absent
    | Null               // JSON null: isNaN(null) is false, and null has no toFixed
    | Number(value: real)
    | NotNumeric         // isNaN holds: a non-numeric string, an object
    | Coercible          // isNaN fails but the value is no number (true, "21.5"): no toFixed

  /** The keys updateTelemetry reads. mode is None when absent; heater_on and mist_on carry the truthiness of a present value. */
  datatype TelemetryFields = TelemetryFields(
    temp_env: Reading, hum_env: Reading, temp_sub: Reading,
    mode: Option<string>, heater_on: Option<bool>, mist_on: Option<bool>)

  datatype OpMode = Auto | Manual

  /** What the telemetry panel shows; None is the "--" placeholder (or no badge yet). */
  datatype TelemetryView = TelemetryView(
    tempEnv: Option<real>, humEnv: Option<real>, tempSub: Option<real>,
    mode: Option<OpMode>, heaterOn: Option<bool>, mistOn: Option<bool>)

  const NoTelemetry := TelemetryView(None, None, None, None, None, None)

  /** The outcome of formatting one reading: a value or "--", or a TypeError. */
  datatype Shown = Show(value: Option<real>) | Throws

  /**
   * One reading cell. Absent and NaN readings show "--"; null does too for
   * temp_sub only, which alone is tested against null.
   */
  function ShowReading(r: Reading, nullIsUnknown: bool): (s: Shown)
    ensures s.Show? && s.value.Some? <==> r.Number?
    ensures s.Show? && s.value.Some? ==> s.value.value == r.value
    ensures s.Throws? <==> r.Coercible? || (r.Null? && !nullIsUnknown)
  {
    match r
    case Undefined => Show(None)
    case NotNumeric => Show(None)
    case Number(v) => Show(Some(v))
    case Null => if nullIsUnknown then Show(None) else Throws
    case Coercible => Throws
  }

  /** The view after a telemetry object, and the key whose formatting threw, if any. */
  datatype TelemetryOutcome = TelemetryOutcome(view: TelemetryView, fault: Option<string>)

  /** The badge text choice: "AUTO" is automatic, any other non-empty mode manual. */
  function ModeShown(shown: Option<OpMode>, mode: Option<string>): Option<OpMode>
  {
    match mode
    case None => shown
    case Some(m) => if m == "" then shown else if m == "AUTO" then Some(Auto) else Some(Manual)
  }

  function Overwrite<T>(shown: Option<T>, sent: Option<T>): Option<T>
  {
    if sent.Some? then sent else shown
  }

  /**
   * updateTelemetry: the three readings are written in order, each either to
   * its value or to "--"; a reading that cannot be formatted throws, which
   * leaves the cells after it (and the mode and actuator badges) as they were.
   */
  function UpdateTelemetry(v: TelemetryView, t: TelemetryFields): TelemetryOutcome
  {
    match ShowReading(t.temp_env, false)
    case Throws => TelemetryOutcome(v, Some("temp_env"))
    case Show(a) =>
      var v1 := v.(tempEnv := a);
      match ShowReading(t.hum_env, false)
      case Throws => TelemetryOutcome(v1, Some("hum_env"))
      case Show(b) =>
        var v2 := v1.(humEnv := b);
        match ShowReading(t.temp_sub, true)
        case Throws => TelemetryOutcome(v2, Some("temp_sub"))
        case Show(c) =>
          TelemetryOutcome(v2.(tempSub := c,
                                mode := ModeShown(v.mode, t.mode),
                                heaterOn := Overwrite(v.heaterOn, t.heater_on),
                                mistOn := Overwrite(v.mistOn, t.mist_on)), None)
  }

  /** The object can be shown without a TypeError. */
  predicate Formattable(t: TelemetryFields)
  {
    !ShowReading(t.temp_env, false).Throws?
    && !ShowReading(t.hum_env, false).Throws?
    && !ShowReading(t.temp_sub, true).Throws?
  }

  /** A fault is reported exactly when a reading cannot be formatted, and it names the first such key. */
  lemma TelemetryFault(v: TelemetryView, t: TelemetryFields)
    ensures var r := UpdateTelemetry(v, t);
      && (r.fault.None? <==> Formattable(t))
      && (r.fault == Some("temp_env") <==> t.temp_env.Coercible? || t.temp_env.Null?)
      && (r.fault == Some("hum_env") <==>
            ShowReading(t.temp_env, false).Show? && (t.hum_env.Coercible? || t.hum_env.Null?))
      && (r.fault == Some("temp_sub") <==>
            ShowReading(t.temp_env, false).Show? && ShowReading(t.hum_env, false).Show?
            && t.temp_sub.Coercible?)
  {
  }

  /** A fault leaves the faulting cell and everything after it as it was. */
  lemma TelemetryFaultKeepsRest(v: TelemetryView, t: TelemetryFields)
    ensures var r := UpdateTelemetry(v, t);
      && (r.fault == Some("temp_env") ==> r.view == v)
      && (r.fault == Some("hum_env") ==> r.view == v.(tempEnv := r.view.tempEnv))
      && (r.fault == Some("temp_sub") ==> r.view == v.(tempEnv := r.view.tempEnv, humEnv := r.view.humEnv))
  {
  }

  /**
   * A readable object resets every reading it does not carry as a number to
   * "--": the readings shown afterwards depend on the object alone.
   */
  lemma TelemetryReadingsReset(v: TelemetryView, t: TelemetryFields)
    requires Formattable(t)
    ensures var r := UpdateTelemetry(v, t).view;
      && (r.tempEnv.Some? <==> t.temp_env.Number?)
      && (r.humEnv.Some? <==> t.hum_env.Number?)
      && (r.tempSub.Some? <==> t.temp_sub.Number?)
      && (r.tempEnv.Some? ==> r.tempEnv.value == t.temp_env.value)
      && (r.humEnv.Some? ==> r.humEnv.value == t.hum_env.value)
      && (r.tempSub.Some? ==> r.tempSub.value == t.temp_sub.value)
  {
  }

  /** The mode and actuator badges change only when the object carries them. */
  lemma TelemetryBadgesMerge(v: TelemetryView, t: TelemetryFields)
    ensures var r := UpdateTelemetry(v, t);
      && (t.mode.None? || t.mode == Some("") || r.fault.Some? ==> r.view.mode == v.mode)
      && (t.mode == Some("AUTO") && r.fault.None? ==> r.view.mode == Some(Auto))
      && (t.mode.Some? && t.mode.value !in {"", "AUTO"} && r.fault.None? ==> r.view.mode == Some(Manual))
      && (t.heater_on.None? || r.fault.Some? ==> r.view.heaterOn == v.heaterOn)
      && (t.heater_on.Some? && r.fault.None? ==> r.view.heaterOn == t.heater_on)
      && (t.mist_on.None? || r.fault.Some? ==> r.view.mistOn == v.mistOn)
      && (t.mist_on.Some? && r.fault.None? ==> r.view.mistOn == t.mist_on)
  {
  }

  /** Showing the same object twice shows what showing it once does. */
  lemma TelemetryIdempotent(v: TelemetryView, t: TelemetryFields)
    ensures UpdateTelemetry(UpdateTelemetry(v, t).view, t) == UpdateTelemetry(v, t)
  {
  }

  // ------------------------------------------------------------ configuration

  /**
   * A configuration object as saveConfig writes it and as the device echoes
   * it, keyed by its wire names; None is an absent key.
   */
  datatype ConfigRecord = ConfigRecord(
    T_heat_on: Option<real>, T_heat_off: Option<real>, heater_max_temp: Option<real>,
    ntc_low_temp_threshold: Option<real>, ntc_heat_on_minutes: Option<int>,
    H_mist_on: Option<real>, H_mist_off: Option<real>,
    mist_max_on_seconds: Option<int>, mist_min_off_seconds: Option<int>,
    feed_interval_seconds: Option<int>, feed_duration_ms: Option<int>, feed_times_csv: Option<string>,
    upload_interval_seconds: Option<int>, mode: Option<string>)

  const EmptyConfig := ConfigRecord(None, None, None, None, None, None, None, None, None,
                                    None, None, None, None, None)

  /**
   * The settings form, one field per input: the numeric inputs as parseFloat
   * or parseInt reads them (None is NaN), the two text inputs as their text.
   * feedInterval and uploadInterval are in minutes.
   */
  datatype ConfigForm = ConfigForm(
    tHeatOn: Option<real>, tHeatOff: Option<real>, heaterMaxTemp: Option<real>,
    ntcLowTemp: Option<real>, ntcHeatMinutes: Option<int>,
    hMistOn: Option<real>, hMistOff: Option<real>, mistMaxOn: Option<int>, mistMinOff: Option<int>,
    feedInterval: Option<int>, feedDuration: Option<int>, feedTimes: string,
    uploadInterval: Option<int>, mode: string)

  /** Math.round: the nearest integer, halves rounded up. */
  function JsRound(x: real): (n: int)
    ensures n as real - 0.5 <= x < n as real + 0.5
  {
    (x + 0.5).Floor
  }

  /** `Math.round(s / 60)`: seconds shown as whole minutes, to the nearest minute. */
  function RoundMinutes(s: int): (m: int)
    ensures m * 60 - 30 <= s < m * 60 + 30
  {
    JsRound(s as real / 60.0)
  }

  /** Whole minutes survive being sent as seconds and shown again. */
  lemma MinutesRoundTrip(m: int)
    ensures RoundMinutes(m * 60) == m
  {
  }

  /** An upload interval of 600 s shows as 10 min, and 10 min is sent as 600 s. */
  lemma TenMinutes()
    ensures RoundMinutes(600) == 10 && Scaled(Some(10)) == Some(600)
  {
    MinutesRoundTrip(10);
  }

  /** Minutes from a parseInt input, sent as seconds. */
  function Scaled(minutes: Option<int>): (s: Option<int>)
  {
    if minutes.Some? then Some(minutes.value * 60) else None
  }

  function NonEmpty(text: string): Option<string>
  {
    if text != "" then Some(text) else None
  }

  /** The object saveConfig sends for a form (script.js:384-426). */
  function EncodeConfig(f: ConfigForm): ConfigRecord
  {
    ConfigRecord(
      f.tHeatOn, f.tHeatOff, f.heaterMaxTemp, f.ntcLowTemp, f.ntcHeatMinutes,
      f.hMistOn, f.hMistOff, f.mistMaxOn, f.mistMinOff,
      Scaled(f.feedInterval), f.feedDuration, NonEmpty(f.feedTimes),
      Scaled(f.uploadInterval), NonEmpty(f.mode))
  }

  /**
   * saveConfig sends a key exactly when its input is filled in, the two
   * minute inputs as seconds, and every other value unchanged
   * (feed_duration_ms included: it is not scaled).
   */
  lemma EncodeConfigSpec(f: ConfigForm)
    ensures var c := EncodeConfig(f);
      && (c.T_heat_on.Some? <==> f.tHeatOn.Some?) && (c.T_heat_off.Some? <==> f.tHeatOff.Some?)
      && (c.heater_max_temp.Some? <==> f.heaterMaxTemp.Some?)
      && (c.ntc_low_temp_threshold.Some? <==> f.ntcLowTemp.Some?)
      && (c.ntc_heat_on_minutes.Some? <==> f.ntcHeatMinutes.Some?)
      && (c.H_mist_on.Some? <==> f.hMistOn.Some?) && (c.H_mist_off.Some? <==> f.hMistOff.Some?)
      && (c.mist_max_on_seconds.Some? <==> f.mistMaxOn.Some?)
      && (c.mist_min_off_seconds.Some? <==> f.mistMinOff.Some?)
      && (c.feed_interval_seconds.Some? <==> f.feedInterval.Some?)
      && (c.feed_duration_ms.Some? <==> f.feedDuration.Some?)
      && (c.feed_times_csv.Some? <==> f.feedTimes != "")
      && (c.upload_interval_seconds.Some? <==> f.uploadInterval.Some?)
      && (c.mode.Some? <==> f.mode != "")
      && (c.feed_interval_seconds.Some? ==> c.feed_interval_seconds.value == f.feedInterval.value * 60)
      && (c.upload_interval_seconds.Some? ==> c.upload_interval_seconds.value == f.uploadInterval.value * 60)
      && c.feed_duration_ms == f.feedDuration
      && c.T_heat_on == f.tHeatOn && c.T_heat_off == f.tHeatOff
      && c.heater_max_temp == f.heaterMaxTemp && c.ntc_low_temp_threshold == f.ntcLowTemp
      && c.ntc_heat_on_minutes == f.ntcHeatMinutes
      && c.H_mist_on == f.hMistOn && c.H_mist_off == f.hMistOff
      && c.mist_max_on_seconds == f.mistMaxOn && c.mist_min_off_seconds == f.mistMinOff
      && (c.feed_times_csv.Some? ==> c.feed_times_csv.value == f.feedTimes)
      && (c.mode.Some? ==> c.mode.value == f.mode)
  {
  }

  function TextOverwrite(shown: string, sent: Option<string>): string
  {
    if sent.Some? then sent.value else shown
  }

  /** updateConfigDisplay: every present key overwrites its input, seconds shown as minutes. */
  function DisplayConfig(f: ConfigForm, c: ConfigRecord): ConfigForm
  {
    ConfigForm(
      Overwrite(f.tHeatOn, c.T_heat_on), Overwrite(f.tHeatOff, c.T_heat_off),
      Overwrite(f.heaterMaxTemp, c.heater_max_temp),
      Overwrite(f.ntcLowTemp, c.ntc_low_temp_threshold),
      Overwrite(f.ntcHeatMinutes, c.ntc_heat_on_minutes),
      Overwrite(f.hMistOn, c.H_mist_on), Overwrite(f.hMistOff, c.H_mist_off),
      Overwrite(f.mistMaxOn, c.mist_max_on_seconds), Overwrite(f.mistMinOff, c.mist_min_off_seconds),
      if c.feed_interval_seconds.Some? then Some(RoundMinutes(c.feed_interval_seconds.value)) else f.feedInterval,
      Overwrite(f.feedDuration, c.feed_duration_ms),
      TextOverwrite(f.feedTimes, c.feed_times_csv),
      if c.upload_interval_seconds.Some? then Some(RoundMinutes(c.upload_interval_seconds.value)) else f.uploadInterval,
      TextOverwrite(f.mode, c.mode))
  }

  /** An echo without keys leaves the whole form as it was. */
  lemma DisplayNothing(f: ConfigForm)
    ensures DisplayConfig(f, EmptyConfig) == f
  {
  }

  /** Showing the same echo twice shows what showing it once does. */
  lemma DisplayIdempotent(f: ConfigForm, c: ConfigRecord)
    ensures DisplayConfig(DisplayConfig(f, c), c) == DisplayConfig(f, c)
  {
  }

  /** Each input is overwritten exactly when its key is present, and keeps its value otherwise. */
  lemma DisplayOverwritesPresentOnly(f: ConfigForm, c: ConfigRecord)
    ensures var r := DisplayConfig(f, c);
      && (r.tHeatOn == if c.T_heat_on.Some? then c.T_heat_on else f.tHeatOn)
      && (r.tHeatOff == if c.T_heat_off.Some? then c.T_heat_off else f.tHeatOff)
      && (r.heaterMaxTemp == if c.heater_max_temp.Some? then c.heater_max_temp else f.heaterMaxTemp)
      && (r.ntcLowTemp == if c.ntc_low_temp_threshold.Some? then c.ntc_low_temp_threshold else f.ntcLowTemp)
      && (r.ntcHeatMinutes == if c.ntc_heat_on_minutes.Some? then c.ntc_heat_on_minutes else f.ntcHeatMinutes)
      && (r.hMistOn == if c.H_mist_on.Some? then c.H_mist_on else f.hMistOn)
      && (r.hMistOff == if c.H_mist_off.Some? then c.H_mist_off else f.hMistOff)
      && (r.mistMaxOn == if c.mist_max_on_seconds.Some? then c.mist_max_on_seconds else f.mistMaxOn)
      && (r.mistMinOff == if c.mist_min_off_seconds.Some? then c.mist_min_off_seconds else f.mistMinOff)
      && (r.feedDuration == if c.feed_duration_ms.Some? then c.feed_duration_ms else f.feedDuration)
      && (c.feed_interval_seconds.None? ==> r.feedInterval == f.feedInterval)
      && (c.feed_interval_seconds.Some? ==>
            && r.feedInterval.Some?
            && r.feedInterval.value * 60 - 30 <= c.feed_interval_seconds.value
            && c.feed_interval_seconds.value < r.feedInterval.value * 60 + 30)
      && (c.upload_interval_seconds.None? ==> r.uploadInterval == f.uploadInterval)
      && (c.upload_interval_seconds.Some? ==>
            && r.uploadInterval.Some?
            && r.uploadInterval.value * 60 - 30 <= c.upload_interval_seconds.value
            && c.upload_interval_seconds.value < r.uploadInterval.value * 60 + 30)
      && (r.feedTimes == if c.feed_times_csv.Some? then c.feed_times_csv.value else f.feedTimes)
      && (r.mode == if c.mode.Some? then c.mode.value else f.mode)
  {
  }

  /** The form g with every filled-in input of f written over it. */
  function FormMerge(g: ConfigForm, f: ConfigForm): ConfigForm
  {
    ConfigForm(
      Overwrite(g.tHeatOn, f.tHeatOn), Overwrite(g.tHeatOff, f.tHeatOff),
      Overwrite(g.heaterMaxTemp, f.heaterMaxTemp), Overwrite(g.ntcLowTemp, f.ntcLowTemp),
      Overwrite(g.ntcHeatMinutes, f.ntcHeatMinutes),
      Overwrite(g.hMistOn, f.hMistOn), Overwrite(g.hMistOff, f.hMistOff),
      Overwrite(g.mistMaxOn, f.mistMaxOn), Overwrite(g.mistMinOff, f.mistMinOff),
      Overwrite(g.feedInterval, f.feedInterval), Overwrite(g.feedDuration, f.feedDuration),
      if f.feedTimes != "" then f.feedTimes else g.feedTimes,
      Overwrite(g.uploadInterval, f.uploadInterval),
      if f.mode != "" then f.mode else g.mode)
  }

  /**
   * Save, echo, display: when the device echoes the object saveConfig sent
   * for form f, whatever form g is on screen ends up holding every input f
   * had filled in (the minute inputs included) and its own value elsewhere.
   */
  lemma EchoMerges(g: ConfigForm, f: ConfigForm)
    ensures DisplayConfig(g, EncodeConfig(f)) == FormMerge(g, f)
  {
    if f.feedInterval.Some? {
      MinutesRoundTrip(f.feedInterval.value);
    }
    if f.uploadInterval.Some? {
      MinutesRoundTrip(f.uploadInterval.value);
    }
  }

  /** In particular the form that was saved is a fixed point of the round trip. */
  lemma EchoRestoresForm(f: ConfigForm)
    ensures DisplayConfig(f, EncodeConfig(f)) == f
  {
    EchoMerges(f, f);
  }

  // ------------------------------------------------------------------- status

  /** The keys handleStatusUpdate reads; warning carries a string value when present. */
  datatype StatusFields = StatusFields(event: Option<string>, warning: Option<string>, status: Option<string>)
}
