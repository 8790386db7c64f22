/**
 * mqtt_client.py: the start-up check of the environment, the variant
 * AlertSystem whose distribution swallows every error, and SecurityMonitor.
 *
 * The environment, format_message, the Twilio client, socketio.emit and
 * GPIO are outside the core. Their answers during one call are parameters;
 * every call the classes make to them, and every log line, is appended to
 * the ghost `trace`.
 */
module MqttClient {
  import opened Wrappers
  import opened Traces
  import Dict
  import opened Gpio

  /** os.environ: a name that is not a key is unset. */
  type Env = map<string, string>

  function GetEnv(env: Env, name: string): Option<string> {
    if name in env then Some(env[name]) else None
  }

  /** `not os.getenv(name)`: unset, or set to the empty string. */
  predicate Unset(env: Env, name: string) {
    name !in env || env[name] == ""
  }

  /** ---- validate_env_vars ---- */

  const RequiredVars: seq<string> := ["TWILIO_SID", "TWILIO_TOKEN", "TWILIO_NUMBER", "ALERT_RECIPIENTS"]
  const MissingPrefix: string := "Missing required environment variables: "

  /** `[var for var in vars if not os.getenv(var)]` */
  function Missing(env: Env, vars: seq<string>): seq<string> {
    if vars == [] then []
    else
      var n := |vars| - 1;
      Missing(env, vars[..n]) + (if Unset(env, vars[n]) then [vars[n]] else [])
  }

  /** `sep.join(parts)` */
  function Join(parts: seq<string>, sep: string): string {
    if parts == [] then ""
    else if |parts| == 1 then parts[0]
    else Join(parts[..|parts| - 1], sep) + sep + parts[|parts| - 1]
  }

  /** Nothing, or the EnvironmentError validate_env_vars raises, with its message. */
  function ValidateEnvVars(env: Env): (r: Result<(), string>)
    ensures r.Err? <==> exists v :: v in RequiredVars && Unset(env, v)
    ensures r.Err? ==> MissingPrefix <= r.error
  {
    MissingSpec(env, RequiredVars);
    var missing := Missing(env, RequiredVars);
    if missing == [] then Ok(())
    else
      assert missing[0] in missing;
      Err(MissingPrefix + Join(missing, ", "))
  }

  /** ---- AlertSystem ---- */

  /** The value of data["message"]: a string, or any other JSON value. */
  datatype Payload = Text(s: string) | NonText

  /** How a call outside the core ends: it returns, or raises an exception whose str() is `reason`. */
  datatype Outcome = Done | Raised(reason: string)

  /** format_message, twilio_client.messages.create(body, from_, to) and socketio.emit("alert", ...). */
  datatype Channels = Channels(
    formatMessage: string -> string,
    createSms: (string, Option<string>, Option<string>) -> Outcome,
    emit: string -> Outcome)

  /** Calls into code outside the core, and log lines. */
  datatype Event =
    | FormatMessage(raw: string)
    | CreateSms(body: string, sender: Option<string>, to: Option<string>)
    | Emit(data: string)
    | LogInfo(text: string)
    | LogError(text: string)
    | SetMode
    | GpioInput(pin: int)

  const InvalidMessage: string := "Invalid EAS message provided."

  /** The guard of process_eas_message: a non-empty string. */
  predicate ValidMessage(message: Payload) {
    message.Text? && message.s != ""
  }

  /** What process_eas_message returns, or the ValueError it raises. */
  function ProcessResult(ch: Channels, message: Payload): Result<string, string> {
    if !ValidMessage(message) then Err(InvalidMessage) else Ok(ch.formatMessage(message.s))
  }

  /** The calls of the `try` block of distribute_alert and of its `except` clause. */
  function DistributeEvents(env: Env, ch: Channels, alert: string): seq<Event> {
    var sender := GetEnv(env, "TWILIO_NUMBER");
    var to := GetEnv(env, "ALERT_RECIPIENTS");
    [CreateSms(alert, sender, to)]
      + match ch.createSms(alert, sender, to)
        case Raised(e) => [LogError("Failed to distribute alert: " + e)]
        case Done =>
          [Emit(alert)]
            + match ch.emit(alert)
              case Raised(e) => [LogError("Failed to distribute alert: " + e)]
              case Done => [LogInfo("Alert Distributed: " + alert)]
  }

  function ProcessEvents(env: Env, ch: Channels, message: Payload): seq<Event> {
    if !ValidMessage(message) then []
    else [FormatMessage(message.s)] + DistributeEvents(env, ch, ch.formatMessage(message.s))
  }

  predicate IsLog(e: Event) { e.LogInfo? || e.LogError? }

  class AlertSystem {
    ghost var trace: seq<Event>

    constructor ()
      ensures trace == []
    {
      trace := [];
    }

    method ProcessEasMessage(env: Env, ch: Channels, message: Payload) returns (r: Result<string, string>)
      modifies this`trace
      ensures r == ProcessResult(ch, message)
      ensures trace == old(trace) + ProcessEvents(env, ch, message)
    {
      if message.NonText? || message.s == "" {
        return Err(InvalidMessage);
      }
      trace := trace + [FormatMessage(message.s)];
      var decoded := ch.formatMessage(message.s);
      DistributeAlert(env, ch, decoded);
      return Ok(decoded);
    }

    method DistributeAlert(env: Env, ch: Channels, alert: string)
      modifies this`trace
      ensures trace == old(trace) + DistributeEvents(env, ch, alert)
    {
      var sender := GetEnv(env, "TWILIO_NUMBER");
      var to := GetEnv(env, "ALERT_RECIPIENTS");
      trace := trace + [CreateSms(alert, sender, to)];
      var sms := ch.createSms(alert, sender, to);
      if sms.Raised? {
        trace := trace + [LogError("Failed to distribute alert: " + sms.reason)];
        return;
      }
      trace := trace + [Emit(alert)];
      var pushed := ch.emit(alert);
      if pushed.Raised? {
        trace := trace + [LogError("Failed to distribute alert: " + pushed.reason)];
        return;
      }
      trace := trace + [LogInfo("Alert Distributed: " + alert)];
    }
  }

  /** ---- SecurityMonitor ---- */

  const MonitorPins: seq<(string, int)> := [("motion", 17), ("door", 18), ("window", 19)]

  /** What initialize_sensors returns: the pin table, or {} when GPIO.setmode raises. */
  function InitialSensors(setMode: Outcome): seq<(string, int)> {
    if setMode.Done? then MonitorPins else []
  }

  function InitEvents(setMode: Outcome): seq<Event> {
    [SetMode] + match setMode
                case Done => []
                case Raised(e) => [LogError("Failed to initialize sensors: " + e)]
  }

  /** The dict comprehension of check_status: every pin read in order, or the first exception. */
  function ReadAll(sensors: seq<(string, int)>, input: int -> Result<Bit, string>): Result<map<string, Bit>, string> {
    if sensors == [] then Ok(map[])
    else
      var n := |sensors| - 1;
      match ReadAll(sensors[..n], input)
      case Err(e) => Err(e)
      case Ok(m) =>
        match input(sensors[n].1)
        case Err(e) => Err(e)
        case Ok(b) => Ok(m[sensors[n].0 := b])
  }

  /** The GPIO.input calls the comprehension makes: up to and including the first that raises. */
  function ReadEvents(sensors: seq<(string, int)>, input: int -> Result<Bit, string>): seq<Event> {
    if sensors == [] then []
    else
      var n := |sensors| - 1;
      if ReadAll(sensors[..n], input).Err? then ReadEvents(sensors[..n], input)
      else ReadEvents(sensors[..n], input) + [GpioInput(sensors[n].1)]
  }

  /** What check_status returns. */
  function Status(sensors: seq<(string, int)>, input: int -> Result<Bit, string>): map<string, Bit> {
    match ReadAll(sensors, input)
    case Ok(m) => m
    case Err(_) => map[]
  }

  function StatusEvents(sensors: seq<(string, int)>, input: int -> Result<Bit, string>): seq<Event> {
    ReadEvents(sensors, input)
      + match ReadAll(sensors, input)
        case Ok(_) => []
        case Err(e) => [LogError("Error checking sensor status: " + e)]
  }

  function InputOf(pin: int): Event { GpioInput(pin) }

  class SecurityMonitor {
    var sensors: seq<(string, int)>
    ghost var trace: seq<Event>

    constructor (setMode: Outcome)
      ensures sensors == InitialSensors(setMode) && trace == InitEvents(setMode)
    {
      sensors := [];
      trace := [];
      new;
      var table := InitializeSensors(setMode);
      sensors := table;
    }

    /** `setMode`: how GPIO.setmode(GPIO.BCM) ends. */
    method InitializeSensors(setMode: Outcome) returns (table: seq<(string, int)>)
      modifies this`trace
      ensures table == InitialSensors(setMode)
      ensures trace == old(trace) + InitEvents(setMode)
    {
      trace := trace + [SetMode];
      if setMode.Raised? {
        trace := trace + [LogError("Failed to initialize sensors: " + setMode.reason)];
        return [];
      }
      return MonitorPins;
    }

    method CheckStatus(input: int -> Result<Bit, string>) returns (status: map<string, Bit>)
      modifies this`trace
      ensures status == Status(sensors, input)
      ensures trace == old(trace) + StatusEvents(sensors, input)
    {
      var read: map<string, Bit> := map[];
      var i := 0;
      while i < |sensors|
        invariant 0 <= i <= |sensors|
        invariant ReadAll(sensors[..i], input) == Ok(read)
        invariant trace == old(trace) + ReadEvents(sensors[..i], input)
      {
        assert sensors[..i + 1][..i] == sensors[..i];
        trace := trace + [GpioInput(sensors[i].1)];
        var level := input(sensors[i].1);
        if level.Err? {
          trace := trace + [LogError("Error checking sensor status: " + level.error)];
          ReadAllStopsAtError(sensors, input, i + 1);
          return map[];
        }
        read := read[sensors[i].0 := level.value];
        i := i + 1;
      }
      assert sensors[..i] == sensors;
      return read;
    }
  }

  /** ---- lemmas ---- */

  /** Once a read has raised, the rest of the comprehension reads nothing more and raises the same error. */
  lemma {:induction false} ReadAllStopsAtError(sensors: seq<(string, int)>, input: int -> Result<Bit, string>, k: nat)
    requires k <= |sensors| && ReadAll(sensors[..k], input).Err?
    ensures ReadAll(sensors, input) == ReadAll(sensors[..k], input)
    ensures ReadEvents(sensors, input) == ReadEvents(sensors[..k], input)
    decreases |sensors| - k
  {
    if k < |sensors| {
      var p := sensors[..k + 1];
      assert p[..k] == sensors[..k];
      assert sensors[..k + 1][..k + 1] == p;
      ReadAllStopsAtError(sensors, input, k + 1);
    } else {
      assert sensors[..k] == sensors;
    }
  }

  /** The comprehension keeps exactly the names that are unset or empty. */
  lemma {:induction false} MissingMembers(env: Env, vars: seq<string>)
    ensures forall v :: v in Missing(env, vars) <==> v in vars && Unset(env, v)
  {
    if vars != [] {
      var n := |vars| - 1;
      MissingMembers(env, vars[..n]);
      assert vars == vars[..n] + [vars[n]];
    }
  }

  /** The kept names stay in the order of `vars`. */
  lemma {:induction false} MissingOrder(env: Env, vars: seq<string>)
    ensures IsSubsequence(Missing(env, vars), vars)
  {
    if vars != [] {
      var n := |vars| - 1;
      var front := vars[..n];
      MissingOrder(env, front);
      var m := Missing(env, vars);
      if Unset(env, vars[n]) {
        assert m[..|m| - 1] == Missing(env, front);
      } else if m != [] {
        assert m == Missing(env, front);
        MissingMembers(env, front);
        assert m[|m| - 1] in m;
        assert m[|m| - 1] != vars[n];
      }
    }
  }

  /** The comprehension keeps exactly the unset or empty names, in the order of `vars`. */
  lemma MissingSpec(env: Env, vars: seq<string>)
    ensures forall v :: v in Missing(env, vars) <==> v in vars && Unset(env, v)
    ensures IsSubsequence(Missing(env, vars), vars)
  {
    MissingMembers(env, vars);
    MissingOrder(env, vars);
  }

  /**
   * validate_env_vars raises exactly when one of TWILIO_SID, TWILIO_TOKEN, TWILIO_NUMBER and
   * ALERT_RECIPIENTS is unset or empty; the message lists those names, in declaration order.
   */
  lemma ValidateEnvVarsSpec(env: Env)
    ensures ValidateEnvVars(env).Err? <==> exists v :: v in RequiredVars && Unset(env, v)
    ensures ValidateEnvVars(env).Err? ==>
              ValidateEnvVars(env).error == MissingPrefix + Join(Missing(env, RequiredVars), ", ")
    ensures forall v :: v in Missing(env, RequiredVars) <==> v in RequiredVars && Unset(env, v)
    ensures IsSubsequence(Missing(env, RequiredVars), RequiredVars)
  {
    MissingSpec(env, RequiredVars);
    if Missing(env, RequiredVars) != [] {
      assert Missing(env, RequiredVars)[0] in Missing(env, RequiredVars);
    }
  }

  /** An empty or non-string message raises "Invalid EAS message provided." before format_message or any channel runs. */
  lemma InvalidMessageRejected(env: Env, ch: Channels, message: Payload)
    ensures ProcessResult(ch, message).Err? <==> !ValidMessage(message)
    ensures !ValidMessage(message) ==> ProcessResult(ch, message) == Err(InvalidMessage) && ProcessEvents(env, ch, message) == []
  {
  }

  predicate IsSmsCreate(e: Event) { e.CreateSms? }
  predicate IsFormat(e: Event) { e.FormatMessage? }

  /** A valid message is formatted once, distribute_alert sends that decoded text once, and it is returned. */
  lemma ValidMessageDistributedOnce(env: Env, ch: Channels, message: Payload)
    requires ValidMessage(message)
    ensures var decoded := ch.formatMessage(message.s);
            var t := ProcessEvents(env, ch, message);
            && ProcessResult(ch, message) == Ok(decoded)
            && t[0] == FormatMessage(message.s)
            && t[1] == CreateSms(decoded, GetEnv(env, "TWILIO_NUMBER"), GetEnv(env, "ALERT_RECIPIENTS"))
            && Count(t, IsSmsCreate) == 1
            && Count(t, IsFormat) == 1
  {
    var decoded := ch.formatMessage(message.s);
    var t := ProcessEvents(env, ch, message);
    var d := DistributeEvents(env, ch, decoded);
    var head := [FormatMessage(message.s), d[0]];
    assert t == head + d[1..];
    CountAppend(head, d[1..], IsSmsCreate);
    CountAppend(head, d[1..], IsFormat);
    assert head[..1][..0] == [] && head[..1] == [FormatMessage(message.s)];
    CountZero(d[1..], IsSmsCreate);
    CountZero(d[1..], IsFormat);
  }

  /** distribute_alert never raises: the outcome of process_eas_message does not depend on the channels. */
  lemma ChannelFailuresDoNotPropagate(ch1: Channels, ch2: Channels, message: Payload)
    requires ch1.formatMessage == ch2.formatMessage
    ensures ProcessResult(ch1, message) == ProcessResult(ch2, message)
  {
  }

  /**
   * The channels run in the order SMS, websocket, info log, inside one `try`: the push is attempted
   * only after the SMS succeeded, the success line is logged only when both succeeded, and every
   * call ends with exactly one log line, the last one.
   */
  lemma DistributeChannelOrder(env: Env, ch: Channels, alert: string)
    ensures var sender := GetEnv(env, "TWILIO_NUMBER");
            var to := GetEnv(env, "ALERT_RECIPIENTS");
            var t := DistributeEvents(env, ch, alert);
            && t[0] == CreateSms(alert, sender, to)
            && (Emit(alert) in t <==> ch.createSms(alert, sender, to).Done?)
            && (LogInfo("Alert Distributed: " + alert) in t <==> ch.createSms(alert, sender, to).Done? && ch.emit(alert).Done?)
            && IsLog(t[|t| - 1]) && (forall i :: 0 <= i < |t| - 1 ==> !IsLog(t[i]))
            && (ch.createSms(alert, sender, to).Raised? ==>
                  t == [CreateSms(alert, sender, to), LogError("Failed to distribute alert: " + ch.createSms(alert, sender, to).reason)])
            && (ch.createSms(alert, sender, to).Done? && ch.emit(alert).Raised? ==>
                  t == [CreateSms(alert, sender, to), Emit(alert), LogError("Failed to distribute alert: " + ch.emit(alert).reason)])
            && (ch.createSms(alert, sender, to).Done? && ch.emit(alert).Done? ==>
                  t == [CreateSms(alert, sender, to), Emit(alert), LogInfo("Alert Distributed: " + alert)])
  {
  }

  /** initialize_sensors returns {motion: 17, door: 18, window: 19}, or {} when GPIO.setmode raises. */
  lemma InitialSensorsSpec(setMode: Outcome)
    ensures setMode.Done? ==> Dict.UniqueKeys(InitialSensors(setMode))
                              && Dict.ToMap(InitialSensors(setMode)) == map["motion" := 17, "door" := 18, "window" := 19]
    ensures setMode.Raised? ==> InitialSensors(setMode) == [] && LogError("Failed to initialize sensors: " + setMode.reason) in InitEvents(setMode)
  {
    if setMode.Done? {
      var m := Dict.ToMap(MonitorPins);
      assert Dict.Keys(MonitorPins) == ["motion", "door", "window"];
      assert m.Keys == {"motion", "door", "window"};
    }
  }

  /** The comprehension succeeds exactly when every read does, and then maps each name to the level of its pin. */
  lemma {:induction false} ReadAllSpec(sensors: seq<(string, int)>, input: int -> Result<Bit, string>)
    requires Dict.UniqueKeys(sensors)
    ensures ReadAll(sensors, input).Ok? <==> forall i :: 0 <= i < |sensors| ==> input(sensors[i].1).Ok?
    ensures ReadAll(sensors, input).Ok? ==>
              && (forall k :: k in ReadAll(sensors, input).value <==> k in Dict.Keys(sensors))
              && (forall i :: 0 <= i < |sensors| ==> ReadAll(sensors, input).value[sensors[i].0] == input(sensors[i].1).value)
  {
    if sensors != [] {
      var n := |sensors| - 1;
      var front := sensors[..n];
      var keys := Dict.Keys(sensors);
      assert Dict.Keys(front) == keys[..n];
      assert keys == Dict.Keys(front) + [sensors[n].0];
      ReadAllSpec(front, input);
      forall i | 0 <= i < n ensures front[i] == sensors[i] && sensors[i].0 != sensors[n].0 {
        assert keys[i] != keys[n];
      }
    }
  }

  /**
   * check_status maps exactly the names of the sensor table to the levels of their pins, or
   * returns {} when any read raises.
   */
  lemma CheckStatusSpec(sensors: seq<(string, int)>, input: int -> Result<Bit, string>)
    requires Dict.UniqueKeys(sensors)
    ensures (forall i :: 0 <= i < |sensors| ==> input(sensors[i].1).Ok?) ==>
              && (forall k :: k in Status(sensors, input) <==> k in Dict.Keys(sensors))
              && (forall i :: 0 <= i < |sensors| ==> Status(sensors, input)[sensors[i].0] == input(sensors[i].1).value)
    ensures (exists i :: 0 <= i < |sensors| && input(sensors[i].1).Err?) ==>
              Status(sensors, input) == map[] && StatusEvents(sensors, input)[|StatusEvents(sensors, input)| - 1].LogError?
  {
    ReadAllSpec(sensors, input);
  }

  /** When no read raises, check_status reads every pin of the table once, in table order. */
  lemma {:induction false} ReadsInOrder(sensors: seq<(string, int)>, input: int -> Result<Bit, string>)
    requires ReadAll(sensors, input).Ok?
    ensures ReadEvents(sensors, input) == MapSeq(Dict.Values(sensors), InputOf)
  {
    if sensors != [] {
      var n := |sensors| - 1;
      ReadsInOrder(sensors[..n], input);
      assert Dict.Values(sensors)[..n] == Dict.Values(sensors[..n]);
    }
  }
}
