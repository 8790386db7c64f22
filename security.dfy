/**
 * modules/security.py: SecuritySystem's pin table, authentication and token
 * check, the intrusion rule and the shape of the health report.
 *
 * GPIO, jwt.decode, password hashing, verify_credentials, generate_token,
 * check_all_sensors, trigger_alarm and notify_authorities are outside the
 * core. Their answers during one call are parameters; every call the class
 * makes to them is appended to the ghost `trace`.
 */
module Security {
  import opened Wrappers
  import opened Traces
  import Dict

  /** The claims jwt.decode returns. */
  type Claims = map<string, string>

  /** jwt.decode(token, JWT_SECRET, algorithms=['HS256']); None when it raises. */
  type JwtDecoder = (string, Option<string>) -> Option<Claims>

  /**
   * hash_password, verify_credentials and generate_token. verify_credentials
   * gives None for every falsy result, so `if user:` is `Some?`.
   */
  datatype Authenticator = Authenticator(
    hashPassword: string -> string,
    verifyCredentials: (string, string) -> Option<string>,
    generateToken: string -> string)

  /** Calls into code outside the core. `Setup(p)` is GPIO.setup(p, GPIO.IN, pull_up_down=GPIO.PUD_UP). */
  datatype Event =
    | SetMode
    | Setup(pin: int)
    | HashPassword(password: string)
    | Decode(token: string)
    | VerifyCredentials(username: string, hashed: string)
    | GenerateToken(user: string)
    | CheckAllSensors
    | TriggerAlarm
    | NotifyAuthorities

  /** The secure_pins dict, in insertion order. */
  const SecurePinTable: seq<(string, int)> := [
    ("motion", 17), ("door", 18), ("window", 19), ("siren", 20), ("backup_power", 21)
  ]

  function SetupOf(pin: int): Event { Setup(pin) }

  /** The GPIO.setup calls of the loop over `secure_pins.values()`. */
  function SetupEvents(pins: seq<(string, int)>): seq<Event> {
    MapSeq(Dict.Values(pins), SetupOf)
  }

  /** ---- authenticate_user ---- */

  /** What authenticate_user returns: a token for a verified user, otherwise None. */
  function Authenticate(a: Authenticator, username: string, password: string): Option<string> {
    match a.verifyCredentials(username, a.hashPassword(password))
    case Some(user) => Some(a.generateToken(user))
    case None => None
  }

  function AuthEvents(a: Authenticator, username: string, password: string): seq<Event> {
    var hashed := a.hashPassword(password);
    [HashPassword(password), VerifyCredentials(username, hashed)]
      + match a.verifyCredentials(username, hashed)
        case Some(user) => [GenerateToken(user)]
        case None => []
  }

  /** ---- intrusion_detection ---- */

  /** `any(sensor_states.values())`, each value given by its truthiness. */
  predicate AnyActive(states: map<string, bool>) {
    exists k :: k in states && states[k]
  }

  function IntrusionEvents(states: map<string, bool>): seq<Event> {
    [CheckAllSensors] + (if AnyActive(states) then [TriggerAlarm, NotifyAuthorities] else [])
  }

  predicate IsAlarm(e: Event) { e.TriggerAlarm? }
  predicate IsNotification(e: Event) { e.NotifyAuthorities? }

  /** ---- monitor_system_health ---- */

  /** The dict monitor_system_health builds from the four readings it takes. */
  function MonitorSystemHealth<V>(cpuTemp: V, voltage: V, backupPower: V, sensorStatus: V): (r: map<string, V>)
    ensures r.Keys == {"cpu_temp", "voltage", "backup_power", "sensor_status"}
    ensures r["cpu_temp"] == cpuTemp && r["voltage"] == voltage
    ensures r["backup_power"] == backupPower && r["sensor_status"] == sensorStatus
  {
    map["cpu_temp" := cpuTemp, "voltage" := voltage, "backup_power" := backupPower, "sensor_status" := sensorStatus]
  }

  class SecuritySystem {
    var sessionTokens: map<string, string>
    var securePins: seq<(string, int)>
    ghost var trace: seq<Event>

    /** __init__: no session yet, then initialize_security_hardware. */
    constructor ()
      ensures sessionTokens == map[] && securePins == SecurePinTable
      ensures trace == [SetMode] + SetupEvents(SecurePinTable)
    {
      sessionTokens := map[];
      securePins := [];
      trace := [];
      new;
      InitializeSecurityHardware();
    }

    method InitializeSecurityHardware()
      modifies this`securePins, this`trace
      ensures securePins == SecurePinTable
      ensures trace == old(trace) + [SetMode] + SetupEvents(SecurePinTable)
    {
      trace := trace + [SetMode];
      securePins := SecurePinTable;
      var pins := Dict.Values(securePins);
      var i := 0;
      while i < |pins|
        invariant 0 <= i <= |pins|
        invariant securePins == SecurePinTable
        invariant trace == old(trace) + [SetMode] + MapSeq(pins[..i], SetupOf)
      {
        assert pins[..i + 1][..i] == pins[..i];
        trace := trace + [Setup(pins[i])];
        i := i + 1;
      }
      assert pins[..i] == pins;
    }

    method AuthenticateUser(a: Authenticator, username: string, password: string) returns (token: Option<string>)
      modifies this`trace
      ensures token == Authenticate(a, username, password)
      ensures trace == old(trace) + AuthEvents(a, username, password)
    {
      trace := trace + [HashPassword(password)];
      var hashed := a.hashPassword(password);
      trace := trace + [VerifyCredentials(username, hashed)];
      var user := a.verifyCredentials(username, hashed);
      if user.Some? {
        trace := trace + [GenerateToken(user.value)];
        return Some(a.generateToken(user.value));
      }
      return None;
    }

    /** What verify_token returns: decode, then compare with the stored token of the decoded user_id; any exception is False. */
    function TokenAccepted(decode: JwtDecoder, secret: Option<string>, token: string): (ok: bool)
      reads this
      ensures ok ==> exists uid :: uid in sessionTokens && sessionTokens[uid] == token
    {
      match decode(token, secret)
      case None => false
      case Some(claims) =>
        "user_id" in claims && claims["user_id"] in sessionTokens && sessionTokens[claims["user_id"]] == token
    }

    /** verify_token: the one call it makes outside the core is jwt.decode. */
    method VerifyToken(decode: JwtDecoder, secret: Option<string>, token: string) returns (ok: bool)
      modifies this`trace
      ensures ok == TokenAccepted(decode, secret, token)
      ensures trace == old(trace) + [Decode(token)]
    {
      trace := trace + [Decode(token)];
      var claims := decode(token, secret);
      if claims.None? {
        return false;
      }
      var c := claims.value;
      ok := "user_id" in c && c["user_id"] in sessionTokens && sessionTokens[c["user_id"]] == token;
    }

    /** `states` is what check_all_sensors returns. */
    method IntrusionDetection(states: map<string, bool>)
      modifies this`trace
      ensures trace == old(trace) + IntrusionEvents(states)
    {
      trace := trace + [CheckAllSensors];
      if exists k :: k in states && states[k] {
        trace := trace + [TriggerAlarm];
        trace := trace + [NotifyAuthorities];
      }
    }
  }

  /** ---- lemmas ---- */

  /** The five secure pins are 17..21, distinct, and each gets exactly one GPIO.setup call. */
  lemma SecurePinsSpec(i: nat)
    requires i < |SecurePinTable|
    ensures |SecurePinTable| == 5 && Dict.UniqueKeys(SecurePinTable) && Distinct(Dict.Values(SecurePinTable))
    ensures SecurePinTable[i].1 == 17 + i
    ensures multiset(SetupEvents(SecurePinTable))[Setup(SecurePinTable[i].1)] == 1
  {
    assert Dict.Values(SecurePinTable) == [17, 18, 19, 20, 21];
    MapSeqOnce(Dict.Values(SecurePinTable), SetupOf, i);
  }

  /** authenticate_user returns generate_token(user) when the credentials verify, None otherwise;
      generate_token is called only in the first case. */
  lemma AuthenticateSpec(a: Authenticator, username: string, password: string)
    ensures var user := a.verifyCredentials(username, a.hashPassword(password));
            && (user.Some? ==> Authenticate(a, username, password) == Some(a.generateToken(user.value))
                               && GenerateToken(user.value) in AuthEvents(a, username, password))
            && (user.None? ==> Authenticate(a, username, password) == None
                               && forall e :: e in AuthEvents(a, username, password) ==> !e.GenerateToken?)
  {
  }

  /** verify_token is True exactly when decoding succeeds and session_tokens[user_id] is the token. */
  lemma VerifyTokenSpec(s: SecuritySystem, decode: JwtDecoder, secret: Option<string>, token: string)
    ensures s.TokenAccepted(decode, secret, token) <==>
              && decode(token, secret).Some?
              && "user_id" in decode(token, secret).value
              && decode(token, secret).value["user_id"] in s.sessionTokens
              && s.sessionTokens[decode(token, secret).value["user_id"]] == token
    ensures decode(token, secret).None? || s.sessionTokens == map[] ==> !s.TokenAccepted(decode, secret, token)
  {
  }

  /** intrusion_detection calls trigger_alarm and then notify_authorities, once each, exactly when a sensor is active. */
  lemma IntrusionSpec(states: map<string, bool>)
    ensures Count(IntrusionEvents(states), IsAlarm) == (if AnyActive(states) then 1 else 0)
    ensures Count(IntrusionEvents(states), IsNotification) == (if AnyActive(states) then 1 else 0)
    ensures AnyActive(states) ==> IntrusionEvents(states)[1] == TriggerAlarm && IntrusionEvents(states)[2] == NotifyAuthorities
  {
    var t := IntrusionEvents(states);
    if AnyActive(states) {
      var one, two := [CheckAllSensors], [CheckAllSensors, TriggerAlarm];
      assert one[..0] == [] && two[..1] == one && t[..2] == two;
      assert Count(one, IsAlarm) == 0 && Count(one, IsNotification) == 0;
      assert Count(two, IsAlarm) == 1 && Count(two, IsNotification) == 0;
    } else {
      assert t[..0] == [];
    }
  }

  /** With no sensor, or every state falsy, neither the alarm nor the authorities are called. */
  lemma QuietSensorsNoAlarm(states: map<string, bool>)
    requires forall k :: k in states ==> !states[k]
    ensures IntrusionEvents(states) == [CheckAllSensors]
  {
  }
}
