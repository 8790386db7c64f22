# PiSAFE alert and security core, modelled in Dafny

PiSAFE is a Raspberry Pi emergency-alert and security controller. This project models the decision
logic underneath its Flask, GPIO, Twilio and Fernet plumbing, and proves properties of that model:

- `Sensors` (modules/sensors.py): the seven-sensor table, `read_sensor`, the threshold policy
  `check_threshold`, and one pass of the `continuous_monitoring` loop, which overwrites
  `sensor_data[name]` for every sensor.
- `Alerts` (modules/alerts.py): `process_eas_message` (decode, encrypt, validate, distribute, log),
  `validate_alert`, the recipient loop of `distribute_alert`, the siren loop of `trigger_sirens`,
  and `encrypt_message` / `decrypt_message` over an abstract cipher.
- `MqttClient` (mqtt_client.py): `validate_env_vars`, the variant `AlertSystem` whose
  `distribute_alert` catches every error in one `try`, and `SecurityMonitor`
  (`initialize_sensors`, `check_status`).
- `Security` (modules/security.py): the secure pin table, `authenticate_user`, `verify_token` over
  `session_tokens`, `intrusion_detection` and the shape of `monitor_system_health`.
- Helpers: `Wrappers` (Option, Result), `Gpio` (the pin and logic-level types), `Traces` (counting and projecting event sequences),
  `Dict` (a Python dict as an insertion-ordered sequence of pairs with unique keys).

Every library call, hardware access and helper that the repository never defines is an abstract
collaborator, passed as a parameter that stands for the world as it answers during that one call.
Most are records of functions (`Hardware`, `Helpers`, `Channels`, `Authenticator`, `Cipher`). A few
are plain values or single functions: the clock of a tick, the health value and the timestamp of
`get_sensor_status`, the sensor states of `intrusion_detection`, the JWT decoder. Each class keeps a
ghost `trace` of the calls its methods make to collaborators with an effect, or whose order the code
fixes. Every such method states its new trace as the old trace followed by a specification function
of its inputs (`TickEvents`, `ProcessEvents`, `DistributeEvents`, ...). The lemmas then prove
ordering and counting properties about those functions. `verify_token` records its `jwt.decode`
call.

Some reads appear in no trace, only as parameters:
- `load_thresholds()` in the sensor system's `__init__` (modules/sensors.py:12);
- the per-sensor `datetime.now()` of a tick (modules/sensors.py:40);
- `check_system_health()` and `datetime.now()` in `get_sensor_status` (modules/sensors.py:62-63);
- the four readers of `monitor_system_health` (modules/security.py:46-49).

`Sensors.SensorSystem.GetSensorStatus` and `Security.MonitorSystemHealth` are functions over these
answers and record nothing. A raised exception whose
message the code uses is a `Result.Err` or an `Outcome.Raised` carrying that message. Where only
the fact of failure matters, it is `Option.None`. This applies to `Fernet.decrypt` and `json.loads` in
`Alerts.Cipher`, and so to the result of `decrypt_message`, and to `jwt.decode` in
`Security.JwtDecoder`. Those `None`s stand for the exception, not for a Python `None` value.
Readings are `real`, and each missing threshold bound
(`float('inf')` in the source) is `None`.

## Behaviour as written

The model follows the code where it departs from the intended design of the system:

- Alerting is level-triggered. `check_threshold` never looks at the previous status, so a sensor that
  stays out of range calls `trigger_alert` on every tick (`Sensors.LevelTriggered`).
- Sirens run once per recipient, not once per area. `trigger_sirens(area)` sits inside the recipient
  loop. With n recipients every siren fires n times, and with no recipient no siren fires
  (`Alerts.DistributeCounts`).
- Encryption happens before validation. A rejected alert is never distributed or logged, but it has
  already been encrypted (`Alerts.RejectedHasNoDelivery`, `Alerts.AcceptedPipeline`).
- In mqtt_client.py the channels are not isolated from each other. A failed SMS skips the websocket
  push and the success log line (`MqttClient.DistributeChannelOrder`).
- There is no bounded duplicate window. `is_duplicate` is an abstract predicate, and nothing shown
  writes to `alert_history` after `__init__`.

## Model

| member | source | states |
|---|---|---|
| `Sensors.SensorSystem.constructor` | modules/sensors.py:9-13 | the sensor table is the one initialize_sensors builds, sensor_data starts empty, the thresholds are the loaded ones, and the GPIO calls are setmode followed by one setup per sensor |
| `Sensors.SensorSystem.InitializeSensors` | modules/sensors.py:15-29 | returns the seven-sensor table after GPIO.setmode and one GPIO.setup per sensor, in table order |
| `Sensors.SensorTableShape` | modules/sensors.py:17-25 | seven sensors with unique names on distinct pins 17..23; temperature and humidity are analog, all others digital |
| `Sensors.SetupOncePerSensor` | modules/sensors.py:27-28 | GPIO.setup is called exactly once on the pin of each sensor |
| `Sensors.SensorSystem.ReadSensor` | modules/sensors.py:45-49 | returns the reading of the sensor and records exactly the one hardware call it makes |
| `Sensors.ReadSensorDispatch` | modules/sensors.py:45-49 | kind 'digital' reads GPIO.input(pin); every other kind reads read_analog_sensor(pin) |
| `Sensors.SensorSystem.CheckThreshold` | modules/sensors.py:51-57 | returns the threshold status and calls trigger_alert(name, value) only on ALERT |
| `Sensors.ClassifyNormalIffWithinBounds` | modules/sensors.py:51-57 | NORMAL exactly when the value lies inside every present bound; ALERT exactly when above max or below min |
| `Sensors.UnboundedSensorIsNormal` | modules/sensors.py:52-54 | a sensor with no threshold entry, or with neither key, is always NORMAL and triggers nothing |
| `Sensors.BoundsAreInclusive` | modules/sensors.py:53-54 | a value equal to max is NORMAL when the min, if any, is at most the value; symmetrically for min (the comparisons are strict) |
| `Sensors.TriggerExactlyOnAlert` | modules/sensors.py:55-57 | trigger_alert(name, value) is called once on ALERT and never on NORMAL |
| `Sensors.SensorSystem.MonitorTick` | modules/sensors.py:36-42 | after one tick every sensor of the table has the record holding its reading, its clock reading and its status; all other keys of sensor_data are unchanged; the calls are those of TickEvents; the sensor table keeps its unique names, so ticks chain |
| `Sensors.TickUpdatesSpec` | modules/sensors.py:36-42 | the entries one tick writes have exactly the table's names as keys, each with the record of that sensor's reading |
| `Sensors.TickState` | modules/sensors.py:36-42 | whatever sensor_data held before, a tick leaves every table sensor's new record and every other key untouched |
| `Sensors.TickAlertCount` | modules/sensors.py:36-57 | in one tick each sensor gets one trigger_alert call if its reading is out of range and none otherwise |
| `Sensors.TickAlertsAreOutOfRange` | modules/sensors.py:36-57 | every trigger_alert call of a tick names a table sensor and carries that sensor's reading, which is out of range |
| `Sensors.LevelTriggered` | modules/sensors.py:34-57 | a sensor out of range on two ticks gets two trigger_alert calls, because no previous status is consulted |
| `Sensors.SensorSystem.GetSensorStatus` | modules/sensors.py:59-64 | the report carries sensor_data unchanged, the health status and the timestamp |
| `Alerts.AlertSystem.constructor` | modules/alerts.py:9-13 | alert_history starts empty, the cipher is the configured one, and no call has been made yet |
| `Alerts.AlertSystem.ProcessEasMessage` | modules/alerts.py:22-28 | returns the decoded message or the validation error; the calls are format, encrypt, validate, then distribute and log only when valid |
| `Alerts.AlertSystem.ValidateAlert` | modules/alerts.py:37-42 | returns True or the validation error, consulting is_valid_format and then is_duplicate only for well-formed alerts |
| `Alerts.FormatCheckedFirst` | modules/alerts.py:38-39 | a badly formatted alert raises "Invalid alert format" and is_duplicate is not consulted |
| `Alerts.DuplicateCheckedSecond` | modules/alerts.py:40-42 | a well-formed alert raises "Duplicate alert detected" exactly when is_duplicate holds, and returns True otherwise |
| `Alerts.AlertSystem.EncryptMessage` | modules/alerts.py:44-45 | returns the cipher's encryption of the JSON-encoded message and records one encrypt call |
| `Alerts.AlertSystem.DecryptMessage` | modules/alerts.py:47-48 | returns the JSON-decoded decryption; None stands for the exception that decrypt or json.loads raises and decrypt_message lets propagate |
| `Alerts.CipherRoundTrip` | modules/alerts.py:44-48 | when the cipher and the JSON codec are inverse pairs, decrypt_message(encrypt_message(m)) is m |
| `Alerts.AlertSystem.TriggerSirens` | modules/alerts.py:50-53 | the calls are get_siren_locations(area) and then activate_siren for each location in order |
| `Alerts.SirenActivations` | modules/alerts.py:50-53 | trigger_sirens activates exactly the returned locations, once each and in order, after one location lookup |
| `Alerts.AlertSystem.DistributeAlert` | modules/alerts.py:30-35 | the calls are get_recipients(area) and then, per recipient in order, send_sms, send_websocket and trigger_sirens |
| `Alerts.RecipientCounts` | modules/alerts.py:32-35 | one loop iteration sends the SMS first and the websocket push second, both to its recipient, then triggers the sirens once |
| `Alerts.FanoutMessages` | modules/alerts.py:31-34 | the SMS targets and the websocket targets are each exactly the recipient list, in order |
| `Alerts.FanoutCounts` | modules/alerts.py:31-35 | the recipient loop makes as many SMS, websocket and siren-lookup calls as there are recipients |
| `Alerts.FanoutActivations` | modules/alerts.py:32-35 | the recipient loop activates sirens (recipients x locations) times |
| `Alerts.FanoutSmsThenWebsocket` | modules/alerts.py:32-34 | in the recipient loop every SMS is followed at once by the websocket push of the same alert to the same recipient |
| `Alerts.DistributeCounts` | modules/alerts.py:30-35 | distribute_alert sends SMS and pushes to each recipient in order, each SMS directly followed by that recipient's push, and calls trigger_sirens n times for n recipients (none for none) |
| `Alerts.RejectedHasNoDelivery` | modules/alerts.py:23-27 | a rejected alert raises the validation error, reaches no recipient, siren or log, and has already been encrypted |
| `Alerts.AcceptedPipeline` | modules/alerts.py:22-28 | an accepted alert is encrypted before validation, every SMS and push carries the encrypted text, log_alert gets the decoded text as the last call, and the decoded text is returned |
| `Alerts.ValidationBeforeDelivery` | modules/alerts.py:24-27 | every validation check comes before every distribution or log call |
| `MqttClient.MissingMembers` | mqtt_client.py:65 | a name is kept exactly when it is declared and unset or empty |
| `MqttClient.MissingOrder` | mqtt_client.py:65 | the kept names are a subsequence of the declared list |
| `MqttClient.MissingSpec` | mqtt_client.py:64-65 | the comprehension keeps exactly the unset or empty names, as a subsequence of the declared list |
| `MqttClient.ValidateEnvVars` | mqtt_client.py:63-67 | an error exactly when some required variable is unset or empty, its message starting with the fixed prefix |
| `MqttClient.ValidateEnvVarsSpec` | mqtt_client.py:63-67 | validate_env_vars raises exactly when one of the four required variables is unset or empty; the message lists the missing names in declaration order after the fixed prefix |
| `MqttClient.AlertSystem.constructor` | mqtt_client.py:82-83 | a new alert system has made no call |
| `MqttClient.AlertSystem.ProcessEasMessage` | mqtt_client.py:85-90 | raises for an empty or non-string message, and otherwise returns the decoded message after distributing it |
| `MqttClient.InvalidMessageRejected` | mqtt_client.py:85-87 | the call raises "Invalid EAS message provided." exactly for an empty or non-string message, and then neither format_message nor any channel runs |
| `MqttClient.ValidMessageDistributedOnce` | mqtt_client.py:88-90 | a valid message is formatted exactly once, as the first call; exactly one SMS carries the decoded text; that text is returned |
| `MqttClient.AlertSystem.DistributeAlert` | mqtt_client.py:92-105 | the calls are the SMS, then the websocket emit if the SMS succeeded, then one info or error log line |
| `MqttClient.ChannelFailuresDoNotPropagate` | mqtt_client.py:92-105 | channel failures never change the outcome of process_eas_message: distribute_alert never raises |
| `MqttClient.DistributeChannelOrder` | mqtt_client.py:94-105 | order SMS, emit, info log; the emit is attempted iff the SMS succeeded; the success line is logged iff both succeeded; exactly one log line ends the call; the full trace in each of the three cases, a failure being logged as "Failed to distribute alert: " with the reason |
| `MqttClient.SecurityMonitor.constructor` | mqtt_client.py:110-111 | the sensor table is what initialize_sensors returns |
| `MqttClient.SecurityMonitor.InitializeSensors` | mqtt_client.py:113-119 | returns the pin table after GPIO.setmode, or {} with an error log line when setmode raises |
| `MqttClient.InitialSensorsSpec` | mqtt_client.py:113-119 | the table is {motion: 17, door: 18, window: 19}, or {} when setmode raises |
| `MqttClient.SecurityMonitor.CheckStatus` | mqtt_client.py:121-126 | returns the comprehension's result, or {} with an error log line; reads stop at the first read that raises |
| `MqttClient.ReadAllStopsAtError` | mqtt_client.py:122-126 | once one read has raised, no further pin is read and that error is the result |
| `MqttClient.ReadAllSpec` | mqtt_client.py:123 | the comprehension succeeds exactly when every read does, and then maps each sensor name to its pin's level |
| `MqttClient.CheckStatusSpec` | mqtt_client.py:121-126 | the status has exactly the table's names as keys, each with the input of its pin, or is {} and an error log line ends the calls when any read raises |
| `MqttClient.ReadsInOrder` | mqtt_client.py:123 | when no read raises, every pin is read once in table order |
| `Security.SecuritySystem.constructor` | modules/security.py:9-13 | session_tokens starts empty and the secure pins are set up |
| `Security.SecuritySystem.InitializeSecurityHardware` | modules/security.py:15-25 | secure_pins is the five-pin table; the calls are GPIO.setmode and then one GPIO.setup per pin in order |
| `Security.SecurePinsSpec` | modules/security.py:17-25 | five named pins 17..21, distinct, each set up exactly once |
| `Security.SecuritySystem.AuthenticateUser` | modules/security.py:27-32 | returns generate_token(user) for verified credentials, or None; calls hash, verify, then generate only on success |
| `Security.AuthenticateSpec` | modules/security.py:27-32 | a token is returned and generate_token called exactly when verify_credentials yields a user |
| `Security.SecuritySystem.TokenAccepted` | modules/security.py:34-39 | an accepted token is stored in session_tokens for some user |
| `Security.SecuritySystem.VerifyToken` | modules/security.py:34-39 | returns what TokenAccepted says and records exactly one jwt.decode call |
| `Security.VerifyTokenSpec` | modules/security.py:34-39 | True exactly when decoding succeeds and session_tokens[decoded user_id] equals the token; a decode failure or an empty table yields False |
| `Security.MonitorSystemHealth` | modules/security.py:44-50 | the report has exactly the keys cpu_temp, voltage, backup_power and sensor_status, each with its reading |
| `Security.SecuritySystem.IntrusionDetection` | modules/security.py:52-56 | the calls are check_all_sensors and then, if any state is truthy, trigger_alarm and notify_authorities |
| `Security.IntrusionSpec` | modules/security.py:52-56 | trigger_alarm and then notify_authorities, once each, exactly when some sensor state is truthy |
| `Security.QuietSensorsNoAlarm` | modules/security.py:54 | with no sensors, or all states falsy, neither alarm nor notification happens |

## Left out

- The monitoring thread and its `time.sleep(1)` loop (modules/sensors.py:31-43): only one tick is modelled, and `start_monitoring` is not. The 5-second `SENSOR_CHECK_INTERVAL` in config.py is not used by this code.
- `datetime.now()` is the parameter `clock`. The k-th call within a tick stamps the k-th sensor.
- Exceptions raised by collaborators that the code does not catch are not modelled: those collaborators always return. This covers:
  - modules/sensors.py: `GPIO.setmode`, `GPIO.setup`, `GPIO.input`, `read_analog_sensor`, `trigger_alert`.
  - modules/alerts.py: `format_message`, `get_recipients`, `send_sms`, `send_websocket`, `get_siren_locations`, `activate_siren`, `log_alert`, `is_valid_format`, `is_duplicate`, and Fernet encryption.
  - modules/security.py, lines 15-32 and 52-56: `GPIO.setmode`, `GPIO.setup`, `hash_password`, `verify_credentials`, `generate_token`, `check_all_sensors`, `trigger_alarm`, `notify_authorities`.
  - mqtt_client.py: `format_message` at line 88, outside any `try`, so a valid message always yields `Ok` in `MqttClient.ProcessResult`.
  The exceptions that are modelled are the ones the code catches or raises itself:
  - `validate_env_vars`, the `try` blocks of mqtt_client.py, and the guard of `process_eas_message`;
  - `validate_alert`;
  - `verify_token`'s `except`;
  - the exceptions of `decrypt_message`.
- Alerts.AlertSystem.EncryptMessage: Fernet encryption draws a random IV and the current time. The model makes it a function of the message alone.
- `is_valid_format`, `is_duplicate`, `get_recipients`, `get_siren_locations`, `format_message`, `load_thresholds`, `read_analog_sensor`, `check_system_health`, `verify_credentials`, `generate_token`, `hash_password` and `check_all_sensors` are not defined in the repository. They are parameters, with no dedup window, eviction policy or decoding rule invented for them.
- `log_alert`'s effect on `alert_history` is unknown, so the model's methods leave `alert_history` as `__init__` set it.
- modules/alerts.py and modules/security.py use `os.getenv` without importing `os`, and security.py uses `json` without importing it. The model assumes these names resolve.
- `SecuritySystem.encrypt_data` (modules/security.py:41-42) is the same cipher call as `encrypt_message`. It is not modelled separately.
- `initialize_logging`, `setup_logging`, the Twilio `Client(...)` construction and the Fernet key loading in the constructors are configuration of collaborators. They are not modelled.
- Sensors.SensorSystem.GetSensorStatus: Python returns the same `sensor_data` dict object (aliasing); the Dafny map is a value.
- Security.SecuritySystem.TokenAccepted: the claims and `session_tokens` are modelled as string-valued, so a non-string `user_id` or an unhashable claim is not modelled.
- `intrusion_detection` receives the sensor states as booleans giving their Python truthiness.
- In mqtt_client.py `logging.info` and `logging.error` are assumed not to raise. `validate_env_vars()` runs at import time (mqtt_client.py:70), and the process start that it aborts is not modelled.
- The web layer (flask_server.py, the routes of mqtt_client.py at lines 129-192), app.py, eas_alert.py, modules/mqtt_eas_handler.py, config.py, utils/ and tests/ are not part of this model.
- Alerts.DistributeCounts: its siren count, recipients x locations, assumes that every `trigger_sirens` call within one `distribute_alert` gets the same list from `get_siren_locations(area)`. The helpers are taken as one answer per call of `distribute_alert`, so a location list that changes between recipients is not modelled. The same holds for `Alerts.FanoutActivations`.
- Sensors.ClassifyNormalIffWithinBounds: readings are `real`, so a NaN or infinite analog reading cannot be represented. In Python a NaN reading fails both comparisons of `check_threshold` (modules/sensors.py:53-54) and is 'NORMAL' whatever the bounds. A `+inf` reading with no max, or a `-inf` reading with no min, is 'NORMAL' too. The model does not cover these float cases.
- Alerts.AlertSystem.DecryptMessage: `json.loads` may return any JSON value (a number, a list, a dict). The model's `loads` yields only a string or None, where None stands for the exception, so a token whose plaintext is JSON but not a string is not modelled.
