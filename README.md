# MQTT alert notifier — a Dafny model of its alert and connection logic

The repository holds two Python programs that watch one MQTT topic for an
"alert active" payload. `mqtt_notifier.py` sends a desktop notification for
every trigger payload. `mqtt_tray_app.py` runs a system-tray icon. Its MQTT
client object suppresses repeated alerts within ten seconds and reports the
connection state through the tray's icon, status line and balloon messages.

This project models the part of both programs that decides things:

- `config.dfy` (module `Config`): the topic, the trigger values and the alert
  text that both programs declare.
- `trigger.dfy` (module `Trigger`): the trigger test. Python's `str.strip()`
  is modelled with the full set of characters `str.isspace()` accepts, and
  `str.lower()` is modelled on ASCII. A payload matches when its stripped,
  lower-cased form is one of the lower-cased trigger values. The test uses the
  value of that list, `LOWERED_TRIGGERS`; `LoweredTriggers` proves that it is
  the lowering of `TRIGGER_VALUES`. The lemmas show
  that this means: the stripped payload is `on` or `"on"`, in any letter case.
- `debounce.dfy` (module `Debounce`): the tray client's ten-second gate. It is
  stated per message (`ShouldAlert`, `NextAlertTime`) and over whole message
  streams (`Fired`, `AlertTimes`).
- `notifier.dfy` (module `Notifier`): the notifier's stateless callbacks. Each
  is a function that returns the effects to perform: notify, subscribe, or
  nothing.
- `comparison.dfy` (module `Comparison`): the two programs side by side on
  the same messages.
- `tray.dfy` (module `Tray`): the tray program's two objects as classes.
  `MqttClient` has the fields `connected`, `lastAlertTime`, `running` and the
  recorded subscriptions. `SystemTray` has the icon, the status text, the
  balloon messages shown, the pending icon-reset timer and the current
  client. Each callback and each timer is a method.

Clock readings are parameters of type `real`. A timer firing is a method call.

Behaviour of the code worth knowing:

- The code does not strip one layer of quotes. `"on"` matches only because it
  is itself one of the trigger values. `" on "` inside quotes does not match.
- The code does not check the topic of a message.
- The tray's own code retries only through its 30-second connection check,
  with no backoff of its own.
- That check builds a new client, so the debounce history is lost.
- The tray keeps "Status: Connected" after a clean (code 0) disconnect.

## Model

| member | source | states |
|---|---|---|
| Trigger.Lower | mqtt_tray_app.py:85 | lower-casing keeps the length and lowers every character on its own |
| Trigger.StripLeft | mqtt_notifier.py:52 | `lstrip` leaves a string that does not start with whitespace |
| Trigger.StripRight | mqtt_notifier.py:52 | `rstrip` leaves a string that does not end with whitespace |
| Trigger.StripChars | mqtt_notifier.py:52 | stripping both ends leaves a string that neither starts nor ends with a stripped character |
| Trigger.Strip | mqtt_tray_app.py:85 | `strip()` leaves a payload that neither starts nor ends with whitespace |
| Trigger.LowerChar | mqtt_tray_app.py:85 | an ASCII capital becomes the same letter in lower case; every other character is kept |
| Trigger.LowerAll | mqtt_tray_app.py:88 | the comparison list has one entry per trigger value, each one lower-cased |
| Trigger.StripLeftSplits | mqtt_notifier.py:52 | `lstrip` removes only a prefix, made of whitespace |
| Trigger.StripRightSplits | mqtt_notifier.py:52 | `rstrip` removes only a suffix, made of whitespace |
| Trigger.StripSplits | mqtt_tray_app.py:85 | every payload is its stripped form with whitespace around it |
| Trigger.StripUnique | mqtt_tray_app.py:85 | stripping whitespace from around a trimmed core always gives back exactly that core |
| Trigger.StripPadded | mqtt_notifier.py:52 | adding whitespace at either end does not change the stripped form |
| Trigger.StripLower | mqtt_tray_app.py:85 | lower-casing commutes with stripping |
| Trigger.LoweredTriggers | mqtt_tray_app.py:88 | lower-casing the trigger values gives exactly `LOWERED_TRIGGERS` (`on`, `on`, `"on"`, `"on"`), the list the trigger test compares against |
| Trigger.Matches | mqtt_tray_app.py:85-88 | a payload matches iff its stripped, lower-cased form is `on` or `"on"` |
| Trigger.MatchesIffToken | mqtt_notifier.py:52-55 | a payload matches iff its stripped form is `on` or `"on"` in some letter case, compared character by character |
| Trigger.MatchesIgnoresCase | mqtt_notifier.py:31 | lower-casing a payload never changes whether it matches |
| Trigger.MatchesIgnoresPadding | mqtt_notifier.py:52 | whitespace added around a payload never changes whether it matches |
| Trigger.AcceptsLowerCase | mqtt_tray_app.py:34 | `on` matches |
| Trigger.AcceptsOtherCases | mqtt_notifier.py:52-55 | `ON` and `On` match; `On` is not in the list and matches only through lower-casing |
| Trigger.AcceptsQuotedOn | mqtt_notifier.py:31 | `"on"` and `"ON"` with the quotes match |
| Trigger.AcceptsPaddedOn | mqtt_notifier.py:52 | `  on \n` matches |
| Trigger.RejectsOff | mqtt_notifier.py:55 | `off` does not match |
| Trigger.RejectsEmpty | mqtt_notifier.py:55 | the empty payload does not match |
| Trigger.RejectsLongerWord | mqtt_notifier.py:55 | `onn` does not match |
| Trigger.RejectsInnerSpace | mqtt_notifier.py:52-55 | `" on "` with spaces inside the quotes does not match |
| Debounce.ShouldAlert | mqtt_tray_app.py:88-91 | a message shows an alert exactly when the gate over message streams, given that message alone, fires at its time |
| Debounce.NextAlertTime | mqtt_tray_app.py:90-92 | `last_alert_time` either stays or moves forward by more than 10 s, exactly as the gate over clock readings moves it |
| Debounce.MatchTimesOfOne | mqtt_tray_app.py:88-90 | a single message contributes its clock reading iff its payload matches |
| Debounce.Fired | mqtt_tray_app.py:89-93 | starting from last alert time `last`, each alert comes more than 10 s after `last` and more than 10 s after every earlier alert, whatever the clock does |
| Debounce.LastAfterIsLastFired | mqtt_tray_app.py:91-92 | after the gate has seen some readings, the recorded time is the time of the last alert, or the starting value if there was none |
| Debounce.FiredFromReadings | mqtt_tray_app.py:90-92 | every alert time is one of the clock readings taken |
| Debounce.AlertTimesStep | mqtt_tray_app.py:84-93 | per message: an alert at the message's time exactly when the message matches and more than 10 s have passed; then the rest goes on from the updated `last_alert_time` |
| Debounce.NonMatchingIsIgnored | mqtt_tray_app.py:88 | a non-matching message shows nothing and leaves `last_alert_time` unchanged |
| Debounce.LastAlertAfterFollowsGate | mqtt_tray_app.py:88-92 | handling messages one at a time moves `last_alert_time` the same way as the gate running over the readings of the matching messages |
| Debounce.ClientRecordsLastAlert | mqtt_tray_app.py:91-92 | after any message stream, the client's `last_alert_time` is the time of its last alert, or the starting value if there was none |
| Debounce.SuppressedWithinWindow | mqtt_tray_app.py:91 | matches at 100 s and 105 s on a fresh client: the first alerts, the second is suppressed |
| Debounce.SuppressedAtBoundary | mqtt_tray_app.py:91 | matches exactly 10 s apart: the second is suppressed (strict comparison) |
| Debounce.AlertsAgainAfterWindow | mqtt_tray_app.py:91 | matches at 100 s and 111 s: both alert |
| Debounce.FirstMatchAlerts | mqtt_tray_app.py:50 | a fresh client (`last_alert_time` 0) alerts on its first match iff the clock reads more than 10 |
| Notifier.OnConnect | mqtt_notifier.py:41-48 | subscribes to the topic iff the result code is 0, never notifies, and does nothing at all for any other code |
| Notifier.OnMessage | mqtt_notifier.py:50-56 | sends exactly one alert notification when the stripped payload is `on` or `"on"` in some letter case, and nothing otherwise |
| Notifier.OneNotificationPerTrigger | mqtt_notifier.py:50-56 | a message stream produces one alert notification per trigger payload and nothing else: there is no suppression |
| Notifier.RunIsHistoryFree | mqtt_notifier.py:50-56 | what a message does never depends on earlier messages |
| Comparison.NotifierDoesNotDebounce | mqtt_notifier.py:55-56 | two `on` messages 5 s apart: the notifier sends two notifications, while the tray's gate passes only one |
| Tray.MqttClient.constructor | mqtt_tray_app.py:40-51 | a new client is not connected, has `last_alert_time` 0, is running and has no subscriptions |
| Tray.MqttClient.Stop | mqtt_tray_app.py:67-70 | stopping clears `running` and changes nothing else |
| Tray.MqttClient.ConnectRaised | mqtt_tray_app.py:63-65 | when connecting raises, the tray shows "Status: Connection Failed" with the disconnected icon and the failure balloon |
| Tray.MqttClient.OnConnect | mqtt_tray_app.py:72-82 | code 0: connected, subscribed to the topic, "Status: Connected", connected icon and balloon; any other code: not connected, no subscription, "Status: Connection Failed", disconnected icon and failure balloon |
| Tray.MqttClient.OnMessage | mqtt_tray_app.py:84-93 | shows the alert (alert icon, alert balloon, reset timer started) and records `now` iff the payload matches and more than 10 s have passed; otherwise the tray and `last_alert_time` are unchanged |
| Tray.MqttClient.OnDisconnect | mqtt_tray_app.py:95-101 | always not connected afterwards; a non-zero code sets "Status: Disconnected" with the disconnected icon; code 0 leaves the tray unchanged |
| Tray.SystemTray.constructor | mqtt_tray_app.py:105-169 | the tray starts with the disconnected icon, "Status: Disconnected", no balloons, no pending reset, and a fresh client |
| Tray.SystemTray.MqttConnected | mqtt_tray_app.py:219-223 | connected icon, "Status: Connected", one "Connected to MQTT broker" balloon |
| Tray.SystemTray.MqttDisconnected | mqtt_tray_app.py:225-228 | disconnected icon, "Status: Disconnected", no balloon |
| Tray.SystemTray.MqttConnectionFailed | mqtt_tray_app.py:230-234 | disconnected icon, "Status: Connection Failed", one failure balloon |
| Tray.SystemTray.Reconnect | mqtt_tray_app.py:242-248 | the old client stops running and keeps its other fields; a fresh client takes its place: not connected, `last_alert_time` 0, running, no subscriptions; the tray display is unchanged |
| Tray.SystemTray.CheckConnection | mqtt_tray_app.py:236-240 | reconnects iff the current client is not connected, with everything `Reconnect` promises; otherwise nothing changes |
| Tray.SystemTray.ShowAlertNotification | mqtt_tray_app.py:250-261 | alert icon, alert balloon for 10 s, icon-reset timer started; the status text is unchanged |
| Tray.SystemTray.ResetIconAfterAlert | mqtt_tray_app.py:263-268 | the icon becomes the connected icon iff the current client is connected, otherwise the disconnected icon |
| Tray.SystemTray.TestNotification | mqtt_tray_app.py:270-272 | the same display change as a real alert, without the gate |
| Tray.SystemTray.Quit | mqtt_tray_app.py:285-289 | the current client stops running and keeps its connection state, `last_alert_time` and subscriptions |
| Tray.SuppressedOnOneClient | mqtt_tray_app.py:88-93 | on one connection, `on` at 100 s alerts and `on` at 105 s does not |
| Tray.ReconnectForgetsLastAlert | mqtt_tray_app.py:236-248 | an unexpected disconnect followed by the periodic check installs a new client, so `on` at 105 s alerts again after an alert at 100 s |
| Tray.CleanDisconnectKeepsStatus | mqtt_tray_app.py:95-101 | after a clean disconnect the tray still shows "Status: Connected" and the connected icon; the next check replaces the client |
| Tray.AlertIconResets | mqtt_tray_app.py:263-268 | after an alert, the reset timer restores the connected icon while connected, and the disconnected icon after a disconnect |

`SystemTray.Valid()` is kept by every tray and client method. It says that the
tray owns a client built for it, that the status line holds one of the three
status texts, and that the alert icon is never shown without a pending reset
timer.

## Left out

- Network calls of the MQTT library (`connect`, `loop_start`, `loop_forever`, `loop_stop`, `disconnect`, `username_pw_set`) are foreign calls. `subscribe` is kept only as a recorded topic or a `Subscribe` effect. The broker address, port and credentials are used only by these calls.
- The client thread and its `while self.running: time.sleep(1)` loop (mqtt_tray_app.py:53-65) involve concurrency and sleeping. Only the `running` flag and the failure branch (`ConnectRaised`) are modelled.
- All Qt code is left out: icon drawing and saving (mqtt_tray_app.py:171-217), menus, the about dialog, `QApplication.quit`, and the `QTimer` objects. Balloons are recorded as values. The timers' firing is a method call; their 30-second periods are not modelled as time.
- `notify-send` (mqtt_notifier.py:33-39) is an external process. The model returns a `Notify` effect instead. A failure to start it is only logged, so it is not modelled.
- Logging, signal handling, the two `__main__` blocks, and the notifier's `on_disconnect` (mqtt_notifier.py:58-63) are left out. That callback only logs.
- `msg.payload.decode()` is left out. Payloads are already-decoded strings. Invalid UTF-8, which raises in the source, is not modelled.
- The MQTT library's own automatic reconnect inside the network loop started by `loop_start` (mqtt_tray_app.py:57) is not modelled. In the model it can only appear as another `OnConnect` call on the same client, which keeps its `last_alert_time`.
- Tray.MqttClient.Stop: does not model the `on_disconnect` callback that the library's `disconnect()` (mqtt_tray_app.py:70) may invoke. `Stop` keeps `connected`; a caller that wants that callback calls `OnDisconnect(0)` after it.
- `time.time()` returns a float. Clock readings here are exact `real` parameters, so float rounding is not modelled.
- Trigger.Lower: only ASCII capitals are mapped. Python's `str.lower()` covers all of Unicode and can lengthen a string (U+0130 becomes two characters). No character outside ASCII lower-cases to `o`, `n` or a double quote, so the set of payloads that match is the same.
- Callbacks of a stopped client still reach the tray, because the `app` reference stays. Whether the MQTT library still delivers them after `loop_stop` is not part of this model.
