/** Configuration constants that both programs declare at module level.
    Broker host, port and credentials only feed the network connection,
    which this model does not include. */
module Config {

  /** The topic both programs subscribe to once connected. */
  const MQTT_TOPIC: string := "homeassistant/binary_sensor/alert/state"

  /** The accepted trigger payloads, as written in both programs. */
  const TRIGGER_VALUES: seq<string> := ["on", "ON", "\"on\"", "\"ON\""]

  /** Title and body of the alert notification. */
  const ALERT_TITLE: string := "Alert Notification"
  const ALERT_TEXT: string := "Emergency alert received! Please check official sources."
}
