/** The tray application: an MQTT client object whose callbacks update its
    own fields and drive the tray, and the tray object whose icon, status
    text and balloon messages those callbacks (and its own timers) change.
    Network calls, threads and drawing are left out; a callback or timer
    firing is a method call, and wall-clock readings are parameters. */
module Tray {
  import opened Config
  import opened Trigger
  import opened Debounce

  datatype Icon = ConnectedIcon | DisconnectedIcon | AlertIcon

  /** A balloon message shown by the tray: title, text, icon and how long it
      stays, in milliseconds. */
  datatype Balloon = Balloon(title: string, text: string, icon: Icon, msecs: nat)

  const APP_TITLE: string := "MQTT Alert Notifier"

  const STATUS_CONNECTED: string := "Status: Connected"
  const STATUS_DISCONNECTED: string := "Status: Disconnected"
  const STATUS_FAILED: string := "Status: Connection Failed"

  const CONNECTED_BALLOON: Balloon := Balloon(APP_TITLE, "Connected to MQTT broker", ConnectedIcon, 3000)
  const FAILED_BALLOON: Balloon := Balloon(APP_TITLE, "Failed to connect to MQTT broker", DisconnectedIcon, 3000)
  const ALERT_BALLOON: Balloon := Balloon(ALERT_TITLE, ALERT_TEXT, AlertIcon, 10000)

  /** One connection attempt to the broker and the callbacks the MQTT library
      invokes on it. */
  class MqttClient {
    const app: SystemTray
    var connected: bool
    var lastAlertTime: real
    var running: bool
    /** Topics this client asked the broker for, in order. */
    var subscriptions: seq<string>

    constructor (app: SystemTray)
      ensures this.app == app
      ensures !connected && lastAlertTime == NEVER && running && subscriptions == []
    {
      this.app := app;
      connected := false;
      lastAlertTime := NEVER;
      running := true;
      subscriptions := [];
    }

    /** `stop`: ends the keep-alive loop; stopping the network loop and
        disconnecting are network calls. */
    method Stop()
      modifies this
      ensures !running
      ensures connected == old(connected) && lastAlertTime == old(lastAlertTime)
      ensures subscriptions == old(subscriptions)
    {
      running := false;
    }

    /** `run` when connecting raises: the tray reports the failure. */
    method ConnectRaised()
      requires app.Valid()
      modifies app
      ensures app.Valid()
      ensures app.icon == DisconnectedIcon && app.status == STATUS_FAILED
      ensures app.shown == old(app.shown) + [FAILED_BALLOON]
      ensures app.client == old(app.client) && app.alertResetPending == old(app.alertResetPending)
    {
      app.MqttConnectionFailed();
    }

    /** `on_connect`: result code 0 means connected and subscribed; any other
        code is a refused connection. */
    method OnConnect(rc: int)
      requires app.Valid()
      modifies this, app
      ensures app.Valid()
      ensures connected <==> rc == 0
      ensures subscriptions == if rc == 0 then old(subscriptions) + [MQTT_TOPIC] else old(subscriptions)
      ensures lastAlertTime == old(lastAlertTime) && running == old(running)
      ensures app.client == old(app.client) && app.alertResetPending == old(app.alertResetPending)
      ensures rc == 0 ==> app.icon == ConnectedIcon && app.status == STATUS_CONNECTED
                          && app.shown == old(app.shown) + [CONNECTED_BALLOON]
      ensures rc != 0 ==> app.icon == DisconnectedIcon && app.status == STATUS_FAILED
                          && app.shown == old(app.shown) + [FAILED_BALLOON]
    {
      if rc == 0 {
        connected := true;
        subscriptions := subscriptions + [MQTT_TOPIC];
        app.MqttConnected();
      } else {
        connected := false;
        app.MqttConnectionFailed();
      }
    }

    /** `on_message` with the clock reading `now`: a trigger payload shows an
        alert only when the gate is open, and then records `now`. */
    method OnMessage(payload: string, now: real)
      requires app.Valid()
      modifies this, app
      ensures app.Valid()
      ensures lastAlertTime == NextAlertTime(payload, old(lastAlertTime), now)
      ensures connected == old(connected) && running == old(running) && subscriptions == old(subscriptions)
      ensures ShouldAlert(payload, old(lastAlertTime), now) ==>
                app.icon == AlertIcon && app.alertResetPending
                && app.shown == old(app.shown) + [ALERT_BALLOON]
                && app.status == old(app.status) && app.client == old(app.client)
      ensures !ShouldAlert(payload, old(lastAlertTime), now) ==> unchanged(app)
    {
      var matched := Matches(payload);
      if matched {
        var currentTime := now;
        if currentTime - lastAlertTime > WINDOW {
          lastAlertTime := currentTime;
          app.ShowAlertNotification();
        }
      }
    }

    /** `on_disconnect`: always not connected; only an unexpected disconnect
        (non-zero code) changes the tray. */
    method OnDisconnect(rc: int)
      requires app.Valid()
      modifies this, app
      ensures app.Valid()
      ensures !connected
      ensures lastAlertTime == old(lastAlertTime) && running == old(running)
      ensures subscriptions == old(subscriptions)
      ensures rc != 0 ==> app.icon == DisconnectedIcon && app.status == STATUS_DISCONNECTED
                          && app.shown == old(app.shown) && app.client == old(app.client)
                          && app.alertResetPending == old(app.alertResetPending)
      ensures rc == 0 ==> unchanged(app)
    {
      connected := false;
      if rc != 0 {
        app.MqttDisconnected();
      }
    }
  }

  /** The tray icon with its status line, its balloon messages and the
      client it currently owns. */
  class SystemTray {
    var icon: Icon
    var status: string
    /** Balloon messages shown so far, oldest first. */
    var shown: seq<Balloon>
    /** Whether the single-shot timer that resets the icon after an alert is
        running. */
    var alertResetPending: bool
    var client: MqttClient?

    /** The tray owns a client built for it, its status line holds one of the
        three status texts, and the alert icon never stays without a pending
        reset. */
    ghost predicate Valid()
      reads this
    {
      && client != null && client.app == this
      && status in {STATUS_CONNECTED, STATUS_DISCONNECTED, STATUS_FAILED}
      && (icon == AlertIcon ==> alertResetPending)
    }

    /** `__init__`: disconnected icon and status, and a fresh client. */
    constructor ()
      ensures Valid() && fresh(client)
      ensures icon == DisconnectedIcon && status == STATUS_DISCONNECTED
      ensures shown == [] && !alertResetPending
      ensures !client.connected && client.lastAlertTime == NEVER && client.running
      ensures client.subscriptions == []
    {
      icon := DisconnectedIcon;
      status := STATUS_DISCONNECTED;
      shown := [];
      alertResetPending := false;
      client := null;
      new;
      client := new MqttClient(this);
    }

    /** `mqtt_connected`. */
    method MqttConnected()
      requires Valid()
      modifies this
      ensures Valid()
      ensures icon == ConnectedIcon && status == STATUS_CONNECTED
      ensures shown == old(shown) + [CONNECTED_BALLOON]
      ensures client == old(client) && alertResetPending == old(alertResetPending)
    {
      icon := ConnectedIcon;
      status := STATUS_CONNECTED;
      shown := shown + [CONNECTED_BALLOON];
    }

    /** `mqtt_disconnected`: no balloon. */
    method MqttDisconnected()
      requires Valid()
      modifies this
      ensures Valid()
      ensures icon == DisconnectedIcon && status == STATUS_DISCONNECTED
      ensures shown == old(shown)
      ensures client == old(client) && alertResetPending == old(alertResetPending)
    {
      icon := DisconnectedIcon;
      status := STATUS_DISCONNECTED;
    }

    /** `mqtt_connection_failed`. */
    method MqttConnectionFailed()
      requires Valid()
      modifies this
      ensures Valid()
      ensures icon == DisconnectedIcon && status == STATUS_FAILED
      ensures shown == old(shown) + [FAILED_BALLOON]
      ensures client == old(client) && alertResetPending == old(alertResetPending)
    {
      icon := DisconnectedIcon;
      status := STATUS_FAILED;
      shown := shown + [FAILED_BALLOON];
    }

    /** `reconnect`: stop the current client and install a fresh one, which
        starts not connected and with no alert history. */
    method Reconnect()
      requires Valid()
      modifies this, client
      ensures Valid() && fresh(client)
      ensures !client.connected && client.lastAlertTime == NEVER && client.running
      ensures client.subscriptions == []
      ensures !old(client).running
      ensures old(client).connected == old(client.connected)
      ensures old(client).lastAlertTime == old(client.lastAlertTime)
      ensures old(client).subscriptions == old(client.subscriptions)
      ensures icon == old(icon) && status == old(status) && shown == old(shown)
      ensures alertResetPending == old(alertResetPending)
    {
      if client != null {
        client.Stop();
      }
      client := new MqttClient(this);
    }

    /** `check_connection`, run by the 30-second timer: reconnect exactly when
        the current client is not connected. */
    method CheckConnection()
      requires Valid()
      modifies this, client
      ensures Valid()
      ensures old(client.connected) ==> client == old(client) && unchanged(this, old(client))
      ensures !old(client.connected) ==>
                fresh(client) && !client.connected && client.lastAlertTime == NEVER
                && client.running && client.subscriptions == []
      ensures !old(client.connected) ==>
                !old(client).running
                && old(client).connected == old(client.connected)
                && old(client).lastAlertTime == old(client.lastAlertTime)
                && old(client).subscriptions == old(client.subscriptions)
      ensures icon == old(icon) && status == old(status) && shown == old(shown)
      ensures alertResetPending == old(alertResetPending)
    {
      if client != null && !client.connected {
        Reconnect();
      }
    }

    /** `show_alert_notification`: alert icon, alert balloon, and the icon
        reset timer started. */
    method ShowAlertNotification()
      requires Valid()
      modifies this
      ensures Valid()
      ensures icon == AlertIcon && alertResetPending
      ensures shown == old(shown) + [ALERT_BALLOON]
      ensures status == old(status) && client == old(client)
    {
      icon := AlertIcon;
      shown := shown + [ALERT_BALLOON];
      alertResetPending := true;
    }

    /** `reset_icon_after_alert`, run when the reset timer fires: the icon
        shows whether the current client is connected. */
    method ResetIconAfterAlert()
      requires Valid()
      modifies this
      ensures Valid()
      ensures icon == if old(client.connected) then ConnectedIcon else DisconnectedIcon
      ensures !alertResetPending
      ensures status == old(status) && shown == old(shown) && client == old(client)
    {
      if client != null && client.connected {
        icon := ConnectedIcon;
      } else {
        icon := DisconnectedIcon;
      }
      alertResetPending := false;
    }

    /** `test_notification`: the same as a real alert, without the gate. */
    method TestNotification()
      requires Valid()
      modifies this
      ensures Valid()
      ensures icon == AlertIcon && alertResetPending
      ensures shown == old(shown) + [ALERT_BALLOON]
      ensures status == old(status) && client == old(client)
    {
      ShowAlertNotification();
    }

    /** `quit`: stop the current client; leaving the event loop is not part
        of this model. */
    method Quit()
      requires Valid()
      modifies client
      ensures !client.running
      ensures client.connected == old(client.connected)
      ensures client.lastAlertTime == old(client.lastAlertTime)
      ensures client.subscriptions == old(client.subscriptions)
    {
      if client != null {
        client.Stop();
      }
    }
  }

  // ---------------------------------------------------------------------
  // Scenarios: callbacks and timers in a fixed order on a new tray

  /** On one connection, `on` at 100 s shows an alert and `on` at 105 s is
      suppressed. */
  method SuppressedOnOneClient() returns (first: bool, second: bool)
    ensures first && !second
  {
    AcceptsLowerCase();
    var tray := new SystemTray();
    var c := tray.client;
    c.OnConnect(0);
    var n := |tray.shown|;
    c.OnMessage("on", 100.0);
    first := |tray.shown| > n;
    n := |tray.shown|;
    c.OnMessage("on", 105.0);
    second := |tray.shown| > n;
  }

  /** An unexpected disconnect followed by the periodic check replaces the
      client, and with it the alert history: `on` at 105 s alerts again
      although the previous alert was at 100 s. */
  method ReconnectForgetsLastAlert() returns (first: bool, second: bool)
    ensures first && second
  {
    AcceptsLowerCase();
    var tray := new SystemTray();
    var c := tray.client;
    c.OnConnect(0);
    var n := |tray.shown|;
    c.OnMessage("on", 100.0);
    first := |tray.shown| > n;
    c.OnDisconnect(1);
    tray.CheckConnection();
    var d := tray.client;
    d.OnConnect(0);
    n := |tray.shown|;
    d.OnMessage("on", 105.0);
    second := |tray.shown| > n;
  }

  /** A clean disconnect (code 0) leaves the tray saying connected, while the
      client is not; the periodic check then reconnects. */
  method CleanDisconnectKeepsStatus() returns (status: string, icon: Icon, replaced: bool)
    ensures status == STATUS_CONNECTED && icon == ConnectedIcon && replaced
  {
    var tray := new SystemTray();
    var c := tray.client;
    c.OnConnect(0);
    c.OnDisconnect(0);
    status, icon := tray.status, tray.icon;
    tray.CheckConnection();
    replaced := tray.client != c;
  }

  /** After an alert the reset timer brings back the icon of the connection
      state of the client at that moment. */
  method AlertIconResets() returns (during: Icon, after: Icon, afterDrop: Icon)
    ensures during == AlertIcon && after == ConnectedIcon && afterDrop == DisconnectedIcon
  {
    var tray := new SystemTray();
    var c := tray.client;
    c.OnConnect(0);
    tray.TestNotification();
    during := tray.icon;
    tray.ResetIconAfterAlert();
    after := tray.icon;
    tray.ShowAlertNotification();
    c.OnDisconnect(0);
    tray.ResetIconAfterAlert();
    afterDrop := tray.icon;
  }
}
