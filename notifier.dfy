/** The stand-alone notifier: its callbacks keep no state. Each is modelled
    as a function from the callback's input to the effects it performs, in
    order: a desktop notification, or a subscription to the alert topic. */
module Notifier {
  import opened Config
  import opened Trigger

  datatype Effect =
    | Notify(title: string, message: string)
    | Subscribe(topic: string)

  /** The one notification the notifier ever sends. */
  const ALERT: Effect := Notify(ALERT_TITLE, ALERT_TEXT)

  /** `on_connect`: subscribe to the topic when the broker accepted the
      connection (result code 0), otherwise only log. */
  function OnConnect(rc: int): (r: seq<Effect>)
    ensures Subscribe(MQTT_TOPIC) in r <==> rc == 0
    ensures |r| <= 1 && forall e :: e in r ==> e == Subscribe(MQTT_TOPIC)
    ensures rc != 0 ==> r == []
  {
    if rc == 0 then [Subscribe(MQTT_TOPIC)] else []
  }

  /** `on_message`: one alert notification for a trigger payload, nothing
      otherwise. The test is stated here through the independent description
      of an accepted payload. */
  function OnMessage(payload: string): (r: seq<Effect>)
    ensures r != [] <==> IsTriggerToken(Strip(payload))
    ensures |r| <= 1 && forall e :: e in r ==> e == ALERT
  {
    MatchesIffToken(payload);
    if Matches(payload) then [ALERT] else []
  }

  /** The effects of handling `payloads` in order. */
  function Run(payloads: seq<string>): (r: seq<Effect>)
    decreases |payloads|
  {
    if payloads == [] then [] else OnMessage(payloads[0]) + Run(payloads[1..])
  }

  /** Number of trigger payloads among `payloads`. */
  function CountMatching(payloads: seq<string>): (n: nat)
    decreases |payloads|
  {
    if payloads == [] then 0
    else (if Matches(payloads[0]) then 1 else 0) + CountMatching(payloads[1..])
  }

  /** There is no suppression: handling a stream sends one alert notification
      per trigger payload in it, and nothing else. */
  lemma {:induction false} OneNotificationPerTrigger(payloads: seq<string>)
    ensures |Run(payloads)| == CountMatching(payloads)
    ensures forall e :: e in Run(payloads) ==> e == ALERT
    decreases |payloads|
  {
    if payloads != [] {
      OneNotificationPerTrigger(payloads[1..]);
      MatchesIffToken(payloads[0]);
    }
  }

  /** A message's effects do not depend on the messages before it. */
  lemma {:induction false} RunIsHistoryFree(earlier: seq<string>, payload: string)
    ensures Run(earlier + [payload]) == Run(earlier) + OnMessage(payload)
    decreases |earlier|
  {
    var all := earlier + [payload];
    if earlier == [] {
      assert all == [payload] && all[1..] == [];
    } else {
      var e, es := earlier[0], earlier[1..];
      assert all[0] == e && all[1..] == es + [payload];
      RunIsHistoryFree(es, payload);
      calc {
        Run(all);
        OnMessage(e) + Run(es + [payload]);
        OnMessage(e) + (Run(es) + OnMessage(payload));
        (OnMessage(e) + Run(es)) + OnMessage(payload);
        Run(earlier) + OnMessage(payload);
      }
    }
  }
}
