/** The two programs side by side: the stand-alone notifier has no duplicate
    gate, the tray client has one. */
module Comparison {
  import opened Trigger
  import opened Debounce
  import opened Notifier

  /** The same two `on` messages five seconds apart: the notifier sends two
      notifications, while the tray client's gate lets only the first alert
      through. */
  lemma NotifierDoesNotDebounce()
    ensures |Run(["on", "on"])| == 2
    ensures AlertTimes(NEVER, [Message("on", 100.0), Message("on", 105.0)]) == [100.0]
  {
    AcceptsLowerCase();
    OneNotificationPerTrigger(["on", "on"]);
    assert ["on", "on"][1..] == ["on"];
    assert ["on"][1..] == [];
    var msgs := [Message("on", 100.0), Message("on", 105.0)];
    assert msgs[1..] == [Message("on", 105.0)];
    assert msgs[1..][1..] == [];
    assert MatchTimes(msgs) == [100.0, 105.0];
    SuppressedWithinWindow();
  }
}
