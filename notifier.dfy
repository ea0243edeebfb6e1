/**
 * nutalert/notifier.py: the body shortening of `notify_apprise` and the gate of
 * `send_all`. The Apprise library is outside the model: the delivery it is asked to make
 * is returned as data, and whether its `notify` raises is a parameter.
 */
module Notifier {
  import opened Common

  const BodyLimit: nat := 1900
  const ShortenedNotice: string := "this message had to be shortened: \n"

  /** The `notifications.apprise` section: `enabled` is the truthiness of `.get("enabled", False)`. */
  datatype AppriseSection = AppriseSection(enabled: bool, url: Option<string>)

  /** The `notifications` section of the configuration, with its `apprise` entry if any. */
  datatype NotificationsSection = NotificationsSection(apprise: Option<AppriseSection>)

  /** What the notifier asks Apprise to send. */
  datatype Delivery = Delivery(url: string, title: string, body: string, attach: Option<string>)

  /** The body sent for a message: at most 1900 characters of it, with a notice when cut. */
  function ShortBody(message: string): (body: string)
    ensures |message| <= BodyLimit ==> body == message
    ensures |message| > BodyLimit ==> body == ShortenedNotice + message[..BodyLimit]
  {
    (if |message| > BodyLimit then ShortenedNotice else "") + message[..if |message| < BodyLimit then |message| else BodyLimit]
  }

  /**
   * The body never exceeds the limit plus the notice, and whatever follows the notice (if
   * any) is a prefix of the message: the message is cut, never rewritten.
   */
  lemma ShortBodyBounds(message: string)
    ensures |ShortBody(message)| <= BodyLimit + |ShortenedNotice|
    ensures exists notice ::
              && (notice == "" || notice == ShortenedNotice)
              && |notice| <= |ShortBody(message)|
              && ShortBody(message)[..|notice|] == notice
              && ShortBody(message)[|notice|..] <= message
    ensures |message| > BodyLimit ==> |ShortBody(message)| == BodyLimit + |ShortenedNotice|
  {
    var body := ShortBody(message);
    if |message| > BodyLimit {
      assert body[..|ShortenedNotice|] == ShortenedNotice;
      assert body[|ShortenedNotice|..] == message[..BodyLimit];
    } else {
      assert body[..0] == "";
      assert body[0..] == message;
    }
  }

  /**
   * The notifier: its configuration (`notifications`, if present) and the container name it
   * keeps but never reads.
   */
  datatype NutAlertNotifier = NutAlertNotifier(notifications: Option<NotificationsSection>, container: Option<string>) {

    /**
     * notify_apprise: looking up `notifications.apprise.url` raises KeyError when it is
     * missing; otherwise the delivery is attempted and the result is True exactly when the
     * library did not raise (its own return value is ignored). An attachment is passed
     * only for a non-empty path.
     */
    function NotifyApprise(title: string, message: string, filePath: Option<string>, libraryRaises: bool): (r: Outcome<(Delivery, bool)>)
      ensures r.Raised? <==> notifications.None? || notifications.value.apprise.None? || notifications.value.apprise.value.url.None?
      ensures r.Returned? ==> r.value.1 == !libraryRaises
      ensures r.Returned? ==> r.value.0.body == ShortBody(message) && r.value.0.title == title
      ensures r.Returned? ==> (r.value.0.attach.Some? <==> filePath.Some? && filePath.value != "")
    {
      if notifications.None? || notifications.value.apprise.None? || notifications.value.apprise.value.url.None? then
        Raised("KeyError")
      else
        var attach := if filePath.Some? && filePath.value != "" then filePath else None;
        Returned((Delivery(notifications.value.apprise.value.url.value, title, ShortBody(message), attach), !libraryRaises))
    }

    /** The condition of send_all: an apprise section, enabled, with a non-empty url. */
    predicate SendGate() {
      && notifications.Some?
      && notifications.value.apprise.Some?
      && notifications.value.apprise.value.enabled
      && notifications.value.apprise.value.url.Some?
      && notifications.value.apprise.value.url.value != ""
    }

    /** send_all: the notify_apprise call it makes, or None when nothing is sent. */
    function SendAll(title: string, message: string, filePath: Option<string>, libraryRaises: bool): (r: Option<Outcome<(Delivery, bool)>>)
      ensures r.Some? <==> SendGate()
      ensures r.Some? ==> r.value == NotifyApprise(title, message, filePath, libraryRaises)
    {
      if SendGate() then Some(NotifyApprise(title, message, filePath, libraryRaises)) else None
    }
  }

  /**
   * Whenever send_all sends, the lookup in notify_apprise succeeds: the gate checks every
   * key notify_apprise reads, so send_all never raises, and it reports the library outcome.
   */
  lemma SendAllNeverRaises(n: NutAlertNotifier, title: string, message: string, filePath: Option<string>, libraryRaises: bool)
    ensures var r := n.SendAll(title, message, filePath, libraryRaises);
      r.Some? ==> r.value.Returned? && r.value.value.1 == !libraryRaises && r.value.value.0.url != ""
  {
  }

  /** Notifications are off by default: without an `enabled` flag nothing is sent. */
  lemma DisabledSendsNothing(n: NutAlertNotifier, title: string, message: string, filePath: Option<string>, libraryRaises: bool)
    requires n.notifications.Some? && n.notifications.value.apprise.Some? && !n.notifications.value.apprise.value.enabled
    ensures n.SendAll(title, message, filePath, libraryRaises).None?
  {
  }
}
