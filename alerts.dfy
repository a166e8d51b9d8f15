/**
 * The SOS page and the alert log.  A logged-in user submits a phone number
 * and a position; the gateway is asked to send an SMS and to place a call,
 * and only when both succeed is an alert appended to the log.
 */
module Alerts {

  import opened Wrappers
  import Sessions
  import Credentials

  /** One logged emergency: who, whom to call, where, and when. */
  datatype Alert = Alert(
    user: string,
    phone: string,
    latitude: string,
    longitude: string,
    location: string,
    time: string)

  const MapsPrefix: string := "https://maps.google.com/?q="

  /** The map link sent in the SMS and stored with the alert. */
  function LocationLink(latitude: string, longitude: string): (link: string)
    ensures |link| == |MapsPrefix| + |latitude| + 1 + |longitude|
    ensures link[..|MapsPrefix|] == MapsPrefix
    ensures link[|MapsPrefix|..|MapsPrefix| + |latitude|] == latitude
    ensures link[|MapsPrefix| + |latitude|] == ','
    ensures link[|MapsPrefix| + |latitude| + 1..] == longitude
  {
    MapsPrefix + latitude + "," + longitude
  }

  /** The position of the first `c` in `s`, if there is one. */
  ghost function IndexOf(s: string, c: char): (r: Option<nat>)
    ensures r.None? <==> c !in s
    ensures r.Some? ==> r.value < |s| && s[r.value] == c && c !in s[..r.value]
  {
    if s == [] then None
    else if s[0] == c then Some(0)
    else match IndexOf(s[1..], c)
      case None => None
      case Some(k) =>
        assert s[1..][..k] == s[1..k + 1];
        Some(k + 1)
  }

  /**
   * Reads the latitude and longitude back out of a map link.  The program never
   * parses a link; this inverse only states what the link preserves.
   */
  ghost function ParseLocationLink(link: string): (r: Option<(string, string)>)
  {
    if |link| < |MapsPrefix| || link[..|MapsPrefix|] != MapsPrefix then None
    else
      var query := link[|MapsPrefix|..];
      match IndexOf(query, ',')
      case None => None
      case Some(k) => Some((query[..k], query[k + 1..]))
  }

  /** The link gives back the position it was built from, provided the latitude holds no comma. */
  lemma LocationLinkRoundTrip(latitude: string, longitude: string)
    requires ',' !in latitude
    ensures ParseLocationLink(LocationLink(latitude, longitude)) == Some((latitude, longitude))
  {
    var link := LocationLink(latitude, longitude);
    assert link[..|MapsPrefix|] == MapsPrefix;
    var query := link[|MapsPrefix|..];
    assert query == latitude + "," + longitude;
    assert query[..|latitude|] == latitude && query[|latitude|] == ',';
    assert IndexOf(query, ',') == Some(|latitude|);
    assert query[|latitude| + 1..] == longitude;
  }

  /** With a comma in the latitude two different positions share one link. */
  lemma LocationLinkIsAmbiguous()
    ensures LocationLink("1,2", "3") == LocationLink("1", "2,3")
  {
  }

  /** The append-only list of alerts. */
  class AlertLog {
    var entries: seq<Alert>

    /** A log holding the alert file's contents as read when the handler loads it. */
    constructor (initial: seq<Alert>)
      ensures entries == initial
    {
      entries := initial;
    }

    method Append(a: Alert)
      modifies this
      ensures entries == old(entries) + [a]
      // the append-only reading: every earlier entry is kept, in place
      ensures entries[..|old(entries)|] == old(entries)
    {
      entries := entries + [a];
    }
  }

  /** What the gateway did with one request: done, or raised an error with this text. */
  datatype Delivery = Delivered | Raised(message: string)

  datatype SosResponse = SosRedirectToLogin | AlertSent | GatewayError(message: string)

  /**
   * A POST to the SOS page.  `sms` and `call` are the gateway's answers to the
   * two requests; when the SMS fails the call is never placed.  `time` is the
   * clock reading taken when the alert is logged.
   */
  method SubmitSos(session: Sessions.Session, log: AlertLog, sms: Delivery, call: Delivery,
                   phone: string, latitude: string, longitude: string, time: string)
    returns (r: SosResponse)
    modifies log
    ensures session.Gate().RedirectToLogin? ==> r == SosRedirectToLogin && log.entries == old(log.entries)
    ensures session.Gate().Granted? && sms.Raised? ==>
              r == GatewayError(sms.message) && log.entries == old(log.entries)
    ensures session.Gate().Granted? && sms.Delivered? && call.Raised? ==>
              r == GatewayError(call.message) && log.entries == old(log.entries)
    ensures session.Gate().Granted? && sms.Delivered? && call.Delivered? ==>
              r == AlertSent &&
              log.entries == old(log.entries) +
                [Alert(session.Gate().user, phone, latitude, longitude, LocationLink(latitude, longitude), time)]
  {
    var access := session.Gate();
    if access.RedirectToLogin? {
      return SosRedirectToLogin;
    }
    var link := LocationLink(latitude, longitude);
    if sms.Raised? {
      return GatewayError(sms.message);
    }
    if call.Raised? {
      return GatewayError(call.message);
    }
    log.Append(Alert(access.user, phone, latitude, longitude, link, time));
    r := AlertSent;
  }

  datatype DashboardResponse = DashboardRedirectToLogin | ShowAlerts(alerts: seq<Alert>)

  /** The alert dashboard: the whole log, oldest first, for a logged-in user. */
  method Dashboard(session: Sessions.Session, log: AlertLog) returns (r: DashboardResponse)
    ensures session.Gate().RedirectToLogin? <==> r == DashboardRedirectToLogin
    ensures session.Gate().Granted? ==> r == ShowAlerts(log.entries)
  {
    if session.Gate().RedirectToLogin? {
      return DashboardRedirectToLogin;
    }
    r := ShowAlerts(log.entries);
  }

  /** A logged-in user's successful SOS adds one alert, at the end, with a link to the position. */
  method SosScenario(username: string, password: string, phone: string, latitude: string, longitude: string, time: string)
    returns (r: SosResponse, logged: seq<Alert>)
    requires username != "" && ',' !in latitude
    ensures r == AlertSent && |logged| == 1
    ensures logged[0].user == username && logged[0].phone == phone && logged[0].time == time
    ensures ParseLocationLink(logged[0].location) == Some((latitude, longitude))
  {
    var store := new Credentials.CredentialStore(map[username := password]);
    var session := new Sessions.Session();
    var login := session.Login(store, username, password);
    var log := new AlertLog([]);
    r := SubmitSos(session, log, Delivered, Delivered, phone, latitude, longitude, time);
    logged := log.entries;
    LocationLinkRoundTrip(latitude, longitude);
  }
}
