/**
 * The fitness client: it trades the refresh token for an access token,
 * fetches the ten most recent activities, picks one by a three-tier rule
 * and reduces it to the record the site shows.
 */
module Strava {
  import opened Wrappers
  import JsText
  import Credentials
  import opened Fetch

  const TokenUrl: string := "https://www.strava.com/oauth/token"
  const ActivitiesUrl: string := "https://www.strava.com/api/v3/athlete/activities?per_page=10"
  const MissingCredentialsMessage: string := "Missing Strava credentials in environment"
  const TokenFailurePrefix: string := "Failed to refresh Strava token: "

  /** An activity's `map` object; None stands for an absent or null
      `summary_polyline`. */
  datatype ActivityMap = ActivityMap(summaryPolyline: Option<string>)

  /** One entry of the activities list. The numeric fields are copied and
      never computed with. */
  datatype Activity = Activity(
    name: string, distance: real, movingTime: real, elapsedTime: real,
    kind: string, startDate: string, id: int, routeMap: Option<ActivityMap>)

  /** The JSON the activities endpoint answers with: an array, or anything
      that is not one. */
  datatype ActivityList = Activities(items: seq<Activity>) | NotAnArray

  /** The record the site is sent. */
  datatype ActivityRecord = ActivityRecord(
    name: string, distance: real, movingTime: real, elapsedTime: real,
    kind: string, startDate: string, id: int, summaryPolyline: Option<string>)

  datatype Error =
    | MissingCredentials
    | TokenRefreshFailed(statusText: string, status: nat)
    | ActivitiesFetchFailed(statusText: string)

  /** The message of the Error the client throws. */
  function Message(e: Error): (m: string)
    ensures e.TokenRefreshFailed? ==>
      var digits := JsText.DecimalString(e.status);
      var n := |TokenFailurePrefix| + |e.statusText|;
      && |m| == n + |digits| + 3
      && m[..|TokenFailurePrefix|] == TokenFailurePrefix
      && m[|TokenFailurePrefix|..n] == e.statusText
      && m[|m| - |digits| - 3..] == " (" + digits + ")"
      && JsText.DecimalValue(digits) == e.status
  {
    match e
    case MissingCredentials => MissingCredentialsMessage
    case TokenRefreshFailed(text, status) =>
      JsText.DecimalRoundTrip(status);
      var head := TokenFailurePrefix + text;
      var tail := " (" + JsText.DecimalString(status) + ")";
      assert (head + tail)[|head + tail| - |tail|..] == tail;
      assert (head + tail)[..|head|] == head;
      head + tail
    case ActivitiesFetchFailed(text) => "Failed to fetch recent Strava activity: " + text
  }

  /** The four parameter names differ from one another. */
  lemma NamesDistinct()
    ensures "client_id" != "client_secret" && "client_id" != "grant_type" && "client_id" != "refresh_token"
    ensures "client_secret" != "grant_type" && "client_secret" != "refresh_token"
    ensures "grant_type" != "refresh_token"
  {
    assert "client_id"[7] != "client_secret"[7];
    assert "client_id"[0] != "grant_type"[0] && "client_id"[0] != "refresh_token"[0];
    assert "client_secret"[0] != "grant_type"[0] && "client_secret"[0] != "refresh_token"[0];
    assert "grant_type"[0] != "refresh_token"[0];
  }

  /** The form body of the token request, in the order it is appended. */
  function TokenParams(c: Credentials.Clean): (p: Pairs)
    ensures Names(p) == ["client_id", "client_secret", "grant_type", "refresh_token"]
    ensures Lookup(p, "client_id") == Some(c.clientId)
    ensures Lookup(p, "client_secret") == Some(c.clientSecret)
    ensures Lookup(p, "grant_type") == Some("refresh_token")
    ensures Lookup(p, "refresh_token") == Some(c.refreshToken)
  {
    var p := [("client_id", c.clientId), ("client_secret", c.clientSecret),
              ("grant_type", "refresh_token"), ("refresh_token", c.refreshToken)];
    BodyLookups(p, c);
    BodyNames(p, c);
    p
  }

  lemma BodyNames(p: Pairs, c: Credentials.Clean)
    requires p == [("client_id", c.clientId), ("client_secret", c.clientSecret),
                   ("grant_type", "refresh_token"), ("refresh_token", c.refreshToken)]
    ensures Names(p) == ["client_id", "client_secret", "grant_type", "refresh_token"]
  {
    assert Names(p) == [p[0].0, p[1].0, p[2].0, p[3].0];
  }

  lemma BodyLookups(p: Pairs, c: Credentials.Clean)
    requires p == [("client_id", c.clientId), ("client_secret", c.clientSecret),
                   ("grant_type", "refresh_token"), ("refresh_token", c.refreshToken)]
    ensures Lookup(p, "client_id") == Some(c.clientId)
    ensures Lookup(p, "client_secret") == Some(c.clientSecret)
    ensures Lookup(p, "grant_type") == Some("refresh_token")
    ensures Lookup(p, "refresh_token") == Some(c.refreshToken)
  {
    NamesDistinct();
    LookupAt(p, "client_id", 0);
    LookupAt(p, "client_secret", 1);
    LookupAt(p, "grant_type", 2);
    LookupAt(p, "refresh_token", 3);
  }

  /** The four `params.append` calls, on a fresh URLSearchParams. */
  method BuildTokenParams(c: Credentials.Clean) returns (params: SearchParams)
    ensures fresh(params)
    ensures params.list == TokenParams(c)
  {
    params := new SearchParams();
    params.Append("client_id", c.clientId);
    params.Append("client_secret", c.clientSecret);
    params.Append("grant_type", "refresh_token");
    params.Append("refresh_token", c.refreshToken);
  }

  /** The token request: a POST whose body carries all four parameters. */
  function TokenRequest(c: Credentials.Clean): Request
  {
    Request(Post, TokenUrl, [], Form(TokenParams(c)))
  }

  /** The activities request, authorized with the access token. */
  function ActivitiesRequest(accessToken: Option<string>): Request
  {
    Request(Get, ActivitiesUrl, [("Authorization", BearerAuth(accessToken))], NoBody)
  }

  /** `getAccessToken`: the access token from the token reply, or the error
      thrown; a missing credential fails before any request is sent. */
  function AccessToken(raw: Credentials.Raw, reply: Reply<Option<string>>): (x: Exchange<Option<string>, Error>)
    ensures Credentials.Normalize(raw).None? ==> x == Exchange(Failure(MissingCredentials), [])
    ensures Credentials.Normalize(raw).Some? ==> x.sent == [TokenRequest(Credentials.Normalize(raw).value)]
    ensures Credentials.Normalize(raw).Some? ==>
      if IsOk(reply.status) then x.result == Success(reply.json)
      else x.result == Failure(TokenRefreshFailed(reply.statusText, reply.status))
  {
    match Credentials.Normalize(raw)
    case None => Exchange(Failure(MissingCredentials), [])
    case Some(c) =>
      if IsOk(reply.status) then Exchange(Success(reply.json), [TokenRequest(c)])
      else Exchange(Failure(TokenRefreshFailed(reply.statusText, reply.status)), [TokenRequest(c)])
  }

  /** `a.routeMap?.summary_polyline` is truthy: present and non-empty. */
  predicate HasRoute(a: Activity)
  {
    a.routeMap.Some? && a.routeMap.value.summaryPolyline.Some? && a.routeMap.value.summaryPolyline.value != ""
  }

  /** `a.type === "Run" && a.routeMap?.summary_polyline`. */
  predicate IsRunWithRoute(a: Activity)
  {
    a.kind == "Run" && HasRoute(a)
  }

  /** `Array.prototype.find`, as the index of the entry it returns. */
  function FindFirst(s: seq<Activity>, p: Activity -> bool): (r: Option<nat>)
    ensures r.Some? ==> r.value < |s| && p(s[r.value]) && forall k :: 0 <= k < r.value ==> !p(s[k])
    ensures r.None? ==> forall k :: 0 <= k < |s| ==> !p(s[k])
  {
    if s == [] then None
    else if p(s[0]) then Some(0)
    else
      match FindFirst(s[1..], p)
      case None => None
      case Some(i) => Some(i + 1)
  }

  /** The index of the activity the client reports: the first run with a
      route, else the first activity with a route, else the first one. */
  function SelectIndex(data: seq<Activity>): (r: Option<nat>)
    ensures r.Some? <==> |data| > 0
    ensures r.Some? ==> r.value < |data|
  {
    if |data| == 0 then None
    else
      match FindFirst(data, IsRunWithRoute)
      case Some(i) => Some(i)
      case None =>
        match FindFirst(data, HasRoute)
        case Some(i) => Some(i)
        case None => Some(0)
  }

  /** The selection rule stated declaratively: i is the entry to report. */
  ghost predicate Chosen(data: seq<Activity>, i: int)
  {
    && 0 <= i < |data|
    && (|| (IsRunWithRoute(data[i]) && forall k :: 0 <= k < i ==> !IsRunWithRoute(data[k]))
        || (&& (forall k :: 0 <= k < |data| ==> !IsRunWithRoute(data[k]))
            && HasRoute(data[i]) && forall k :: 0 <= k < i ==> !HasRoute(data[k]))
        || (&& (forall k :: 0 <= k < |data| ==> !HasRoute(data[k]))
            && i == 0))
  }

  /** FindFirst returns i exactly when i is the lowest index satisfying p. */
  lemma FindFirstIs(s: seq<Activity>, p: Activity -> bool, i: int)
    ensures FindFirst(s, p) == Some(i) <==> 0 <= i < |s| && p(s[i]) && forall k :: 0 <= k < i ==> !p(s[k])
  {
  }

  /** SelectIndex picks i exactly when the declarative rule chooses i. */
  lemma SelectIndexChosen(data: seq<Activity>, i: int)
    ensures SelectIndex(data) == Some(i) <==> Chosen(data, i)
  {
    FindFirstIs(data, IsRunWithRoute, i);
    FindFirstIs(data, HasRoute, i);
  }

  /** A record of the reported activity: every field copied, the polyline
      taken from `map`, absent when `map` is. */
  function ToRecord(a: Activity): (r: ActivityRecord)
    ensures r.summaryPolyline == if a.routeMap.None? then None else a.routeMap.value.summaryPolyline
  {
    ActivityRecord(a.name, a.distance, a.movingTime, a.elapsedTime, a.kind, a.startDate, a.id,
                   match a.routeMap case None => None case Some(m) => m.summaryPolyline)
  }

  /** The record carries the activity's fields unchanged. */
  predicate Copies(r: ActivityRecord, a: Activity)
  {
    && r.name == a.name && r.distance == a.distance && r.movingTime == a.movingTime
    && r.elapsedTime == a.elapsedTime && r.kind == a.kind && r.startDate == a.startDate
    && r.id == a.id
  }

  /** What the client reports for a fetched list: nothing for a non-array
      or an empty array, otherwise the record of the selected entry. */
  function Latest(list: ActivityList): (r: Option<ActivityRecord>)
    ensures r.None? <==> list.NotAnArray? || |list.items| == 0
    ensures r.Some? ==> exists i :: Chosen(list.items, i) && r.value == ToRecord(list.items[i])
                                    && Copies(r.value, list.items[i])
  {
    match list
    case NotAnArray => None
    case Activities(data) =>
      match SelectIndex(data)
      case None => None
      case Some(i) =>
        SelectIndexChosen(data, i);
        Some(ToRecord(data[i]))
  }

  /** The replies the client's two requests are given. */
  datatype Replies = Replies(token: Reply<Option<string>>, activities: Reply<ActivityList>)

  /** `getRecentActivity`: the record to show, None for "nothing to show",
      or the error thrown, with the requests sent on the way. */
  function RecentActivity(raw: Credentials.Raw, replies: Replies): (x: Exchange<Option<ActivityRecord>, Error>)
    ensures Credentials.Normalize(raw).None? ==> x == Exchange(Failure(MissingCredentials), [])
    ensures Credentials.Normalize(raw).Some? ==> |x.sent| >= 1 && x.sent[0] == TokenRequest(Credentials.Normalize(raw).value)
    ensures Credentials.Normalize(raw).Some? && !IsOk(replies.token.status) ==>
      x == Exchange(Failure(TokenRefreshFailed(replies.token.statusText, replies.token.status)),
                    [TokenRequest(Credentials.Normalize(raw).value)])
    ensures Credentials.Normalize(raw).Some? && IsOk(replies.token.status) ==>
      && x.sent == [TokenRequest(Credentials.Normalize(raw).value), ActivitiesRequest(replies.token.json)]
      && x.result == if IsOk(replies.activities.status) then Success(Latest(replies.activities.json))
                     else Failure(ActivitiesFetchFailed(replies.activities.statusText))
  {
    var token := AccessToken(raw, replies.token);
    match token.result
    case Failure(e) => Exchange(Failure(e), token.sent)
    case Success(accessToken) =>
      var sent := token.sent + [ActivitiesRequest(accessToken)];
      if IsOk(replies.activities.status) then Exchange(Success(Latest(replies.activities.json)), sent)
      else Exchange(Failure(ActivitiesFetchFailed(replies.activities.statusText)), sent)
  }

  /** A run with a route wins over an earlier activity that has a route but
      is not a run. */
  lemma RunBeatsEarlierRoute(data: seq<Activity>)
    requires |data| >= 3
    requires HasRoute(data[0]) && data[0].kind != "Run"
    requires !IsRunWithRoute(data[1]) && IsRunWithRoute(data[2])
    ensures SelectIndex(data) == Some(2)
  {
    assert Chosen(data, 2);
    SelectIndexChosen(data, 2);
  }
}
