/**
 * The music client: it trades the refresh token for an access token using
 * HTTP Basic authentication, fetches the most recently played item and
 * reduces it to the record the site shows.
 */
module Spotify {
  import opened Wrappers
  import JsText
  import Base64
  import BasicAuth
  import Credentials
  import opened Fetch

  const TokenUrl: string := "https://accounts.spotify.com/api/token"
  const RecentUrl: string := "https://api.spotify.com/v1/me/player/recently-played?limit=1"
  const MissingCredentialsMessage: string := "Missing Spotify credentials in environment"
  const TokenFailurePrefix: string := "Failed to refresh token: "

  datatype ExternalUrls = ExternalUrls(spotify: string)
  datatype Artist = Artist(name: string, externalUrls: ExternalUrls)
  datatype Image = Image(url: string)
  datatype Album = Album(images: seq<Image>)
  datatype Track = Track(name: string, artists: seq<Artist>, album: Album, externalUrls: ExternalUrls)
  datatype PlayHistory = PlayHistory(track: Track, playedAt: string)

  /** The recently-played JSON; None stands for a missing `items`. */
  datatype RecentlyPlayed = RecentlyPlayed(items: Option<seq<PlayHistory>>)

  datatype ArtistRecord = ArtistRecord(name: string, url: string)

  /** The record the site is sent. */
  datatype TrackRecord = TrackRecord(name: string, artists: seq<ArtistRecord>, image: string, url: string, playedAt: string)

  datatype Error =
    | MissingCredentials
    | InvalidCharacter
    | TokenRefreshFailed(statusText: string, status: nat)
    | RecentFetchFailed(statusText: string)
    | NoAlbumImage

  /** The message of the error the client throws. InvalidCharacter and
      NoAlbumImage are thrown by the runtime, and carry its wording. */
  function Message(e: Error): (m: string)
    ensures e.TokenRefreshFailed? ==>
      var digits := JsText.DecimalString(e.status);
      var n := |TokenFailurePrefix| + |e.statusText|;
      && |m| == n + |digits| + 3
      && m[..|TokenFailurePrefix|] == TokenFailurePrefix
      && m[|TokenFailurePrefix|..n] == e.statusText
      && m[|m| - |digits| - 3..] == " (" + digits + ")"
      && JsText.DecimalValue(digits) == e.status
  {
    match e
    case MissingCredentials => MissingCredentialsMessage
    case InvalidCharacter => "btoa() can only operate on characters in the Latin1 (ISO/IEC 8859-1) range."
    case TokenRefreshFailed(text, status) =>
      JsText.DecimalRoundTrip(status);
      var head := TokenFailurePrefix + text;
      var tail := " (" + JsText.DecimalString(status) + ")";
      assert (head + tail)[|head + tail| - |tail|..] == tail;
      assert (head + tail)[..|head|] == head;
      head + tail
    case RecentFetchFailed(text) => "Failed to fetch recent track: " + text
    case NoAlbumImage => "Cannot read properties of undefined (reading 'url')"
  }

  /** The form body of the token request: the grant and the refresh token
      only; the client id and secret travel in the Authorization header. */
  function TokenParams(c: Credentials.Clean): (p: Pairs)
    ensures Names(p) == ["grant_type", "refresh_token"]
    ensures Lookup(p, "grant_type") == Some("refresh_token")
    ensures Lookup(p, "refresh_token") == Some(c.refreshToken)
    ensures Lookup(p, "client_id").None? && Lookup(p, "client_secret").None?
  {
    var p := [("grant_type", "refresh_token"), ("refresh_token", c.refreshToken)];
    assert "client_secret"[0] != "refresh_token"[0];
    LookupAt(p, "grant_type", 0);
    LookupAt(p, "refresh_token", 1);
    p
  }

  /** The two `params.append` calls, on a fresh URLSearchParams. */
  method BuildTokenParams(c: Credentials.Clean) returns (params: SearchParams)
    ensures fresh(params)
    ensures params.list == TokenParams(c)
  {
    params := new SearchParams();
    params.Append("grant_type", "refresh_token");
    params.Append("refresh_token", c.refreshToken);
  }

  /** The token request, given the Authorization value. */
  function TokenRequest(c: Credentials.Clean, authorization: string): Request
  {
    Request(Post, TokenUrl,
            [("Content-Type", "application/x-www-form-urlencoded"), ("Authorization", authorization)],
            Form(TokenParams(c)))
  }

  /** The recently-played request, authorized with the access token. */
  function RecentRequest(accessToken: Option<string>): Request
  {
    Request(Get, RecentUrl, [("Authorization", BearerAuth(accessToken))], NoBody)
  }

  /** `getAccessToken`: the access token from the token reply, or the error
      thrown. A missing credential, or a character `btoa` refuses, fails
      before any request is sent. */
  function AccessToken(raw: Credentials.Raw, reply: Reply<Option<string>>): (x: Exchange<Option<string>, Error>)
    ensures Credentials.Normalize(raw).None? ==> x == Exchange(Failure(MissingCredentials), [])
    ensures Credentials.Normalize(raw).Some? ==>
      var c := Credentials.Normalize(raw).value;
      match BasicAuth.Header(c.clientId, c.clientSecret)
      case None => x == Exchange(Failure(InvalidCharacter), [])
      case Some(auth) =>
        && x.sent == [TokenRequest(c, auth)]
        && x.result == if IsOk(reply.status) then Success(reply.json)
                       else Failure(TokenRefreshFailed(reply.statusText, reply.status))
  {
    match Credentials.Normalize(raw)
    case None => Exchange(Failure(MissingCredentials), [])
    case Some(c) =>
      match BasicAuth.Header(c.clientId, c.clientSecret)
      case None => Exchange(Failure(InvalidCharacter), [])
      case Some(auth) =>
        var request := TokenRequest(c, auth);
        if IsOk(reply.status) then Exchange(Success(reply.json), [request])
        else Exchange(Failure(TokenRefreshFailed(reply.statusText, reply.status)), [request])
  }

  /** The token request AccessToken sends carries, in its Authorization
      header, a value that decodes per section 2 of RFC 7617 to the cleaned
      client id and secret; neither appears in its body. */
  lemma TokenRequestAuthenticates(c: Credentials.Clean, auth: string)
    requires BasicAuth.Header(c.clientId, c.clientSecret) == Some(auth)
    requires ':' !in c.clientId
    ensures var request := TokenRequest(c, auth);
            && Lookup(request.headers, "Authorization") == Some(auth)
            && BasicAuth.Parse(auth) == Some((c.clientId, c.clientSecret))
            && Lookup(request.body.params, "client_id").None?
            && Lookup(request.body.params, "client_secret").None?
  {
    BasicAuth.HeaderRoundTrip(c.clientId, c.clientSecret);
    LookupAt(TokenRequest(c, auth).headers, "Authorization", 1);
  }

  /** `artists.map(a => ({ name: a.name, url: a.external_urls.spotify }))`. */
  function ArtistRecords(artists: seq<Artist>): (r: seq<ArtistRecord>)
    ensures |r| == |artists|
    ensures forall k :: 0 <= k < |artists| ==>
              r[k] == ArtistRecord(artists[k].name, artists[k].externalUrls.spotify)
  {
    if artists == [] then []
    else [ArtistRecord(artists[0].name, artists[0].externalUrls.spotify)] + ArtistRecords(artists[1..])
  }

  /** The record of one played item. Indexing an empty image list yields
      undefined, and reading `url` from it throws. */
  function ToRecord(item: PlayHistory): (r: Result<TrackRecord, Error>)
    ensures r.Failure? <==> item.track.album.images == []
    ensures r.Failure? ==> r.error == NoAlbumImage
    ensures r.Success? ==> && r.value.name == item.track.name
                           && r.value.image == item.track.album.images[0].url
                           && r.value.url == item.track.externalUrls.spotify
                           && r.value.playedAt == item.playedAt
                           && r.value.artists == ArtistRecords(item.track.artists)
  {
    var track := item.track;
    if track.album.images == [] then Failure(NoAlbumImage)
    else Success(TrackRecord(track.name, ArtistRecords(track.artists), track.album.images[0].url,
                             track.externalUrls.spotify, item.playedAt))
  }

  /** What the client reports for the fetched JSON: nothing when `items` is
      missing or empty, otherwise the record of `items[0]` alone. */
  function Latest(body: RecentlyPlayed): (r: Result<Option<TrackRecord>, Error>)
    ensures (body.items.None? || body.items.value == []) ==> r == Success(None)
    ensures body.items.Some? && body.items.value != [] ==>
      r == match ToRecord(body.items.value[0])
           case Success(record) => Success(Some(record))
           case Failure(e) => Failure(e)
  {
    match body.items
    case None => Success(None)
    case Some(items) =>
      if items == [] then Success(None)
      else
        match ToRecord(items[0])
        case Success(record) => Success(Some(record))
        case Failure(e) => Failure(e)
  }

  /** Only the first item matters: what follows it never changes the
      result. */
  lemma LatestIgnoresLaterItems(first: PlayHistory, rest: seq<PlayHistory>, rest': seq<PlayHistory>)
    ensures Latest(RecentlyPlayed(Some([first] + rest))) == Latest(RecentlyPlayed(Some([first] + rest')))
  {
    assert ([first] + rest)[0] == first && ([first] + rest')[0] == first;
  }

  /** The replies the client's two requests are given. */
  datatype Replies = Replies(token: Reply<Option<string>>, recent: Reply<RecentlyPlayed>)

  /** `getRecentTrack`: the record to show, None for "nothing to show", or
      the error thrown, with the requests sent on the way. */
  function RecentTrack(raw: Credentials.Raw, replies: Replies): (x: Exchange<Option<TrackRecord>, Error>)
    ensures Credentials.Normalize(raw).None? ==> x == Exchange(Failure(MissingCredentials), [])
    ensures AccessToken(raw, replies.token).result.Failure? ==>
      x == Exchange(Failure(AccessToken(raw, replies.token).result.error), AccessToken(raw, replies.token).sent)
    ensures AccessToken(raw, replies.token).result.Success? ==>
      && x.sent == AccessToken(raw, replies.token).sent + [RecentRequest(AccessToken(raw, replies.token).result.value)]
      && x.result == if IsOk(replies.recent.status) then Latest(replies.recent.json)
                     else Failure(RecentFetchFailed(replies.recent.statusText))
  {
    var token := AccessToken(raw, replies.token);
    match token.result
    case Failure(e) => Exchange(Failure(e), token.sent)
    case Success(accessToken) =>
      var sent := token.sent + [RecentRequest(accessToken)];
      if !IsOk(replies.recent.status) then Exchange(Failure(RecentFetchFailed(replies.recent.statusText)), sent)
      else Exchange(Latest(replies.recent.json), sent)
  }
}
