/**
 * The "Basic" authentication scheme of section 2 of RFC 7617: the header
 * value a client builds from a user-id and a password, and the reading of
 * that value that a server performs.
 */
module BasicAuth {
  import opened Wrappers
  import Base64

  /** The user-pass string: the user-id, a colon, the password. */
  function UserPass(userId: string, password: string): (s: string)
    ensures |s| == |userId| + 1 + |password| && s[|userId|] == ':'
  {
    userId + ":" + password
  }

  /** `Basic ${btoa(`${userId}:${password}`)}`; None where `btoa` throws
      because a character lies outside Latin-1. */
  function Header(userId: string, password: string): (r: Option<string>)
    ensures r.Some? <==> Base64.IsLatin1(userId) && Base64.IsLatin1(password)
    ensures r.Some? ==> |r.value| > 6 && r.value[..6] == "Basic "
    ensures r.Some? ==> Base64.Atob(r.value[6..]) == Some(UserPass(userId, password))
  {
    var up := UserPass(userId, password);
    assert Base64.IsLatin1(up) <==> Base64.IsLatin1(userId) && Base64.IsLatin1(password) by {
      assert forall k :: 0 <= k < |userId| ==> up[k] == userId[k];
      assert forall k :: 0 <= k < |password| ==> up[|userId| + 1 + k] == password[k];
    }
    match Base64.Btoa(up)
    case None => None
    case Some(token) =>
      Base64.BtoaRoundTrip(up);
      assert ("Basic " + token)[6..] == token;
      Some("Basic " + token)
  }

  /** Splits at the first colon: the user-id may not contain one, the
      password may. */
  function SplitAtColon(s: string): (r: Option<(string, string)>)
    ensures r.Some? ==> ':' !in r.value.0 && s == r.value.0 + ":" + r.value.1
    ensures r.None? <==> ':' !in s
  {
    if s == [] then None
    else if s[0] == ':' then Some(([], s[1..]))
    else
      match SplitAtColon(s[1..])
      case None => None
      case Some(parts) => Some(([s[0]] + parts.0, parts.1))
  }

  /** The server side: the user-id and password a header value carries. */
  function Parse(header: string): Option<(string, string)>
  {
    if |header| >= 6 && header[..6] == "Basic " then
      match Base64.Atob(header[6..])
      case None => None
      case Some(up) => SplitAtColon(up)
    else None
  }

  /** Splitting a user-pass string gives back its parts when the user-id
      has no colon, as section 2 of RFC 7617 requires of it. */
  lemma {:induction false} SplitUserPass(userId: string, password: string)
    requires ':' !in userId
    ensures SplitAtColon(UserPass(userId, password)) == Some((userId, password))
  {
    if userId != [] {
      SplitUserPass(userId[1..], password);
      assert UserPass(userId, password)[1..] == UserPass(userId[1..], password);
      assert [userId[0]] + userId[1..] == userId;
    }
  }

  /** A server reading the header recovers exactly the user-id and password
      it was built from. */
  lemma HeaderRoundTrip(userId: string, password: string)
    requires Base64.IsLatin1(userId) && Base64.IsLatin1(password)
    requires ':' !in userId
    ensures Header(userId, password).Some?
    ensures Parse(Header(userId, password).value) == Some((userId, password))
  {
    var up := UserPass(userId, password);
    var h := Header(userId, password).value;
    Base64.BtoaRoundTrip(up);
    assert h[6..] == Base64.Btoa(up).value;
    SplitUserPass(userId, password);
  }
}
