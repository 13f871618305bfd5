/** The client's session helpers (client/src/utils/auth.ts): `authUtils` over the browser's
    `localStorage`, where the current user is kept as JSON text under the key "user". */
module AuthUtils {
  import opened Wrappers

  /** The `User` interface of the client: the part of the account the browser remembers. */
  datatype StoredUser = StoredUser(email: string, name: string, isVerified: bool)

  const UserKey := "user"
  const OtpTimestampKey := "otpTimestamp"

  // ---------------------------------------------------------------- JSON text of a user

  /** A character inside a JSON string literal: the quote and the backslash are escaped. */
  function EscapeChar(c: char): (r: string)
    ensures |r| >= 1
  {
    if c == '"' || c == '\\' then ['\\', c] else [c]
  }

  function Escape(s: string): string {
    if s == [] then [] else EscapeChar(s[0]) + Escape(s[1..])
  }

  const EmailPrefix := "{\"email\":\""
  const NamePrefix := ",\"name\":\""
  const VerifiedTrue := ",\"isVerified\":true}"
  const VerifiedFalse := ",\"isVerified\":false}"

  /** `JSON.stringify(user)` for a user object built as `{ email, name, isVerified }`, in that order:
      `{"email":"…","name":"…","isVerified":true}`. */
  function Stringify(u: StoredUser): string {
    EmailPrefix + Escape(u.email) + "\"" + (NamePrefix + Escape(u.name) + "\"" + VerifiedText(u.isVerified))
  }

  function VerifiedText(isVerified: bool): string {
    if isVerified then VerifiedTrue else VerifiedFalse
  }

  /** Reads the body of a JSON string literal up to its closing quote: the decoded text and what
      follows the quote, or `None` when the literal is unterminated or has an unknown escape. */
  function ReadString(s: string): (r: Option<(string, string)>)
    ensures r.Some? ==> |r.value.1| < |s|
    decreases |s|
  {
    if s == [] then None
    else if s[0] == '"' then Some(([], s[1..]))
    else if s[0] == '\\' then
      if |s| >= 2 && (s[1] == '"' || s[1] == '\\') then
        match ReadString(s[2..])
        case None => None
        case Some((body, rest)) => Some(([s[1]] + body, rest))
      else None
    else
      match ReadString(s[1..])
      case None => None
      case Some((body, rest)) => Some(([s[0]] + body, rest))
  }

  /** Reading back an escaped literal yields the original text and leaves the rest alone. */
  lemma {:induction false} ReadEscaped(x: string, rest: string)
    ensures ReadString(Escape(x) + "\"" + rest) == Some((x, rest))
  {
    if x == [] {
      assert Escape(x) + "\"" + rest == "\"" + rest;
    } else {
      ReadEscaped(x[1..], rest);
      var tail := Escape(x[1..]) + "\"" + rest;
      Regroup(Escape(x), "\"", rest);
      Regroup(Escape(x[1..]), "\"", rest);
      assert Escape(x) == EscapeChar(x[0]) + Escape(x[1..]);
      Regroup(EscapeChar(x[0]), Escape(x[1..]), "\"" + rest);
      ReadEscapedChar(x[0], tail, x[1..], rest);
      assert [x[0]] + x[1..] == x;
    }
  }

  lemma Regroup(a: string, b: string, c: string)
    ensures a + b + c == a + (b + c)
  {
  }

  /** One escaped character in front of a literal is read back as that character. */
  lemma ReadEscapedChar(c: char, tail: string, body: string, rest: string)
    requires ReadString(tail) == Some((body, rest))
    ensures ReadString(EscapeChar(c) + tail) == Some(([c] + body, rest))
  {
    var s := EscapeChar(c) + tail;
    if c == '"' || c == '\\' {
      assert s[0] == '\\' && s[1] == c && s[2..] == tail;
    } else {
      assert s[0] == c && s[1..] == tail;
    }
  }

  predicate StartsWith(s: string, prefix: string) {
    |prefix| <= |s| && s[..|prefix|] == prefix
  }

  /** `JSON.parse(text)` for the layout that `Stringify` writes; any other text is `None`. */
  function ParseUser(s: string): Option<StoredUser> {
    if !StartsWith(s, EmailPrefix) then None
    else
      match ReadString(s[|EmailPrefix|..])
      case None => None
      case Some((email, afterEmail)) =>
        if !StartsWith(afterEmail, NamePrefix) then None
        else
          match ReadString(afterEmail[|NamePrefix|..])
          case None => None
          case Some((name, afterName)) =>
            if afterName == VerifiedTrue then Some(StoredUser(email, name, true))
            else if afterName == VerifiedFalse then Some(StoredUser(email, name, false))
            else None
  }

  /** A field's prefix followed by an escaped literal is read back as the literal's text. */
  lemma ReadAfterPrefix(prefix: string, x: string, rest: string)
    ensures var s := prefix + Escape(x) + "\"" + rest;
      StartsWith(s, prefix) && ReadString(s[|prefix|..]) == Some((x, rest))
  {
    var t := Escape(x) + "\"" + rest;
    assert prefix + Escape(x) + "\"" + rest == prefix + t;
    PrefixSplit(prefix, t);
    ReadEscaped(x, rest);
  }

  lemma PrefixSplit(prefix: string, t: string)
    ensures (prefix + t)[..|prefix|] == prefix && (prefix + t)[|prefix|..] == t
  {
  }

  /** `JSON.parse(JSON.stringify(u))` is `u`. */
  lemma ParseStringify(u: StoredUser)
    ensures ParseUser(Stringify(u)) == Some(u)
  {
    var tail := VerifiedText(u.isVerified);
    var afterEmail := NamePrefix + Escape(u.name) + "\"" + tail;
    ReadAfterPrefix(EmailPrefix, u.email, afterEmail);
    ReadAfterPrefix(NamePrefix, u.name, tail);
  }

  /** A stringified user is never the empty string, so `getUser`'s truthiness test passes. */
  lemma StringifyNonEmpty(u: StoredUser)
    ensures Stringify(u) != ""
  {
    assert Stringify(u)[0] == '{';
  }

  // ---------------------------------------------------------------- the store

  /** `window.localStorage`: string keys to string values. */
  class Storage {
    var items: map<string, string>

    /** What the application keeps under "user" is always the JSON of a user. */
    ghost predicate Valid()
      reads this
    {
      UserKey in items ==> ParseUser(items[UserKey]).Some?
    }

    constructor ()
      ensures items == map[] && Valid()
    {
      items := map[];
    }

    /** `localStorage.setItem(key, value)` */
    method SetItem(key: string, value: string)
      modifies this
      ensures items == old(items)[key := value]
    {
      items := items[key := value];
    }

    /** `localStorage.removeItem(key)` */
    method RemoveItem(key: string)
      modifies this
      ensures items == old(items) - {key}
    {
      items := items - {key};
    }

    /** `isAuthenticated()`: `getItem('user') !== null`. */
    predicate IsAuthenticated()
      reads this
    {
      UserKey in items
    }

    /** `getUser()`: the parsed user when the key holds a non-empty text, otherwise `null`. */
    function GetUser(): (r: Option<StoredUser>)
      requires Valid()
      reads this
      ensures r.Some? <==> IsAuthenticated()
      ensures IsAuthenticated() ==> r == ParseUser(items[UserKey])
    {
      if UserKey in items && items[UserKey] != "" then ParseUser(items[UserKey]) else None
    }

    /** `isVerified()`: `user?.isVerified || false`. */
    predicate IsVerified()
      requires Valid()
      reads this
    {
      var user := GetUser();
      user.Some? && user.value.isVerified
    }

    /** `shouldRedirectFromAuth()` */
    predicate ShouldRedirectFromAuth()
      requires Valid()
      reads this
    {
      IsAuthenticated() && IsVerified()
    }

    /** `setUser(user)`: stores the JSON of `user`, which `getUser` then returns. */
    method SetUser(u: StoredUser)
      modifies this
      requires Valid()
      ensures Valid()
      ensures items == old(items)[UserKey := Stringify(u)]
      ensures GetUser() == Some(u)
    {
      ParseStringify(u);
      StringifyNonEmpty(u);
      items := items[UserKey := Stringify(u)];
    }

    /** `verifyUser()`: re-stores the current user with `isVerified` set; without a user, nothing. */
    method VerifyUser()
      modifies this
      requires Valid()
      ensures Valid()
      ensures old(GetUser()).None? ==> items == old(items)
      ensures old(GetUser()).Some? ==>
        var u := old(GetUser()).value;
        && GetUser() == Some(StoredUser(u.email, u.name, true))
        && items == old(items)[UserKey := Stringify(StoredUser(u.email, u.name, true))]
    {
      var user := GetUser();
      if user.Some? {
        var verified := user.value.(isVerified := true);
        SetUser(verified);
      }
    }

    /** `logout()`: drops the user and the OTP timer, and nothing else. */
    method Logout()
      modifies this
      requires Valid()
      ensures Valid()
      ensures items == old(items) - {UserKey, OtpTimestampKey}
      ensures !IsAuthenticated() && !ShouldRedirectFromAuth()
    {
      RemoveItem(UserKey);
      RemoveItem(OtpTimestampKey);
      assert items == old(items) - {UserKey, OtpTimestampKey};
    }
  }
}
