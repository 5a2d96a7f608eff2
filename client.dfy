/** The pure helpers of the browser client: `escapeHtml`, `truncate`, and the
    token and user entries it keeps in `localStorage`. */
module Client {
  import opened Text

  // ------------------------------------------------------------ escapeHtml

  /** `s.replace(/c/g, piece)`: every occurrence of `c` replaced by `piece`. */
  function ReplaceAll(s: string, c: char, piece: string): string
  {
    if s == [] then [] else (if s[0] == c then piece else [s[0]]) + ReplaceAll(s[1..], c, piece)
  }

  lemma {:induction false} ReplaceAllConcat(a: string, b: string, c: char, piece: string)
    ensures ReplaceAll(a + b, c, piece) == ReplaceAll(a, c, piece) + ReplaceAll(b, c, piece)
  {
    if a != [] {
      var head := if a[0] == c then piece else [a[0]];
      assert (a + b)[0] == a[0] && (a + b)[1..] == a[1..] + b;
      assert ReplaceAll(a + b, c, piece) == head + ReplaceAll(a[1..] + b, c, piece);
      ReplaceAllConcat(a[1..], b, c, piece);
    } else {
      assert a + b == b;
    }
  }

  lemma {:induction false} ReplaceAllAbsent(s: string, c: char, piece: string)
    requires c !in s
    ensures ReplaceAll(s, c, piece) == s
  {
    if s != [] {
      ReplaceAllAbsent(s[1..], c, piece);
    }
  }

  /** The piece one character becomes. */
  function EscapeChar(c: char): string
  {
    if c == '&' then "&amp;" else if c == '<' then "&lt;" else if c == '>' then "&gt;" else [c]
  }

  /** Reference definition: each character escaped on its own. */
  function EscapeEach(s: string): string
  {
    if s == [] then [] else EscapeChar(s[0]) + EscapeEach(s[1..])
  }

  /** The three passes, ampersand first, escape each character once. */
  lemma {:induction false} PassesEscapeEach(s: string)
    ensures ReplaceAll(ReplaceAll(ReplaceAll(s, '&', "&amp;"), '<', "&lt;"), '>', "&gt;") == EscapeEach(s)
  {
    if s != [] {
      var x, rest := s[0], s[1..];
      assert s == [x] + rest;
      var one := if x == '&' then "&amp;" else [x];
      var two := if x == '<' then "&lt;" else one;
      assert ReplaceAll([x], '&', "&amp;") == one;
      ReplaceAllConcat([x], rest, '&', "&amp;");
      var r1 := ReplaceAll(rest, '&', "&amp;");
      ReplaceAllConcat(one, r1, '<', "&lt;");
      if x == '&' {
        ReplaceAllAbsent("&amp;", '<', "&lt;");
      } else {
        assert ReplaceAll([x], '<', "&lt;") == two;
      }
      var r2 := ReplaceAll(r1, '<', "&lt;");
      ReplaceAllConcat(two, r2, '>', "&gt;");
      if x == '&' {
        ReplaceAllAbsent("&amp;", '>', "&gt;");
      } else if x == '<' {
        ReplaceAllAbsent("&lt;", '>', "&gt;");
      } else {
        assert ReplaceAll([x], '>', "&gt;") == EscapeChar(x);
      }
      PassesEscapeEach(rest);
    }
  }

  /** `escapeHtml(s)`: `String(s || '')` then the three global replaces. A
      missing or empty input gives the empty string. */
  function EscapeHtml(s: Option<string>): (r: string)
    ensures r == EscapeEach(if Truthy(s) then s.value else "")
    ensures !Truthy(s) ==> r == ""
  {
    var t := if Truthy(s) then s.value else "";
    PassesEscapeEach(t);
    ReplaceAll(ReplaceAll(ReplaceAll(t, '&', "&amp;"), '<', "&lt;"), '>', "&gt;")
  }

  /** Escaping works character by character: the escape of a concatenation
      is the concatenation of the escapes. */
  lemma {:induction false} EscapeEachConcat(a: string, b: string)
    ensures EscapeEach(a + b) == EscapeEach(a) + EscapeEach(b)
  {
    if a != [] {
      assert (a + b)[0] == a[0] && (a + b)[1..] == a[1..] + b;
      assert EscapeEach(a + b) == EscapeChar(a[0]) + EscapeEach(a[1..] + b);
      EscapeEachConcat(a[1..], b);
    } else {
      assert a + b == b;
    }
  }

  /** The output never contains an angle bracket. */
  lemma {:induction false} EscapeEachNoBrackets(s: string)
    ensures '<' !in EscapeEach(s) && '>' !in EscapeEach(s)
  {
    if s != [] {
      EscapeEachNoBrackets(s[1..]);
    }
  }

  /** Each '&' grows by four characters, each '<' and '>' by three; every
      other character, quotes included, is kept as it is. */
  lemma {:induction false} EscapeEachLength(s: string)
    ensures |EscapeEach(s)| == |s| + 4 * Count(s, '&') + 3 * Count(s, '<') + 3 * Count(s, '>')
  {
    if s != [] {
      EscapeEachLength(s[1..]);
    }
  }

  /** Decodes the three entities `escapeHtml` produces. */
  function Unescape(s: string): string
  {
    if |s| >= 5 && s[..5] == "&amp;" then "&" + Unescape(s[5..])
    else if |s| >= 4 && s[..4] == "&lt;" then "<" + Unescape(s[4..])
    else if |s| >= 4 && s[..4] == "&gt;" then ">" + Unescape(s[4..])
    else if s == [] then []
    else [s[0]] + Unescape(s[1..])
  }

  /** Nothing is escaped twice and nothing is lost: decoding the entities
      gives the input back. */
  lemma {:induction false} UnescapeEscape(s: string)
    ensures Unescape(EscapeEach(s)) == s
  {
    if s != [] {
      var x, rest := s[0], s[1..];
      var e := EscapeEach(s);
      var tail := EscapeEach(rest);
      assert e == EscapeChar(x) + tail;
      if x == '&' {
        assert e[..5] == "&amp;" && e[5..] == tail;
      } else if x == '<' {
        assert e[..4] == "&lt;" && e[4..] == tail;
        assert e[1] == 'l';
      } else if x == '>' {
        assert e[..4] == "&gt;" && e[4..] == tail;
        assert e[1] == 'g';
      } else {
        assert e[0] == x && e[1..] == tail;
      }
      UnescapeEscape(rest);
      assert s == [x] + rest;
    }
  }

  // -------------------------------------------------------------- truncate

  /** '…', one UTF-16 code unit. */
  const Ellipsis: char := '\U{2026}'

  /** The index `String.prototype.slice` takes an end argument to: a negative
      end counts back from the length, and the result is clamped. */
  function SliceEnd(length: nat, end: int): (e: nat)
    ensures e <= length
    ensures 0 <= end <= length ==> e == end
  {
    if end < 0 then (if length + end < 0 then 0 else length + end)
    else if end > length then length
    else end
  }

  /** `truncate(s, len)` for a string `s`. */
  function Truncate(s: string, len: int): (r: string)
    ensures |s| <= len ==> r == s
    ensures 1 <= len < |s| ==> r == s[..len - 1] + [Ellipsis] && |r| == len
    ensures len < |s| ==> |r| >= 1 && r[|r| - 1] == Ellipsis
    ensures s != [] ==> |r| <= |s|
  {
    if |s| > len then s[..SliceEnd(|s|, len - 1)] + [Ellipsis] else s
  }

  /** For a limit of zero or more, truncating twice is truncating once. */
  lemma TruncateIdempotent(s: string, len: int)
    requires len >= 0
    ensures Truncate(Truncate(s, len), len) == Truncate(s, len)
  {
  }

  /** With a negative limit it is not: each call drops more characters. */
  lemma TruncateNegativeNotIdempotent()
    ensures Truncate("abc", -1) == "a" + [Ellipsis]
    ensures Truncate(Truncate("abc", -1), -1) == [Ellipsis]
  {
    assert "abc"[..1] == "a";
    assert ("a" + [Ellipsis])[..0] == [];
  }

  /** The job card truncates after escaping, so the cut can fall inside an
      entity. */
  lemma TruncateCutsEntity()
    ensures Truncate(EscapeHtml(Some("a&b")), 3) == "a&" + [Ellipsis]
  {
    assert EscapeEach("a&b") == "a" + EscapeEach("&b");
    assert EscapeEach("&b") == "&amp;" + EscapeEach("b");
    assert EscapeEach("a&b") == "a&amp;b";
    assert "a&amp;b"[..2] == "a&";
  }

  // ------------------------------------------------------------ localStorage

  /** The browser's `localStorage`: a string-to-string map. */
  class Storage {
    var items: map<string, string>

    constructor ()
      ensures items == map[]
    {
      items := map[];
    }

    /** `getItem(key)`; `null` is `None`. */
    function GetItem(key: string): Option<string>
      reads this
    {
      if key in items then Some(items[key]) else None
    }

    method SetItem(key: string, value: string)
      modifies this
      ensures items == old(items)[key := value]
    {
      items := items[key := value];
    }

    method RemoveItem(key: string)
      modifies this
      ensures items == old(items) - {key}
    {
      items := items - {key};
    }
  }

  const TokenKey := "ig_token"
  const UserKey := "ig_user"

  /** `token()`. */
  function Token(store: Storage): (t: Option<string>)
    reads store
    ensures t.Some? <==> TokenKey in store.items
    ensures t.Some? ==> t.value == store.items[TokenKey]
  {
    store.GetItem(TokenKey)
  }

  /** `setToken(t)`: a truthy token is stored, anything else removes it. */
  method SetToken(store: Storage, t: Option<string>)
    modifies store
    ensures Token(store) == (if Truthy(t) then t else None)
    ensures forall k :: k != TokenKey ==> store.GetItem(k) == old(store.GetItem(k))
  {
    if Truthy(t) {
      store.SetItem(TokenKey, t.value);
    } else {
      store.RemoveItem(TokenKey);
    }
  }

  /** The user the client keeps: what register and login return. */
  datatype StoredUser = StoredUser(id: nat, email: string, name: string, role: string)

  /** One length-prefixed field. */
  function Field(f: string): string
  {
    Digits(|f|) + ":" + f
  }

  /** Stands in for `JSON.stringify(u)`. */
  function EncodeUser(u: StoredUser): string
  {
    Field(Digits(u.id)) + Field(u.email) + Field(u.name) + Field(u.role)
  }

  /** Reads one field off the front of `s`. */
  function ReadField(s: string): Option<(string, string)>
  {
    var i := IndexOf(s, ':');
    if i == |s| then None
    else
      match ParseNat(s[..i])
      case None => None
      case Some(n) => if i + 1 + n <= |s| then Some((s[i + 1..i + 1 + n], s[i + 1 + n..])) else None
  }

  /** Stands in for `JSON.parse(text)`; `None` where it would throw. */
  function DecodeUser(text: string): Option<StoredUser>
  {
    match ReadField(text)
    case None => None
    case Some((id, r1)) =>
      match ReadField(r1)
      case None => None
      case Some((email, r2)) =>
        match ReadField(r2)
        case None => None
        case Some((name, r3)) =>
          match ReadField(r3)
          case None => None
          case Some((role, r4)) =>
            match ParseNat(id)
            case None => None
            case Some(n) => if r4 == [] then Some(StoredUser(n, email, name, role)) else None
  }

  lemma ReadFieldOf(f: string, rest: string)
    ensures ReadField(Field(f) + rest) == Some((f, rest))
  {
    var d := Digits(|f|);
    var s := Field(f) + rest;
    assert s == d + [':'] + (f + rest);
    assert ':' !in d;
    IndexOfSeparator(d, ':', f + rest);
    assert s[..|d|] == d;
    DigitsRoundTrip(|f|);
    assert s[|d| + 1..|d| + 1 + |f|] == f;
    assert s[|d| + 1 + |f|..] == rest;
  }

  /** Encoding then decoding a user gives it back. */
  lemma UserRoundTrip(u: StoredUser)
    ensures DecodeUser(EncodeUser(u)) == Some(u)
  {
    var a, b, c, d := Field(Digits(u.id)), Field(u.email), Field(u.name), Field(u.role);
    var text := EncodeUser(u);
    assert text == a + (b + (c + (d + [])));
    ReadFieldOf(Digits(u.id), b + (c + (d + [])));
    ReadFieldOf(u.email, c + (d + []));
    ReadFieldOf(u.name, d + []);
    ReadFieldOf(u.role, []);
    DigitsRoundTrip(u.id);
    assert ReadField(text) == Some((Digits(u.id), b + (c + (d + []))));
    assert ReadField(b + (c + (d + []))) == Some((u.email, c + (d + [])));
    assert ReadField(c + (d + [])) == Some((u.name, d + []));
    assert ReadField(d + []) == Some((u.role, []));
  }

  /** Text that is not an encoded record, such as text without a field
      separator, reads back as `null`. */
  lemma UnparsableUser(text: string)
    requires ':' !in text
    ensures DecodeUser(text) == None
  {
  }

  /** `currentUser()`: no entry reads as `null` (`JSON.parse(null)`), and an
      entry that does not parse reads as `null` too. */
  function CurrentUser(store: Storage): (u: Option<StoredUser>)
    reads store
    ensures UserKey !in store.items ==> u.None?
    ensures u.Some? ==> UserKey in store.items
    ensures UserKey in store.items ==> u == DecodeUser(store.items[UserKey])
    ensures UserKey in store.items && ':' !in store.items[UserKey] ==> u.None?
  {
    match store.GetItem(UserKey)
    case None => None
    case Some(text) => DecodeUser(text)
  }

  /** `setUser(u)`: a user is stored encoded, `null` removes the entry; in
      both cases `currentUser()` then returns `u`. */
  method SetUser(store: Storage, u: Option<StoredUser>)
    modifies store
    ensures CurrentUser(store) == u
    ensures u.Some? ==> store.GetItem(UserKey) == Some(EncodeUser(u.value))
    ensures forall k :: k != UserKey ==> store.GetItem(k) == old(store.GetItem(k))
  {
    if u.Some? {
      UserRoundTrip(u.value);
      store.SetItem(UserKey, EncodeUser(u.value));
    } else {
      store.RemoveItem(UserKey);
    }
  }
}
