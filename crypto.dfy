/** The three cryptographic collaborators of the server, as ideal stand-ins:
    bcrypt's `hash`/`compare`, jsonwebtoken's `sign`/`verify` (HS256 with a
    7-day `exp` claim, section 4.1.4 of RFC 7519) and the keyed digest both
    jsonwebtoken and Stripe's webhook signatures rest on. The clock is the
    explicit parameter `now` (seconds since the epoch). */
module Crypto {
  import opened Text

  /** The bcrypt cost factor the registration handler passes. */
  const HashCost: nat := 10

  /** A bcrypt digest. The hash is modelled as an ideal one-way function: the
      digest keeps what it was computed from, and only `Compare` looks at it. */
  datatype Digest = Digest(cost: nat, salt: nat, preimage: string)

  /** `bcrypt.hash(password, 10)`; `salt` stands for the random salt bcrypt
      draws on each call. */
  function Hash(password: string, salt: nat): (d: Digest)
    ensures d.cost == HashCost && d.salt == salt
  {
    Digest(HashCost, salt, password)
  }

  /** `bcrypt.compare(password, digest)`. */
  predicate Compare(password: string, d: Digest)
  {
    d.preimage == password
  }

  /** A digest verifies exactly the password it was made from, whatever the
      salt; two hashes of one password with different salts differ. */
  lemma HashCompare(password: string, other: string, salt: nat, salt': nat)
    ensures Compare(password, Hash(password, salt))
    ensures Compare(other, Hash(password, salt)) <==> other == password
    ensures salt != salt' ==> Hash(password, salt) != Hash(password, salt')
  {
  }

  /** A 32-bit polynomial checksum; stands in for the inner hash of HMAC. */
  function Checksum(s: string): nat
  {
    if s == [] then 0 else (Checksum(s[..|s| - 1]) * 31 + s[|s| - 1] as int) % 0x1_0000_0000
  }

  /** The keyed digest of `message` under `key`, written in decimal digits.
      It stands in for HMAC-SHA256; the model relies only on its being a
      deterministic function of key and message that contains no separator. */
  function Mac(key: string, message: string): (sig: string)
    ensures |sig| >= 1 && AllDigits(sig)
  {
    Digits(Checksum(key + [':'] + message))
  }

  /** `expiresIn: '7d'`, in seconds. */
  const TokenLifetime: nat := 7 * 24 * 60 * 60

  /** The claims of a session token: subject, issued-at and expiry. */
  datatype Claims = Claims(sub: nat, iat: nat, exp: nat)

  /** The signed part of a token: the three claims in decimal, joined by '.'.
      It stands in for the base64url-encoded JSON header and payload. */
  function TokenBody(c: Claims): string
  {
    Join([Digits(c.sub), Digits(c.iat), Digits(c.exp)], '.')
  }

  /** `jwt.sign({ sub }, secret, { expiresIn: '7d' })` at time `now`. */
  function Sign(sub: nat, secret: string, now: nat): (token: string)
    ensures ' ' !in token && |token| >= 1
  {
    var c := Claims(sub, now, now + TokenLifetime);
    TokenFields(c, Mac(secret, TokenBody(c)));
    TokenBody(c) + "." + Mac(secret, TokenBody(c))
  }

  lemma NoSeparatorInDigits(s: string)
    requires AllDigits(s)
    ensures ' ' !in s && '.' !in s && ':' !in s
  {
  }

  /** A token is its three claims and its signature, joined by '.'. */
  lemma TokenFields(c: Claims, sig: string)
    requires |sig| >= 1 && AllDigits(sig)
    ensures var fields := [Digits(c.sub), Digits(c.iat), Digits(c.exp), sig];
      && Join(fields, '.') == TokenBody(c) + "." + sig
      && Join(fields[..3], '.') == TokenBody(c)
      && (forall k :: 0 <= k < 4 ==> '.' !in fields[k] && ' ' !in fields[k])
      && ' ' !in TokenBody(c) + "." + sig
  {
    var fields := [Digits(c.sub), Digits(c.iat), Digits(c.exp), sig];
    NoSeparatorInDigits(fields[0]);
    NoSeparatorInDigits(fields[1]);
    NoSeparatorInDigits(fields[2]);
    NoSeparatorInDigits(fields[3]);
    var f1 := fields[1..];
    var f2 := f1[1..];
    assert f1 == [fields[1], fields[2], sig] && f2 == [fields[2], sig] && f2[1..] == [sig];
    assert Join(f2, '.') == fields[2] + "." + sig;
    assert Join(fields, '.') == fields[0] + "." + (fields[1] + "." + (fields[2] + "." + sig));
    var b := fields[..3];
    assert b == [Digits(c.sub), Digits(c.iat), Digits(c.exp)];
    assert b[1..] == [fields[1], fields[2]] && b[1..][1..] == [fields[2]];
    assert Join(b[1..], '.') == fields[1] + "." + fields[2];
    assert TokenBody(c) == fields[0] + "." + (fields[1] + "." + fields[2]);
    var t := TokenBody(c) + "." + sig;
    assert t == fields[0] + "." + fields[1] + "." + fields[2] + "." + sig;
  }

  /** `jwt.verify(token, secret)` at time `now`: the token must have the four
      fields, its claims must be numbers, its signature must be the digest of
      its body under `secret`, and it must not have expired (`now < exp`). */
  function Verify(token: string, secret: string, now: nat): (r: Option<Claims>)
    ensures r.Some? ==> now < r.value.exp
    ensures r.Some? ==>
      var parts := Split(token, '.');
      |parts| == 4 && parts[3] == Mac(secret, Join(parts[..3], '.'))
  {
    var parts := Split(token, '.');
    if |parts| != 4 then None
    else
      var sub, iat, exp := ParseNat(parts[0]), ParseNat(parts[1]), ParseNat(parts[2]);
      if sub.None? || iat.None? || exp.None? then None
      else if parts[3] != Mac(secret, Join(parts[..3], '.')) then None
      else if now >= exp.value then None
      else Some(Claims(sub.value, iat.value, exp.value))
  }

  /** A token signed at `issued` verifies under the same secret, with the
      subject it was issued for, exactly until seven days have passed. */
  lemma SignVerify(sub: nat, secret: string, issued: nat, now: nat)
    ensures Verify(Sign(sub, secret, issued), secret, now)
         == if now < issued + TokenLifetime
            then Some(Claims(sub, issued, issued + TokenLifetime))
            else None
  {
    var c := Claims(sub, issued, issued + TokenLifetime);
    var sig := Mac(secret, TokenBody(c));
    var fields := [Digits(sub), Digits(issued), Digits(issued + TokenLifetime), sig];
    TokenFields(c, sig);
    SplitJoin(fields, '.');
    DigitsRoundTrip(sub);
    DigitsRoundTrip(issued);
    DigitsRoundTrip(issued + TokenLifetime);
  }

  /** A token verifies under another secret only if that secret gives the
      same digest of the token's body. */
  lemma OtherSecret(sub: nat, secret: string, other: string, issued: nat, now: nat)
    requires Verify(Sign(sub, secret, issued), other, now).Some?
    ensures Mac(other, TokenBody(Claims(sub, issued, issued + TokenLifetime)))
         == Mac(secret, TokenBody(Claims(sub, issued, issued + TokenLifetime)))
  {
    var c := Claims(sub, issued, issued + TokenLifetime);
    var sig := Mac(secret, TokenBody(c));
    var fields := [Digits(sub), Digits(issued), Digits(issued + TokenLifetime), sig];
    TokenFields(c, sig);
    SplitJoin(fields, '.');
  }
}
