// The family session: src/adapters/access/hmac-family-access-gate.ts, which mints and checks tokens, and
// src/adapters/http/family-session-cookie.ts, which carries them.
module Session {
  import opened Common
  import opened Text
  import opened Utf8
  import Json

  /** The keyed hash (HMAC, section 2 of RFC 2104), its base64url text (section 5 of RFC 4648), what Number
      reads in a string that is not plain digits, and the labels that keep the two uses of the hash apart. */
  datatype Crypto = Crypto(
    hmac: (Octets, Octets) -> Octets, base64url: Octets -> string, number: string -> Option<int>,
    sessionKeyLabel: Octets, codeCompareLabel: Octets)

  datatype Gate = Gate(configuredCode: string, sessionSecret: string, ttlSeconds: nat, crypto: Crypto)

  datatype FamilySession = FamilySession(value: string, maxAgeSeconds: nat)

  datatype SessionGrant = Unavailable | Denied | Granted(session: FamilySession)

  datatype SessionCheck = CheckUnavailable | CheckDenied | CheckGranted

  const TOKEN_VERSION: string := "v1"

  /** The gate as configured: both values trimmed, an absent one empty. */
  function Configured(
      accessCode: Option<string>, sessionSecret: Option<string>, ttlSeconds: nat, crypto: Crypto): Gate {
    Gate(if accessCode.None? then [] else Trim(accessCode.value),
         if sessionSecret.None? then [] else Trim(sessionSecret.value),
         ttlSeconds, crypto)
  }

  // ---------------------------------------------------------------- key material

  function Framed(value: string): string {
    Digits(|Encode(value)|) + ":" + value
  }

  function Frame(value: string): Octets {
    Encode(Framed(value))
  }

  function KeyMaterial(code: string, secret: string): Octets {
    Encode(Framed(code) + Framed(secret))
  }

  lemma ColonOctet()
    ensures Encode([':']) == [58]
  {
    assert Encode([':']) == EncodeChar(':') + Encode([]);
  }

  lemma EncodeThree(a: string, b: string, c: string, x: Octets)
    ensures Encode(a + b + c) + x == Encode(a) + Encode(b) + (Encode(c) + x)
  {
    EncodeAppend(a, b);
    EncodeTwo(a + b, c, x);
  }

  lemma EncodeTwo(a: string, b: string, x: Octets)
    ensures Encode(a + b) + x == Encode(a) + (Encode(b) + x)
  {
    EncodeAppend(a, b);
  }

  lemma FrameOctets(value: string, x: Octets)
    ensures Frame(value) + x == Encode(Digits(|Encode(value)|)) + [58] + (Encode(value) + x)
  {
    ColonOctet();
    EncodeThree(Digits(|Encode(value)|), [':'], value, x);
  }

  lemma StartsWithColonExactlyWhen(a: string, x: Octets)
    requires AllDigits(a)
    ensures (Encode(a) + [58] + x)[0] == 58 <==> a == []
  {
    if a != [] {
      assert IsDigit(a[0]);
      assert (Encode(a) + [58] + x)[0] == EncodeChar(a[0])[0];
    }
  }

  /** Digits up to a colon are read one way only. */
  lemma {:induction false} DigitsUpToColon(a: string, x: Octets, b: string, y: Octets)
    requires AllDigits(a) && AllDigits(b)
    requires Encode(a) + [58] + x == Encode(b) + [58] + y
    ensures a == b && x == y
  {
    var left, right := Encode(a) + [58] + x, Encode(b) + [58] + y;
    if a == [] || b == [] {
      StartsWithColonExactlyWhen(a, x);
      StartsWithColonExactlyWhen(b, y);
      assert ([58] + x)[1..] == x && ([58] + y)[1..] == y;
      assert left == [58] + x && right == [58] + y;
    } else {
      assert left == EncodeChar(a[0]) + (Encode(a[1..]) + [58] + x);
      assert right == EncodeChar(b[0]) + (Encode(b[1..]) + [58] + y);
      CharsAreSelfDelimiting(a[0], Encode(a[1..]) + [58] + x, b[0], Encode(b[1..]) + [58] + y);
      DigitsUpToColon(a[1..], x, b[1..], y);
    }
  }

  /** No frame begins another: the length says where it ends. */
  lemma FramesAreSelfDelimiting(v: string, x: Octets, w: string, y: Octets)
    requires Frame(v) + x == Frame(w) + y
    ensures v == w && x == y
  {
    var a, b := Encode(v), Encode(w);
    FrameOctets(v, x);
    FrameOctets(w, y);
    DigitsUpToColon(Digits(|a|), a + x, Digits(|b|), b + y);
    DigitsRoundTrip(|a|);
    DigitsRoundTrip(|b|);
    assert (a + x)[..|a|] == a && (b + y)[..|b|] == b && (a + x)[|a|..] == x && (b + y)[|b|..] == y;
    EncodeIsInjective(v, w);
  }

  lemma MaterialIsSelfDelimiting(code: string, secret: string, x: Octets, code': string, secret': string, y: Octets)
    requires KeyMaterial(code, secret) + x == KeyMaterial(code', secret') + y
    ensures code == code' && secret == secret' && x == y
  {
    MaterialIsFrames(code, secret, x);
    MaterialIsFrames(code', secret', y);
    FramesAreSelfDelimiting(code, Frame(secret) + x, code', Frame(secret') + y);
    FramesAreSelfDelimiting(secret, x, secret', y);
  }

  lemma MaterialIsFrames(code: string, secret: string, x: Octets)
    ensures KeyMaterial(code, secret) + x == Frame(code) + (Frame(secret) + x)
  {
    EncodeAppend(Framed(code), Framed(secret));
  }

  /** Two configurations share key material only when they are the same: no character can move from the code
      into the secret. */
  lemma KeyMaterialIsInjective(code: string, secret: string, code': string, secret': string)
    ensures KeyMaterial(code, secret) == KeyMaterial(code', secret') <==> code == code' && secret == secret'
  {
    if KeyMaterial(code, secret) == KeyMaterial(code', secret') {
      MaterialIsSelfDelimiting(code, secret, [], code', secret', []);
    }
  }

  // ---------------------------------------------------------------- tokens

  function SigningKey(g: Gate): Octets {
    g.crypto.hmac(KeyMaterial(g.configuredCode, g.sessionSecret), g.crypto.sessionKeyLabel)
  }

  function Sign(g: Gate, payload: string): string {
    g.crypto.base64url(g.crypto.hmac(SigningKey(g), Encode(payload)))
  }

  /** What a code is compared as. */
  function CodeDigest(g: Gate, code: string): Octets {
    g.crypto.hmac(g.crypto.codeCompareLabel, Encode(code))
  }

  predicate MatchesConfiguredCode(g: Gate, submitted: string) {
    CodeDigest(g, g.configuredCode) == CodeDigest(g, submitted)
  }

  function Dotted(a: string, b: string): string {
    a + "." + b
  }

  function Payload(expiresAt: nat, nonce: string): string {
    Dotted(Digits(expiresAt), nonce)
  }

  function Token(g: Gate, expiresAt: nat, nonce: string): string {
    Dotted(Dotted(TOKEN_VERSION, Payload(expiresAt, nonce)), Sign(g, Payload(expiresAt, nonce)))
  }

  /** `now` in milliseconds; `random` are the nonce's octets. */
  function OpenSession(g: Gate, submitted: string, now: nat, random: Octets): SessionGrant {
    if g.configuredCode == [] then Unavailable
    else if !MatchesConfiguredCode(g, submitted) then Denied
    else Granted(FamilySession(Token(g, now / 1000 + g.ttlSeconds, g.crypto.base64url(random)), g.ttlSeconds))
  }

  function VerifySession(g: Gate, sessionValue: Option<string>, now: int): SessionCheck {
    if g.configuredCode == [] then CheckUnavailable
    else if sessionValue.None? || sessionValue.value == [] then CheckDenied
    else
      var parts := Split(sessionValue.value, '.');
      if |parts| != 4 || parts[0] != TOKEN_VERSION then CheckDenied
      else
        var expiresAt := IntegerOf(parts[1], g.crypto.number);
        if expiresAt.None? then CheckDenied
        else if Sign(g, Dotted(parts[1], parts[2])) != parts[3] then CheckDenied
        else if expiresAt.value * 1000 <= now then CheckDenied
        else CheckGranted
  }

  /** Base64url text is not empty and holds none of the characters tokens and cookies are cut at. */
  ghost predicate Base64urlOk(c: Crypto) {
    forall o ::
      var s := c.base64url(o);
      s != [] && forall ch :: ch in s ==> ch != '.' && ch != ';' && ch != '=' && !IsSpace(ch)
  }

  lemma TokenParts(g: Gate, expiresAt: nat, nonce: string)
    requires Base64urlOk(g.crypto) && '.' !in nonce
    ensures Split(Token(g, expiresAt, nonce), '.')
            == [TOKEN_VERSION, Digits(expiresAt), nonce, Sign(g, Payload(expiresAt, nonce))]
  {
    NoDigitIs(Digits(expiresAt), '.');
    FourParts(TOKEN_VERSION, Digits(expiresAt), nonce, Sign(g, Payload(expiresAt, nonce)));
  }

  lemma NoDigitIs(digits: string, c: char)
    requires AllDigits(digits) && !IsDigit(c)
    ensures c !in digits
  {
    assert forall i :: 0 <= i < |digits| ==> IsDigit(digits[i]);
  }

  lemma DottedSplits(a: string, b: string)
    requires '.' !in a
    ensures Split(Dotted(a, b), '.') == [a] + Split(b, '.')
  {
    assert Dotted(a, b) == a + ['.'] + b;
    SplitOfJoin(a, '.', b);
  }

  lemma DottedAssociates(a: string, b: string, c: string)
    ensures Dotted(Dotted(a, b), c) == Dotted(a, Dotted(b, c))
  {
  }

  lemma TwoParts(c: string, d: string)
    requires '.' !in c && '.' !in d
    ensures Split(Dotted(c, d), '.') == [c, d]
  {
    DottedSplits(c, d);
    SplitOfJoin(d, '.', []);
  }

  lemma ThreeParts(b: string, rest: string, c: string, d: string)
    requires '.' !in b && '.' !in c && '.' !in d && rest == Dotted(c, d)
    ensures Split(Dotted(b, rest), '.') == [b, c, d]
  {
    TwoParts(c, d);
    DottedSplits(b, rest);
  }

  lemma FourParts(a: string, b: string, c: string, d: string)
    requires '.' !in a && '.' !in b && '.' !in c && '.' !in d
    ensures Split(Dotted(Dotted(a, Dotted(b, c)), d), '.') == [a, b, c, d]
  {
    DottedAssociates(a, Dotted(b, c), d);
    DottedAssociates(b, c, d);
    ThreeParts(b, Dotted(c, d), c, d);
    DottedSplits(a, Dotted(b, Dotted(c, d)));
  }

  /** What a minted token says, under any gate that knows the same cryptography. */
  lemma TokenIsJudged(g: Gate, h: Gate, expiresAt: nat, nonce: string, now: int)
    requires Base64urlOk(g.crypto) && h.crypto == g.crypto && '.' !in nonce && expiresAt <= Json.MAX_SAFE_INTEGER
    ensures VerifySession(h, Some(Token(g, expiresAt, nonce)), now)
            == if h.configuredCode == [] then CheckUnavailable
               else if Sign(h, Payload(expiresAt, nonce)) == Sign(g, Payload(expiresAt, nonce))
                 && now < expiresAt * 1000
               then CheckGranted else CheckDenied
  {
    TokenParts(g, expiresAt, nonce);
    DigitsRoundTrip(expiresAt);
    assert Token(g, expiresAt, nonce)[0] == 'v';
  }

  /** HMAC pads its key with zeros, so keys that differ only there are one key to it. */
  ghost predicate SameKey(k: Octets, k': Octets) {
    exists zeros, zeros' :: k + Zeros(zeros) == k' + Zeros(zeros')
  }

  function Zeros(n: nat): (z: Octets)
    ensures |z| == n
  {
    seq(n, _ => 0)
  }

  /** The idealised keyed hash: its codes have one length, no two keys and messages share a code, and the text
      of a code says which it is. */
  ghost predicate CollisionFree(c: Crypto) {
    && (forall k, m :: |c.hmac(k, m)| == 32)
    && (forall k, m, k', m' :: c.hmac(k, m) == c.hmac(k', m') ==> SameKey(k, k') && m == m')
    && (forall o, o' :: c.base64url(o) == c.base64url(o') ==> o == o')
  }

  lemma SameLengthKeys(k: Octets, k': Octets)
    requires SameKey(k, k') && |k| == |k'|
    ensures k == k'
  {
    var zeros, zeros' :| k + Zeros(zeros) == k' + Zeros(zeros');
    assert (k + Zeros(zeros))[..|k|] == k && (k' + Zeros(zeros'))[..|k|] == k';
  }

  /** Rotating either value revokes every session: a token passes another configuration's signature exactly when
      it is the same configuration. */
  lemma SignaturesAgreeExactlyWhen(g: Gate, h: Gate, payload: string)
    requires CollisionFree(g.crypto) && h.crypto == g.crypto
    ensures Sign(g, payload) == Sign(h, payload)
            <==> g.configuredCode == h.configuredCode && g.sessionSecret == h.sessionSecret
  {
    if Sign(g, payload) == Sign(h, payload) {
      var m, m' := KeyMaterial(g.configuredCode, g.sessionSecret), KeyMaterial(h.configuredCode, h.sessionSecret);
      var purpose := g.crypto.sessionKeyLabel;
      SameLengthKeys(g.crypto.hmac(m, purpose), g.crypto.hmac(m', purpose));
      assert SameKey(m, m');
      var zeros, zeros' :| m + Zeros(zeros) == m' + Zeros(zeros');
      MaterialIsSelfDelimiting(g.configuredCode, g.sessionSecret, Zeros(zeros), h.configuredCode, h.sessionSecret,
        Zeros(zeros'));
    }
  }

  /** The two uses of the hash are apart: key material begins with a digit, so under a label that does not, no digest of
      a code - whatever a caller submits - is ever a key that signs sessions, of this configuration or another. */
  lemma PurposesAreApart(g: Gate, h: Gate, code: string)
    requires CollisionFree(g.crypto) && h.crypto == g.crypto
    requires g.crypto.codeCompareLabel != [] && !(48 <= g.crypto.codeCompareLabel[0] <= 57)
    ensures CodeDigest(g, code) != SigningKey(h)
  {
    var material, compare := KeyMaterial(h.configuredCode, h.sessionSecret), g.crypto.codeCompareLabel;
    MaterialStartsWithDigit(h.configuredCode, h.sessionSecret);
    SameKeysStartAlike(compare, material);
  }

  lemma SameKeysStartAlike(k: Octets, k': Octets)
    requires k != [] && k' != []
    ensures SameKey(k, k') ==> k[0] == k'[0]
  {
    if SameKey(k, k') {
      var zeros, zeros' :| k + Zeros(zeros) == k' + Zeros(zeros');
      assert (k + Zeros(zeros))[0] == k[0] && (k' + Zeros(zeros'))[0] == k'[0];
    }
  }

  lemma MaterialStartsWithDigit(code: string, secret: string)
    ensures var material := KeyMaterial(code, secret); material != [] && 48 <= material[0] <= 57
  {
    var digits := Digits(|Encode(code)|);
    DigitsRoundTrip(|Encode(code)|);
    MaterialIsFrames(code, secret, []);
    FrameOctets(code, Frame(secret) + []);
    assert KeyMaterial(code, secret) + [] == KeyMaterial(code, secret);
    assert IsDigit(digits[0]);
    assert Encode(digits)[0] == EncodeChar(digits[0])[0];
  }

  /** Nothing else is accepted: an accepted value carries this gate's signature over its own expiry, and that
      expiry is still ahead. */
  lemma AcceptedIsSigned(g: Gate, value: string, now: int)
    requires VerifySession(g, Some(value), now).CheckGranted?
    ensures var parts := Split(value, '.');
            && |parts| == 4 && parts[0] == "v1" && parts[3] == Sign(g, Dotted(parts[1], parts[2]))
            && IntegerOf(parts[1], g.crypto.number).Some? && now < IntegerOf(parts[1], g.crypto.number).value * 1000
  {
  }

  // ---------------------------------------------------------------- the cookie

  const FAMILY_SESSION_COOKIE: string := "avaloria_family_session"

  /** Pairs or attributes, joined by a semicolon and a space. */
  function Joined(parts: seq<string>): string
    requires parts != []
    decreases |parts|
  {
    if |parts| == 1 then parts[0] else parts[0] + ";" + (" " + Joined(parts[1..]))
  }

  function Attributes(session: FamilySession, secure: bool): (attributes: seq<string>)
    ensures |attributes| > 0
  {
    ["Path=/", "HttpOnly", "SameSite=Strict", "Max-Age=" + Digits(session.maxAgeSeconds)]
    + if secure then ["Secure"] else []
  }

  function SetCookie(session: FamilySession, secure: bool): string {
    Joined([FAMILY_SESSION_COOKIE + "=" + session.value] + Attributes(session, secure))
  }

  /** The name and value in one pair of a Cookie header, both trimmed; None when there is no equals sign. */
  function ReadPair(pair: string): Option<(string, string)> {
    var name := Until(pair, '=');
    UntilIsPrefix(pair, '=');
    if name == pair then None else Some((Trim(name), Trim(pair[|name| + 1..])))
  }

  function CookieIn(pairs: seq<string>, name: string): Option<string>
    decreases |pairs|
  {
    if pairs == [] then None
    else
      var pair := ReadPair(pairs[0]);
      if pair.Some? && pair.value.0 == name then (if pair.value.1 == [] then None else Some(pair.value.1))
      else CookieIn(pairs[1..], name)
  }

  /** The first pair under the name decides, whatever follows it. */
  method ReadSessionCookie(cookieHeader: Option<string>, name: string) returns (value: Option<string>)
    ensures value == if cookieHeader.None? then None else CookieIn(Split(cookieHeader.value, ';'), name)
  {
    if cookieHeader.None? {
      return None;
    }
    var pairs := Split(cookieHeader.value, ';');
    for i := 0 to |pairs|
      invariant CookieIn(pairs, name) == CookieIn(pairs[i..], name)
    {
      var pair := ReadPair(pairs[i]);
      assert pairs[i..][0] == pairs[i] && pairs[i..][1..] == pairs[i + 1..];
      if pair.Some? && pair.value.0 == name {
        return if pair.value.1 == [] then None else Some(pair.value.1);
      }
    }
    value := None;
  }

  /** What a browser keeps of a Set-Cookie value: the pair before the attributes. */
  function Kept(setCookie: string): string {
    Until(setCookie, ';')
  }

  /** A pair some other cookie left in the browser. */
  predicate Foreign(pair: string, name: string) {
    ';' !in pair && (ReadPair(pair).Some? ==> ReadPair(pair).value.0 != name)
  }

  /** A leading space, which is how every pair but the first arrives, does not change what is read. */
  lemma PairAfterSpace(pair: string)
    ensures ReadPair(" " + pair) == ReadPair(pair)
  {
    var spaced := " " + pair;
    assert spaced[0] == ' ' && spaced[1..] == pair;
    assert Until(spaced, '=') == [' '] + Until(pair, '=');
    var name := Until(pair, '=');
    UntilIsPrefix(pair, '=');
    assert ([' '] + name)[1..] == name;
    if name != pair {
      assert spaced[|name| + 2..] == pair[|name| + 1..];
    }
  }

  /** A pair printed from a tidy name and value reads back as them, with any white space around the two. */
  lemma PairRoundTrip(left: string, name: string, inner: string, between: string, value: string, right: string)
    requires Tidy(name) && Tidy(value) && '=' !in name && '=' !in left && '=' !in inner
    requires AllSpace(left) && AllSpace(inner) && AllSpace(between) && AllSpace(right)
    ensures ReadPair(left + name + inner + "=" + (between + value + right)) == Some((name, value))
  {
    var spaced, rest := left + name + inner, between + value + right;
    var pair := spaced + "=" + rest;
    UntilOfJoin(spaced, '=', rest);
    assert pair[|spaced| + 1..] == rest;
    assert |pair| > |spaced|;
    TrimTakesPadding(left, name, inner);
    TrimTakesPadding(between, value, right);
  }

  /** A pair printed plainly. */
  lemma PlainPair(name: string, value: string)
    requires Tidy(name) && Tidy(value) && '=' !in name
    ensures ReadPair(name + "=" + value) == Some((name, value))
  {
    PairRoundTrip([], name, [], [], value, []);
    assert [] + name + [] + "=" + ([] + value + []) == name + "=" + value;
  }

  /** The first part of a join is what a browser keeps. */
  lemma KeptOfJoined(parts: seq<string>)
    requires parts != [] && ';' !in parts[0]
    ensures Kept(Joined(parts)) == parts[0]
  {
    if |parts| == 1 {
      UntilOfJoin(parts[0], ';', []);
    } else {
      UntilOfJoin(parts[0], ';', " " + Joined(parts[1..]));
    }
  }

  lemma NameIsPlain()
    ensures Tidy(FAMILY_SESSION_COOKIE) && '=' !in FAMILY_SESSION_COOKIE && ';' !in FAMILY_SESSION_COOKIE
  {
  }

  /** The browser's pair of a session reads back as the session's own value. */
  lemma KeptPair(session: FamilySession, secure: bool)
    requires Tidy(session.value) && ';' !in session.value
    ensures var pair := Kept(SetCookie(session, secure));
            ';' !in pair && ReadPair(pair) == Some((FAMILY_SESSION_COOKIE, session.value))
  {
    NameIsPlain();
    var pair := FAMILY_SESSION_COOKIE + "=" + session.value;
    NotInPair(FAMILY_SESSION_COOKIE, session.value, ';');
    var parts := [pair] + Attributes(session, secure);
    assert parts[0] == pair;
    KeptOfJoined(parts);
    PlainPair(FAMILY_SESSION_COOKIE, session.value);
  }

  lemma NotInPair(name: string, value: string, c: char)
    requires c !in name && c !in value && c != '='
    ensures c !in name + "=" + value
  {
  }

  /** What Set-Cookie tells the browser: besides the pair, the path, that no script may read it, that no other site may
      send it, for how many seconds to keep it - and, when asked, that it is for secure connections alone. */
  lemma CookieSays(session: FamilySession, secure: bool)
    requires ';' !in session.value
    ensures var parts := Split(SetCookie(session, secure), ';');
            && |parts| == (if secure then 6 else 5)
            && parts[0] == FAMILY_SESSION_COOKIE + "=" + session.value
            && parts[1] == " Path=/" && parts[2] == " HttpOnly" && parts[3] == " SameSite=Strict"
            && parts[4] == " Max-Age=" + Digits(session.maxAgeSeconds)
            && (secure ==> parts[5] == " Secure")
  {
    var attributes := Attributes(session, secure);
    var parts := [FAMILY_SESSION_COOKIE + "=" + session.value] + attributes;
    NameIsPlain();
    NotInPair(FAMILY_SESSION_COOKIE, session.value, ';');
    NoSemicolons(session, secure);
    SplitJoined(parts);
    forall k | 0 <= k < |attributes| ensures parts[k + 1] == attributes[k] { }
    AttributesAre(session, secure);
  }

  lemma NoSemicolons(session: FamilySession, secure: bool)
    ensures forall k :: 0 <= k < |Attributes(session, secure)| ==> ';' !in Attributes(session, secure)[k]
  {
    NoDigitIs(Digits(session.maxAgeSeconds), ';');
  }

  lemma AttributesAre(session: FamilySession, secure: bool)
    ensures var a := Attributes(session, secure);
            && |a| == (if secure then 5 else 4)
            && " " + a[0] == " Path=/" && " " + a[1] == " HttpOnly" && " " + a[2] == " SameSite=Strict"
            && " " + a[3] == " Max-Age=" + Digits(session.maxAgeSeconds) && (secure ==> " " + a[4] == " Secure")
  {
    assert " " + ("Max-Age=" + Digits(session.maxAgeSeconds)) == " Max-Age=" + Digits(session.maxAgeSeconds);
  }

  /** The parts of a join, each but the first behind a space. */
  lemma {:induction false} SplitJoined(parts: seq<string>)
    requires parts != [] && forall k :: 0 <= k < |parts| ==> ';' !in parts[k]
    ensures var split, spaced := Split(Joined(parts), ';'), Split(" " + Joined(parts), ';');
            && |split| == |parts| == |spaced| && split[0] == parts[0] && spaced[0] == " " + parts[0]
            && forall k :: 0 < k < |parts| ==> split[k] == " " + parts[k] && spaced[k] == " " + parts[k]
    decreases |parts|
  {
    if |parts| == 1 {
      SplitOfJoin(parts[0], ';', []);
      SplitOfJoin(" " + parts[0], ';', []);
    } else {
      RestOfJoined(parts);
      SplitJoined(parts[1..]);
      forall k | 0 < k < |parts| ensures parts[k] == parts[1..][k - 1] { }
    }
  }

  /** An empty value is none. */
  function PresentValue(value: string): Option<string> {
    if value == "" then None else Some(value)
  }

  /** Among any other cookies, before and after, the named pair is the one that is read. */
  lemma {:induction false} HeaderReads(
      before: seq<string>, pair: string, after: seq<string>, name: string, value: string)
    requires forall k :: 0 <= k < |before| ==> Foreign(before[k], name)
    requires ';' !in pair && ReadPair(pair) == Some((name, value))
    ensures CookieIn(Split(Joined(before + [pair] + after), ';'), name) == PresentValue(value)
    ensures CookieIn(Split(" " + Joined(before + [pair] + after), ';'), name) == PresentValue(value)
    decreases |before|
  {
    var pairs := before + [pair] + after;
    PairAfterSpace(pairs[0]);
    if before == [] {
      assert pairs[0] == pair;
      FirstOfJoined(pairs);
    } else {
      assert Foreign(before[0], name) && pairs[0] == before[0];
      assert pairs[1..] == before[1..] + [pair] + after;
      HeaderReads(before[1..], pair, after, name, value);
      RestOfJoined(pairs);
      FirstIsForeign(pairs[0], Split(" " + Joined(pairs[1..]), ';'), name);
      FirstIsForeign(" " + pairs[0], Split(" " + Joined(pairs[1..]), ';'), name);
    }
  }

  lemma RestOfJoined(pairs: seq<string>)
    requires |pairs| > 1 && ';' !in pairs[0]
    ensures var rest := " " + Joined(pairs[1..]);
            && Split(Joined(pairs), ';') == [pairs[0]] + Split(rest, ';')
            && Split(" " + Joined(pairs), ';') == [" " + pairs[0]] + Split(rest, ';')
  {
    var rest := " " + Joined(pairs[1..]);
    assert Joined(pairs) == pairs[0] + [';'] + rest;
    assert " " + Joined(pairs) == (" " + pairs[0]) + [';'] + rest;
    SplitOfJoin(pairs[0], ';', rest);
    SplitOfJoin(" " + pairs[0], ';', rest);
  }

  lemma FirstOfJoined(pairs: seq<string>)
    requires pairs != [] && ';' !in pairs[0]
    ensures Split(Joined(pairs), ';')[0] == pairs[0] && Split(" " + Joined(pairs), ';')[0] == " " + pairs[0]
  {
    if |pairs| == 1 {
      SplitOfJoin(pairs[0], ';', []);
      SplitOfJoin(" " + pairs[0], ';', []);
    } else {
      RestOfJoined(pairs);
    }
  }

  lemma FirstIsForeign(head: string, rest: seq<string>, name: string)
    requires ReadPair(head).Some? ==> ReadPair(head).value.0 != name
    ensures CookieIn([head] + rest, name) == CookieIn(rest, name)
  {
    assert ([head] + rest)[1..] == rest;
  }

  lemma TokenIsCookieSafe(g: Gate, expiresAt: nat, nonce: string)
    requires Base64urlOk(g.crypto) && (forall ch :: ch in nonce ==> ch != ';' && !IsSpace(ch))
    ensures var t := Token(g, expiresAt, nonce); t != [] && Tidy(t) && ';' !in t
  {
    var digits, signature := Digits(expiresAt), Sign(g, Payload(expiresAt, nonce));
    NoDigitIs(digits, ';');
    assert Last(signature) in signature;
    PartsAreCookieSafe(TOKEN_VERSION, digits, nonce, signature);
  }

  lemma PartsAreCookieSafe(a: string, b: string, c: string, d: string)
    requires ';' !in a && ';' !in b && ';' !in c && ';' !in d
    requires a != [] && !IsSpace(a[0]) && d != [] && !IsSpace(Last(d))
    ensures var t := Dotted(Dotted(a, Dotted(b, c)), d); t != [] && Tidy(t) && ';' !in t
  {
    var t := Dotted(Dotted(a, Dotted(b, c)), d);
    assert t[0] == a[0] && Last(t) == Last(d);
  }

  // ---------------------------------------------------------------- the round trip

  /** What the server reads from a browser that kept this session among other cookies. */
  function Presented(session: FamilySession, secure: bool, before: seq<string>, after: seq<string>): Option<string> {
    CookieIn(Split(Joined(before + [Kept(SetCookie(session, secure))] + after), ';'), FAMILY_SESSION_COOKIE)
  }

  /** The whole way round: a session this gate opens, put through Set-Cookie, a browser holding any other
      cookies, and the cookie reader, is granted by a gate of any configuration exactly when that configuration
      is the same and the instant lies before the whole second of issue plus the TTL. */
  lemma SessionRoundTrip(
      g: Gate, h: Gate, submitted: string, now: nat, random: Octets, secure: bool,
      before: seq<string>, after: seq<string>, later: int)
    requires Base64urlOk(g.crypto) && CollisionFree(g.crypto) && h.crypto == g.crypto
    requires OpenSession(g, submitted, now, random).Granted? && h.configuredCode != []
    requires now / 1000 + g.ttlSeconds <= Json.MAX_SAFE_INTEGER
    requires forall k :: 0 <= k < |before| ==> Foreign(before[k], FAMILY_SESSION_COOKIE)
    ensures var session := OpenSession(g, submitted, now, random).session;
            VerifySession(h, Presented(session, secure, before, after), later)
            == if h.configuredCode == g.configuredCode && h.sessionSecret == g.sessionSecret
                  && later < (now / 1000 + g.ttlSeconds) * 1000
               then CheckGranted else CheckDenied
  {
    var expiresAt, nonce := now / 1000 + g.ttlSeconds, g.crypto.base64url(random);
    CookieRoundTrip(g, FamilySession(Token(g, expiresAt, nonce), g.ttlSeconds), expiresAt, nonce, secure, before,
      after);
    TokenIsJudged(g, h, expiresAt, nonce, later);
    SignaturesAgreeExactlyWhen(h, g, Payload(expiresAt, nonce));
  }

  /** What a configured value counts as: trimmed, and an absent one as an empty one. */
  predicate SameValue(a: Option<string>, b: Option<string>) {
    match (a, b)
    case (Some(s), Some(t)) => Trim(s) == Trim(t)
    case (Some(s), None) => Blank(s)
    case (None, Some(t)) => Blank(t)
    case (None, None) => true
  }

  /** Rotating a deployment's code or its secret, and nothing less, revokes the sessions opened before: white space
      around a value, or an empty value where there was none, changes nothing. */
  lemma RotationRevokesExactlyWhen(
      code: Option<string>, secret: Option<string>, ttl: nat, code': Option<string>, secret': Option<string>, ttl': nat,
      crypto: Crypto, now: nat, random: Octets, secure: bool, later: int)
    requires Base64urlOk(crypto) && CollisionFree(crypto)
    requires code.Some? && !Blank(code.value) && code'.Some? && !Blank(code'.value)
    requires now / 1000 + ttl <= Json.MAX_SAFE_INTEGER
    ensures var g, h := Configured(code, secret, ttl, crypto), Configured(code', secret', ttl', crypto);
            var grant := OpenSession(g, Trim(code.value), now, random);
            && grant.Granted? && grant.session.maxAgeSeconds == ttl
            && (VerifySession(h, Presented(grant.session, secure, [], []), later) == CheckGranted
                <==> SameValue(code, code') && SameValue(secret, secret') && later < (now / 1000 + ttl) * 1000)
  {
    var g, h := Configured(code, secret, ttl, crypto), Configured(code', secret', ttl', crypto);
    SessionRoundTrip(g, h, Trim(code.value), now, random, secure, [], [], later);
  }

  /** The browser hands the token back as it was minted. */
  lemma CookieRoundTrip(
      g: Gate, session: FamilySession, expiresAt: nat, nonce: string, secure: bool, before: seq<string>,
      after: seq<string>)
    requires Base64urlOk(g.crypto) && (forall ch :: ch in nonce ==> ch != ';' && !IsSpace(ch))
    requires session.value == Token(g, expiresAt, nonce)
    requires forall k :: 0 <= k < |before| ==> Foreign(before[k], FAMILY_SESSION_COOKIE)
    ensures Presented(session, secure, before, after) == Some(session.value)
  {
    TokenIsCookieSafe(g, expiresAt, nonce);
    KeptPair(session, secure);
    HeaderReads(before, Kept(SetCookie(session, secure)), after, FAMILY_SESSION_COOKIE, session.value);
  }

  /** In elapsed time: a session lives through every span at least a second short of the TTL and through none of
      the TTL or more; in between the milliseconds of the issue time decide. */
  lemma LifetimeBounds(now: nat, ttlSeconds: nat, later: int)
    ensures later - now <= ttlSeconds * 1000 - 1000 ==> later < (now / 1000 + ttlSeconds) * 1000
    ensures later - now >= ttlSeconds * 1000 ==> later >= (now / 1000 + ttlSeconds) * 1000
    ensures later < (now / 1000 + ttlSeconds) * 1000 <==> later - now < ttlSeconds * 1000 - now % 1000
  {
    assert now == 1000 * (now / 1000) + now % 1000;
  }

  /** A configured code opens the gate, trimmed and exactly; under the idealised hash nothing else does, and an
      absent or blank one leaves the gate unusable. */
  lemma OnlyTheCodeOpens(
      accessCode: Option<string>, sessionSecret: Option<string>, ttlSeconds: nat, crypto: Crypto, submitted: string,
      now: nat,
      random: Octets)
    requires CollisionFree(crypto)
    ensures var grant := OpenSession(Configured(accessCode, sessionSecret, ttlSeconds, crypto), submitted, now, random);
            && (grant.Granted? <==> accessCode.Some? && !Blank(accessCode.value) && submitted == Trim(accessCode.value))
            && (grant.Unavailable? <==> accessCode.None? || Blank(accessCode.value))
  {
    var g := Configured(accessCode, sessionSecret, ttlSeconds, crypto);
    if MatchesConfiguredCode(g, submitted) {
      EncodeIsInjective(g.configuredCode, submitted);
    }
  }
}
