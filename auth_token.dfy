/** `AuthToken.generateToken`: the master-key authorization header of the
    Cosmos DB REST interface. The string to sign is the lower-cased verb and
    resource type, the resource id as given, the lower-cased request date and an
    empty field, each followed by a newline; the header is
    `type=<keyType>&ver=<tokenVersion>&sig=<signature>`, URL-encoded.
    The clock, HMAC-SHA256 with the Base64 codec, and `URLEncoder` are not part
    of this model: the time is a parameter and the signer and encoder are
    function parameters that may fail with the exceptions the source catches. */
module AuthToken {
  import opened Wrappers
  import opened JavaLang
  import ServerTime

  // ---------------------------------------------------------------------------
  // Lower-casing

  /** `Character.toLowerCase` on the ASCII letters; every other character is kept. */
  function LowerChar(c: char): (r: char)
    ensures r == '\n' <==> c == '\n'
  {
    if 'A' <= c <= 'Z' then (c as int + 32) as char else c
  }

  /** `String.toLowerCase` on ASCII text: same length, each character lowered. */
  function LowerCase(s: string): (r: string)
    ensures |r| == |s|
    ensures forall i :: 0 <= i < |s| ==> r[i] == LowerChar(s[i])
  {
    seq(|s|, i requires 0 <= i < |s| => LowerChar(s[i]))
  }

  // ---------------------------------------------------------------------------
  // Splitting on a separator, the inverse of the newline-terminated layout

  /** The pieces of `s` between occurrences of `sep` (an empty string gives one
      empty piece, a trailing separator a trailing empty piece). */
  function Split(s: string, sep: char): (r: seq<string>)
    ensures |r| >= 1
    decreases |s|
  {
    if |s| == 0 then [""]
    else if s[0] == sep then [""] + Split(s[1..], sep)
    else
      var rest := Split(s[1..], sep);
      [[s[0]] + rest[0]] + rest[1..]
  }

  lemma {:induction false} SplitWithoutSeparator(s: string, sep: char)
    requires sep !in s
    ensures Split(s, sep) == [s]
    decreases |s|
  {
    if |s| > 0 {
      assert sep !in s[1..];
      SplitWithoutSeparator(s[1..], sep);
      assert [s[0]] + s[1..] == s;
    }
  }

  /** A separator-free piece followed by the separator splits off as one piece. */
  lemma {:induction false} SplitAfterPiece(a: string, b: string, sep: char)
    requires sep !in a
    ensures Split(a + [sep] + b, sep) == [a] + Split(b, sep)
    decreases |a|
  {
    if |a| == 0 {
      assert a + [sep] + b == [sep] + b;
      assert ([sep] + b)[1..] == b;
    } else {
      assert sep !in a[1..];
      SplitAfterPiece(a[1..], b, sep);
      assert (a + [sep] + b)[1..] == a[1..] + [sep] + b;
      assert [a[0]] + a[1..] == a;
    }
  }

  // ---------------------------------------------------------------------------
  // Payload and header

  /** The string to sign: five fields, each followed by a newline, the last
      field being empty. */
  function Payload(verb: string, resourceType: string, resourceId: string, date: string): (r: string)
    ensures |r| == |verb| + |resourceType| + |resourceId| + |date| + 5
    ensures r[|verb|] == '\n' && r[|r| - 2..] == "\n\n"
    ensures r[|verb| + |resourceType| + 2..|verb| + |resourceType| + 2 + |resourceId|] == resourceId
  {
    LowerCase(verb) + "\n" + LowerCase(resourceType) + "\n" + resourceId + "\n" + LowerCase(date) + "\n" + "" + "\n"
  }

  /** The payload is five newline-terminated fields: the lower-cased verb and
      resource type, the resource id with its case kept, the lower-cased date,
      and an empty field (so splitting on newlines leaves a sixth, empty piece
      after the last terminator). */
  lemma PayloadFields(verb: string, resourceType: string, resourceId: string, date: string)
    requires '\n' !in verb && '\n' !in resourceType && '\n' !in resourceId && '\n' !in date
    ensures Split(Payload(verb, resourceType, resourceId, date), '\n') ==
      [LowerCase(verb), LowerCase(resourceType), resourceId, LowerCase(date), "", ""]
  {
    var v, t, d := LowerCase(verb), LowerCase(resourceType), LowerCase(date);
    assert '\n' !in v && '\n' !in t && '\n' !in d by {
      forall i | 0 <= i < |verb| ensures v[i] != '\n' { assert verb[i] != '\n'; }
      forall i | 0 <= i < |resourceType| ensures t[i] != '\n' { assert resourceType[i] != '\n'; }
      forall i | 0 <= i < |date| ensures d[i] != '\n' { assert date[i] != '\n'; }
    }
    var nl := "\n";
    assert Payload(verb, resourceType, resourceId, date) == v + nl + (t + nl + (resourceId + nl + (d + nl + ("" + nl + ""))));
    SplitAfterPiece("", "", '\n');
    SplitWithoutSeparator("", '\n');
    SplitAfterPiece(d, "" + nl + "", '\n');
    SplitAfterPiece(resourceId, d + nl + ("" + nl + ""), '\n');
    SplitAfterPiece(t, resourceId + nl + (d + nl + ("" + nl + "")), '\n');
    SplitAfterPiece(v, t + nl + (resourceId + nl + (d + nl + ("" + nl + ""))), '\n');
  }

  /** The header text before URL encoding: three `name=value` pairs joined by `&`. */
  function Header(keyType: string, tokenVersion: string, signature: string): (r: string)
    ensures |r| == |keyType| + |tokenVersion| + |signature| + 15
    ensures r[..5] == "type=" && r[5..5 + |keyType|] == keyType
    ensures r[|r| - |signature|..] == signature
  {
    "type=" + keyType + "&ver=" + tokenVersion + "&sig=" + signature
  }

  /** Reads key type, token version and signature back out of a header text. */
  function ParseHeader(h: string): Option<(string, string, string)> {
    var parts := Split(h, '&');
    if |parts| == 3 && |parts[0]| >= 5 && parts[0][..5] == "type="
       && |parts[1]| >= 4 && parts[1][..4] == "ver=" && |parts[2]| >= 4 && parts[2][..4] == "sig="
    then Some((parts[0][5..], parts[1][4..], parts[2][4..]))
    else None
  }

  /** The header loses nothing as long as no field holds an `&` (a Base64
      signature never does). */
  lemma HeaderRoundTrip(keyType: string, tokenVersion: string, signature: string)
    requires '&' !in keyType && '&' !in tokenVersion && '&' !in signature
    ensures ParseHeader(Header(keyType, tokenVersion, signature)) == Some((keyType, tokenVersion, signature))
  {
    var a, b, c := "type=" + keyType, "ver=" + tokenVersion, "sig=" + signature;
    assert '&' !in a && '&' !in b && '&' !in c;
    assert Header(keyType, tokenVersion, signature) == a + "&" + (b + "&" + c);
    SplitWithoutSeparator(c, '&');
    SplitAfterPiece(b, c, '&');
    SplitAfterPiece(a, b + "&" + c, '&');
    assert a[5..] == keyType && b[4..] == tokenVersion && c[4..] == signature;
  }

  // ---------------------------------------------------------------------------
  // Token

  /** The exceptions `generateToken` catches. */
  datatype CaughtException = InvalidKey | NoSuchAlgorithm | IllegalState | UnsupportedEncoding

  /** `generateToken` at the instant `now`. `sign(key, payload)` stands for the
      Base64-encoded HMAC-SHA256 of the payload under the Base64-decoded key and
      `urlEncode` for `URLEncoder.encode(_, "utf-8")`; a caught exception from
      either makes the result null. */
  function GenerateToken(
    verb: string, resourceType: string, resourceId: string, key: string, keyType: string, tokenVersion: string,
    now: ServerTime.DateTime,
    sign: (string, string) -> Result<string, CaughtException>,
    urlEncode: string -> Result<string, CaughtException>): (r: Option<string>)
    requires ServerTime.ValidDateTime(now)
    ensures
      var payload := Payload(verb, resourceType, resourceId, ServerTime.GetServerTime(now));
      && (sign(key, payload).Failure? ==> r == None)
      && (sign(key, payload).Success? ==>
            r == match urlEncode(Header(keyType, tokenVersion, sign(key, payload).value))
                 case Success(encoded) => Some(encoded)
                 case Failure(_) => None)
  {
    var date := ServerTime.GetServerTime(now);
    var payload := Payload(verb, resourceType, resourceId, date);
    match sign(key, payload)
    case Failure(_) => None
    case Success(signature) =>
      match urlEncode(Header(keyType, tokenVersion, signature))
      case Failure(_) => None
      case Success(authorization) => Some(authorization)
  }

  /** What gets signed, for any instant: the five payload fields, the date being
      the lower-cased server time. */
  lemma SignedPayloadFields(verb: string, resourceType: string, resourceId: string, now: ServerTime.DateTime)
    requires ServerTime.ValidDateTime(now)
    requires '\n' !in verb && '\n' !in resourceType && '\n' !in resourceId
    ensures Split(Payload(verb, resourceType, resourceId, ServerTime.GetServerTime(now)), '\n') ==
      [LowerCase(verb), LowerCase(resourceType), resourceId, LowerCase(ServerTime.GetServerTime(now)), "", ""]
  {
    PayloadFields(verb, resourceType, resourceId, ServerTime.GetServerTime(now));
  }
}
