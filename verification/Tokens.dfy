// Signed tokens: base64url(uid).base64url(expiry).base64url(mac).
module Tokens {
  import opened Wrappers
  import opened Codecs

  /** The message authentication code, keyed with the secret; any function that yields some bytes. */
  type Mac = string -> string

  ghost predicate YieldsBytes(mac: Mac) {
    forall x :: IsBytes(mac(x)) && mac(x) != []
  }

  datatype Parsed = Ok(uid: string) | Invalid | Expired

  ghost function SignPayload(mac: Mac, payload: string): string
    requires YieldsBytes(mac)
  {
    Encode(mac(payload))
  }

  ghost function Payload(uid: string, expiry: int): string
    requires IsBytes(uid) && IsInt64(expiry)
  {
    ParseOfFormat(expiry);
    Encode(uid) + "." + Encode(FormatInt(expiry))
  }

  /** None: the uid is empty. */
  ghost function Sign(mac: Mac, uid: string, expiry: int): Option<string>
    requires YieldsBytes(mac) && IsBytes(uid) && IsInt64(expiry)
  {
    if uid == "" then None
    else
      var payload := Payload(uid, expiry);
      EncodeIsPart(mac(payload));
      Some(payload + "." + Encode(SignPayload(mac, payload)))
  }

  ghost function Parse(mac: Mac, signed: string, now: int): Parsed
    requires YieldsBytes(mac)
  {
    IndexOfMeans(signed, '.');
    var p1 := IndexOf(signed, '.');
    if p1 < 0 then Invalid
    else
      var behind := signed[p1 + 1..];
      IndexOfMeans(behind, '.');
      var p2 := IndexOf(behind, '.');
      if p2 < 0 then Invalid else ParseParts(mac, signed[..p1], behind[..p2], behind[p2 + 1..], now)
  }

  ghost function ParseParts(mac: Mac, uid: string, expiry: string, signature: string, now: int): Parsed
    requires YieldsBytes(mac)
  {
    if uid == "" || expiry == "" || signature == "" then Invalid
    else if Decode(signature) != Some(SignPayload(mac, uid + "." + expiry)) then Invalid
    else if Decode(uid) == None || Decode(expiry) == None then Invalid
    else
      var e := ParseInt(Decode(expiry).value);
      if e == None then Invalid
      else if now >= e.value then Expired
      else Ok(Decode(uid).value)
  }

  lemma ParseOfParts(mac: Mac, a: string, b: string, c: string, now: int)
    requires YieldsBytes(mac) && '.' !in a && '.' !in b
    ensures Parse(mac, a + "." + b + "." + c, now) == ParseParts(mac, a, b, c, now)
  {
    var s := a + "." + b + "." + c;
    assert s == a + ['.'] + (b + ['.'] + c);
    SplitAt(a, b + ['.'] + c, '.');
    SplitAt(b, c, '.');
  }

  /** The three parts of a token, and what they decode to. */
  lemma {:induction false} PartsOfSign(mac: Mac, uid: string, expiry: int)
    requires YieldsBytes(mac) && IsBytes(uid) && IsInt64(expiry) && uid != ""
    ensures IsBytes(FormatInt(expiry))
    ensures var a, b := Encode(uid), Encode(FormatInt(expiry));
      var sig := SignPayload(mac, a + "." + b);
      && IsBytes(sig)
      && Sign(mac, uid, expiry) == Some(a + "." + b + "." + Encode(sig))
      && '.' !in a && '.' !in b && a != "" && b != "" && Encode(sig) != ""
      && Decode(a) == Some(uid) && Decode(b) == Some(FormatInt(expiry)) && Decode(Encode(sig)) == Some(sig)
      && ParseInt(FormatInt(expiry)) == Some(expiry)
  {
    ParseOfFormat(expiry);
    var b := FormatInt(expiry);
    hide FormatInt, ParseInt, Decode;
    var sig := SignPayload(mac, Encode(uid) + "." + Encode(b));
    EncodeIsPart(mac(Encode(uid) + "." + Encode(b)));
    EncodeIsPart(uid);
    EncodeIsPart(b);
    EncodeIsPart(sig);
    DecodeOfEncode(uid);
    DecodeOfEncode(b);
    DecodeOfEncode(sig);
    hide Encode;
  }

  /** A token is good for its user until it expires, and is told apart from an invalid one after. */
  lemma ParseOfSign(mac: Mac, uid: string, expiry: int, now: int)
    requires YieldsBytes(mac) && IsBytes(uid) && IsInt64(expiry) && uid != ""
    ensures Sign(mac, uid, expiry).Some?
    ensures Parse(mac, Sign(mac, uid, expiry).value, now) == if now < expiry then Ok(uid) else Expired
  {
    PartsOfSign(mac, uid, expiry);
    hide Encode, Decode, Parse, Sign, SignPayload, ParseInt, FormatInt, IsBytes, YieldsBytes;
    var a, b := Encode(uid), Encode(FormatInt(expiry));
    ParseOfParts(mac, a, b, Encode(SignPayload(mac, a + "." + b)), now);
  }

  /** There is no token for nobody, and none that names nobody is accepted. */
  lemma NobodyIsRefused(mac: Mac, uid: string, expiry: int, signed: string, now: int)
    requires YieldsBytes(mac) && IsBytes(uid) && IsInt64(expiry)
    ensures Sign(mac, uid, expiry) == None <==> uid == ""
    ensures Parse(mac, "." + signed, now) == Invalid
  {
    hide Encode, SignPayload, Decode, ParseInt;
    SplitAt("", signed, '.');
    assert "" + ['.'] + signed == "." + signed;
  }

  lemma CutAt(s: string, p: nat)
    requires p < |s|
    ensures s == s[..p] + ([s[p]] + s[p + 1..])
  {
  }

  lemma {:induction false} Cut(s: string)
    requires IndexOf(s, '.') >= 0
    ensures var p := IndexOf(s, '.');
      && p < |s| && s == s[..p] + ("." + s[p + 1..]) && '.' !in s[..p]
  {
    IndexOfMeans(s, '.');
    hide IndexOf;
    assert '.' in s;
    CutAt(s, IndexOf(s, '.'));
  }

  lemma JoinBack(a: string, b: string, c: string)
    ensures a + ("." + (b + ("." + c))) == a + "." + b + "." + c
  {
  }

  /** Text that is three parts of which the last decodes to the signature of the first two. */
  ghost predicate IsSigned(mac: Mac, s: string, a: string, b: string, c: string)
    requires YieldsBytes(mac)
  {
    s == a + "." + b + "." + c && '.' !in a && '.' !in b && Decode(c) == Some(SignPayload(mac, a + "." + b))
  }

  lemma ParseSplits(mac: Mac, signed: string, now: int) returns (a: string, b: string, c: string)
    requires YieldsBytes(mac) && Parse(mac, signed, now) != Invalid
    ensures signed == a + "." + b + "." + c && '.' !in a && '.' !in b
    ensures Parse(mac, signed, now) == ParseParts(mac, a, b, c, now)
  {
    hide ParseParts, IndexOf, YieldsBytes;
    var p1 := IndexOf(signed, '.');
    Cut(signed);
    a := signed[..p1];
    var behind := signed[p1 + 1..];
    var p2 := IndexOf(behind, '.');
    Cut(behind);
    b, c := behind[..p2], behind[p2 + 1..];
    JoinBack(a, b, c);
  }

  lemma PartsAreSigned(mac: Mac, a: string, b: string, c: string, now: int)
    requires YieldsBytes(mac) && ParseParts(mac, a, b, c, now) != Invalid
    ensures Decode(c) == Some(SignPayload(mac, a + "." + b))
    ensures ParseParts(mac, a, b, c, now).Ok? ==> Decode(a) == Some(ParseParts(mac, a, b, c, now).uid)
  {
    hide Decode, SignPayload, ParseInt;
  }

  /** Whatever is accepted, or found expired, is signed, and the uid is what its first part decodes
      to. */
  lemma AcceptedIsSigned(mac: Mac, signed: string, now: int)
    requires YieldsBytes(mac) && Parse(mac, signed, now) != Invalid
    ensures exists a, b, c ::
      IsSigned(mac, signed, a, b, c) &&
      (Parse(mac, signed, now).Ok? ==> Decode(a) == Some(Parse(mac, signed, now).uid))
  {
    hide Decode, SignPayload, Parse, ParseParts;
    var a, b, c := ParseSplits(mac, signed, now);
    PartsAreSigned(mac, a, b, c, now);
    assert IsSigned(mac, signed, a, b, c);
  }

  lemma LongerLast(a: string, b: string, c: string, more: string)
    ensures a + "." + b + "." + c + more == a + "." + b + "." + (c + more)
  {
  }

  /** A token can be written in more than one way. */
  lemma TokensAreNotUnique(mac: Mac, uid: string, expiry: int, now: int)
    requires YieldsBytes(mac) && IsBytes(uid) && IsInt64(expiry) && uid != "" && now < expiry
    ensures Sign(mac, uid, expiry).Some?
    ensures Parse(mac, Sign(mac, uid, expiry).value + "\n", now) == Ok(uid)
  {
    PartsOfSign(mac, uid, expiry);
    hide Encode, Decode, Parse, Sign, SignPayload, ParseInt, FormatInt, IsBytes, YieldsBytes;
    var a, b := Encode(uid), Encode(FormatInt(expiry));
    var c := Encode(SignPayload(mac, a + "." + b));
    ParseOfParts(mac, a, b, c + "\n", now);
    LongerLast(a, b, c, "\n");
    FeedIsSkipped(c);
  }
}
