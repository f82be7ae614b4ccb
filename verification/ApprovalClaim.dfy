/** Signed approval claims: prefix, base64url body and HMAC digest joined by dots. The keyed hash and
    the JSON decoder are parameters; HMAC (section 2 of RFC 2104) enters only as a function of secret
    and body. */
module ApprovalClaim {
  import opened Text
  import opened Codec

  const PREFIX := "vws1"
  const DOT := '.'

  datatype Payload = Payload(
    version: int, requestID: int, operationName: string, approvedBy: string, approvedAt: string, expiresAt: int)

  datatype Crypto = Crypto(mac: (string, string) -> seq<byte>, unmarshal: seq<byte> -> Option<Payload>)

  datatype Verdict = Accepted | Rejected(reason: Reason)

  datatype Reason =
    | NoSecret | EmptyClaim | Malformed | WrongPrefix | BadSignature
    | Undecodable | Unparsable | WrongVersion | WrongOperation | Expired

  // ---------- Canonical JSON ----------

  /** One member of the canonical object: key and literal. */
  datatype Pair = Pair(key: string, literal: string) {
    function Text(): string { "\"" + key + "\":" + literal }
  }

  /** The members in the order of their keys. */
  function Pairs(p: Payload): seq<Pair> {
    [Pair("at", Quote(p.approvedAt)), Pair("by", Quote(p.approvedBy)), Pair("exp", Decimal(p.expiresAt)),
     Pair("op", Quote(p.operationName)), Pair("rid", Decimal(p.requestID)), Pair("v", Decimal(p.version))]
  }

  /** The object from a comma on. */
  function Tail(pairs: seq<Pair>): string {
    if pairs == [] then "}" else "," + pairs[0].Text() + Tail(pairs[1..])
  }

  function Object(pairs: seq<Pair>): string {
    if pairs == [] then "{}" else "{" + pairs[0].Text() + Tail(pairs[1..])
  }

  function Canonical(p: Payload): string {
    Object(Pairs(p))
  }

  /** The loop of marshalCanonicalPayload: a comma before every member but the first. */
  method WriteObject(pairs: seq<Pair>) returns (buf: string)
    ensures buf == Object(pairs)
  {
    hide Pair.Text;
    buf := "{";
    for i := 0 to |pairs|
      invariant i == 0 ==> buf == "{"
      invariant i > 0 ==> buf + Tail(pairs[i..]) == Object(pairs)
    {
      ghost var before := buf;
      ghost var rest := Tail(pairs[i + 1..]);
      assert pairs[i..][1..] == pairs[i + 1..];
      assert pairs[i..][0] == pairs[i];
      if i > 0 {
        buf := buf + ",";
        assert buf + (pairs[i].Text() + rest) == before + ("," + pairs[i].Text() + rest);
      }
      ghost var comma := buf;
      buf := buf + pairs[i].Text();
      assert buf + rest == comma + (pairs[i].Text() + rest);
    }
    assert pairs[|pairs|..] == [];
    buf := buf + "}";
  }

  method MarshalCanonicalPayload(p: Payload) returns (buf: string)
    ensures buf == Canonical(p)
  {
    buf := WriteObject(Pairs(p));
  }

  /** The canonical text in full: keys ascending, no blanks. */
  lemma CanonicalText(p: Payload)
    ensures Canonical(p) ==
      "{\"at\":" + (Quote(p.approvedAt) + (",\"by\":" + (Quote(p.approvedBy) + (",\"exp\":" + (Decimal(p.expiresAt)
      + (",\"op\":" + (Quote(p.operationName) + (",\"rid\":" + (Decimal(p.requestID) + (",\"v\":"
      + (Decimal(p.version) + "}")))))))))))
  {
    hide Quote, Decimal, Pair.Text, Tail;
    var ps := Pairs(p);
    TailIsBrace(p);
    TailFrom(p, 1);
    TailFrom(p, 2);
    TailFrom(p, 3);
    TailFrom(p, 4);
    TailFrom(p, 5);
    Openings();
    MemberText(",", "v", Decimal(p.version), Tail(ps[6..]));
    MemberText(",", "rid", Decimal(p.requestID), Tail(ps[5..]));
    MemberText(",", "op", Quote(p.operationName), Tail(ps[4..]));
    MemberText(",", "exp", Decimal(p.expiresAt), Tail(ps[3..]));
    MemberText(",", "by", Quote(p.approvedBy), Tail(ps[2..]));
    MemberText("{", "at", Quote(p.approvedAt), Tail(ps[1..]));
  }

  lemma MemberText(open: string, key: string, literal: string, rest: string)
    ensures open + Pair(key, literal).Text() + rest == (open + "\"" + key + "\":") + (literal + rest)
  {
  }

  lemma Openings()
    ensures "{" + "\"" + "at" + "\":" == "{\"at\":" && "," + "\"" + "by" + "\":" == ",\"by\":"
    ensures "," + "\"" + "exp" + "\":" == ",\"exp\":" && "," + "\"" + "op" + "\":" == ",\"op\":"
    ensures "," + "\"" + "rid" + "\":" == ",\"rid\":" && "," + "\"" + "v" + "\":" == ",\"v\":"
  {
  }

  // ---------- Issue and Verify ----------

  function Digest(c: Crypto, secret: string, body: string): string {
    Hex(c.mac(secret, body))
  }

  function Issue(c: Crypto, secret: string, p: Payload): Option<string> {
    var key := Trim(secret);
    if key == "" then None
    else
      var body := Encode(Utf8(Canonical(p)));
      Some(PREFIX + "." + body + "." + Digest(c, key, body))
  }

  function DecodePayload(c: Crypto, body: string): (Option<Payload>, Reason) {
    var raw := Decode(body);
    if raw.None? then (None, Undecodable)
    else (c.unmarshal(raw.value), Unparsable)
  }

  function CheckPayload(p: Payload, operationName: string, now: int): Verdict {
    if p.version != 1 then Rejected(WrongVersion)
    else if Trim(p.operationName) != Trim(operationName) then Rejected(WrongOperation)
    else if now > p.expiresAt then Rejected(Expired)
    else Accepted
  }

  function CheckParts(c: Crypto, key: string, parts: seq<string>, operationName: string, now: int): Verdict {
    if |parts| != 3 then Rejected(Malformed)
    else if parts[0] != PREFIX then Rejected(WrongPrefix)
    else if Digest(c, key, parts[1]) != parts[2] then Rejected(BadSignature)
    else
      var (p, why) := DecodePayload(c, parts[1]);
      if p.None? then Rejected(why) else CheckPayload(p.value, operationName, now)
  }

  function Verify(c: Crypto, secret: string, claim: string, operationName: string, now: int): Verdict {
    if Trim(secret) == "" then Rejected(NoSecret)
    else if Trim(claim) == "" then Rejected(EmptyClaim)
    else CheckParts(c, Trim(secret), Split(Trim(claim), DOT), operationName, now)
  }

  // ---------- Round trip ----------

  /** The JSON decoder reads this payload back from its canonical form. */
  predicate ReadsBack(c: Crypto, p: Payload) {
    c.unmarshal(Utf8(Canonical(p))) == Some(p)
  }

  lemma ClaimParts(body: string, digest: string)
    requires DOT !in body && DOT !in digest
    ensures Split(PREFIX + "." + body + "." + digest, DOT) == [PREFIX, body, digest]
  {
    var claim := PREFIX + "." + body + "." + digest;
    assert claim == PREFIX + [DOT] + (body + [DOT] + digest);
    SplitHead(PREFIX, body + [DOT] + digest, DOT);
    SplitHead(body, digest, DOT);
    SplitHead(digest, "", DOT);
  }

  lemma ClaimTight(body: string, digest: string)
    requires forall x :: x in digest ==> x in "0123456789abcdef"
    ensures var claim := PREFIX + "." + body + "." + digest; Trim(claim) == claim && claim != ""
  {
    var claim := PREFIX + "." + body + "." + digest;
    assert claim[0] == 'v';
    if digest == "" {
      assert claim[|claim| - 1] == '.';
    } else {
      assert claim[|claim| - 1] == digest[|digest| - 1] && digest[|digest| - 1] in digest;
    }
    TrimTight(claim);
  }

  /** A claim issued under a secret verifies under it exactly when the payload is of version 1, the
      trimmed operation names agree and the claim has not expired. */
  lemma ClaimRoundTrip(c: Crypto, secret: string, secret': string, p: Payload, operationName: string, now: int)
    requires Trim(secret) != "" && Trim(secret') == Trim(secret)
    ensures Issue(c, secret, p).Some?
    ensures ReadsBack(c, p) ==>
      && Verify(c, secret', Issue(c, secret, p).value, operationName, now) == CheckPayload(p, operationName, now)
      && (Verify(c, secret', Issue(c, secret, p).value, operationName, now).Accepted? <==>
            p.version == 1 && Trim(p.operationName) == Trim(operationName) && now <= p.expiresAt)
  {
    hide Trim, Split, Canonical, Utf8, Encode, Decode;
    var raw := Utf8(Canonical(p));
    var body := Encode(raw);
    var digest := Digest(c, Trim(secret), body);
    Base64RoundTrip(raw);
    assert DOT !in digest by { assert forall x :: x in digest ==> x in "0123456789abcdef"; }
    ClaimParts(body, digest);
    ClaimTight(body, digest);
    assert ReadsBack(c, p) ==> DecodePayload(c, body).0 == Some(p);
  }

  /** Whatever verifies carries, under the prefix, a body signed with the secret whose payload is of
      version 1, names the operation and has not expired. */
  ghost predicate Genuine(c: Crypto, secret: string, claim: string, operationName: string, now: int, body: string,
      p: Payload) {
    && Split(Trim(claim), DOT) == [PREFIX, body, Digest(c, Trim(secret), body)]
    && Decode(body).Some? && c.unmarshal(Decode(body).value) == Some(p)
    && p.version == 1 && Trim(p.operationName) == Trim(operationName) && now <= p.expiresAt
  }

  lemma GenuineVerifies(c: Crypto, secret: string, claim: string, operationName: string, now: int, body: string,
      p: Payload)
    requires Trim(secret) != "" && Genuine(c, secret, claim, operationName, now, body, p)
    ensures Verify(c, secret, claim, operationName, now).Accepted?
  {
    EmptyHasOnePart();
    hide Trim, Split, Decode;
    assert Trim(claim) != "";
    var parts := Split(Trim(claim), DOT);
    assert parts[0] == PREFIX && parts[1] == body && parts[2] == Digest(c, Trim(secret), body);
  }

  lemma VerifiedIsGenuine(c: Crypto, secret: string, claim: string, operationName: string, now: int)
    ensures Verify(c, secret, claim, operationName, now).Accepted? <==>
      && Trim(secret) != ""
      && exists body, p :: Genuine(c, secret, claim, operationName, now, body, p)
  {
    hide Trim, Split, Decode;
    if Verify(c, secret, claim, operationName, now).Accepted? {
      var parts := Split(Trim(claim), DOT);
      assert parts == [parts[0], parts[1], parts[2]];
      assert Genuine(c, secret, claim, operationName, now, parts[1], DecodePayload(c, parts[1]).0.value);
    }
    forall body, p | Trim(secret) != "" && Genuine(c, secret, claim, operationName, now, body, p)
      ensures Verify(c, secret, claim, operationName, now).Accepted?
    {
      GenuineVerifies(c, secret, claim, operationName, now, body, p);
    }
  }

  /** A claim that is accepted has three parts: the prefix vws1, the body, and the hexadecimal text of the
      message authentication code of that body under the trimmed secret. */
  lemma AcceptedCarriesMac(c: Crypto, secret: string, claim: string, operationName: string, now: int)
    ensures Verify(c, secret, claim, operationName, now).Accepted? ==>
      var parts := Split(Trim(claim), DOT);
      |parts| == 3 && parts[0] == "vws1" && FromHex(parts[2]) == Some(c.mac(Trim(secret), parts[1]))
  {
    hide Trim, Split, Decode, FromHex, Hex;
    if Verify(c, secret, claim, operationName, now).Accepted? {
      HexRoundTrip(c.mac(Trim(secret), Split(Trim(claim), DOT)[1]));
    }
  }

  /** An issued claim, in full. */
  lemma IssuedText(c: Crypto, secret: string, p: Payload)
    ensures Issue(c, secret, p) ==
      if Trim(secret) == "" then None
      else Some("vws1." + Encode(Utf8(Canonical(p))) + "." + Hex(c.mac(Trim(secret), Encode(Utf8(Canonical(p))))))
  {
    hide Trim, Canonical, Utf8, Encode, Hex;
    assert PREFIX + "." == "vws1.";
  }

  lemma EmptyHasOnePart()
    ensures |Split("", DOT)| == 1
  {
  }

  // ---------- A decoder for the canonical form ----------

  function Expect(t: string, literal: string): Option<string> {
    if literal <= t then Some(t[|literal|..]) else None
  }

  /** A string member whose key and opening quote are `head`. */
  function ReadText(t: string, head: string): Option<(string, string)> {
    var rest := Expect(t, head);
    if rest.None? then None else ReadString(rest.value)
  }

  function ReadNumber(t: string, head: string): Option<(int, string)> {
    var rest := Expect(t, head);
    if rest.None? then None else ReadInt(rest.value)
  }

  function ParseCanonical(t: string): Option<Payload> {
    var at := ReadText(t, "{\"at\":\"");
    if at.None? then None else
    var by_ := ReadText(at.value.1, ",\"by\":\"");
    if by_.None? then None else
    var exp := ReadNumber(by_.value.1, ",\"exp\":");
    if exp.None? then None else
    var op := ReadText(exp.value.1, ",\"op\":\"");
    if op.None? then None else
    var rid := ReadNumber(op.value.1, ",\"rid\":");
    if rid.None? then None else
    var v := ReadNumber(rid.value.1, ",\"v\":");
    if v.None? || v.value.1 != "}" then None
    else Some(Payload(v.value.0, rid.value.0, op.value.0, by_.value.0, at.value.0, exp.value.0))
  }

  function ParseBytes(bs: seq<byte>): Option<Payload> {
    var t := FromUtf8(bs);
    if t.None? then None else ParseCanonical(t.value)
  }

  lemma ReadTextBack(open: string, key: string, s: string, rest: string)
    ensures ReadText(open + Pair(key, Quote(s)).Text() + rest, open + "\"" + key + "\":\"") == Some((s, rest))
  {
    hide ReadString, Escape;
    var head := open + "\"" + key + "\":\"";
    var body := Escape(s) + "\"" + rest;
    var t := open + Pair(key, Quote(s)).Text() + rest;
    assert t == head + body;
    assert t[|head|..] == body;
    ReadEscaped(s, rest);
  }

  lemma ReadNumberBack(key: string, n: int, rest: string)
    requires NoDigitFirst(rest)
    ensures ReadNumber("," + Pair(key, Decimal(n)).Text() + rest, "," + "\"" + key + "\":") == Some((n, rest))
  {
    hide ReadInt, Decimal;
    var head := "," + "\"" + key + "\":";
    var body := Decimal(n) + rest;
    var t := "," + Pair(key, Decimal(n)).Text() + rest;
    assert t == head + body;
    assert t[|head|..] == body;
    ReadIntBack(n, rest);
  }

  lemma TailFrom(p: Payload, i: nat)
    requires i < 6
    ensures Tail(Pairs(p)[i..]) == "," + Pairs(p)[i].Text() + Tail(Pairs(p)[i + 1..])
    ensures NoDigitFirst(Tail(Pairs(p)[i + 1..]))
  {
    hide Pair.Text;
    assert Pairs(p)[i..][1..] == Pairs(p)[i + 1..];
    if i < 5 {
      assert Pairs(p)[i + 1..][0] == Pairs(p)[i + 1];
    }
  }

  lemma ParseBack(p: Payload)
    ensures ParseCanonical(Canonical(p)) == Some(p)
  {
    hide ReadText, ReadNumber, Pair.Text, Tail, Decimal, Quote;
    var ps := Pairs(p);
    TailFrom(p, 1);
    TailFrom(p, 2);
    TailFrom(p, 3);
    TailFrom(p, 4);
    TailFrom(p, 5);
    TailIsBrace(p);
    ReadTextBack("{", "at", p.approvedAt, Tail(ps[1..]));
    ReadTextBack(",", "by", p.approvedBy, Tail(ps[2..]));
    ReadNumberBack("exp", p.expiresAt, Tail(ps[3..]));
    ReadTextBack(",", "op", p.operationName, Tail(ps[4..]));
    ReadNumberBack("rid", p.requestID, Tail(ps[5..]));
    ReadNumberBack("v", p.version, Tail(ps[6..]));
    Heads();
  }

  lemma TailIsBrace(p: Payload)
    ensures Tail(Pairs(p)[6..]) == "}"
  {
  }

  lemma Heads()
    ensures "{" + "\"" + "at" + "\":\"" == "{\"at\":\""
    ensures "," + "\"" + "by" + "\":\"" == ",\"by\":\""
    ensures "," + "\"" + "exp" + "\":" == ",\"exp\":"
    ensures "," + "\"" + "op" + "\":\"" == ",\"op\":\""
    ensures "," + "\"" + "rid" + "\":" == ",\"rid\":"
    ensures "," + "\"" + "v" + "\":" == ",\"v\":"
  {
  }

  /** The canonical form determines the payload, so decoders that read back every payload exist. */
  lemma ReferenceDecoderFaithful(mac: (string, string) -> seq<byte>)
    ensures forall p :: ReadsBack(Crypto(mac, ParseBytes), p)
  {
    hide Canonical, ParseCanonical;
    forall p: Payload
      ensures ParseBytes(Utf8(Canonical(p))) == Some(p)
    {
      Utf8RoundTrip(Canonical(p));
      ParseBack(p);
    }
  }
}
