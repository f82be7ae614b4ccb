/** The encodings under an approval claim: UTF-8, unpadded base64url (sections 3.2 and 5 of RFC 4648),
    and JSON string and integer literals as encoding/json writes them. */
module Codec {
  import opened Text

  // ---------- Unpadded base64url ----------

  type sextet = s: int | 0 <= s < 64

  function Letter(s: sextet): char {
    if s < 26 then 'A' + s as char
    else if s < 52 then 'a' + (s - 26) as char
    else if s < 62 then '0' + (s - 52) as char
    else if s == 62 then '-' else '_'
  }

  function Value(c: char): Option<sextet> {
    if 'A' <= c <= 'Z' then Some((c - 'A') as int)
    else if 'a' <= c <= 'z' then Some((c - 'a') as int + 26)
    else if '0' <= c <= '9' then Some((c - '0') as int + 52)
    else if c == '-' then Some(62)
    else if c == '_' then Some(63)
    else None
  }

  lemma LetterValue(s: sextet)
    ensures Value(Letter(s)) == Some(s)
    ensures Letter(s) != '.' && Letter(s) != '\r' && Letter(s) != '\n'
  {
  }

  function Encode(bytes: seq<byte>): string {
    if |bytes| == 0 then ""
    else if |bytes| == 1 then
      [Letter(bytes[0] / 4), Letter((bytes[0] % 4) * 16)]
    else if |bytes| == 2 then
      [Letter(bytes[0] / 4), Letter((bytes[0] % 4) * 16 + bytes[1] / 16), Letter((bytes[1] % 16) * 4)]
    else
      [Letter(bytes[0] / 4), Letter((bytes[0] % 4) * 16 + bytes[1] / 16),
       Letter((bytes[1] % 16) * 4 + bytes[2] / 64), Letter(bytes[2] % 64)] + Encode(bytes[3..])
  }

  /** The decoder skips line breaks. */
  function Unbroken(s: string): string {
    if s == "" then ""
    else if s[0] == '\r' || s[0] == '\n' then Unbroken(s[1..])
    else [s[0]] + Unbroken(s[1..])
  }

  function DecodeLetters(s: string): Option<seq<byte>> {
    if |s| == 0 then Some([])
    else if |s| == 1 then None
    else
      var a, b := Value(s[0]), Value(s[1]);
      if a.None? || b.None? then None
      else
        var first: byte := a.value * 4 + b.value / 16;
        if |s| == 2 then Some([first])
        else
          var c := Value(s[2]);
          if c.None? then None
          else
            var second: byte := (b.value % 16) * 16 + c.value / 4;
            if |s| == 3 then Some([first, second])
            else
              var d, rest := Value(s[3]), DecodeLetters(s[4..]);
              if d.None? || rest.None? then None
              else
                var third: byte := (c.value % 4) * 64 + d.value;
                Some([first, second, third] + rest.value)
  }

  function Decode(s: string): Option<seq<byte>> {
    DecodeLetters(Unbroken(s))
  }

  predicate Letters(s: string) {
    forall i :: 0 <= i < |s| ==> Value(s[i]).Some?
  }

  lemma {:induction false} EncodeLetters(bytes: seq<byte>)
    ensures Letters(Encode(bytes))
  {
    hide Value, Letter;
    if |bytes| == 1 {
      LetterValue(bytes[0] / 4);
      LetterValue((bytes[0] % 4) * 16);
    } else if |bytes| == 2 {
      LetterValue(bytes[0] / 4);
      LetterValue((bytes[0] % 4) * 16 + bytes[1] / 16);
      LetterValue((bytes[1] % 16) * 4);
    } else if |bytes| > 2 {
      LetterValue(bytes[0] / 4);
      LetterValue((bytes[0] % 4) * 16 + bytes[1] / 16);
      LetterValue((bytes[1] % 16) * 4 + bytes[2] / 64);
      LetterValue(bytes[2] % 64);
      EncodeLetters(bytes[3..]);
    }
  }

  lemma {:induction false} UnbrokenLetters(s: string)
    requires Letters(s)
    ensures Unbroken(s) == s
  {
    if s != "" {
      assert Value(s[0]).Some?;
      assert Letters(s[1..]);
      UnbrokenLetters(s[1..]);
    }
  }

  lemma {:induction false} DecodeEncode(bytes: seq<byte>)
    ensures DecodeLetters(Encode(bytes)) == Some(bytes)
  {
    hide Value, Letter;
    if |bytes| == 1 {
      LetterValue(bytes[0] / 4);
      LetterValue((bytes[0] % 4) * 16);
      assert bytes == [bytes[0]];
    } else if |bytes| == 2 {
      LetterValue(bytes[0] / 4);
      LetterValue((bytes[0] % 4) * 16 + bytes[1] / 16);
      LetterValue((bytes[1] % 16) * 4);
      assert bytes == [bytes[0], bytes[1]];
    } else if |bytes| > 2 {
      var s := Encode(bytes);
      LetterValue(bytes[0] / 4);
      LetterValue((bytes[0] % 4) * 16 + bytes[1] / 16);
      LetterValue((bytes[1] % 16) * 4 + bytes[2] / 64);
      LetterValue(bytes[2] % 64);
      assert s[4..] == Encode(bytes[3..]);
      DecodeEncode(bytes[3..]);
      assert bytes == [bytes[0], bytes[1], bytes[2]] + bytes[3..];
    }
  }

  /** base64url decodes what it encoded, and the text holds no dot. */
  lemma Base64RoundTrip(bytes: seq<byte>)
    ensures Decode(Encode(bytes)) == Some(bytes)
    ensures '.' !in Encode(bytes)
  {
    EncodeLetters(bytes);
    UnbrokenLetters(Encode(bytes));
    DecodeEncode(bytes);
    assert Value('.').None?;
  }

  /** The number that a text of letters stands for, six bits a letter. */
  function Bits6(s: string): nat
    requires Letters(s)
  {
    if s == "" then 0 else 64 * Bits6(s[..|s| - 1]) + Value(s[|s| - 1]).value
  }

  lemma Bits6Snoc(s: string, v: sextet)
    requires Letters(s)
    ensures Letters(s + [Letter(v)]) && Bits6(s + [Letter(v)]) == 64 * Bits6(s) + v
  {
    LetterValue(v);
    assert (s + [Letter(v)])[..|s|] == s;
    hide Value, Letter;
  }

  /** Three bytes become four letters with the same twenty-four bits, high bits first; of one or two bytes
      that are left over the missing low bits are zero. */
  lemma EncodedBits(bytes: seq<byte>)
    ensures |bytes| >= 3 ==>
      var s := Encode(bytes);
      && |s| >= 4 && s[4..] == Encode(bytes[3..]) && Letters(s[..4])
      && Bits6(s[..4]) == 65536 * (bytes[0] as int) + 256 * (bytes[1] as int) + bytes[2]
    ensures |bytes| == 2 ==>
      && |Encode(bytes)| == 3 && Letters(Encode(bytes))
      && Bits6(Encode(bytes)) == 1024 * (bytes[0] as int) + 4 * (bytes[1] as int)
    ensures |bytes| == 1 ==>
      |Encode(bytes)| == 2 && Letters(Encode(bytes)) && Bits6(Encode(bytes)) == 16 * (bytes[0] as int)
    ensures Encode([]) == ""
  {
    hide Value, Letter;
    if |bytes| >= 3 {
      ThreeBytes(bytes[0], bytes[1], bytes[2]);
      var four := [Letter(bytes[0] / 4), Letter((bytes[0] % 4) * 16 + bytes[1] / 16),
        Letter((bytes[1] % 16) * 4 + bytes[2] / 64), Letter(bytes[2] % 64)];
      assert Encode(bytes) == four + Encode(bytes[3..]);
      assert Encode(bytes)[..4] == four;
    } else if |bytes| == 2 {
      TwoLetters(bytes[0] / 4, (bytes[0] % 4) * 16 + bytes[1] / 16);
      var two := [Letter(bytes[0] / 4), Letter((bytes[0] % 4) * 16 + bytes[1] / 16)];
      Bits6Snoc(two, (bytes[1] % 16) * 4);
      assert Encode(bytes) == two + [Letter((bytes[1] % 16) * 4)];
    } else if |bytes| == 1 {
      TwoLetters(bytes[0] / 4, (bytes[0] % 4) * 16);
    }
  }

  lemma TwoLetters(a: sextet, b: sextet)
    ensures Letters([Letter(a), Letter(b)]) && Bits6([Letter(a), Letter(b)]) == 64 * a + b
  {
    Bits6Snoc("", a);
    Bits6Snoc([Letter(a)], b);
    hide Value, Letter, Bits6;
    assert "" + [Letter(a)] == [Letter(a)] && [Letter(a)] + [Letter(b)] == [Letter(a), Letter(b)];
    assert Bits6("") == 0 by { NoBits(); }
  }

  lemma NoBits()
    ensures Letters("") && Bits6("") == 0
  {
  }

  lemma ThreeBytes(x: byte, y: byte, z: byte)
    ensures var s := [Letter(x / 4), Letter((x % 4) * 16 + y / 16), Letter((y % 16) * 4 + z / 64), Letter(z % 64)];
      Letters(s) && Bits6(s) == 65536 * (x as int) + 256 * (y as int) + z
  {
    hide Value, Letter, Bits6;
    var a, b, c, d := x / 4, (x % 4) * 16 + y / 16, (y % 16) * 4 + z / 64, z % 64;
    TwoLetters(a, b);
    Bits6Snoc([Letter(a), Letter(b)], c);
    assert [Letter(a), Letter(b)] + [Letter(c)] == [Letter(a), Letter(b), Letter(c)];
    Bits6Snoc([Letter(a), Letter(b), Letter(c)], d);
    assert [Letter(a), Letter(b), Letter(c)] + [Letter(d)] == [Letter(a), Letter(b), Letter(c), Letter(d)];
  }

  // ---------- UTF-8 ----------

  function Utf8Char(c: char): (bs: seq<byte>)
    ensures 1 <= |bs| <= 4
  {
    var n := c as int;
    if n < 0x80 then [n]
    else if n < 0x800 then [0xC0 + n / 64, 0x80 + n % 64]
    else if n < 0x10000 then [0xE0 + n / 64 / 64, 0x80 + n / 64 % 64, 0x80 + n % 64]
    else [0xF0 + n / 64 / 64 / 64, 0x80 + n / 64 / 64 % 64, 0x80 + n / 64 % 64, 0x80 + n % 64]
  }

  function Utf8(s: string): seq<byte> {
    if s == "" then [] else Utf8Char(s[0]) + Utf8(s[1..])
  }

  predicate Scalar(n: int) {
    0 <= n < 0xD800 || 0xE000 <= n < 0x110000
  }

  /** The length a first byte announces, 0 when it announces none. */
  function Announced(b: byte): nat {
    if b < 0x80 then 1 else if b < 0xC0 then 0 else if b < 0xE0 then 2 else if b < 0xF0 then 3 else 4
  }

  /** Six more bits. */
  function Bits(high: int, low: int): int {
    high * 64 + low
  }

  function CodePoint(bs: seq<byte>): int
    requires bs != [] && |bs| == Announced(bs[0])
  {
    if |bs| == 1 then bs[0]
    else if |bs| == 2 then Bits(Bits(0, bs[0] as int - 0xC0), bs[1] as int - 0x80)
    else if |bs| == 3 then Bits(Bits(bs[0] as int - 0xE0, bs[1] as int - 0x80), bs[2] as int - 0x80)
    else if |bs| == 4 then Bits(Bits(Bits(bs[0] as int - 0xF0, bs[1] as int - 0x80), bs[2] as int - 0x80),
      bs[3] as int - 0x80)
    else -1
  }

  function FromUtf8(bs: seq<byte>): Option<string> {
    if bs == [] then Some("")
    else
      var n := Announced(bs[0]);
      if n == 0 || n > |bs| || !Scalar(CodePoint(bs[..n])) then None
      else
        var rest := FromUtf8(bs[n..]);
        if rest.None? then None else Some([CodePoint(bs[..n]) as char] + rest.value)
  }

  lemma Utf8CharBack(c: char)
    ensures var bs := Utf8Char(c); Announced(bs[0]) == |bs| && CodePoint(bs) == c as int
  {
    hide Bits;
    var n := c as int;
    assert Bits(0, n) == n by { BitsBack(n); }
    BitsBack(n);
    BitsBack(n / 64);
    BitsBack(n / 64 / 64);
  }

  lemma BitsBack(n: int)
    requires n >= 0
    ensures Bits(n / 64, n % 64) == n && Bits(0, n) == n
  {
  }

  lemma {:induction false} Utf8RoundTrip(s: string)
    ensures FromUtf8(Utf8(s)) == Some(s)
  {
    hide Utf8Char, CodePoint, Announced;
    if s != "" {
      var bs, c := Utf8(s), Utf8Char(s[0]);
      Utf8CharBack(s[0]);
      assert bs[0] == c[0] && bs[..|c|] == c && bs[|c|..] == Utf8(s[1..]);
      Utf8RoundTrip(s[1..]);
      assert s == [s[0]] + s[1..];
    }
  }

  // ---------- JSON literals ----------

  /** A character inside a JSON string, with the HTML-safe escapes encoding/json writes by default. */
  function EscapeChar(c: char): string {
    if c == '"' then "\\\""
    else if c == '\\' then "\\\\"
    else if c == '\U{8}' then "\\b"
    else if c == '\U{C}' then "\\f"
    else if c == '\n' then "\\n"
    else if c == '\r' then "\\r"
    else if c == '\t' then "\\t"
    else if c < ' ' || c == '<' || c == '>' || c == '&' || c == '\U{2028}' || c == '\U{2029}' then
      "\\u" + Hex4(c as int)
    else [c]
  }

  function Hex4(n: int): (s: string)
    requires 0 <= n < 0x10000
    ensures |s| == 4
  {
    [Digit(n / 16 / 16 / 16), Digit(n / 16 / 16 % 16), Digit(n / 16 % 16), Digit(n % 16)]
  }

  /** Four more bits. */
  function Nibble(high: int, low: int): int {
    high * 16 + low
  }

  lemma NibbleBack(n: int)
    ensures Nibble(n / 16, n % 16) == n
  {
  }

  function FromHex4(s: string): Option<int>
    requires |s| == 4
  {
    var a, b, c, d := HexValue(s[0]), HexValue(s[1]), HexValue(s[2]), HexValue(s[3]);
    if a.None? || b.None? || c.None? || d.None? then None
    else Some(Nibble(Nibble(Nibble(a.value, b.value), c.value), d.value))
  }

  function Escape(s: string): string {
    if s == "" then "" else EscapeChar(s[0]) + Escape(s[1..])
  }

  /** Nothing that is escaped is left bare: control characters, the characters that matter to HTML and the
      two line separators never occur in the text. */
  lemma {:induction false} EscapedSafe(s: string)
    ensures AllPlain(Escape(s))
  {
    hide EscapeChar, Plain;
    if s != "" {
      EscapedSafe(s[1..]);
      EscapedCharSafe(s[0]);
    }
  }

  predicate Plain(c: char) {
    c >= ' ' && c != '<' && c != '>' && c != '&' && c != '\U{2028}' && c != '\U{2029}'
  }

  predicate AllPlain(s: string) {
    forall i :: 0 <= i < |s| ==> Plain(s[i])
  }

  lemma EscapedCharSafe(c: char)
    ensures AllPlain(EscapeChar(c))
  {
    hide Digit;
    if |EscapeChar(c)| == 6 { Hex4Plain(c as int); }
  }

  lemma Hex4Plain(n: int)
    requires 0 <= n < 0x10000
    ensures AllPlain(Hex4(n))
  {
    DigitPlain(n / 16 / 16 / 16);
    DigitPlain(n / 16 / 16 % 16);
    DigitPlain(n / 16 % 16);
    DigitPlain(n % 16);
    hide Digit, Plain;
  }

  lemma DigitPlain(d: nat)
    requires d < 16
    ensures Plain(Digit(d))
  {
    assert forall c :: c in "0123456789abcdef" ==> Plain(c);
  }

  function Quote(s: string): string {
    "\"" + Escape(s) + "\""
  }

  /** The character a one-letter escape stands for. */
  function Short(c: char): Option<char> {
    if c == '"' then Some('"')
    else if c == '\\' then Some('\\')
    else if c == '/' then Some('/')
    else if c == 'b' then Some('\U{8}')
    else if c == 'f' then Some('\U{C}')
    else if c == 'n' then Some('\n')
    else if c == 'r' then Some('\r')
    else if c == 't' then Some('\t')
    else None
  }

  /** One character of a string literal and what follows it. */
  function ReadChar(t: string): Option<(char, string)> {
    if t == "" || t[0] == '"' then None
    else if t[0] != '\\' then Some((t[0], t[1..]))
    else if |t| < 2 then None
    else if t[1] == 'u' then
      if |t| < 6 || FromHex4(t[2..6]).None? || !Scalar(FromHex4(t[2..6]).value) then None
      else Some((FromHex4(t[2..6]).value as char, t[6..]))
    else if Short(t[1]).None? then None
    else Some((Short(t[1]).value, t[2..]))
  }

  lemma ReadCharShrinks(t: string)
    ensures ReadChar(t).Some? ==> |ReadChar(t).value.1| < |t|
  {
  }

  /** The rest of a string literal whose opening quote was read. */
  function ReadString(t: string): Option<(string, string)>
    decreases |t|
  {
    if t != "" && t[0] == '"' then Some(("", t[1..]))
    else
      var c := ReadChar(t);
      if c.None? then None
      else
        ReadCharShrinks(t);
        var rest := ReadString(c.value.1);
        if rest.None? then None else Some(([c.value.0] + rest.value.0, rest.value.1))
  }

  lemma Hex4Back(n: int)
    requires 0 <= n < 0x10000
    ensures FromHex4(Hex4(n)) == Some(n)
  {
    hide HexValue, Digit, Nibble;
    DigitValue(n / 16 / 16 / 16);
    DigitValue(n / 16 / 16 % 16);
    DigitValue(n / 16 % 16);
    DigitValue(n % 16);
    NibbleBack(n);
    NibbleBack(n / 16);
    NibbleBack(n / 16 / 16);
  }

  lemma EscapeCharBack(c: char, rest: string)
    ensures var t := EscapeChar(c) + rest; t[0] != '"' && ReadChar(t) == Some((c, rest))
  {
    hide Hex4, FromHex4;
    var t := EscapeChar(c) + rest;
    if |EscapeChar(c)| == 6 {
      Hex4Back(c as int);
      assert t[2..6] == Hex4(c as int) && t[6..] == rest;
    } else if |EscapeChar(c)| == 2 {
      assert t[2..] == rest;
    } else {
      assert t[1..] == rest;
    }
  }

  lemma {:induction false} ReadEscaped(s: string, rest: string)
    ensures ReadString(Escape(s) + "\"" + rest) == Some((s, rest))
  {
    hide EscapeChar, ReadChar;
    var t := Escape(s) + "\"" + rest;
    if s == "" {
      assert t[1..] == rest;
    } else {
      var rest' := Escape(s[1..]) + "\"" + rest;
      assert t == EscapeChar(s[0]) + rest';
      EscapeCharBack(s[0], rest');
      ReadEscaped(s[1..], rest);
      assert s == [s[0]] + s[1..];
    }
  }

  predicate IsDigit(c: char) {
    '0' <= c <= '9'
  }

  function ReadDigits(t: string, acc: nat): (nat, string) {
    if t == "" || !IsDigit(t[0]) then (acc, t)
    else ReadDigits(t[1..], acc * 10 + (t[0] - '0') as nat)
  }

  function ReadInt(t: string): Option<(int, string)> {
    if t == "" then None
    else if t[0] == '-' then
      if |t| < 2 || !IsDigit(t[1]) then None
      else var (n, rest) := ReadDigits(t[1..], 0); Some((-(n as int), rest))
    else if !IsDigit(t[0]) then None
    else var (n, rest) := ReadDigits(t, 0); Some((n, rest))
  }

  predicate NoDigitFirst(t: string) {
    t != "" ==> !IsDigit(t[0])
  }

  /** Reading the digits of `n` multiplies what was read before by the matching power of ten. */
  function Shift(acc: nat, n: nat): nat {
    if n < 10 then acc * 10 else Shift(acc, n / 10) * 10
  }

  lemma ReadOne(d: nat, acc: nat, rest: string)
    requires d < 10
    ensures ReadDigits([Digit(d)] + rest, acc) == ReadDigits(rest, acc * 10 + d)
  {
    assert ([Digit(d)] + rest)[1..] == rest;
    assert Digit(d) == "0123456789abcdef"[d];
  }

  lemma ShiftStep(n: nat, acc: nat)
    requires n >= 10
    ensures (Shift(acc, n / 10) + n / 10) * 10 + n % 10 == Shift(acc, n) + n
  {
    var m := Shift(acc, n / 10);
    assert Shift(acc, n) == m * 10;
    hide Shift;
    assert n == n / 10 * 10 + n % 10;
  }

  lemma DecimalStep(n: nat, acc: nat)
    ensures n < 10 ==> DecimalNat(n) == [Digit(n)] && Shift(acc, n) == acc * 10
    ensures n >= 10 ==>
      && DecimalNat(n) == DecimalNat(n / 10) + [Digit(n % 10)]
      && (Shift(acc, n / 10) + n / 10) * 10 + n % 10 == Shift(acc, n) + n
  {
    if n >= 10 { ShiftStep(n, acc); }
  }

  lemma {:induction false} ReadDecimal(n: nat, acc: nat, rest: string)
    ensures ReadDigits(DecimalNat(n) + rest, acc) == ReadDigits(rest, Shift(acc, n) + n)
  {
    hide ReadDigits, Digit, DecimalNat, Shift;
    DecimalStep(n, acc);
    if n < 10 {
      ReadOne(n, acc, rest);
    } else {
      var d := [Digit(n % 10)];
      ReadDecimal(n / 10, acc, d + rest);
      assert DecimalNat(n) + rest == DecimalNat(n / 10) + (d + rest);
      ReadOne(n % 10, Shift(acc, n / 10) + n / 10, rest);
    }
  }

  lemma {:induction false} ShiftZero(n: nat)
    ensures Shift(0, n) == 0
  {
    if n >= 10 { ShiftZero(n / 10); }
  }

  lemma ReadIntBack(n: int, rest: string)
    requires NoDigitFirst(rest)
    ensures ReadInt(Decimal(n) + rest) == Some((n, rest))
  {
    hide DecimalNat, Shift;
    var m: nat := if n < 0 then -n else n;
    ReadDecimal(m, 0, rest);
    ShiftZero(m);
    var t := Decimal(n) + rest;
    assert ReadDigits(rest, m) == (m, rest);
    FirstDigit(m);
    if n < 0 {
      assert t[1..] == DecimalNat(m) + rest;
    }
  }

  lemma FirstDigit(n: nat)
    ensures DecimalNat(n) != "" && IsDigit(DecimalNat(n)[0])
  {
    assert DecimalNat(n)[0] in DecimalNat(n);
  }
}
