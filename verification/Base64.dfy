/** Padded base64 as section 4 of RFC 4648 defines it: the encoding given to byte values in a rendered spec. */
module Base64 {
  import opened Kube

  type byte = b: int | 0 <= b < 256
  type sextet = v: int | 0 <= v < 64

  /** The standard alphabet. */
  function Symbol(v: sextet): char {
    if v < 26 then ('A' as int + v) as char
    else if v < 52 then ('a' as int + v - 26) as char
    else if v < 62 then ('0' as int + v - 52) as char
    else if v == 62 then '+'
    else '/'
  }

  function SymbolValue(c: char): Option<sextet> {
    if 'A' <= c <= 'Z' then Some(c as int - 'A' as int)
    else if 'a' <= c <= 'z' then Some(c as int - 'a' as int + 26)
    else if '0' <= c <= '9' then Some(c as int - '0' as int + 52)
    else if c == '+' then Some(62)
    else if c == '/' then Some(63)
    else None
  }

  /** The bytes packed into neighbouring sextets. */
  function FirstByte(v0: sextet, v1: sextet): byte {
    v0 * 4 + v1 / 16
  }

  function SecondByte(v1: sextet, v2: sextet): byte {
    v1 % 16 * 16 + v2 / 4
  }

  function ThirdByte(v2: sextet, v3: sextet): byte {
    v2 % 4 * 64 + v3
  }

  function Group(a: byte, b: byte, c: byte): (g: string)
    ensures |g| == 4
  {
    [Symbol(a / 4), Symbol(a % 4 * 16 + b / 16), Symbol(b % 16 * 4 + c / 64), Symbol(c % 64)]
  }

  function Encode(bytes: seq<byte>): string {
    if bytes == [] then ""
    else if |bytes| == 1 then Group(bytes[0], 0, 0)[..2] + "=="
    else if |bytes| == 2 then Group(bytes[0], bytes[1], 0)[..3] + "="
    else Group(bytes[0], bytes[1], bytes[2]) + Encode(bytes[3..])
  }

  function Decode(s: string): Option<seq<byte>> {
    if s == "" then Some([])
    else if |s| < 4 then None
    else
      var v0, v1, v2, v3 := SymbolValue(s[0]), SymbolValue(s[1]), SymbolValue(s[2]), SymbolValue(s[3]);
      if v0.None? || v1.None? then None
      else if v2.Some? && v3.Some? then
        var rest := Decode(s[4..]);
        if rest.None? then None
        else Some([FirstByte(v0.value, v1.value), SecondByte(v1.value, v2.value), ThirdByte(v2.value, v3.value)] + rest.value)
      else if |s| != 4 || s[3] != '=' then None
      else if v2.Some? then Some([FirstByte(v0.value, v1.value), SecondByte(v1.value, v2.value)])
      else if s[2] == '=' then Some([FirstByte(v0.value, v1.value)])
      else None
  }

  /** The four sextets of a group give back its three bytes. */
  lemma GroupBytes(a: byte, b: byte, c: byte)
    ensures var v0, v1, v2, v3 := a / 4, a % 4 * 16 + b / 16, b % 16 * 4 + c / 64, c % 64;
            FirstByte(v0, v1) == a && SecondByte(v1, v2) == b && ThirdByte(v2, v3) == c
  {
  }

  lemma GroupSymbols(a: byte, b: byte, c: byte)
    ensures var g := Group(a, b, c);
            && SymbolValue(g[0]) == Some(a / 4)
            && SymbolValue(g[1]) == Some(a % 4 * 16 + b / 16)
            && SymbolValue(g[2]) == Some(b % 16 * 4 + c / 64)
            && SymbolValue(g[3]) == Some(c % 64)
  {
  }

  /** A group of three bytes, read as a 24-bit big-endian number, is the number its four symbols spell in base 64. */
  lemma GroupIsBigEndian(a: byte, b: byte, c: byte)
    ensures var g := Group(a, b, c);
            && (forall i :: 0 <= i < 4 ==> SymbolValue(g[i]).Some?)
            && SymbolValue(g[0]).value * 262144 + SymbolValue(g[1]).value * 4096 + SymbolValue(g[2]).value * 64 + SymbolValue(g[3]).value
               == a * 65536 + b * 256 + c
  {
    GroupSymbols(a, b, c);
  }

  lemma DecodeStep(s: string, v0: sextet, v1: sextet, v2: sextet, v3: sextet)
    requires |s| >= 4 && Decode(s[4..]).Some?
    requires SymbolValue(s[0]) == Some(v0) && SymbolValue(s[1]) == Some(v1) && SymbolValue(s[2]) == Some(v2) && SymbolValue(s[3]) == Some(v3)
    ensures Decode(s) == Some([FirstByte(v0, v1), SecondByte(v1, v2), ThirdByte(v2, v3)] + Decode(s[4..]).value)
  {
  }

  lemma DecodeFullGroup(a: byte, b: byte, c: byte, rest: string)
    requires Decode(rest).Some?
    ensures Decode(Group(a, b, c) + rest) == Some([a, b, c] + Decode(rest).value)
  {
    var s := Group(a, b, c) + rest;
    GroupSymbols(a, b, c);
    GroupBytes(a, b, c);
    assert s[4..] == rest;
    DecodeStep(s, a / 4, a % 4 * 16 + b / 16, b % 16 * 4 + c / 64, c % 64);
  }

  lemma DecodeStepPadded(s: string, v0: sextet, v1: sextet, v2: sextet)
    requires |s| == 4 && s[3] == '='
    requires SymbolValue(s[0]) == Some(v0) && SymbolValue(s[1]) == Some(v1)
    ensures s[2] == '=' ==> Decode(s) == Some([FirstByte(v0, v1)])
    ensures SymbolValue(s[2]) == Some(v2) ==> Decode(s) == Some([FirstByte(v0, v1), SecondByte(v1, v2)])
  {
  }

  lemma DecodeNothing()
    ensures Decode("") == Some([])
  {
  }

  lemma DecodeOneByte(a: byte)
    ensures Decode(Group(a, 0, 0)[..2] + "==") == Some([a])
  {
  }

  lemma DecodeTwoBytes(a: byte, b: byte)
    ensures Decode(Group(a, b, 0)[..3] + "=") == Some([a, b])
  {
    GroupSymbols(a, b, 0);
    GroupBytes(a, b, 0);
    DecodeStepPadded(Group(a, b, 0)[..3] + "=", a / 4, a % 4 * 16 + b / 16, b % 16 * 4);
  }

  /** Four symbols stand for each started group of three bytes. */
  lemma {:induction false} EncodedLength(bytes: seq<byte>)
    ensures |Encode(bytes)| == (|bytes| + 2) / 3 * 4
  {
    hide Group;
    if |bytes| >= 3 {
      EncodedLength(bytes[3..]);
      assert (|bytes| + 2) / 3 == (|bytes[3..]| + 2) / 3 + 1;
    }
  }

  /** Decoding what was encoded gives back the bytes, for every length. */
  lemma {:induction false} RoundTrip(bytes: seq<byte>)
    ensures Decode(Encode(bytes)) == Some(bytes)
  {
    hide Group, Decode;
    if |bytes| >= 3 {
      var a, b, c, rest := bytes[0], bytes[1], bytes[2], bytes[3..];
      RoundTrip(rest);
      DecodeFullGroup(a, b, c, Encode(rest));
      assert bytes == [a, b, c] + rest;
      assert Encode(bytes) == Group(a, b, c) + Encode(rest);
    } else if |bytes| == 2 {
      DecodeTwoBytes(bytes[0], bytes[1]);
      assert bytes == [bytes[0], bytes[1]];
    } else if |bytes| == 1 {
      DecodeOneByte(bytes[0]);
      assert bytes == [bytes[0]];
    } else {
      DecodeNothing();
    }
  }

  /** The symbols are those of Table 1 of RFC 4648: capitals, small letters and digits in their order, then '+' and '/'. */
  lemma SymbolsInOrder(v: sextet)
    ensures Symbol(0) == 'A' && Symbol(25) == 'Z' && Symbol(26) == 'a' && Symbol(51) == 'z' && Symbol(52) == '0' && Symbol(61) == '9'
    ensures Symbol(62) == '+' && Symbol(63) == '/'
    ensures v < 61 && v != 25 && v != 51 ==> Symbol(v + 1) as int == Symbol(v) as int + 1
  {
  }

  /** The longest three vectors of section 10 of RFC 4648: "foob", "fooba", "foobar". */
  lemma Foobar()
    ensures Encode([102, 111, 111, 98]) == "Zm9vYg=="
    ensures Encode([102, 111, 111, 98, 97]) == "Zm9vYmE="
    ensures Encode([102, 111, 111, 98, 97, 114]) == "Zm9vYmFy"
  {
  }

  /** Distinct byte strings stay distinct. */
  lemma EncodeIsInjective(x: seq<byte>, y: seq<byte>)
    requires Encode(x) == Encode(y)
    ensures x == y
  {
    RoundTrip(x);
    RoundTrip(y);
  }
}
