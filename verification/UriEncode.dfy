/**
  Percent-encoding of byte strings for URIs, with the four tables of characters
  that are left alone.  Text is given by its ASCII codes.
*/
module UriEncode {
  import opened Basics
  import opened Bytes

  const PERCENT: byte := 37
  const SLASH: byte := 47

  datatype Table = StdSafe | AllSafe | V4Auth | V4AuthSlash

  /** The characters a table adds to the letters and digits: '-', '.', '/', '_' and '~', or some of them. */
  function Specials(t: Table): seq<byte> {
    match t
    case StdSafe => [45, 46, 47, 95, 126]
    case AllSafe => [47]
    case V4Auth => [45, 46, 47, 95, 126]
    case V4AuthSlash => [45, 46, 95, 126]
  }

  predicate IsAlpha(b: byte) {
    65 <= b <= 90 || 97 <= b <= 122
  }

  predicate IsDigit(b: byte) {
    48 <= b <= 57
  }

  /** RFC 3986, section 2.3: letters, digits, hyphen, period, underscore and tilde. */
  predicate Unreserved(b: byte) {
    IsAlpha(b) || IsDigit(b) || b == 45 || b == 46 || b == 95 || b == 126
  }

  predicate IsSafe(t: Table, b: byte) {
    IsAlpha(b) || IsDigit(b) || b in Specials(t)
  }

  // "0123456789ABCDEF"
  const UPPER_DIGITS: seq<byte> := [48, 49, 50, 51, 52, 53, 54, 55, 56, 57, 65, 66, 67, 68, 69, 70]

  function HexDigit(n: byte): byte
    requires n < 16
  {
    if n < 10 then 48 + n else 55 + n
  }

  function EncodeByte(t: Table, b: byte): (r: seq<byte>)
    ensures |r| == if IsSafe(t, b) then 1 else 3
  {
    if IsSafe(t, b) then [b] else [PERCENT, HexDigit(b / 16), HexDigit(b % 16)]
  }

  function Encode(t: Table, s: seq<byte>): seq<byte> {
    if s == [] then [] else Encode(t, s[..|s|-1]) + EncodeByte(t, s[|s|-1])
  }

  // ------------------------------------------------- RFC 3986, section 2.1

  /** HEXDIG, in either case. */
  function HexValue(b: byte): Option<byte> {
    if IsDigit(b) then Some(b - 48)
    else if 65 <= b <= 70 then Some(b - 55)
    else if 97 <= b <= 102 then Some(b - 87)
    else None
  }

  /** Every percent sign and the two hexadecimal digits after it stand for one octet; anything else for itself. */
  function Decode(s: seq<byte>): Option<seq<byte>> {
    if s == [] then Some([])
    else if s[0] != PERCENT then
      var rest := Decode(s[1..]);
      if rest.None? then None else Some([s[0]] + rest.value)
    else if |s| < 3 || HexValue(s[1]).None? || HexValue(s[2]).None? then None
    else
      var rest := Decode(s[3..]);
      if rest.None? then None else Some([HexValue(s[1]).value * 16 + HexValue(s[2]).value] + rest.value)
  }

  lemma HexRoundTrip(b: byte)
    ensures HexValue(HexDigit(b / 16)) == Some(b / 16) && HexValue(HexDigit(b % 16)) == Some(b % 16)
    ensures b / 16 * 16 + b % 16 == b
  {
  }

  lemma DecodeOne(t: Table, b: byte, rest: seq<byte>)
    requires Decode(rest).Some?
    ensures Decode(EncodeByte(t, b) + rest) == Some([b] + Decode(rest).value)
  {
    var s := EncodeByte(t, b) + rest;
    if IsSafe(t, b) {
      assert s[1..] == rest;
    } else {
      HexRoundTrip(b);
      assert s[3..] == rest;
    }
  }

  lemma {:induction false} DecodeMore(t: Table, s: seq<byte>, rest: seq<byte>)
    requires Decode(rest).Some?
    ensures Decode(Encode(t, s) + rest) == Some(s + Decode(rest).value)
    decreases |s|
  {
    if s == [] {
      assert Encode(t, s) + rest == rest && s + Decode(rest).value == Decode(rest).value;
    } else {
      var init, b := s[..|s|-1], s[|s|-1];
      var tail := EncodeByte(t, b) + rest;
      DecodeOne(t, b, rest);
      DecodeMore(t, init, tail);
      Regroup(Encode(t, init), EncodeByte(t, b), rest);
      Regroup(init, [b], Decode(rest).value);
      assert s == init + [b];
    }
  }

  /** A byte that is not safe becomes a percent sign and two digits, in upper case, that give its value to base sixteen. */
  lemma EscapeText(t: Table, b: byte)
    ensures EncodeByte(t, b) ==
              if IsSafe(t, b) then [b]
              else [PERCENT, UPPER_DIGITS[b / 16], UPPER_DIGITS[b % 16]]
  {
  }

  /** No escape has a lower-case digit, so an encoding has a lower-case letter only where the text has it. */
  lemma {:induction false} LowerCaseIsText(t: Table, s: seq<byte>)
    ensures forall c :: 97 <= c <= 122 ==> multiset(Encode(t, s))[c] == multiset(s)[c]
  {
    if s != [] {
      var init, b := s[..|s|-1], s[|s|-1];
      LowerCaseIsText(t, init);
      assert s == init + [b];
      EscapeText(t, b);
    }
  }

  /** With every table, decoding gives back what was encoded. */
  lemma DecodeEncode(t: Table, s: seq<byte>)
    ensures Decode(Encode(t, s)) == Some(s)
  {
    DecodeMore(t, s, []);
    assert Encode(t, s) + [] == Encode(t, s);
    assert s + [] == s;
  }

  /** No two byte strings have one encoding, even across tables. */
  lemma EncodeIsInjective(t: Table, u: Table, a: seq<byte>, b: seq<byte>)
    requires Encode(t, a) == Encode(u, b)
    ensures a == b
  {
    DecodeEncode(t, a);
    DecodeEncode(u, b);
  }

  function UnsafeCount(t: Table, s: seq<byte>): (n: nat)
    ensures n <= |s|
  {
    if s == [] then 0 else UnsafeCount(t, s[..|s|-1]) + if IsSafe(t, s[|s|-1]) then 0 else 1
  }

  /** Two more characters for every escaped byte, so at most three times the length. */
  lemma {:induction false} EncodedLength(t: Table, s: seq<byte>)
    ensures |Encode(t, s)| == |s| + 2 * UnsafeCount(t, s) <= 3 * |s|
  {
    if s != [] {
      EncodedLength(t, s[..|s|-1]);
    }
  }

  /** The output holds safe characters and percent signs only. */
  lemma {:induction false} OutputIsSafe(t: Table, s: seq<byte>, k: nat)
    requires k < |Encode(t, s)|
    ensures IsSafe(t, Encode(t, s)[k]) || Encode(t, s)[k] == PERCENT
    decreases |s|
  {
    if k < |Encode(t, s[..|s|-1])| {
      OutputIsSafe(t, s[..|s|-1], k);
    }
  }

  /** `V4AuthSlash`, which escapes slashes, is the unreserved set; the others add or drop the characters named. */
  lemma SafeSets(b: byte)
    ensures IsSafe(V4AuthSlash, b) <==> Unreserved(b)
    ensures IsSafe(V4Auth, b) <==> Unreserved(b) || b == SLASH
    ensures IsSafe(StdSafe, b) <==> IsSafe(V4Auth, b)
    ensures IsSafe(AllSafe, b) <==> IsAlpha(b) || IsDigit(b) || b == SLASH
  {
  }

  // --------------------------------------------------------- as the source has it

  /** Builds the flags of a table: letters and digits first, then the special characters. */
  method InitUriEncodeArray(t: Table) returns (flags: seq<bool>)
    ensures |flags| == 256 && forall b: byte :: flags[b] == IsSafe(t, b)
  {
    flags := [];
    for i := 0 to 256
      invariant |flags| == i
      invariant forall k :: 0 <= k < i ==> flags[k] == (IsAlpha(k as byte) || IsDigit(k as byte))
    {
      flags := flags + [IsAlpha(i as byte) || IsDigit(i as byte)];
    }
    var specials := Specials(t);
    for i := 0 to |specials|
      invariant |flags| == 256
      invariant forall b: byte :: flags[b] == (IsAlpha(b) || IsDigit(b) || b in specials[..i])
    {
      flags := flags[specials[i] as int := true];
    }
    assert specials[..|specials|] == specials;
  }

  /** Writes the encoding and its terminator into a buffer reserved for four times the input. */
  method EncodeToBuffer(input: seq<byte>, t: Table) returns (result: seq<byte>)
    requires 0 !in input
    ensures result == Encode(t, input)
  {
    var safe := InitUriEncodeArray(t);
    var buffer := new byte[4 * |input| + 1];
    var end: nat := 0;
    for i := 0 to |input|
      invariant end <= 3 * i && buffer[..end] == Encode(t, input[..i])
    {
      assert input[..i+1][..i] == input[..i];
      var b := input[i];
      ghost var done := buffer[..end];
      if safe[b] {
        buffer[end] := b;
        end := end + 1;
      } else {
        buffer[end] := PERCENT;
        buffer[end+1] := HexDigit(b / 16);
        buffer[end+2] := HexDigit(b % 16);
        end := end + 3;
      }
      assert buffer[..end] == done + EncodeByte(t, b);
    }
    assert input[..|input|] == input;
    buffer[end] := 0;
    result := buffer[..end];
  }
}
