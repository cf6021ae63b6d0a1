/** `hex_string_to_binary` and the fields of a Tox address. */
module HexAddress {
  import opened Basics

  datatype HexError = OddLength | NotHex

  datatype Parsed = Bytes(bytes: seq<Byte>) | Failed(error: HexError)

  predicate IsHex(c: char) {
    '0' <= c <= '9' || 'a' <= c <= 'f' || 'A' <= c <= 'F'
  }

  function Digit(c: char): (d: int)
    requires IsHex(c)
    ensures 0 <= d < 16
  {
    if '0' <= c <= '9' then (c - '0') as int
    else if 'a' <= c <= 'f' then (c - 'a') as int + 10
    else (c - 'A') as int + 10
  }

  /** `std::from_chars` in base 16 over two characters: it stops at the first character that is not a
      digit, fails only when that is the first one, and the caller does not look at where it stopped. */
  function FromChars(c0: char, c1: char): Option<Byte> {
    if !IsHex(c0) then None
    else if !IsHex(c1) then Some(Digit(c0))
    else Some(16 * Digit(c0) + Digit(c1))
  }

  /** What the parser yields for the pairs of `s`. */
  function Parse(s: string): Option<seq<Byte>>
    requires |s| % 2 == 0
  {
    if s == [] then Some([])
    else
      match (FromChars(s[0], s[1]), Parse(s[2..]))
      case (Some(b), Some(bs)) => Some([b] + bs)
      case _ => None
  }

  lemma {:induction false} ParseSnoc(s: string, c0: char, c1: char)
    requires |s| % 2 == 0
    ensures Parse(s + [c0, c1]) ==
            match (Parse(s), FromChars(c0, c1))
            case (Some(bs), Some(b)) => Some(bs + [b])
            case _ => None
  {
    if s == [] {
      assert s + [c0, c1] == [c0, c1] && [c0, c1][2..] == [];
      if FromChars(c0, c1).Some? {
        var b := FromChars(c0, c1).value;
        assert [b] + [] == [] + [b];
      }
    } else {
      assert (s + [c0, c1])[2..] == s[2..] + [c0, c1];
      ParseSnoc(s[2..], c0, c1);
      assert (s + [c0, c1])[0] == s[0] && (s + [c0, c1])[1] == s[1];
      if FromChars(s[0], s[1]).Some? && Parse(s[2..]).Some? && FromChars(c0, c1).Some? {
        var b, bs := FromChars(s[0], s[1]).value, Parse(s[2..]).value;
        assert [b] + (bs + [FromChars(c0, c1).value]) == ([b] + bs) + [FromChars(c0, c1).value];
      }
    }
  }

  lemma {:induction false} PrefixFails(s: string, k: nat)
    requires |s| % 2 == 0 && 2 * k <= |s|
    ensures Parse(s[..2 * k]).None? ==> Parse(s).None?
  {
    if k > 0 {
      assert s[..2 * k][2..] == s[2..][..2 * (k - 1)];
      PrefixFails(s[2..], k - 1);
    }
  }

  method HexStringToBinary(s: string) returns (r: Parsed)
    ensures r == if |s| % 2 != 0 then Failed(OddLength)
                 else if Parse(s).None? then Failed(NotHex)
                 else Bytes(Parse(s).value)
  {
    if |s| % 2 != 0 {
      return Failed(OddLength);
    }
    var ret: seq<Byte> := [];
    for i := 0 to |s| / 2
      invariant Parse(s[..2 * i]) == Some(ret)
    {
      var b := FromChars(s[2 * i], s[2 * i + 1]);
      assert s[..2 * (i + 1)] == s[..2 * i] + [s[2 * i], s[2 * i + 1]];
      ParseSnoc(s[..2 * i], s[2 * i], s[2 * i + 1]);
      if b.None? {
        PrefixFails(s, i + 1);
        return Failed(NotHex);
      }
      ret := ret + [b.value];
    }
    assert s[..2 * (|s| / 2)] == s;
    return Bytes(ret);
  }

  predicate ByteAt(s: string, i: nat)
    requires |s| % 2 == 0 && i < |s| / 2
  {
    Parse(s).Some? && i < |Parse(s).value| && FromChars(s[2 * i], s[2 * i + 1]) == Some(Parse(s).value[i])
  }

  /** Exactly the strings of even length whose every pair starts with a hex digit are accepted, and byte `i`
      comes from pair `i`. */
  lemma {:induction false} AcceptedStrings(s: string)
    requires |s| % 2 == 0
    ensures Parse(s).Some? <==> forall i :: 0 <= i < |s| / 2 ==> IsHex(s[2 * i])
    ensures Parse(s).Some? ==> 2 * |Parse(s).value| == |s| && forall i :: 0 <= i < |s| / 2 ==> ByteAt(s, i)
  {
    if s != [] {
      var t := s[2..];
      AcceptedStrings(t);
      if Parse(s).Some? {
        forall i | 0 <= i < |s| / 2 ensures ByteAt(s, i) {
          if i > 0 { assert ByteAt(t, i - 1) && s[2 * i] == t[2 * (i - 1)] && s[2 * i + 1] == t[2 * (i - 1) + 1]; }
        }
      }
      forall i | 0 <= i < |t| / 2 ensures t[2 * i] == s[2 * (i + 1)] {}
      if forall i :: 0 <= i < |t| / 2 ==> IsHex(t[2 * i]) {
        forall i | 1 <= i < |s| / 2 ensures IsHex(s[2 * i]) == IsHex(t[2 * (i - 1)]) {}
        assert IsHex(s[2 * 0]) <==> FromChars(s[0], s[1]).Some?;
      } else {
        var i :| 0 <= i < |t| / 2 && !IsHex(t[2 * i]);
        assert !IsHex(s[2 * (i + 1)]);
      }
    }
  }

  const DIGITS: string := "0123456789abcdefABCDEF"

  /** A character is a digit exactly if it is one of these, in either case, and the value is its place. */
  lemma DigitsAreThese(c: char)
    ensures IsHex(c) <==> c in DIGITS
    ensures forall k :: 0 <= k < 22 ==> Digit(DIGITS[k]) == if k < 16 then k else k - 6
  {
    if IsHex(c) {
      var k := if c >= 'a' then (c - 'a') as int + 10 else if c >= 'A' then (c - 'A') as int + 16 else (c - '0') as int;
      assert DIGITS[k] == c;
    }
  }

  /** So a string of even length is accepted exactly if every pair begins with one of these characters. */
  lemma {:induction false} AcceptedDigits(s: string)
    requires |s| % 2 == 0
    ensures Parse(s).Some? <==> forall i :: 0 <= i < |s| / 2 ==> s[2 * i] in "0123456789abcdefABCDEF"
  {
    AcceptedStrings(s);
    forall i | 0 <= i < |s| / 2 ensures IsHex(s[2 * i]) <==> s[2 * i] in DIGITS { DigitsAreThese(s[2 * i]); }
  }

  function PrintDigit(d: int): char
    requires 0 <= d < 16
  {
    if d < 10 then '0' + d as char else 'a' + (d - 10) as char
  }

  /** The `{:02x}` format of every byte, joined. */
  function Print(bs: seq<Byte>): string {
    if bs == [] then []
    else [PrintDigit(bs[0] / 16), PrintDigit(bs[0] % 16)] + Print(bs[1..])
  }

  function LowerDigit(c: char): char {
    if 'A' <= c <= 'F' then 'a' + (c - 'A') else c
  }

  function Lower(s: string): (r: string) {
    seq(|s|, i requires 0 <= i < |s| => LowerDigit(s[i]))
  }

  lemma {:induction false} PrintLength(bs: seq<Byte>)
    ensures |Print(bs)| == 2 * |bs|
  {
    if bs != [] { PrintLength(bs[1..]); }
  }

  lemma PairRoundTrip(b: Byte)
    ensures FromChars(PrintDigit(b / 16), PrintDigit(b % 16)) == Some(b)
  {
    assert Digit(PrintDigit(b / 16)) == b / 16 && Digit(PrintDigit(b % 16)) == b % 16;
  }

  /** Parsing what was printed gives the bytes back. */
  lemma {:induction false} ParseAfterPrint(bs: seq<Byte>)
    ensures |Print(bs)| % 2 == 0 && Parse(Print(bs)) == Some(bs)
  {
    PrintLength(bs);
    if bs != [] {
      ParseAfterPrint(bs[1..]);
      PairRoundTrip(bs[0]);
      assert Print(bs)[2..] == Print(bs[1..]);
      assert bs == [bs[0]] + bs[1..];
    }
  }

  lemma PrintByte(c0: char, c1: char)
    requires FromChars(c0, c1).Some?
    ensures var b := FromChars(c0, c1).value;
            [PrintDigit(b / 16), PrintDigit(b % 16)] == [LowerDigit(c0), LowerDigit(c1)] <==> IsHex(c1)
  {
    var b := FromChars(c0, c1).value;
    if IsHex(c1) {
      assert b / 16 == Digit(c0) && b % 16 == Digit(c1);
    } else {
      assert b % 16 == Digit(c0) && IsHex(PrintDigit(b % 16)) && !IsHex(LowerDigit(c1));
    }
  }

  ghost predicate AllHex(s: string) {
    forall i :: 0 <= i < |s| ==> IsHex(s[i])
  }

  lemma AllHexSplit(c0: char, c1: char, t: string)
    ensures AllHex([c0, c1] + t) <==> IsHex(c0) && IsHex(c1) && AllHex(t)
  {
    var s := [c0, c1] + t;
    assert s[0] == c0 && s[1] == c1;
    assert forall i :: 0 <= i < |t| ==> t[i] == s[i + 2];
    assert forall i :: 2 <= i < |s| ==> s[i] == t[i - 2];
  }

  lemma LowerSplit(c0: char, c1: char, t: string)
    ensures Lower([c0, c1] + t) == [LowerDigit(c0), LowerDigit(c1)] + Lower(t)
  {
  }

  lemma PairsEqual(a: string, b: string, s: string, t: string)
    requires |a| == |b| == 2
    ensures a + s == b + t <==> a == b && s == t
  {
    assert (a + s)[..2] == a && (b + t)[..2] == b;
    assert (a + s)[2..] == s && (b + t)[2..] == t;
  }

  /** Printing an accepted string gives its lower-case form exactly when it holds hex digits only. */
  lemma {:induction false} PrintAfterParse(s: string)
    requires |s| % 2 == 0 && Parse(s).Some?
    ensures Print(Parse(s).value) == Lower(s) <==> AllHex(s)
  {
    if s != [] {
      var t, b := s[2..], FromChars(s[0], s[1]).value;
      var bs := Parse(t).value;
      PrintAfterParse(t);
      PrintByte(s[0], s[1]);
      assert s == [s[0], s[1]] + t;
      AllHexSplit(s[0], s[1], t);
      LowerSplit(s[0], s[1], t);
      assert ([b] + bs)[1..] == bs;
      PairsEqual([PrintDigit(b / 16), PrintDigit(b % 16)], [LowerDigit(s[0]), LowerDigit(s[1])], Print(bs), Lower(t));
    }
  }

  /** Case does not matter. */
  lemma {:induction false} CaseIsIgnored(s: string)
    requires |s| % 2 == 0
    ensures Parse(s) == Parse(Lower(s))
  {
    if s != [] {
      var t := s[2..];
      CaseIsIgnored(t);
      assert s == [s[0], s[1]] + t;
      LowerSplit(s[0], s[1], t);
      assert Lower(s)[2..] == Lower(t);
      assert FromChars(s[0], s[1]) == FromChars(LowerDigit(s[0]), LowerDigit(s[1]));
    }
  }

  function UpperDigit(c: char): char {
    if 'a' <= c <= 'f' then 'A' + (c - 'a') else c
  }

  /** The usual form of a Tox id. */
  function Upper(s: string): string {
    seq(|s|, i requires 0 <= i < |s| => UpperDigit(s[i]))
  }

  /** The upper-case printing of any bytes parses back to them, too. */
  lemma {:induction false} ParseAfterUpperPrint(bs: seq<Byte>)
    ensures |Upper(Print(bs))| % 2 == 0 && Parse(Upper(Print(bs))) == Some(bs)
  {
    ParseAfterPrint(bs);
    PrintIsLower(bs);
    var p := Print(bs);
    forall i | 0 <= i < |p| ensures LowerDigit(UpperDigit(p[i])) == p[i] { assert p[i] in p; }
    assert Lower(Upper(p)) == p;
    CaseIsIgnored(Upper(p));
  }

  lemma {:induction false} PrintIsLower(bs: seq<Byte>)
    ensures forall c :: c in Print(bs) ==> c in "0123456789abcdef"
  {
    if bs != [] {
      PrintIsLower(bs[1..]);
      PrintDigitIsLiteral(bs[0] / 16);
      PrintDigitIsLiteral(bs[0] % 16);
    }
  }

  lemma PrintDigitIsLiteral(d: int)
    requires 0 <= d < 16
    ensures PrintDigit(d) == "0123456789abcdef"[d]
  {
  }

  /** The lenient case is real: a pair whose second character is no digit is read as one digit. */
  lemma LenientPair()
    ensures Parse("ag") == Some([10]) && Print([10]) == "0a"
  {
    var s := "ag";
    assert s[2..] == [] && FromChars(s[0], s[1]) == Some(10);
    assert Parse(s).value == [10];
    assert PrintDigit(0) == '0' && PrintDigit(10) == 'a';
  }

  // The three fields of an address.

  const PUBLIC_KEY_SIZE := 32
  const NOSPAM_SIZE := 4
  const CHECKSUM_SIZE := 2
  const ADDRESS_SIZE := PUBLIC_KEY_SIZE + NOSPAM_SIZE + CHECKSUM_SIZE

  class Address {
    const bytes: array<Byte>

    constructor (bs: array<Byte>)
      requires bs.Length == ADDRESS_SIZE
      ensures bytes == bs
    {
      bytes := bs;
    }

    method SubArr(start: nat, size: nat) returns (ret: array<Byte>)
      requires start + size <= bytes.Length
      ensures fresh(ret) && ret[..] == bytes[start..start + size]
    {
      ret := new Byte[size];
      for i := start to start + size
        invariant ret[..i - start] == bytes[start..i]
      {
        ret[i - start] := bytes[i];
      }
    }

    method PublicKey() returns (ret: array<Byte>)
      requires bytes.Length == ADDRESS_SIZE
      ensures fresh(ret) && ret[..] == KeyOf(bytes[..])
    {
      ret := SubArr(0, PUBLIC_KEY_SIZE);
      assert bytes[..][..PUBLIC_KEY_SIZE] == bytes[..PUBLIC_KEY_SIZE];
    }

    method Nospam() returns (ret: array<Byte>)
      requires bytes.Length == ADDRESS_SIZE
      ensures fresh(ret) && ret[..] == NospamOf(bytes[..])
    {
      ret := SubArr(PUBLIC_KEY_SIZE, NOSPAM_SIZE);
    }

    method Checksum() returns (ret: array<Byte>)
      requires bytes.Length == ADDRESS_SIZE
      ensures fresh(ret) && ret[..] == ChecksumOf(bytes[..])
    {
      ret := SubArr(PUBLIC_KEY_SIZE + NOSPAM_SIZE, CHECKSUM_SIZE);
    }
  }

  function KeyOf(a: seq<Byte>): seq<Byte>
    requires |a| == ADDRESS_SIZE
  {
    a[..PUBLIC_KEY_SIZE]
  }

  function NospamOf(a: seq<Byte>): seq<Byte>
    requires |a| == ADDRESS_SIZE
  {
    a[PUBLIC_KEY_SIZE..PUBLIC_KEY_SIZE + NOSPAM_SIZE]
  }

  function ChecksumOf(a: seq<Byte>): seq<Byte>
    requires |a| == ADDRESS_SIZE
  {
    a[PUBLIC_KEY_SIZE + NOSPAM_SIZE..]
  }

  lemma {:induction false} PrintPrefix(bs: seq<Byte>, k: nat)
    requires k <= |bs|
    ensures |Print(bs)| == 2 * |bs| && Print(bs)[..2 * k] == Print(bs[..k])
  {
    PrintLength(bs);
    if k > 0 {
      PrintPrefix(bs[1..], k - 1);
      assert bs[..k][1..] == bs[1..][..k - 1];
      assert Print(bs)[2..][..2 * (k - 1)] == Print(bs[..k])[2..];
    }
  }

  /** The fields tile the address; a printed address parses back to it, and its first 64 characters
      alone to the public key. */
  lemma {:induction false} AddressRoundTrip(a: seq<Byte>)
    requires |a| == ADDRESS_SIZE
    ensures |a| == 38 && |KeyOf(a)| == 32 && |NospamOf(a)| == 4 && |ChecksumOf(a)| == 2
    ensures KeyOf(a) + NospamOf(a) + ChecksumOf(a) == a
    ensures |Print(a)| == 2 * ADDRESS_SIZE && Parse(Print(a)) == Some(a)
    ensures Parse(Print(a)[..2 * PUBLIC_KEY_SIZE]) == Some(KeyOf(a))
  {
    ParseAfterPrint(a);
    PrintPrefix(a, PUBLIC_KEY_SIZE);
    ParseAfterPrint(KeyOf(a));
  }
}
