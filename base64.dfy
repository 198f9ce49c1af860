/**
 * The standard base64 alphabet with padding (section 4 of RFC 4648), as a
 * canonical decoder and the encoder it inverts. Three bytes are cut into four
 * sextets, each written as one letter; a final one or two bytes give two or
 * three sextets followed by "==" or "=", and the bits that padding leaves
 * unused must be zero (section 3.5 of RFC 4648).
 */
module Base64 {
  import opened Basics

  /** A six-bit value: one base64 character. */
  type sextet = x: int | 0 <= x < 64

  // ----- Letters ---------------------------------------------------------------

  /** The character that encodes `v` ("A"-"Z", "a"-"z", "0"-"9", "+", "/"). */
  function Letter(v: sextet): (c: char)
    ensures c != '='
  {
    if v < 26 then ('A' as int + v) as char
    else if v < 52 then ('a' as int + (v - 26)) as char
    else if v < 62 then ('0' as int + (v - 52)) as char
    else if v == 62 then '+'
    else '/'
  }

  /** The value a character encodes, if it belongs to the alphabet. */
  function Index(c: char): (r: Option<sextet>)
    ensures r.Some? ==> Letter(r.value) == c
    ensures c == '=' ==> r.None?
  {
    if 'A' <= c <= 'Z' then Some(c as int - 'A' as int)
    else if 'a' <= c <= 'z' then Some(c as int - 'a' as int + 26)
    else if '0' <= c <= '9' then Some(c as int - '0' as int + 52)
    else if c == '+' then Some(62)
    else if c == '/' then Some(63)
    else None
  }

  lemma IndexOfLetter(v: sextet)
    ensures Index(Letter(v)) == Some(v)
  {
  }

  /** The letters of a run of sextets. */
  function Spell(v: seq<sextet>): (s: string)
    ensures |s| == |v|
    ensures forall i :: 0 <= i < |v| ==> s[i] == Letter(v[i])
  {
    seq(|v|, i requires 0 <= i < |v| => Letter(v[i]))
  }

  /** The sextets a run of characters spells, or `None` if one is not a letter. */
  function Unspell(s: string): (r: Option<seq<sextet>>)
    ensures r.Some? <==> forall i :: 0 <= i < |s| ==> Index(s[i]).Some?
    ensures r.Some? ==> |r.value| == |s| && forall i :: 0 <= i < |s| ==> Index(s[i]) == Some(r.value[i])
  {
    if forall i :: 0 <= i < |s| ==> Index(s[i]).Some?
    then Some(seq(|s|, i requires 0 <= i < |s| => Index(s[i]).value))
    else None
  }

  lemma UnspellSpell(v: seq<sextet>)
    ensures Unspell(Spell(v)) == Some(v)
  {
    var s := Spell(v);
    forall i | 0 <= i < |s| ensures Index(s[i]) == Some(v[i]) {
      IndexOfLetter(v[i]);
    }
    assert Unspell(s).value == v;
  }

  lemma SpellUnspell(s: string, v: seq<sextet>)
    requires Unspell(s) == Some(v)
    ensures Spell(v) == s
  {
  }

  // ----- Bits ------------------------------------------------------------------

  /** Three bytes as four sextets. */
  function Split(a: byte, b: byte, c: byte): seq<sextet>
  {
    [a / 4, a % 4 * 16 + b / 16, b % 16 * 4 + c / 64, c % 64]
  }

  /** Four sextets as three bytes. */
  function Join(i0: sextet, i1: sextet, i2: sextet, i3: sextet): seq<byte>
  {
    [i0 * 4 + i1 / 16, i1 % 16 * 16 + i2 / 4, i2 % 4 * 64 + i3]
  }

  /** A final byte as two sextets, and back. */
  function Split1(a: byte): seq<sextet>
  {
    [a / 4, a % 4 * 16]
  }

  function Join1(i0: sextet, i1: sextet): seq<byte>
  {
    [i0 * 4 + i1 / 16]
  }

  /** A final two bytes as three sextets, and back. */
  function Split2(a: byte, b: byte): seq<sextet>
  {
    [a / 4, a % 4 * 16 + b / 16, b % 16 * 4]
  }

  function Join2(i0: sextet, i1: sextet, i2: sextet): seq<byte>
  {
    [i0 * 4 + i1 / 16, i1 % 16 * 16 + i2 / 4]
  }

  /** The sextets of a byte string: four per three bytes, then two or three for a short tail. */
  function Sextets(data: seq<byte>): (v: seq<sextet>)
    ensures |v| == |data| / 3 * 4 + (if |data| % 3 == 0 then 0 else |data| % 3 + 1)
    decreases |data|
  {
    if |data| == 0 then []
    else if |data| == 1 then Split1(data[0])
    else if |data| == 2 then Split2(data[0], data[1])
    else Split(data[0], data[1], data[2]) + Sextets(data[3..])
  }

  /**
   * The bytes a run of sextets carries: three per four, then one for a tail
   * of two and two for a tail of three, whose unused low bits must be zero.
   */
  function Bytes(v: seq<sextet>): Option<seq<byte>>
    decreases |v|
  {
    if |v| == 0 then Some([])
    else if |v| == 1 then None
    else if |v| == 2 then
      if v[1] % 16 != 0 then None else Some(Join1(v[0], v[1]))
    else if |v| == 3 then
      if v[2] % 4 != 0 then None else Some(Join2(v[0], v[1], v[2]))
    else
      var rest :- Bytes(v[4..]);
      Some(Join(v[0], v[1], v[2], v[3]) + rest)
  }

  // ----- Encoding and decoding -------------------------------------------------

  /** The padding that fills the last block to four characters. */
  function Padding(data: seq<byte>): string
  {
    if |data| % 3 == 1 then "==" else if |data| % 3 == 2 then "=" else ""
  }

  function Encode(data: seq<byte>): string
  {
    Spell(Sextets(data)) + Padding(data)
  }

  /** How many "=" end the text (at most two count as padding). */
  function PadCount(s: string): (n: nat)
    ensures n <= 2 && n <= |s|
  {
    if |s| >= 2 && s[|s| - 1] == '=' && s[|s| - 2] == '=' then 2
    else if |s| >= 1 && s[|s| - 1] == '=' then 1
    else 0
  }

  /** `base64::decode` with the standard configuration; `None` is its error. */
  function Decode(s: string): Option<seq<byte>>
  {
    if |s| % 4 != 0 then None
    else
      var v :- Unspell(s[..|s| - PadCount(s)]);
      Bytes(v)
  }

  // ----- Round trips -----------------------------------------------------------

  lemma SplitJoin(a: byte, b: byte, c: byte)
    ensures var v := Split(a, b, c); Join(v[0], v[1], v[2], v[3]) == [a, b, c]
  {
  }

  lemma JoinSplit(i0: sextet, i1: sextet, i2: sextet, i3: sextet)
    ensures var d := Join(i0, i1, i2, i3); Split(d[0], d[1], d[2]) == [i0, i1, i2, i3]
  {
    var d := Join(i0, i1, i2, i3);
    QuotientRemainder(i0, i1 / 16, 4);
    QuotientRemainder(i1 % 16, i2 / 4, 16);
    QuotientRemainder(i2 % 4, i3, 64);
    assert d[0] / 4 == i0 && d[0] % 4 == i1 / 16;
    assert d[1] / 16 == i1 % 16 && d[1] % 16 == i2 / 4;
    assert d[2] / 64 == i2 % 4 && d[2] % 64 == i3;
  }

  /** `q * k + r` splits back into `q` and `r`, for the widths base64 uses. */
  lemma QuotientRemainder(q: int, r: int, k: int)
    requires k == 4 || k == 16 || k == 64
    requires 0 <= r < k
    ensures (q * k + r) / k == q && (q * k + r) % k == r
  {
  }

  lemma Split1Join(a: byte)
    ensures var v := Split1(a); v[1] % 16 == 0 && Join1(v[0], v[1]) == [a]
  {
  }

  lemma Split2Join(a: byte, b: byte)
    ensures var v := Split2(a, b); v[2] % 4 == 0 && Join2(v[0], v[1], v[2]) == [a, b]
  {
  }

  lemma Join1Split(i0: sextet, i1: sextet)
    requires i1 % 16 == 0
    ensures var d := Join1(i0, i1); Split1(d[0]) == [i0, i1]
  {
  }

  lemma Join2Split(i0: sextet, i1: sextet, i2: sextet)
    requires i2 % 4 == 0
    ensures var d := Join2(i0, i1, i2); Split2(d[0], d[1]) == [i0, i1, i2]
  {
  }

  /** Every byte string is carried by its own sextets. */
  lemma {:induction false} BytesOfSextets(data: seq<byte>)
    ensures Bytes(Sextets(data)) == Some(data)
    decreases |data|
  {
    if |data| == 1 {
      Split1Join(data[0]);
      assert data == [data[0]];
    } else if |data| == 2 {
      Split2Join(data[0], data[1]);
      assert data == [data[0], data[1]];
    } else if |data| >= 3 {
      var v := Sextets(data);
      SplitJoin(data[0], data[1], data[2]);
      BytesOfSextets(data[3..]);
      if |data| == 3 {
        assert v == Split(data[0], data[1], data[2]);
        assert data == Join(v[0], v[1], v[2], v[3]) + [];
      } else {
        assert v[4..] == Sextets(data[3..]);
        assert data == Join(v[0], v[1], v[2], v[3]) + data[3..];
      }
    }
  }

  /** Sextets that carry bytes are those bytes' own sextets. */
  lemma {:induction false} SextetsOfBytes(v: seq<sextet>, d: seq<byte>)
    requires Bytes(v) == Some(d)
    ensures Sextets(d) == v
    decreases |v|
  {
    if |v| >= 4 {
      var rest := Bytes(v[4..]).value;
      JoinSplit(v[0], v[1], v[2], v[3]);
      SextetsOfBytes(v[4..], rest);
      assert d == Join(v[0], v[1], v[2], v[3]) + rest;
      assert d[3..] == rest;
      assert v == [v[0], v[1], v[2], v[3]] + v[4..];
    } else if |v| == 2 {
      Join1Split(v[0], v[1]);
      assert v == [v[0], v[1]];
    } else if |v| == 3 {
      Join2Split(v[0], v[1], v[2]);
      assert v == [v[0], v[1], v[2]];
    }
  }

  /** The encoding is letters then padding, and decoding strips exactly that padding. */
  lemma EncodingParts(data: seq<byte>)
    ensures var s := Encode(data);
      |s| % 4 == 0 && PadCount(s) == |Padding(data)| && s[..|s| - PadCount(s)] == Spell(Sextets(data))
  {
    var letters := Spell(Sextets(data));
    var s := Encode(data);
    assert s == letters + Padding(data);
    if |letters| > 0 {
      assert s[|letters| - 1] == letters[|letters| - 1] != '=';
    }
    if |Padding(data)| == 1 {
      assert s[|s| - 1] == '=';
    } else if |Padding(data)| == 2 {
      assert s[|s| - 1] == '=' && s[|s| - 2] == '=';
    }
    assert s[..|s| - |Padding(data)|] == letters;
  }

  /** Decoding undoes encoding, for every byte string. */
  lemma DecodeEncode(data: seq<byte>)
    ensures Decode(Encode(data)) == Some(data)
  {
    EncodingParts(data);
    UnspellSpell(Sextets(data));
    BytesOfSextets(data);
  }

  /** A text of whole blocks whose letters carry `n` bytes ends in the padding of `n` bytes. */
  lemma PaddingLength(n: nat, len: nat, p: nat)
    requires len % 4 == 0 && p <= 2 && len - p == n / 3 * 4 + (if n % 3 == 0 then 0 else n % 3 + 1)
    ensures p == if n % 3 == 1 then 2 else if n % 3 == 2 then 1 else 0
  {
    var k, r := n / 3, n % 3;
    assert len == 4 * k + (if r == 0 then 0 else r + 1) + p;
  }

  /** Decoding accepts only the encoder's own output (canonical base64). */
  lemma EncodeDecode(s: string, d: seq<byte>)
    requires Decode(s) == Some(d)
    ensures Encode(d) == s
  {
    var p := PadCount(s);
    var letters := s[..|s| - p];
    var v := Unspell(letters).value;
    SpellUnspell(letters, v);
    SextetsOfBytes(v, d);
    PaddingLength(|d|, |s|, p);
    assert |Padding(d)| == p;
    assert s[|s| - p..] == Padding(d);
    assert s == letters + s[|s| - p..];
  }

  /** The inline add-on of the source's own tests: "aGVsbG8=" carries "hello". */
  lemma DecodeHello()
    ensures Decode("aGVsbG8=") == Some([104, 101, 108, 108, 111])
  {
    var s := "aGVsbG8=";
    assert PadCount(s) == 1;
    assert s[..7] == "aGVsbG8";
    assert Index('a') == Some(26) && Index('G') == Some(6) && Index('V') == Some(21) && Index('s') == Some(44);
    assert Index('b') == Some(27) && Index('8') == Some(60);
    var t := s[..7];
    var v := [26, 6, 21, 44, 27, 6, 60];
    assert forall i :: 0 <= i < 7 ==> Index(t[i]) == Some(v[i]);
    var u := Unspell(t).value;
    assert forall i :: 0 <= i < 7 ==> u[i] == v[i];
    assert u == v;
    assert v[4..] == [27, 6, 60];
    assert Bytes(v[4..]) == Some(Join2(27, 6, 60)) == Some([108, 111]);
    assert Bytes(v) == Some(Join(26, 6, 21, 44) + [108, 111]);
    assert Join(26, 6, 21, 44) + [108, 111] == [104, 101, 108, 108, 111];
  }
}
