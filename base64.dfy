/**
 * Base64 as `base64encode` and `base64decode` in cc-tstl/src/utils.ts implement it: the
 * alphabet and padding of section 4 of RFC 4648, with the bits of each group taken out by
 * `bit.extract`.  Lua strings are byte strings, so the plain text and the encoded text are
 * both sequences of bytes: the alphabet and '=' are their ASCII codes, and a byte that is
 * not one of them (any byte of a multi-byte UTF-8 character among others) is outside it.
 *
 * The decoder is lenient in the ways the source is: it reads whole four-byte groups
 * only (a trailing partial group of bytes is ignored), decodes every group on its own (padding may
 * appear mid-string), and keeps no check on the bits a padded group drops.  A byte
 * outside the alphabet where a digit is read is `nil`: `bit.lshift` refuses it as an
 * argument, and the last digit of a group, which is only added, makes `+` fail on `nil`.
 */
module Base64 {
  import opened Wrappers

  type Byte = b: int | 0 <= b < 256

  /** The padding byte, '='. */
  const Pad: Byte := '=' as int

  /** The error Lua raises when `nil` (a byte outside the alphabet) is an operand of `+`. */
  const NilArithmetic := "attempt to perform arithmetic on a nil value"

  /** The error `bit.lshift` raises when its first argument is `nil`. */
  const NilShift := "bad argument #1 to 'lshift' (number expected, got nil)"

  function Pow2(k: nat): (r: nat)
    ensures r >= 1
  {
    if k == 0 then 1 else 2 * Pow2(k - 1)
  }

  /** `bit.extract(n, field, width)`: the `width` bits of `n` starting at bit `field`. */
  function Extract(n: nat, field: nat, width: nat): (r: nat)
    ensures r < Pow2(width)
  {
    (n / Pow2(field)) % Pow2(width)
  }

  /** `bit.lshift(n, k)`, on the small values it is applied to here. */
  function LShift(n: nat, k: nat): nat {
    n * Pow2(k)
  }

  /** `b64strIndex`, looked up with one byte of the encoded string: the inverse of the alphabet. */
  function Index(c: Byte): Option<nat> {
    if 'A' as int <= c <= 'Z' as int then Some(c - 'A' as int)
    else if 'a' as int <= c <= 'z' as int then Some(c - 'a' as int + 26)
    else if '0' as int <= c <= '9' as int then Some(c - '0' as int + 52)
    else if c == '+' as int then Some(62)
    else if c == '/' as int then Some(63)
    else None
  }

  // ---------------------------------------------------------------- encoding

  /** `b64str.charAt(k)` for a six-bit `k`: 'A'-'Z', 'a'-'z', '0'-'9', '+', '/' in that order. */
  function Sym(k: nat): Byte
    requires k < 64
  {
    if k < 26 then 'A' as int + k
    else if k < 52 then 'a' as int + k - 26
    else if k < 62 then '0' as int + k - 52
    else if k == 62 then '+' as int
    else '/' as int
  }

  /** One full three-byte group, as the `gmatch(str, "...")` loop encodes it. */
  function EncodeGroup(b1: Byte, b2: Byte, b3: Byte): (r: seq<Byte>)
    ensures |r| == 4
  {
    var n := (b1 as int) * 0x10000 + (b2 as int) * 0x100 + b3;
    [Sym(Extract(n, 18, 6)), Sym(Extract(n, 12, 6)), Sym(Extract(n, 6, 6)), Sym(Extract(n, 0, 6))]
  }

  /** The one or two bytes left over after the full groups, padded with '='. */
  function EncodeTail(s: seq<Byte>): (r: seq<Byte>)
    requires |s| < 3
    ensures |r| == if s == [] then 0 else 4
  {
    if |s| == 2 then
      var n := LShift((s[0] as int) * 0x100 + s[1], 2);
      [Sym(Extract(n, 12, 6)), Sym(Extract(n, 6, 6)), Sym(Extract(n, 0, 6)), Pad]
    else if |s| == 1 then
      var n := LShift(s[0], 4);
      [Sym(Extract(n, 6, 6)), Sym(Extract(n, 0, 6)), Pad, Pad]
    else []
  }

  function Encode(s: seq<Byte>): seq<Byte>
    decreases |s|
  {
    if |s| < 3 then EncodeTail(s) else EncodeGroup(s[0], s[1], s[2]) + Encode(s[3..])
  }

  /**
   * `base64encode`: the loop over the full three-byte groups, each appended as
   * `EncodeGroup` computes it, then the one or two bytes left, as `EncodeTail` pads them.
   */
  method Base64Encode(str: seq<Byte>) returns (retval: seq<Byte>)
    ensures retval == Encode(str)
  {
    retval := [];
    var i := 0;
    while i + 3 <= |str|
      invariant 0 <= i <= |str|
      invariant retval + Encode(str[i..]) == Encode(str)
    {
      EncodeFrom(str, i);
      retval := retval + EncodeGroup(str[i], str[i + 1], str[i + 2]);
      i := i + 3;
    }
    retval := retval + EncodeTail(str[i..]);
  }

  /** One step of the encoding loop: the group at `i`, then the rest. */
  lemma EncodeFrom(s: seq<Byte>, i: nat)
    requires i + 3 <= |s|
    ensures Encode(s[i..]) == EncodeGroup(s[i], s[i + 1], s[i + 2]) + Encode(s[i + 3..])
  {
    assert s[i..][3..] == s[i + 3..];
  }

  // ---------------------------------------------------------------- decoding

  /** `b64strIndex[c]` as an operand of `+`: the last digit of a group. */
  function Digit(c: Byte): Result<nat, string> {
    if Index(c).Some? then Ok(Index(c).value) else Err(NilArithmetic)
  }

  /** `b64strIndex[c]` as the first argument of `bit.lshift`: every digit of a group but the last. */
  function ShiftedDigit(c: Byte): Result<nat, string> {
    if Index(c).Some? then Ok(Index(c).value) else Err(NilShift)
  }

  /** One four-byte group: "xx==" gives one byte, "xxx=" two, anything else three. */
  function DecodeGroup(q: seq<Byte>): Result<seq<Byte>, string>
    requires |q| == 4
  {
    if q[2..4] == [Pad, Pad] then
      var i1 :- ShiftedDigit(q[0]);
      var i2 :- Digit(q[1]);
      var n := LShift(i1, 6) + i2;
      Ok([Extract(n, 4, 8)])
    else if q[3] == Pad then
      var i1 :- ShiftedDigit(q[0]);
      var i2 :- ShiftedDigit(q[1]);
      var i3 :- Digit(q[2]);
      var n := LShift(i1, 12) + LShift(i2, 6) + i3;
      Ok([Extract(n, 10, 8), Extract(n, 2, 8)])
    else
      var i1 :- ShiftedDigit(q[0]);
      var i2 :- ShiftedDigit(q[1]);
      var i3 :- ShiftedDigit(q[2]);
      var i4 :- Digit(q[3]);
      var n := LShift(i1, 18) + LShift(i2, 12) + LShift(i3, 6) + i4;
      Ok([Extract(n, 16, 8), Extract(n, 8, 8), Extract(n, 0, 8)])
  }

  function Decode(s: seq<Byte>): Result<seq<Byte>, string>
    decreases |s|
  {
    if |s| < 4 then Ok([])
    else
      var g :- DecodeGroup(s[..4]);
      var rest :- Decode(s[4..]);
      Ok(g + rest)
  }

  /** `prefix` followed by what is left to decode, or the error that ends it. */
  function Prepend(prefix: seq<Byte>, r: Result<seq<Byte>, string>): Result<seq<Byte>, string> {
    if r.Ok? then Ok(prefix + r.value) else r
  }

  /** `base64decode`; a thrown error becomes `Err`. */
  method Base64Decode(str: seq<Byte>) returns (r: Result<seq<Byte>, string>)
    ensures r == Decode(str)
  {
    var retval: seq<Byte> := [];
    var i := 0;
    assert Decode(str).Ok? ==> [] + Decode(str).value == Decode(str).value;
    while i + 4 <= |str|
      invariant 0 <= i <= |str|
      invariant Prepend(retval, Decode(str[i..])) == Decode(str)
    {
      var s := str[i..i + 4];
      assert str[i..][..4] == s && str[i..][4..] == str[i + 4..];
      var group := DecodeGroup(s);
      if group.Err? {
        return Err(group.error);
      }
      if Decode(str[i + 4..]).Ok? {
        assert retval + group.value + Decode(str[i + 4..]).value == retval + (group.value + Decode(str[i + 4..]).value);
      }
      retval := retval + group.value;
      i := i + 4;
    }
    r := Ok(retval);
    assert retval + [] == retval;
  }

  // ---------------------------------------------------------------- properties

  lemma GroupCount(n: nat)
    requires n >= 3
    ensures (n + 2) / 3 == (n - 1) / 3 + 1 && Padding(n) == Padding(n - 3)
  {
  }

  /** Four output bytes for every started group of three bytes. */
  lemma {:induction false} EncodeLength(s: seq<Byte>)
    ensures |Encode(s)| == 4 * ((|s| + 2) / 3)
    decreases |s|
  {
    if |s| >= 3 {
      EncodeLength(s[3..]);
      GroupCount(|s|);
    }
  }

  /** The number of '=' that pad the encoding of `n` bytes. */
  function Padding(n: nat): nat {
    (3 - n % 3) % 3
  }

  /** Digits followed by exactly `pad` '='. */
  predicate Shaped(r: seq<Byte>, pad: nat) {
    |r| >= pad &&
    (forall k :: 0 <= k < |r| - pad ==> Index(r[k]).Some?) &&
    (forall k :: |r| - pad <= k < |r| ==> r[k] == Pad)
  }

  lemma GroupShape(b1: Byte, b2: Byte, b3: Byte)
    ensures Shaped(EncodeGroup(b1, b2, b3), 0)
  {
    var n := (b1 as int) * 0x10000 + (b2 as int) * 0x100 + b3;
    AlphabetIndex(Extract(n, 18, 6));
    AlphabetIndex(Extract(n, 12, 6));
    AlphabetIndex(Extract(n, 6, 6));
    AlphabetIndex(Extract(n, 0, 6));
  }

  lemma TailShape(s: seq<Byte>)
    requires |s| < 3
    ensures Shaped(EncodeTail(s), Padding(|s|))
  {
    if |s| == 2 {
      var n := LShift((s[0] as int) * 0x100 + s[1], 2);
      AlphabetIndex(Extract(n, 12, 6));
      AlphabetIndex(Extract(n, 6, 6));
      AlphabetIndex(Extract(n, 0, 6));
    } else if |s| == 1 {
      var n := LShift(s[0], 4);
      AlphabetIndex(Extract(n, 6, 6));
      AlphabetIndex(Extract(n, 0, 6));
    }
  }

  lemma ShapedPrepend(g: seq<Byte>, r: seq<Byte>, pad: nat)
    requires Shaped(g, 0) && Shaped(r, pad)
    ensures Shaped(g + r, pad)
  {
    assert forall k :: 0 <= k < |g| ==> (g + r)[k] == g[k];
    assert forall k :: |g| <= k < |g + r| ==> (g + r)[k] == r[k - |g|];
  }

  /** The encoding is alphabet bytes followed by exactly `Padding(|s|)` '='. */
  lemma {:induction false} EncodeShape(s: seq<Byte>)
    ensures Shaped(Encode(s), Padding(|s|))
    decreases |s|
  {
    if |s| >= 3 {
      EncodeShape(s[3..]);
      GroupCount(|s|);
      GroupShape(s[0], s[1], s[2]);
      ShapedPrepend(EncodeGroup(s[0], s[1], s[2]), Encode(s[3..]), Padding(|s|));
    } else {
      TailShape(s);
    }
  }

  /** `b64strIndex` inverts `b64str`, both ways. */
  lemma AlphabetIndex(k: nat)
    requires k < 64
    ensures Index(Sym(k)) == Some(k)
  {
  }

  lemma IndexAlphabet(c: Byte)
    requires Index(c).Some?
    ensures Index(c).value < 64 && Sym(Index(c).value) == c
  {
  }

  lemma Powers()
    ensures Pow2(0) == 1 && Pow2(2) == 4 && Pow2(4) == 16 && Pow2(6) == 64 && Pow2(8) == 256
    ensures Pow2(10) == 1024 && Pow2(12) == 4096 && Pow2(16) == 65536 && Pow2(18) == 262144
  {
  }

  lemma SextetsOfGroup(b1: Byte, b2: Byte, b3: Byte)
    ensures var n := (b1 as int) * 0x10000 + (b2 as int) * 0x100 + b3;
      Extract(n, 18, 6) == b1 / 4 && Extract(n, 12, 6) == (b1 % 4) * 16 + b2 / 16 &&
      Extract(n, 6, 6) == (b2 % 16) * 4 + b3 / 64 && Extract(n, 0, 6) == b3 % 64
  {
    Sextet18(b1, b2, b3);
    Sextet12(b1, b2, b3);
    Sextet6(b1, b2, b3);
    Sextet0(b1, b2, b3);
  }

  lemma Sextet18(b1: Byte, b2: Byte, b3: Byte)
    ensures Extract((b1 as int) * 0x10000 + (b2 as int) * 0x100 + b3, 18, 6) == b1 / 4
  {
    Powers();
  }

  lemma Sextet12(b1: Byte, b2: Byte, b3: Byte)
    ensures Extract((b1 as int) * 0x10000 + (b2 as int) * 0x100 + b3, 12, 6) == (b1 % 4) * 16 + b2 / 16
  {
    Powers();
    var n := (b1 as int) * 0x10000 + (b2 as int) * 0x100 + b3;
    var q := (b1 as int) * 16 + b2 / 16;
    assert n == q * 4096 + ((b2 % 16) * 256 + b3);
    assert n / 4096 == q;
    assert q == (b1 / 4) * 64 + ((b1 % 4) * 16 + b2 / 16);
  }

  lemma Sextet6(b1: Byte, b2: Byte, b3: Byte)
    ensures Extract((b1 as int) * 0x10000 + (b2 as int) * 0x100 + b3, 6, 6) == (b2 % 16) * 4 + b3 / 64
  {
    Powers();
    var n := (b1 as int) * 0x10000 + (b2 as int) * 0x100 + b3;
    var q := (b1 as int) * 1024 + (b2 as int) * 4 + b3 / 64;
    assert n == q * 64 + b3 % 64;
    assert n / 64 == q;
    assert q == ((b1 as int) * 16 + b2 / 16) * 64 + ((b2 % 16) * 4 + b3 / 64);
  }

  lemma Sextet0(b1: Byte, b2: Byte, b3: Byte)
    ensures Extract((b1 as int) * 0x10000 + (b2 as int) * 0x100 + b3, 0, 6) == b3 % 64
  {
    Powers();
  }

  lemma BytesOfGroup(b1: Byte, b2: Byte, b3: Byte)
    ensures var n := (b1 as int) * 0x10000 + (b2 as int) * 0x100 + b3;
      Extract(n, 16, 8) == b1 && Extract(n, 8, 8) == b2 && Extract(n, 0, 8) == b3
  {
    Powers();
  }

  lemma SextetsOfPair(b1: Byte, b2: Byte)
    ensures var n := LShift((b1 as int) * 0x100 + b2, 2);
      Extract(n, 12, 6) == b1 / 4 && Extract(n, 6, 6) == (b1 % 4) * 16 + b2 / 16 && Extract(n, 0, 6) == (b2 % 16) * 4
  {
    Powers();
    var n := LShift((b1 as int) * 0x100 + b2, 2);
    assert n == (b1 as int) * 0x400 + (b2 as int) * 4;
    PairSextet12(b1, b2, n);
    PairSextet6(b1, b2, n);
    PairSextet0(b1, b2, n);
  }

  lemma PairSextet12(b1: Byte, b2: Byte, n: nat)
    requires n == (b1 as int) * 0x400 + (b2 as int) * 4
    ensures Extract(n, 12, 6) == b1 / 4
  {
    Powers();
  }

  lemma PairSextet6(b1: Byte, b2: Byte, n: nat)
    requires n == (b1 as int) * 0x400 + (b2 as int) * 4
    ensures Extract(n, 6, 6) == (b1 % 4) * 16 + b2 / 16
  {
    Powers();
    var q := (b1 as int) * 16 + b2 / 16;
    assert n == q * 64 + (b2 % 16) * 4;
    assert n / 64 == q;
    assert q == (b1 / 4) * 64 + ((b1 % 4) * 16 + b2 / 16);
  }

  lemma PairSextet0(b1: Byte, b2: Byte, n: nat)
    requires n == (b1 as int) * 0x400 + (b2 as int) * 4
    ensures Extract(n, 0, 6) == (b2 % 16) * 4
  {
    Powers();
  }

  /** The padding byte is not a digit. */
  lemma SymNotPad(k: nat)
    requires k < 64
    ensures Sym(k) != Pad
  {
  }

  lemma BytesOfPair(b1: Byte, b2: Byte)
    ensures var n := LShift((b1 as int) * 0x100 + b2, 2);
      Extract(n, 10, 8) == b1 && Extract(n, 2, 8) == b2
  {
    Powers();
  }

  lemma SextetsOfByte(b1: Byte)
    ensures Extract(LShift(b1, 4), 6, 6) == b1 / 4 && Extract(LShift(b1, 4), 0, 6) == (b1 % 4) * 16
    ensures Extract(LShift(b1, 4), 4, 8) == b1
  {
    Powers();
  }

  /** The four digits of a group and the three bytes they give back. */
  lemma GroupRoundTrip(b1: Byte, b2: Byte, b3: Byte)
    ensures DecodeGroup(EncodeGroup(b1, b2, b3)) == Ok([b1, b2, b3])
  {
    Powers();
    var n := (b1 as int) * 0x10000 + (b2 as int) * 0x100 + b3;
    var a, b, c, d := b1 / 4, (b1 % 4) * 16 + b2 / 16, (b2 % 16) * 4 + b3 / 64, b3 % 64;
    SextetsOfGroup(b1, b2, b3);
    AlphabetIndex(a);
    AlphabetIndex(b);
    AlphabetIndex(c);
    AlphabetIndex(d);
    var q := EncodeGroup(b1, b2, b3);
    assert q == [Sym(a), Sym(b), Sym(c), Sym(d)];
    SymNotPad(c);
    SymNotPad(d);
    assert q[2..4] != [Pad, Pad] by { assert q[2..4][0] == q[2]; }
    assert ShiftedDigit(q[0]) == Ok(a) && ShiftedDigit(q[1]) == Ok(b) && ShiftedDigit(q[2]) == Ok(c) && Digit(q[3]) == Ok(d);
    assert LShift(a, 18) + LShift(b, 12) + LShift(c, 6) + d == n;
    BytesOfGroup(b1, b2, b3);
  }

  lemma TailRoundTrip(s: seq<Byte>)
    requires 0 < |s| < 3
    ensures DecodeGroup(EncodeTail(s)) == Ok(s)
  {
    Powers();
    if |s| == 2 {
      var n := LShift((s[0] as int) * 0x100 + s[1], 2);
      var a, b, c := s[0] / 4, (s[0] % 4) * 16 + s[1] / 16, (s[1] % 16) * 4;
      SextetsOfPair(s[0], s[1]);
      AlphabetIndex(a);
      AlphabetIndex(b);
      AlphabetIndex(c);
      var q := EncodeTail(s);
      assert q == [Sym(a), Sym(b), Sym(c), Pad];
      SymNotPad(c);
      assert q[2..4] != [Pad, Pad] by { assert q[2..4][0] == q[2]; }
      assert ShiftedDigit(q[0]) == Ok(a) && ShiftedDigit(q[1]) == Ok(b) && Digit(q[2]) == Ok(c);
      assert LShift(a, 12) + LShift(b, 6) + c == n;
      BytesOfPair(s[0], s[1]);
      assert [s[0], s[1]] == s;
    } else {
      var a, b := s[0] / 4, (s[0] % 4) * 16;
      SextetsOfByte(s[0]);
      AlphabetIndex(a);
      AlphabetIndex(b);
      var q := EncodeTail(s);
      assert q == [Sym(a), Sym(b), Pad, Pad];
      assert q[2..4] == [Pad, Pad];
      assert ShiftedDigit(q[0]) == Ok(a) && Digit(q[1]) == Ok(b);
      assert LShift(a, 6) + b == LShift(s[0], 4);
      assert [s[0]] == s;
    }
  }

  /** Decoding undoes encoding. */
  lemma {:induction false} RoundTrip(s: seq<Byte>)
    ensures Decode(Encode(s)) == Ok(s)
    decreases |s|
  {
    if |s| >= 3 {
      var g := EncodeGroup(s[0], s[1], s[2]);
      var r := Encode(s[3..]);
      GroupRoundTrip(s[0], s[1], s[2]);
      RoundTrip(s[3..]);
      assert (g + r)[..4] == g && (g + r)[4..] == r;
      assert [s[0], s[1], s[2]] + s[3..] == s;
    } else if |s| > 0 {
      TailRoundTrip(s);
      assert EncodeTail(s)[..4] == EncodeTail(s) && EncodeTail(s)[4..] == [];
      assert s + [] == s;
    }
  }

  /** A trailing partial group is ignored. */
  lemma {:induction false} DecodeIgnoresPartialGroup(s: seq<Byte>)
    ensures Decode(s) == Decode(s[..|s| - |s| % 4])
    decreases |s|
  {
    if |s| >= 4 {
      var t := s[..|s| - |s| % 4];
      assert t[..4] == s[..4] && t[4..] == s[4..][..|s[4..]| - |s[4..]| % 4];
      DecodeIgnoresPartialGroup(s[4..]);
    }
  }

  /** How many digits a group is read with: two before "==", three before "=", four otherwise. */
  function GroupDigits(q: seq<Byte>): nat
    requires |q| == 4
  {
    if q[2..4] == [Pad, Pad] then 2 else if q[3] == Pad then 3 else 4
  }

  /**
   * A group fails exactly when one of the digits it is read with is outside the alphabet.
   * The error is the `+` one when the only such digits are the last, the one that is only
   * added; otherwise `bit.lshift` has refused an earlier digit first.
   */
  lemma GroupErrors(q: seq<Byte>)
    requires |q| == 4
    ensures DecodeGroup(q).Err? <==> exists k :: 0 <= k < GroupDigits(q) && Index(q[k]).None?
    ensures DecodeGroup(q) == Err(NilArithmetic) <==>
              (forall k :: 0 <= k < GroupDigits(q) - 1 ==> Index(q[k]).Some?) && Index(q[GroupDigits(q) - 1]).None?
    ensures DecodeGroup(q).Err? ==> DecodeGroup(q).error == NilArithmetic || DecodeGroup(q).error == NilShift
  {
  }

  /**
   * The encoded text is read byte by byte, not character by character: the UTF-8 bytes
   * of "AAAAAA€" are six 'A' and 0xE2 0x82 0xAC, so the second group holds the first two
   * bytes of '€', which are outside the alphabet, and `bit.lshift` refuses the first.
   */
  lemma MultiByteCharacter()
    ensures Decode([65, 65, 65, 65, 65, 65, 0xE2, 0x82, 0xAC]) == Err(NilShift)
  {
    var s: seq<Byte> := [65, 65, 65, 65, 65, 65, 0xE2, 0x82, 0xAC];
    assert s[..4] == [65, 65, 65, 65] && s[4..] == [65, 65, 0xE2, 0x82, 0xAC];
    assert s[4..][..4] == [65, 65, 0xE2, 0x82];
  }
}
