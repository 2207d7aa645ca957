/** UTF-8 as RFC 3629 section 4 defines it, and the lossy decoding of `String::from_utf8_lossy`.

    Lossy decoding walks the bytes unit by unit. A unit is a well-formed character, or the
    longest ill-formed run that starts like one; an ill-formed unit becomes U+FFFD. */
module Utf8 {
  import opened Text

  /** Length of the character a lead byte announces; 0 if no character starts with it. */
  function Announced(lead: int): nat {
    if 0 <= lead < 0x80 then 1
    else if 0xC2 <= lead <= 0xDF then 2
    else if 0xE0 <= lead <= 0xEF then 3
    else if 0xF0 <= lead <= 0xF4 then 4
    else 0
  }

  predicate Continuation(b: int) {
    0x80 <= b <= 0xBF
  }

  predicate SecondByte(lead: int, b: int) {
    if lead == 0xE0 then 0xA0 <= b <= 0xBF
    else if lead == 0xED then 0x80 <= b <= 0x9F
    else if lead == 0xF0 then 0x90 <= b <= 0xBF
    else if lead == 0xF4 then 0x80 <= b <= 0x8F
    else Continuation(b)
  }

  /** Number of bytes in the unit at the start of `b`. */
  function UnitLen(b: Bytes): (n: nat)
    requires b != []
    ensures 1 <= n <= |b|
    ensures forall i | 1 <= i < n :: b[i] as int >= 0x80
  {
    var w := Announced(b[0] as int);
    if w < 2 || |b| < 2 || !SecondByte(b[0] as int, b[1] as int) then 1
    else if w < 3 || |b| < 3 || !Continuation(b[2] as int) then 2
    else if w < 4 || |b| < 4 || !Continuation(b[3] as int) then 3
    else 4
  }

  predicate WellFormedUnit(b: Bytes)
    requires b != []
  {
    Announced(b[0] as int) == UnitLen(b)
  }

  /** The whole byte string is well-formed UTF-8. */
  predicate Valid(b: Bytes) {
    |b| == 0 || (WellFormedUnit(b) && Valid(b[UnitLen(b)..]))
  }

  /** U+FFFD REPLACEMENT CHARACTER. */
  const REPLACEMENT: Bytes := [0xEF as char, 0xBF as char, 0xBD as char]

  function Decoded(b: Bytes): Bytes
    requires b != []
  {
    if WellFormedUnit(b) then b[..UnitLen(b)] else REPLACEMENT
  }

  function Lossy(b: Bytes): Bytes {
    if |b| == 0 then [] else Decoded(b) + Lossy(b[UnitLen(b)..])
  }

  lemma LossyOfNothing()
    ensures Lossy([]) == []
  {
  }

  lemma LossyStep(b: Bytes)
    requires |b| > 0
    ensures Lossy(b) == Decoded(b) + Lossy(b[UnitLen(b)..])
  {
  }

  /** Decoding never shortens the text, and leaves it alone exactly when it is well-formed. */
  lemma {:induction false} LosslessIffValid(b: Bytes)
    ensures |Lossy(b)| >= |b|
    ensures Lossy(b) == b <==> Valid(b)
  {
    if b != [] {
      var n := UnitLen(b);
      LosslessIffValid(b[n..]);
      assert b == b[..n] + b[n..];
      assert Lossy(b)[..|Decoded(b)|] == Decoded(b);
      assert Lossy(b)[|Decoded(b)|..] == Lossy(b[n..]);
    }
  }

  lemma AsciiIsValid(b: Bytes)
    requires Ascii(b)
    ensures Valid(b)
  {
    if b != [] {
      assert UnitLen(b) == 1;
      AsciiIsValid(b[1..]);
    }
  }

  // ---- Characters ------------------------------------------------------------------------------

  /** A character number that UTF-8 can encode: any but the surrogates. */
  predicate Scalar(c: nat) {
    c < 0xD800 || 0xE000 <= c < 0x11_0000
  }

  /** The encoding of a character, as the table in section 3 of RFC 3629 gives it. */
  function Encoded(c: nat): Bytes
    requires Scalar(c)
  {
    if c < 0x80 then [c as char]
    else if c < 0x800 then [(0xC0 + c / 0x40) as char, (0x80 + c % 0x40) as char]
    else if c < 0x1_0000 then
      [(0xE0 + c / 0x1000) as char, (0x80 + c / 0x40 % 0x40) as char, (0x80 + c % 0x40) as char]
    else
      [(0xF0 + c / 0x4_0000) as char, (0x80 + c / 0x1000 % 0x40) as char, (0x80 + c / 0x40 % 0x40) as char,
       (0x80 + c % 0x40) as char]
  }

  function EncodedAll(cs: seq<nat>): Bytes
    requires forall c | c in cs :: Scalar(c)
  {
    if |cs| == 0 then [] else Encoded(cs[0]) + EncodedAll(cs[1..])
  }

  /** The character a well-formed unit encodes. */
  function CharacterOf(b: Bytes): nat
    requires b != [] && WellFormedUnit(b)
  {
    var b0, n := b[0] as int, UnitLen(b);
    if n == 1 then b0
    else if n == 2 then 0x40 * (b0 - 0xC0) + (b[1] as int - 0x80)
    else if n == 3 then 0x1000 * (b0 - 0xE0) + 0x40 * (b[1] as int - 0x80) + (b[2] as int - 0x80)
    else 0x4_0000 * (b0 - 0xF0) + 0x1000 * (b[1] as int - 0x80) + 0x40 * (b[2] as int - 0x80) + (b[3] as int - 0x80)
  }

  lemma SixBits(high: nat, low: nat)
    requires low < 0x40
    ensures (0x40 * high + low) / 0x40 == high && (0x40 * high + low) % 0x40 == low
  {
  }

  lemma TwelveBits(high: nat, mid: nat, low: nat)
    requires mid < 0x40 && low < 0x40
    ensures
      var c := 0x1000 * high + 0x40 * mid + low;
      c / 0x1000 == high && c / 0x40 % 0x40 == mid && c % 0x40 == low && c / 0x40 == 0x40 * high + mid
  {
    SixBits(0x40 * high + mid, low);
    SixBits(high, mid);
    assert 0x1000 * high + 0x40 * mid + low == 0x40 * (0x40 * high + mid) + low;
  }

  lemma EighteenBits(top: nat, high: nat, mid: nat, low: nat)
    requires high < 0x40 && mid < 0x40 && low < 0x40
    ensures
      var c := 0x4_0000 * top + 0x1000 * high + 0x40 * mid + low;
      c / 0x4_0000 == top && c / 0x1000 % 0x40 == high && c / 0x40 % 0x40 == mid && c % 0x40 == low
  {
    TwelveBits(0x40 * top + high, mid, low);
    SixBits(top, high);
    var c := 0x4_0000 * top + 0x1000 * high + 0x40 * mid + low;
    assert c == 0x1000 * (0x40 * top + high) + 0x40 * mid + low;
    assert c / 0x4_0000 == top;
  }

  lemma UnitIsEncoding(b: Bytes)
    requires b != [] && WellFormedUnit(b)
    ensures Scalar(CharacterOf(b)) && Encoded(CharacterOf(b)) == b[..UnitLen(b)]
  {
    var n := UnitLen(b);
    var b0 := b[0] as int;
    if n == 2 {
      SixBits(b0 - 0xC0, b[1] as int - 0x80);
    } else if n == 3 {
      ThreeBytes(b);
    } else if n == 4 {
      FourBytes(b);
    }
  }

  lemma ThreeBytes(b: Bytes)
    requires b != [] && WellFormedUnit(b) && UnitLen(b) == 3
    ensures Scalar(CharacterOf(b)) && Encoded(CharacterOf(b)) == b[..3]
  {
    var b0, b1, b2 := b[0] as int, b[1] as int, b[2] as int;
    var c := CharacterOf(b);
    TwelveBits(b0 - 0xE0, b1 - 0x80, b2 - 0x80);
    assert 0x800 <= c < 0x1_0000 && Scalar(c);
    assert Encoded(c) == [b[0], b[1], b[2]];
  }

  lemma FourBytes(b: Bytes)
    requires b != [] && WellFormedUnit(b) && UnitLen(b) == 4
    ensures Scalar(CharacterOf(b)) && Encoded(CharacterOf(b)) == b[..4]
  {
    var b0, b1, b2, b3 := b[0] as int, b[1] as int, b[2] as int, b[3] as int;
    var c := CharacterOf(b);
    EighteenBits(b0 - 0xF0, b1 - 0x80, b2 - 0x80, b3 - 0x80);
    assert 0x1_0000 <= c < 0x11_0000;
    assert Encoded(c) == [b[0], b[1], b[2], b[3]];
  }

  lemma EncodingIsUnit(c: nat, rest: Bytes)
    requires Scalar(c)
    ensures
      var b := Encoded(c) + rest;
      b != [] && WellFormedUnit(b) && UnitLen(b) == |Encoded(c)| && b[UnitLen(b)..] == rest
  {
  }

  /** Bytes are well-formed if and only if they encode some characters. */
  lemma ValidIffEncodes(b: Bytes)
    ensures Valid(b) <==> exists cs: seq<nat> :: (forall c | c in cs :: Scalar(c)) && EncodedAll(cs) == b
  {
    if Valid(b) {
      var cs := CharactersIn(b);
    } else if cs: seq<nat> :| (forall c | c in cs :: Scalar(c)) && EncodedAll(cs) == b {
      EncodingIsValid(cs);
    }
  }

  lemma {:induction false} CharactersIn(b: Bytes) returns (cs: seq<nat>)
    requires Valid(b)
    ensures (forall c | c in cs :: Scalar(c)) && EncodedAll(cs) == b
  {
    cs := [];
    if |b| > 0 {
      var n := UnitLen(b);
      var rest := CharactersIn(b[n..]);
      UnitIsEncoding(b);
      cs := [CharacterOf(b)] + rest;
      assert cs[1..] == rest && b == b[..n] + b[n..];
    }
  }

  lemma {:induction false} EncodingIsValid(cs: seq<nat>)
    requires forall c | c in cs :: Scalar(c)
    ensures Valid(EncodedAll(cs))
  {
    if |cs| > 0 {
      EncodingIsValid(cs[1..]);
      EncodingIsUnit(cs[0], EncodedAll(cs[1..]));
    }
  }

  /** Cutting at an offset where a unit starts does not change the units before it. */
  lemma UnitInPrefix(b: Bytes, i: nat)
    requires b != [] && UnitLen(b) <= i <= |b|
    ensures UnitLen(b[..i]) == UnitLen(b)
    ensures Decoded(b[..i]) == Decoded(b)
    ensures WellFormedUnit(b[..i]) == WellFormedUnit(b)
  {
    assert b[..i][..UnitLen(b)] == b[..UnitLen(b)];
  }

  /** No unit reaches across an ASCII byte, so decoding splits there, whatever the bytes are. */
  lemma {:induction false} LossySplitsAtAscii(b: Bytes, i: nat)
    requires i < |b| && b[i] as int < 0x80
    ensures Lossy(b) == Lossy(b[..i]) + Lossy(b[i..])
    decreases |b|
  {
    hide UnitLen, WellFormedUnit, Announced, Lossy, Decoded;
    if i > 0 {
      var n := UnitLen(b);
      assert n <= i;
      UnitInPrefix(b, i);
      SlicesOfTail(b, n, i);
      LossySplitsAtAscii(b[n..], i - n);
      LossyStep(b);
      LossyStep(b[..i]);
      Associative(Decoded(b), Lossy(b[n..][..i - n]), Lossy(b[i..]));
    } else {
      assert b[..0] == [] && b[0..] == b && [] + Lossy(b) == Lossy(b);
      LossyOfNothing();
    }
  }

  /** A well-formed stream splits at an ASCII byte into two well-formed streams. */
  lemma {:induction false} ValidSplitsAtAscii(b: Bytes, i: nat)
    requires Valid(b) && i < |b| && b[i] as int < 0x80
    ensures Valid(b[..i]) && Valid(b[i..])
    decreases |b|
  {
    hide UnitLen, WellFormedUnit, Announced;
    if i > 0 {
      var n := UnitLen(b);
      assert n <= i;
      UnitInPrefix(b, i);
      SlicesOfTail(b, n, i);
      ValidSplitsAtAscii(b[n..], i - n);
    } else {
      assert b[..0] == [] && b[0..] == b;
    }
  }

  /** A complete character stays the same unit whatever follows it. */
  lemma UnitExtends(a: Bytes, b: Bytes)
    requires a != [] && WellFormedUnit(a)
    ensures UnitLen(a + b) == UnitLen(a)
    ensures WellFormedUnit(a + b)
  {
    var s := a + b;
    assert forall i | 0 <= i < |a| :: s[i] == a[i];
  }

  lemma {:induction false} ValidConcat(a: Bytes, b: Bytes)
    requires Valid(a) && Valid(b)
    ensures Valid(a + b)
    decreases |a|
  {
    hide UnitLen, WellFormedUnit;
    if a == [] {
      assert a + b == b;
    } else {
      var n := UnitLen(a);
      UnitExtends(a, b);
      assert (a + b)[n..] == a[n..] + b;
      ValidConcat(a[n..], b);
    }
  }

  lemma {:induction false} ValidDropsAscii(b: Bytes, k: nat)
    requires Valid(b) && k <= |b| && Ascii(b[..k])
    ensures Valid(b[k..])
    decreases k
  {
    if k == 0 {
      assert b[0..] == b;
    } else {
      assert b[0] == b[..k][0];
      assert UnitLen(b) == 1;
      assert b[1..][..k - 1] == b[..k][1..];
      ValidDropsAscii(b[1..], k - 1);
      assert b[1..][k - 1..] == b[k..];
    }
  }

  /** Cutting an ASCII run out of a well-formed stream leaves two well-formed streams. */
  lemma ValidAroundAscii(b: Bytes, i: nat, k: nat)
    requires Valid(b) && i + k <= |b| && Ascii(b[i..i + k]) && k > 0
    ensures Valid(b[..i]) && Valid(b[i..]) && Valid(b[i + k..])
  {
    hide Valid;
    assert b[i] == b[i..i + k][0];
    ValidSplitsAtAscii(b, i);
    assert b[i..][..k] == b[i..i + k];
    ValidDropsAscii(b[i..], k);
    assert b[i..][k..] == b[i + k..];
  }

  /** An ASCII pattern is a prefix of the bytes iff it is a prefix of the decoded text. */
  lemma {:induction false} AsciiPrefixSurvives(pat: Bytes, b: Bytes)
    requires Ascii(pat)
    ensures pat <= b <==> pat <= Lossy(b)
    decreases |pat|
  {
    if pat != [] && b != [] {
      var n := UnitLen(b);
      if b[0] as int < 0x80 {
        assert n == 1 && Lossy(b) == [b[0]] + Lossy(b[1..]);
        AsciiPrefixSurvives(pat[1..], b[1..]);
        assert pat <= b <==> pat[0] == b[0] && pat[1..] <= b[1..];
        assert pat <= Lossy(b) <==> pat[0] == b[0] && pat[1..] <= Lossy(b)[1..];
      } else {
        assert Lossy(b)[0] as int >= 0x80;
        assert pat[0] as int < 0x80;
      }
    }
  }

  /** Where an ASCII pattern is found in the lossy text, for every byte string: its offset is
      the decoded length of what precedes the first raw occurrence, and that text is the decoding
      of those bytes. */
  lemma {:induction false} FindInLossy(pat: Bytes, b: Bytes)
    requires Ascii(pat) && pat != []
    ensures Find(pat, b).Nowhere? ==> Find(pat, Lossy(b)).Nowhere?
    ensures Find(pat, b).At? ==>
              var i := Find(pat, b).index;
              && Find(pat, Lossy(b)) == At(|Lossy(b[..i])|)
              && Lossy(b) == Lossy(b[..i]) + Lossy(b[i..])
    decreases |b|
  {
    hide Lossy, Find;
    FindIsFirst(pat, b);
    if Find(pat, b).At? {
      var i := Find(pat, b).index;
      assert b[i] == b[i..i + |pat|][0] == pat[0];
      LossySplitsAtAscii(b, i);
      AsciiPrefixSurvives(pat, b[i..]);
      assert pat <= b[i..];
      var p := |Lossy(b[..i])|;
      assert Lossy(b)[p..] == Lossy(b[i..]);
      assert OccursAt(pat, Lossy(b), p);
      forall j: nat | j < p
        ensures !OccursAt(pat, Lossy(b), j)
      {
        if OccursAt(pat, Lossy(b), j) {
          var k := RawOccurrence(pat, b, j);
          if k >= i { LossyPrefixMonotone(b, i, k); assert false; }
        }
      }
      FindIs(pat, Lossy(b), p);
    } else {
      forall j: nat
        ensures !OccursAt(pat, Lossy(b), j)
      {
        if OccursAt(pat, Lossy(b), j) {
          var k := RawOccurrence(pat, b, j);
        }
      }
    }
  }

  /** Every occurrence in the lossy text comes from an occurrence in the bytes. */
  lemma {:induction false} RawOccurrence(pat: Bytes, b: Bytes, j: nat) returns (k: nat)
    requires Ascii(pat) && pat != [] && OccursAt(pat, Lossy(b), j)
    ensures OccursAt(pat, b, k) && |Lossy(b[..k])| == j
    decreases |b|
  {
    hide UnitLen, WellFormedUnit, Lossy, Decoded;
    if j == 0 {
      AsciiPrefixSurvives(pat, b);
      LossyOfNothing();
      k := 0;
      assert b[..0] == [];
    } else {
      OccurrenceClearsUnit(pat, b, j);
      LossyStep(b);
      var n, m := UnitLen(b), |Decoded(b)|;
      OccursInSuffix(pat, Decoded(b), Lossy(b[n..]), j - m);
      var k' := RawOccurrence(pat, b[n..], j - m);
      k := n + k';
      assert b == b[..n] + b[n..];
      OccursInSuffix(pat, b[..n], b[n..], k');
      LossyOfPrefix(b, k);
    }
  }

  lemma OccursInSuffix(pat: Bytes, a: Bytes, b: Bytes, i: nat)
    ensures OccursAt(pat, a + b, |a| + i) <==> OccursAt(pat, b, i)
  {
    if i + |pat| <= |b| {
      assert (a + b)[|a| + i..|a| + i + |pat|] == b[i..i + |pat|];
    }
  }

  lemma LossyOfPrefix(b: Bytes, k: nat)
    requires b != [] && UnitLen(b) <= k <= |b|
    ensures Lossy(b[..k]) == Decoded(b) + Lossy(b[UnitLen(b)..][..k - UnitLen(b)])
  {
    UnitInPrefix(b, k);
    assert b[..k][UnitLen(b)..] == b[UnitLen(b)..][..k - UnitLen(b)];
  }

  /** An ASCII pattern never starts inside a decoded unit. */
  lemma OccurrenceClearsUnit(pat: Bytes, b: Bytes, j: nat)
    requires Ascii(pat) && pat != [] && OccursAt(pat, Lossy(b), j) && 0 < j
    ensures b != [] && |Decoded(b)| <= j
  {
    assert Lossy(b)[j] == Lossy(b)[j..j + |pat|][0] == pat[0];
    assert 0x80 > pat[0] as int;
  }

  lemma {:induction false} LossyPrefixMonotone(b: Bytes, i: nat, k: nat)
    requires i <= k < |b| && b[k] as int < 0x80 && b[i] as int < 0x80
    ensures |Lossy(b[..i])| <= |Lossy(b[..k])|
  {
    if i < k {
      LossySplitsAtAscii(b[..k], i);
      assert b[..k][..i] == b[..i];
    }
  }

  // ---- A stream cut off in the middle of a character ---------------------------------------

  /** Only bytes outside ASCII. */
  predicate High(s: Bytes) {
    forall i | 0 <= i < |s| :: s[i] as int >= 0x80
  }

  lemma TruncatedUnit(b: Bytes, k: nat)
    requires |b| > 0 && WellFormedUnit(b) && 0 < k < UnitLen(b)
    ensures UnitLen(b[..k]) == k && !WellFormedUnit(b[..k]) && High(b[..k])
  {
    assert forall i | 0 <= i < k :: b[..k][i] == b[i];
  }

  /** A prefix of a well-formed stream is whole characters `w` and perhaps the start `t` of one
      more; its decoding is `w` and perhaps a replacement `r`. */
  lemma {:induction false} DecodeCutStream(b: Bytes, later: Bytes) returns (w: Bytes, t: Bytes, r: Bytes)
    requires Valid(b + later)
    ensures b == w + t && Lossy(b) == w + r && High(t) && High(r)
    decreases |b|
  {
    hide UnitLen, WellFormedUnit, Lossy, Decoded, Announced;
    var s := b + later;
    if |b| == 0 {
      LossyOfNothing();
      w, t, r := [], [], [];
    } else if UnitLen(s) <= |b| {
      var n := UnitLen(s);
      assert s[..|b|] == b;
      UnitInPrefix(s, |b|);
      assert s[n..] == b[n..] + later;
      var w', t', r' := DecodeCutStream(b[n..], later);
      LossyStep(b);
      DecodedIsUnit(b);
      w, t, r := b[..n] + w', t', r';
      Associative(b[..n], w', t);
      Associative(b[..n], w', r);
      assert b == b[..n] + b[n..];
    } else {
      assert s[..|b|] == b;
      TruncatedUnit(s, |b|);
      LossyStep(b);
      LossyOfNothing();
      assert b[|b|..] == [];
      DecodedIsUnit(b);
      w, t, r := [], b, REPLACEMENT;
    }
  }

  lemma DecodedIsUnit(b: Bytes)
    requires |b| > 0
    ensures Decoded(b) == if WellFormedUnit(b) then b[..UnitLen(b)] else REPLACEMENT
  {
  }

  lemma OccursOnlyBeforeHigh(pat: Bytes, w: Bytes, t: Bytes, j: nat)
    requires Ascii(pat) && |pat| > 0 && High(t)
    ensures OccursAt(pat, w + t, j) <==> OccursAt(pat, w, j)
  {
    if j + |pat| <= |w| {
      OccursInPrefix(pat, w, t, j);
    } else if j + |pat| <= |w| + |t| {
      var last := |pat| - 1;
      assert (w + t)[j..j + |pat|][last] == (w + t)[j + last] == t[j + last - |w|];
      assert pat[last] as int < 0x80;
    }
  }

  /** The search for an ASCII pattern does not see what follows the whole characters. */
  lemma FindIgnoresHigh(pat: Bytes, w: Bytes, t: Bytes)
    requires Ascii(pat) && |pat| > 0 && High(t)
    ensures Find(pat, w + t) == Find(pat, w)
  {
    hide Find, OccursAt;
    forall j: nat
      ensures OccursAt(pat, w + t, j) <==> OccursAt(pat, w, j)
    {
      OccursOnlyBeforeHigh(pat, w, t, j);
    }
    FindIsFirst(pat, w);
    var r := Find(pat, w);
    if r.At? {
      FindIs(pat, w + t, r.index);
    }
  }

  lemma LastIndexIgnoresHigh(c: char, w: Bytes, t: Bytes)
    requires c as int < 0x80 && High(t)
    ensures LastIndexOf(c, w + t) == LastIndexOf(c, w)
  {
    hide LastIndexOf;
    var r := LastIndexOf(c, w);
    if r.At? {
      LastIndexIs(c, w + t, r.index);
    }
  }
}
