/** Byte strings and the few standard-library text operations the translators rely on.

    A `Bytes` value stands for a byte string: the character with code `n` is the byte `n`.
    A Rust `String` is its UTF-8 byte string, so every offset below is a byte offset,
    exactly as `str::find` reports it. */
module Text {

  datatype Option<+T> = None | Some(value: T) {
    function GetOr(default: T): T {
      if Some? then value else default
    }
  }

  datatype Result<+T, +E> = Ok(value: T) | Err(error: E)

  type Bytes = string

  /** Where a search found what it looked for. */
  datatype Position = Nowhere | At(index: nat)

  const NL: Bytes := "\n"
  const BLANK_LINE: Bytes := "\n\n"

  predicate Ascii(s: Bytes) {
    forall i | 0 <= i < |s| :: s[i] as int < 0x80
  }

  predicate NoByte(c: char, s: Bytes) {
    forall i | 0 <= i < |s| :: s[i] != c
  }

  function Concat<T>(parts: seq<seq<T>>): seq<T> {
    if |parts| == 0 then [] else parts[0] + Concat(parts[1..])
  }

  lemma ConcatOfNothing<T>()
    ensures Concat<T>([]) == []
  {
  }

  lemma ConcatAppend<T>(a: seq<seq<T>>, b: seq<seq<T>>)
    ensures Concat(a + b) == Concat(a) + Concat(b)
  {
    if a == [] {
      assert a + b == b;
    } else {
      assert (a + b)[1..] == a[1..] + b;
      ConcatAppend(a[1..], b);
    }
  }

  /** `pat` occurs in `t` at offset `i`. */
  predicate OccursAt(pat: Bytes, t: Bytes, i: nat) {
    i + |pat| <= |t| && t[i..i + |pat|] == pat
  }

  /** `str::find`: the offset of the first occurrence. */
  function Find(pat: Bytes, t: Bytes): (r: Position)
    ensures r.At? ==> OccursAt(pat, t, r.index) && r.index + |pat| <= |t|
  {
    FindFrom(pat, t, 0)
  }

  function FindFrom(pat: Bytes, t: Bytes, i: nat): (r: Position)
    requires i <= |t|
    ensures r.At? ==> i <= r.index && OccursAt(pat, t, r.index)
    decreases |t| - i
  {
    if OccursAt(pat, t, i) then At(i)
    else if i == |t| then Nowhere
    else FindFrom(pat, t, i + 1)
  }

  lemma {:induction false} FindFromIsFirst(pat: Bytes, t: Bytes, i: nat)
    requires i <= |t|
    ensures FindFrom(pat, t, i).At? ==> forall j | i <= j < FindFrom(pat, t, i).index :: !OccursAt(pat, t, j)
    ensures FindFrom(pat, t, i).Nowhere? ==> forall j: nat | i <= j :: !OccursAt(pat, t, j)
    decreases |t| - i
  {
    if !OccursAt(pat, t, i) && i < |t| {
      FindFromIsFirst(pat, t, i + 1);
    }
  }

  /** Nothing occurs before the offset `Find` reports, and nothing at all when it reports none. */
  lemma FindIsFirst(pat: Bytes, t: Bytes)
    ensures Find(pat, t).At? ==> forall j: nat | j < Find(pat, t).index :: !OccursAt(pat, t, j)
    ensures Find(pat, t).Nowhere? ==> forall j: nat :: !OccursAt(pat, t, j)
  {
    FindFromIsFirst(pat, t, 0);
  }

  lemma FindIs(pat: Bytes, t: Bytes, i: nat)
    requires OccursAt(pat, t, i)
    requires forall j: nat | j < i :: !OccursAt(pat, t, j)
    ensures Find(pat, t) == At(i)
  {
    FindIsFirst(pat, t);
  }

  /** An occurrence in a prefix is an occurrence in the whole, and an occurrence that ends
      within the prefix is an occurrence in the prefix. */
  lemma OccursInPrefix(pat: Bytes, a: Bytes, b: Bytes, i: nat)
    requires i + |pat| <= |a|
    ensures OccursAt(pat, a + b, i) <==> OccursAt(pat, a, i)
  {
    assert (a + b)[i..i + |pat|] == a[i..i + |pat|];
  }

  /** Cutting `k` bytes at offset `i` out of the first part of a concatenation. */
  lemma SlicesOfAppend(a: Bytes, b: Bytes, i: nat, k: nat)
    requires i + k <= |a|
    ensures (a + b)[..i] == a[..i]
    ensures (a + b)[i..i + k] == a[i..i + k]
    ensures (a + b)[i + k..] == a[i + k..] + b
  {
  }

  lemma SlicesOfTail(t: Bytes, n: nat, i: nat)
    requires n <= i <= |t|
    ensures t[..i][n..] == t[n..][..i - n]
    ensures t[n..][i - n..] == t[i..]
  {
  }

  lemma SplitAtOccurrence(pat: Bytes, t: Bytes, i: nat)
    requires OccursAt(pat, t, i)
    ensures t == t[..i] + pat + t[i + |pat|..]
  {
  }

  lemma Associative(a: Bytes, b: Bytes, c: Bytes)
    ensures a + b + c == a + (b + c)
  {
  }

  /** Text that arrives later never moves an occurrence that is already there. */
  lemma FindStable(pat: Bytes, a: Bytes, b: Bytes)
    requires Find(pat, a).At?
    ensures Find(pat, a + b) == Find(pat, a)
  {
    var i := Find(pat, a).index;
    FindIsFirst(pat, a);
    OccursInPrefix(pat, a, b, i);
    forall j: nat | j < i
      ensures !OccursAt(pat, a + b, j)
    {
      OccursInPrefix(pat, a, b, j);
    }
    FindIs(pat, a + b, i);
  }

  /** The first `c` after text without `c`. */
  lemma FindByte(c: char, t: Bytes, rest: Bytes)
    requires NoByte(c, t)
    ensures Find([c], t + [c] + rest) == At(|t|)
  {
    var s := t + [c] + rest;
    assert s[|t|..|t| + 1] == [c];
    forall j: nat | j < |t|
      ensures !OccursAt([c], s, j)
    {
      assert s[j..j + 1][0] == t[j];
    }
    FindIs([c], s, |t|);
  }

  lemma FindNoByte(c: char, t: Bytes)
    requires NoByte(c, t)
    ensures Find([c], t) == Nowhere
  {
    forall j: nat
      ensures !OccursAt([c], t, j)
    {
      if j + 1 <= |t| {
        assert t[j..j + 1][0] == t[j];
      }
    }
  }

  lemma FindDoubleAfter(c: char, t: Bytes, rest: Bytes)
    requires NoByte(c, t)
    ensures Find([c, c], t + [c, c] + rest) == At(|t|)
  {
    var s := t + [c, c] + rest;
    assert s[|t|..|t| + 2] == [c, c];
    forall j: nat | j < |t|
      ensures !OccursAt([c, c], s, j)
    {
      assert s[j..j + 2][0] == t[j];
    }
    FindIs([c, c], s, |t|);
  }

  /** In two lines followed by two `c`, the first double `c` is the one at the end. */
  lemma FindDoubleByte(c: char, a: Bytes, b: Bytes)
    requires NoByte(c, a) && NoByte(c, b) && |b| > 0
    ensures Find([c, c], a + [c] + b + [c, c]) == At(|a| + 1 + |b|)
  {
    var s, n := a + [c] + b + [c, c], |a| + 1 + |b|;
    assert s[n..n + 2] == [c, c];
    forall j: nat | j < n
      ensures !OccursAt([c, c], s, j)
    {
      assert s[j..j + 2][0] == s[j] && s[j..j + 2][1] == s[j + 1];
      if j == |a| {
        assert s[j + 1] == b[0];
      } else if j < |a| {
        assert s[j] == a[j];
      } else {
        assert s[j] == b[j - |a| - 1];
      }
    }
    FindIs([c, c], s, n);
  }

  /** `str::rfind` for one character. */
  function LastIndexOf(c: char, t: Bytes): (r: Position)
    ensures r.At? ==> r.index < |t| && t[r.index] == c && forall k | r.index < k < |t| :: t[k] != c
    ensures r.Nowhere? ==> NoByte(c, t)
  {
    if |t| == 0 then Nowhere
    else if t[|t| - 1] == c then At(|t| - 1)
    else LastIndexOf(c, t[..|t| - 1])
  }

  lemma {:induction false} LastIndexIs(c: char, t: Bytes, i: nat)
    requires i < |t| && t[i] == c
    requires forall k | i < k < |t| :: t[k] != c
    ensures LastIndexOf(c, t) == At(i)
  {
    if i < |t| - 1 {
      LastIndexIs(c, t[..|t| - 1], i);
    }
  }

  /** `str::lines`: the pieces that end in a newline, each without it and without one carriage return
      before it; then what follows the last newline, as it is, if anything does. */
  function Lines(t: Bytes): seq<Bytes>
    decreases |t|
  {
    if |t| == 0 then []
    else
      match Find(NL, t)
      case Nowhere => [t]
      case At(i) => [StripCr(t[..i])] + Lines(t[i + 1..])
  }

  function StripCr(line: Bytes): Bytes {
    if line != [] && line[|line| - 1] == '\r' then line[..|line| - 1] else line
  }

  function StripPrefix(prefix: Bytes, line: Bytes): Option<Bytes> {
    if prefix <= line then Some(line[|prefix|..]) else None
  }

  lemma StripOtherPrefix(prefix: Bytes, other: Bytes, t: Bytes)
    requires |prefix| > 0 && |other| > 0 && prefix[0] != other[0]
    ensures StripPrefix(prefix, other + t) == None
  {
    assert (other + t)[0] == other[0];
  }

  // The UTF-8 forms of the characters with the Unicode property White_Space.
  predicate IsSpace1(a: int) {
    0x09 <= a <= 0x0D || a == 0x20
  }

  predicate IsSpace2(a: int, b: int) {
    a == 0xC2 && (b == 0x85 || b == 0xA0)
  }

  predicate IsSpace3(a: int, b: int, c: int) {
    || (a == 0xE1 && b == 0x9A && c == 0x80)
    || (a == 0xE2 && b == 0x80 && (0x80 <= c <= 0x8A || c == 0xA8 || c == 0xA9 || c == 0xAF))
    || (a == 0xE2 && b == 0x81 && c == 0x9F)
    || (a == 0xE3 && b == 0x80 && c == 0x80)
  }

  function TrimStart(t: Bytes): Bytes {
    if |t| >= 1 && IsSpace1(t[0] as int) then TrimStart(t[1..])
    else if |t| >= 2 && IsSpace2(t[0] as int, t[1] as int) then TrimStart(t[2..])
    else if |t| >= 3 && IsSpace3(t[0] as int, t[1] as int, t[2] as int) then TrimStart(t[3..])
    else t
  }

  function TrimEnd(t: Bytes): Bytes {
    var n := |t|;
    if n >= 1 && IsSpace1(t[n - 1] as int) then TrimEnd(t[..n - 1])
    else if n >= 2 && IsSpace2(t[n - 2] as int, t[n - 1] as int) then TrimEnd(t[..n - 2])
    else if n >= 3 && IsSpace3(t[n - 3] as int, t[n - 2] as int, t[n - 1] as int) then TrimEnd(t[..n - 3])
    else t
  }

  /** `str::trim`. */
  function Trim(t: Bytes): Bytes {
    TrimEnd(TrimStart(t))
  }

  /** Text whose first and last bytes are printable ASCII is left alone by `Trim`. */
  predicate Trimmed(t: Bytes) {
    t != [] && 0x20 < t[0] as int < 0x80 && 0x20 < t[|t| - 1] as int < 0x80
  }

  lemma TrimIsIdentity(t: Bytes)
    requires Trimmed(t)
    ensures Trim(t) == t
  {
  }

  lemma TrimDropsBlanks(t: Bytes)
    requires Trimmed(t)
    ensures Trim(" " + t + "\t") == t
  {
    var s := " " + t + "\t";
    assert s[1..] == t + "\t" && (t + "\t")[..|t|] == t;
    assert TrimStart(s) == TrimStart(t + "\t") == t + "\t";
    assert TrimEnd(t + "\t") == TrimEnd(t) == t;
  }

  /** Decimal digits of a number, as `format!("{}", n)` writes them. */
  function Decimal(n: nat): (s: string)
    ensures s != []
  {
    if n < 10 then [Digit(n)] else Decimal(n / 10) + [Digit(n % 10)]
  }

  /** The number a list of digits stands for. */
  function NumberOf(digits: string): int {
    if |digits| == 0 then 0
    else 10 * NumberOf(digits[..|digits| - 1]) + (digits[|digits| - 1] as int - '0' as int)
  }

  /** A number in decimal: digits that stand for it, with no zero in front of others. */
  lemma {:induction false} DecimalSays(n: nat)
    ensures forall i | 0 <= i < |Decimal(n)| :: '0' <= Decimal(n)[i] <= '9'
    ensures NumberOf(Decimal(n)) == n
    ensures |Decimal(n)| > 1 ==> Decimal(n)[0] != '0'
  {
    if n >= 10 {
      DecimalSays(n / 10);
      assert Decimal(n)[..|Decimal(n)| - 1] == Decimal(n / 10);
      if |Decimal(n / 10)| == 1 {
        assert NumberOf(Decimal(n / 10)[..0]) == 0;
      }
    } else {
      assert NumberOf(Decimal(n)[..0]) == 0;
    }
  }

  function Digit(d: nat): char
    requires d < 10
  {
    ('0' as int + d) as char
  }

  lemma {:induction false} DecimalInjective(m: nat, n: nat)
    requires Decimal(m) == Decimal(n)
    ensures m == n
  {
    var s, t := Decimal(m), Decimal(n);
    assert s[|s| - 1] == Digit(m % 10) && t[|t| - 1] == Digit(n % 10);
    if m >= 10 && n >= 10 {
      assert s[..|s| - 1] == Decimal(m / 10) && t[..|t| - 1] == Decimal(n / 10);
      DecimalInjective(m / 10, n / 10);
    }
  }

  /** A machine's state after some events. */
  function Fold<S, E>(step: (S, E) -> S, s: S, events: seq<E>): S
    decreases |events|
  {
    if |events| == 0 then s else Fold(step, step(s, events[0]), events[1..])
  }

  lemma {:induction false} FoldAppend<S, E>(step: (S, E) -> S, s: S, a: seq<E>, b: seq<E>)
    ensures Fold(step, s, a + b) == Fold(step, Fold(step, s, a), b)
    decreases |a|
  {
    if |a| == 0 {
      assert a + b == b;
    } else {
      assert (a + b)[1..] == a[1..] + b;
      FoldAppend(step, step(s, a[0]), a[1..], b);
    }
  }

  lemma FoldOne<S, E>(step: (S, E) -> S, s: S, e: E)
    ensures Fold(step, s, [e]) == step(s, e)
  {
    assert [e][1..] == [];
    assert Fold(step, step(s, e), []) == step(s, e);
  }

  // ---- Lists -----------------------------------------------------------------------------------

  predicate Distinct<T(==)>(xs: seq<T>) {
    forall i, j | 0 <= i < j < |xs| :: xs[i] != xs[j]
  }

  /** `Vec::remove`. */
  function RemoveAt<T>(xs: seq<T>, i: nat): seq<T>
    requires i < |xs|
  {
    xs[..i] + xs[i + 1..]
  }

  /** `Vec::retain` of everything but `x`. */
  function Without<T(==)>(xs: seq<T>, x: T): (r: seq<T>)
    ensures |r| <= |xs|
    ensures |r| == |xs| <==> x !in xs
  {
    if |xs| == 0 then []
    else
      var rest, last := Without(xs[..|xs| - 1], x), xs[|xs| - 1];
      assert xs == xs[..|xs| - 1] + [last];
      if last == x then rest else rest + [last]
  }

  lemma {:induction false} WithoutAbsent<T>(xs: seq<T>, x: T)
    requires x !in xs
    ensures Without(xs, x) == xs
  {
    if |xs| > 0 {
      WithoutAbsent(xs[..|xs| - 1], x);
      assert xs == xs[..|xs| - 1] + [xs[|xs| - 1]];
    }
  }

  lemma {:induction false} WithoutIsRemoveAt<T>(xs: seq<T>, i: nat)
    requires Distinct(xs) && i < |xs|
    ensures Without(xs, xs[i]) == RemoveAt(xs, i)
    decreases |xs|
  {
    var init, last := xs[..|xs| - 1], xs[|xs| - 1];
    if i == |xs| - 1 {
      WithoutAbsent(init, last);
    } else {
      WithoutIsRemoveAt(init, i);
      assert RemoveAt(xs, i) == RemoveAt(init, i) + [last];
    }
  }

  lemma {:induction false} WithoutHas<T>(xs: seq<T>, x: T, k: T)
    ensures k in Without(xs, x) <==> k in xs && k != x
  {
    if |xs| > 0 {
      WithoutHas(xs[..|xs| - 1], x, k);
      assert xs == xs[..|xs| - 1] + [xs[|xs| - 1]];
    }
  }

  lemma {:induction false} WithoutKeepsDistinct<T>(xs: seq<T>, x: T)
    requires Distinct(xs)
    ensures Distinct(Without(xs, x))
    ensures |Without(xs, x)| == if x in xs then |xs| - 1 else |xs|
  {
    if x in xs {
      var i :| 0 <= i < |xs| && xs[i] == x;
      WithoutIsRemoveAt(xs, i);
    } else {
      WithoutAbsent(xs, x);
    }
  }
}
