/** Values shared by every part of the model: optional values, filesystem
    paths as sequences of components, and the two string operations the
    experiment scripts rely on (Python's `str(int)` and the substring test
    `sub in s`). */
module Common {

  datatype Option<T> = None | Some(value: T)

  /** A filesystem path as the sequence of its components. `os.path.join(p, a, b)`
      is `p + [a, b]`; the separator of the host system is not modelled. */
  type Path = seq<string>

  /** `os.path.dirname`: every component but the last. */
  function Dirname(p: Path): (d: Path)
    ensures |p| > 0 ==> d + [p[|p| - 1]] == p
    ensures |p| == 0 ==> d == []
  {
    if |p| == 0 then [] else p[..|p| - 1]
  }

  /** `os.path.basename`: the last component, or the empty name. */
  function Basename(p: Path): (b: string)
    ensures |p| > 0 ==> Dirname(p) + [b] == p
  {
    if |p| == 0 then "" else p[|p| - 1]
  }

  predicate IsDigit(c: char) {
    '0' <= c <= '9'
  }

  /** Decimal digits of a natural number, most significant first (Python `str(n)` for n >= 0). */
  function NatStr(n: nat): (s: string)
    ensures |s| > 0
    ensures forall i :: 0 <= i < |s| ==> IsDigit(s[i])
    ensures n >= 10 ==> |s| > 1
    ensures n < 10 <==> |s| == 1
  {
    if n < 10 then [Digit(n)] else NatStr(n / 10) + [Digit(n % 10)]
  }

  function Digit(d: nat): (c: char)
    requires d < 10
    ensures IsDigit(c)
  {
    "0123456789"[d]
  }

  /** Python `str(i)` for an int: a leading '-' for negative numbers. */
  function IntStr(i: int): (s: string)
    ensures |s| > 0
    ensures (s[0] == '-') <==> i < 0
  {
    if i < 0 then "-" + NatStr(-i) else NatStr(i)
  }

  lemma {:induction false} DigitInjective(a: nat, b: nat)
    requires a < 10 && b < 10 && Digit(a) == Digit(b)
    ensures a == b
  {
  }

  /** Different natural numbers render differently. */
  lemma {:induction false} NatStrInjective(a: nat, b: nat)
    requires NatStr(a) == NatStr(b)
    ensures a == b
  {
    var s := NatStr(a);
    if a < 10 {
      DigitInjective(a, b);
    } else {
      assert b >= 10;
      var sa, sb := NatStr(a / 10), NatStr(b / 10);
      assert sa == s[..|s| - 1] && sb == s[..|s| - 1];
      NatStrInjective(a / 10, b / 10);
      DigitInjective(a % 10, b % 10);
    }
  }

  /** Different integers render differently, so seed-numbered names never coincide. */
  lemma IntStrInjective(a: int, b: int)
    requires IntStr(a) == IntStr(b)
    ensures a == b
  {
    var s := IntStr(a);
    if a < 0 {
      assert s[0] == '-' && b < 0;
      assert s == "-" + NatStr(-a) && s == "-" + NatStr(-b);
      assert s[1..] == NatStr(-a) && s[1..] == NatStr(-b);
      NatStrInjective(-a, -b);
    } else {
      assert b >= 0;
      NatStrInjective(a, b);
    }
  }

  /** Python's `sub in s` for strings, scanning start positions left to right. */
  function Contains(s: string, sub: string): bool
    decreases |s|
  {
    |sub| <= |s| && (s[..|sub|] == sub || Contains(s[1..], sub))
  }

  /** `sub` occurs in `s` starting at position `i`. */
  predicate OccursAt(s: string, sub: string, i: nat) {
    i + |sub| <= |s| && s[i..i + |sub|] == sub
  }

  /** A slice of `s` from position `i > 0` is the slice of its tail one position earlier. */
  lemma SliceShift(s: string, i: nat, n: nat)
    requires 1 <= i && i + n <= |s|
    ensures s[i..i + n] == s[1..][i - 1..i - 1 + n]
  {
    var a, b := s[i..i + n], s[1..][i - 1..i - 1 + n];
    assert |a| == |b|;
    forall m | 0 <= m < n ensures a[m] == b[m] {
      assert a[m] == s[i + m];
      assert b[m] == s[1..][i - 1 + m];
    }
  }

  /** `Contains` means: `sub` occurs at some start position of `s`. */
  lemma {:induction false} ContainsIff(s: string, sub: string)
    ensures Contains(s, sub) <==> exists i: nat :: OccursAt(s, sub, i)
    decreases |s|
  {
    if |sub| <= |s| {
      if s[..|sub|] == sub {
        assert OccursAt(s, sub, 0);
      } else {
        ContainsIff(s[1..], sub);
        if Contains(s[1..], sub) {
          var i: nat :| OccursAt(s[1..], sub, i);
          SliceShift(s, i + 1, |sub|);
          assert OccursAt(s, sub, i + 1);
        } else {
          forall i: nat
            ensures !OccursAt(s, sub, i)
          {
            if i > 0 && i + |sub| <= |s| {
              SliceShift(s, i, |sub|);
              assert !OccursAt(s[1..], sub, i - 1);
            }
          }
        }
      }
    } else {
      forall i: nat
        ensures !OccursAt(s, sub, i)
      {
      }
    }
  }

  /** Updating the right operand of a map union updates the union. */
  lemma MapUnionUpdate<K, V>(a: map<K, V>, b: map<K, V>, k: K, v: V)
    ensures a + b[k := v] == (a + b)[k := v]
  {
  }

  // ---------------------------------------------------------------------------
  // Sequences built by appending one piece per element

  /** `f(xs[0]) + f(xs[1]) + ...`: what a loop that appends `f(x)` for every `x` produces. */
  function ConcatMap<T, U>(xs: seq<T>, f: T -> seq<U>): seq<U>
  {
    if xs == [] then [] else ConcatMap(xs[..|xs| - 1], f) + f(xs[|xs| - 1])
  }

  lemma ConcatMapSnoc<T, U>(xs: seq<T>, x: T, f: T -> seq<U>)
    ensures ConcatMap(xs + [x], f) == ConcatMap(xs, f) + f(x)
  {
    assert (xs + [x])[..|xs|] == xs;
  }

  /** The pieces of two consecutive runs are consecutive. */
  lemma {:induction false} ConcatMapAppend<T, U>(xs: seq<T>, ys: seq<T>, f: T -> seq<U>)
    ensures ConcatMap(xs + ys, f) == ConcatMap(xs, f) + ConcatMap(ys, f)
    decreases |ys|
  {
    if ys == [] {
      assert xs + ys == xs;
    } else {
      var init, last := ys[..|ys| - 1], ys[|ys| - 1];
      assert ys == init + [last];
      assert xs + ys == (xs + init) + [last];
      ConcatMapSnoc(xs + init, last, f);
      ConcatMapAppend(xs, init, f);
      ConcatMapSnoc(init, last, f);
    }
  }

  lemma ConcatMapCons<T, U>(x: T, xs: seq<T>, f: T -> seq<U>)
    ensures ConcatMap([x] + xs, f) == f(x) + ConcatMap(xs, f)
  {
    ConcatMapAppend([x], xs, f);
    assert [x] == [] + [x];
    ConcatMapSnoc([], x, f);
  }

  /** A run whose pieces all have length `k` has length `k * |xs|`. */
  lemma {:induction false} ConcatMapUniformLength<T, U>(xs: seq<T>, f: T -> seq<U>, k: nat)
    requires forall x :: x in xs ==> |f(x)| == k
    ensures |ConcatMap(xs, f)| == k * |xs|
    decreases |xs|
  {
    if xs != [] {
      var init := xs[..|xs| - 1];
      assert forall x :: x in init ==> x in xs;
      ConcatMapUniformLength(init, f, k);
      assert xs[|xs| - 1] in xs;
      MulSucc(k, |init|);
    }
  }

  lemma MulSucc(k: nat, n: nat)
    ensures k * n + k == k * (n + 1)
  {
  }

  /** ... and its piece number `i` starts at offset `k * i`. */
  lemma {:induction false} ConcatMapUniformAt<T, U>(xs: seq<T>, f: T -> seq<U>, k: nat, i: nat)
    requires forall x :: x in xs ==> |f(x)| == k
    requires i < |xs|
    ensures k * i + k <= |ConcatMap(xs, f)|
    ensures ConcatMap(xs, f)[k * i..k * i + k] == f(xs[i])
    decreases |xs|
  {
    var n := |xs| - 1;
    var init := xs[..n];
    assert forall x :: x in init ==> x in xs;
    ConcatMapUniformLength(init, f, k);
    var front, last := ConcatMap(init, f), f(xs[n]);
    assert xs[n] in xs;
    assert ConcatMap(xs, f) == front + last;
    if i < n {
      ConcatMapUniformAt(init, f, k, i);
      AppendSliceLeft(front, last, k * i, k * i + k);
    } else {
      AppendSliceRight(front, last);
    }
  }

  /** Element `t` of piece number `i` sits at offset `k * i + t`. */
  lemma ConcatMapUniformElem<T, U>(xs: seq<T>, f: T -> seq<U>, k: nat, i: nat, t: nat)
    requires forall x :: x in xs ==> |f(x)| == k
    requires i < |xs| && t < k
    ensures k * i + t < |ConcatMap(xs, f)|
    ensures ConcatMap(xs, f)[k * i + t] == f(xs[i])[t]
  {
    ConcatMapUniformAt(xs, f, k, i);
    SliceAt(ConcatMap(xs, f), k * i, k, t);
  }

  lemma AppendSliceLeft<U>(a: seq<U>, b: seq<U>, lo: nat, hi: nat)
    requires lo <= hi <= |a|
    ensures (a + b)[lo..hi] == a[lo..hi]
  {
  }

  lemma AppendSliceRight<U>(a: seq<U>, b: seq<U>)
    ensures (a + b)[|a|..|a| + |b|] == b
  {
  }

  lemma AppendAssoc<U>(a: seq<U>, b: seq<U>, c: seq<U>)
    ensures a + (b + c) == a + b + c
  {
  }

  /** The piece of element `i` sits, whole, between the pieces before and after it. */
  lemma ConcatMapAt<T, U>(xs: seq<T>, f: T -> seq<U>, i: nat)
    requires i < |xs|
    ensures ConcatMap(xs, f) == ConcatMap(xs[..i], f) + f(xs[i]) + ConcatMap(xs[i + 1..], f)
  {
    var front, back := xs[..i], [xs[i]] + xs[i + 1..];
    assert xs == front + back;
    ConcatMapAppend(front, back, f);
    ConcatMapCons(xs[i], xs[i + 1..], f);
    AppendAssoc(ConcatMap(front, f), f(xs[i]), ConcatMap(xs[i + 1..], f));
  }

  lemma SliceAt<U>(s: seq<U>, start: nat, n: nat, t: nat)
    requires start + n <= |s| && t < n
    ensures s[start + t] == s[start..start + n][t]
  {
  }

  /** Every element of every piece ends up in the run. */
  lemma ConcatMapContains<T, U>(xs: seq<T>, f: T -> seq<U>, x: T, y: U)
    requires x in xs && y in f(x)
    ensures y in ConcatMap(xs, f)
  {
    var i :| 0 <= i < |xs| && xs[i] == x;
    ConcatMapAt(xs, f, i);
  }

  /** A run of pieces that hold only `v` holds only `v`. */
  lemma {:induction false} ConcatMapEvery<T, U>(xs: seq<T>, f: T -> seq<U>, v: U)
    requires forall x :: x in xs ==> forall j :: 0 <= j < |f(x)| ==> f(x)[j] == v
    ensures forall j :: 0 <= j < |ConcatMap(xs, f)| ==> ConcatMap(xs, f)[j] == v
    decreases |xs|
  {
    if xs != [] {
      var init := xs[..|xs| - 1];
      assert forall x :: x in init ==> x in xs;
      ConcatMapEvery(init, f, v);
      assert xs[|xs| - 1] in xs;
    }
  }

  // ---------------------------------------------------------------------------
  // Splitting text at a separator

  /** Python's `s.split(sep)` for a one-character separator: every separator
      ends a part, so the result always has one more part than separators. */
  function Split(s: string, sep: char): (parts: seq<string>)
    ensures |parts| >= 1
    decreases |s|
  {
    if |s| == 0 then [""]
    else
      var rest := Split(s[1..], sep);
      if s[0] == sep then [""] + rest else [[s[0]] + rest[0]] + rest[1..]
  }

  /** Text without the separator is a single part. */
  lemma {:induction false} SplitNoSep(s: string, sep: char)
    requires sep !in s
    ensures Split(s, sep) == [s]
    decreases |s|
  {
    if |s| > 0 {
      SplitNoSep(s[1..], sep);
      assert [s[0]] + s[1..] == s;
    }
  }

  /** Splitting at the first separator peels off the text before it. */
  lemma {:induction false} SplitAtFirst(a: string, sep: char, b: string)
    requires sep !in a
    ensures Split(a + [sep] + b, sep) == [a] + Split(b, sep)
    decreases |a|
  {
    if |a| == 0 {
      assert a + [sep] + b == [sep] + b;
      assert ([sep] + b)[1..] == b;
    } else {
      var s := a + [sep] + b;
      assert s[1..] == a[1..] + [sep] + b;
      SplitAtFirst(a[1..], sep, b);
      assert [a[0]] + a[1..] == a;
    }
  }

  /** Number of occurrences of `c` in `s`. */
  function Count(s: string, c: char): nat
    decreases |s|
  {
    if |s| == 0 then 0 else (if s[0] == c then 1 else 0) + Count(s[1..], c)
  }

  lemma {:induction false} CountAppend(a: string, b: string, c: char)
    ensures Count(a + b, c) == Count(a, c) + Count(b, c)
    decreases |a|
  {
    if |a| == 0 {
      assert a + b == b;
    } else {
      assert (a + b)[1..] == a[1..] + b;
      CountAppend(a[1..], b, c);
    }
  }

  lemma {:induction false} CountAbsent(s: string, c: char)
    requires c !in s
    ensures Count(s, c) == 0
    decreases |s|
  {
    if |s| > 0 {
      CountAbsent(s[1..], c);
    }
  }

  /** The pieces written one after another, each followed by `sep`, the last one included. */
  function Terminated(cs: seq<string>, sep: char): string {
    ConcatMap(cs, Terminator(sep))
  }

  function Terminator(sep: char): string -> string {
    c => c + [sep]
  }

  lemma TerminatedCons(c: string, cs: seq<string>, sep: char)
    ensures Terminated([c] + cs, sep) == c + [sep] + Terminated(cs, sep)
  {
    ConcatMapCons(c, cs, Terminator(sep));
  }

  lemma TerminatedPrefixSnoc(cs: seq<string>, i: nat, sep: char)
    requires i < |cs|
    ensures Terminated(cs[..i + 1], sep) == Terminated(cs[..i], sep) + cs[i] + [sep]
  {
    assert cs[..i + 1] == cs[..i] + [cs[i]];
    ConcatMapSnoc(cs[..i], cs[i], Terminator(sep));
    AppendAssoc(Terminated(cs[..i], sep), cs[i], [sep]);
  }

  /** Splitting pieces free of `sep` at every `sep` gives the pieces back,
      followed by the empty text after the final separator. */
  lemma {:induction false} SplitTerminated(cs: seq<string>, sep: char)
    requires forall i :: 0 <= i < |cs| ==> sep !in cs[i]
    ensures Split(Terminated(cs, sep), sep) == cs + [""]
    decreases |cs|
  {
    if cs != [] {
      assert cs == [cs[0]] + cs[1..];
      TerminatedCons(cs[0], cs[1..], sep);
      SplitAtFirst(cs[0], sep, Terminated(cs[1..], sep));
      SplitTerminated(cs[1..], sep);
    }
  }

  /** Pieces free of `sep` give a text holding exactly one `sep` per piece. */
  lemma {:induction false} CountTerminated(cs: seq<string>, sep: char)
    requires forall i :: 0 <= i < |cs| ==> sep !in cs[i]
    ensures Count(Terminated(cs, sep), sep) == |cs|
    decreases |cs|
  {
    if cs != [] {
      assert cs == [cs[0]] + cs[1..];
      TerminatedCons(cs[0], cs[1..], sep);
      CountAppend(cs[0] + [sep], Terminated(cs[1..], sep), sep);
      CountAppend(cs[0], [sep], sep);
      CountAbsent(cs[0], sep);
      CountTerminated(cs[1..], sep);
    }
  }

  /** A character that is neither `sep` nor in any piece is not in the text. */
  lemma {:induction false} TerminatedAvoids(cs: seq<string>, sep: char, c: char)
    requires c != sep
    requires forall i :: 0 <= i < |cs| ==> c !in cs[i]
    ensures c !in Terminated(cs, sep)
    decreases |cs|
  {
    if cs != [] {
      assert cs == [cs[0]] + cs[1..];
      TerminatedCons(cs[0], cs[1..], sep);
      TerminatedAvoids(cs[1..], sep, c);
      assert c !in cs[0];
    }
  }
}
