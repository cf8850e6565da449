/** Small value types and sequence utilities shared by the models of the
    individual source files: optional values, JavaScript numbers that may be
    NaN, rounding, decimal rendering of integers, ASCII case folding, the
    set-based de-duplication `[...new Set(xs)]`, and a stable descending sort
    (the behaviour of `Array.prototype.sort` with a `b - a` comparator). */
module Common {

  datatype Option<T> = None | Some(value: T)

  /** A JavaScript number as far as the models need one: a finite value or NaN. */
  datatype JsNumber = Finite(v: real) | NaN

  function Max(a: real, b: real): real { if a >= b then a else b }
  function Min(a: real, b: real): real { if a <= b then a else b }
  function Abs(a: real): real { if a < 0.0 then -a else a }

  /** A JavaScript number that may be `undefined` or `NaN`: `None` stands
      for both, since arithmetic on either gives `NaN` again, every
      comparison with it is false and both are falsy. */
  type Num = Option<real>

  function Add(a: Num, b: real): Num { if a.Some? then Some(a.value + b) else None }
  function Plus(a: Num, b: Num): Num { if a.Some? && b.Some? then Some(a.value + b.value) else None }
  function Mul(a: Num, b: Num): Num { if a.Some? && b.Some? then Some(a.value * b.value) else None }
  function Half(a: Num): Num { if a.Some? then Some(a.value / 2.0) else None }
  /** `Math.max(a, b)`, `NaN` when either is missing. */
  function MaxNum(a: Num, b: Num): Num { if a.Some? && b.Some? then Some(Max(a.value, b.value)) else None }

  /** `Math.round`: the nearest integer, halves rounded upward. */
  function Round(x: real): (r: int)
    ensures x - 0.5 < r as real <= x + 0.5
  {
    (x + 0.5).Floor
  }

  /** A string is truthy in JavaScript when it is present and not empty. */
  predicate Truthy(s: Option<string>) { s.Some? && s.value != "" }

  /** A number is truthy in JavaScript when it is present and not zero. */
  predicate TruthyNum(n: Option<real>) { n.Some? && n.value != 0.0 }

  /** `a || b` for an optional string. */
  function OrElse(s: Option<string>, default: string): (r: string)
    ensures Truthy(s) ==> r == s.value
    ensures !Truthy(s) ==> r == default
  {
    if Truthy(s) then s.value else default
  }

  /** `a || b` for an optional number. */
  function OrElseNum(n: Option<real>, default: real): (r: real)
    ensures TruthyNum(n) ==> r == n.value
    ensures !TruthyNum(n) ==> r == default
  {
    if TruthyNum(n) then n.value else default
  }

  // ---------------------------------------------------------------- strings

  predicate IsDigit(c: char) { '0' <= c <= '9' }

  function DigitChar(d: nat): (c: char)
    requires d < 10
    ensures IsDigit(c)
  {
    ['0', '1', '2', '3', '4', '5', '6', '7', '8', '9'][d]
  }

  /** The decimal rendering JavaScript gives a non-negative integer. */
  function NatToString(n: nat): (s: string)
    ensures |s| > 0
    ensures forall i :: 0 <= i < |s| ==> IsDigit(s[i])
    decreases n
  {
    if n < 10 then [DigitChar(n)] else NatToString(n / 10) + [DigitChar(n % 10)]
  }

  function LowerChar(c: char): char
  {
    if 'A' <= c <= 'Z' then (c as int + 32) as char else c
  }

  function UpperChar(c: char): char
  {
    if 'a' <= c <= 'z' then (c as int - 32) as char else c
  }

  /** `toLowerCase`, on the ASCII letters. */
  function ToLower(s: string): (r: string)
    ensures |r| == |s|
    ensures forall i :: 0 <= i < |s| ==> r[i] == LowerChar(s[i])
  {
    seq(|s|, i requires 0 <= i < |s| => LowerChar(s[i]))
  }

  // -------------------------------------------------------------- sequences

  predicate NoDup<T(==)>(s: seq<T>)
  {
    forall i, j :: 0 <= i < j < |s| ==> s[i] != s[j]
  }

  /** `[...new Set(s)]`: the distinct elements of `s` in order of first occurrence. */
  function Dedupe<T(==)>(s: seq<T>): (r: seq<T>)
    ensures NoDup(r)
    ensures forall x | x in r :: x in s
    ensures forall x | x in s :: x in r
    ensures |r| <= |s|
    ensures s != [] ==> r != [] && r[0] == s[0]
  {
    if s == [] then []
    else
      var d := Dedupe(s[..|s| - 1]);
      assert forall x | x in s :: x in s[..|s| - 1] || x == s[|s| - 1];
      if s[|s| - 1] in d then d else d + [s[|s| - 1]]
  }

  /** `new Set(s).size`: the number of distinct elements, which is the
      length of `Dedupe(s)`. */
  lemma {:induction false} DedupeCard<T>(s: seq<T>)
    ensures |set x | x in s| == |Dedupe(s)|
  {
    var d := Dedupe(s);
    assert (set x | x in s) == (set x | x in d);
    NoDupCard(d);
  }

  lemma {:induction false} NoDupCard<T>(s: seq<T>)
    requires NoDup(s)
    ensures |set x | x in s| == |s|
  {
    if s != [] {
      var p := s[..|s| - 1];
      var x := s[|s| - 1];
      assert s == p + [x];
      assert NoDup(p);
      NoDupCard(p);
      assert x !in p;
      assert (set y | y in s) == (set y | y in p) + {x};
    }
  }

  /** `s.slice(0, n)` for a non-negative `n`. */
  function Take<T>(s: seq<T>, n: nat): (r: seq<T>)
    ensures |r| == if n < |s| then n else |s|
    ensures r == s[..|r|]
  {
    if n < |s| then s[..n] else s
  }

  /** `s.slice(0, n)` for any integer `n`: a negative `n` counts from the end. */
  function Slice0<T>(s: seq<T>, n: int): (r: seq<T>)
    ensures n >= 0 ==> r == Take(s, n)
    ensures n < 0 ==> |r| == (if |s| + n > 0 then |s| + n else 0)
    ensures r == s[..|r|]
  {
    if n >= 0 then Take(s, n)
    else if |s| + n > 0 then s[..|s| + n]
    else []
  }

  /** The index of the first occurrence of `v`, or |s| (`indexOf` returning -1). */
  function IndexOf<T(==)>(s: seq<T>, v: T): (k: nat)
    ensures k <= |s|
    ensures k < |s| ==> s[k] == v
    ensures forall i :: 0 <= i < k ==> s[i] != v
    ensures k == |s| <==> v !in s
  {
    if s == [] then 0
    else if s[0] == v then 0
    else 1 + IndexOf(s[1..], v)
  }

  /** `findIndex(p)`, with |s| standing for -1. */
  function FirstIndex<T>(s: seq<T>, p: T -> bool): (k: nat)
    ensures k <= |s|
    ensures k < |s| ==> p(s[k])
    ensures forall i :: 0 <= i < k ==> !p(s[i])
  {
    if s == [] then 0
    else if p(s[0]) then 0
    else 1 + FirstIndex(s[1..], p)
  }

  /** `s.filter(p)` */
  function Filter<T>(s: seq<T>, p: T -> bool): (r: seq<T>)
    ensures |r| <= |s|
  {
    if s == [] then []
    else if p(s[0]) then [s[0]] + Filter(s[1..], p)
    else Filter(s[1..], p)
  }

  /** The filter keeps exactly the elements that pass, in their order. */
  lemma {:induction false} FilterMembers<T>(s: seq<T>, p: T -> bool)
    ensures forall x | x in Filter(s, p) :: x in s && p(x)
    ensures forall x | x in s && p(x) :: x in Filter(s, p)
    decreases |s|
  {
    if s != [] {
      FilterMembers(s[1..], p);
      assert forall x | x in s :: x == s[0] || x in s[1..];
    }
  }

  /** Filtering keeps a sequence without repeats free of repeats. */
  lemma {:induction false} FilterNoDup<T>(s: seq<T>, p: T -> bool)
    requires NoDup(s)
    ensures NoDup(Filter(s, p))
    decreases |s|
  {
    if s != [] {
      assert NoDup(s[1..]);
      FilterNoDup(s[1..], p);
      FilterMembers(s[1..], p);
      if p(s[0]) {
        var t := Filter(s[1..], p);
        assert s[0] !in s[1..];
        assert s[0] !in t;
        var r := [s[0]] + t;
        forall i, j | 0 <= i < j < |r| ensures r[i] != r[j] {
          assert r[j] == t[j - 1];
          if i > 0 { assert r[i] == t[i - 1]; }
        }
      }
    }
  }

  /** A prefix of a sequence without repeats has none. */
  lemma TakeNoDup<T>(s: seq<T>, n: nat)
    requires NoDup(s)
    ensures NoDup(Take(s, n))
  {
    var r := Take(s, n);
    assert forall i | 0 <= i < |r| :: r[i] == s[i];
  }

  /** Filtering a sequence with one more element at its end. */
  lemma {:induction false} FilterSnoc<T>(s: seq<T>, x: T, p: T -> bool)
    ensures Filter(s + [x], p) == Filter(s, p) + (if p(x) then [x] else [])
    decreases |s|
  {
    if s == [] {
      assert s + [x] == [x];
    } else {
      assert (s + [x])[0] == s[0];
      assert (s + [x])[1..] == s[1..] + [x];
      FilterSnoc(s[1..], x, p);
    }
  }

  /** `splice(k, 1)` */
  function RemoveAt<T>(s: seq<T>, k: nat): (r: seq<T>)
    requires k < |s|
    ensures |r| == |s| - 1
    ensures forall i :: 0 <= i < k ==> r[i] == s[i]
    ensures forall i :: k <= i < |r| ==> r[i] == s[i + 1]
  {
    s[..k] + s[k + 1..]
  }

  /** `const k = s.indexOf(v); if (k > -1) s.splice(k, 1)`: drops the first
      occurrence of `v` and leaves a sequence without `v` unchanged. */
  function RemoveFirst<T(==)>(s: seq<T>, v: T): (r: seq<T>)
    ensures v !in s ==> r == s
    ensures v in s ==> |r| == |s| - 1
    ensures forall x | x in r :: x in s
    ensures NoDup(s) ==> NoDup(r) && v !in r && forall x | x in s && x != v :: x in r
  {
    if v in s then
      RemoveFirstOfNoDupIfNoDup(s, v);
      RemoveAtSubset(s, IndexOf(s, v));
      RemoveAt(s, IndexOf(s, v))
    else s
  }

  lemma RemoveAtSubset<T>(s: seq<T>, k: nat)
    requires k < |s|
    ensures forall x | x in RemoveAt(s, k) :: x in s
  {
    var r := RemoveAt(s, k);
    forall x | x in r ensures x in s {
      var i :| 0 <= i < |r| && r[i] == x;
      if i < k { assert s[i] == x; } else { assert s[i + 1] == x; }
    }
  }

  lemma RemoveFirstOfNoDupIfNoDup<T>(s: seq<T>, v: T)
    requires v in s
    ensures NoDup(s) ==> var r := RemoveAt(s, IndexOf(s, v));
      NoDup(r) && v !in r && forall x | x in s && x != v :: x in r
  {
    if NoDup(s) { RemoveFirstOfNoDup(s, v); }
  }

  /** Removing the first occurrence of `v` from a duplicate-free sequence
      removes `v` altogether and keeps every other element. */
  lemma {:induction false} RemoveFirstOfNoDup<T>(s: seq<T>, v: T)
    requires NoDup(s) && v in s
    ensures var r := RemoveAt(s, IndexOf(s, v));
      NoDup(r) && v !in r && (forall x | x in r :: x in s && x != v) &&
      (forall x | x in s && x != v :: x in r)
  {
    var k := IndexOf(s, v);
    var r := RemoveAt(s, k);
    forall x | x in r ensures x in s && x != v {
      var i :| 0 <= i < |r| && r[i] == x;
      if i < k { assert s[i] == x; } else { assert s[i + 1] == x; }
    }
    forall x | x in s && x != v ensures x in r {
      var i :| 0 <= i < |s| && s[i] == x;
      if i < k { assert r[i] == x; } else { assert i != k; assert r[i - 1] == x; }
    }
  }

  /** A square-root comparison is a squared one: for a non-negative distance `d` with `d * d` the squared distance, `d <= r`
      exactly when `r >= 0` and `d * d <= r * r`. */
  lemma {:induction false} AtMostSquared(d: real, r: real)
    requires d >= 0.0
    ensures d <= r <==> (r >= 0.0 && d * d <= r * r)
  {
    if r >= 0.0 && d > r {
      var a, b := d - r, d + r;
      assert d * d - r * r == a * b;
      assert a > 0.0 && b > 0.0;
      assert a * b > 0.0;
    }
    if d <= r {
      var a, b := r - d, r + d;
      assert r * r - d * d == a * b;
      assert a >= 0.0 && b >= 0.0;
      assert a * b >= 0.0;
    }
  }

  /** The strict twin: `d < r` exactly when `r > 0` and `d * d < r * r`. */
  lemma {:induction false} BelowSquared(d: real, r: real)
    requires d >= 0.0
    ensures d < r <==> (r > 0.0 && d * d < r * r)
  {
    if r > 0.0 && d >= r {
      var a, b := d - r, d + r;
      assert d * d - r * r == a * b;
      assert a >= 0.0 && b > 0.0;
      assert a * b >= 0.0;
    }
    if d < r {
      var a, b := r - d, r + d;
      assert r * r - d * d == a * b;
      assert a > 0.0 && b > 0.0;
      assert a * b > 0.0;
    }
  }

  // ---------------------------------------------------------------- sorting

  predicate SortedDesc<T>(s: seq<T>, key: T -> real)
  {
    forall i, j :: 0 <= i < j < |s| ==> key(s[i]) >= key(s[j])
  }

  lemma AppendAssoc<T>(a: seq<T>, b: seq<T>, c: seq<T>)
    ensures (a + b) + c == a + (b + c)
  {
  }

  lemma AppendNil<T>(a: seq<T>)
    ensures a + [] == a
  {
  }

  lemma SnocSplit<T>(a: seq<T>)
    requires a != []
    ensures a == a[..|a| - 1] + [a[|a| - 1]]
  {
  }

  /** Inserts `x` before the first element whose key is not larger than its own,
      so that `x` stays ahead of the elements with an equal key. */
  function InsertDesc<T>(x: T, s: seq<T>, key: T -> real): (r: seq<T>)
    requires SortedDesc(s, key)
    ensures SortedDesc(r, key)
    ensures multiset(r) == multiset(s) + multiset{x}
    ensures |r| == |s| + 1
    ensures r[0] == x || (s != [] && r[0] == s[0])
  {
    if s == [] then [x]
    else if key(x) >= key(s[0]) then
      SortedCons(x, s, key);
      [x] + s
    else
      var t := InsertDesc(x, s[1..], key);
      SortedCons(s[0], t, key);
      InsertStep(x, s, t);
      [s[0]] + t
  }

  lemma InsertStep<T>(x: T, s: seq<T>, t: seq<T>)
    requires s != [] && multiset(t) == multiset(s[1..]) + multiset{x}
    ensures multiset([s[0]] + t) == multiset(s) + multiset{x}
  {
    assert s == [s[0]] + s[1..];
  }

  /** A sorted sequence stays sorted behind a head no smaller than its first key. */
  lemma SortedCons<T>(h: T, t: seq<T>, key: T -> real)
    requires SortedDesc(t, key)
    requires t != [] ==> key(h) >= key(t[0])
    ensures SortedDesc([h] + t, key)
  {
    var r := [h] + t;
    forall i, j | 0 <= i < j < |r| ensures key(r[i]) >= key(r[j]) {
      if i == 0 {
        assert r[j] == t[j - 1];
        if j > 1 { assert key(t[0]) >= key(t[j - 1]); }
      } else {
        assert r[i] == t[i - 1] && r[j] == t[j - 1];
      }
    }
  }

  /** A stable sort by descending key: `[...s].sort((a, b) => key(b) - key(a))`. */
  function SortDesc<T>(s: seq<T>, key: T -> real): (r: seq<T>)
    ensures SortedDesc(r, key)
    ensures multiset(r) == multiset(s)
    ensures |r| == |s|
  {
    if s == [] then []
    else
      assert s == [s[0]] + s[1..];
      InsertDesc(s[0], SortDesc(s[1..], key), key)
  }

  /** The first `n` of a descending sort are the best `n`: they come from
      the input, and whatever is left out weighs no more than anything kept. */
  lemma SortedPrefixIsTop<T>(c: seq<T>, key: T -> real, n: nat)
    ensures var r := Take(SortDesc(c, key), n);
      multiset(r) <= multiset(c) &&
      forall e, f | e in multiset(c) - multiset(r) && f in r :: key(e) <= key(f)
    ensures var r := Take(SortDesc(c, key), n);
      SortedDesc(r, key) && forall e | e in r :: e in c
  {
    var s := SortDesc(c, key);
    var r := Take(s, n);
    forall e | e in r ensures e in c {
      assert e in multiset(s);
    }
    assert SortedDesc(r, key) by {
      forall i, j | 0 <= i < j < |r| ensures key(r[i]) >= key(r[j]) {
        assert r[i] == s[i] && r[j] == s[j];
      }
    }
    var rest := s[|r|..];
    assert s == r + rest;
    assert multiset(s) == multiset(r) + multiset(rest);
    forall e, f | e in multiset(c) - multiset(r) && f in r ensures key(e) <= key(f) {
      assert e in multiset(rest);
      var m :| 0 <= m < |rest| && rest[m] == e;
      var j :| 0 <= j < |r| && r[j] == f;
      assert s[j] == f && s[|r| + m] == e;
    }
  }

  predicate SortedAsc(s: seq<real>)
  {
    forall i, j :: 0 <= i < j < |s| ==> s[i] <= s[j]
  }

  /** A numeric ascending sort: `s.sort((a, b) => a - b)`. */
  function SortAsc(s: seq<real>): (r: seq<real>)
    ensures SortedAsc(r)
    ensures multiset(r) == multiset(s)
    ensures |r| == |s|
  {
    var neg := (x: real) => -x;
    var r := SortDesc(s, neg);
    assert forall i, j :: 0 <= i < j < |r| ==> neg(r[i]) >= neg(r[j]);
    r
  }

  /** A sequence without repeats holds each value at most once. */
  lemma {:induction false} NoDupAtMostOnce<T>(s: seq<T>, v: T)
    requires NoDup(s)
    ensures multiset(s)[v] <= 1
  {
    if s != [] {
      var p := s[..|s| - 1];
      assert s == p + [s[|s| - 1]];
      assert NoDup(p);
      NoDupAtMostOnce(p, v);
      if s[|s| - 1] == v {
        assert v !in p;
      }
    }
  }

  /** Reordering a sequence without repeats cannot create one. */
  lemma {:induction false} NoDupPermutation<T>(s: seq<T>, t: seq<T>)
    requires multiset(s) == multiset(t) && NoDup(s)
    ensures NoDup(t)
  {
    forall i, j | 0 <= i < j < |t| ensures t[i] != t[j] {
      if t[i] == t[j] {
        var v := t[i];
        assert t == t[..j] + t[j..];
        assert v in t[..j] && v in t[j..];
        assert multiset(t)[v] == multiset(t[..j])[v] + multiset(t[j..])[v];
        NoDupAtMostOnce(s, v);
        assert false;
      }
    }
  }

  /** Dropping one element keeps an ascending sequence ascending. */
  lemma RemoveAtSortedAsc(s: seq<real>, k: nat)
    requires k < |s| && SortedAsc(s)
    ensures SortedAsc(RemoveAt(s, k))
  {
    var r := RemoveAt(s, k);
    forall i, j | 0 <= i < j < |r| ensures r[i] <= r[j] {
      var i' := if i < k then i else i + 1;
      var j' := if j < k then j else j + 1;
      assert r[i] == s[i'] && r[j] == s[j'];
    }
  }

  /** `RemoveFirst` keeps an ascending sequence ascending. */
  lemma RemoveFirstSortedAsc(s: seq<real>, v: real)
    ensures SortedAsc(s) ==> SortedAsc(RemoveFirst(s, v))
  {
    if v in s && SortedAsc(s) {
      RemoveAtSortedAsc(s, IndexOf(s, v));
    }
  }
}
