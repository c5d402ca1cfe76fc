/** Strings as the Go sources use them: trimming, byte order, decimal ids, and sorting by a string key. */
module Text {

  datatype Option<+T> = None | Some(value: T)

  // unicode.IsSpace, the characters that strings.TrimSpace removes.
  predicate IsSpace(c: char) {
    || '\t' <= c <= '\r' || c == ' ' || c == '\U{85}' || c == '\U{A0}' || c == '\U{1680}'
    || '\U{2000}' <= c <= '\U{200A}' || c == '\U{2028}' || c == '\U{2029}'
    || c == '\U{202F}' || c == '\U{205F}' || c == '\U{3000}'
  }

  // The characters with Unicode's White_Space property, by number.
  lemma SpacesAre(c: char)
    ensures IsSpace(c) <==>
              (c as int) in {9, 10, 11, 12, 13, 32, 133, 160, 5760, 8232, 8233, 8239, 8287, 12288} || 8192 <= c as int <= 8202
  {
  }

  function TrimLeft(s: string): string {
    if s != "" && IsSpace(s[0]) then TrimLeft(s[1..]) else s
  }

  function TrimRight(s: string): string {
    if s != "" && IsSpace(s[|s| - 1]) then TrimRight(s[..|s| - 1]) else s
  }

  function TrimSpace(s: string): string {
    TrimRight(TrimLeft(s))
  }

  // An identifier the control plane accepts: not blank, no white space at either end.
  predicate Legal(s: string) {
    s != "" && !IsSpace(s[0]) && !IsSpace(s[|s| - 1])
  }

  // The check the sources write: TrimSpace leaves a non-empty string as it was.
  predicate IsTrimmed(s: string): (b: bool)
    ensures b <==> Legal(s)
  {
    TrimLengths(s);
    TrimLengths(TrimLeft(s));
    TrimSpace(s) != "" && s == TrimSpace(s)
  }

  lemma TrimLengths(s: string)
    ensures |TrimLeft(s)| <= |s| && |TrimRight(s)| <= |s|
    ensures |TrimLeft(s)| == |s| ==> TrimLeft(s) == s && (s != "" ==> !IsSpace(s[0]))
    ensures |TrimRight(s)| == |s| ==> TrimRight(s) == s && (s != "" ==> !IsSpace(s[|s| - 1]))
  {
  }

  // ---- order ----

  // Go compares strings byte by byte; on UTF-8 that is the order of the code points.
  predicate Le(a: string, b: string) {
    a == "" || (b != "" && (a[0] < b[0] || (a[0] == b[0] && Le(a[1..], b[1..]))))
  }

  lemma {:induction false} LeTotal(a: string, b: string)
    ensures Le(a, b) || Le(b, a)
  {
    if a != "" && b != "" { LeTotal(a[1..], b[1..]); }
  }

  lemma {:induction false} LeAntisymmetric(a: string, b: string)
    requires Le(a, b) && Le(b, a)
    ensures a == b
  {
    if a != "" {
      LeAntisymmetric(a[1..], b[1..]);
      assert a == [a[0]] + a[1..] && b == [b[0]] + b[1..];
    }
  }

  lemma {:induction false} LeTransitive(a: string, b: string, c: string)
    requires Le(a, b) && Le(b, c)
    ensures Le(a, c)
  {
    if a != "" && a[0] == b[0] == c[0] { LeTransitive(a[1..], b[1..], c[1..]); }
  }

  // Equal up to k, and smaller there.
  predicate SmallerAt(a: string, b: string, k: nat) {
    k < |a| && k < |b| && a[..k] == b[..k] && a[k] < b[k]
  }

  lemma SmallerInTails(a: string, b: string, k: nat)
    requires a != "" && b != "" && a[0] == b[0]
    ensures SmallerAt(a, b, k + 1) <==> SmallerAt(a[1..], b[1..], k)
    ensures !SmallerAt(a, b, 0)
  {
    if k < |a| - 1 && k < |b| - 1 {
      assert a[..k + 1] == [a[0]] + a[1..][..k] && b[..k + 1] == [b[0]] + b[1..][..k];
      assert a[1..][..k] == a[..k + 1][1..] && b[1..][..k] == b[..k + 1][1..];
    }
  }

  // Before or equal: a prefix, or smaller at the first difference.
  lemma {:induction false} LeIff(a: string, b: string)
    ensures Le(a, b) <==> a <= b || exists k: nat :: SmallerAt(a, b, k)
  {
    if a != "" && b != "" && a[0] == b[0] {
      LeIff(a[1..], b[1..]);
      assert a <= b <==> a[1..] <= b[1..] by { assert a == [a[0]] + a[1..] && b == [b[0]] + b[1..]; }
      SmallerInTails(a, b, 0);
      if k: nat :| SmallerAt(a[1..], b[1..], k) { SmallerInTails(a, b, k); }
      if k: nat :| SmallerAt(a, b, k) { SmallerInTails(a, b, k - 1); }
    } else if a != "" && b != "" {
      forall k: nat | 0 < k < |a| && k < |b| ensures a[..k] != b[..k] { assert a[..k][0] == a[0] && b[..k][0] == b[0]; }
      assert SmallerAt(a, b, 0) <==> a[0] < b[0] by { assert a[..0] == b[..0]; }
    }
  }

  // ---- sorting by a key (sort.Slice, sort.Strings) ----

  predicate SortedBy<T>(xs: seq<T>, key: T -> string) {
    forall i, j | 0 <= i < j < |xs| :: Le(key(xs[i]), key(xs[j]))
  }

  function Insert<T>(x: T, xs: seq<T>, key: T -> string): (r: seq<T>) {
    if xs == [] || Le(key(x), key(xs[0])) then [x] + xs
    else [xs[0]] + Insert(x, xs[1..], key)
  }

  function Sort<T>(xs: seq<T>, key: T -> string): (r: seq<T>) {
    if xs == [] then [] else Insert(xs[0], Sort(xs[1..], key), key)
  }

  lemma {:induction false} InsertSorts<T>(x: T, xs: seq<T>, key: T -> string)
    requires SortedBy(xs, key)
    ensures SortedBy(Insert(x, xs, key), key)
    ensures multiset(Insert(x, xs, key)) == multiset{x} + multiset(xs)
  {
    if xs == [] {
    } else if Le(key(x), key(xs[0])) {
      forall j | 0 < j < |xs| + 1 ensures Le(key(x), key(([x] + xs)[j])) {
        LeTotal(key(xs[0]), key(xs[0]));
        LeTransitive(key(x), key(xs[0]), key(xs[j - 1]));
      }
    } else {
      LeTotal(key(x), key(xs[0]));
      var rest := Insert(x, xs[1..], key);
      InsertSorts(x, xs[1..], key);
      assert xs == [xs[0]] + xs[1..];
      forall j | 0 <= j < |rest| ensures Le(key(xs[0]), key(rest[j])) {
        assert rest[j] in multiset(rest);
        assert rest[j] == x || rest[j] in xs[1..];
      }
    }
  }

  lemma {:induction false} SortSorts<T>(xs: seq<T>, key: T -> string)
    ensures SortedBy(Sort(xs, key), key)
    ensures multiset(Sort(xs, key)) == multiset(xs)
  {
    if xs != [] {
      SortSorts(xs[1..], key);
      InsertSorts(xs[0], Sort(xs[1..], key), key);
      assert xs == [xs[0]] + xs[1..];
    }
  }

  predicate Distinct<T>(xs: seq<T>, key: T -> string) {
    forall i, j | 0 <= i < j < |xs| :: key(xs[i]) != key(xs[j])
  }

  lemma AppendKeepsDistinct<T>(xs: seq<T>, x: T, key: T -> string)
    requires Distinct(xs, key) && forall y | y in xs :: key(y) != key(x)
    ensures Distinct(xs + [x], key)
  {
    forall i, j | 0 <= i < j < |xs| + 1 ensures key((xs + [x])[i]) != key((xs + [x])[j]) {
      assert xs[i] in xs;
    }
  }

  lemma SameMembers<T>(xs: seq<T>, ys: seq<T>)
    requires multiset(xs) == multiset(ys)
    ensures |xs| == |ys|
    ensures forall x :: x in xs <==> x in ys
  {
    assert |multiset(xs)| == |xs| && |multiset(ys)| == |ys|;
    forall x ensures x in xs <==> x in ys {
      assert x in xs <==> x in multiset(xs);
      assert x in ys <==> x in multiset(ys);
    }
  }

  function AllBut<T>(xs: seq<T>, i: nat): (r: seq<T>)
    requires i < |xs|
    ensures multiset(r) == multiset(xs) - multiset{xs[i]}
  {
    assert xs == xs[..i] + [xs[i]] + xs[i + 1..];
    xs[..i] + xs[i + 1..]
  }

  lemma PermutationKeepsDistinct<T>(xs: seq<T>, ys: seq<T>, key: T -> string)
    requires Distinct(xs, key) && multiset(xs) == multiset(ys)
    ensures Distinct(ys, key)
  {
    forall i, j | 0 <= i < j < |ys| ensures key(ys[i]) != key(ys[j]) {
      var p, q := TwoPositions(xs, ys, i, j);
    }
  }

  // Two positions of a sequence have two different positions in any permutation of it.
  lemma TwoPositions<T>(xs: seq<T>, ys: seq<T>, i: nat, j: nat) returns (p: nat, q: nat)
    requires multiset(xs) == multiset(ys) && i < j < |ys|
    ensures p < |xs| && q < |xs| && p != q && xs[p] == ys[j] && xs[q] == ys[i]
  {
    SameMembers(xs, ys);
    assert ys[j] in xs;
    p :| 0 <= p < |xs| && xs[p] == ys[j];
    var others, rest := AllBut(xs, p), AllBut(ys, j);
    SameMembers(others, rest);
    assert rest[i] == ys[i] && rest[i] in others;
    var r :| 0 <= r < |others| && others[r] == ys[i];
    q := if r < p then r else r + 1;
  }

  function Itself(id: string): string { id }

  // sort.Strings on ids that occur once
  method SortStrings(ids: seq<string>) returns (sorted: seq<string>)
    requires Distinct(ids, Itself)
    ensures SortedBy(sorted, Itself) && Distinct(sorted, Itself)
    ensures forall id :: id in sorted <==> id in ids
  {
    SortSorts(ids, Itself);
    sorted := Sort(ids, Itself);
    PermutationKeepsDistinct(ids, sorted, Itself);
    SameMembers(sorted, ids);
  }

  // Collects ids in whatever order they come and sorts them.
  method SortedMembers(members: set<string>) returns (ids: seq<string>)
    ensures SortedBy(ids, Itself) && Distinct(ids, Itself)
    ensures forall id :: id in ids <==> id in members
  {
    ids := [];
    var todo := members;
    while todo != {}
      invariant todo <= members && Distinct(ids, Itself)
      invariant forall id :: id in ids <==> id in members - todo
      decreases todo
    {
      var id :| id in todo;
      AppendKeepsDistinct(ids, id, Itself);
      ids := ids + [id];
      todo := todo - {id};
    }
    ids := SortStrings(ids);
  }

  // ---- decimal numbers, as %d prints them ----

  const DIGITS := "0123456789"

  function Decimal(n: nat): (s: string)
    ensures s != ""
  {
    (if n < 10 then "" else Decimal(n / 10)) + [DIGITS[n % 10]]
  }

  lemma {:induction false} DecimalInjective(a: nat, b: nat)
    requires Decimal(a) == Decimal(b)
    ensures a == b
  {
    var x, y := Decimal(a), Decimal(b);
    assert x[|x| - 1] == DIGITS[a % 10] && y[|y| - 1] == DIGITS[b % 10];
    assert a % 10 == b % 10;
    assert x[..|x| - 1] == if a < 10 then "" else Decimal(a / 10);
    assert y[..|y| - 1] == if b < 10 then "" else Decimal(b / 10);
    if a >= 10 && b >= 10 { DecimalInjective(a / 10, b / 10); }
  }
}
