/** Small shared vocabulary: optional values, joined text, and decimal numerals. */
module Prelude {

  datatype Option<+T> = None | Some(value: T)

  /** `separator.join(parts)`. */
  function Join(separator: string, parts: seq<string>): string {
    if parts == [] then ""
    else if |parts| == 1 then parts[0]
    else parts[0] + separator + Join(separator, parts[1..])
  }

  /** All the pieces one after another, `"".join(parts)`. */
  function Concat<T>(parts: seq<seq<T>>): seq<T> {
    if parts == [] then [] else parts[0] + Concat(parts[1..])
  }

  lemma {:induction false} ConcatAppend<T>(parts: seq<seq<T>>, last: seq<T>)
    ensures Concat(parts + [last]) == Concat(parts) + last
  {
    if parts == [] {
      assert parts + [last] == [last];
    } else {
      ConcatAppend(parts[1..], last);
      assert (parts + [last])[1..] == parts[1..] + [last];
    }
  }

  lemma {:induction false} ConcatConcat<T>(a: seq<seq<T>>, b: seq<seq<T>>)
    ensures Concat(a + b) == Concat(a) + Concat(b)
  {
    if a == [] {
      assert a + b == b;
    } else {
      assert a + b == [a[0]] + (a[1..] + b);
      ConcatConcat(a[1..], b);
    }
  }

  lemma {:induction false} NoElement<T>(s: seq<T>)
    ensures s == [] <==> forall x :: x !in s
  {
    if s != [] {
      assert s[0] in s;
    }
  }

  lemma {:induction false} HasLeast(keys: set<int>)
    requires keys != {}
    ensures exists least :: least in keys && forall k :: k in keys ==> least <= k
    decreases |keys|
  {
    assert exists x :: x in keys by {
      assert (forall x :: x !in keys) ==> keys == {};
    }
    var x :| x in keys;
    if keys != {x} {
      HasLeast(keys - {x});
      var y :| y in keys - {x} && forall k :: k in keys - {x} ==> y <= k;
      var least := if x <= y then x else y;
      assert forall k :: k in keys ==> k == x || k in keys - {x};
      assert least in keys && forall k :: k in keys ==> least <= k;
    } else {
      assert x in keys && forall k :: k in keys ==> x <= k;
    }
  }

  lemma {:induction false} AppendAssociates<T>(a: seq<T>, b: seq<T>, c: seq<T>)
    ensures a + (b + c) == a + b + c
  {
  }

  lemma {:induction false} SplitFirst<T>(s: seq<T>)
    requires s != []
    ensures s == [s[0]] + s[1..]
  {
  }

  /** The last element split off, with and without something in front. */
  lemma {:induction false} SplitLast<T>(front: seq<T>, s: seq<T>)
    requires s != []
    ensures s == s[..|s| - 1] + [s[|s| - 1]] && front + s == front + s[..|s| - 1] + [s[|s| - 1]]
  {
  }

  lemma {:induction false} SlicesOfFront<T>(s: seq<T>, more: seq<T>, k: nat)
    requires k <= |s|
    ensures (s + more)[..k] == s[..k] && (s + more)[k..] == s[k..] + more
  {
  }

  predicate Distinct<T(==)>(s: seq<T>) {
    forall i, j :: 0 <= i < j < |s| ==> s[i] != s[j]
  }

  function Without<T>(s: seq<T>, k: nat): (r: seq<T>)
    requires k < |s|
    ensures |r| == |s| - 1
  {
    s[..k] + s[k + 1..]
  }

  lemma {:induction false} WithoutMultiset<T>(s: seq<T>, k: nat)
    requires k < |s|
    ensures multiset(Without(s, k)) == multiset(s) - multiset{s[k]}
  {
    assert s == s[..k] + ([s[k]] + s[k + 1..]);
  }

  lemma {:induction false} DistinctIff<T>(s: seq<T>)
    ensures Distinct(s) <==> forall x :: multiset(s)[x] <= 1
  {
    if s != [] {
      var init, last := s[..|s| - 1], s[|s| - 1];
      assert s == init + [last];
      DistinctIff(init);
      if Distinct(s) {
        assert Distinct(init) && last !in init;
      } else if Distinct(init) {
        assert last in init;
        assert multiset(s)[last] >= 2;
      } else {
        var x :| multiset(init)[x] > 1;
        assert multiset(s)[x] > 1;
      }
    }
  }

  /** A rearrangement of distinct elements is distinct. */
  lemma {:induction false} DistinctRearranged<T>(a: seq<T>, b: seq<T>)
    requires multiset(a) == multiset(b) && Distinct(a)
    ensures Distinct(b)
  {
    DistinctIff(a);
    DistinctIff(b);
  }

  function Digit(d: nat): (c: char)
    requires d < 10
    ensures '0' <= c <= '9' && c as int == '0' as int + d
  {
    '0' + d as char
  }

  /** The decimal numeral of `n`, without leading zeros. */
  function Decimal(n: nat): (s: string)
    ensures |s| > 0
  {
    if n < 10 then [Digit(n)] else Decimal(n / 10) + [Digit(n % 10)]
  }

  lemma {:induction false} DecimalInjective(m: nat, n: nat)
    requires Decimal(m) == Decimal(n)
    ensures m == n
  {
    var a, b := Decimal(m), Decimal(n);
    assert a[|a| - 1] == Digit(m % 10) && b[|b| - 1] == Digit(n % 10);
    if m >= 10 && n >= 10 {
      assert a[..|a| - 1] == Decimal(m / 10) && b[..|b| - 1] == Decimal(n / 10);
      DecimalInjective(m / 10, n / 10);
    }
  }
}
