/**
 * Strings and orders as the repository uses them: code-point order, `sorted`, ORDER BY, `join` and decimal rendering.
 */
module Text {

  datatype Option<+T> = None | Some(value: T) {
    function GetOr(default: T): T { if Some? then value else default }
  }

  predicate Le(a: string, b: string) {
    a == "" || (b != "" && (a[0] < b[0] || (a[0] == b[0] && Le(a[1..], b[1..]))))
  }

  lemma {:induction false} LeAntisymmetric(a: string, b: string)
    requires Le(a, b) && Le(b, a)
    ensures a == b
  {
    if a == "" {
    } else {
      LeAntisymmetric(a[1..], b[1..]);
      assert a == [a[0]] + a[1..] && b == [b[0]] + b[1..];
    }
  }

  lemma {:induction false} LeTotal(a: string, b: string)
    ensures Le(a, b) || Le(b, a)
  {
    if a != "" && b != "" {
      LeTotal(a[1..], b[1..]);
    }
  }

  lemma {:induction false} LeTransitive(a: string, b: string, c: string)
    requires Le(a, b) && Le(b, c)
    ensures Le(a, c)
  {
    if a != "" && a[0] == b[0] == c[0] {
      LeTransitive(a[1..], b[1..], c[1..]);
    }
  }

  lemma {:induction false} LeastExists(s: set<string>) returns (r: string)
    requires s != {}
    ensures r in s && forall t :: t in s ==> Le(r, t)
    decreases |s|
  {
    var x :| x in s;
    r := x;
    LeTotal(x, x);
    if s - {x} != {} {
      var m := LeastExists(s - {x});
      if !Le(x, m) {
        LeTotal(x, m);
        r := m;
      }
      forall t | t in s ensures Le(r, t) {
        if t != x {
          assert t in s - {x};
          if r == x { LeTransitive(x, m, t); }
        }
      }
    } else {
      assert s == {x};
    }
  }

  /** `sorted(s)[0]`. */
  function Least(s: set<string>): (r: string)
    requires s != {}
    ensures r in s && forall t :: t in s ==> Le(r, t)
  {
    assert exists r :: r in s && forall t :: t in s ==> Le(r, t) by { var r := LeastExists(s); }
    assert forall a, b | Le(a, b) && Le(b, a) :: a == b by {
      forall a, b | Le(a, b) && Le(b, a) ensures a == b { LeAntisymmetric(a, b); }
    }
    var r :| r in s && forall t :: t in s ==> Le(r, t);
    r
  }

  /** `sorted(s)`: the elements of a set in ascending order. */
  function Sorted(s: set<string>): (r: seq<string>)
    ensures forall x :: x in r <==> x in s
    ensures |r| == |s|
    ensures forall i, j :: 0 <= i < j < |r| ==> Le(r[i], r[j])
    decreases |s|
  {
    if s == {} then [] else
      var m := Least(s);
      [m] + Sorted(s - {m})
  }

  function Join(separator: string, parts: seq<string>): string {
    if parts == [] then ""
    else if |parts| == 1 then parts[0]
    else parts[0] + separator + Join(separator, parts[1..])
  }

  ghost predicate Begins(s: string, prefix: string) { exists rest: string :: s == prefix + rest }

  ghost predicate Includes(s: string, word: string) { exists a: string, b: string :: s == a + word + b }

  ghost predicate NoDup<T>(s: seq<T>) {
    forall i, j :: 0 <= i < j < |s| ==> s[i] != s[j]
  }

  lemma NoDupCons<T>(x: T, s: seq<T>)
    ensures NoDup([x] + s) <==> x !in s && NoDup(s)
  {
    var xs := [x] + s;
    if NoDup(xs) {
      forall i, j | 0 <= i < j < |s| ensures s[i] != s[j] { assert xs[i + 1] != xs[j + 1]; }
      forall i | 0 <= i < |s| ensures s[i] != x { assert xs[0] != xs[i + 1]; }
    }
  }

  lemma NoDupSnoc<T>(s: seq<T>, x: T)
    ensures NoDup(s + [x]) <==> x !in s && NoDup(s)
  {
    var xs := s + [x];
    if NoDup(xs) {
      forall i, j | 0 <= i < j < |s| ensures s[i] != s[j] { assert xs[i] != xs[j]; }
      forall i | 0 <= i < |s| ensures s[i] != x { assert xs[i] != xs[|s|]; }
    }
  }

  ghost function Elements<T>(s: seq<T>): set<T> {
    set x | x in s
  }

  lemma {:induction false} NoDupSize<T>(s: seq<T>)
    requires NoDup(s)
    ensures |Elements(s)| == |s|
  {
    if s == [] {
      assert Elements(s) == {};
    } else {
      assert s == [s[0]] + s[1..];
      NoDupCons(s[0], s[1..]);
      NoDupSize(s[1..]);
      assert Elements(s) == {s[0]} + Elements(s[1..]);
    }
  }

  lemma {:induction false} SubsetSize<T>(a: set<T>, b: set<T>)
    requires a <= b
    ensures |a| <= |b|
  {
    if a != {} {
      var x :| x in a;
      SubsetSize(a - {x}, b - {x});
    }
  }

  // ----- decimal rendering, as in f"{n}" -----

  function Digit(d: nat): char
    requires d < 10
  {
    '0' + d as char
  }

  function Decimal(n: nat): (r: string)
    ensures r != "" && forall c :: c in r ==> '0' <= c <= '9'
    ensures |r| == 1 <==> n < 10
  {
    if n < 10 then [Digit(n)] else Decimal(n / 10) + [Digit(n % 10)]
  }

  lemma {:induction false} DecimalInjective(m: nat, n: nat)
    requires Decimal(m) == Decimal(n)
    ensures m == n
  {
    var s := Decimal(m);
    if m >= 10 {
      assert Decimal(m / 10) == s[..|s| - 1] == Decimal(n / 10);
      assert Digit(m % 10) == s[|s| - 1] == Digit(n % 10);
      DecimalInjective(m / 10, n / 10);
    } else {
      assert Digit(m) == s[0] == Digit(n);
    }
  }

  // ----- text after the last colon -----

  lemma {:induction false} LastColon(a: string, m: string, b: string, n: string)
    requires a + ":" + m == b + ":" + n && ':' !in m && ':' !in n
    ensures a == b && m == n
    decreases |m|
  {
    var s := a + ":" + m;
    LastChar(a, m);
    LastChar(b, n);
    if m == "" {
      assert a == s[..|s| - 1] && b == (b + ":" + n)[..|s| - 1];
    } else {
      assert (a + ":" + m[..|m| - 1]) == s[..|s| - 1] == (b + ":" + n[..|n| - 1]);
      LastColon(a, m[..|m| - 1], b, n[..|n| - 1]);
      assert m == m[..|m| - 1] + [m[|m| - 1]] && n == n[..|n| - 1] + [n[|n| - 1]];
      assert m[|m| - 1] == s[|s| - 1] == n[|n| - 1];
    }
  }

  lemma LastChar(a: string, m: string)
    requires ':' !in m
    ensures var s := a + ":" + m; m == "" <==> s[|s| - 1] == ':'
  {
    if m != "" { assert m[|m| - 1] in m; }
  }

  // ----- ORDER BY an identifier -----

  lemma {:induction false} LeastId(s: set<nat>) returns (m: nat)
    requires s != {}
    ensures m in s && forall x :: x in s ==> m <= x
    decreases |s|
  {
    var x :| x in s;
    m := x;
    var rest := s - {x};
    if rest != {} {
      var r := LeastId(rest);
      m := if r < x then r else x;
      assert s == {x} + rest;
    } else {
      assert s == {x};
    }
  }

  function MinId(s: set<nat>): (m: nat)
    requires s != {}
    ensures m in s && forall x :: x in s ==> m <= x
  {
    assert exists m :: m in s && forall x :: x in s ==> m <= x by { var m := LeastId(s); }
    var m :| m in s && forall x :: x in s ==> m <= x;
    m
  }

  function SortedIds(s: set<nat>): (r: seq<nat>)
    ensures forall x :: x in r <==> x in s
    ensures |r| == |s|
    ensures s != {} ==> r[0] == MinId(s)
    ensures forall i, j :: 0 <= i < j < |r| ==> r[i] < r[j]
    decreases |s|
  {
    if s == {} then []
    else
      var m := MinId(s);
      [m] + SortedIds(s - {m})
  }
}
