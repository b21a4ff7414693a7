/** Ordered enumerations of string sets and canonical decimals.

    A digest and a member list are sorted so that they depend on the set alone. Strings are ordered by their
    characters from the left, a proper prefix first; that order is total, so every finite set of strings has
    exactly one ascending enumeration, however it was put together.

    A canonical decimal has no leading zero. It is the text of exactly one number, which is why a number in a
    record key can be compared as text. */
module Text {
  /** The order of `Array.prototype.sort` on strings. */
  predicate Before(a: string, b: string) {
    b != "" && (a == "" || a[0] < b[0] || (a[0] == b[0] && Before(a[1..], b[1..])))
  }

  lemma {:induction false} BeforeIsTotal(a: string, b: string)
    ensures a == b || Before(a, b) || Before(b, a)
    ensures !(Before(a, b) && Before(b, a)) && !Before(a, a)
    decreases |a|
  {
    if a != "" {
      BeforeIsTotal(a[1..], if b == "" then "" else b[1..]);
      if b != "" && a[0] == b[0] && a[1..] == b[1..] { assert a == [a[0]] + a[1..] == b; }
    }
  }

  lemma {:induction false} BeforeIsTransitive(a: string, b: string, c: string)
    requires Before(a, b) && Before(b, c)
    ensures Before(a, c)
    decreases |a|
  {
    if a != "" && a[0] == b[0] == c[0] { BeforeIsTransitive(a[1..], b[1..], c[1..]); }
  }

  ghost predicate StrictlySorted(r: seq<string>) {
    forall i, j :: 0 <= i < j < |r| ==> Before(r[i], r[j])
  }

  ghost predicate Enumerates(r: seq<string>, s: set<string>) {
    StrictlySorted(r) && forall x :: x in r <==> x in s
  }

  function Insert(x: string, r: seq<string>): seq<string> {
    if r == [] || Before(x, r[0]) then [x] + r
    else [r[0]] + Insert(x, r[1..])
  }

  lemma {:induction false} InsertEnumerates(x: string, r: seq<string>, s: set<string>)
    requires Enumerates(r, s) && x !in s
    ensures Enumerates(Insert(x, r), s + {x})
    decreases |r|
  {
    if r != [] {
      var y := r[0];
      BeforeIsTotal(x, y);
      if Before(x, y) {
        forall j | 0 <= j < |r| ensures Before(x, r[j]) {
          if j > 0 { BeforeIsTransitive(x, y, r[j]); }
        }
      } else {
        TailEnumerates(r, s);
        InsertEnumerates(x, r[1..], s - {y});
        var t := Insert(x, r[1..]);
        forall j | 0 <= j < |t| ensures Before(y, t[j]) {
          assert t[j] in s - {y} + {x};
          if t[j] != x {
            assert t[j] in r[1..];
          }
        }
        assert s - {y} + {x} + {y} == s + {x};
      }
    }
  }

  lemma TailEnumerates(r: seq<string>, s: set<string>)
    requires Enumerates(r, s) && r != []
    ensures Enumerates(r[1..], s - {r[0]})
  {
    forall x ensures x in r[1..] <==> x in s - {r[0]} {
      BeforeIsTotal(r[0], x);
      if x in s && x != r[0] {
        var i :| 0 <= i < |r| && r[i] == x;
        assert r[1..][i - 1] == x;
      }
    }
  }

  lemma {:induction false} EnumerationExists(s: set<string>) returns (r: seq<string>)
    ensures Enumerates(r, s)
    decreases |s|
  {
    if s == {} {
      r := [];
    } else {
      var x :| x in s;
      var rest := EnumerationExists(s - {x});
      InsertEnumerates(x, rest, s - {x});
      assert s - {x} + {x} == s;
      r := Insert(x, rest);
    }
  }

  lemma {:induction false} EnumerationIsUnique(a: seq<string>, b: seq<string>, s: set<string>)
    requires Enumerates(a, s) && Enumerates(b, s)
    ensures a == b
    decreases |a|
  {
    assert b != [] ==> b[0] in b && b[0] in a;
    if a != [] {
      assert a[0] in b && b != [];
      assert b[0] in a;
      var i :| 0 <= i < |b| && b[i] == a[0];
      var j :| 0 <= j < |a| && a[j] == b[0];
      BeforeIsTotal(a[0], b[0]);
      TailEnumerates(a, s);
      TailEnumerates(b, s);
      EnumerationIsUnique(a[1..], b[1..], s - {a[0]});
    }
  }

  ghost function SortedOf(s: set<string>): (r: seq<string>)
    ensures Enumerates(r, s)
  {
    assert exists r :: Enumerates(r, s) by { var r := EnumerationExists(s); }
    var r :| Enumerates(r, s);
    r
  }

  /** Sorted lists are equal exactly when the sets behind them are. */
  lemma SortedOfIsInjective(s: set<string>, t: set<string>)
    ensures SortedOf(s) == SortedOf(t) <==> s == t
  {
  }

  method Sort(s: set<string>) returns (r: seq<string>)
    ensures r == SortedOf(s)
  {
    r := [];
    var rest := s;
    while rest != {}
      invariant rest <= s && Enumerates(r, s - rest)
      decreases |rest|
    {
      var x :| x in rest;
      InsertEnumerates(x, r, s - rest);
      assert s - rest + {x} == s - (rest - {x});
      r := Insert(x, r);
      rest := rest - {x};
    }
    assert s - {} == s;
    EnumerationIsUnique(r, SortedOf(s), s);
  }

  // ---------------------------------------------------------------- decimals

  function Digit(n: nat): char
    requires n < 10
  {
    ('0' as int + n) as char
  }

  predicate IsDigit(c: char) {
    '0' <= c <= '9'
  }

  function Decimal(n: nat): (s: string)
    ensures |s| > 0 && forall k :: 0 <= k < |s| ==> IsDigit(s[k])
    ensures s[0] == '0' ==> |s| == 1
    ensures n > 0 ==> s[0] != '0'
  {
    if n < 10 then [Digit(n)] else Decimal(n / 10) + [Digit(n % 10)]
  }

  /** `^(0|[1-9][0-9]*)$`. */
  predicate CanonicalDecimal(s: string) {
    |s| > 0 && (forall k :: 0 <= k < |s| ==> IsDigit(s[k])) && (s[0] == '0' ==> |s| == 1)
  }

  function Value(s: string): nat
    requires forall k :: 0 <= k < |s| ==> IsDigit(s[k])
  {
    if s == "" then 0 else
      assert IsDigit(s[|s| - 1]);
      Value(s[..|s| - 1]) * 10 + (s[|s| - 1] as int - '0' as int)
  }

  lemma {:induction false} ValueOfDecimal(n: nat)
    ensures Value(Decimal(n)) == n
    decreases n
  {
    if n < 10 {
      assert Decimal(n)[..0] == "";
    } else {
      ValueOfDecimal(n / 10);
      assert Decimal(n)[..|Decimal(n)| - 1] == Decimal(n / 10);
    }
  }

  lemma {:induction false} DecimalOfValue(s: string)
    requires CanonicalDecimal(s)
    ensures Decimal(Value(s)) == s
    ensures Value(s) == 0 <==> s == "0"
    decreases |s|
  {
    var init, last := s[..|s| - 1], s[|s| - 1];
    assert s == init + [last];
    if |s| == 1 {
      assert init == "" && Value(init) == 0;
    } else {
      DecimalOfValue(init);
      var v, digit := Value(init), last as int - '0' as int;
      assert v > 0 && Value(s) == v * 10 + digit;
      assert Decimal(v * 10 + digit) == Decimal(v) + [Digit(digit)];
    }
  }
}
