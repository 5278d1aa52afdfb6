/** `Vec<String>::sort`: the strings in lexicographic order of their characters. */
module Sorting {

  predicate Le(a: string, b: string) {
    a == "" || (b != "" && (a[0] < b[0] || (a[0] == b[0] && Le(a[1..], b[1..]))))
  }

  ghost predicate SortedStrings(s: seq<string>) {
    forall i, j :: 0 <= i < j < |s| ==> Le(s[i], s[j])
  }

  lemma {:induction false} LeTotal(a: string, b: string)
    ensures Le(a, b) || Le(b, a)
    ensures Le(a, a)
  {
    if a != "" {
      LeTotal(a[1..], if b == "" then "" else b[1..]);
    }
  }

  lemma {:induction false} LeAntisymmetric(a: string, b: string)
    requires Le(a, b) && Le(b, a)
    ensures a == b
  {
    if a != "" && b != "" {
      LeAntisymmetric(a[1..], b[1..]);
      assert a == [a[0]] + a[1..] && b == [b[0]] + b[1..];
    }
  }

  lemma {:induction false} LeTransitive(a: string, b: string, c: string)
    requires Le(a, b) && Le(b, c)
    ensures Le(a, c)
  {
    if a != "" && a[0] == b[0] && b[0] == c[0] {
      LeTransitive(a[1..], b[1..], c[1..]);
    }
  }

  /** The first character that differs decides. */
  ghost predicate DiffersUpwards(a: string, b: string, i: nat) {
    i < |a| && i < |b| && a[..i] == b[..i] && a[i] < b[i]
  }

  lemma SameStart(a: string, b: string, i: nat)
    requires i <= |a| && i <= |b| && a[..i] == b[..i]
    ensures i == 0 || a[0] == b[0]
  {
    if i > 0 {
      assert a[..i][0] == a[0] && b[..i][0] == b[0];
    }
  }

  /** The order of the dictionary: a text comes before those it starts, and otherwise the first difference decides. */
  lemma {:induction false} LeExactly(a: string, b: string)
    ensures Le(a, b) <==> a <= b || exists i :: DiffersUpwards(a, b, i)
  {
    if a != "" && b != "" && a[0] == b[0] {
      LeExactly(a[1..], b[1..]);
      assert a == [a[0]] + a[1..] && b == [b[0]] + b[1..];
      if i: nat :| DiffersUpwards(a[1..], b[1..], i) {
        assert a[..i + 1] == [a[0]] + a[1..][..i] && b[..i + 1] == [b[0]] + b[1..][..i];
        assert DiffersUpwards(a, b, i + 1);
      }
      if i: nat :| DiffersUpwards(a, b, i) {
        assert i > 0;
        assert a[1..][..i - 1] == a[..i][1..] && b[1..][..i - 1] == b[..i][1..];
        assert DiffersUpwards(a[1..], b[1..], i - 1);
      }
    } else if a != "" && b != "" && a[0] < b[0] {
      assert DiffersUpwards(a, b, 0);
    } else if a != "" && b != "" {
      forall i: nat | DiffersUpwards(a, b, i) ensures i == 0 {
        SameStart(a, b, i);
      }
    }
  }

  function Insert(x: string, s: seq<string>): seq<string> {
    if s == [] || Le(x, s[0]) then [x] + s else [s[0]] + Insert(x, s[1..])
  }

  function Sort(s: seq<string>): seq<string> {
    if s == [] then [] else Insert(s[0], Sort(s[1..]))
  }

  lemma {:induction false} InsertSorted(x: string, s: seq<string>)
    requires SortedStrings(s)
    ensures SortedStrings(Insert(x, s)) && multiset(Insert(x, s)) == multiset{x} + multiset(s)
  {
    if s == [] {
    } else if Le(x, s[0]) {
      var r := Insert(x, s);
      forall i, j | 0 <= i < j < |r| ensures Le(r[i], r[j]) {
        if i == 0 && j > 1 {
          LeTransitive(x, s[0], s[j - 1]);
        }
      }
    } else {
      LeTotal(x, s[0]);
      InsertSorted(x, s[1..]);
      var t, r := Insert(x, s[1..]), Insert(x, s);
      assert s == [s[0]] + s[1..];
      forall j | 0 <= j < |t| ensures Le(s[0], t[j]) {
        assert t[j] in multiset(t);
        assert t[j] == x || t[j] in s[1..];
      }
    }
  }

  /** The result is sorted and holds the same strings. */
  lemma {:induction false} SortSorts(s: seq<string>)
    ensures SortedStrings(Sort(s)) && multiset(Sort(s)) == multiset(s)
  {
    if s != [] {
      SortSorts(s[1..]);
      InsertSorted(s[0], Sort(s[1..]));
      assert s == [s[0]] + s[1..];
    }
  }

  lemma FirstIsLeast(a: seq<string>, x: string)
    requires SortedStrings(a) && a != [] && x in a
    ensures Le(a[0], x)
  {
    LeTotal(a[0], a[0]);
  }

  lemma HeadsAgree(a: seq<string>, b: seq<string>)
    requires SortedStrings(a) && SortedStrings(b) && multiset(a) == multiset(b) && a != [] && b != []
    ensures a[0] == b[0]
  {
    assert a[0] in multiset(b) && b[0] in multiset(a);
    FirstIsLeast(a, b[0]);
    FirstIsLeast(b, a[0]);
    LeAntisymmetric(a[0], b[0]);
  }

  lemma TailMultiset(a: seq<string>)
    requires a != []
    ensures multiset(a[1..]) == multiset(a) - multiset{a[0]}
  {
    assert a == [a[0]] + a[1..];
  }

  /** There is only one sorted arrangement, so the order given does not matter. */
  lemma {:induction false} SortedIsUnique(a: seq<string>, b: seq<string>)
    requires SortedStrings(a) && SortedStrings(b) && multiset(a) == multiset(b)
    ensures a == b
  {
    assert |a| == |multiset(a)| == |multiset(b)| == |b|;
    if a != [] {
      HeadsAgree(a, b);
      TailMultiset(a);
      TailMultiset(b);
      SortedIsUnique(a[1..], b[1..]);
      assert a == [a[0]] + a[1..] && b == [b[0]] + b[1..];
    }
  }

  lemma SortIgnoresOrder(a: seq<string>, b: seq<string>)
    requires multiset(a) == multiset(b)
    ensures Sort(a) == Sort(b)
  {
    SortSorts(a);
    SortSorts(b);
    SortedIsUnique(Sort(a), Sort(b));
  }

  // ----- the keys of a `BTreeMap` -----

  predicate Least(x: string, s: set<string>) {
    x in s && forall y :: y in s ==> Le(x, y)
  }

  lemma {:induction false} LeastExists(s: set<string>)
    requires s != {}
    ensures exists x :: Least(x, s)
    ensures forall x, y :: Least(x, s) && Least(y, s) ==> x == y
    decreases |s|
  {
    forall x, y | Least(x, s) && Least(y, s) ensures x == y {
      LeAntisymmetric(x, y);
    }
    var e :| e in s;
    LeTotal(e, e);
    if s == {e} {
      assert Least(e, s);
    } else {
      LeastExists(s - {e});
      var x :| Least(x, s - {e});
      LeTotal(e, x);
      if Le(x, e) {
        assert Least(x, s);
      } else {
        forall y | y in s ensures Le(e, y) {
          if y != e {
            LeTransitive(e, x, y);
          }
        }
        assert Least(e, s);
      }
    }
  }

  /** The order in which a `BTreeMap` with these keys is walked. */
  function Ascending(s: set<string>): (keys: seq<string>)
    ensures forall k :: k in keys <==> k in s
    decreases |s|
  {
    if s == {} then []
    else
      LeastExists(s);
      var x :| Least(x, s);
      [x] + Ascending(s - {x})
  }

  lemma {:induction false} AscendingIsSorted(s: set<string>)
    ensures SortedStrings(Ascending(s)) && |Ascending(s)| == |s|
    ensures forall i, j :: 0 <= i < j < |s| ==> Ascending(s)[i] != Ascending(s)[j]
    decreases |s|
  {
    if s != {} {
      LeastExists(s);
      var x :| Least(x, s);
      var rest := Ascending(s - {x});
      AscendingIsSorted(s - {x});
      assert Ascending(s) == [x] + rest;
      hide Ascending;
      forall j | 0 <= j < |rest| ensures Le(x, rest[j]) && x != rest[j] {
        assert rest[j] in rest;
      }
      hide Le;
    }
  }
}
