/** Small shared vocabulary: optional values, results that may be errors, and sequence helpers. */
module Prelude {

  datatype Option<+T> = None | Some(value: T)

  /** A computation of the source that may throw. */
  datatype Result<+T> = Ok(value: T) | Err(error: string)

  function OrElse<T>(a: Option<T>, b: Option<T>): Option<T> {
    if a.Some? then a else b
  }

  /** The last of the given values, or else `held`. */
  function Latest<T>(values: seq<Option<T>>, held: Option<T>): (r: Option<T>)
    ensures held.Some? ==> r.Some?
  {
    if values == [] then held else OrElse(values[|values| - 1], Latest(values[..|values| - 1], held))
  }

  lemma {:induction false} LatestSnoc<T>(values: seq<Option<T>>, v: Option<T>, held: Option<T>)
    ensures Latest(values + [v], held) == OrElse(v, Latest(values, held))
  {
    assert (values + [v])[..|values|] == values;
  }

  /** `Array.prototype.filter`. */
  function Filter<T>(s: seq<T>, p: T -> bool): (r: seq<T>)
    ensures |r| <= |s|
    ensures forall x :: x in r ==> x in s && p(x)
    ensures forall x :: x in s && p(x) ==> x in r
  {
    if s == [] then [] else
    var rest := Filter(s[1..], p);
    if p(s[0]) then [s[0]] + rest else rest
  }

  lemma {:induction false} FilterConcat<T>(a: seq<T>, b: seq<T>, p: T -> bool)
    ensures Filter(a + b, p) == Filter(a, p) + Filter(b, p)
  {
    if a == [] {
      assert a + b == b;
      assert [] + Filter(b, p) == Filter(b, p);
    } else {
      assert (a + b)[0] == a[0] && (a + b)[1..] == a[1..] + b;
      FilterConcat(a[1..], b, p);
      var x, y := Filter(a[1..], p), Filter(b, p);
      assert [a[0]] + (x + y) == ([a[0]] + x) + y;
    }
  }

  lemma {:induction false} FilterAll<T>(s: seq<T>, p: T -> bool)
    requires forall x :: x in s ==> p(x)
    ensures Filter(s, p) == s
  {
    if s != [] {
      FilterAll(s[1..], p);
    }
  }

  lemma {:induction false} FilterNone<T>(s: seq<T>, p: T -> bool)
    requires forall x :: x in s ==> !p(x)
    ensures Filter(s, p) == []
  {
    if s != [] {
      FilterNone(s[1..], p);
    }
  }

  lemma {:induction false} FilterSame<T>(s: seq<T>, p: T -> bool, q: T -> bool)
    requires forall x :: x in s ==> (p(x) <==> q(x))
    ensures Filter(s, p) == Filter(s, q)
  {
    if s != [] {
      FilterSame(s[1..], p, q);
    }
  }

  function Both<T>(p: T -> bool, q: T -> bool): T -> bool { x => p(x) && q(x) }

  lemma {:induction false} FilterFilter<T>(s: seq<T>, p: T -> bool, q: T -> bool)
    ensures Filter(Filter(s, p), q) == Filter(s, Both(p, q))
  {
    if s != [] {
      FilterFilter(s[1..], p, q);
    }
  }

  lemma {:induction false} Assoc<T>(a: seq<T>, b: seq<T>, c: seq<T>)
    ensures (a + b) + c == a + (b + c)
  {
  }

  // ----- Sorting

  /** A stable sort by a numeric key, as `Array.prototype.sort`. */
  function SortBy<T>(s: seq<T>, key: T -> int): seq<T> {
    if s == [] then [] else InsertBy(s[0], SortBy(s[1..], key), key)
  }

  function InsertBy<T>(x: T, s: seq<T>, key: T -> int): seq<T> {
    if s == [] || key(x) <= key(s[0]) then [x] + s else [s[0]] + InsertBy(x, s[1..], key)
  }

  ghost predicate Ascending<T>(s: seq<T>, key: T -> int) {
    forall i, j :: 0 <= i < j < |s| ==> key(s[i]) < key(s[j])
  }

  lemma {:induction false} SortAscending<T>(s: seq<T>, key: T -> int)
    requires Ascending(s, key)
    ensures SortBy(s, key) == s
  {
    if s != [] { SortAscending(s[1..], key); }
  }

  lemma {:induction false} InsertHas<T>(x: T, s: seq<T>, key: T -> int, y: T)
    ensures y in InsertBy(x, s, key) <==> y == x || y in s
    ensures |InsertBy(x, s, key)| == |s| + 1
  {
    if !(s == [] || key(x) <= key(s[0])) { InsertHas(x, s[1..], key, y); }
  }

  lemma {:induction false} SortHas<T>(s: seq<T>, key: T -> int, y: T)
    ensures y in SortBy(s, key) <==> y in s
  {
    if s != [] {
      SortHas(s[1..], key, y);
      InsertHas(s[0], SortBy(s[1..], key), key, y);
    }
  }

  lemma {:induction false} InsertSorted<T>(x: T, s: seq<T>, key: T -> int)
    requires Ascending(s, key) && forall y :: y in s ==> key(y) != key(x)
    ensures Ascending(InsertBy(x, s, key), key)
    ensures forall y :: y in InsertBy(x, s, key) <==> y == x || y in s
  {
    forall y ensures y in InsertBy(x, s, key) <==> y == x || y in s { InsertHas(x, s, key, y); }
    if !(s == [] || key(x) <= key(s[0])) {
      InsertSorted(x, s[1..], key);
      var t := InsertBy(x, s[1..], key);
      forall j | 0 <= j < |t| ensures key(s[0]) < key(t[j]) {
        assert t[j] in t;
        InsertHas(x, s[1..], key, t[j]);
        if t[j] in s[1..] {
          var k :| 0 <= k < |s[1..]| && s[1..][k] == t[j];
          assert s[k + 1] == t[j];
        }
      }
    }
  }

  lemma {:induction false} FilterAscending<T>(s: seq<T>, p: T -> bool, key: T -> int)
    requires Ascending(s, key)
    ensures Ascending(Filter(s, p), key)
  {
    if s != [] {
      FilterAscending(s[1..], p, key);
      var t := Filter(s[1..], p);
      forall j | 0 <= j < |t| ensures key(s[0]) < key(t[j]) {
        assert t[j] in t;
        var k :| 0 <= k < |s[1..]| && s[1..][k] == t[j];
        assert s[k + 1] == t[j];
      }
    }
  }
}
