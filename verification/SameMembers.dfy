/** Membership comparison by sorting both arrays in place and joining their elements with commas. */
module SameMembers {
  /** The order of the default sort: lexicographic on characters. */
  predicate Lte(a: string, b: string) {
    a == "" || (b != "" && (a[0] < b[0] || (a[0] == b[0] && Lte(a[1..], b[1..]))))
  }

  function Insert(x: string, s: seq<string>): seq<string> {
    if s == [] || Lte(x, s[0]) then [x] + s else [s[0]] + Insert(x, s[1..])
  }

  function Sort(s: seq<string>): seq<string> {
    if s == [] then [] else Insert(s[0], Sort(s[1..]))
  }

  function Join(s: seq<string>): string {
    if s == [] then "" else if |s| == 1 then s[0] else s[0] + "," + Join(s[1..])
  }

  predicate Sorted(s: seq<string>) {
    forall i, j :: 0 <= i < j < |s| ==> Lte(s[i], s[j])
  }

  predicate CommaFree(s: seq<string>) {
    forall x :: x in s ==> ',' !in x
  }

  // ---------------------------------------------------------------- the operation

  method SortInPlace(a: array<string>)
    modifies a
    ensures a[..] == Sort(old(a[..]))
  {
    ghost var was := a[..];
    var s := Sort(a[..]);
    SortPermutes(was);
    assert |s| == |multiset(s)| == |multiset(was)| == a.Length;
    for i := 0 to a.Length
      invariant a[..i] == s[..i]
    {
      a[i] := s[i];
    }
    assert a[..] == a[..a.Length] && s == s[..a.Length];
  }

  /** Both arrays are left sorted; passing one array twice is allowed. */
  method ContainsSameMembers(a: array<string>, b: array<string>) returns (same: bool)
    modifies a, b
    ensures a[..] == Sort(old(a[..])) && b[..] == Sort(old(b[..]))
    ensures same <==> Join(Sort(old(a[..]))) == Join(Sort(old(b[..])))
  {
    ghost var was := a[..];
    SortInPlace(a);
    if a == b {
      SortIdempotent(was);
    }
    var first := Join(a[..]);
    SortInPlace(b);
    same := first == Join(b[..]);
  }

  // ---------------------------------------------------------------- the order is total

  lemma LteTotal(a: string, b: string)
    ensures Lte(a, b) || Lte(b, a)
  {
  }

  lemma LteAntisymmetric(a: string, b: string)
    requires Lte(a, b) && Lte(b, a)
    ensures a == b
  {
    if a != "" {
      LteAntisymmetric(a[1..], b[1..]);
      assert a == [a[0]] + a[1..] && b == [b[0]] + b[1..];
    }
  }

  lemma LteTransitive(a: string, b: string, c: string)
    requires Lte(a, b) && Lte(b, c)
    ensures Lte(a, c)
  {
    if a != "" && a[0] == b[0] == c[0] {
      LteTransitive(a[1..], b[1..], c[1..]);
    }
  }

  // ---------------------------------------------------------------- sorting

  lemma {:induction false} InsertPermutes(x: string, s: seq<string>)
    ensures multiset(Insert(x, s)) == multiset([x] + s)
  {
    if s != [] && !Lte(x, s[0]) {
      InsertPermutes(x, s[1..]);
      assert s == [s[0]] + s[1..];
    }
  }

  lemma {:induction false} SortPermutes(s: seq<string>)
    ensures multiset(Sort(s)) == multiset(s)
  {
    if s != [] {
      SortPermutes(s[1..]);
      InsertPermutes(s[0], Sort(s[1..]));
      assert s == [s[0]] + s[1..];
    }
  }

  lemma {:induction false} InsertSorts(x: string, s: seq<string>)
    requires Sorted(s)
    ensures Sorted(Insert(x, s))
  {
    if s == [] {
    } else if Lte(x, s[0]) {
      forall k | 0 <= k < |s| ensures Lte(x, s[k]) {
        if k > 0 {
          LteTransitive(x, s[0], s[k]);
        }
      }
    } else {
      LteTotal(x, s[0]);
      InsertSorts(x, s[1..]);
      InsertPermutes(x, s[1..]);
      var r := Insert(x, s[1..]);
      forall k | 0 <= k < |r| ensures Lte(s[0], r[k]) {
        assert r[k] in multiset(r);
        assert r[k] in multiset([x] + s[1..]);
        assert r[k] == x || r[k] in s[1..];
      }
    }
  }

  /** Sorting leaves a sorted permutation of its input. */
  lemma {:induction false} SortSorts(s: seq<string>)
    ensures Sorted(Sort(s)) && multiset(Sort(s)) == multiset(s)
  {
    SortPermutes(s);
    if s != [] {
      SortSorts(s[1..]);
      InsertSorts(s[0], Sort(s[1..]));
    }
  }

  lemma {:induction false} SmallestFirst(s: seq<string>, t: seq<string>)
    requires Sorted(s) && Sorted(t) && multiset(s) == multiset(t) && s != [] && t != []
    ensures s[0] == t[0]
  {
    assert s[0] in multiset(t) && t[0] in multiset(s);
    assert s[0] in t && t[0] in s;
    if s[0] != t[0] {
      var i :| 0 <= i < |t| && t[i] == s[0];
      var k :| 0 <= k < |s| && s[k] == t[0];
      LteAntisymmetric(s[0], t[0]);
    }
  }

  /** A multiset of strings has one sorted arrangement. */
  lemma {:induction false} SortedUnique(s: seq<string>, t: seq<string>)
    requires Sorted(s) && Sorted(t) && multiset(s) == multiset(t)
    ensures s == t
    decreases |s|
  {
    assert |s| == |multiset(s)| == |multiset(t)| == |t|;
    if s != [] {
      SmallestFirst(s, t);
      assert s == [s[0]] + s[1..] && t == [t[0]] + t[1..];
      assert multiset(s[1..]) == multiset(s) - multiset{s[0]};
      assert multiset(t[1..]) == multiset(t) - multiset{t[0]};
      SortedUnique(s[1..], t[1..]);
    }
  }

  lemma SortIdempotent(s: seq<string>)
    ensures Sort(Sort(s)) == Sort(s)
  {
    SortSorts(s);
    SortSorts(Sort(s));
    SortedUnique(Sort(Sort(s)), Sort(s));
  }

  // ---------------------------------------------------------------- joining

  /** A comma-free prefix is determined by what it is a prefix of, when a comma or the end follows. */
  lemma {:induction false} CommaCuts(x: string, r: string, y: string, q: string)
    requires ',' !in x && ',' !in y
    requires r == "" || r[0] == ','
    requires q == "" || q[0] == ','
    requires x + r == y + q
    ensures x == y && r == q
  {
    var w := x + r;
    assert w == y + q;
    assert forall k :: 0 <= k < |x| ==> w[k] == x[k] && w[k] in x;
    assert forall k :: 0 <= k < |y| ==> w[k] == y[k] && w[k] in y;
    assert |x| < |w| ==> w[|x|] == ',';
    assert |y| < |w| ==> w[|y|] == ',';
    assert x == (x + r)[..|x|] && y == (y + q)[..|y|];
    assert r == (x + r)[|x|..] && q == (y + q)[|y|..];
  }

  function JoinTail(s: seq<string>): string
    requires s != []
  {
    if |s| == 1 then "" else "," + Join(s[1..])
  }

  lemma JoinHead(s: seq<string>)
    requires s != []
    ensures Join(s) == s[0] + JoinTail(s)
    ensures |s| == 1 <==> JoinTail(s) == ""
    ensures JoinTail(s) != "" ==> JoinTail(s)[0] == ',' && JoinTail(s)[1..] == Join(s[1..])
  {
  }

  lemma SameCons(s: seq<string>, t: seq<string>)
    requires s != [] && t != [] && s[0] == t[0] && s[1..] == t[1..]
    ensures s == t
  {
    assert s == [s[0]] + s[1..] && t == [t[0]] + t[1..];
  }

  /** Joining is injective on non-empty arrays of comma-free strings. */
  lemma {:induction false} JoinInjective(s: seq<string>, t: seq<string>)
    requires CommaFree(s) && CommaFree(t) && s != [] && t != []
    requires Join(s) == Join(t)
    ensures s == t
    decreases |s|
  {
    JoinHead(s);
    JoinHead(t);
    CommaCuts(s[0], JoinTail(s), t[0], JoinTail(t));
    if |s| > 1 {
      JoinInjective(s[1..], t[1..]);
    }
    SameCons(s, t);
  }

  /** Exactly the arrays that join to nothing. */
  lemma {:induction false} JoinEmpty(s: seq<string>)
    ensures Join(s) == "" <==> s == [] || s == [""]
  {
  }

  // ---------------------------------------------------------------- what the comparison decides

  /** Same members with the same multiplicity, except that the empty array is taken for one empty string. */
  ghost predicate SameOrBlank(a: seq<string>, b: seq<string>) {
    multiset(a) == multiset(b) || (a == [] && b == [""]) || (a == [""] && b == [])
  }

  lemma {:induction false} ComparesMembers(a: seq<string>, b: seq<string>)
    requires CommaFree(a) && CommaFree(b)
    ensures Join(Sort(a)) == Join(Sort(b)) <==> SameOrBlank(a, b)
  {
    var s, t := Sort(a), Sort(b);
    SortSorts(a);
    SortSorts(b);
    if multiset(a) == multiset(b) {
      SortedUnique(s, t);
    }
    SingletonSort(a);
    SingletonSort(b);
    JoinEmpty(s);
    JoinEmpty(t);
    if Join(s) == Join(t) && s != [] && t != [] {
      SortKeepsCommaFree(a);
      SortKeepsCommaFree(b);
      JoinInjective(s, t);
    }
  }

  lemma SortKeepsCommaFree(a: seq<string>)
    requires CommaFree(a)
    ensures CommaFree(Sort(a))
  {
    SortPermutes(a);
    forall x | x in Sort(a) ensures ',' !in x {
      assert x in multiset(Sort(a));
      assert x in multiset(a);
    }
  }

  lemma SingletonSort(a: seq<string>)
    ensures Sort(a) == [] <==> a == []
    ensures Sort(a) == [""] <==> a == [""]
  {
    SortPermutes(a);
    assert |Sort(a)| == |multiset(Sort(a))| == |multiset(a)| == |a|;
    if |a| == 1 {
      assert a == [a[0]] && a[1..] == [];
      assert Sort(a) == Insert(a[0], []) == [a[0]] + [];
    }
  }

  /** Non-empty comma-free strings: the comparison is multiset equality. */
  lemma {:induction false} ComparesMultisets(a: seq<string>, b: seq<string>)
    requires CommaFree(a) && CommaFree(b) && "" !in a && "" !in b
    ensures Join(Sort(a)) == Join(Sort(b)) <==> multiset(a) == multiset(b)
  {
    ComparesMembers(a, b);
    if a == [""] || b == [""] {
      assert false;
    }
  }

  /** All strings are non-empty and spelled with characters of `sigma`. */
  predicate Over(sigma: set<char>, a: seq<string>) {
    forall x :: x in a ==> x != "" && forall ch :: ch in x ==> ch in sigma
  }

  /** On strings over this alphabet the comparison decides multiset equality. */
  ghost predicate DecidesOver(sigma: set<char>) {
    forall a, b :: Over(sigma, a) && Over(sigma, b) ==>
      (Join(Sort(a)) == Join(Sort(b)) <==> multiset(a) == multiset(b))
  }

  lemma SortPair(x: string)
    ensures Sort([x, x]) == [x, x]
  {
    assert [x, x][1..] == [x] && [x][1..] == [];
    assert Sort([x]) == Insert(x, []) == [x];
    LteTotal(x, x);
    assert Sort([x, x]) == Insert(x, [x]) == [x] + [x];
  }

  /** One string of three commas, and two strings of one comma each. */
  lemma {:induction false} CommasConfuse()
    ensures Join(Sort([",,,"])) == Join(Sort([",", ","]))
    ensures multiset([",,,"]) != multiset([",", ","])
  {
    assert [",,,"][1..] == [] && Sort([",,,"]) == Insert(",,,", []) == [",,,"];
    SortPair(",");
    assert [",", ","][1..] == [","];
    assert Join([",", ","]) == "," + "," + Join([","]) == ",,,";
    assert ",,," in multiset([",,,"]) && ",,," !in multiset([",", ","]);
  }

  /** The comparison decides multiset equality over an alphabet if and only if the comma is not in it. */
  lemma {:induction false} DecidesIffCommaFree(sigma: set<char>)
    ensures DecidesOver(sigma) <==> ',' !in sigma
  {
    if ',' in sigma {
      CommasConfuse();
      assert Over(sigma, [",,,"]) && Over(sigma, [",", ","]);
    } else {
      forall a, b | Over(sigma, a) && Over(sigma, b)
        ensures Join(Sort(a)) == Join(Sort(b)) <==> multiset(a) == multiset(b)
      {
        assert forall x :: x in a ==> ',' !in x;
        assert forall x :: x in b ==> ',' !in x;
        ComparesMultisets(a, b);
      }
    }
  }

  // ---------------------------------------------------------------- the order itself

  /** The order of the default sort: the first difference decides, and a prefix comes first. */
  lemma {:induction false} FirstDifferenceDecides(p: string, a: string, b: string)
    ensures Lte(p, p + a)
    ensures a != "" && b != "" && a[0] < b[0] ==> Lte(p + a, p + b) && !Lte(p + b, p + a)
    ensures a != "" ==> !Lte(p + a, p)
    decreases p
  {
    if p == "" {
      assert p + a == a && p + b == b;
    } else {
      FirstDifferenceDecides(p[1..], a, b);
      assert (p + a)[0] == p[0] && (p + a)[1..] == p[1..] + a;
      assert (p + b)[0] == p[0] && (p + b)[1..] == p[1..] + b;
    }
  }
}
