/** The canonical key of a list of endpoints: sorted, then joined with commas
    (client/balancer/picker/leader_ctrl.go). */
module ClusterKey {
  import opened ByteStrings

  const COMMA: Byte := 44

  type Endpoint = Bytes

  predicate CommaFree(e: Endpoint) {
    COMMA !in e
  }

  predicate Ordered(s: seq<Bytes>) {
    forall i, j :: 0 <= i <= j < |s| ==> Le(s[i], s[j])
  }

  function Insert(e: Bytes, s: seq<Bytes>): (r: seq<Bytes>)
    ensures multiset(r) == multiset(s) + multiset{e}
  {
    if s == [] then [e]
    else if Le(e, s[0]) then [e] + s
    else
      var rest := Insert(e, s[1..]);
      assert s == [s[0]] + s[1..];
      [s[0]] + rest
  }

  /** sort.Strings on a copy. */
  function Sort(s: seq<Bytes>): (r: seq<Bytes>)
    ensures multiset(r) == multiset(s)
  {
    if s == [] then []
    else
      assert s == [s[0]] + s[1..];
      Insert(s[0], Sort(s[1..]))
  }

  /** strings.Join with a comma. */
  function Join(parts: seq<Bytes>): Bytes {
    if parts == [] then []
    else if |parts| == 1 then parts[0]
    else parts[0] + [COMMA] + Join(parts[1..])
  }

  function MarshalEndpoints(endpoints: seq<Endpoint>): Bytes {
    Join(Sort(endpoints))
  }

  // ---------------------------------------------------------------- sorting

  predicate AtLeast(x: Bytes, s: seq<Bytes>) {
    forall i :: 0 <= i < |s| ==> Le(x, s[i])
  }

  lemma OrderedCons(x: Bytes, s: seq<Bytes>)
    requires AtLeast(x, s)
    ensures Ordered([x] + s) <==> Ordered(s)
  {
    hide Le;
    LeReflexive(x);
    if Ordered([x] + s) {
      assert forall i :: 0 <= i < |s| ==> ([x] + s)[i + 1] == s[i];
    }
  }

  lemma InsertAtLeast(x: Bytes, e: Bytes, s: seq<Bytes>)
    requires Le(x, e) && AtLeast(x, s)
    ensures AtLeast(x, Insert(e, s))
  {
    hide Le, Insert;
    var r := Insert(e, s);
    forall i | 0 <= i < |r| ensures Le(x, r[i]) {
      assert r[i] in multiset(r);
      assert r[i] == e || r[i] in s;
    }
  }

  lemma {:induction false} InsertOrdered(e: Bytes, s: seq<Bytes>)
    requires Ordered(s)
    ensures Ordered(Insert(e, s))
  {
    hide Le;
    if s == [] {
      LeReflexive(e);
    } else {
      var first, rest := s[0], s[1..];
      LeTotal(e, first);
      if Le(e, first) {
        forall i | 0 <= i < |s| ensures Le(e, s[i]) {
          LeTransitive(e, first, s[i]);
        }
        OrderedCons(e, s);
      } else {
        assert AtLeast(first, rest) && s == [first] + rest;
        InsertAtLeast(first, e, rest);
        hide Ordered, AtLeast;
        OrderedCons(first, rest);
        OrderedCons(first, Insert(e, rest));
        InsertOrdered(e, rest);
      }
    }
  }

  lemma {:induction false} SortOrdered(s: seq<Bytes>)
    ensures Ordered(Sort(s))
  {
    if s != [] {
      SortOrdered(s[1..]);
      InsertOrdered(s[0], Sort(s[1..]));
    }
  }

  lemma FirstIsLeast(a: seq<Bytes>, x: Bytes)
    requires Ordered(a) && x in multiset(a)
    ensures Le(a[0], x)
  {
    hide Le;
    var i :| 0 <= i < |a| && a[i] == x;
  }

  lemma SameFirst(a: seq<Bytes>, b: seq<Bytes>)
    requires Ordered(a) && Ordered(b) && multiset(a) == multiset(b) && a != [] && b != []
    ensures a[0] == b[0]
  {
    hide Le, Ordered;
    assert a[0] in multiset(a) && b[0] in multiset(b);
    FirstIsLeast(a, b[0]);
    FirstIsLeast(b, a[0]);
    LeAntisymmetric(a[0], b[0]);
  }

  lemma WithoutFirst(a: seq<Bytes>)
    requires a != []
    ensures multiset(a[1..]) == multiset(a) - multiset{a[0]}
  {
    assert a == [a[0]] + a[1..];
  }

  /** There is only one way to put the same strings in order. */
  lemma {:induction false} OrderedUnique(a: seq<Bytes>, b: seq<Bytes>)
    requires Ordered(a) && Ordered(b) && multiset(a) == multiset(b)
    ensures a == b
  {
    assert |multiset(a)| == |a| && |multiset(b)| == |b|;
    if a != [] {
      hide Le;
      SameFirst(a, b);
      WithoutFirst(a);
      WithoutFirst(b);
      OrderedUnique(a[1..], b[1..]);
      assert a == [a[0]] + a[1..] && b == [b[0]] + b[1..];
    }
  }

  // ---------------------------------------------------------------- joining

  predicate AllCommaFree(parts: seq<Bytes>) {
    forall i :: 0 <= i < |parts| ==> CommaFree(parts[i])
  }

  /** Where the first part ends. */
  lemma FirstComma(parts: seq<Bytes>)
    requires parts != [] && AllCommaFree(parts)
    ensures parts[0] <= Join(parts)
    ensures |parts| == 1 ==> COMMA !in Join(parts)
    ensures |parts| > 1 ==> |parts[0]| < |Join(parts)| && Join(parts)[|parts[0]|] == COMMA
                            && Join(parts)[|parts[0]| + 1..] == Join(parts[1..])
    ensures forall k :: 0 <= k < |parts[0]| ==> Join(parts)[k] != COMMA
  {
    if |parts| > 1 {
      assert Join(parts) == parts[0] + ([COMMA] + Join(parts[1..]));
    }
  }

  lemma {:induction false} JoinInjective(a: seq<Bytes>, b: seq<Bytes>)
    requires a != [] && b != [] && AllCommaFree(a) && AllCommaFree(b)
    requires Join(a) == Join(b)
    ensures a == b
  {
    FirstComma(a);
    FirstComma(b);
    if |a| == 1 && |b| == 1 {
      assert a == [a[0]] && b == [b[0]];
    } else if |a| > 1 && |b| > 1 {
      assert |a[0]| == |b[0]|;
      assert a[0] == Join(a)[..|a[0]|] == b[0];
      JoinInjective(a[1..], b[1..]);
      assert a == [a[0]] + a[1..] && b == [b[0]] + b[1..];
    }
  }

  // ---------------------------------------------------------------- the key

  /** Two lists of comma-free endpoints have the same key exactly when one is a permutation of the other. */
  lemma CanonicalKey(a: seq<Endpoint>, b: seq<Endpoint>)
    requires a != [] && b != [] && AllCommaFree(a) && AllCommaFree(b)
    ensures MarshalEndpoints(a) == MarshalEndpoints(b) <==> multiset(a) == multiset(b)
  {
    SortOrdered(a);
    SortOrdered(b);
    if multiset(a) == multiset(b) {
      OrderedUnique(Sort(a), Sort(b));
    }
    if MarshalEndpoints(a) == MarshalEndpoints(b) {
      SortKeeps(a);
      SortKeeps(b);
      JoinInjective(Sort(a), Sort(b));
    }
  }

  lemma SortKeeps(a: seq<Endpoint>)
    requires AllCommaFree(a)
    ensures AllCommaFree(Sort(a)) && |Sort(a)| == |a|
  {
    assert |multiset(a)| == |a| && |multiset(Sort(a))| == |Sort(a)|;
    forall i | 0 <= i < |Sort(a)| ensures CommaFree(Sort(a)[i]) {
      assert Sort(a)[i] in multiset(Sort(a));
      assert Sort(a)[i] in a;
    }
  }

  /** The key of one endpoint is that endpoint; the key of more is nobody's endpoint. */
  lemma KeyAndEndpoints(a: seq<Endpoint>)
    requires a != [] && AllCommaFree(a)
    ensures |a| == 1 ==> MarshalEndpoints(a) == a[0]
    ensures |a| > 1 ==> forall e | CommaFree(e) :: MarshalEndpoints(a) != e
  {
    SortKeeps(a);
    FirstComma(Sort(a));
  }

  /** The key of "b" and "a" is "a,b". */
  lemma KeyOfTwo()
    ensures MarshalEndpoints([[98], [97]]) == [97, 44, 98]
  {
    assert [[98], [97]][1..] == [[97]] && [[97]][1..] == [];
    assert Sort([[97]]) == [[97]];
    assert !Le([98], [97]) && [[97]][1..] == [];
    assert Insert([98], [[97]]) == [[97], [98]];
    assert [[97], [98]][1..] == [[98]];
  }
}
