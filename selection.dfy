/** The top-20 selection of views.py:65-66: keep the pairs quoted in USDT,
    sort them by volume, largest first, with Python's stable `sorted(...,
    reverse=True)`, and keep the first 20. */
module Selection {
  import opened Market
  import opened Text

  const Quote := "USDT"
  const TopN := 20

  predicate IsUsdtPair(t: Ticker) {
    EndsWith(t.symbol, Quote)
  }

  /** The list comprehension: the USDT pairs, in upstream order. */
  function UsdtPairs(items: seq<Ticker>): (r: seq<Ticker>)
    ensures forall t :: t in r <==> t in items && IsUsdtPair(t)
    ensures multiset(r) <= multiset(items)
    ensures forall t :: multiset(r)[t] == if IsUsdtPair(t) then multiset(items)[t] else 0
  {
    if items == [] then []
    else
      assert items == [items[0]] + items[1..];
      (if IsUsdtPair(items[0]) then [items[0]] else []) + UsdtPairs(items[1..])
  }

  /** The comprehension distributes over concatenation: it keeps the upstream
      order of the pairs it selects. */
  lemma {:induction false} UsdtPairsAppend(a: seq<Ticker>, b: seq<Ticker>)
    ensures UsdtPairs(a + b) == UsdtPairs(a) + UsdtPairs(b)
    decreases |a|
  {
    if a == [] {
      assert a + b == b;
    } else {
      var head := if IsUsdtPair(a[0]) then [a[0]] else [];
      assert (a + b)[0] == a[0];
      assert (a + b)[1..] == a[1..] + b;
      calc {
        UsdtPairs(a + b);
        head + UsdtPairs(a[1..] + b);
        { UsdtPairsAppend(a[1..], b); }
        head + (UsdtPairs(a[1..]) + UsdtPairs(b));
        (head + UsdtPairs(a[1..])) + UsdtPairs(b);
        UsdtPairs(a) + UsdtPairs(b);
      }
    }
  }

  /** Largest volume first. */
  predicate SortedByVolume(s: seq<Ticker>) {
    forall i, j :: 0 <= i < j < |s| ==> s[i].volume >= s[j].volume
  }

  /** The tickers of one volume, in the order they appear in `s`. A sort is
      stable when it keeps this subsequence for every volume. */
  function WithVolume(s: seq<Ticker>, v: int): seq<Ticker> {
    if s == [] then []
    else (if s[0].volume == v then [s[0]] else []) + WithVolume(s[1..], v)
  }

  lemma {:induction false} InWithVolume(s: seq<Ticker>, v: int, t: Ticker)
    ensures t in WithVolume(s, v) <==> t in s && t.volume == v
    decreases |s|
  {
    if s != [] {
      InWithVolume(s[1..], v, t);
      assert s == [s[0]] + s[1..];
    }
  }

  /** Inserts `x` in front of the first element whose volume does not exceed
      its own, so that `x` precedes the elements of equal volume. */
  function Insert(x: Ticker, s: seq<Ticker>): (r: seq<Ticker>)
    ensures multiset(r) == multiset(s) + multiset{x}
    ensures SortedByVolume(s) ==> SortedByVolume(r)
  {
    if s == [] || s[0].volume <= x.volume then [x] + s
    else
      var rest := Insert(x, s[1..]);
      assert s == [s[0]] + s[1..];
      InsertKeepsBelow(x, s, rest);
      [s[0]] + rest
  }

  lemma InsertKeepsBelow(x: Ticker, s: seq<Ticker>, rest: seq<Ticker>)
    requires s != [] && s[0].volume > x.volume
    requires multiset(rest) == multiset(s[1..]) + multiset{x}
    ensures SortedByVolume(s) ==> forall i :: 0 <= i < |rest| ==> s[0].volume >= rest[i].volume
  {
    forall i | 0 <= i < |rest| && SortedByVolume(s) ensures s[0].volume >= rest[i].volume {
      assert rest[i] in multiset(rest);
      if rest[i] != x {
        assert rest[i] in s[1..];
      }
    }
  }

  /** Stable descending insertion sort by volume: a model of
      `sorted(pairs, key=volume, reverse=True)`. */
  function SortByVolume(s: seq<Ticker>): (r: seq<Ticker>)
    ensures SortedByVolume(r)
    ensures multiset(r) == multiset(s)
  {
    if s == [] then []
    else
      assert s == [s[0]] + s[1..];
      Insert(s[0], SortByVolume(s[1..]))
  }

  function TopPairs(items: seq<Ticker>): (r: seq<Ticker>)
    ensures |r| == if |UsdtPairs(items)| <= TopN then |UsdtPairs(items)| else TopN
    ensures r <= SortByVolume(UsdtPairs(items))
  {
    var sorted := SortByVolume(UsdtPairs(items));
    if |sorted| <= TopN then sorted else sorted[..TopN]
  }

  lemma {:induction false} WithVolumeAppend(a: seq<Ticker>, b: seq<Ticker>, v: int)
    ensures WithVolume(a + b, v) == WithVolume(a, v) + WithVolume(b, v)
    decreases |a|
  {
    if a != [] {
      assert (a + b)[0] == a[0];
      assert (a + b)[1..] == a[1..] + b;
      WithVolumeAppend(a[1..], b, v);
    } else {
      assert a + b == b;
    }
  }

  lemma {:induction false} InsertWithVolume(x: Ticker, s: seq<Ticker>, v: int)
    ensures WithVolume(Insert(x, s), v)
         == (if x.volume == v then [x] else []) + WithVolume(s, v)
    decreases |s|
  {
    if s == [] || s[0].volume <= x.volume {
      assert ([x] + s)[1..] == s;
    } else {
      var rest := Insert(x, s[1..]);
      assert Insert(x, s) == [s[0]] + rest;
      assert ([s[0]] + rest)[1..] == rest;
      InsertWithVolume(x, s[1..], v);
    }
  }

  /** The sort is stable: for every volume, the tickers of that volume keep
      their upstream order. */
  lemma {:induction false} SortIsStable(s: seq<Ticker>, v: int)
    ensures WithVolume(SortByVolume(s), v) == WithVolume(s, v)
    decreases |s|
  {
    if s != [] {
      SortIsStable(s[1..], v);
      InsertWithVolume(s[0], SortByVolume(s[1..]), v);
    }
  }

  /** Sortedness and stability determine the result: two sequences sorted by
      volume that agree on every volume's subsequence are equal. */
  lemma {:induction false} SortedStableUnique(r: seq<Ticker>, t: seq<Ticker>)
    requires SortedByVolume(r) && SortedByVolume(t)
    requires forall v :: WithVolume(r, v) == WithVolume(t, v)
    ensures r == t
    decreases |r|
  {
    if r != [] && t != [] {
      var a, b := r[0], t[0];
      InWithVolume(r, a.volume, a);
      InWithVolume(t, a.volume, a);
      InWithVolume(t, b.volume, b);
      InWithVolume(r, b.volume, b);
      var i :| 0 <= i < |t| && t[i] == a;
      var j :| 0 <= j < |r| && r[j] == b;
      assert a.volume == b.volume;
      var m := a.volume;
      assert WithVolume(r, m) == [a] + WithVolume(r[1..], m);
      assert WithVolume(t, m) == [b] + WithVolume(t[1..], m);
      assert a == WithVolume(r, m)[0] == WithVolume(t, m)[0] == b;
      forall v ensures WithVolume(r[1..], v) == WithVolume(t[1..], v) {
        if v == m {
          var x, y := WithVolume(r[1..], v), WithVolume(t[1..], v);
          assert [a] + x == [b] + y;
          assert x == ([a] + x)[1..];
          assert y == ([b] + y)[1..];
        } else {
          assert WithVolume(r, v) == WithVolume(r[1..], v);
          assert WithVolume(t, v) == WithVolume(t[1..], v);
        }
      }
      SortedStableUnique(r[1..], t[1..]);
      assert r == [a] + r[1..];
      assert t == [b] + t[1..];
    } else if r != [] {
      InWithVolume(r, r[0].volume, r[0]);
      assert false;
    } else if t != [] {
      InWithVolume(t, t[0].volume, t[0]);
      assert false;
    }
  }

  /** An independent characterisation of the sort: any sequence sorted by
      volume that keeps the upstream order within every volume is the stable
      descending sort of `s` (SortByVolume's contract and SortIsStable give
      the converse). */
  lemma SortCharacterised(s: seq<Ticker>, r: seq<Ticker>)
    requires SortedByVolume(r)
    requires forall v :: WithVolume(r, v) == WithVolume(s, v)
    ensures r == SortByVolume(s)
  {
    var sorted := SortByVolume(s);
    forall v ensures WithVolume(r, v) == WithVolume(sorted, v) {
      SortIsStable(s, v);
    }
    SortedStableUnique(r, sorted);
  }

  /** Every ticker of the top list is a USDT pair of the upstream snapshot,
      and there are min(20, number of USDT pairs) of them. */
  lemma TopPairsMembers(items: seq<Ticker>)
    ensures var r, u := TopPairs(items), UsdtPairs(items);
      && (forall t :: t in r ==> IsUsdtPair(t) && t in items)
      && |r| == (if |u| <= TopN then |u| else TopN)
  {
    var u := UsdtPairs(items);
    var sorted := SortByVolume(u);
    var r := TopPairs(items);
    assert |sorted| == |multiset(sorted)| == |multiset(u)| == |u|;
    assert sorted == r + sorted[|r|..];
    forall t | t in r ensures IsUsdtPair(t) && t in items {
      assert t in multiset(sorted);
      assert t in u;
    }
  }

  /** The top list is sorted by volume, largest first, and keeps the
      upstream order among tickers of equal volume: for each volume it is a
      prefix of that volume's upstream subsequence. */
  lemma TopPairsOrder(items: seq<Ticker>)
    ensures var r, u := TopPairs(items), UsdtPairs(items);
      && SortedByVolume(r)
      && (forall v :: WithVolume(r, v) <= WithVolume(u, v))
  {
    var u := UsdtPairs(items);
    var sorted := SortByVolume(u);
    var r := TopPairs(items);
    var k := |r|;
    assert sorted == r + sorted[k..];
    forall v ensures WithVolume(r, v) <= WithVolume(u, v) {
      SortIsStable(u, v);
      WithVolumeAppend(r, sorted[k..], v);
    }
  }

  /** The top list takes USDT pairs without duplication, and every USDT pair
      it leaves out has at most the volume of the last pair it keeps. */
  lemma TopPairsCutOff(items: seq<Ticker>)
    ensures var r, u := TopPairs(items), UsdtPairs(items);
      && multiset(r) <= multiset(u)
      && (forall t: Ticker :: t in multiset(u) - multiset(r) ==> |r| == TopN && t.volume <= r[TopN - 1].volume)
  {
    var u := UsdtPairs(items);
    var sorted := SortByVolume(u);
    var r := TopPairs(items);
    var rest := sorted[|r|..];
    assert sorted == r + rest;
    SplitMultiset(r, rest);
    LeftOutBelowCut(r, rest);
  }

  lemma SplitMultiset(r: seq<Ticker>, rest: seq<Ticker>)
    ensures multiset(r) <= multiset(r + rest)
    ensures multiset(r + rest) - multiset(r) == multiset(rest)
  {
    assert multiset(r + rest) == multiset(r) + multiset(rest);
  }

  lemma LeftOutBelowCut(r: seq<Ticker>, rest: seq<Ticker>)
    requires SortedByVolume(r + rest)
    requires |r| == TopN || rest == []
    ensures forall t: Ticker :: t in multiset(rest) ==> |r| == TopN && t.volume <= r[TopN - 1].volume
  {
    forall t: Ticker | t in multiset(rest)
      ensures |r| == TopN && t.volume <= r[TopN - 1].volume
    {
      assert t in rest;
      var j :| 0 <= j < |rest| && rest[j] == t;
      assert (r + rest)[|r| + j] == t;
      assert (r + rest)[TopN - 1] == r[TopN - 1];
    }
  }
}
