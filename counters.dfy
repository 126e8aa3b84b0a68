/** Python's `collections.Counter` keyed by warning text: a finite map from
    keys to counts in which a missing key reads as 0. */
module Counters {

  type Counter = map<string, nat>

  /** `c[k]`: a missing key counts 0 (and is not inserted). */
  function Get(c: Counter, k: string): nat {
    if k in c then c[k] else 0
  }

  /** `c[k] += 1` */
  function Increment(c: Counter, k: string): (r: Counter)
    ensures Get(r, k) == Get(c, k) + 1
    ensures forall j :: j != k ==> Get(r, j) == Get(c, j)
    ensures r.Keys == c.Keys + {k}
  {
    c[k := Get(c, k) + 1]
  }

  /** `c.update(d)`: the counts of `d` are added to those of `c`, key by key. */
  function Update(c: Counter, d: Counter): (r: Counter)
    ensures forall k :: Get(r, k) == Get(c, k) + Get(d, k)
    ensures r.Keys == c.Keys + d.Keys
  {
    map k | k in c.Keys + d.Keys :: Get(c, k) + Get(d, k)
  }

  /** The counter after `c[line] += 1` for each line of `lines` that `keep`
      accepts, first to last. */
  function Tally(c: Counter, lines: seq<string>, keep: string -> bool): Counter {
    if lines == [] then c
    else
      var r := Tally(c, lines[..|lines| - 1], keep);
      var line := lines[|lines| - 1];
      if keep(line) then Increment(r, line) else r
  }

  /** How many entries of `lines` equal `k`. */
  function Occurrences(lines: seq<string>, k: string): nat {
    if lines == [] then 0
    else Occurrences(lines[..|lines| - 1], k) + (if lines[|lines| - 1] == k then 1 else 0)
  }

  /** Tallying counts each accepted line once per occurrence and leaves
      rejected lines alone. */
  lemma {:induction false} TallyGet(c: Counter, lines: seq<string>, keep: string -> bool, k: string)
    ensures Get(Tally(c, lines, keep), k) == Get(c, k) + (if keep(k) then Occurrences(lines, k) else 0)
    decreases |lines|
  {
    if lines != [] {
      TallyGet(c, lines[..|lines| - 1], keep, k);
    }
  }

  /** How many entries of `lines` `keep` accepts. */
  function Accepted(lines: seq<string>, keep: string -> bool): nat {
    if lines == [] then 0
    else Accepted(lines[..|lines| - 1], keep) + (if keep(lines[|lines| - 1]) then 1 else 0)
  }

  /** Tallying adds one to the total per accepted line. */
  lemma {:induction false} TallyTotal(c: Counter, lines: seq<string>, keep: string -> bool)
    ensures Total(Tally(c, lines, keep)) == Total(c) + Accepted(lines, keep)
    decreases |lines|
  {
    if lines != [] {
      var n := |lines| - 1;
      TallyTotal(c, lines[..n], keep);
      if keep(lines[n]) {
        TotalIncrement(Tally(c, lines[..n], keep), lines[n]);
      }
    }
  }

  /** The sum of the counts of the keys `ks`. */
  ghost function SumOf(c: Counter, ks: set<string>): nat
    decreases ks
  {
    if ks == {} then 0 else var k :| k in ks; Get(c, k) + SumOf(c, ks - {k})
  }

  /** `sum(c.values())` */
  ghost function Total(c: Counter): nat {
    SumOf(c, c.Keys)
  }

  /** The sum over the keys that start with `stem`. */
  ghost function PrefixTotal(c: Counter, stem: string): nat {
    SumOf(c, set k | k in c && stem <= k)
  }

  /** Any key can be taken out of a sum first, whichever one `SumOf` picks. */
  lemma {:induction false} SumOfRemove(c: Counter, ks: set<string>, k: string)
    requires k in ks
    ensures SumOf(c, ks) == Get(c, k) + SumOf(c, ks - {k})
    decreases ks
  {
    var j :| j in ks && SumOf(c, ks) == Get(c, j) + SumOf(c, ks - {j});
    if j != k {
      SumOfRemove(c, ks - {j}, k);
      SumOfRemove(c, ks - {k}, j);
      assert ks - {j} - {k} == ks - {k} - {j};
    }
  }

  /** Sums are taken pointwise: if `r` is `a + b` on the keys `ks`, so are the sums. */
  lemma {:induction false} SumOfAdd(r: Counter, a: Counter, b: Counter, ks: set<string>)
    requires forall k :: k in ks ==> Get(r, k) == Get(a, k) + Get(b, k)
    ensures SumOf(r, ks) == SumOf(a, ks) + SumOf(b, ks)
    decreases ks
  {
    if ks != {} {
      var k :| k in ks;
      SumOfRemove(r, ks, k);
      SumOfRemove(a, ks, k);
      SumOfRemove(b, ks, k);
      SumOfAdd(r, a, b, ks - {k});
    }
  }

  /** A sum only reads the counts of the keys it ranges over. */
  lemma {:induction false} SumOfExt(a: Counter, b: Counter, ks: set<string>)
    requires forall k :: k in ks ==> Get(a, k) == Get(b, k)
    ensures SumOf(a, ks) == SumOf(b, ks)
    decreases ks
  {
    if ks != {} {
      var k :| k in ks;
      SumOfRemove(a, ks, k);
      SumOfRemove(b, ks, k);
      SumOfExt(a, b, ks - {k});
    }
  }

  /** Keys that count 0 add nothing to a sum. */
  lemma {:induction false} SumOfZeros(c: Counter, ks: set<string>, extra: set<string>)
    requires forall k :: k in extra ==> Get(c, k) == 0
    ensures SumOf(c, ks + extra) == SumOf(c, ks)
    decreases extra
  {
    if extra != {} {
      var e :| e in extra;
      SumOfZeros(c, ks, extra - {e});
      if e in ks {
        assert ks + extra == ks + (extra - {e});
      } else {
        SumOfRemove(c, ks + extra, e);
        assert ks + extra - {e} == ks + (extra - {e});
      }
    } else {
      assert ks + extra == ks;
    }
  }

  /** `c[k] += 1` adds exactly one to the total. */
  lemma {:induction false} TotalIncrement(c: Counter, k: string)
    ensures Total(Increment(c, k)) == Total(c) + 1
  {
    var r := Increment(c, k);
    var one: Counter := map[k := 1];
    SumOfAdd(r, c, one, r.Keys);
    SumOfRemove(one, r.Keys, k);
    SumOfExt(one, map[], r.Keys - {k});
    SumOfEmpty(r.Keys - {k});
    SumOfZeros(c, c.Keys, {k} - c.Keys);
    assert r.Keys == c.Keys + ({k} - c.Keys);
  }

  /** The empty counter sums to 0 over any keys. */
  lemma {:induction false} SumOfEmpty(ks: set<string>)
    ensures SumOf(map[], ks) == 0
    decreases ks
  {
    if ks != {} {
      var k :| k in ks;
      SumOfRemove(map[], ks, k);
      SumOfEmpty(ks - {k});
    }
  }

  /** `c.update(d)` adds the totals. */
  lemma {:induction false} TotalUpdate(c: Counter, d: Counter)
    ensures Total(Update(c, d)) == Total(c) + Total(d)
  {
    var r := Update(c, d);
    SumOfAdd(r, c, d, r.Keys);
    SumOfZeros(c, c.Keys, d.Keys - c.Keys);
    SumOfZeros(d, d.Keys, c.Keys - d.Keys);
    assert c.Keys + (d.Keys - c.Keys) == r.Keys;
    assert d.Keys + (c.Keys - d.Keys) == r.Keys;
  }

  /** `l` is what `c.most_common()` returns: every key of `c` exactly once
      with its count, in non-increasing count order. The order among equal
      counts is left open. */
  ghost predicate IsMostCommon(c: Counter, l: seq<(string, nat)>) {
    && ListedFrom(c, l, {})
    && ListsAllBut(c, l, {})
    && DistinctKeys(l)
    && NonIncreasing(l)
  }

  /** Every entry of `l` is a key of `c` outside `rest`, with its count. */
  ghost predicate ListedFrom(c: Counter, l: seq<(string, nat)>, rest: set<string>) {
    forall i :: 0 <= i < |l| ==> l[i].0 in c && c[l[i].0] == l[i].1 && l[i].0 !in rest
  }

  /** Every key of `c` outside `rest` is listed. */
  ghost predicate ListsAllBut(c: Counter, l: seq<(string, nat)>, rest: set<string>) {
    forall k :: k in c && k !in rest ==> exists i :: 0 <= i < |l| && l[i].0 == k
  }

  ghost predicate DistinctKeys(l: seq<(string, nat)>) {
    forall i, j :: 0 <= i < j < |l| ==> l[i].0 != l[j].0
  }

  ghost predicate NonIncreasing(l: seq<(string, nat)>) {
    forall i, j :: 0 <= i < j < |l| ==> l[i].1 >= l[j].1
  }

  /** The sum of the counts of a listing. */
  function ListingSum(l: seq<(string, nat)>): nat {
    if l == [] then 0 else ListingSum(l[..|l| - 1]) + l[|l| - 1].1
  }

  /** Summing the `most_common()` listing gives the counter's total. */
  lemma {:induction false} ListingSumIsTotal(c: Counter, l: seq<(string, nat)>)
    requires IsMostCommon(c, l)
    ensures ListingSum(l) == Total(c)
    decreases |l|
  {
    if l == [] {
      assert c.Keys == {};
    } else {
      var n := |l| - 1;
      var k := l[n].0;
      var rest := c - {k};
      MostCommonInit(c, l);
      ListingSumIsTotal(rest, l[..n]);
      TotalRemove(c, k);
    }
  }

  /** Without its last entry, a `most_common()` listing lists the counter
      without that entry's key. */
  lemma {:induction false} MostCommonInit(c: Counter, l: seq<(string, nat)>)
    requires IsMostCommon(c, l) && l != []
    ensures IsMostCommon(c - {l[|l| - 1].0}, l[..|l| - 1])
  {
    ListedFromInit(c, l);
    ListsAllButInit(c, l);
    PrefixOrder(l, |l| - 1);
  }

  lemma {:induction false} ListedFromInit(c: Counter, l: seq<(string, nat)>)
    requires ListedFrom(c, l, {}) && DistinctKeys(l) && l != []
    ensures ListedFrom(c - {l[|l| - 1].0}, l[..|l| - 1], {})
  {
  }

  lemma {:induction false} ListsAllButInit(c: Counter, l: seq<(string, nat)>)
    requires ListsAllBut(c, l, {}) && l != []
    ensures ListsAllBut(c - {l[|l| - 1].0}, l[..|l| - 1], {})
  {
    var n := |l| - 1;
    forall k | k in c - {l[n].0} ensures exists i :: 0 <= i < n && l[..n][i].0 == k {
      var i :| 0 <= i < |l| && l[i].0 == k;
      assert l[..n][i].0 == k;
    }
  }

  /** A prefix of a listing keeps its distinct keys and its order. */
  lemma {:induction false} PrefixOrder(l: seq<(string, nat)>, n: nat)
    requires n <= |l|
    ensures DistinctKeys(l) ==> DistinctKeys(l[..n])
    ensures NonIncreasing(l) ==> NonIncreasing(l[..n])
  {
  }

  /** Removing a key takes its count off the total. */
  lemma {:induction false} TotalRemove(c: Counter, k: string)
    requires k in c
    ensures Total(c) == Total(c - {k}) + c[k]
  {
    var rest := c - {k};
    SumOfRemove(c, c.Keys, k);
    assert c.Keys - {k} == rest.Keys;
    SumOfExt(c, rest, rest.Keys);
  }

  /** A key of `keys` with the largest count. */
  method MaxKey(c: Counter, keys: set<string>) returns (best: string)
    requires keys != {} && keys <= c.Keys
    ensures best in keys
    ensures forall k :: k in keys ==> c[k] <= c[best]
  {
    best :| best in keys;
    var unseen := keys - {best};
    while unseen != {}
      invariant unseen <= keys && best in keys
      invariant forall k :: k in keys && k !in unseen ==> c[k] <= c[best]
      decreases unseen
    {
      var k :| k in unseen;
      if c[k] > c[best] {
        best := k;
      }
      unseen := unseen - {k};
    }
  }

  /** No count in `rest` exceeds a listed count. */
  ghost predicate ListedFirst(c: Counter, l: seq<(string, nat)>, rest: set<string>)
    requires rest <= c.Keys
  {
    forall i, k :: 0 <= i < |l| && k in rest ==> l[i].1 >= c[k]
  }

  /** `l` lists, by non-increasing count, every key of `c` outside `rest`,
      and no count in `rest` exceeds the counts already listed. */
  ghost predicate PartialListing(c: Counter, l: seq<(string, nat)>, rest: set<string>) {
    && rest <= c.Keys
    && ListedFrom(c, l, rest)
    && ListsAllBut(c, l, rest)
    && DistinctKeys(l)
    && NonIncreasing(l)
    && ListedFirst(c, l, rest)
  }

  /** Listing a key of `rest` with the largest count keeps the listing
      partial, one key further. */
  lemma {:induction false} PartialListingStep(c: Counter, l: seq<(string, nat)>, rest: set<string>, best: string)
    requires PartialListing(c, l, rest)
    requires best in rest && forall k :: k in rest ==> c[k] <= c[best]
    ensures PartialListing(c, l + [(best, c[best])], rest - {best})
  {
    ListedFromStep(c, l, rest, best);
    ListsAllButStep(c, l, rest, best);
    OrderStep(c, l, rest, best);
  }

  lemma {:induction false} ListedFromStep(c: Counter, l: seq<(string, nat)>, rest: set<string>, best: string)
    requires ListedFrom(c, l, rest) && best in rest && rest <= c.Keys
    ensures ListedFrom(c, l + [(best, c[best])], rest - {best})
    ensures DistinctKeys(l) ==> DistinctKeys(l + [(best, c[best])])
  {
  }

  lemma {:induction false} ListsAllButStep(c: Counter, l: seq<(string, nat)>, rest: set<string>, best: string)
    requires ListsAllBut(c, l, rest) && best in c
    ensures ListsAllBut(c, l + [(best, c[best])], rest - {best})
  {
    var l' := l + [(best, c[best])];
    forall k | k in c && k !in rest - {best} ensures exists i :: 0 <= i < |l'| && l'[i].0 == k {
      if k == best {
        assert l'[|l|].0 == k;
      } else {
        var i :| 0 <= i < |l| && l[i].0 == k;
        assert l'[i].0 == k;
      }
    }
  }

  lemma {:induction false} OrderStep(c: Counter, l: seq<(string, nat)>, rest: set<string>, best: string)
    requires rest <= c.Keys && NonIncreasing(l) && ListedFirst(c, l, rest)
    requires best in rest && forall k :: k in rest ==> c[k] <= c[best]
    ensures NonIncreasing(l + [(best, c[best])])
    ensures ListedFirst(c, l + [(best, c[best])], rest - {best})
  {
  }

  /** The listing of a counter by non-increasing count, as `most_common()`
      and `reversed(sorted(d.items(), key=itemgetter(1)))` produce it. Ties
      come out in an unspecified order. */
  method SortedByCount(c: Counter) returns (l: seq<(string, nat)>)
    ensures IsMostCommon(c, l)
  {
    l := [];
    var rest := c.Keys;
    while rest != {}
      invariant PartialListing(c, l, rest)
      decreases rest
    {
      var best := MaxKey(c, rest);
      PartialListingStep(c, l, rest, best);
      l := l + [(best, c[best])];
      rest := rest - {best};
    }
  }
}
