/**
 The order and the de-duplication that FetchTransactionsWithOptions applies
 (daemon/client.go:517-539): a stable newest-first sort, then the first copy of
 every hash. What sort.SliceStable computes is defined here as Sort; the lemmas
 say why that is the stable sort and no other list.
 */
module TxOrder {
  import opened Wrappers

  /** A wallet transaction; `body` stands for the fields no comparison reads. */
  datatype Tx = Tx(hash: string, time: int, height: int, body: int)

  /** The less function handed to sort.SliceStable. */
  predicate Newer(a: Tx, b: Tx) {
    if a.time != b.time then a.time > b.time else a.height > b.height
  }

  predicate SameKey(a: Tx, b: Tx) {
    a.time == b.time && a.height == b.height
  }

  function Insert(x: Tx, ys: seq<Tx>): seq<Tx> {
    if ys == [] then [x]
    else if Newer(ys[0], x) then [ys[0]] + Insert(x, ys[1..])
    else [x] + ys
  }

  function Sort(xs: seq<Tx>): seq<Tx> {
    if xs == [] then [] else Insert(xs[0], Sort(xs[1..]))
  }

  ghost predicate Sorted(xs: seq<Tx>) {
    forall i, j :: 0 <= i < j < |xs| ==> !Newer(xs[j], xs[i])
  }

  /** The elements of xs with the key of k, in order. */
  function Class(xs: seq<Tx>, k: Tx): seq<Tx> {
    if xs == [] then []
    else (if SameKey(xs[0], k) then [xs[0]] else []) + Class(xs[1..], k)
  }

  // --------------------------------------------------- what Sort guarantees

  lemma {:induction false} InsertKeeps(x: Tx, ys: seq<Tx>)
    ensures multiset(Insert(x, ys)) == multiset(ys) + multiset{x}
  {
    if ys != [] && Newer(ys[0], x) {
      InsertKeeps(x, ys[1..]);
      assert ys == [ys[0]] + ys[1..];
    }
  }

  lemma {:induction false} InsertSorted(x: Tx, ys: seq<Tx>)
    requires Sorted(ys)
    ensures Sorted(Insert(x, ys))
  {
    if ys != [] && Newer(ys[0], x) {
      var rest := Insert(x, ys[1..]);
      InsertSorted(x, ys[1..]);
      InsertKeeps(x, ys[1..]);
      forall j | 0 <= j < |rest| ensures !Newer(rest[j], ys[0]) {
        assert rest[j] in multiset(rest);
        assert rest[j] == x || rest[j] in ys[1..];
      }
    } else if ys != [] {
      assert forall j :: 0 <= j < |ys| ==> !Newer(ys[j], x);
    }
  }

  ghost predicate NewestFirst(xs: seq<Tx>) {
    forall i, j :: 0 <= i < j < |xs| ==>
      xs[i].time > xs[j].time || (xs[i].time == xs[j].time && xs[i].height >= xs[j].height)
  }

  /** In a sorted list no entry is followed by one with a later timestamp, nor by
      one with the same timestamp and a greater height. */
  lemma SortedMeans(xs: seq<Tx>)
    ensures Sorted(xs) <==> NewestFirst(xs)
    ensures NewestFirst(xs) <==>
            forall i, j :: 0 <= i < j < |xs| ==>
              xs[i].time > xs[j].time || (xs[i].time == xs[j].time && xs[i].height >= xs[j].height)
  {
  }

  /** Sort lists the newest first and keeps every copy of every element. */
  lemma SortIsNewestFirst(xs: seq<Tx>)
    ensures multiset(Sort(xs)) == multiset(xs)
    ensures forall i, j :: 0 <= i < j < |Sort(xs)| ==>
              Sort(xs)[i].time > Sort(xs)[j].time
              || (Sort(xs)[i].time == Sort(xs)[j].time && Sort(xs)[i].height >= Sort(xs)[j].height)
  {
    SortSorts(xs);
    SortedMeans(Sort(xs));
  }

  lemma {:induction false} SortSorts(xs: seq<Tx>)
    ensures Sorted(Sort(xs))
    ensures multiset(Sort(xs)) == multiset(xs)
  {
    if xs != [] {
      SortSorts(xs[1..]);
      InsertKeeps(xs[0], Sort(xs[1..]));
      InsertSorted(xs[0], Sort(xs[1..]));
      assert xs == [xs[0]] + xs[1..];
    }
  }

  lemma {:induction false} InsertClass(x: Tx, ys: seq<Tx>, k: Tx)
    ensures Class(Insert(x, ys), k) == (if SameKey(x, k) then [x] else []) + Class(ys, k)
  {
    if ys != [] && Newer(ys[0], x) {
      InsertClass(x, ys[1..], k);
      assert Insert(x, ys)[1..] == Insert(x, ys[1..]);
      assert !SameKey(ys[0], k) || !SameKey(x, k);
    } else {
      assert ([x] + ys)[1..] == ys;
    }
  }

  /** Sort is stable: elements with equal keys keep their order. */
  lemma {:induction false} SortIsStable(xs: seq<Tx>, k: Tx)
    ensures Class(Sort(xs), k) == Class(xs, k)
  {
    if xs != [] {
      SortIsStable(xs[1..], k);
      InsertClass(xs[0], Sort(xs[1..]), k);
    }
  }

  lemma {:induction false} ClassMember(xs: seq<Tx>, k: Tx)
    ensures forall x :: x in Class(xs, k) <==> x in xs && x.time == k.time && x.height == k.height
  {
    if xs != [] {
      ClassMember(xs[1..], k);
      assert forall x :: x in xs <==> x == xs[0] || x in xs[1..];
    }
  }

  /** Some copy of x comes before some copy of y. */
  predicate Before(xs: seq<Tx>, x: Tx, y: Tx) {
    exists i, j :: 0 <= i < j < |xs| && xs[i] == x && xs[j] == y
  }

  lemma BeforeCons(z: Tx, xs: seq<Tx>, x: Tx, y: Tx)
    ensures Before([z] + xs, x, y) <==> (z == x && y in xs) || Before(xs, x, y)
  {
    var all := [z] + xs;
    assert forall i :: 0 <= i < |xs| ==> all[i + 1] == xs[i];
    if Before(all, x, y) {
      BeforeTail(z, xs, x, y);
    }
    if z == x && y in xs {
      var j :| 0 <= j < |xs| && xs[j] == y;
      assert all[0] == x && all[j + 1] == y;
    }
    if Before(xs, x, y) {
      var i, j :| 0 <= i < j < |xs| && xs[i] == x && xs[j] == y;
      assert all[i + 1] == x && all[j + 1] == y;
    }
  }

  lemma BeforeTail(z: Tx, xs: seq<Tx>, x: Tx, y: Tx)
    requires Before([z] + xs, x, y)
    ensures (z == x && y in xs) || Before(xs, x, y)
  {
    var all := [z] + xs;
    var i, j :| 0 <= i < j < |all| && all[i] == x && all[j] == y;
    assert xs[j - 1] == y;
    if i > 0 {
      assert xs[i - 1] == x;
    }
  }

  lemma {:induction false} BeforeInClass(xs: seq<Tx>, k: Tx, x: Tx, y: Tx)
    requires SameKey(x, k) && SameKey(y, k)
    ensures Before(Class(xs, k), x, y) <==> Before(xs, x, y)
  {
    if xs != [] {
      BeforeInClass(xs[1..], k, x, y);
      ClassMember(xs[1..], k);
      BeforeCons(xs[0], xs[1..], x, y);
      assert xs == [xs[0]] + xs[1..];
      if SameKey(xs[0], k) {
        BeforeCons(xs[0], Class(xs[1..], k), x, y);
      } else {
        assert [] + Class(xs[1..], k) == Class(xs[1..], k);
      }
    }
  }

  /** Entries with the same timestamp and height come in the order of the input. */
  lemma SortKeepsOrder(xs: seq<Tx>, x: Tx, y: Tx)
    requires x.time == y.time && x.height == y.height
    ensures Before(Sort(xs), x, y) <==> Before(xs, x, y)
  {
    BeforeInClass(xs, x, x, y);
    BeforeInClass(Sort(xs), x, x, y);
    SortIsStable(xs, x);
  }

  lemma ClassNonEmpty(xs: seq<Tx>, x: Tx)
    requires x in xs
    ensures Class(xs, x) != []
  {
    ClassMember(xs, x);
  }

  lemma HeadIsNewest(xs: seq<Tx>, x: Tx)
    requires Sorted(xs) && x in xs
    ensures !Newer(x, xs[0])
  {
    var i :| 0 <= i < |xs| && xs[i] == x;
  }

  /** A sorted list is determined by its classes: there is only one stable sort. */
  lemma {:induction false} SortedUnique(a: seq<Tx>, b: seq<Tx>)
    requires Sorted(a) && Sorted(b)
    requires forall k :: Class(a, k) == Class(b, k)
    ensures a == b
    decreases |a|
  {
    if a == [] || b == [] {
      if a != [] { ClassNonEmpty(a, a[0]); }
      if b != [] { ClassNonEmpty(b, b[0]); }
    } else {
      SameHead(a, b);
      forall k ensures Class(a[1..], k) == Class(b[1..], k) {
        var n := if SameKey(a[0], k) then 1 else 0;
        assert Class(a, k) == Class(b, k);
        assert Class(a[1..], k) == Class(a, k)[n..] && Class(b[1..], k) == Class(b, k)[n..];
      }
      SortedUnique(a[1..], b[1..]);
      assert a == [a[0]] + a[1..] && b == [b[0]] + b[1..];
    }
  }

  lemma SameHead(a: seq<Tx>, b: seq<Tx>)
    requires Sorted(a) && Sorted(b) && a != [] && b != []
    requires forall k :: Class(a, k) == Class(b, k)
    ensures a[0] == b[0]
  {
    var x, y := a[0], b[0];
    ClassNonEmpty(a, x);
    ClassMember(b, x);
    assert Class(b, x) == Class(a, x);
    var x' := Class(b, x)[0];
    assert x' in b && SameKey(x', x);
    HeadIsNewest(b, x');
    ClassNonEmpty(b, y);
    ClassMember(a, y);
    assert Class(a, y) == Class(b, y);
    var y' := Class(a, y)[0];
    assert y' in a && SameKey(y', y);
    HeadIsNewest(a, y');
    assert SameKey(x, y);
    assert Class(a, x)[0] == x && Class(b, x)[0] == y;
  }

  lemma {:induction false} ClassAppend(xs: seq<Tx>, ys: seq<Tx>, k: Tx)
    ensures Class(xs + ys, k) == Class(xs, k) + Class(ys, k)
  {
    if xs == [] {
      assert xs + ys == ys;
    } else {
      ClassAppend(xs[1..], ys, k);
      assert (xs + ys)[1..] == xs[1..] + ys;
    }
  }

  // ------------------------------------------------------- first copies only

  function Hashes(xs: seq<Tx>): set<string> {
    set x | x in xs :: x.hash
  }

  /** The first copy of every hash: what the in-place compaction computes. */
  function KeepFirst(xs: seq<Tx>): seq<Tx> {
    if xs == [] then []
    else
      var before, x := xs[..|xs| - 1], xs[|xs| - 1];
      KeepFirst(before) + if x.hash in Hashes(before) then [] else [x]
  }

  ghost predicate Distinct(xs: seq<Tx>) {
    forall i, j :: 0 <= i < j < |xs| ==> xs[i].hash != xs[j].hash
  }

  lemma {:induction false} KeepFirstMembers(xs: seq<Tx>)
    ensures forall x :: x in KeepFirst(xs) ==> x in xs
    ensures |KeepFirst(xs)| <= |xs|
  {
    if xs != [] {
      KeepFirstMembers(xs[..|xs| - 1]);
    }
  }

  lemma {:induction false} KeepFirstKeepsHashes(xs: seq<Tx>)
    ensures Hashes(KeepFirst(xs)) == Hashes(xs)
    ensures Distinct(KeepFirst(xs))
  {
    if xs != [] {
      var before, x := xs[..|xs| - 1], xs[|xs| - 1];
      var kept := KeepFirst(before);
      KeepFirstKeepsHashes(before);
      assert xs == before + [x];
      HashesAppend(before, [x]);
      HashesAppend(kept, [x]);
      assert Hashes([x]) == {x.hash};
      assert forall i :: 0 <= i < |kept| ==> kept[i].hash in Hashes(kept);
    }
  }

  lemma {:induction false} KeepFirstSorted(xs: seq<Tx>)
    requires Sorted(xs)
    ensures Sorted(KeepFirst(xs))
  {
    if xs != [] {
      var before, x := xs[..|xs| - 1], xs[|xs| - 1];
      KeepFirstSorted(before);
      KeepFirstMembers(before);
      var kept := KeepFirst(before);
      forall i | 0 <= i < |kept| ensures !Newer(x, kept[i]) {
        assert kept[i] in before;
      }
    }
  }

  /** The first element of xs with a hash, if there is one. */
  function FirstCopy(xs: seq<Tx>, hash: string): Option<Tx> {
    if xs == [] then None
    else if xs[0].hash == hash then Some(xs[0])
    else FirstCopy(xs[1..], hash)
  }

  lemma {:induction false} FirstCopySnoc(xs: seq<Tx>, x: Tx, hash: string)
    ensures FirstCopy(xs + [x], hash) ==
            if FirstCopy(xs, hash).Some? then FirstCopy(xs, hash) else if x.hash == hash then Some(x) else None
    ensures FirstCopy(xs, hash).Some? <==> hash in Hashes(xs)
    ensures FirstCopy(xs, hash).Some? ==> FirstCopy(xs, hash).value in xs && FirstCopy(xs, hash).value.hash == hash
  {
    if xs == [] {
      assert [x][1..] == [];
    } else {
      FirstCopySnoc(xs[1..], x, hash);
      assert (xs + [x])[1..] == xs[1..] + [x];
      assert forall y :: y in xs <==> y == xs[0] || y in xs[1..];
      assert Hashes(xs) == {xs[0].hash} + Hashes(xs[1..]);
    }
  }

  lemma {:induction false} KeepFirstIsFirst(xs: seq<Tx>, x: Tx)
    requires x in KeepFirst(xs)
    ensures FirstCopy(xs, x.hash) == Some(x)
  {
    var before, y := xs[..|xs| - 1], xs[|xs| - 1];
    assert xs == before + [y];
    FirstCopySnoc(before, y, x.hash);
    if x in KeepFirst(before) {
      KeepFirstIsFirst(before, x);
    }
  }

  // ------------------------------- sort and compaction of arbitrary duplicates

  lemma {:induction false} FirstInClass(xs: seq<Tx>, k: Tx)
    requires FirstCopy(xs, k.hash) == Some(k)
    ensures FirstCopy(Class(xs, k), k.hash) == Some(k)
  {
    if xs[0].hash != k.hash {
      FirstInClass(xs[1..], k);
      var rest := Class(xs[1..], k);
      if SameKey(xs[0], k) {
        assert ([xs[0]] + rest)[1..] == rest;
      } else {
        assert [] + rest == rest;
      }
    }
  }

  lemma {:induction false} FirstIsNewest(xs: seq<Tx>, k: Tx, y: Tx)
    requires Sorted(xs) && FirstCopy(xs, k.hash) == Some(k) && y in xs && y.hash == k.hash
    ensures !Newer(y, k)
  {
    if xs[0].hash == k.hash {
      HeadIsNewest(xs, y);
    } else {
      assert y in xs[1..];
      FirstIsNewest(xs[1..], k, y);
    }
  }

  /** The first of several copies that agree in timestamp and height. */
  predicate IsEarliest(xs: seq<Tx>, x: Tx) {
    exists i :: 0 <= i < |xs| && xs[i] == x
                && forall j :: 0 <= j < i && xs[j].hash == x.hash && xs[j].time == x.time ==> xs[j].height != x.height
  }

  lemma {:induction false} FirstIsEarliest(xs: seq<Tx>, x: Tx)
    requires FirstCopy(Class(xs, x), x.hash) == Some(x)
    ensures IsEarliest(xs, x)
    decreases |xs|, 1
  {
    var rest := Class(xs[1..], x);
    if SameKey(xs[0], x) {
      assert ([xs[0]] + rest)[1..] == rest;
      if xs[0].hash == x.hash {
        assert xs[0] == x;
      } else {
        EarliestBelow(xs, x);
      }
    } else {
      assert [] + rest == rest;
      EarliestBelow(xs, x);
    }
  }

  lemma {:induction false} EarliestBelow(xs: seq<Tx>, x: Tx)
    requires xs != [] && FirstCopy(Class(xs[1..], x), x.hash) == Some(x)
    requires xs[0].hash != x.hash || xs[0].time != x.time || xs[0].height != x.height
    ensures IsEarliest(xs, x)
    decreases |xs|, 0
  {
    FirstIsEarliest(xs[1..], x);
    var i :| 0 <= i < |xs[1..]| && xs[1..][i] == x
             && forall j :: 0 <= j < i && xs[1..][j].hash == x.hash && xs[1..][j].time == x.time
                            ==> xs[1..][j].height != x.height;
    forall j | 0 <= j < i + 1 && xs[j].hash == x.hash && xs[j].time == x.time ensures xs[j].height != x.height {
      assert j > 0 ==> xs[1..][j - 1] == xs[j];
    }
    assert xs[i + 1] == x;
  }

  /** Whatever duplicates the input holds, the result lists the newest first, has one
      entry for every hash of the input and no other, and that entry is a copy than
      which no other has a later timestamp, nor the same timestamp and a greater
      height, the earliest such copy of the input. */
  lemma CompactionKeepsNewestCopy(xs: seq<Tx>)
    ensures var r := KeepFirst(Sort(xs));
            && Distinct(r) && Hashes(r) == Hashes(xs)
            && (forall i, j :: 0 <= i < j < |r| ==>
                  r[i].time > r[j].time || (r[i].time == r[j].time && r[i].height >= r[j].height))
            && forall x :: x in r ==>
                 && x in xs && IsEarliest(xs, x)
                 && forall y :: y in xs && y.hash == x.hash ==>
                      y.time < x.time || (y.time == x.time && y.height <= x.height)
  {
    CompactionKeepsFirstNewest(xs);
    SortedMeans(KeepFirst(Sort(xs)));
    forall x | x in KeepFirst(Sort(xs)) ensures IsEarliest(xs, x) {
      FirstIsEarliest(xs, x);
    }
  }

  lemma CompactionKeepsFirstNewest(xs: seq<Tx>)
    ensures var r := KeepFirst(Sort(xs));
            && Sorted(r) && Distinct(r) && Hashes(r) == Hashes(xs)
            && forall x :: x in r ==>
                 && x in xs
                 && (forall y :: y in xs && y.hash == x.hash ==> !Newer(y, x))
                 && FirstCopy(Class(xs, x), x.hash) == Some(x)
  {
    var s := Sort(xs);
    SortSorts(xs);
    KeepFirstMembers(s);
    KeepFirstKeepsHashes(s);
    KeepFirstSorted(s);
    SameMembers(s, xs);
    forall x | x in KeepFirst(s)
      ensures forall y :: y in xs && y.hash == x.hash ==> !Newer(y, x)
      ensures FirstCopy(Class(xs, x), x.hash) == Some(x)
    {
      KeepFirstIsFirst(s, x);
      forall y | y in xs && y.hash == x.hash ensures !Newer(y, x) {
        FirstIsNewest(s, x, y);
      }
      FirstInClass(s, x);
      SortIsStable(xs, x);
    }
  }

  lemma SameMembers(a: seq<Tx>, b: seq<Tx>)
    requires multiset(a) == multiset(b)
    ensures forall x :: x in a <==> x in b
    ensures Hashes(a) == Hashes(b)
  {
    assert forall x :: x in a <==> x in multiset(a);
    assert forall x :: x in b <==> x in multiset(b);
  }

  // --------------------------------------------------- the incremental refresh

  /** Equal hashes mean equal transactions, as in a list of entries of one log. */
  ghost predicate Consistent(xs: seq<Tx>) {
    forall x, y :: x in xs && y in xs && x.hash == y.hash ==> x == y
  }

  lemma {:induction false} KeepFirstClass(xs: seq<Tx>, k: Tx)
    requires Consistent(xs)
    ensures Class(KeepFirst(xs), k) == KeepFirst(Class(xs, k))
  {
    if xs != [] {
      var before, x := xs[..|xs| - 1], xs[|xs| - 1];
      assert xs == before + [x];
      KeepFirstClass(before, k);
      ClassAppend(before, [x], k);
      ClassMember(before, k);
      var extra := if x.hash in Hashes(before) then [] else [x];
      ClassAppend(KeepFirst(before), extra, k);
      var cs := Class(before, k);
      if SameKey(x, k) {
        assert Class([x], k) == [x];
        assert Class(xs, k)[..|cs|] == cs && Class(xs, k)[|cs|] == x;
        assert x.hash in Hashes(before) <==> x.hash in Hashes(cs);
        assert Class(extra, k) == extra;
      } else {
        assert Class([x], k) == [] && Class(extra, k) == [];
        assert cs + [] == cs;
      }
    }
  }

  /** Elements that repeat earlier hashes add nothing. */
  lemma {:induction false} KeepFirstIgnores(a: seq<Tx>, b: seq<Tx>)
    requires Hashes(b) <= Hashes(a)
    ensures KeepFirst(a + b) == KeepFirst(a)
  {
    if b == [] {
      assert a + b == a;
    } else {
      var before, x := b[..|b| - 1], b[|b| - 1];
      assert (a + b)[..|a + b| - 1] == a + before;
      assert x in b && forall y :: y in before ==> y in b;
      KeepFirstIgnores(a, before);
      assert x.hash in Hashes(a) && Hashes(a) <= Hashes(a + before);
    }
  }

  /** Elements with new, distinct hashes are all kept. */
  lemma {:induction false} KeepFirstAdds(a: seq<Tx>, b: seq<Tx>)
    requires Distinct(b) && Hashes(a) !! Hashes(b)
    ensures KeepFirst(a + b) == KeepFirst(a) + b
  {
    if b == [] {
      assert a + b == a && KeepFirst(a) + b == KeepFirst(a);
    } else {
      var before, x := b[..|b| - 1], b[|b| - 1];
      assert (a + b)[..|a + b| - 1] == a + before;
      assert x in b && forall y :: y in before ==> y in b;
      assert Hashes(before) <= Hashes(b);
      KeepFirstAdds(a, before);
      forall y | y in before ensures y.hash != x.hash {
        var i :| 0 <= i < |before| && before[i] == y;
        assert b[i] == y;
      }
      HashesAppend(a, before);
      assert x.hash in Hashes(b) && x.hash !in Hashes(a + before);
      assert KeepFirst(a) + before + [x] == KeepFirst(a) + b;
    }
  }

  lemma {:induction false} ClassDistinct(xs: seq<Tx>, k: Tx)
    requires Distinct(xs)
    ensures Distinct(Class(xs, k))
  {
    if xs != [] {
      ClassDistinct(xs[1..], k);
      ClassMember(xs[1..], k);
      var rest := Class(xs[1..], k);
      forall j | 0 <= j < |rest| ensures rest[j].hash != xs[0].hash {
        assert rest[j] in xs[1..];
      }
    }
  }

  lemma KeepFirstOfDistinct(xs: seq<Tx>)
    requires Distinct(xs)
    ensures KeepFirst(xs) == xs
  {
    KeepFirstAdds([], xs);
    assert [] + xs == xs;
  }

  lemma DistinctParts(a: seq<Tx>, c: seq<Tx>)
    requires Distinct(a + c)
    ensures Distinct(a) && Distinct(c) && Hashes(a) !! Hashes(c)
  {
    var all := a + c;
    assert forall i :: 0 <= i < |a| ==> all[i] == a[i];
    assert forall j :: 0 <= j < |c| ==> all[|a| + j] == c[j];
    forall x, y | x in a && y in c ensures x.hash != y.hash {
      var i :| 0 <= i < |a| && a[i] == x;
      var j :| 0 <= j < |c| && c[j] == y;
      assert all[i].hash != all[|a| + j].hash;
    }
  }

  /** One class of cached-then-re-read entries: a prefix, the part of it that was
      read again, and what is new. */
  lemma OverlapClass(a: seq<Tx>, b: seq<Tx>, c: seq<Tx>, all: seq<Tx>)
    requires Distinct(a) && Distinct(c) && Hashes(a) !! Hashes(c) && Hashes(b) <= Hashes(a)
    requires all == a + b + c
    ensures KeepFirst(all) == a + c
  {
    HashesAppend(a, b);
    KeepFirstAdds(a + b, c);
    KeepFirstIgnores(a, b);
    KeepFirstOfDistinct(a);
  }

  lemma HashesAppend(a: seq<Tx>, b: seq<Tx>)
    ensures Hashes(a + b) == Hashes(a) + Hashes(b)
  {
    assert forall y :: y in a + b <==> y in a || y in b;
  }

  lemma LogConsistent(log: seq<Tx>, xs: seq<Tx>)
    requires Distinct(log) && forall x :: x in xs ==> x in log
    ensures Consistent(xs)
  {
    forall x, y | x in xs && y in xs && x.hash == y.hash ensures x == y {
      var i :| 0 <= i < |log| && log[i] == x;
      var j :| 0 <= j < |log| && log[j] == y;
    }
  }

  /** The classes of a log p + q of which the part b of p was read again. */
  lemma LogClasses(p: seq<Tx>, b: seq<Tx>, q: seq<Tx>, k: Tx)
    requires Distinct(p + q) && forall x :: x in b ==> x in p
    ensures Class(p + q, k) == Class(p, k) + Class(q, k)
    ensures Class(b + q, k) == Class(b, k) + Class(q, k)
    ensures Distinct(Class(p, k)) && Distinct(Class(q, k)) && Hashes(Class(p, k)) !! Hashes(Class(q, k))
    ensures Hashes(Class(b, k)) <= Hashes(Class(p, k))
  {
    ClassAppend(p, q, k);
    ClassAppend(b, q, k);
    ClassDistinct(p + q, k);
    DistinctParts(Class(p, k), Class(q, k));
    ClassMember(b, k);
    ClassMember(p, k);
  }

  lemma ClassOfMerge(p: seq<Tx>, w: seq<Tx>, k: Tx)
    requires Consistent(p + w)
    ensures Class(KeepFirst(Sort(Sort(p) + w)), k) == KeepFirst(Class(p, k) + Class(w, k))
  {
    var v := Sort(p);
    SortSorts(p);
    SameMembers(v, p);
    SortSorts(v + w);
    SameMembers(Sort(v + w), v + w);
    assert forall x :: x in v + w ==> x in p + w;
    KeepFirstClass(Sort(v + w), k);
    SortIsStable(v + w, k);
    ClassAppend(v, w, k);
    SortIsStable(p, k);
  }

  lemma RefreshClass(p: seq<Tx>, b: seq<Tx>, q: seq<Tx>, k: Tx)
    requires Distinct(p + q) && forall x :: x in b ==> x in p
    ensures Class(KeepFirst(Sort(Sort(p) + (b + q))), k) == Class(p + q, k)
  {
    LogConsistent(p + q, p + (b + q));
    ClassOfMerge(p, b + q, k);
    LogClasses(p, b, q, k);
    var x, y, z := Class(p, k), Class(b, k), Class(q, k);
    assert x + (y + z) == x + y + z;
    OverlapClass(x, y, z, x + Class(b + q, k));
  }

  lemma RefreshParts(p: seq<Tx>, b: seq<Tx>, q: seq<Tx>, w: seq<Tx>, log: seq<Tx>)
    requires Distinct(log) && (forall x :: x in b ==> x in p) && log == p + q && w == b + q
    ensures KeepFirst(Sort(Sort(p) + w)) == Sort(log)
  {
    var s := Sort(Sort(p) + (b + q));
    SortSorts(Sort(p) + (b + q));
    KeepFirstSorted(s);
    SortSorts(p + q);
    forall k ensures Class(KeepFirst(s), k) == Class(Sort(p + q), k) {
      RefreshClass(p, b, q, k);
      SortIsStable(p + q, k);
    }
    SortedUnique(KeepFirst(s), Sort(p + q));
  }

  /** The incremental refresh is exact: sorting the cached view of the first m
      entries together with everything from index c on, and keeping first copies,
      gives the stable sort of the whole log. */
  lemma RefreshIsWholeSort(log: seq<Tx>, m: nat, c: nat)
    requires Distinct(log) && c <= m <= |log|
    ensures KeepFirst(Sort(Sort(log[..m]) + log[c..])) == Sort(log)
  {
    Split(log, m, c);
    RefreshParts(log[..m], log[c..m], log[m..], log[c..], log);
  }

  lemma Split(log: seq<Tx>, m: nat, c: nat)
    requires c <= m <= |log|
    ensures log == log[..m] + log[m..] && log[c..] == log[c..m] + log[m..]
    ensures forall x :: x in log[c..m] ==> x in log[..m]
  {
  }
}
