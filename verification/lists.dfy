/** List operations the pages and the query layer share: filtering
    (`Array.filter`, a SQL `WHERE`), sorting by an integer key
    (`Array.sort` with a subtracting comparator, `ORDER BY`), `Array.slice`,
    fixed-size pagination, and de-duplication through a JavaScript `Set`. */
module Lists {
  import opened Common

  // ---------------------------------------------------------------- filter

  /** Keeps, in order, the elements that satisfy `p`. */
  function Filter<T(!new)>(s: seq<T>, p: T -> bool): (r: seq<T>)
    ensures |r| <= |s|
    ensures forall x :: x in r <==> x in s && p(x)
    ensures forall i :: 0 <= i < |r| ==> p(r[i])
  {
    if s == [] then []
    else (if p(s[0]) then [s[0]] else []) + Filter(s[1..], p)
  }

  lemma {:induction false} FilterAppend<T(!new)>(a: seq<T>, b: seq<T>, p: T -> bool)
    ensures Filter(a + b, p) == Filter(a, p) + Filter(b, p)
  {
    if a != [] {
      assert (a + b)[1..] == a[1..] + b;
      FilterAppend(a[1..], b, p);
    } else {
      assert a + b == b;
    }
  }

  /** Filtering twice with the same predicate gives the same result as once. */
  lemma {:induction false} FilterIdempotent<T(!new)>(s: seq<T>, p: T -> bool)
    ensures Filter(Filter(s, p), p) == Filter(s, p)
  {
    if s != [] {
      FilterIdempotent(s[1..], p);
      var head := if p(s[0]) then [s[0]] else [];
      FilterAppend(head, Filter(s[1..], p), p);
    }
  }

  /** A filter whose predicate holds everywhere keeps the list as it is. */
  lemma {:induction false} FilterAll<T(!new)>(s: seq<T>, p: T -> bool)
    requires forall i :: 0 <= i < |s| ==> p(s[i])
    ensures Filter(s, p) == s
  {
    if s != [] {
      FilterAll(s[1..], p);
    }
  }

  /** Index of the first element satisfying `p` (a query's `.first()`, an
      array's `findIndex`), or None when no element does. */
  function FirstIndex<T>(s: seq<T>, p: T -> bool): (r: Option<nat>)
    ensures r.Some? ==> r.value < |s| && p(s[r.value])
    ensures r.Some? ==> forall j :: 0 <= j < r.value ==> !p(s[j])
    ensures r.None? <==> forall j :: 0 <= j < |s| ==> !p(s[j])
  {
    if s == [] then None
    else if p(s[0]) then Some(0)
    else
      var t := FirstIndex(s[1..], p);
      assert forall j :: 1 <= j < |s| ==> s[j] == s[1..][j - 1];
      if t.None? then None else Some(t.value + 1)
  }

  /** `Array.map(f)`. */
  function Map<T, U>(s: seq<T>, f: T -> U): (r: seq<U>)
    ensures |r| == |s|
    ensures forall i :: 0 <= i < |s| ==> r[i] == f(s[i])
  {
    seq(|s|, i requires 0 <= i < |s| => f(s[i]))
  }

  /** `Array.flat()`: the lists one after another. */
  function Flatten<T(!new)>(ss: seq<seq<T>>): (r: seq<T>)
    ensures forall x :: x in r <==> exists i :: 0 <= i < |ss| && x in ss[i]
  {
    if ss == [] then []
    else
      var rest := Flatten(ss[1..]);
      assert forall i :: 1 <= i < |ss| ==> ss[i] == ss[1..][i - 1];
      ss[0] + rest
  }

  lemma {:induction false} FlattenAppend<T(!new)>(a: seq<seq<T>>, b: seq<seq<T>>)
    ensures Flatten(a + b) == Flatten(a) + Flatten(b)
  {
    if a == [] {
      assert a + b == b;
    } else {
      assert (a + b)[1..] == a[1..] + b;
      FlattenAppend(a[1..], b);
    }
  }

  /** `Array.some(p)`. */
  predicate Any<T>(s: seq<T>, p: T -> bool) {
    exists i :: 0 <= i < |s| && p(s[i])
  }

  /** Number of elements satisfying `p` (a SQL `COUNT(*) ... WHERE`). */
  function Count<T>(s: seq<T>, p: T -> bool): (n: nat)
    ensures n <= |s|
    ensures n == 0 <==> !Any(s, p)
  {
    if s == [] then 0
    else
      assert Any(s, p) <==> p(s[0]) || Any(s[1..], p) by {
        if Any(s[1..], p) {
          var i :| 0 <= i < |s[1..]| && p(s[1..][i]);
          assert s[i + 1] == s[1..][i];
        }
        if Any(s, p) && !p(s[0]) {
          var i :| 0 <= i < |s| && p(s[i]);
          assert s[1..][i - 1] == s[i];
        }
      }
      (if p(s[0]) then 1 else 0) + Count(s[1..], p)
  }

  /** When every element satisfies exactly one of three tests, the three
      counts add up to the length. */
  lemma {:induction false} CountsCoverAll<T>(s: seq<T>, p: T -> bool, q: T -> bool, r: T -> bool)
    requires forall i :: 0 <= i < |s| ==>
      (p(s[i]) && !q(s[i]) && !r(s[i])) || (!p(s[i]) && q(s[i]) && !r(s[i])) || (!p(s[i]) && !q(s[i]) && r(s[i]))
    ensures Count(s, p) + Count(s, q) + Count(s, r) == |s|
  {
    if s != [] {
      assert forall i :: 1 <= i < |s| ==> s[1..][i - 1] == s[i];
      CountsCoverAll(s[1..], p, q, r);
    }
  }

  /** A predicate implied by another counts at least as many elements. */
  lemma {:induction false} CountMono<T>(s: seq<T>, p: T -> bool, q: T -> bool)
    requires forall i :: 0 <= i < |s| && p(s[i]) ==> q(s[i])
    ensures Count(s, p) <= Count(s, q)
  {
    if s != [] {
      assert forall i :: 0 <= i < |s[1..]| ==> s[1..][i] == s[i + 1];
      CountMono(s[1..], p, q);
    }
  }

  /** Replacing one element by another that the predicate judges alike
      leaves the count unchanged. */
  lemma {:induction false} CountUpdate<T>(s: seq<T>, i: nat, x: T, p: T -> bool)
    requires i < |s| && p(x) == p(s[i])
    ensures Count(s[i := x], p) == Count(s, p)
  {
    if i == 0 {
      assert s[i := x][1..] == s[1..];
    } else {
      assert s[i := x][1..] == s[1..][i - 1 := x];
      CountUpdate(s[1..], i - 1, x, p);
    }
  }

  /** Appending one element adds one to the count exactly when it satisfies
      the predicate. */
  lemma {:induction false} CountAppend<T>(s: seq<T>, x: T, p: T -> bool)
    ensures Count(s + [x], p) == Count(s, p) + (if p(x) then 1 else 0)
  {
    if s != [] {
      assert (s + [x])[1..] == s[1..] + [x];
      CountAppend(s[1..], x, p);
    }
  }

  /** Counting is the length of the filtered list. */
  lemma {:induction false} CountFilter<T(!new)>(s: seq<T>, p: T -> bool)
    ensures Count(s, p) == |Filter(s, p)|
  {
    if s != [] {
      CountFilter(s[1..], p);
    }
  }

  /** Removes every occurrence of `v` (`xs.filter(x => x !== v)`). */
  function RemoveAll<T(==,!new)>(s: seq<T>, v: T): (r: seq<T>)
    ensures v !in r
    ensures forall x :: x != v ==> (x in r <==> x in s)
  {
    Filter(s, Other(v))
  }

  function Other<T(==)>(v: T): T -> bool {
    x => x != v
  }

  /** Appending a value and then removing it gives back a list that did
      not hold it. */
  lemma RemoveAllAppended<T(!new)>(s: seq<T>, v: T)
    requires v !in s
    ensures RemoveAll(s + [v], v) == s
  {
    FilterAll(s, Other(v));
    FilterAppend(s, [v], Other(v));
    assert Filter([v], Other(v)) == [];
  }

  // ---------------------------------------------------------------- sort

  /** Non-decreasing by `key`. */
  predicate SortedBy<T>(s: seq<T>, key: T -> int) {
    forall i, j :: 0 <= i < j < |s| ==> key(s[i]) <= key(s[j])
  }

  /** Inserts `x` in front of the first element whose key is not smaller, so
      that earlier elements stay ahead of equal ones. */
  function Insert<T>(x: T, s: seq<T>, key: T -> int): (r: seq<T>)
    ensures multiset(r) == multiset(s) + multiset{x}
    ensures |r| == |s| + 1
  {
    if s == [] then [x]
    else if key(x) <= key(s[0]) then [x] + s
    else
      assert s == [s[0]] + s[1..];
      [s[0]] + Insert(x, s[1..], key)
  }

  /** Every element of the insertion is `x` or an element of `s`. */
  lemma InsertElements<T>(x: T, s: seq<T>, key: T -> int, i: int)
    requires 0 <= i < |Insert(x, s, key)|
    ensures Insert(x, s, key)[i] == x || Insert(x, s, key)[i] in s
  {
    assert Insert(x, s, key)[i] in multiset(Insert(x, s, key));
  }

  /** Inserting into a sorted list keeps it sorted. */
  lemma {:induction false} InsertSorted<T>(x: T, s: seq<T>, key: T -> int)
    requires SortedBy(s, key)
    ensures SortedBy(Insert(x, s, key), key)
  {
    if s != [] && key(x) > key(s[0]) {
      var t := Insert(x, s[1..], key);
      InsertSorted(x, s[1..], key);
      forall i | 0 <= i < |t| ensures key(s[0]) <= key(t[i]) {
        InsertElements(x, s[1..], key, i);
      }
      assert Insert(x, s, key) == [s[0]] + t;
    }
  }

  /** A sort by `key`, ascending: the result is a permutation of the input
      and is ordered by `key`. The order of equal keys is not stated. */
  function SortBy<T>(s: seq<T>, key: T -> int): (r: seq<T>)
    ensures multiset(r) == multiset(s)
    ensures |r| == |s|
    ensures SortedBy(r, key)
  {
    if s == [] then []
    else
      assert s == [s[0]] + s[1..];
      InsertSorted(s[0], SortBy(s[1..], key), key);
      Insert(s[0], SortBy(s[1..], key), key)
  }

  /** Sorting keeps exactly the elements it was given. */
  lemma SortByMembers<T>(s: seq<T>, key: T -> int)
    ensures forall x :: x in SortBy(s, key) <==> x in s
  {
    var r := SortBy(s, key);
    forall x ensures x in r <==> x in s {
      assert x in r <==> x in multiset(r);
      assert x in s <==> x in multiset(s);
    }
  }

  /** The elements satisfying `p`, ordered by `key`
      (`query.filter(p).order_by(key)`). */
  function FilterSorted<T(!new)>(s: seq<T>, p: T -> bool, key: T -> int): (r: seq<T>)
    ensures forall x :: x in r <==> x in s && p(x)
    ensures multiset(r) == multiset(Filter(s, p))
    ensures SortedBy(r, key)
  {
    SortByMembers(Filter(s, p), key);
    SortBy(Filter(s, p), key)
  }

  // ---------------------------------------------------------------- slice, pages

  /** Resolves one `Array.slice` bound: negative counts from the end, and the
      result is clamped to `[0, n]`. */
  function SliceBound(i: int, n: nat): (b: nat)
    ensures b <= n
    ensures 0 <= i <= n ==> b == i
  {
    if i < 0 then (if n + i < 0 then 0 else n + i) else if i > n then n else i
  }

  /** `s.slice(start, end)`. */
  function Slice<T>(s: seq<T>, start: int, end: int): (r: seq<T>)
    ensures |r| <= |s|
    ensures 0 <= start <= end <= |s| ==> r == s[start..end]
  {
    var a := SliceBound(start, |s|);
    var b := SliceBound(end, |s|);
    if a < b then s[a..b] else []
  }

  /** `OFFSET skip LIMIT limit`: the elements from position `skip` on, at
      most `limit` of them. */
  function Window<T>(s: seq<T>, skip: nat, limit: nat): (r: seq<T>)
    ensures |r| == (if skip >= |s| then 0 else if |s| - skip < limit then |s| - skip else limit)
    ensures forall i :: 0 <= i < |r| ==> r[i] == s[skip + i]
  {
    if skip >= |s| then []
    else if |s| - skip < limit then s[skip..]
    else s[skip..skip + limit]
  }

  /** `Math.ceil(n / size)` for a page size `size`. */
  function TotalPages(n: nat, size: nat): (t: nat)
    requires size > 0
    ensures t * size >= n
    ensures t > 0 ==> (t - 1) * size < n
  {
    (n + size - 1) / size
  }

  /** Page `p` (counted from 1) of `s`: `s.slice((p - 1) * size, p * size)`. */
  function Page<T>(s: seq<T>, p: int, size: nat): (r: seq<T>)
    requires size > 0
    ensures |r| <= size
    ensures p >= 1 && (p - 1) * size < |s| ==> r != []
    ensures p >= 1 && (p - 1) * size >= |s| ==> r == []
  {
    var r := Slice(s, (p - 1) * size, p * size);
    if p >= 1 then
      assert (p - 1) * size >= 0 && p * size == (p - 1) * size + size;
      r
    else
      r
  }

  /** Pages 1 to `k`, concatenated. */
  function PagesUpTo<T>(s: seq<T>, size: nat, k: nat): seq<T>
    requires size > 0
  {
    if k == 0 then [] else PagesUpTo(s, size, k - 1) + Page(s, k, size)
  }

  lemma {:induction false} PagesUpToPrefix<T>(s: seq<T>, size: nat, k: nat)
    requires size > 0
    ensures PagesUpTo(s, size, k) == s[..if k * size <= |s| then k * size else |s|]
  {
    if k > 0 {
      PagesUpToPrefix(s, size, k - 1);
      var lo := (k - 1) * size;
      assert k * size == lo + size;
      assert lo >= 0;
    }
  }

  /** Walking every page from 1 to the last shows each element exactly once,
      in order: the pages concatenate to the list itself. */
  lemma PagesCoverAll<T>(s: seq<T>, size: nat)
    requires size > 0
    ensures PagesUpTo(s, size, TotalPages(|s|, size)) == s
  {
    PagesUpToPrefix(s, size, TotalPages(|s|, size));
    assert s[..|s|] == s;
  }

  /** The "previous" arrow of a paged list: `Math.max(1, p - 1)`. */
  function PrevPage(p: int): (q: int)
    ensures q >= 1
    ensures p > 1 ==> q == p - 1
    ensures p <= 1 ==> q == 1
  {
    if p - 1 > 1 then p - 1 else 1
  }

  /** The "next" arrow: `Math.min(totalPages, p + 1)`. */
  function NextPage(p: int, totalPages: nat): (q: int)
    ensures q <= totalPages
    ensures p < totalPages ==> q == p + 1
    ensures p >= totalPages ==> q == totalPages
  {
    if p + 1 < totalPages then p + 1 else totalPages
  }

  // ---------------------------------------------------------------- dedupe

  predicate NoDuplicates<K(==)>(s: seq<K>) {
    forall i, j :: 0 <= i < j < |s| ==> s[i] != s[j]
  }

  /** `Array.from(new Set(ks))`: each value once, in order of first occurrence. */
  function Distinct<K(==,!new)>(ks: seq<K>): (d: seq<K>)
    ensures NoDuplicates(d)
    ensures forall k :: k in d <==> k in ks
  {
    if ks == [] then []
    else
      var d := Distinct(ks[..|ks| - 1]);
      var last := ks[|ks| - 1];
      assert ks == ks[..|ks| - 1] + [last];
      if last in d then d else d + [last]
  }

  /** De-duplicating a longer list keeps the de-duplication of its prefix in
      front. */
  lemma {:induction false} DistinctPrefix<K(!new)>(a: seq<K>, b: seq<K>)
    ensures |Distinct(a)| <= |Distinct(a + b)|
    ensures Distinct(a + b)[..|Distinct(a)|] == Distinct(a)
    decreases |b|
  {
    if b == [] {
      assert a + b == a;
    } else {
      var b' := b[..|b| - 1];
      DistinctPrefix(a, b');
      assert (a + b)[..|a + b| - 1] == a + b';
    }
  }

  /** A list without duplicates is its own de-duplication. */
  lemma {:induction false} DistinctOfDistinct<K(!new)>(ks: seq<K>)
    requires NoDuplicates(ks)
    ensures Distinct(ks) == ks
  {
    if ks != [] {
      var init := ks[..|ks| - 1];
      DistinctOfDistinct(init);
      assert ks[|ks| - 1] !in init;
      assert init + [ks[|ks| - 1]] == ks;
    }
  }

  /** `s.find(x => key(x) === k)`: the first element with key `k`. */
  function FindBy<T, K(==)>(s: seq<T>, key: T -> K, k: K): (r: Option<T>)
    ensures r.Some? <==> exists i :: 0 <= i < |s| && key(s[i]) == k
    ensures r.Some? ==> r.value in s && key(r.value) == k
  {
    if s == [] then None
    else if key(s[0]) == k then Some(s[0])
    else FindBy(s[1..], key, k)
  }

  lemma {:induction false} FindByFirst<T, K>(s: seq<T>, key: T -> K, k: K, j: nat)
    requires j < |s| && key(s[j]) == k
    requires forall i :: 0 <= i < j ==> key(s[i]) != k
    ensures FindBy(s, key, k) == Some(s[j])
  {
    if j > 0 {
      FindByFirst(s[1..], key, k, j - 1);
    }
  }

  /** The first element of `s` for each key of `ks`, in the order of `ks`. */
  function FindAll<T, K(==)>(s: seq<T>, key: T -> K, ks: seq<K>): (r: seq<T>)
    requires forall i :: 0 <= i < |ks| ==> ks[i] in Map(s, key)
    ensures |r| == |ks|
    ensures forall i :: 0 <= i < |r| ==> r[i] in s && key(r[i]) == ks[i]
    ensures forall i :: 0 <= i < |r| ==> Some(r[i]) == FindBy(s, key, ks[i])
  {
    if ks == [] then []
    else
      var m := Map(s, key);
      assert exists j :: 0 <= j < |m| && m[j] == ks[0];
      [FindBy(s, key, ks[0]).value] + FindAll(s, key, ks[1..])
  }

  /** The de-duplication by key the pages write as
      `Array.from(new Set(list.map(key))).map(k => list.find(x => key(x) === k)!)`:
      one element per key, the first one with that key, keys in order of first
      occurrence. */
  function DedupeBy<T, K(==,!new)>(s: seq<T>, key: T -> K): (r: seq<T>)
    ensures |r| == |Distinct(Map(s, key))|
    ensures forall i :: 0 <= i < |r| ==> r[i] in s && key(r[i]) == Distinct(Map(s, key))[i]
    ensures forall i :: 0 <= i < |r| ==> Some(r[i]) == FindBy(s, key, key(r[i]))
  {
    var ks := Distinct(Map(s, key));
    assert forall i :: 0 <= i < |ks| ==> ks[i] in Map(s, key) by {
      forall i | 0 <= i < |ks| ensures ks[i] in Map(s, key) {
        assert ks[i] in ks;
      }
    }
    FindAll(s, key, ks)
  }

  /** Every key occurs exactly once in a de-duplicated list, and exactly the
      keys of the input occur. */
  lemma DedupeByKeys<T, K(!new)>(s: seq<T>, key: T -> K)
    ensures NoDuplicates(Map(DedupeBy(s, key), key))
    ensures forall x :: x in s ==> exists y :: y in DedupeBy(s, key) && key(y) == key(x)
  {
    var r := DedupeBy(s, key);
    var ks := Distinct(Map(s, key));
    assert Map(r, key) == ks;
    forall x | x in s ensures exists y :: y in r && key(y) == key(x) {
      var i :| 0 <= i < |s| && s[i] == x;
      assert key(x) == Map(s, key)[i];
      assert key(x) in Map(s, key);
      assert key(x) in ks;
      var j :| 0 <= j < |ks| && ks[j] == key(x);
      assert r[j] in r;
    }
  }

  /** When the front part already has distinct keys, de-duplicating it
      together with a back part keeps the front part unchanged and in front. */
  lemma DedupeByKeepsFront<T, K(!new)>(a: seq<T>, b: seq<T>, key: T -> K)
    requires NoDuplicates(Map(a, key))
    ensures |a| <= |DedupeBy(a + b, key)|
    ensures DedupeBy(a + b, key)[..|a|] == a
  {
    var ka := Map(a, key);
    assert Map(a + b, key) == ka + Map(b, key);
    DistinctOfDistinct(ka);
    DistinctPrefix(ka, Map(b, key));
    var r := DedupeBy(a + b, key);
    forall i | 0 <= i < |a| ensures r[i] == a[i] {
      DedupeByFrontElement(a, b, key, i);
    }
  }

  /** One position of the front part: its element has the first
      occurrence of its key. */
  lemma DedupeByFrontElement<T, K(!new)>(a: seq<T>, b: seq<T>, key: T -> K, i: nat)
    requires NoDuplicates(Map(a, key))
    requires i < |a| && i < |DedupeBy(a + b, key)|
    requires Distinct(Map(a + b, key))[i] == key(a[i])
    ensures DedupeBy(a + b, key)[i] == a[i]
  {
    var ka := Map(a, key);
    forall j | 0 <= j < i ensures key((a + b)[j]) != ka[i] {
      assert (a + b)[j] == a[j];
    }
    FindByFirst(a + b, key, ka[i], i);
  }
}
