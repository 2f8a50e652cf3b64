/** Sequence helpers that stand for the PHP array functions the indexer uses:
    array_unique, array_chunk, array_intersect, sort, and the insertion-ordered
    associative array. */
module Collections {

  ghost predicate NoDuplicates<T>(s: seq<T>) {
    forall i, j :: 0 <= i < j < |s| ==> s[i] != s[j]
  }

  /** array_unique: keeps the first occurrence of every element, in order. */
  function Dedup<T(==,!new)>(s: seq<T>): (r: seq<T>)
    ensures forall x :: x in r <==> x in s
    ensures NoDuplicates(r)
    ensures |r| <= |s|
    decreases |s|
  {
    if |s| == 0 then []
    else
      var d := Dedup(s[..|s| - 1]);
      if s[|s| - 1] in d then d else d + [s[|s| - 1]]
  }

  /** The position of the first occurrence of x in s. */
  function FirstIndex<T(==)>(s: seq<T>, x: T): (k: nat)
    requires x in s
    ensures k < |s| && s[k] == x
    ensures forall i :: 0 <= i < k ==> s[i] != x
    decreases |s|
  {
    if s[0] == x then 0 else 1 + FirstIndex(s[1..], x)
  }

  /** The first occurrence is the only position holding x with no x before it. */
  lemma FirstIndexUnique<T>(s: seq<T>, x: T, k: int)
    requires 0 <= k < |s| && s[k] == x
    requires forall i :: 0 <= i < k ==> s[i] != x
    ensures FirstIndex(s, x) == k
  {
  }

  /** Appending to a sequence does not move the first occurrence of an element it holds. */
  lemma FirstIndexOfPrefix<T>(s: seq<T>, t: seq<T>, x: T)
    requires x in s
    ensures FirstIndex(s + t, x) == FirstIndex(s, x)
  {
    FirstIndexUnique(s + t, x, FirstIndex(s, x));
  }

  /** array_unique keeps the first occurrences in the order of the input: an element
      listed before another in the result first occurs before it in the input. With
      the membership and the absence of repetitions, this fixes the result. */
  lemma {:induction false} DedupKeepsFirstOccurrences<T(!new)>(s: seq<T>)
    ensures forall i, j :: 0 <= i < j < |Dedup(s)| ==> FirstIndex(s, Dedup(s)[i]) < FirstIndex(s, Dedup(s)[j])
    decreases |s|
  {
    if |s| > 0 {
      var init, last := s[..|s| - 1], s[|s| - 1];
      var d := Dedup(init);
      DedupKeepsFirstOccurrences(init);
      assert s == init + [last];
      forall x | x in d
        ensures FirstIndex(s, x) == FirstIndex(init, x) < |init|
      {
        FirstIndexOfPrefix(init, [last], x);
      }
      if last !in d {
        assert FirstIndex(s, last) == |init|;
      }
    }
  }

  /** A sequence without duplicates is its own de-duplication. */
  lemma {:induction false} DedupOfDistinct<T(!new)>(s: seq<T>)
    requires NoDuplicates(s)
    ensures Dedup(s) == s
    decreases |s|
  {
    if |s| > 0 {
      var init := s[..|s| - 1];
      assert NoDuplicates(init);
      DedupOfDistinct(init);
      assert s[|s| - 1] !in init;
      assert init + [s[|s| - 1]] == s;
    }
  }

  /** De-duplicating again after appending to a de-duplicated prefix changes nothing:
      adding to a PHP array key by key is de-duplicating the whole key sequence. */
  lemma DedupSnoc<T(!new)>(s: seq<T>, x: T)
    ensures Dedup(Dedup(s) + [x]) == Dedup(s + [x])
  {
    DedupOfDistinct(Dedup(s));
    assert (Dedup(s) + [x])[..|Dedup(s)|] == Dedup(s);
    assert (s + [x])[..|s|] == s;
  }

  /** Concatenation is associative. */
  lemma AppendAssoc<T>(a: seq<T>, b: seq<T>, c: seq<T>)
    ensures a + b + c == a + (b + c)
  {
  }

  /** Union is associative. */
  lemma UnionAssoc<T>(a: set<T>, b: set<T>, c: set<T>)
    ensures a + b + c == a + (b + c)
  {
  }

  /** A prefix one longer is the prefix with the next element appended. */
  lemma TakeSnoc<T>(s: seq<T>, i: int)
    requires 0 <= i < |s|
    ensures s[..i + 1] == s[..i] + [s[i]]
    ensures s[..i + 1][..i] == s[..i]
  {
  }

  /** The elements satisfying p, in order, repetitions kept. */
  function Filter<T>(s: seq<T>, p: T -> bool): (r: seq<T>)
    ensures |r| <= |s|
    decreases |s|
  {
    if |s| == 0 then [] else Filter(s[..|s| - 1], p) + (if p(s[|s| - 1]) then [s[|s| - 1]] else [])
  }

  /** Filtering a prefix one longer appends the next element if it qualifies. */
  lemma FilterSnoc<T>(s: seq<T>, p: T -> bool, i: int)
    requires 0 <= i < |s|
    ensures Filter(s[..i + 1], p) == Filter(s[..i], p) + (if p(s[i]) then [s[i]] else [])
  {
    TakeSnoc(s, i);
  }

  lemma {:induction false} FilterMembers<T>(s: seq<T>, p: T -> bool, x: T)
    ensures x in Filter(s, p) <==> x in s && p(x)
    decreases |s|
  {
    if |s| > 0 {
      var init := s[..|s| - 1];
      FilterMembers(init, p, x);
      assert s == init + [s[|s| - 1]];
    }
  }

  /** m with f(k) stored under every key of ks that p accepts, in order, as a loop
      that assigns into a map computes it. */
  function PutWhere<K, V>(m: map<K, V>, ks: seq<K>, p: K -> bool, f: K -> V): map<K, V>
    decreases |ks|
  {
    if |ks| == 0 then m
    else
      var r := PutWhere(m, ks[..|ks| - 1], p, f);
      var k := ks[|ks| - 1];
      if p(k) then r[k := f(k)] else r
  }

  /** One more key of the prefix assigns it if p accepts it. */
  lemma PutWhereSnoc<K, V>(m: map<K, V>, ks: seq<K>, p: K -> bool, f: K -> V, i: int)
    requires 0 <= i < |ks|
    ensures PutWhere(m, ks[..i + 1], p, f) ==
              var r := PutWhere(m, ks[..i], p, f);
              if p(ks[i]) then r[ks[i] := f(ks[i])] else r
  {
    TakeSnoc(ks, i);
  }

  /** The result holds the keys of m and the accepted keys of ks, the latter with
      their new value. */
  lemma {:induction false} PutWhereMembers<K, V>(m: map<K, V>, ks: seq<K>, p: K -> bool, f: K -> V, k: K)
    ensures k in PutWhere(m, ks, p, f) <==> k in m || (k in ks && p(k))
    ensures k in PutWhere(m, ks, p, f) ==>
              PutWhere(m, ks, p, f)[k] == if k in ks && p(k) then f(k) else m[k]
    decreases |ks|
  {
    if |ks| > 0 {
      var init, last := ks[..|ks| - 1], ks[|ks| - 1];
      PutWhereMembers(m, init, p, f, k);
      assert ks == init + [last];
    }
  }

  /** Some element satisfies p; a fold over the prefixes, as a loop that scans left to
      right computes it. */
  predicate AnyOf<T>(s: seq<T>, p: T -> bool)
    decreases |s|
  {
    |s| > 0 && (AnyOf(s[..|s| - 1], p) || p(s[|s| - 1]))
  }

  /** A prefix one longer has a match iff the shorter one has or the next element matches. */
  lemma AnyOfSnoc<T>(s: seq<T>, p: T -> bool, i: int)
    requires 0 <= i < |s|
    ensures AnyOf(s[..i + 1], p) <==> AnyOf(s[..i], p) || p(s[i])
  {
    TakeSnoc(s, i);
  }

  lemma {:induction false} AnyOfExists<T>(s: seq<T>, p: T -> bool)
    ensures AnyOf(s, p) <==> exists i :: 0 <= i < |s| && p(s[i])
    decreases |s|
  {
    if |s| > 0 {
      var init := s[..|s| - 1];
      AnyOfExists(init, p);
      assert forall i :: 0 <= i < |init| ==> init[i] == s[i];
      if exists i :: 0 <= i < |s| && p(s[i]) {
        var i :| 0 <= i < |s| && p(s[i]);
        if i < |init| {
          assert p(init[i]);
        }
      }
    }
  }

  /** Concatenation of a sequence of sequences. */
  function Flatten<T>(ss: seq<seq<T>>): seq<T>
    decreases |ss|
  {
    if |ss| == 0 then [] else ss[0] + Flatten(ss[1..])
  }

  /** The images of the elements, in order. */
  function MapSeq<A, B>(s: seq<A>, f: A -> B): (r: seq<B>)
    ensures |r| == |s|
    ensures forall i :: 0 <= i < |s| ==> r[i] == f(s[i])
  {
    seq(|s|, i requires 0 <= i < |s| => f(s[i]))
  }

  lemma MapSeqAppend<A, B>(a: seq<A>, b: seq<A>, f: A -> B)
    ensures MapSeq(a + b, f) == MapSeq(a, f) + MapSeq(b, f)
  {
    var l, r := MapSeq(a + b, f), MapSeq(a, f) + MapSeq(b, f);
    forall i | 0 <= i < |l| ensures l[i] == r[i] {
      if i < |a| {
        assert (a + b)[i] == a[i];
      } else {
        assert (a + b)[i] == b[i - |a|];
      }
    }
  }

  /** Mapping a prefix one longer appends the image of the next element. */
  lemma MapSeqSnoc<A, B>(s: seq<A>, i: int, f: A -> B)
    requires 0 <= i < |s|
    ensures MapSeq(s[..i + 1], f) == MapSeq(s[..i], f) + [f(s[i])]
  {
    TakeSnoc(s, i);
    MapSeqAppend(s[..i], [s[i]], f);
  }

  /** Mapping the filtered sequence, one element at the end at a time. */
  lemma MapFilterLast<A, B>(s: seq<A>, p: A -> bool, f: A -> B)
    requires |s| > 0
    ensures MapSeq(Filter(s, p), f) ==
              MapSeq(Filter(s[..|s| - 1], p), f) + (if p(s[|s| - 1]) then [f(s[|s| - 1])] else [])
  {
    var init, last := s[..|s| - 1], s[|s| - 1];
    if p(last) {
      MapSeqAppend(Filter(init, p), [last], f);
    } else {
      assert Filter(s, p) == Filter(init, p) + [];
    }
  }

  /** array_chunk: consecutive pieces of at most n elements, only the last may be shorter,
      no empty piece, and together they are the input. */
  function Chunks<T>(s: seq<T>, n: nat): (r: seq<seq<T>>)
    requires n > 0
    ensures Flatten(r) == s
    ensures forall i :: 0 <= i < |r| ==> 0 < |r[i]| <= n
    ensures forall i :: 0 <= i < |r| - 1 ==> |r[i]| == n
    ensures s == [] <==> r == []
    decreases |s|
  {
    if |s| == 0 then []
    else if |s| <= n then
      assert Flatten([s]) == s + Flatten([s][1..]);
      [s]
    else
      var rest := Chunks(s[n..], n);
      assert ([s[..n]] + rest)[1..] == rest;
      assert s[..n] + s[n..] == s;
      [s[..n]] + rest
  }

  /** array_intersect: the elements of a (in order, repetitions kept) that occur in b. */
  function Intersect<T(==,!new)>(a: seq<T>, b: seq<T>): (r: seq<T>)
    ensures forall x :: x in r <==> x in a && x in b
    ensures |r| <= |a|
    decreases |a|
  {
    if |a| == 0 then []
    else
      var rest := Intersect(a[1..], b);
      assert forall x :: x in a <==> x == a[0] || x in a[1..];
      if a[0] in b then [a[0]] + rest else rest
  }

  /** Lexicographic order on strings, by character code. */
  predicate StrLe(a: string, b: string)
    decreases |a|
  {
    if |a| == 0 then true
    else if |b| == 0 then false
    else if a[0] < b[0] then true
    else if b[0] < a[0] then false
    else StrLe(a[1..], b[1..])
  }

  lemma {:induction false} StrLeTotal(a: string, b: string)
    ensures StrLe(a, b) || StrLe(b, a)
    decreases |a|
  {
    if |a| > 0 && |b| > 0 && a[0] == b[0] {
      StrLeTotal(a[1..], b[1..]);
    }
  }

  /** Every element is at most its successor. */
  ghost predicate SortedStrings(s: seq<string>) {
    forall i :: 0 <= i < |s| - 1 ==> StrLe(s[i], s[i + 1])
  }

  function InsertString(x: string, s: seq<string>): (r: seq<string>)
    requires SortedStrings(s)
    ensures SortedStrings(r)
    ensures multiset(r) == multiset(s) + multiset{x}
    ensures |r| > 0 && (r[0] == x || (|s| > 0 && r[0] == s[0]))
    decreases |s|
  {
    if |s| == 0 then [x]
    else if StrLe(x, s[0]) then [x] + s
    else
      StrLeTotal(x, s[0]);
      var rest := InsertString(x, s[1..]);
      assert s == [s[0]] + s[1..];
      [s[0]] + rest
  }

  /** PHP sort() on a list of version strings: ascending, and a permutation of the input. */
  function SortStrings(s: seq<string>): (r: seq<string>)
    ensures SortedStrings(r)
    ensures multiset(r) == multiset(s)
    decreases |s|
  {
    if |s| == 0 then []
    else
      assert s == s[..|s| - 1] + [s[|s| - 1]];
      InsertString(s[|s| - 1], SortStrings(s[..|s| - 1]))
  }

  /** A PHP associative array with string keys: a map plus the insertion order of its keys. */
  datatype OMap<V> = OMap(keys: seq<string>, vals: map<string, V>) {

    ghost predicate Valid() {
      NoDuplicates(keys) && forall k :: k in vals <==> k in keys
    }

    /** $a[$k] = $v: a new key goes to the end, an existing key keeps its position. */
    function Put(k: string, v: V): (r: OMap<V>)
      requires Valid()
      ensures r.Valid()
      ensures r.vals == vals[k := v]
      ensures r.keys == Dedup(keys + [k])
    {
      DedupOfDistinct(keys);
      assert (keys + [k])[..|keys|] == keys;
      OMap(if k in keys then keys else keys + [k], vals[k := v])
    }

    /** The values in key order (what foreach yields). */
    function Values(): (r: seq<V>)
      requires Valid()
      ensures |r| == |keys|
      ensures forall i :: 0 <= i < |keys| ==> r[i] == vals[keys[i]]
    {
      seq(|keys|, i requires 0 <= i < |keys| => vals[keys[i]])
    }
  }

  function EmptyOMap<V>(): (r: OMap<V>)
    ensures r.Valid() && r.keys == [] && r.vals == map[]
  {
    OMap([], map[])
  }
}
