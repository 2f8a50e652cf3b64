/** The cache gate and the push log of Indexer::indexPackages, on values: which package
    names are queued for a language, which cache keys a run saves, and what is pushed to
    the search index in which batches. */
module CacheGate {
  import opened Values
  import opened Collections
  import opened PackageModel
  import opened HashGen
  import opened Languages

  const CACHE_PREFIX: string := "package-indexer"
  /** array_chunk size of one push. */
  const CHUNK: nat := 100

  /** The cache item key of a package for a language: prefix, language and hash. */
  function ItemKey(r: Record, language: string, digest: seq<Value> -> string): string {
    CACHE_PREFIX + "-" + language + "-" + Hash(r, language, digest)
  }

  /** The two characters after "package-indexer-" are the language of a key. */
  predicate KeyOfLanguage(k: string, language: string) {
    |k| >= 18 && k[16..18] == language
  }

  lemma ItemKeyLanguage(r: Record, language: string, digest: seq<Value> -> string)
    requires |language| == 2
    ensures KeyOfLanguage(ItemKey(r, language, digest), language)
  {
    var k := ItemKey(r, language, digest);
    assert k == (CACHE_PREFIX + "-") + language + ("-" + Hash(r, language, digest));
    assert |CACHE_PREFIX + "-"| == 16;
  }

  /** Every name has a record. */
  predicate Known(names: seq<string>, recs: map<string, Record>) {
    forall n :: n in names ==> n in recs
  }

  /** What the gate of one language yields: the names queued and the keys saved deferred. */
  datatype Gated = Gated(queue: seq<string>, saved: set<string>)

  /** The inner loop of indexPackages for one language. Without ignoreCache a name is
      queued, and its key saved, when the key is neither in the pool nor saved earlier in
      this loop; with ignoreCache every name is queued and nothing is saved. */
  function Gate(names: seq<string>, recs: map<string, Record>, language: string, visible: set<string>,
                ignoreCache: bool, digest: seq<Value> -> string): (r: Gated)
    requires Known(names, recs)
    ensures forall n :: n in r.queue ==> n in names
    decreases |names|
  {
    if |names| == 0 then Gated([], {})
    else
      var g := Gate(names[..|names| - 1], recs, language, visible, ignoreCache, digest);
      var n := names[|names| - 1];
      if ignoreCache then Gated(g.queue + [n], g.saved)
      else
        var k := ItemKey(recs[n], language, digest);
        if k in visible || k in g.saved then g else Gated(g.queue + [n], g.saved + {k})
  }

  /** With ignoreCache every package is queued, in order, and nothing is saved. */
  lemma {:induction false} GateIgnoringCache(names: seq<string>, recs: map<string, Record>, language: string,
                                             visible: set<string>, digest: seq<Value> -> string)
    requires Known(names, recs)
    ensures Gate(names, recs, language, visible, true, digest) == Gated(names, {})
    decreases |names|
  {
    if |names| > 0 {
      GateIgnoringCache(names[..|names| - 1], recs, language, visible, digest);
      assert names[..|names| - 1] + [names[|names| - 1]] == names;
    }
  }

  /** Without ignoreCache: a queued package's key missed the pool; afterwards every key
      is in the pool or saved; exactly the keys of queued packages are saved. */
  lemma {:induction false} GateMisses(names: seq<string>, recs: map<string, Record>, language: string,
                                      visible: set<string>, digest: seq<Value> -> string)
    requires Known(names, recs)
    ensures var g := Gate(names, recs, language, visible, false, digest);
      && (forall n :: n in g.queue ==> n in names && ItemKey(recs[n], language, digest) !in visible)
      && (forall n :: n in names ==> ItemKey(recs[n], language, digest) in visible + g.saved)
      && (forall k :: k in g.saved ==> exists n :: n in g.queue && k == ItemKey(recs[n], language, digest))
      && (forall n :: n in g.queue ==> ItemKey(recs[n], language, digest) in g.saved)
    decreases |names|
  {
    if |names| > 0 {
      var init := names[..|names| - 1];
      GateMisses(init, recs, language, visible, digest);
      assert forall n :: n in names ==> n in init || n == names[|names| - 1];
    }
  }

  /** No two of the names share a key for the language. */
  predicate DistinctKeys(names: seq<string>, recs: map<string, Record>, language: string, digest: seq<Value> -> string)
    requires Known(names, recs)
  {
    forall i, j :: 0 <= i < j < |names| ==>
      ItemKey(recs[names[i]], language, digest) != ItemKey(recs[names[j]], language, digest)
  }

  /** A name misses the pool. */
  function Misses(recs: map<string, Record>, language: string, visible: set<string>,
                  digest: seq<Value> -> string): string -> bool {
    n => n in recs && ItemKey(recs[n], language, digest) !in visible
  }

  /** When no two packages share a key, the queue is exactly the packages whose key
      misses the pool, in the order of the packages map. */
  lemma {:induction false} GateQueuesMisses(names: seq<string>, recs: map<string, Record>, language: string,
                                            visible: set<string>, digest: seq<Value> -> string)
    requires Known(names, recs)
    requires DistinctKeys(names, recs, language, digest)
    ensures Gate(names, recs, language, visible, false, digest).queue == Filter(names, Misses(recs, language, visible, digest))
    decreases |names|
  {
    if |names| > 0 {
      var init := names[..|names| - 1];
      var n := names[|names| - 1];
      assert DistinctKeys(init, recs, language, digest);
      GateQueuesMisses(init, recs, language, visible, digest);
      GateMisses(init, recs, language, visible, digest);
    }
  }

  /** Keys of other languages in the pool do not change the gate of a language. */
  lemma {:induction false} GateIgnoresOtherLanguages(names: seq<string>, recs: map<string, Record>, language: string,
                                                     visible: set<string>, extra: set<string>, ignoreCache: bool,
                                                     digest: seq<Value> -> string)
    requires Known(names, recs) && |language| == 2
    requires forall k :: k in extra ==> !KeyOfLanguage(k, language)
    ensures Gate(names, recs, language, visible + extra, ignoreCache, digest) ==
            Gate(names, recs, language, visible, ignoreCache, digest)
    decreases |names|
  {
    if |names| > 0 {
      var init := names[..|names| - 1];
      GateIgnoresOtherLanguages(init, recs, language, visible, extra, ignoreCache, digest);
      ItemKeyLanguage(recs[names[|names| - 1]], language, digest);
    }
  }

  /** Every key a language's gate saves belongs to that language. */
  lemma {:induction false} GateSavesOwnLanguage(names: seq<string>, recs: map<string, Record>, language: string,
                                                visible: set<string>, ignoreCache: bool, digest: seq<Value> -> string)
    requires Known(names, recs) && |language| == 2
    ensures forall k :: k in Gate(names, recs, language, visible, ignoreCache, digest).saved ==> KeyOfLanguage(k, language)
    decreases |names|
  {
    if |names| > 0 {
      GateSavesOwnLanguage(names[..|names| - 1], recs, language, visible, ignoreCache, digest);
      ItemKeyLanguage(recs[names[|names| - 1]], language, digest);
    }
  }

  /** What the gates of all languages yield, one after the other, on a pool with the
      given committed and deferred keys: one queue per language and the deferred keys
      afterwards; each language sees the keys the languages before it deferred. */
  datatype GatedAll = GatedAll(queues: seq<seq<string>>, deferred: set<string>)

  function GateAll(names: seq<string>, recs: map<string, Record>, langs: seq<string>,
                   saved: set<string>, deferred: set<string>,
                   ignoreCache: bool, digest: seq<Value> -> string): (r: GatedAll)
    requires Known(names, recs)
    ensures |r.queues| == |langs|
    ensures forall i :: 0 <= i < |langs| ==> Known(r.queues[i], recs)
    decreases |langs|
  {
    if |langs| == 0 then GatedAll([], deferred)
    else
      var all := GateAll(names, recs, langs[..|langs| - 1], saved, deferred, ignoreCache, digest);
      var g := Gate(names, recs, langs[|langs| - 1], saved + all.deferred, ignoreCache, digest);
      GatedAll(all.queues + [g.queue], all.deferred + g.saved)
  }

  /** Two-letter, pairwise different language codes. */
  predicate LanguageCodes(langs: seq<string>) {
    && (forall i :: 0 <= i < |langs| ==> |langs[i]| == 2)
    && (forall i, j :: 0 <= i < j < |langs| ==> langs[i] != langs[j])
  }

  /** Every key deferred by the gates of all languages belongs to one of them. */
  lemma {:induction false} GateAllDefersListedLanguages(names: seq<string>, recs: map<string, Record>, langs: seq<string>,
                                                        saved: set<string>, deferred: set<string>,
                                                        ignoreCache: bool, digest: seq<Value> -> string)
    requires Known(names, recs) && LanguageCodes(langs)
    ensures forall k :: k in GateAll(names, recs, langs, saved, deferred, ignoreCache, digest).deferred ==>
              k in deferred || (|k| >= 18 && k[16..18] in langs)
    decreases |langs|
  {
    if |langs| > 0 {
      var init := langs[..|langs| - 1];
      assert LanguageCodes(init);
      GateAllDefersListedLanguages(names, recs, init, saved, deferred, ignoreCache, digest);
      var before := GateAll(names, recs, init, saved, deferred, ignoreCache, digest);
      GateSavesOwnLanguage(names, recs, langs[|langs| - 1], saved + before.deferred, ignoreCache, digest);
      assert forall l :: l in init ==> l in langs;
    }
  }

  /** A language's gate is not affected by the keys the languages before it deferred. */
  lemma LastLanguageUnaffected(names: seq<string>, recs: map<string, Record>, langs: seq<string>,
                               saved: set<string>, deferred: set<string>,
                               ignoreCache: bool, digest: seq<Value> -> string)
    requires Known(names, recs) && LanguageCodes(langs) && |langs| > 0
    ensures var before := GateAll(names, recs, langs[..|langs| - 1], saved, deferred, ignoreCache, digest);
      Gate(names, recs, langs[|langs| - 1], saved + before.deferred, ignoreCache, digest) ==
      Gate(names, recs, langs[|langs| - 1], saved + deferred, ignoreCache, digest)
  {
    var init := langs[..|langs| - 1];
    var last := langs[|langs| - 1];
    assert LanguageCodes(init);
    GateAllDefersListedLanguages(names, recs, init, saved, deferred, ignoreCache, digest);
    var before := GateAll(names, recs, init, saved, deferred, ignoreCache, digest);
    assert last !in init by {
      forall i | 0 <= i < |init| ensures init[i] != last {
        assert init[i] == langs[i];
      }
    }
    var extra := before.deferred - deferred;
    GateIgnoresOtherLanguages(names, recs, last, saved + deferred, extra, ignoreCache, digest);
    GateAllDefersMore(names, recs, init, saved, deferred, ignoreCache, digest);
    assert saved + before.deferred == saved + deferred + extra;
  }

  /** The deferred keys only grow. */
  lemma {:induction false} GateAllDefersMore(names: seq<string>, recs: map<string, Record>, langs: seq<string>,
                                             saved: set<string>, deferred: set<string>,
                                             ignoreCache: bool, digest: seq<Value> -> string)
    requires Known(names, recs)
    ensures deferred <= GateAll(names, recs, langs, saved, deferred, ignoreCache, digest).deferred
    decreases |langs|
  {
    if |langs| > 0 {
      GateAllDefersMore(names, recs, langs[..|langs| - 1], saved, deferred, ignoreCache, digest);
    }
  }

  /** Since every key carries its language, the languages do not interfere: the queue of
      each language is what its gate yields against the pool as it was before the run. */
  lemma {:induction false} GateAllQueues(names: seq<string>, recs: map<string, Record>, langs: seq<string>,
                                         saved: set<string>, deferred: set<string>,
                                         ignoreCache: bool, digest: seq<Value> -> string)
    requires Known(names, recs) && LanguageCodes(langs)
    ensures var all := GateAll(names, recs, langs, saved, deferred, ignoreCache, digest);
      forall i :: 0 <= i < |langs| ==> all.queues[i] == Gate(names, recs, langs[i], saved + deferred, ignoreCache, digest).queue
    decreases |langs|
  {
    if |langs| > 0 {
      var init := langs[..|langs| - 1];
      assert LanguageCodes(init);
      GateAllQueues(names, recs, init, saved, deferred, ignoreCache, digest);
      LastLanguageUnaffected(names, recs, langs, saved, deferred, ignoreCache, digest);
    }
  }

  /** ... and the keys deferred are the ones deferred before and those the languages'
      gates save against that pool. */
  lemma {:induction false} GateAllDeferred(names: seq<string>, recs: map<string, Record>, langs: seq<string>,
                                           saved: set<string>, deferred: set<string>,
                                           ignoreCache: bool, digest: seq<Value> -> string)
    requires Known(names, recs) && LanguageCodes(langs)
    ensures var all := GateAll(names, recs, langs, saved, deferred, ignoreCache, digest);
      && deferred <= all.deferred
      && (forall k :: k in all.deferred ==>
            (|| k in deferred
             || exists i :: 0 <= i < |langs| && k in Gate(names, recs, langs[i], saved + deferred, ignoreCache, digest).saved))
      && (forall i :: 0 <= i < |langs| ==> Gate(names, recs, langs[i], saved + deferred, ignoreCache, digest).saved <= all.deferred)
    decreases |langs|
  {
    if |langs| > 0 {
      var init := langs[..|langs| - 1];
      assert LanguageCodes(init);
      GateAllDeferred(names, recs, init, saved, deferred, ignoreCache, digest);
      LastLanguageUnaffected(names, recs, langs, saved, deferred, ignoreCache, digest);
      assert forall i :: 0 <= i < |init| ==> langs[i] == init[i];
    }
  }

  const INDEX_PREFIX: string := "v2_"

  /** The search index of a language. */
  function IndexName(language: string): string {
    INDEX_PREFIX + language
  }

  /** One saveObjects call: the index written to and the objects pushed. */
  datatype Push = Push(index: string, objects: seq<map<string, Value>>)

  /** The getForAlgolia object of a package for a language. */
  function ObjectOf(recs: map<string, Record>, language: string): string -> map<string, Value> {
    n => if n in recs then Projection(recs[n], language) else map[]
  }

  /** The getForAlgolia objects of some packages, in order. */
  function Objects(names: seq<string>, recs: map<string, Record>, language: string): (r: seq<map<string, Value>>)
    requires Known(names, recs)
    ensures |r| == |names|
  {
    MapSeq(names, ObjectOf(recs, language))
  }

  /** One push per chunk, in order. */
  function Batches(chunks: seq<seq<string>>, recs: map<string, Record>, language: string): (r: seq<Push>)
    requires forall i :: 0 <= i < |chunks| ==> Known(chunks[i], recs)
    ensures |r| == |chunks|
    ensures forall i :: 0 <= i < |chunks| ==> r[i] == Push(IndexName(language), Objects(chunks[i], recs, language))
  {
    seq(|chunks|, i requires 0 <= i < |chunks| => Push(IndexName(language), Objects(chunks[i], recs, language)))
  }

  /** The pushes of one more chunk. */
  lemma BatchesSnoc(chunks: seq<seq<string>>, recs: map<string, Record>, language: string, j: int)
    requires forall i :: 0 <= i < |chunks| ==> Known(chunks[i], recs)
    requires 0 <= j < |chunks|
    ensures Batches(chunks[..j + 1], recs, language) ==
            Batches(chunks[..j], recs, language) + [Push(IndexName(language), Objects(chunks[j], recs, language))]
  {
  }

  /** The pushes of one language: its queue in chunks of CHUNK. */
  function LanguagePushes(queue: seq<string>, recs: map<string, Record>, language: string): seq<Push>
    requires Known(queue, recs)
  {
    var chunks := Chunks(queue, CHUNK);
    ChunksKnown(queue, recs);
    Batches(chunks, recs, language)
  }

  lemma ChunksKnown(queue: seq<string>, recs: map<string, Record>)
    requires Known(queue, recs)
    ensures forall i :: 0 <= i < |Chunks(queue, CHUNK)| ==> Known(Chunks(queue, CHUNK)[i], recs)
  {
    var chunks := Chunks(queue, CHUNK);
    forall i | 0 <= i < |chunks|
      ensures Known(chunks[i], recs)
    {
      FlattenMembers(chunks, i);
    }
  }

  /** An element of a piece is an element of the concatenation. */
  lemma {:induction false} FlattenMembers<T>(ss: seq<seq<T>>, i: int)
    requires 0 <= i < |ss|
    ensures forall x :: x in ss[i] ==> x in Flatten(ss)
    decreases |ss|
  {
    if i > 0 {
      FlattenMembers(ss[1..], i - 1);
    }
  }

  /** All pushes of a run, language by language. */
  function PushLog(queues: seq<seq<string>>, recs: map<string, Record>, langs: seq<string>): seq<Push>
    requires |queues| == |langs|
    requires forall i :: 0 <= i < |queues| ==> Known(queues[i], recs)
    decreases |langs|
  {
    if |langs| == 0 then []
    else
      PushLog(queues[..|queues| - 1], recs, langs[..|langs| - 1])
        + LanguagePushes(queues[|queues| - 1], recs, langs[|langs| - 1])
  }

  /** The pushes of one more language. */
  lemma PushLogSnoc(queues: seq<seq<string>>, recs: map<string, Record>, langs: seq<string>, i: int)
    requires |queues| == |langs|
    requires forall i :: 0 <= i < |queues| ==> Known(queues[i], recs)
    requires 0 <= i < |langs|
    ensures PushLog(queues[..i + 1], recs, langs[..i + 1]) ==
            PushLog(queues[..i], recs, langs[..i]) + LanguagePushes(queues[i], recs, langs[i])
  {
    TakeSnoc(queues, i);
    TakeSnoc(langs, i);
  }

  /** The objects of a list of pushes, one after the other. */
  function AllObjects(ps: seq<Push>): seq<map<string, Value>>
    decreases |ps|
  {
    if |ps| == 0 then [] else ps[0].objects + AllObjects(ps[1..])
  }

  /** A language's pushes go to its index, hold between 1 and CHUNK objects each, are
      absent for an empty queue, and together hold one object per queued package, in
      queue order. */
  lemma LanguagePushesShape(queue: seq<string>, recs: map<string, Record>, language: string)
    requires Known(queue, recs)
    ensures var ps := LanguagePushes(queue, recs, language);
      && (forall i :: 0 <= i < |ps| ==> ps[i].index == IndexName(language) && 0 < |ps[i].objects| <= CHUNK)
      && (ps == [] <==> queue == [])
      && AllObjects(ps) == Objects(queue, recs, language)
  {
    var chunks := Chunks(queue, CHUNK);
    ChunksKnown(queue, recs);
    BatchesObjects(chunks, recs, language);
  }

  lemma {:induction false} BatchesObjects(chunks: seq<seq<string>>, recs: map<string, Record>, language: string)
    requires forall i :: 0 <= i < |chunks| ==> Known(chunks[i], recs)
    ensures Known(Flatten(chunks), recs)
    ensures AllObjects(Batches(chunks, recs, language)) == Objects(Flatten(chunks), recs, language)
    decreases |chunks|
  {
    if |chunks| > 0 {
      var rest := chunks[1..];
      var bs := Batches(chunks, recs, language);
      assert bs[1..] == Batches(rest, recs, language);
      BatchesObjects(rest, recs, language);
      MapSeqAppend(chunks[0], Flatten(rest), ObjectOf(recs, language));
      assert AllObjects(bs) == bs[0].objects + AllObjects(bs[1..]);
    }
  }

  /** Every push of a run goes to the index of one of the languages and holds between 1
      and CHUNK objects. */
  lemma {:induction false} PushLogBatches(queues: seq<seq<string>>, recs: map<string, Record>, langs: seq<string>)
    requires |queues| == |langs|
    requires forall i :: 0 <= i < |queues| ==> Known(queues[i], recs)
    ensures forall p :: p in PushLog(queues, recs, langs) ==>
              (exists l :: l in langs && p.index == IndexName(l)) && 0 < |p.objects| <= CHUNK
    decreases |langs|
  {
    if |langs| > 0 {
      var n := |langs| - 1;
      PushLogBatches(queues[..n], recs, langs[..n]);
      LanguagePushesShape(queues[n], recs, langs[n]);
      assert forall l :: l in langs[..n] ==> l in langs;
    }
  }
}
