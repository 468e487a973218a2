/** `ParallelTranslator.translate_uif`: translate every collected text of a
    UIF document, reusing cached translations, sending the rest to the
    model in batches with retries, and writing the results back by path.
    The model is a parameter: a `Service` gives the reply to batch `i`'s
    request on each attempt. */
module Translator {
  import opened Wrappers
  import opened Seqs
  import opened Text
  import opened Schema
  import opened TextPaths
  import opened TreeText
  import opened Cache
  import opened Walker
  import B = Batcher

  /** `max_retries` of `_translate_batch`. */
  const MaxRetries: nat := 4
  /** The defaults of `create_batches`, which `translate_uif` relies on. */
  const BatchItems: nat := 5
  const BatchChars: nat := 1000

  /** One call to the model: it raises, or it returns a response text. */
  datatype Reply = Raised | Replied(text: string)

  /** How `_translate_batch` ends: it raises (the batch failed), or it
      returns a list of translations. */
  datatype Outcome = Failed | Translated(texts: seq<string>)

  /** The reply to batch `i`, sent as the given request, on an attempt. */
  type Service = (nat, string, nat) -> Reply

  /** The text sent for a batch. */
  function Request(b: B.TranslationBatch): string
  {
    B.BatchedText(B.Texts(b.items))
  }

  // ---------------------------------------------------------------------
  // `_translate_batch`

  /** `sum(1 for t in translations if t.strip())`. */
  function NonEmptyCount(ts: seq<string>): (n: nat)
    ensures n <= |ts|
    ensures n == 0 <==> forall k :: 0 <= k < |ts| ==> IsBlank(ts[k])
  {
    if ts == [] then 0
    else
      var front := ts[..|ts| - 1];
      assert forall k :: 0 <= k < |front| ==> front[k] == ts[k];
      NonEmptyCount(front) + (if IsBlank(ts[|ts| - 1]) then 0 else 1)
  }

  /** An attempt before the last leads to another one: the call raised,
      the response was blank, or fewer than half of the items came back
      with a non-blank translation. */
  predicate Retried(r: Reply, n: nat)
  {
    r.Raised? || IsBlank(r.text) || NonEmptyCount(B.Parsed(r.text, n)) < n / 2
  }

  /** What `_translate_batch` returns from attempt `a` on: on the last
      attempt an exception propagates and a blank response gives `n`
      empty translations; a response that was parsed is returned as it
      is, however few of its translations are non-blank. */
  function Run(service: Service, i: nat, request: string, n: nat, a: nat): Outcome
    requires a < MaxRetries
    decreases MaxRetries - a
  {
    var r := service(i, request, a);
    if a < MaxRetries - 1 then
      if Retried(r, n) then Run(service, i, request, n, a + 1) else Translated(B.Parsed(r.text, n))
    else
      Final(r, n)
  }

  /** The last attempt: an exception propagates, a blank response gives
      `n` empty translations, anything else is parsed and returned. */
  function Final(r: Reply, n: nat): Outcome
  {
    match r
    case Raised => Failed
    case Replied(t) => if IsBlank(t) then Translated(B.Blanks(n)) else Translated(B.Parsed(t, n))
  }

  /** A batch fails exactly when every attempt before the last was
      retried and the last one raised. */
  lemma RunFails(service: Service, i: nat, request: string, n: nat, a: nat)
    requires a < MaxRetries
    ensures Run(service, i, request, n, a) == Failed <==>
      (forall a' :: a <= a' < MaxRetries - 1 ==> Retried(service(i, request, a'), n))
      && service(i, request, MaxRetries - 1).Raised?
  {
    if Run(service, i, request, n, a) == Failed {
      FailedOnlyIf(service, i, request, n, a);
    }
    if (forall a' :: a <= a' < MaxRetries - 1 ==> Retried(service(i, request, a'), n))
       && service(i, request, MaxRetries - 1).Raised? {
      FailedIf(service, i, request, n, a);
    }
  }

  lemma {:induction false} FailedOnlyIf(service: Service, i: nat, request: string, n: nat, a: nat)
    requires a < MaxRetries && Run(service, i, request, n, a) == Failed
    ensures forall a' :: a <= a' < MaxRetries - 1 ==> Retried(service(i, request, a'), n)
    ensures service(i, request, MaxRetries - 1).Raised?
    decreases MaxRetries - a
  {
    if a < MaxRetries - 1 {
      var next := a + 1;
      FailedStep(service, i, request, n, a, next);
      FailedOnlyIf(service, i, request, n, next);
      RetriedFrom(service, i, request, n, a, next);
    }
  }

  lemma FailedStep(service: Service, i: nat, request: string, n: nat, a: nat, next: nat)
    requires a < MaxRetries - 1 && next == a + 1 && Run(service, i, request, n, a) == Failed
    ensures Retried(service(i, request, a), n) && Run(service, i, request, n, next) == Failed
  {
  }

  lemma RetriedFrom(service: Service, i: nat, request: string, n: nat, a: nat, next: nat)
    requires next == a + 1 && Retried(service(i, request, a), n)
    requires forall a' :: next <= a' < MaxRetries - 1 ==> Retried(service(i, request, a'), n)
    ensures forall a' :: a <= a' < MaxRetries - 1 ==> Retried(service(i, request, a'), n)
  {
    forall a' | a <= a' < MaxRetries - 1
      ensures Retried(service(i, request, a'), n)
    {
      if a' == a {
        assert service(i, request, a') == service(i, request, a);
      }
    }
  }

  lemma {:induction false} FailedIf(service: Service, i: nat, request: string, n: nat, a: nat)
    requires a < MaxRetries
    requires forall a' :: a <= a' < MaxRetries - 1 ==> Retried(service(i, request, a'), n)
    requires service(i, request, MaxRetries - 1).Raised?
    ensures Run(service, i, request, n, a) == Failed
    decreases MaxRetries - a
  {
    if a < MaxRetries - 1 {
      FailedIf(service, i, request, n, a + 1);
    }
  }

  /** The first attempt that is not retried decides the batch. */
  lemma {:induction false} RunFirstAccepted(service: Service, i: nat, request: string, n: nat, a: nat, first: nat)
    requires a <= first < MaxRetries - 1
    requires forall a' :: a <= a' < first ==> Retried(service(i, request, a'), n)
    requires !Retried(service(i, request, first), n)
    ensures Run(service, i, request, n, a) == Translated(B.Parsed(service(i, request, first).text, n))
    decreases first - a
  {
    if a < first {
      RunFirstAccepted(service, i, request, n, a + 1, first);
    }
  }

  /** A batch that does not fail returns a translation for every item. */
  lemma {:induction false} RunLength(service: Service, i: nat, request: string, n: nat, a: nat)
    requires a < MaxRetries
    ensures Run(service, i, request, n, a).Translated? ==>
      |Run(service, i, request, n, a).texts| >= n && (n >= 1 ==> |Run(service, i, request, n, a).texts| == n)
    decreases MaxRetries - a
  {
    var r := service(i, request, a);
    if r.Replied? {
      B.ParsedLength(r.text, n);
    }
    if a < MaxRetries - 1 && Retried(r, n) {
      RunLength(service, i, request, n, a + 1);
    }
  }

  /** Blank responses on every attempt end in empty translations, not in
      a failure. */
  lemma {:induction false} RunAllBlank(service: Service, i: nat, request: string, n: nat, a: nat)
    requires a < MaxRetries
    requires forall a' :: a <= a' < MaxRetries ==> service(i, request, a').Replied? && IsBlank(service(i, request, a').text)
    ensures Run(service, i, request, n, a) == Translated(B.Blanks(n))
    decreases MaxRetries - a
  {
    if a < MaxRetries - 1 {
      RunAllBlank(service, i, request, n, a + 1);
    }
  }

  /** `_translate_batch` (the semaphore and the back-off sleeps aside): at
      most `MaxRetries` calls, every call but the last one retried, and
      fewer calls only when one was accepted. */
  method TranslateBatch(batch: B.TranslationBatch, i: nat, service: Service) returns (outcome: Outcome, attempts: nat)
    ensures outcome == Run(service, i, Request(batch), |batch.items|, 0)
    ensures 1 <= attempts <= MaxRetries
    ensures forall a :: 0 <= a < attempts - 1 ==> Retried(service(i, Request(batch), a), |batch.items|)
    ensures attempts < MaxRetries ==> !Retried(service(i, Request(batch), attempts - 1), |batch.items|)
  {
    var n := |batch.items|;
    var request := B.ToBatchedText(batch);
    var accepted, attempt := Retry(service, i, request, n);
    attempts := attempt + 1;
    assert attempts - 1 == attempt;
    if accepted.Some? {
      outcome := Translated(accepted.value);
    } else {
      outcome := LastAttempt(service(i, request, attempt), n);
    }
  }

  /** The attempts before the last: stop at the first one accepted, or
      leave the last attempt to be made. */
  method Retry(service: Service, i: nat, request: string, n: nat) returns (accepted: Option<seq<string>>, attempt: nat)
    ensures attempt <= MaxRetries - 1
    ensures forall a :: 0 <= a < attempt ==> Retried(service(i, request, a), n)
    ensures accepted.Some? ==>
      attempt < MaxRetries - 1 && !Retried(service(i, request, attempt), n)
      && Run(service, i, request, n, 0) == Translated(accepted.value)
    ensures accepted.None? ==> attempt == MaxRetries - 1 && Run(service, i, request, n, 0) == Final(service(i, request, attempt), n)
  {
    attempt := 0;
    while attempt < MaxRetries - 1
      invariant attempt <= MaxRetries - 1
      invariant forall a :: 0 <= a < attempt ==> Retried(service(i, request, a), n)
      invariant Run(service, i, request, n, attempt) == Run(service, i, request, n, 0)
    {
      accepted := Attempt(service(i, request, attempt), n);
      if accepted.Some? {
        AcceptedStep(service, i, request, n, attempt);
        return;
      }
      var next := attempt + 1;
      RetriedStep(service, i, request, n, attempt, next);
      RetriedUpTo(service, i, request, n, attempt, next);
      attempt := next;
    }
    LastStep(service, i, request, n, attempt);
    accepted := None;
  }

  /** One attempt before the last: the parsed translations when the
      response is accepted, `None` when it is retried. */
  method Attempt(r: Reply, n: nat) returns (accepted: Option<seq<string>>)
    ensures accepted.None? <==> Retried(r, n)
    ensures accepted.Some? ==> accepted.value == B.Parsed(r.text, n)
  {
    accepted := None;
    if r.Replied? && !IsBlank(r.text) {
      var translations := B.ParseResponse(r.text, n);
      if NonEmptyCount(translations) >= n / 2 {
        accepted := Some(translations);
      }
    }
  }

  method LastAttempt(r: Reply, n: nat) returns (outcome: Outcome)
    ensures outcome == Final(r, n)
  {
    match r
    case Raised =>
      outcome := Failed;
    case Replied(t) =>
      if IsBlank(t) {
        outcome := Translated(B.Blanks(n));
      } else {
        var translations := B.ParseResponse(t, n);
        outcome := Translated(translations);
      }
  }

  lemma RetriedStep(service: Service, i: nat, request: string, n: nat, a: nat, next: nat)
    requires a < MaxRetries - 1 && next == a + 1 && Retried(service(i, request, a), n)
    ensures Run(service, i, request, n, a) == Run(service, i, request, n, next)
  {
  }

  lemma RetriedUpTo(service: Service, i: nat, request: string, n: nat, a: nat, next: nat)
    requires next == a + 1 && Retried(service(i, request, a), n)
    requires forall a' :: 0 <= a' < a ==> Retried(service(i, request, a'), n)
    ensures forall a' :: 0 <= a' < next ==> Retried(service(i, request, a'), n)
  {
    forall a' | 0 <= a' < next
      ensures Retried(service(i, request, a'), n)
    {
      if a' == a {
        assert service(i, request, a') == service(i, request, a);
      }
    }
  }

  lemma LastStep(service: Service, i: nat, request: string, n: nat, a: nat)
    requires a == MaxRetries - 1
    ensures Run(service, i, request, n, a) == Final(service(i, request, a), n)
  {
  }

  lemma AcceptedStep(service: Service, i: nat, request: string, n: nat, a: nat)
    requires a < MaxRetries - 1 && !Retried(service(i, request, a), n)
    ensures Run(service, i, request, n, a) == Translated(B.Parsed(service(i, request, a).text, n))
  {
  }

  /** The outcome of every batch, in order (`asyncio.gather`). */
  function Outcomes(bs: seq<B.TranslationBatch>, service: Service): (os: seq<Outcome>)
    ensures |os| == |bs|
  {
    seq(|bs|, i requires 0 <= i < |bs| => Run(service, i, Request(bs[i]), |bs[i].items|, 0))
  }

  lemma OutcomesSnoc(bs: seq<B.TranslationBatch>, service: Service, i: nat)
    requires i < |bs|
    ensures Outcomes(bs[..i + 1], service) == Outcomes(bs[..i], service) + [Run(service, i, Request(bs[i]), |bs[i].items|, 0)]
  {
    assert Outcomes(bs[..i + 1], service)[..i] == Outcomes(bs[..i], service);
  }

  method TranslateAll(batches: seq<B.TranslationBatch>, service: Service) returns (outcomes: seq<Outcome>)
    ensures outcomes == Outcomes(batches, service)
  {
    outcomes := [];
    for i := 0 to |batches|
      invariant outcomes == Outcomes(batches[..i], service)
    {
      var outcome, _ := TranslateBatch(batches[i], i, service);
      OutcomesSnoc(batches, service, i);
      outcomes := outcomes + [outcome];
    }
    assert batches[..|batches|] == batches;
  }

  /** Every translated batch has a translation for each of its items. */
  predicate Complete(bs: seq<B.TranslationBatch>, os: seq<Outcome>)
  {
    |os| == |bs| && forall i :: 0 <= i < |bs| && os[i].Translated? ==> |os[i].texts| >= |bs[i].items|
  }

  lemma OutcomesComplete(bs: seq<B.TranslationBatch>, service: Service)
    ensures Complete(bs, Outcomes(bs, service))
  {
    forall i | 0 <= i < |bs| ensures Outcomes(bs, service)[i].Translated? ==> |Outcomes(bs, service)[i].texts| >= |bs[i].items|
    {
      RunLength(service, i, Request(bs[i]), |bs[i].items|, 0);
    }
  }

  // ---------------------------------------------------------------------
  // Step 3: cached translations

  /** The collected items the cache already knows, carrying the cached
      translation. */
  function Hits(items: seq<Item>, entries: map<Key, string>, language: string): seq<Item>
  {
    if items == [] then []
    else
      var x := items[|items| - 1];
      Hits(items[..|items| - 1], entries, language)
      + match Lookup(entries, x.text, language)
        case Some(t) => [B.TextItem(x.path, t)]
        case None => []
  }

  /** The collected items left to translate, in order. */
  function Uncached(items: seq<Item>, entries: map<Key, string>, language: string): seq<Item>
  {
    if items == [] then []
    else
      var x := items[|items| - 1];
      Uncached(items[..|items| - 1], entries, language)
      + if Lookup(entries, x.text, language).None? then [x] else []
  }

  lemma {:induction false} SplitSizes(items: seq<Item>, entries: map<Key, string>, language: string)
    ensures |Hits(items, entries, language)| + |Uncached(items, entries, language)| == |items|
  {
    if items != [] {
      SplitSizes(items[..|items| - 1], entries, language);
    }
  }

  /** A hit comes from a collected item with the same path that the cache
      knows, and carries the cached translation. */
  lemma {:induction false} HitsFrom(items: seq<Item>, entries: map<Key, string>, language: string, y: Item) returns (k: nat)
    requires y in Hits(items, entries, language)
    ensures k < |items| && items[k].path == y.path && Lookup(entries, items[k].text, language) == Some(y.text)
  {
    var front := items[..|items| - 1];
    if y in Hits(front, entries, language) {
      k := HitsFrom(front, entries, language, y);
    } else {
      k := |items| - 1;
    }
  }

  lemma {:induction false} UncachedFrom(items: seq<Item>, entries: map<Key, string>, language: string, y: Item) returns (k: nat)
    requires y in Uncached(items, entries, language)
    ensures k < |items| && items[k] == y && Lookup(entries, y.text, language).None?
  {
    var front := items[..|items| - 1];
    if y in Uncached(front, entries, language) {
      k := UncachedFrom(front, entries, language, y);
    } else {
      k := |items| - 1;
    }
  }

  lemma {:induction false} HitsHolds(items: seq<Item>, entries: map<Key, string>, language: string, k: nat)
    requires k < |items| && Lookup(entries, items[k].text, language).Some?
    ensures B.TextItem(items[k].path, Lookup(entries, items[k].text, language).value) in Hits(items, entries, language)
  {
    var front := items[..|items| - 1];
    if k < |front| {
      HitsHolds(front, entries, language, k);
      assert front[k] == items[k];
    }
  }

  lemma {:induction false} UncachedHolds(items: seq<Item>, entries: map<Key, string>, language: string, k: nat)
    requires k < |items| && Lookup(entries, items[k].text, language).None?
    ensures items[k] in Uncached(items, entries, language)
  {
    var front := items[..|items| - 1];
    if k < |front| {
      UncachedHolds(front, entries, language, k);
      assert front[k] == items[k];
    }
  }

  /** With distinct paths, the hits and the uncached items have distinct
      paths, and none in common. */
  lemma {:induction false} SplitDistinct(items: seq<Item>, entries: map<Key, string>, language: string)
    requires Distinct(items)
    ensures Distinct(Hits(items, entries, language)) && Distinct(Uncached(items, entries, language))
    ensures forall y: Item, z: Item :: y in Hits(items, entries, language) && z in Uncached(items, entries, language) ==> y.path != z.path
  {
    var hs, us := Hits(items, entries, language), Uncached(items, entries, language);
    if items != [] {
      var front := items[..|items| - 1];
      var x := items[|items| - 1];
      SplitDistinct(front, entries, language);
      var hf, uf := Hits(front, entries, language), Uncached(front, entries, language);
      var hl := match Lookup(entries, x.text, language) case Some(t) => [B.TextItem(x.path, t)] case None => [];
      var ul := if Lookup(entries, x.text, language).None? then [x] else [];
      forall y: Item, z: Item | y in hf && z in hl ensures y.path != z.path
      {
        var k := HitsFrom(front, entries, language, y);
        assert items[k] == front[k];
      }
      DistinctAppend(hf, hl);
      forall y: Item, z: Item | y in uf && z in ul ensures y.path != z.path
      {
        var k := UncachedFrom(front, entries, language, y);
        assert items[k] == front[k];
      }
      DistinctAppend(uf, ul);
      forall y: Item, z: Item | y in hs && z in us ensures y.path != z.path
      {
        var k1 := HitsFrom(items, entries, language, y);
        var k2 := UncachedFrom(items, entries, language, z);
      }
    }
  }

  // ---------------------------------------------------------------------
  // Steps 5 and 6: merging the batch results

  /** `translation or item.text`: an empty translation falls back to the
      original. */
  function OrElse(t: string, fallback: string): string
  {
    if t != "" then t else fallback
  }

  function Min(a: nat, b: nat): nat { if a <= b then a else b }

  /** The items of one batch with the texts recorded for them: a failed
      batch keeps every original; for a translated one, translation `j`
      goes to item `j` and translations beyond the last item are
      dropped. */
  function Results(b: B.TranslationBatch, o: Outcome): seq<Item>
  {
    match o
    case Failed => b.items
    case Translated(ts) =>
      seq(Min(|ts|, |b.items|), j requires 0 <= j < Min(|ts|, |b.items|) =>
        B.TextItem(b.items[j].path, OrElse(ts[j], b.items[j].text)))
  }

  /** The (original, translation) pairs a batch adds to the cache: none
      for a failed batch. */
  function Learned(b: B.TranslationBatch, o: Outcome): seq<(string, string)>
  {
    match o
    case Failed => []
    case Translated(ts) =>
      seq(Min(|ts|, |b.items|), j requires 0 <= j < Min(|ts|, |b.items|) =>
        (b.items[j].text, OrElse(ts[j], b.items[j].text)))
  }

  /** The text item `j` of a batch ends up with. */
  function ResultText(o: Outcome, j: nat, original: string): string
  {
    match o
    case Failed => original
    case Translated(ts) => if j < |ts| then OrElse(ts[j], original) else original
  }

  function Resolved(bs: seq<B.TranslationBatch>, os: seq<Outcome>): seq<Item>
    requires |os| == |bs|
  {
    if bs == [] then []
    else Resolved(bs[..|bs| - 1], os[..|os| - 1]) + Results(bs[|bs| - 1], os[|os| - 1])
  }

  function LearnedAll(bs: seq<B.TranslationBatch>, os: seq<Outcome>): seq<(string, string)>
    requires |os| == |bs|
  {
    if bs == [] then []
    else LearnedAll(bs[..|bs| - 1], os[..|os| - 1]) + Learned(bs[|bs| - 1], os[|os| - 1])
  }

  /** The store after `cache.set` for every pair, in order. */
  function Learn(entries: map<Key, string>, pairs: seq<(string, string)>, language: string): map<Key, string>
  {
    if pairs == [] then entries
    else
      var p := pairs[|pairs| - 1];
      Stored(Learn(entries, pairs[..|pairs| - 1], language), p.0, language, p.1)
  }

  /** The map after `cached_translations[item.path] = item.text` for every
      item, in order. */
  function Put(m: map<Path, string>, items: seq<Item>): map<Path, string>
  {
    if items == [] then m
    else Put(m, items[..|items| - 1])[items[|items| - 1].path := items[|items| - 1].text]
  }

  // The specification of `translate_uif`.

  function Batched(doc: UniversalDocument, entries: map<Key, string>, language: string): seq<B.TranslationBatch>
  {
    B.Batches(Uncached(TextItems(doc), entries, language), BatchItems, BatchChars)
  }

  function Merged(doc: UniversalDocument, entries: map<Key, string>, language: string, os: seq<Outcome>): map<Path, string>
    requires |os| == |Batched(doc, entries, language)|
  {
    Put(PathMap(Hits(TextItems(doc), entries, language)), Resolved(Batched(doc, entries, language), os))
  }

  function Translation(doc: UniversalDocument, entries: map<Key, string>, language: string, os: seq<Outcome>): UniversalDocument
    requires |os| == |Batched(doc, entries, language)|
  {
    Apply(doc, Merged(doc, entries, language, os))
  }

  class ParallelTranslator {
    const cache: TranslationCache

    constructor ()
      ensures fresh(cache) && cache.entries == map[] && cache.hits == 0 && cache.misses == 0
    {
      cache := new TranslationCache();
    }

    /** Step 3 of `translate_uif`: look every item up; hits go into the
        path map, misses into the list to translate. */
    method SplitCached(items: seq<Item>, language: string) returns (uncached: seq<Item>, found: map<Path, string>)
      modifies cache
      ensures uncached == Uncached(items, old(cache.entries), language)
      ensures found == PathMap(Hits(items, old(cache.entries), language))
      ensures cache.entries == old(cache.entries)
      ensures cache.hits == old(cache.hits) + |Hits(items, old(cache.entries), language)|
      ensures cache.misses == old(cache.misses) + |uncached|
    {
      uncached := [];
      found := map[];
      for k := 0 to |items|
        invariant cache.entries == old(cache.entries)
        invariant uncached == Uncached(items[..k], old(cache.entries), language)
        invariant found == PathMap(Hits(items[..k], old(cache.entries), language))
        invariant cache.hits == old(cache.hits) + |Hits(items[..k], old(cache.entries), language)|
        invariant cache.misses == old(cache.misses) + |uncached|
      {
        SplitSnoc(items, old(cache.entries), language, k);
        var item := items[k];
        var cached := cache.Get(item.text, language);
        if cached.Some? {
          assert Hits(items[..k + 1], old(cache.entries), language) ==
                 Hits(items[..k], old(cache.entries), language) + [B.TextItem(item.path, cached.value)];
          PathMapSnoc(Hits(items[..k], old(cache.entries), language), B.TextItem(item.path, cached.value));
          found := found[item.path := cached.value];
        } else {
          assert Hits(items[..k + 1], old(cache.entries), language) == Hits(items[..k], old(cache.entries), language);
          uncached := uncached + [item];
        }
      }
      assert items[..|items|] == items;
    }

    /** The body of the loop over batch results in `translate_uif`. */
    method MergeOutcome(m: map<Path, string>, batch: B.TranslationBatch, outcome: Outcome, language: string)
      returns (m': map<Path, string>)
      modifies cache
      ensures m' == Put(m, Results(batch, outcome))
      ensures cache.entries == Learn(old(cache.entries), Learned(batch, outcome), language)
      ensures cache.hits == old(cache.hits) && cache.misses == old(cache.misses)
    {
      match outcome
      case Failed =>
        m' := MergeFailed(m, batch);
      case Translated(ts) =>
        m' := MergeTranslated(m, batch, ts, language);
    }

    /** A failed batch: every item keeps its original text. */
    static method MergeFailed(m: map<Path, string>, batch: B.TranslationBatch) returns (m': map<Path, string>)
      ensures m' == Put(m, batch.items)
    {
      m' := m;
      for k := 0 to |batch.items|
        invariant m' == Put(m, batch.items[..k])
      {
        PutSnoc(m, batch.items, k);
        var item := batch.items[k];
        m' := m'[item.path := item.text];
      }
      assert batch.items[..|batch.items|] == batch.items;
    }

    /** A translated batch: translation `j` (or, when empty, the original)
        goes to item `j` and into the cache; extra translations are
        ignored. */
    method MergeTranslated(m: map<Path, string>, batch: B.TranslationBatch, ts: seq<string>, language: string)
      returns (m': map<Path, string>)
      modifies cache
      ensures m' == Put(m, Results(batch, Translated(ts)))
      ensures cache.entries == Learn(old(cache.entries), Learned(batch, Translated(ts)), language)
      ensures cache.hits == old(cache.hits) && cache.misses == old(cache.misses)
    {
      ghost var rs, ls := Results(batch, Translated(ts)), Learned(batch, Translated(ts));
      m' := m;
      for j := 0 to |ts|
        invariant m' == Put(m, rs[..Min(j, |batch.items|)])
        invariant cache.entries == Learn(old(cache.entries), ls[..Min(j, |batch.items|)], language)
        invariant cache.hits == old(cache.hits) && cache.misses == old(cache.misses)
      {
        if j < |batch.items| {
          PutSnoc(m, rs, j);
          LearnSnoc(old(cache.entries), ls, language, j);
          var item := batch.items[j];
          var translation := if ts[j] != "" then ts[j] else item.text;
          assert rs[j] == B.TextItem(item.path, translation) && ls[j] == (item.text, translation);
          m' := m'[item.path := translation];
          cache.Set(item.text, language, translation);
        }
      }
      assert rs[..|rs|] == rs && ls[..|ls|] == ls;
    }

    /** `translate_uif`: the document with every collected text replaced
        by its cached translation, its batch's translation, or (failed
        batch, empty translation) itself; new translations are cached. */
    method TranslateUif(doc: UniversalDocument, language: string, service: Service) returns (out: UniversalDocument)
      modifies cache
      ensures var bs := Batched(doc, old(cache.entries), language);
        out == Translation(doc, old(cache.entries), language, Outcomes(bs, service))
        && cache.entries == Learn(old(cache.entries), LearnedAll(bs, Outcomes(bs, service)), language)
      ensures cache.hits == old(cache.hits) + |Hits(TextItems(doc), old(cache.entries), language)|
      ensures cache.misses == old(cache.misses) + |Uncached(TextItems(doc), old(cache.entries), language)|
    {
      var items := CollectTextItems(doc);
      var uncached, found := SplitCached(items, language);
      ghost var entries, hits, misses := cache.entries, cache.hits, cache.misses;
      var batches := B.CreateBatches(uncached, BatchItems, BatchChars);
      var outcomes := TranslateAll(batches, service);
      var merged := MergeAll(found, batches, outcomes, language);
      out := ApplyTranslations(doc, merged);
    }

    /** The loop over batch results in `translate_uif`. */
    method MergeAll(found: map<Path, string>, batches: seq<B.TranslationBatch>, outcomes: seq<Outcome>, language: string)
      returns (merged: map<Path, string>)
      requires |outcomes| == |batches|
      modifies cache
      ensures merged == Put(found, Resolved(batches, outcomes))
      ensures cache.entries == Learn(old(cache.entries), LearnedAll(batches, outcomes), language)
      ensures cache.hits == old(cache.hits) && cache.misses == old(cache.misses)
    {
      merged := found;
      var i := 0;
      while i < |batches|
        invariant i <= |batches|
        invariant merged == Put(found, Resolved(batches[..i], outcomes[..i]))
        invariant cache.entries == Learn(old(cache.entries), LearnedAll(batches[..i], outcomes[..i]), language)
        invariant cache.hits == old(cache.hits) && cache.misses == old(cache.misses)
      {
        var next := i + 1;
        MergeSnoc(found, old(cache.entries), batches, outcomes, i, next, language);
        merged := MergeOutcome(merged, batches[i], outcomes[i], language);
        i := next;
      }
      assert batches[..i] == batches && outcomes[..i] == outcomes;
    }
  }

  // ---------------------------------------------------------------------
  // Folding maps

  lemma SplitSnoc(items: seq<Item>, entries: map<Key, string>, language: string, k: nat)
    requires k < |items|
    ensures Hits(items[..k + 1], entries, language) == Hits(items[..k], entries, language) +
      match Lookup(entries, items[k].text, language)
      case Some(t) => [B.TextItem(items[k].path, t)]
      case None => []
    ensures Uncached(items[..k + 1], entries, language) == Uncached(items[..k], entries, language) +
      if Lookup(entries, items[k].text, language).None? then [items[k]] else []
  {
    assert items[..k + 1][..k] == items[..k];
  }

  lemma PathMapSnoc(items: seq<Item>, y: Item)
    ensures PathMap(items + [y]) == PathMap(items)[y.path := y.text]
  {
    assert (items + [y])[..|items|] == items;
  }

  lemma PutSnoc(m: map<Path, string>, items: seq<Item>, k: nat)
    requires k < |items|
    ensures Put(m, items[..k + 1]) == Put(m, items[..k])[items[k].path := items[k].text]
  {
    assert items[..k + 1][..k] == items[..k];
  }

  lemma LearnSnoc(entries: map<Key, string>, pairs: seq<(string, string)>, language: string, k: nat)
    requires k < |pairs|
    ensures Learn(entries, pairs[..k + 1], language) == Stored(Learn(entries, pairs[..k], language), pairs[k].0, language, pairs[k].1)
  {
    assert pairs[..k + 1][..k] == pairs[..k];
  }

  lemma ResolvedSnoc(bs: seq<B.TranslationBatch>, os: seq<Outcome>, i: nat)
    requires |os| == |bs| && i < |bs|
    ensures Resolved(bs[..i + 1], os[..i + 1]) == Resolved(bs[..i], os[..i]) + Results(bs[i], os[i])
    ensures LearnedAll(bs[..i + 1], os[..i + 1]) == LearnedAll(bs[..i], os[..i]) + Learned(bs[i], os[i])
  {
    assert bs[..i + 1][..i] == bs[..i] && os[..i + 1][..i] == os[..i];
  }

  lemma MergeSnoc(found: map<Path, string>, entries: map<Key, string>, bs: seq<B.TranslationBatch>, os: seq<Outcome>,
                  i: nat, next: nat, language: string)
    requires |os| == |bs| && i < |bs| && next == i + 1
    ensures Put(found, Resolved(bs[..next], os[..next])) == Put(Put(found, Resolved(bs[..i], os[..i])), Results(bs[i], os[i]))
    ensures Learn(entries, LearnedAll(bs[..next], os[..next]), language)
      == Learn(Learn(entries, LearnedAll(bs[..i], os[..i]), language), Learned(bs[i], os[i]), language)
  {
    ResolvedSnoc(bs, os, i);
    PutAppend(found, Resolved(bs[..i], os[..i]), Results(bs[i], os[i]));
    LearnAppend(entries, LearnedAll(bs[..i], os[..i]), Learned(bs[i], os[i]), language);
  }

  lemma {:induction false} PutAppend(m: map<Path, string>, a: seq<Item>, b: seq<Item>)
    ensures Put(m, a + b) == Put(Put(m, a), b)
    decreases |b|
  {
    if b != [] {
      var front := b[..|b| - 1];
      assert (a + b)[..|a + b| - 1] == a + front;
      PutAppend(m, a, front);
    } else {
      assert a + b == a;
    }
  }

  lemma {:induction false} LearnAppend(entries: map<Key, string>, a: seq<(string, string)>, b: seq<(string, string)>, language: string)
    ensures Learn(entries, a + b, language) == Learn(Learn(entries, a, language), b, language)
    decreases |b|
  {
    if b != [] {
      var front := b[..|b| - 1];
      assert (a + b)[..|a + b| - 1] == a + front;
      LearnAppend(entries, a, front, language);
    } else {
      assert a + b == a;
    }
  }

  lemma {:induction false} PutEmpty(items: seq<Item>)
    ensures Put(map[], items) == PathMap(items)
  {
    if items != [] {
      PutEmpty(items[..|items| - 1]);
    }
  }

  /** With distinct paths, each item's text is what the map holds at its
      path. */
  lemma {:induction false} PathMapAt(items: seq<Item>, y: Item)
    requires Distinct(items) && y in items
    ensures y.path in PathMap(items) && PathMap(items)[y.path] == y.text
  {
    var front := items[..|items| - 1];
    var x := items[|items| - 1];
    if y != x {
      assert y in front;
      var k :| 0 <= k < |front| && front[k] == y;
      assert items[k] == y && k < |items| - 1;
      PathMapAt(front, y);
    }
  }

  /** Every pair stored is found again under its original text. */
  lemma {:induction false} LearnFinds(entries: map<Key, string>, pairs: seq<(string, string)>, language: string, k: nat)
    requires k < |pairs|
    ensures Lookup(Learn(entries, pairs, language), pairs[k].0, language).Some?
  {
    var front := pairs[..|pairs| - 1];
    var p := pairs[|pairs| - 1];
    if p.0 != pairs[k].0 {
      LearnFinds(entries, front, language, k);
      SetIndependent(Learn(entries, front, language), p.0, language, p.1, pairs[k].0, language);
    }
  }

  /** Texts and languages not stored keep what the cache had. */
  lemma {:induction false} LearnIndependent(entries: map<Key, string>, pairs: seq<(string, string)>, language: string,
                                            text: string, language': string)
    requires language' != language || forall k :: 0 <= k < |pairs| ==> pairs[k].0 != text
    ensures Lookup(Learn(entries, pairs, language), text, language') == Lookup(entries, text, language')
  {
    if pairs != [] {
      var front := pairs[..|pairs| - 1];
      var p := pairs[|pairs| - 1];
      assert forall k :: 0 <= k < |front| ==> front[k] == pairs[k];
      LearnIndependent(entries, front, language, text, language');
      SetIndependent(Learn(entries, front, language), p.0, language, p.1, text, language');
    }
  }

  // ---------------------------------------------------------------------
  // Batches and their results

  function Paths(items: seq<Item>): (ps: seq<Path>)
    ensures |ps| == |items| && forall k :: 0 <= k < |items| ==> ps[k] == items[k].path
  {
    seq(|items|, k requires 0 <= k < |items| => items[k].path)
  }

  lemma PathsAppend(a: seq<Item>, b: seq<Item>)
    ensures Paths(a + b) == Paths(a) + Paths(b)
  {
    assert forall k :: 0 <= k < |a + b| ==> Paths(a + b)[k] == (Paths(a) + Paths(b))[k];
  }

  lemma DistinctSamePaths(a: seq<Item>, b: seq<Item>)
    requires Paths(a) == Paths(b) && Distinct(a)
    ensures Distinct(b)
  {
    forall i, j | 0 <= i < j < |b| ensures b[i].path != b[j].path
    {
      assert Paths(b)[i] == a[i].path && Paths(b)[j] == a[j].path;
    }
  }

  /** A batch's results keep its items' paths, in order. */
  lemma ResultsAt(b: B.TranslationBatch, o: Outcome, j: nat)
    requires o.Translated? ==> |o.texts| >= |b.items|
    requires j < |b.items|
    ensures |Results(b, o)| == |b.items|
    ensures Results(b, o)[j] == B.TextItem(b.items[j].path, ResultText(o, j, b.items[j].text))
  {
  }

  lemma ResultsPaths(b: B.TranslationBatch, o: Outcome)
    requires o.Translated? ==> |o.texts| >= |b.items|
    ensures Paths(Results(b, o)) == Paths(b.items)
  {
    assert |Results(b, o)| == |b.items|;
    forall j | 0 <= j < |b.items| ensures Paths(Results(b, o))[j] == Paths(b.items)[j]
    {
      ResultsAt(b, o, j);
    }
  }

  lemma CompleteFront(bs: seq<B.TranslationBatch>, os: seq<Outcome>)
    requires Complete(bs, os) && bs != []
    ensures Complete(bs[..|bs| - 1], os[..|os| - 1])
  {
  }

  lemma {:induction false} ResolvedPaths(bs: seq<B.TranslationBatch>, os: seq<Outcome>)
    requires Complete(bs, os)
    ensures Paths(Resolved(bs, os)) == Paths(B.Flatten(bs))
  {
    if bs != [] {
      var n := |bs| - 1;
      CompleteFront(bs, os);
      ResolvedPaths(bs[..n], os[..n]);
      ResultsPaths(bs[n], os[n]);
      PathsAppend(Resolved(bs[..n], os[..n]), Results(bs[n], os[n]));
      PathsAppend(B.Flatten(bs[..n]), bs[n].items);
    }
  }

  lemma {:induction false} ResolvedHolds(bs: seq<B.TranslationBatch>, os: seq<Outcome>, i: nat, y: Item)
    requires |os| == |bs| && i < |bs| && y in Results(bs[i], os[i])
    ensures y in Resolved(bs, os)
  {
    var n := |bs| - 1;
    if i < n {
      assert bs[..n][i] == bs[i] && os[..n][i] == os[i];
      ResolvedHolds(bs[..n], os[..n], i, y);
    }
  }

  lemma {:induction false} ResolvedFailed(bs: seq<B.TranslationBatch>, os: seq<Outcome>)
    requires |os| == |bs| && forall i :: 0 <= i < |os| ==> os[i] == Failed
    ensures Resolved(bs, os) == B.Flatten(bs)
    ensures LearnedAll(bs, os) == []
  {
    if bs != [] {
      var n := |bs| - 1;
      assert forall i :: 0 <= i < n ==> os[..n][i] == os[i];
      ResolvedFailed(bs[..n], os[..n]);
    }
  }

  lemma {:induction false} FlattenFrom(bs: seq<B.TranslationBatch>, x: Item) returns (i: nat, j: nat)
    requires x in B.Flatten(bs)
    ensures i < |bs| && j < |bs[i].items| && bs[i].items[j] == x
  {
    var n := |bs| - 1;
    if x in B.Flatten(bs[..n]) {
      i, j := FlattenFrom(bs[..n], x);
      assert bs[..n][i] == bs[i];
    } else {
      i := n;
      j :| 0 <= j < |bs[n].items| && bs[n].items[j] == x;
    }
  }

  lemma {:induction false} FlattenHolds(bs: seq<B.TranslationBatch>, i: nat, j: nat)
    requires i < |bs| && j < |bs[i].items|
    ensures bs[i].items[j] in B.Flatten(bs)
  {
    var n := |bs| - 1;
    if i < n {
      assert bs[..n][i] == bs[i];
      FlattenHolds(bs[..n], i, j);
    }
  }

  // ---------------------------------------------------------------------
  // What `translate_uif` does to a document

  /** Only items the cache does not know are sent, each of them exactly
      once (in order, in batches within the limits). */
  lemma CachedNeverBatched(doc: UniversalDocument, entries: map<Key, string>, language: string, i: nat, j: nat)
    requires i < |Batched(doc, entries, language)| && j < |Batched(doc, entries, language)[i].items|
    ensures var x := Batched(doc, entries, language)[i].items[j];
      x in TextItems(doc) && Lookup(entries, x.text, language).None?
  {
    var items := TextItems(doc);
    var bs := Batched(doc, entries, language);
    B.BatchesPartition(Uncached(items, entries, language), BatchItems, BatchChars);
    FlattenHolds(bs, i, j);
    var k := UncachedFrom(items, entries, language, bs[i].items[j]);
  }

  lemma UncachedBatched(doc: UniversalDocument, entries: map<Key, string>, language: string, x: Item) returns (i: nat, j: nat)
    requires x in TextItems(doc) && Lookup(entries, x.text, language).None?
    ensures i < |Batched(doc, entries, language)| && j < |Batched(doc, entries, language)[i].items|
    ensures Batched(doc, entries, language)[i].items[j] == x
  {
    var items := TextItems(doc);
    var k :| 0 <= k < |items| && items[k] == x;
    UncachedHolds(items, entries, language, k);
    B.BatchesPartition(Uncached(items, entries, language), BatchItems, BatchChars);
    i, j := FlattenFrom(Batched(doc, entries, language), x);
  }

  /** The merged map is the path map of the hits followed by the batch
      results, whose paths are distinct. */
  lemma MergedDistinct(doc: UniversalDocument, entries: map<Key, string>, language: string, os: seq<Outcome>)
    requires Complete(Batched(doc, entries, language), os)
    ensures var hs, rs := Hits(TextItems(doc), entries, language), Resolved(Batched(doc, entries, language), os);
      Merged(doc, entries, language, os) == PathMap(hs + rs) && Distinct(hs + rs)
  {
    var items := TextItems(doc);
    var bs := Batched(doc, entries, language);
    var hs, us, rs := Hits(items, entries, language), Uncached(items, entries, language), Resolved(bs, os);
    PutEmpty(hs);
    PutAppend(map[], hs, rs);
    PutEmpty(hs + rs);
    CollectedDistinct(doc);
    SplitDistinct(items, entries, language);
    B.BatchesPartition(us, BatchItems, BatchChars);
    ResolvedPaths(bs, os);
    DistinctSamePaths(us, rs);
    forall y: Item, z: Item | y in hs && z in rs ensures y.path != z.path
    {
      var k :| 0 <= k < |rs| && rs[k] == z;
      assert Paths(rs)[k] == Paths(us)[k];
      assert us[k] in us;
    }
    DistinctAppend(hs, rs);
  }

  /** Every path of the merged map is the path of a collected item. */
  lemma MergedKeyFrom(doc: UniversalDocument, entries: map<Key, string>, language: string, os: seq<Outcome>, p: Path)
    returns (x: Item)
    requires Complete(Batched(doc, entries, language), os)
    requires p in Merged(doc, entries, language, os)
    ensures x in TextItems(doc) && x.path == p
  {
    var items := TextItems(doc);
    var bs := Batched(doc, entries, language);
    var hs, us, rs := Hits(items, entries, language), Uncached(items, entries, language), Resolved(bs, os);
    MergedDistinct(doc, entries, language, os);
    PathMapFrom(hs + rs, p);
    var y := B.TextItem(p, PathMap(hs + rs)[p]);
    if y in hs {
      var k := HitsFrom(items, entries, language, y);
      x := items[k];
    } else {
      assert y in rs;
      B.BatchesPartition(us, BatchItems, BatchChars);
      ResolvedPaths(bs, os);
      var k :| 0 <= k < |rs| && rs[k] == y;
      assert Paths(rs)[k] == Paths(us)[k];
      var k2 := UncachedFrom(items, entries, language, us[k]);
      x := us[k];
    }
  }

  lemma MergedWellTyped(doc: UniversalDocument, entries: map<Key, string>, language: string, os: seq<Outcome>)
    requires Complete(Batched(doc, entries, language), os)
    ensures WellTyped(doc, Merged(doc, entries, language, os))
  {
    forall p | p in Merged(doc, entries, language, os) ensures TextAt(doc, p).Some?
    {
      var x := MergedKeyFrom(doc, entries, language, os, p);
      CollectedSound(doc, x);
    }
  }

  /** A text the cache knows becomes its cached translation. */
  lemma CachedText(doc: UniversalDocument, entries: map<Key, string>, language: string, os: seq<Outcome>, x: Item)
    requires Complete(Batched(doc, entries, language), os)
    requires x in TextItems(doc) && Lookup(entries, x.text, language).Some?
    ensures TextAt(Translation(doc, entries, language, os), x.path) == Lookup(entries, x.text, language)
  {
    var items := TextItems(doc);
    var hs, rs := Hits(items, entries, language), Resolved(Batched(doc, entries, language), os);
    var k :| 0 <= k < |items| && items[k] == x;
    HitsHolds(items, entries, language, k);
    MergedDistinct(doc, entries, language, os);
    PathMapAt(hs + rs, B.TextItem(x.path, Lookup(entries, x.text, language).value));
    MergedWellTyped(doc, entries, language, os);
    ApplyAt(doc, Merged(doc, entries, language, os), x.path);
  }

  /** Item `j` of batch `i` becomes its translation, or stays as it was
      when the batch failed or its translation is empty. */
  lemma BatchText(doc: UniversalDocument, entries: map<Key, string>, language: string, os: seq<Outcome>, i: nat, j: nat)
    requires Complete(Batched(doc, entries, language), os)
    requires i < |Batched(doc, entries, language)| && j < |Batched(doc, entries, language)[i].items|
    ensures var x := Batched(doc, entries, language)[i].items[j];
      TextAt(Translation(doc, entries, language, os), x.path) == Some(ResultText(os[i], j, x.text))
  {
    var bs := Batched(doc, entries, language);
    var x := bs[i].items[j];
    var hs, rs := Hits(TextItems(doc), entries, language), Resolved(bs, os);
    ResultsAt(bs[i], os[i], j);
    var y := Results(bs[i], os[i])[j];
    ResolvedHolds(bs, os, i, y);
    MergedDistinct(doc, entries, language, os);
    PathMapAt(hs + rs, y);
    MergedWellTyped(doc, entries, language, os);
    ApplyAt(doc, Merged(doc, entries, language, os), x.path);
  }

  /** Nothing but collected texts changes. */
  lemma Untouched(doc: UniversalDocument, entries: map<Key, string>, language: string, os: seq<Outcome>, p: Path)
    requires Complete(Batched(doc, entries, language), os)
    requires forall x :: x in TextItems(doc) ==> x.path != p
    ensures TextAt(Translation(doc, entries, language, os), p) == TextAt(doc, p)
  {
    if p in Merged(doc, entries, language, os) {
      var x := MergedKeyFrom(doc, entries, language, os, p);
      assert false;
    }
    MergedWellTyped(doc, entries, language, os);
    ApplyAt(doc, Merged(doc, entries, language, os), p);
  }

  lemma NoHits(items: seq<Item>, entries: map<Key, string>, language: string)
    requires forall x :: x in items ==> Lookup(entries, x.text, language).None?
    ensures Hits(items, entries, language) == [] && Uncached(items, entries, language) == items
  {
    forall k | 0 <= k < |items|
      ensures Lookup(entries, items[k].text, language).None?
    {
      assert items[k] in items;
    }
    NoHitsAt(items, entries, language);
  }

  lemma {:induction false} NoHitsAt(items: seq<Item>, entries: map<Key, string>, language: string)
    requires forall k :: 0 <= k < |items| ==> Lookup(entries, items[k].text, language).None?
    ensures Hits(items, entries, language) == [] && Uncached(items, entries, language) == items
  {
    if items != [] {
      var front := items[..|items| - 1];
      var x := items[|items| - 1];
      assert forall k :: 0 <= k < |front| ==> front[k] == items[k];
      NoHitsAt(front, entries, language);
      assert Lookup(entries, x.text, language).None?;
      assert Hits(items, entries, language) == Hits(front, entries, language) + [];
      assert Uncached(items, entries, language) == Uncached(front, entries, language) + [x];
      assert front + [x] == items;
    }
  }

  /** With nothing cached and every batch failed, the document comes back
      exactly as it was, and the cache learns nothing. */
  lemma AllFailedKeepsDocument(doc: UniversalDocument, entries: map<Key, string>, language: string, os: seq<Outcome>)
    requires |os| == |Batched(doc, entries, language)|
    requires forall x :: x in TextItems(doc) ==> Lookup(entries, x.text, language).None?
    requires forall i :: 0 <= i < |os| ==> os[i] == Failed
    ensures Translation(doc, entries, language, os) == doc
    ensures Learn(entries, LearnedAll(Batched(doc, entries, language), os), language) == entries
  {
    var items := TextItems(doc);
    NoHits(items, entries, language);
    B.BatchesPartition(items, BatchItems, BatchChars);
    ResolvedFailed(Batched(doc, entries, language), os);
    PutEmpty(items);
    CollectApplyRoundTrip(doc);
  }

  /** A batch whose every reply was blank writes its originals back, and
      caches each original as its own translation. */
  lemma BlankKeepsOriginals(b: B.TranslationBatch)
    ensures Results(b, Translated(B.Blanks(|b.items|))) == b.items
    ensures Learned(b, Translated(B.Blanks(|b.items|))) ==
      seq(|b.items|, j requires 0 <= j < |b.items| => (b.items[j].text, b.items[j].text))
  {
    var rs := Results(b, Translated(B.Blanks(|b.items|)));
    assert forall j :: 0 <= j < |b.items| ==> rs[j] == b.items[j];
  }
}
