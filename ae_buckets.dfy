/** Adverse events sorted by frequency into the five buckets both consent
    form generators fill: very common, common, uncommon, rare and unknown.
    Each generator classifies one event its own way; this module holds
    the buckets, the loop that fills them and the substring facts the
    classifications turn on. */
module AeBuckets {
  import opened Wrappers
  import opened Text
  import opened PyValue

  datatype Band = VeryCommon | Common | Uncommon | Rare | UnknownBand

  /** The dict `{"very_common": [...], "common": [...], "uncommon": [...],
      "rare": [...], "unknown": [...]}`, one field per key. */
  datatype Buckets = Buckets(
    veryCommon: seq<Value>,
    common: seq<Value>,
    uncommon: seq<Value>,
    rare: seq<Value>,
    unknown: seq<Value>)

  const NoEvents: Buckets := Buckets([], [], [], [], [])

  /** `organized[key]` for the key of a band. */
  function Bucket(b: Buckets, band: Band): seq<Value>
  {
    match band
    case VeryCommon => b.veryCommon
    case Common => b.common
    case Uncommon => b.uncommon
    case Rare => b.rare
    case UnknownBand => b.unknown
  }

  /** `organized[key].append(term)`: that bucket grows by the term and
      no other changes. */
  function Append(b: Buckets, band: Band, term: Value): (r: Buckets)
    ensures Bucket(r, band) == Bucket(b, band) + [term]
    ensures forall other :: other != band ==> Bucket(r, other) == Bucket(b, other)
  {
    match band
    case VeryCommon => b.(veryCommon := b.veryCommon + [term])
    case Common => b.(common := b.common + [term])
    case Uncommon => b.(uncommon := b.uncommon + [term])
    case Rare => b.(rare := b.rare + [term])
    case UnknownBand => b.(unknown := b.unknown + [term])
  }

  /** One classified event: its band and the term listed for it. */
  datatype Filed = Filed(band: Band, term: Value)

  /** The term listed for an event: `ae.get("plain_language") or
      ae.get("term", "")`. */
  function EventTerm(ae: map<string, Value>): Value
  {
    var plain := Get(ae, "plain_language", VNone);
    if Truthy(plain) then plain else Get(ae, "term", VStr(""))
  }

  /** The buckets after appending each classified event in turn. */
  function Sorted(fs: seq<Filed>): Buckets
  {
    if fs == [] then NoEvents
    else Append(Sorted(fs[..|fs| - 1]), fs[|fs| - 1].band, fs[|fs| - 1].term)
  }

  /** The terms of the events of one band, in input order. */
  function TermsIn(fs: seq<Filed>, band: Band): seq<Value>
  {
    if fs == [] then []
    else TermsIn(fs[..|fs| - 1], band) + (if fs[|fs| - 1].band == band then [fs[|fs| - 1].term] else [])
  }

  /** The terms of all events, in input order. */
  function Terms(fs: seq<Filed>): (r: seq<Value>)
    ensures |r| == |fs| && forall k :: 0 <= k < |fs| ==> r[k] == fs[k].term
  {
    seq(|fs|, k requires 0 <= k < |fs| => fs[k].term)
  }

  /** All five buckets, in the order the labels are listed. */
  function AllBuckets(b: Buckets): seq<Value>
  {
    b.veryCommon + b.common + b.uncommon + b.rare + b.unknown
  }

  /** Each bucket holds exactly the terms of its band, in input order. */
  lemma {:induction false} SortedBucket(fs: seq<Filed>, band: Band)
    ensures Bucket(Sorted(fs), band) == TermsIn(fs, band)
  {
    if fs != [] {
      SortedBucket(fs[..|fs| - 1], band);
    }
  }

  /** Every event lands in exactly one bucket: together the buckets hold
      each term as often as the events do, and no more. */
  lemma {:induction false} SortedPartition(fs: seq<Filed>)
    ensures multiset(AllBuckets(Sorted(fs))) == multiset(Terms(fs))
    ensures |AllBuckets(Sorted(fs))| == |fs|
  {
    if fs != [] {
      var front := fs[..|fs| - 1];
      var last := fs[|fs| - 1];
      SortedPartition(front);
      TermsSnoc(fs);
      AppendAll(Sorted(front), last.band, last.term);
    }
  }

  /** The terms of one more event end with its term. */
  lemma TermsSnoc(fs: seq<Filed>)
    requires fs != []
    ensures Terms(fs) == Terms(fs[..|fs| - 1]) + [fs[|fs| - 1].term]
  {
    var front := fs[..|fs| - 1];
    assert forall k :: 0 <= k < |front| ==> Terms(fs)[k] == Terms(front)[k];
  }

  /** Appending to one bucket adds the term once to all of them. */
  lemma AppendAll(b: Buckets, band: Band, term: Value)
    ensures multiset(AllBuckets(Append(b, band, term))) == multiset(AllBuckets(b)) + multiset{term}
    ensures |AllBuckets(Append(b, band, term))| == |AllBuckets(b)| + 1
  {
    var v, c, u, r, n, t := b.veryCommon, b.common, b.uncommon, b.rare, b.unknown, [term];
    match band
    case VeryCommon =>
      ExtendBoth(v + t, v, c, term);
      ExtendBoth(v + t + c, v + c, u, term);
      ExtendBoth(v + t + c + u, v + c + u, r, term);
      ExtendBoth(v + t + c + u + r, v + c + u + r, n, term);
    case Common =>
      InsertInside(v, c, term);
      ExtendBoth(v + (c + t), v + c, u, term);
      ExtendBoth(v + (c + t) + u, v + c + u, r, term);
      ExtendBoth(v + (c + t) + u + r, v + c + u + r, n, term);
    case Uncommon =>
      InsertInside(v + c, u, term);
      ExtendBoth(v + c + (u + t), v + c + u, r, term);
      ExtendBoth(v + c + (u + t) + r, v + c + u + r, n, term);
    case Rare =>
      InsertInside(v + c + u, r, term);
      ExtendBoth(v + c + u + (r + t), v + c + u + r, n, term);
    case UnknownBand =>
      InsertInside(v + c + u + r, n, term);
  }

  /** A term added at the end of an inner bucket is added once. */
  lemma InsertInside<T>(x: seq<T>, c: seq<T>, t: T)
    ensures multiset(x + (c + [t])) == multiset(x + c) + multiset{t}
    ensures |x + (c + [t])| == |x + c| + 1
  {
    assert x + (c + [t]) == (x + c) + [t];
  }

  /** Buckets after the one that grew are shared by both sides. */
  lemma ExtendBoth<T>(p: seq<T>, q: seq<T>, e: seq<T>, t: T)
    requires multiset(p) == multiset(q) + multiset{t} && |p| == |q| + 1
    ensures multiset(p + e) == multiset(q + e) + multiset{t} && |p + e| == |q + e| + 1
  {
  }

  // ---------------------------------------------------------------------
  // The loop over the events

  /** Classifying events in turn: an event is filed or skipped, and the
      first one that raises ends the loop. */
  function Filing(events: seq<Value>, classify: Value -> Result<Option<Filed>, string>): Result<seq<Filed>, string>
  {
    if events == [] then Ok([])
    else
      match Filing(events[..|events| - 1], classify)
      case Err(e) => Err(e)
      case Ok(fs) =>
        match classify(events[|events| - 1])
        case Err(e) => Err(e)
        case Ok(None) => Ok(fs)
        case Ok(Some(f)) => Ok(fs + [f])
  }

  /** The buckets of a filing, or its error. */
  function SortedFiling(r: Result<seq<Filed>, string>): Result<Buckets, string>
  {
    match r
    case Err(e) => Err(e)
    case Ok(fs) => Ok(Sorted(fs))
  }

  /** The loop that classifies each event and appends its term to the
      bucket of its band. */
  method SortEvents(events: seq<Value>, classify: Value -> Result<Option<Filed>, string>)
    returns (r: Result<Buckets, string>)
    ensures r == SortedFiling(Filing(events, classify))
  {
    var organized := NoEvents;
    ghost var filed: seq<Filed> := [];
    for i := 0 to |events|
      invariant Filing(events[..i], classify) == Ok(filed)
      invariant organized == Sorted(filed)
    {
      assert events[..i + 1][..i] == events[..i];
      var c := classify(events[i]);
      if c.Err? {
        FilingPersists(events, i + 1, classify);
        return Err(c.error);
      }
      if c.value.Some? {
        var f := c.value.value;
        organized := Append(organized, f.band, f.term);
        assert (filed + [f])[..|filed|] == filed;
        filed := filed + [f];
      }
    }
    assert events[..|events|] == events;
    r := Ok(organized);
  }

  /** Once a prefix raises, the whole loop raises the same error. */
  lemma {:induction false} FilingPersists(events: seq<Value>, n: nat, classify: Value -> Result<Option<Filed>, string>)
    requires n <= |events| && Filing(events[..n], classify).Err?
    ensures Filing(events, classify) == Filing(events[..n], classify)
    decreases |events| - n
  {
    if n < |events| {
      assert events[..n + 1][..n] == events[..n];
      FilingPersists(events, n + 1, classify);
    } else {
      assert events[..n] == events;
    }
  }

  /** A successful loop over one more event has filed the events before
      it and classified the last one. */
  lemma FilingSnoc(events: seq<Value>, classify: Value -> Result<Option<Filed>, string>)
    requires events != [] && Filing(events, classify).Ok?
    ensures var last := classify(events[|events| - 1]);
      var front := Filing(events[..|events| - 1], classify);
      && front.Ok? && last.Ok?
      && Filing(events, classify).value == front.value + (if last.value.Some? then [last.value.value] else [])
  {
  }

  /** The loop raises exactly when some event's classification does. */
  lemma {:induction false} FilingFailsIff(events: seq<Value>, classify: Value -> Result<Option<Filed>, string>)
    ensures Filing(events, classify).Err? <==> exists k :: 0 <= k < |events| && classify(events[k]).Err?
  {
    if events != [] {
      var front := events[..|events| - 1];
      FilingFailsIff(front, classify);
      assert forall k :: 0 <= k < |front| ==> front[k] == events[k];
    }
  }

  // ---------------------------------------------------------------------
  // Substring facts behind the quirks of the classifications

  /** A text holding `sub` holds every suffix of it. */
  lemma ContainsSuffix(s: string, sub: string, k: nat)
    requires Contains(s, sub) && k <= |sub|
    ensures Contains(s, sub[k..])
  {
    var j :| 0 <= j <= |s| - |sub| && OccursAt(s, sub, j);
    assert s[j + k..j + |sub|] == s[j..j + |sub|][k..];
    assert OccursAt(s, sub[k..], j + k);
  }

  /** A text lacking one character of `sub` does not hold `sub`. */
  lemma MissingChar(s: string, sub: string, i: nat)
    requires i < |sub| && sub[i] !in s
    ensures !Contains(s, sub)
  {
    forall j | 0 <= j <= |s| - |sub| ensures !OccursAt(s, sub, j) {
      assert s[j + i] in s;
      assert s[j..j + |sub|][i] == s[j + i];
    }
  }

  /** Every "uncommon" frequency also passes the test for "common". */
  lemma UncommonHoldsCommon(s: string)
    requires Contains(s, "uncommon")
    ensures Contains(s, "common")
  {
    ContainsSuffix(s, "uncommon", 2);
    assert "uncommon"[2..] == "common";
  }

  /** Every frequency mentioning "1-10%", "1%-10%" or ">10%" also holds
      "10%". */
  lemma RangesHoldTenPercent(s: string)
    ensures Contains(s, "1-10%") ==> Contains(s, "10%")
    ensures Contains(s, "1%-10%") ==> Contains(s, "10%")
    ensures Contains(s, ">10%") ==> Contains(s, "10%")
  {
    if Contains(s, "1-10%") {
      ContainsSuffix(s, "1-10%", 2);
      assert "1-10%"[2..] == "10%";
    }
    if Contains(s, "1%-10%") {
      ContainsSuffix(s, "1%-10%", 3);
      assert "1%-10%"[3..] == "10%";
    }
    if Contains(s, ">10%") {
      ContainsSuffix(s, ">10%", 1);
      assert ">10%"[1..] == "10%";
    }
  }
}
