/** The resolution recommender. A fixed knowledge base of fifteen resolutions is indexed
    once at start-up; a query walks the nearest-neighbour candidates the vector index
    returns, keeps at most three distinct resolutions that pass the optional category
    filter, scores each by its distance, and falls back to a random sample when nothing
    was kept. The encoder and the vector index are foreign: the search result is an input
    sequence of (position, distance) pairs, and the random sample and scores are inputs. */
module Recommend {
  import opened Common

  datatype ResolutionRecord = ResolutionRecord(id: string, text: string, category: Option<string>)

  datatype Recommendation = Recommendation(
    resolutionId: string,
    resolutionText: string,
    similarityScore: real,
    category: Option<string>)

  /** One row of the vector search: a position in the indexed records and its squared
      Euclidean distance to the query. */
  datatype Candidate = Candidate(index: int, distance: real)

  datatype ServiceError = ServiceUnavailable

  /** The number of neighbours requested from the index, and the most recommendations returned. */
  const SearchK: nat := 5
  const MaxRecommendations: nat := 3

  /** The knowledge base, column by column: ids, resolution texts and categories. */
  const MockIds: seq<string> := ["res1", "res2", "res3", "res4", "res5", "res6", "res7", "res8", "res9", "res10", "res11", "res12", "res13", "res14", "res15"]

  const MockTexts: seq<string> := [
    "Reboot the system and check network connectivity.",
    "Clear browser cache and cookies, then try again.",
    "Verify user credentials and reset password.",
    "Update graphics drivers to the latest version.",
    "Check hard drive health using diagnostic tools.",
    "Ensure VPN client is connected and configured correctly.",
    "Grant necessary file permissions to the application directory.",
    "Replace faulty RAM modules.",
    "Review firewall rules for blocked ports.",
    "Escalate to security team for incident investigation.",
    "Instruct user to check spam folder for activation email.",
    "Perform a clean install of the operating system.",
    "Check server load and resource utilization.",
    "Consult the official documentation for setup instructions.",
    "Verify physical cable connections for all devices."
  ]

  const MockCategories: seq<string> := [
    "Network Problem",
    "Software Issue",
    "Account Management",
    "Software Issue",
    "Hardware Failure",
    "Network Problem",
    "Software Issue",
    "Hardware Failure",
    "Network Problem",
    "Security Incident",
    "Account Management",
    "Software Issue",
    "Performance Issue",
    "Documentation Error",
    "Hardware Failure"
  ]

  const MockResolutions: seq<ResolutionRecord> :=
    seq(15, k requires 0 <= k < 15 => ResolutionRecord(MockIds[k], MockTexts[k], Some(MockCategories[k])))

  predicate DistinctRecordIds(rs: seq<ResolutionRecord>)
  {
    forall i, j :: 0 <= i < j < |rs| ==> rs[i].id != rs[j].id
  }

  /** The knowledge base has fifteen records with pairwise distinct ids. */
  lemma MockResolutionsWellFormed()
    ensures |MockResolutions| == 15
    ensures DistinctRecordIds(MockResolutions)
  {
    MockIdsDistinct();
    assert forall k :: 0 <= k < 15 ==> MockResolutions[k].id == MockIds[k];
  }

  /** The fifteen ids differ pairwise: each has its own length and last character. */
  lemma MockIdsDistinct()
    ensures forall i, j :: 0 <= i < j < |MockIds| ==> MockIds[i] != MockIds[j]
  {
    var keys := seq(15, k requires 0 <= k < 15 => IdKey(MockIds[k]));
    assert keys == [449, 450, 451, 452, 453, 454, 455, 456, 457, 548, 549, 550, 551, 552, 553];
  }

  /** The length of an id and its last character, packed into one number. */
  function IdKey(id: string): int
  {
    if id == [] then 0 else |id| * 100 + id[|id| - 1] as int
  }

  // ---------------------------------------------------------------------------
  // Scoring

  /** Similarity of a candidate: max(0, 1 - distance / 2). */
  function Similarity(distance: real): (s: real)
    ensures s >= 0.0
    ensures distance >= 0.0 ==> s <= 1.0
    ensures distance <= 2.0 ==> s == 1.0 - distance / 2.0
    ensures distance >= 2.0 ==> s == 0.0
  {
    if 1.0 - distance / 2.0 > 0.0 then 1.0 - distance / 2.0 else 0.0
  }

  /** A nearer candidate never scores lower. */
  lemma SimilarityMonotone(d1: real, d2: real)
    requires d1 <= d2
    ensures Similarity(d1) >= Similarity(d2)
  {
  }

  // ---------------------------------------------------------------------------
  // The candidate walk

  predicate PassesFilter(filter: Option<string>, r: ResolutionRecord)
  {
    !Truthy(filter) || r.category == Some(filter.value)
  }

  /** The record the walk reads for an index below the metadata length, with Python's
      negative indexing (the walk's guard only tests the upper bound). */
  function RecordAt(meta: seq<ResolutionRecord>, idx: int): ResolutionRecord
    requires -|meta| <= idx < |meta|
  {
    if idx >= 0 then meta[idx] else meta[|meta| + idx]
  }

  /** A candidate the walk would accept if its id had not been seen and fewer than three
      were accepted: its index is in range and its record passes the filter. */
  predicate Eligible(meta: seq<ResolutionRecord>, c: Candidate, filter: Option<string>)
  {
    -|meta| <= c.index < |meta| && PassesFilter(filter, RecordAt(meta, c.index))
  }

  function ToRecommendation(r: ResolutionRecord, score: real): Recommendation
  {
    Recommendation(r.id, r.text, score, r.category)
  }

  function IdsOf(recs: seq<Recommendation>): set<string>
  {
    set k | 0 <= k < |recs| :: recs[k].resolutionId
  }

  lemma IdsOfSnoc(recs: seq<Recommendation>, r: Recommendation)
    ensures IdsOf(recs + [r]) == IdsOf(recs) + {r.resolutionId}
  {
    var ext := recs + [r];
    assert forall k :: 0 <= k < |recs| ==> ext[k] == recs[k];
    assert ext[|recs|] == r;
  }

  predicate DistinctRecommendationIds(recs: seq<Recommendation>)
  {
    forall i, j :: 0 <= i < j < |recs| ==> recs[i].resolutionId != recs[j].resolutionId
  }

  predicate AscendingDistances(cands: seq<Candidate>)
  {
    forall i, j :: 0 <= i < j < |cands| ==> cands[i].distance <= cands[j].distance
  }

  predicate NonNegativeDistances(cands: seq<Candidate>)
  {
    forall i :: 0 <= i < |cands| ==> cands[i].distance >= 0.0
  }

  /** `positions` are strictly increasing candidate positions, and recommendation k is the
      record at candidate positions[k] scored by that candidate's distance. */
  predicate DrawnInOrder(meta: seq<ResolutionRecord>, cands: seq<Candidate>,
                         recs: seq<Recommendation>, positions: seq<nat>)
  {
    && |positions| == |recs|
    && (forall k :: 0 <= k < |positions| ==> positions[k] < |cands|)
    && (forall k, l :: 0 <= k < l < |positions| ==> positions[k] < positions[l])
    && (forall k :: 0 <= k < |positions| ==>
          -|meta| <= cands[positions[k]].index < |meta|
          && recs[k] == ToRecommendation(RecordAt(meta, cands[positions[k]].index),
                                         Similarity(cands[positions[k]].distance)))
  }

  /** Each recommendation comes from the first eligible candidate naming its record: no
      earlier eligible candidate names the same id. */
  predicate FirstOccurrences(meta: seq<ResolutionRecord>, cands: seq<Candidate>, filter: Option<string>,
                             recs: seq<Recommendation>, positions: seq<nat>)
    requires |positions| == |recs|
    requires forall k :: 0 <= k < |positions| ==> positions[k] < |cands|
  {
    forall k, j :: 0 <= k < |positions| && 0 <= j < positions[k] && Eligible(meta, cands[j], filter) ==>
      RecordAt(meta, cands[j].index).id != recs[k].resolutionId
  }

  /** What holds after the walk has looked at the first `i` candidates. */
  ghost predicate WalkInvariant(meta: seq<ResolutionRecord>, cands: seq<Candidate>, filter: Option<string>,
                                i: nat, recs: seq<Recommendation>, positions: seq<nat>)
  {
    && i <= |cands|
    && |recs| <= MaxRecommendations
    && DistinctRecommendationIds(recs)
    && DrawnInOrder(meta, cands, recs, positions)
    && FirstOccurrences(meta, cands, filter, recs, positions)
    && (forall k :: 0 <= k < |positions| ==> positions[k] < i)
    && (forall k :: 0 <= k < |positions| ==> PassesFilter(filter, RecordAt(meta, cands[positions[k]].index)))
    && (forall j :: 0 <= j < i && Eligible(meta, cands[j], filter) ==> RecordAt(meta, cands[j].index).id in IdsOf(recs))
  }

  /** When the walk stops, at the end of the candidates or with three kept, its result has
      the promised properties. */
  lemma WalkDone(meta: seq<ResolutionRecord>, cands: seq<Candidate>, filter: Option<string>,
                 i: nat, recs: seq<Recommendation>, positions: seq<nat>)
    requires WalkInvariant(meta, cands, filter, i, recs, positions)
    requires i == |cands| || |recs| >= MaxRecommendations
    ensures |recs| <= MaxRecommendations
    ensures DistinctRecommendationIds(recs)
    ensures Truthy(filter) ==> forall k :: 0 <= k < |recs| ==> recs[k].category == Some(filter.value)
    ensures DrawnInOrder(meta, cands, recs, positions)
    ensures FirstOccurrences(meta, cands, filter, recs, positions)
    // greedy: every eligible candidate up to the last one kept (all of them, when fewer
    // than three were kept) is represented by its id
    ensures forall j :: 0 <= j < |cands| && Eligible(meta, cands[j], filter)
              && (|recs| < MaxRecommendations || j <= positions[|recs| - 1])
              ==> RecordAt(meta, cands[j].index).id in IdsOf(recs)
    ensures recs == [] <==> forall j :: 0 <= j < |cands| ==> !Eligible(meta, cands[j], filter)
  {
    if recs != [] {
      assert Eligible(meta, cands[positions[0]], filter);
    }
  }

  /** Skipping a candidate that is out of range, filtered out or already represented. */
  lemma WalkSkip(meta: seq<ResolutionRecord>, cands: seq<Candidate>, filter: Option<string>,
                 i: nat, recs: seq<Recommendation>, positions: seq<nat>)
    requires WalkInvariant(meta, cands, filter, i, recs, positions)
    requires i < |cands|
    requires Eligible(meta, cands[i], filter) ==> RecordAt(meta, cands[i].index).id in IdsOf(recs)
    ensures WalkInvariant(meta, cands, filter, i + 1, recs, positions)
  {
  }

  /** Keeping an eligible candidate whose id is new. */
  lemma WalkAccept(meta: seq<ResolutionRecord>, cands: seq<Candidate>, filter: Option<string>,
                   i: nat, recs: seq<Recommendation>, positions: seq<nat>)
    requires WalkInvariant(meta, cands, filter, i, recs, positions)
    requires i < |cands| && |recs| < MaxRecommendations
    requires Eligible(meta, cands[i], filter)
    requires RecordAt(meta, cands[i].index).id !in IdsOf(recs)
    ensures WalkInvariant(meta, cands, filter, i + 1,
                          recs + [ToRecommendation(RecordAt(meta, cands[i].index), Similarity(cands[i].distance))],
                          positions + [i])
  {
    var rec := ToRecommendation(RecordAt(meta, cands[i].index), Similarity(cands[i].distance));
    IdsOfSnoc(recs, rec);
    forall k | 0 <= k < |recs| ensures recs[k].resolutionId != rec.resolutionId {
      assert recs[k].resolutionId in IdsOf(recs);
    }
  }

  /** The primary path: walks the candidates in order, skipping out-of-range positions,
      ids already recommended and records outside the category filter, and stops once
      three are kept. `positions` (ghost) records which candidate each came from. */
  method SelectRecommendations(meta: seq<ResolutionRecord>, cands: seq<Candidate>, filter: Option<string>)
    returns (recs: seq<Recommendation>, ghost positions: seq<nat>)
    requires forall k :: 0 <= k < |cands| ==> cands[k].index >= -|meta|
    ensures |recs| <= MaxRecommendations
    ensures DistinctRecommendationIds(recs)
    ensures Truthy(filter) ==> forall k :: 0 <= k < |recs| ==> recs[k].category == Some(filter.value)
    ensures DrawnInOrder(meta, cands, recs, positions)
    ensures FirstOccurrences(meta, cands, filter, recs, positions)
    // greedy: every eligible candidate up to the last one kept (all of them, when fewer
    // than three were kept) is represented by its id
    ensures forall j :: 0 <= j < |cands| && Eligible(meta, cands[j], filter)
              && (|recs| < MaxRecommendations || j <= positions[|recs| - 1])
              ==> RecordAt(meta, cands[j].index).id in IdsOf(recs)
    ensures recs == [] <==> forall j :: 0 <= j < |cands| ==> !Eligible(meta, cands[j], filter)
  {
    recs := [];
    positions := [];
    var seenIds: set<string> := {};
    var i := 0;
    while i < |cands|
      invariant WalkInvariant(meta, cands, filter, i, recs, positions)
      invariant seenIds == IdsOf(recs)
    {
      if |recs| >= MaxRecommendations {
        break;
      }
      var c := cands[i];
      if c.index >= |meta| {
        WalkSkip(meta, cands, filter, i, recs, positions);
        i := i + 1;
        continue;
      }
      var r := RecordAt(meta, c.index);
      if r.id in seenIds {
        WalkSkip(meta, cands, filter, i, recs, positions);
        i := i + 1;
        continue;
      }
      if Truthy(filter) && r.category != Some(filter.value) {
        WalkSkip(meta, cands, filter, i, recs, positions);
        i := i + 1;
        continue;
      }
      var rec := ToRecommendation(r, Similarity(c.distance));
      WalkAccept(meta, cands, filter, i, recs, positions);
      IdsOfSnoc(recs, rec);
      recs := recs + [rec];
      positions := positions + [i];
      seenIds := seenIds + {r.id};
      i := i + 1;
    }
    WalkDone(meta, cands, filter, i, recs, positions);
  }

  /** With non-negative distances every kept score lies in [0, 1]. */
  lemma ScoresWithinUnit(meta: seq<ResolutionRecord>, cands: seq<Candidate>,
                         recs: seq<Recommendation>, positions: seq<nat>)
    requires DrawnInOrder(meta, cands, recs, positions)
    requires NonNegativeDistances(cands)
    ensures forall k :: 0 <= k < |recs| ==> 0.0 <= recs[k].similarityScore <= 1.0
  {
    forall k | 0 <= k < |recs| ensures 0.0 <= recs[k].similarityScore <= 1.0 {
      assert cands[positions[k]].distance >= 0.0;
    }
  }

  /** Candidates come nearest first, so kept scores never increase along the result. */
  lemma ScoresNonIncreasing(meta: seq<ResolutionRecord>, cands: seq<Candidate>,
                            recs: seq<Recommendation>, positions: seq<nat>)
    requires DrawnInOrder(meta, cands, recs, positions)
    requires AscendingDistances(cands)
    ensures forall k, l :: 0 <= k < l < |recs| ==> recs[k].similarityScore >= recs[l].similarityScore
  {
    forall k, l | 0 <= k < l < |recs| ensures recs[k].similarityScore >= recs[l].similarityScore {
      SimilarityMonotone(cands[positions[k]].distance, cands[positions[l]].distance);
    }
  }

  // ---------------------------------------------------------------------------
  // The random fallback

  function Min(a: nat, b: nat): nat { if a < b then a else b }

  /** What `random.sample(data, min(3, len(data)))` may return: that many distinct positions of `data`. */
  predicate SamplePositions(data: seq<ResolutionRecord>, picks: seq<nat>)
  {
    && |picks| == Min(MaxRecommendations, |data|)
    && (forall k :: 0 <= k < |picks| ==> picks[k] < |data|)
    && (forall k, l :: 0 <= k < l < |picks| ==> picks[k] != picks[l])
  }

  /** What the fallback's `random.uniform(0.3, 0.6)` draws may be, one per pick. */
  predicate FallbackScores(scores: seq<real>, n: nat)
  {
    |scores| == n && forall k :: 0 <= k < n ==> 0.3 <= scores[k] <= 0.6
  }

  function Fallback(data: seq<ResolutionRecord>, picks: seq<nat>, scores: seq<real>): (recs: seq<Recommendation>)
    requires SamplePositions(data, picks)
    requires FallbackScores(scores, |picks|)
    ensures |recs| == Min(MaxRecommendations, |data|)
    ensures forall k :: 0 <= k < |recs| ==> 0.3 <= recs[k].similarityScore <= 0.6
    ensures forall k :: 0 <= k < |recs| ==> recs[k] == ToRecommendation(data[picks[k]], scores[k])
    ensures DistinctRecordIds(data) ==> DistinctRecommendationIds(recs)
  {
    seq(|picks|, k requires 0 <= k < |picks| => ToRecommendation(data[picks[k]], scores[k]))
  }

  // ---------------------------------------------------------------------------
  // The service: module state set up at import time, and the query endpoint

  function TextsOf(rs: seq<ResolutionRecord>): (texts: seq<string>)
    ensures |texts| == |rs|
    ensures forall k :: 0 <= k < |rs| ==> texts[k] == rs[k].text
  {
    seq(|rs|, k requires 0 <= k < |rs| => rs[k].text)
  }

  class RecommendationService {
    /** Whether the sentence encoder loaded at import time. */
    const encoderLoaded: bool
    /** Whether the vector index exists, and how many vectors it holds. */
    var indexBuilt: bool
    var indexedCount: nat
    var resolutionTexts: seq<string>
    var resolutionMetadata: seq<ResolutionRecord>

    /** Texts, metadata and indexed vectors stay aligned, and an index only exists
        once the encoder has produced its vectors from the knowledge base. */
    ghost predicate Valid()
      reads this
    {
      indexBuilt ==>
        && encoderLoaded
        && resolutionMetadata == MockResolutions
        && resolutionTexts == TextsOf(MockResolutions)
        && indexedCount == |resolutionTexts| == |resolutionMetadata|
    }

    /** Import of the module: empty state, then the index is built unless the
        SKIP_AI_INIT setting reads "true" in any letter case. */
    constructor (encoderLoaded: bool, skipAiInit: string)
      ensures Valid()
      ensures this.encoderLoaded == encoderLoaded
      ensures indexBuilt <==> encoderLoaded && AsciiLower(skipAiInit) != "true"
    {
      this.encoderLoaded := encoderLoaded;
      indexBuilt := false;
      indexedCount := 0;
      resolutionTexts := [];
      resolutionMetadata := [];
      new;
      if AsciiLower(skipAiInit) != "true" {
        InitializeFaissIndex();
      }
    }

    /** Builds the index over the knowledge base; does nothing without an encoder. */
    method InitializeFaissIndex()
      requires Valid()
      modifies this
      ensures Valid()
      ensures !encoderLoaded ==> indexBuilt == old(indexBuilt) && indexedCount == old(indexedCount)
                                 && resolutionTexts == old(resolutionTexts)
                                 && resolutionMetadata == old(resolutionMetadata)
      ensures encoderLoaded ==> indexBuilt && |resolutionTexts| == |resolutionMetadata| == indexedCount == 15
    {
      if !encoderLoaded {
        return;
      }
      resolutionTexts := TextsOf(MockResolutions);
      resolutionMetadata := MockResolutions;
      indexedCount := |resolutionTexts|;
      indexBuilt := true;
    }

    /** The recommendation query. `cands` is the index's answer for the encoded
        description; `picks` and `scores` are the fallback's random draws. When some
        candidate is eligible the answer is the walk's, drawn from the candidates in order
        (`positions`, ghost, says from which); only when none is does the random sample answer. */
    method RecommendResolution(cands: seq<Candidate>, filter: Option<string>, picks: seq<nat>, scores: seq<real>)
      returns (r: Result<seq<Recommendation>, ServiceError>, ghost positions: seq<nat>)
      requires Valid()
      requires |cands| == SearchK && forall k :: 0 <= k < |cands| ==> cands[k].index >= -1
      requires SamplePositions(MockResolutions, picks) && FallbackScores(scores, |picks|)
      ensures r.Err? <==> !indexBuilt || !encoderLoaded
      ensures r.Ok? ==> 0 < |r.value| <= MaxRecommendations
      ensures r.Ok? ==> DistinctRecommendationIds(r.value)
      ensures r.Ok? && (forall j :: 0 <= j < |cands| ==> !Eligible(MockResolutions, cands[j], filter)) ==>
                r.value == Fallback(MockResolutions, picks, scores)
      ensures r.Ok? && (exists j :: 0 <= j < |cands| && Eligible(MockResolutions, cands[j], filter)) ==>
                && DrawnInOrder(MockResolutions, cands, r.value, positions)
                && FirstOccurrences(MockResolutions, cands, filter, r.value, positions)
                && (Truthy(filter) ==> forall k :: 0 <= k < |r.value| ==> r.value[k].category == Some(filter.value))
                && (forall j :: 0 <= j < |cands| && Eligible(MockResolutions, cands[j], filter)
                      && (|r.value| < MaxRecommendations || j <= positions[|r.value| - 1])
                      ==> RecordAt(MockResolutions, cands[j].index).id in IdsOf(r.value))
                && (NonNegativeDistances(cands) ==> forall k :: 0 <= k < |r.value| ==> 0.0 <= r.value[k].similarityScore <= 1.0)
    {
      positions := [];
      if !indexBuilt || !encoderLoaded {
        return Err(ServiceUnavailable), positions;
      }
      var recs;
      recs, positions := SelectRecommendations(resolutionMetadata, cands, filter);
      if recs == [] {
        MockResolutionsWellFormed();
        recs := Fallback(MockResolutions, picks, scores);
      } else if NonNegativeDistances(cands) {
        ScoresWithinUnit(MockResolutions, cands, recs, positions);
      }
      r := Ok(recs);
    }
  }
}
