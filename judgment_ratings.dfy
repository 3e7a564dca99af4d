/**
 * The judgment ratings an experiment evaluates against. A stored judgment
 * holds `judgmentRatings`: per query, a list of `{docId, rating}` pairs.
 * Both the hybrid optimizer and the metrics helper read the first entry
 * for the query text and copy its pairs into one `docId -> rating` map,
 * judgment after judgment, a later pair overwriting an earlier one.
 */
module JudgmentRatings {
  import opened Common

  datatype DocRating = DocRating(docId: string, rating: string)

  /** One `judgmentRatings` entry: its query and its (nullable) ratings list. */
  datatype RatingEntry = RatingEntry(query: Option<string>, ratings: Option<seq<DocRating>>)

  /**
   * A judgment lookup response: its total hit count and the
   * `judgmentRatings` of its first hit (empty when the field is absent).
   */
  datatype JudgmentResponse = JudgmentResponse(totalHits: nat, judgmentRatings: seq<RatingEntry>)

  predicate Matches(entry: RatingEntry, queryText: string)
  {
    entry.query == Some(queryText)
  }

  /** The index of the first entry for `queryText`, if any. */
  function FirstMatch(entries: seq<RatingEntry>, queryText: string): (r: Option<nat>)
    ensures r.Some? ==> r.value < |entries| && Matches(entries[r.value], queryText)
    ensures r.Some? ==> forall j :: 0 <= j < r.value ==> !Matches(entries[j], queryText)
    ensures r.None? <==> forall j :: 0 <= j < |entries| ==> !Matches(entries[j], queryText)
  {
    if entries == [] then None
    else if Matches(entries[0], queryText) then Some(0)
    else
      match FirstMatch(entries[1..], queryText)
      case None => None
      case Some(k) => Some(k + 1)
  }

  // ---------------------------------------------------------------------
  // Copying pairs into the map
  // ---------------------------------------------------------------------

  /** `put(docId, rating)` for each pair in order. */
  function PutAll(m: map<string, string>, ratings: seq<DocRating>): map<string, string>
  {
    if ratings == [] then m
    else
      var last := ratings[|ratings| - 1];
      PutAll(m, ratings[..|ratings| - 1])[last.docId := last.rating]
  }

  /** The index of the last pair for `docId`, if any. */
  function LastFor(ratings: seq<DocRating>, docId: string): (r: Option<nat>)
    ensures r.Some? ==> r.value < |ratings| && ratings[r.value].docId == docId
    ensures r.Some? ==> forall j :: r.value < j < |ratings| ==> ratings[j].docId != docId
    ensures r.None? <==> forall j :: 0 <= j < |ratings| ==> ratings[j].docId != docId
  {
    if ratings == [] then None
    else if ratings[|ratings| - 1].docId == docId then Some(|ratings| - 1)
    else LastFor(ratings[..|ratings| - 1], docId)
  }

  /**
   * After the copy, a doc id holds the rating of its last pair; a doc id
   * without a pair keeps what it had, and nothing else is added.
   */
  lemma {:induction false} PutAllLastWins(m: map<string, string>, ratings: seq<DocRating>, docId: string)
    ensures docId in PutAll(m, ratings) <==> docId in m || LastFor(ratings, docId).Some?
    ensures LastFor(ratings, docId).Some? ==> PutAll(m, ratings)[docId] == ratings[LastFor(ratings, docId).value].rating
    ensures LastFor(ratings, docId).None? && docId in m ==> PutAll(m, ratings)[docId] == m[docId]
  {
    if ratings != [] {
      PutAllLastWins(m, ratings[..|ratings| - 1], docId);
    }
  }

  /** Copying two lists is copying their concatenation. */
  lemma {:induction false} PutAllAppend(m: map<string, string>, a: seq<DocRating>, b: seq<DocRating>)
    ensures PutAll(m, a + b) == PutAll(PutAll(m, a), b)
  {
    if b != [] {
      var front := b[..|b| - 1];
      PutAllAppend(m, a, front);
      assert (a + b)[..|a + b| - 1] == a + front;
      assert (a + b)[|a + b| - 1] == b[|b| - 1];
    } else {
      assert a + b == a;
    }
  }

  // ---------------------------------------------------------------------
  // One judgment, then all of them
  // ---------------------------------------------------------------------

  /**
   * The pairs one judgment contributes for `queryText`: none for a response
   * without hits, without an entry for the query, or whose entry has a null
   * ratings list; otherwise that entry's pairs.
   */
  function Contributed(queryText: string, response: JudgmentResponse): (pairs: seq<DocRating>)
    ensures response.totalHits == 0 ==> pairs == []
    ensures FirstMatch(response.judgmentRatings, queryText).None? ==> pairs == []
  {
    if response.totalHits == 0 then []
    else
      match FirstMatch(response.judgmentRatings, queryText)
      case None => []
      case Some(i) =>
        if response.judgmentRatings[i].ratings.Some? then response.judgmentRatings[i].ratings.value else []
  }

  /** The pairs of every judgment, in judgment-list order. */
  function AllContributed(queryText: string, responses: seq<JudgmentResponse>): seq<DocRating>
  {
    if responses == [] then []
    else AllContributed(queryText, responses[..|responses| - 1]) + Contributed(queryText, responses[|responses| - 1])
  }

  /** The map after reading each judgment in turn into `m`. */
  function MergedScores(queryText: string, responses: seq<JudgmentResponse>, m: map<string, string>): map<string, string>
  {
    if responses == [] then m
    else PutAll(MergedScores(queryText, responses[..|responses| - 1], m), Contributed(queryText, responses[|responses| - 1]))
  }

  /** Merging the judgments one by one is copying all their pairs in list order. */
  lemma {:induction false} MergedIsOneCopy(queryText: string, responses: seq<JudgmentResponse>, m: map<string, string>)
    ensures MergedScores(queryText, responses, m) == PutAll(m, AllContributed(queryText, responses))
  {
    if responses != [] {
      var front := responses[..|responses| - 1];
      MergedIsOneCopy(queryText, front, m);
      PutAllAppend(m, AllContributed(queryText, front), Contributed(queryText, responses[|responses| - 1]));
    }
  }

  /**
   * In the merged map a doc id is rated iff some judgment rates it for the
   * query, and it holds the rating of the last pair for it, a later
   * judgment overriding an earlier one.
   */
  lemma MergedRatingIsLast(queryText: string, responses: seq<JudgmentResponse>, docId: string)
    ensures var all := AllContributed(queryText, responses);
      docId in MergedScores(queryText, responses, map[]) <==> LastFor(all, docId).Some?
    ensures var all := AllContributed(queryText, responses);
      LastFor(all, docId).Some? ==> MergedScores(queryText, responses, map[])[docId] == all[LastFor(all, docId).value].rating
  {
    MergedIsOneCopy(queryText, responses, map[]);
    PutAllLastWins(map[], AllContributed(queryText, responses), docId);
  }

  /** A judgment that contributes nothing leaves the merged map as it was. */
  lemma SilentJudgmentChangesNothing(queryText: string, responses: seq<JudgmentResponse>, silent: JudgmentResponse,
                                     m: map<string, string>)
    requires Contributed(queryText, silent) == []
    ensures MergedScores(queryText, responses + [silent], m) == MergedScores(queryText, responses, m)
  {
    assert (responses + [silent])[..|responses + [silent]| - 1] == responses;
  }
}
