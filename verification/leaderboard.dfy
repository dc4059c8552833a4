/**
 * Leaderboard ordering and ranking: entries are kept in a stable order by
 * score, highest first; ranks are the 1-based positions in that order; a
 * user's standing is derived from the rank of their entry.
 */
module Leaderboards {

  import opened Entities
  import opened Collections

  // ---------------------------------------------------------------------------
  // Stable sort by score, non-increasing
  // ---------------------------------------------------------------------------

  /** Places `e` before the first entry whose score is not above its own. */
  function InsertByScore(e: LeaderboardEntry, sorted: seq<LeaderboardEntry>): (r: seq<LeaderboardEntry>)
    ensures multiset(r) == multiset(sorted) + multiset{e}
    ensures |r| == |sorted| + 1
  {
    if sorted == [] || sorted[0].score <= e.score then [e] + sorted
    else
      assert sorted == [sorted[0]] + sorted[1..];
      [sorted[0]] + InsertByScore(e, sorted[1..])
  }

  /**
   * `entries.sort((a, b) => b.score - a.score)`: a stable sort, here an
   * insertion sort that keeps entries of equal score in their prior order.
   */
  function SortByScore(entries: seq<LeaderboardEntry>): (r: seq<LeaderboardEntry>)
    ensures multiset(r) == multiset(entries)
    ensures |r| == |entries|
  {
    if entries == [] then []
    else
      assert entries == [entries[0]] + entries[1..];
      InsertByScore(entries[0], SortByScore(entries[1..]))
  }

  ghost predicate ScoresNonIncreasing(entries: seq<LeaderboardEntry>) {
    forall i, j :: 0 <= i < j < |entries| ==> entries[i].score >= entries[j].score
  }

  lemma {:induction false} InsertKeepsOrder(e: LeaderboardEntry, sorted: seq<LeaderboardEntry>)
    requires ScoresNonIncreasing(sorted)
    ensures ScoresNonIncreasing(InsertByScore(e, sorted))
  {
    if sorted != [] && sorted[0].score > e.score {
      var rest := InsertByScore(e, sorted[1..]);
      InsertKeepsOrder(e, sorted[1..]);
      forall k | 0 <= k < |rest| ensures sorted[0].score >= rest[k].score {
        assert rest[k] in multiset(rest);
        if rest[k] != e {
          assert rest[k] in multiset(sorted[1..]);
          var m :| 1 <= m < |sorted| && sorted[m] == rest[k];
        }
      }
    }
  }

  /** The sorted entries run from the highest score to the lowest. */
  lemma {:induction false} SortByScoreOrders(entries: seq<LeaderboardEntry>)
    ensures ScoresNonIncreasing(SortByScore(entries))
  {
    if entries != [] {
      SortByScoreOrders(entries[1..]);
      InsertKeepsOrder(entries[0], SortByScore(entries[1..]));
    }
  }

  function ScoreIs(v: int): LeaderboardEntry -> bool {
    (e: LeaderboardEntry) => e.score == v
  }

  lemma {:induction false} InsertKeepsTies(e: LeaderboardEntry, sorted: seq<LeaderboardEntry>, v: int)
    ensures Filter(InsertByScore(e, sorted), ScoreIs(v)) ==
      (if e.score == v then [e] + Filter(sorted, ScoreIs(v)) else Filter(sorted, ScoreIs(v)))
  {
    if sorted == [] || sorted[0].score <= e.score {
      assert ([e] + sorted)[1..] == sorted;
    } else {
      InsertKeepsTies(e, sorted[1..], v);
      assert ([sorted[0]] + InsertByScore(e, sorted[1..]))[1..] == InsertByScore(e, sorted[1..]);
    }
  }

  /**
   * Stability: for every score, the entries holding it appear in the sorted
   * list in the same order as before the sort.
   */
  lemma {:induction false} SortByScoreIsStable(entries: seq<LeaderboardEntry>, v: int)
    ensures Filter(SortByScore(entries), ScoreIs(v)) == Filter(entries, ScoreIs(v))
  {
    if entries != [] {
      SortByScoreIsStable(entries[1..], v);
      InsertKeepsTies(entries[0], SortByScore(entries[1..]), v);
    }
  }

  // ---------------------------------------------------------------------------
  // Ranks
  // ---------------------------------------------------------------------------

  /** The `forEach` that sets every entry's rank to its 1-based position. */
  method AssignRanks(entries: seq<LeaderboardEntry>) returns (ranked: seq<LeaderboardEntry>)
    ensures |ranked| == |entries|
    ensures forall i :: 0 <= i < |ranked| ==> ranked[i] == entries[i].(rank := i + 1)
  {
    ranked := [];
    var i := 0;
    while i < |entries|
      invariant 0 <= i <= |entries|
      invariant |ranked| == i
      invariant forall k :: 0 <= k < i ==> ranked[k] == entries[k].(rank := k + 1)
    {
      ranked := ranked + [entries[i].(rank := i + 1)];
      i := i + 1;
    }
  }

  /** Entries whose ranks are exactly their 1-based positions. */
  ghost predicate RanksArePositions(entries: seq<LeaderboardEntry>) {
    forall i :: 0 <= i < |entries| ==> entries[i].rank == i + 1
  }

  /** A leaderboard as the repository leaves it after every entry update. */
  ghost predicate WellRanked(board: Leaderboard) {
    && RanksArePositions(board.entries)
    && ScoresNonIncreasing(board.entries)
    && board.totalParticipants == |board.entries|
  }

  // ---------------------------------------------------------------------------
  // A user's standing
  // ---------------------------------------------------------------------------

  /**
   * The standing of the first entry of `userId`: users above it, users
   * below it out of the recorded participant count, and the percentile
   * `(total - rank) / total * 100`.
   */
  function RankingOf(board: Leaderboard, userId: string): (r: Result<LeaderboardRanking>)
    ensures r.Failure? <==> forall i :: 0 <= i < |board.entries| ==> board.entries[i].userId != userId
    ensures r.Failure? ==> r.code == NotFound
    ensures r.Success? ==>
      var e := board.entries[FirstIndex(board.entries, EntryUser, userId)];
      var total := board.totalParticipants;
      && r.data.userId == userId
      && r.data.rank == e.rank && r.data.score == e.score
      && r.data.aboveUsers == e.rank - 1 && r.data.belowUsers == total - e.rank
      && (total == 0 <==> r.data.percentile.None?)
      && (total != 0 ==> r.data.percentile.value == ((total - e.rank) as real / total as real) * 100.0)
  {
    match Find(board.entries, EntryUser, userId)
    case None => Failure(NotFound)
    case Some(entry) =>
      var total := board.totalParticipants;
      var percentile :=
        if total == 0 then None
        else Some(((total - entry.rank) as real / total as real) * 100.0);
      Success(LeaderboardRanking(userId, entry.rank, entry.score, percentile,
                                 entry.rank - 1, total - entry.rank))
  }

  /**
   * On a well-ranked board, a listed user's standing counts everyone else
   * exactly once: the users above are those before the entry, the users
   * below those after it, and the percentile lies in [0, 100).
   */
  lemma RankingOnWellRankedBoard(board: Leaderboard, userId: string)
    requires WellRanked(board)
    requires exists i :: 0 <= i < |board.entries| && board.entries[i].userId == userId
    ensures var r := RankingOf(board, userId);
      && r.Success?
      && var i := FirstIndex(board.entries, EntryUser, userId);
      && r.data.rank == i + 1
      && r.data.aboveUsers == i
      && r.data.belowUsers == |board.entries| - 1 - i
      && r.data.score == board.entries[i].score
      && r.data.percentile.Some?
      && r.data.percentile.value == ((|board.entries| - (i + 1)) as real / |board.entries| as real) * 100.0
      && 0.0 <= r.data.percentile.value < 100.0
  {
    var i := FirstIndex(board.entries, EntryUser, userId);
    assert i != -1 by {
      var j :| 0 <= j < |board.entries| && board.entries[j].userId == userId;
      assert EntryUser(board.entries[j]) == userId;
    }
    var n := |board.entries|;
    assert board.entries[i].rank == i + 1 && board.totalParticipants == n;
    assert Find(board.entries, EntryUser, userId) == Some(board.entries[i]);
    var p := ((n - (i + 1)) as real / n as real) * 100.0;
    PercentileBounds(n, i + 1);
    assert RankingOf(board, userId) ==
      Success(LeaderboardRanking(userId, i + 1, board.entries[i].score, Some(p), i, n - (i + 1)));
  }

  /** With 1 <= rank <= total, the percentile `(total - rank) / total * 100` lies in [0, 100). */
  lemma PercentileBounds(total: int, rank: int)
    requires 1 <= rank <= total
    ensures 0.0 <= ((total - rank) as real / total as real) * 100.0 < 100.0
  {
    var q := (total - rank) as real / total as real;
    assert q * total as real == (total - rank) as real;
  }

  // ---------------------------------------------------------------------------
  // Re-ranking after an entry update
  // ---------------------------------------------------------------------------

  /** The entries of a sorted list with their ranks set to their positions. */
  function Ranked(entries: seq<LeaderboardEntry>): seq<LeaderboardEntry>
  {
    seq(|entries|, i requires 0 <= i < |entries| => entries[i].(rank := i + 1))
  }

  /** Ranking a list in score order keeps it in score order and numbers it 1..N. */
  lemma RankedIsWellOrdered(sorted: seq<LeaderboardEntry>)
    requires ScoresNonIncreasing(sorted)
    ensures RanksArePositions(Ranked(sorted))
    ensures ScoresNonIncreasing(Ranked(sorted))
  {
    var rs := Ranked(sorted);
    forall i, j | 0 <= i < j < |rs| ensures rs[i].score >= rs[j].score {
      assert rs[i].score == sorted[i].score && rs[j].score == sorted[j].score;
    }
  }

  /** The entry list an update leaves behind: upsert by id, stable sort by score, re-rank. */
  function Reranked(entries: seq<LeaderboardEntry>, entry: LeaderboardEntry): seq<LeaderboardEntry>
  {
    Ranked(SortByScore(Upsert(entries, EntryId, entry)))
  }

  /**
   * After an update the ranks are exactly 1..N in list order, the scores do
   * not increase along the list, the list has one entry more exactly when
   * the id was new, and the updated entry is in it at the position its rank
   * names.
   */
  lemma RerankedIsWellRanked(entries: seq<LeaderboardEntry>, entry: LeaderboardEntry)
    ensures var rs := Reranked(entries, entry);
      && RanksArePositions(rs)
      && ScoresNonIncreasing(rs)
      && |rs| == (if FirstIndex(entries, EntryId, entry.id) == -1 then |entries| + 1 else |entries|)
      && exists k :: 0 <= k < |rs| && rs[k] == entry.(rank := k + 1)
  {
    var upserted := Upsert(entries, EntryId, entry);
    var sorted := SortByScore(upserted);
    UpsertThenFind(entries, EntryId, entry);
    SortByScoreOrders(upserted);
    RankedIsWellOrdered(sorted);
    assert entry in multiset(upserted);
    assert entry in multiset(sorted);
    var k :| 0 <= k < |sorted| && sorted[k] == entry;
    assert Reranked(entries, entry)[k] == entry.(rank := k + 1);
  }
}
