/**
 * The storage-backed gamification repository. Every record family of a
 * user (or every leaderboard) is one blob in a key-value storage; each
 * operation loads a blob, changes it and writes the whole blob back. The
 * storage is the map `storage`; which keys cannot be read or written is
 * fixed per repository by `unreadable` and `unwritable`.
 */
module Repository {

  import opened Entities
  import opened Collections
  import opened Points
  import opened Progression
  import opened Leaderboards

  /** The storage key: the kind of record family plus the user (or leaderboard) id. */
  datatype StorageKey =
    | AchievementsKey(userId: string)
    | PointTransactionsKey(userId: string)
    | LevelKey(userId: string)
    | StreaksKey(userId: string)
    | LeaderboardKey(leaderboardId: string)
    | RewardsKey(userId: string)
    | ProgressKey(userId: string)

  /** A stored blob, already decoded to the records it holds. */
  datatype Blob =
    | AchievementList(achievements: seq<Achievement>)
    | TransactionList(transactions: seq<PointTransaction>)
    | LevelRecord(level: Level)
    | StreakList(streaks: seq<Streak>)
    | LeaderboardRecord(leaderboard: Leaderboard)
    | RewardList(rewards: seq<Reward>)
    | ProgressList(records: seq<Progress>)

  /** What the storage holds under a key, if anything. */
  function Stored(storage: map<StorageKey, Blob>, key: StorageKey): Option<Blob>
  {
    if key in storage then Some(storage[key]) else None
  }

  /** Two storages that hold the same under every key outside `keys`. */
  ghost predicate SameExcept(before: map<StorageKey, Blob>, after: map<StorageKey, Blob>, keys: set<StorageKey>)
  {
    forall k :: k !in keys ==> Stored(after, k) == Stored(before, k)
  }

  /** Forgets the data of a result, keeping success or the error code. */
  function Outcome<T>(r: Result<T>): Result<()>
  {
    match r
    case Success(_) => Success(())
    case Failure(code) => Failure(code)
  }

  /** A predicate selecting the progress records of one metric. */
  function MetricIs(metric: string): Progress -> bool
  {
    (p: Progress) => p.metric == metric
  }

  class StorageGamificationRepository {

    var storage: map<StorageKey, Blob>
    const unreadable: set<StorageKey>
    const unwritable: set<StorageKey>

    constructor (initial: map<StorageKey, Blob>, unreadable: set<StorageKey>, unwritable: set<StorageKey>)
      ensures storage == initial
      ensures this.unreadable == unreadable && this.unwritable == unwritable
    {
      storage := initial;
      this.unreadable := unreadable;
      this.unwritable := unwritable;
    }

    // -------------------------------------------------------------------------
    // Storage access (loadJson / saveJson)
    // -------------------------------------------------------------------------

    /**
     * A write of `blob` under `key`: it replaces that one key and succeeds, or,
     * when the key cannot be written, fails with SAVE_FAILED and changes nothing.
     */
    twostate predicate Written(key: StorageKey, blob: Blob, new out: Result<()>)
      reads this
    {
      if key in unwritable then out == Failure(SaveFailed) && storage == old(storage)
      else out == Success(()) && storage == old(storage)[key := blob]
    }

    method SaveJson(key: StorageKey, blob: Blob) returns (r: Result<()>)
      modifies this
      ensures Written(key, blob, r)
    {
      if key in unwritable {
        return Failure(SaveFailed);
      }
      storage := storage[key := blob];
      return Success(());
    }

    // -------------------------------------------------------------------------
    // Achievements
    // -------------------------------------------------------------------------

    /**
     * A user's achievements; none stored reads as the empty list. A key that
     * cannot be read, or holds something other than achievements, fails with
     * LOAD_FAILED.
     */
    function LoadAchievements(userId: string): (r: Result<seq<Achievement>>)
      reads this
      ensures r.Failure? ==> r.code == LoadFailed
      ensures AchievementsKey(userId) !in unreadable && AchievementsKey(userId) !in storage ==> r == Success([])
      ensures AchievementsKey(userId) in unreadable ==> r.Failure?
      ensures AchievementsKey(userId) !in unreadable && AchievementsKey(userId) in storage ==>
        (r.Success? <==> storage[AchievementsKey(userId)].AchievementList?) && (r.Success? ==> r.data == storage[AchievementsKey(userId)].achievements)
    {
      var key := AchievementsKey(userId);
      if key in unreadable then Failure(LoadFailed)
      else if key !in storage then Success([])
      else match storage[key]
        case AchievementList(xs) => Success(xs)
        case _ => Failure(LoadFailed)
    }

    /** An empty list is not written; any other list is written under its first record's user. */
    method SaveAchievements(achievements: seq<Achievement>) returns (r: Result<()>)
      modifies this
      ensures achievements == [] ==> r == Success(()) && storage == old(storage)
      ensures achievements != [] ==>
        Written(AchievementsKey(achievements[0].userId), AchievementList(achievements), r)
    {
      if achievements == [] {
        return Success(());
      }
      r := SaveJson(AchievementsKey(achievements[0].userId), AchievementList(achievements));
    }

    /** The first stored achievement with the id, or NOT_FOUND. */
    function GetAchievementById(userId: string, achievementId: string): (r: Result<Achievement>)
      reads this
      ensures LoadAchievements(userId).Failure? ==> r == Failure(LoadFailed)
      ensures LoadAchievements(userId).Success? ==>
        var xs := LoadAchievements(userId).data;
        && (r.Failure? <==> forall j :: 0 <= j < |xs| ==> xs[j].id != achievementId)
        && (r.Failure? ==> r.code == NotFound)
        && (r.Success? ==> r.data in xs && r.data.id == achievementId)
        && (r.Success? ==> r.data == xs[FirstIndex(xs, AchievementId, achievementId)])
    {
      match LoadAchievements(userId)
      case Failure(code) => Failure(code)
      case Success(xs) =>
        match Find(xs, AchievementId, achievementId)
        case None => Failure(NotFound)
        case Some(a) => Success(a)
    }

    /**
     * Sets the progress of one achievement (and its update date) and writes
     * the list back; the unlocked flag and every other achievement stay as
     * they were.
     */
    method UpdateAchievementProgress(userId: string, achievementId: string, progress: int, now: Timestamp)
      returns (r: Result<Achievement>)
      modifies this
      ensures old(LoadAchievements(userId)).Failure? ==> r == Failure(LoadFailed) && storage == old(storage)
      ensures old(LoadAchievements(userId)).Success? ==>
        var xs := old(LoadAchievements(userId)).data;
        var i := FirstIndex(xs, AchievementId, achievementId);
        if i == -1 then r == Failure(NotFound) && storage == old(storage)
        else
          var ys := xs[i := xs[i].(progress := progress, updatedDate := now)];
          && Written(AchievementsKey(xs[0].userId), AchievementList(ys), Outcome(r))
          && (r.Success? ==> r.data == ys[i] && !(r.data.unlocked && !xs[i].unlocked))
    {
      var loaded := LoadAchievements(userId);
      if loaded.Failure? {
        return Failure(loaded.code);
      }
      var achievements := loaded.data;
      var index := FirstIndex(achievements, AchievementId, achievementId);
      if index == -1 {
        return Failure(NotFound);
      }
      achievements := achievements[index := achievements[index].(progress := progress, updatedDate := now)];
      var saved := SaveAchievements(achievements);
      if saved.Failure? {
        return Failure(saved.code);
      }
      return Success(achievements[index]);
    }

    /**
     * Unlocks one achievement: unlocked, stamped, and its progress forced to
     * its requirement; every other achievement stays as it was.
     */
    method UnlockAchievement(userId: string, achievementId: string, now: Timestamp)
      returns (r: Result<Achievement>)
      modifies this
      ensures old(LoadAchievements(userId)).Failure? ==> r == Failure(LoadFailed) && storage == old(storage)
      ensures old(LoadAchievements(userId)).Success? ==>
        var xs := old(LoadAchievements(userId)).data;
        var i := FirstIndex(xs, AchievementId, achievementId);
        if i == -1 then r == Failure(NotFound) && storage == old(storage)
        else
          var ys := xs[i := Unlocked(xs[i], now)];
          && Written(AchievementsKey(xs[0].userId), AchievementList(ys), Outcome(r))
          && (r.Success? ==> r.data == ys[i] && r.data.unlocked && r.data.progress == r.data.requirement)
    {
      var loaded := LoadAchievements(userId);
      if loaded.Failure? {
        return Failure(loaded.code);
      }
      var achievements := loaded.data;
      var index := FirstIndex(achievements, AchievementId, achievementId);
      if index == -1 {
        return Failure(NotFound);
      }
      achievements := achievements[index := Unlocked(achievements[index], now)];
      var saved := SaveAchievements(achievements);
      if saved.Failure? {
        return Failure(saved.code);
      }
      return Success(achievements[index]);
    }

    // -------------------------------------------------------------------------
    // Points
    // -------------------------------------------------------------------------

    /** The whole stored transaction log of a user, newest first. */
    function LoadLog(userId: string): (r: Result<seq<PointTransaction>>)
      reads this
      ensures r.Failure? ==> r.code == LoadFailed
      ensures PointTransactionsKey(userId) !in unreadable && PointTransactionsKey(userId) !in storage ==> r == Success([])
      ensures PointTransactionsKey(userId) in unreadable ==> r.Failure?
      ensures PointTransactionsKey(userId) !in unreadable && PointTransactionsKey(userId) in storage ==>
        (r.Success? <==> storage[PointTransactionsKey(userId)].TransactionList?) && (r.Success? ==> r.data == storage[PointTransactionsKey(userId)].transactions)
    {
      var key := PointTransactionsKey(userId);
      if key in unreadable then Failure(LoadFailed)
      else if key !in storage then Success([])
      else match storage[key]
        case TransactionList(txs) => Success(txs)
        case _ => Failure(LoadFailed)
    }

    /**
     * The log, cut by `slice(0, limit)` when the limit is truthy: a positive
     * limit keeps the newest `limit` transactions.
     */
    function LoadPointTransactions(userId: string, limit: Option<int>): (r: Result<seq<PointTransaction>>)
      reads this
      ensures r.Success? <==> LoadLog(userId).Success?
      ensures r.Failure? ==> r.code == LoadFailed
      ensures r.Success? && !TruthyNumber(limit) ==> r.data == LoadLog(userId).data
      ensures r.Success? && limit.Some? && limit.value > 0 ==>
        var txs := LoadLog(userId).data;
        r.data == txs[..if limit.value < |txs| then limit.value else |txs|]
      ensures r.Success? && TruthyNumber(limit) ==>
        var txs := LoadLog(userId).data;
        r.data == txs[..SliceIndex(limit.value, |txs|)]
    {
      match LoadLog(userId)
      case Failure(code) => Failure(code)
      case Success(txs) => Success(if TruthyNumber(limit) then Slice(txs, 0, limit.value) else txs)
    }

    /**
     * The balance derived from the log: the sum of all amounts, the sums per
     * truthy category, and the date of the newest transaction.
     */
    method LoadPointBalance(userId: string, now: Timestamp) returns (r: Result<PointBalance>)
      ensures LoadLog(userId).Failure? ==> r == Failure(LoadFailed)
      ensures LoadLog(userId).Success? ==>
        var txs := LoadLog(userId).data;
        && r.Success?
        && r.data.userId == userId
        && r.data.total == Total(txs)
        && (forall c :: c in r.data.byCategory <==> exists i :: 0 <= i < |txs| && InCategory(txs[i], c))
        && (forall c :: c in r.data.byCategory ==> r.data.byCategory[c] == CategorySum(txs, c))
        && r.data == BalanceOf(userId, txs, now)
    {
      var loaded := LoadPointTransactions(userId, None);
      if loaded.Failure? {
        return Failure(loaded.code);
      }
      var txs := loaded.data;
      var total := Total(txs);
      var byCategory: map<string, int> := map[];
      var i := 0;
      while i < |txs|
        invariant 0 <= i <= |txs|
        invariant byCategory == CategoryTotals(txs[..i])
      {
        assert txs[..i + 1][..i] == txs[..i];
        byCategory := AddToCategory(byCategory, txs[i]);
        i := i + 1;
      }
      assert txs[..|txs|] == txs;
      forall c ensures (c in byCategory <==> exists i :: 0 <= i < |txs| && InCategory(txs[i], c))
        && (c in byCategory ==> byCategory[c] == CategorySum(txs, c))
      {
        CategoryTotalsMeaning(txs, c);
      }
      var lastUpdated := if txs != [] then txs[0].createdDate else now;
      return Success(PointBalance(userId, total, byCategory, lastUpdated));
    }

    /**
     * Prepends one transaction whose balance is the prior total plus the
     * amount; the older transactions stay, unchanged and in order.
     */
    method AddPoints(userId: string, amount: int, source: string, sourceId: Option<string>,
                     category: Option<string>, description: Option<string>, id: string, now: Timestamp)
      returns (r: Result<PointTransaction>)
      modifies this
      ensures old(LoadLog(userId)).Failure? ==> r == Failure(LoadFailed) && storage == old(storage)
      ensures old(LoadLog(userId)).Success? ==>
        var txs := old(LoadLog(userId)).data;
        var tx := NextTransaction(id, userId, amount, source, sourceId, category, description, now, txs);
        && Written(PointTransactionsKey(userId), TransactionList([tx] + txs), Outcome(r))
        && (r.Success? ==> r.data == tx)
    {
      var balanceResult := LoadPointBalance(userId, now);
      if balanceResult.Failure? {
        return Failure(balanceResult.code);
      }
      var balance := balanceResult.data.total;
      var transaction := PointTransaction(id, userId, amount, source, sourceId, category, description,
                                          balance + amount, now);
      var transactionsResult := LoadPointTransactions(userId, None);
      if transactionsResult.Failure? {
        return Failure(LoadFailed);
      }
      var transactions := [transaction] + transactionsResult.data;
      var saved := SaveJson(PointTransactionsKey(userId), TransactionList(transactions));
      if saved.Failure? {
        return Failure(saved.code);
      }
      return Success(transaction);
    }

    /** `addPoints` with the amount negated and no category. */
    method DeductPoints(userId: string, amount: int, source: string, sourceId: Option<string>,
                        description: Option<string>, id: string, now: Timestamp)
      returns (r: Result<PointTransaction>)
      modifies this
      ensures old(LoadLog(userId)).Failure? ==> r == Failure(LoadFailed) && storage == old(storage)
      ensures old(LoadLog(userId)).Success? ==>
        var txs := old(LoadLog(userId)).data;
        var tx := NextTransaction(id, userId, -amount, source, sourceId, None, description, now, txs);
        && Written(PointTransactionsKey(userId), TransactionList([tx] + txs), Outcome(r))
        && (r.Success? ==> r.data == tx)
    {
      r := AddPoints(userId, -amount, source, sourceId, None, description, id, now);
    }

    // -------------------------------------------------------------------------
    // Levels
    // -------------------------------------------------------------------------

    /** A user's level record; none stored reads as level 1 with no experience. */
    function LoadLevel(userId: string, now: Timestamp): (r: Result<Level>)
      reads this
      ensures r.Failure? ==> r.code == LoadFailed
      ensures LevelKey(userId) !in unreadable && LevelKey(userId) !in storage ==>
        r.Success? && r.data.currentLevel == 1 && r.data.totalExperience == 0 && r.data.userId == userId
      ensures LevelKey(userId) in unreadable ==> r.Failure?
      ensures LevelKey(userId) !in unreadable && LevelKey(userId) in storage ==>
        (r.Success? <==> storage[LevelKey(userId)].LevelRecord?) && (r.Success? ==> r.data == storage[LevelKey(userId)].level)
    {
      var key := LevelKey(userId);
      if key in unreadable then Failure(LoadFailed)
      else if key !in storage then Success(DefaultLevel(userId, now))
      else match storage[key]
        case LevelRecord(l) => Success(l)
        case _ => Failure(LoadFailed)
    }

    method SaveLevel(level: Level) returns (r: Result<()>)
      modifies this
      ensures Written(LevelKey(level.userId), LevelRecord(level), r)
    {
      r := SaveJson(LevelKey(level.userId), LevelRecord(level));
    }

    /**
     * Adds experience to the stored total and recomputes level, experience
     * within the level and experience to the next level; reports a level up
     * when the level number grew.
     */
    method AddExperience(userId: string, amount: int, now: Timestamp) returns (r: Result<LevelProgress>)
      modifies this
      ensures old(LoadLevel(userId, now)).Failure? ==> r == Failure(LoadFailed) && storage == old(storage)
      ensures old(LoadLevel(userId, now)).Success? ==>
        var stored := old(LoadLevel(userId, now)).data;
        var p := GainExperience(userId, stored, amount);
        && Written(LevelKey(stored.userId), LevelRecord(LevelAfter(stored, p, now)), Outcome(r))
        && (r.Success? ==> r.data == p)
    {
      var levelResult := LoadLevel(userId, now);
      if levelResult.Failure? {
        return Failure(levelResult.code);
      }
      var level := levelResult.data;
      var progress := GainExperience(userId, level, amount);
      var saved := SaveLevel(LevelAfter(level, progress, now));
      if saved.Failure? {
        return Failure(saved.code);
      }
      return Success(progress);
    }

    // -------------------------------------------------------------------------
    // Streaks
    // -------------------------------------------------------------------------

    function LoadStreaks(userId: string): (r: Result<seq<Streak>>)
      reads this
      ensures r.Failure? ==> r.code == LoadFailed
      ensures StreaksKey(userId) !in unreadable && StreaksKey(userId) !in storage ==> r == Success([])
      ensures StreaksKey(userId) in unreadable ==> r.Failure?
      ensures StreaksKey(userId) !in unreadable && StreaksKey(userId) in storage ==>
        (r.Success? <==> storage[StreaksKey(userId)].StreakList?) && (r.Success? ==> r.data == storage[StreaksKey(userId)].streaks)
    {
      var key := StreaksKey(userId);
      if key in unreadable then Failure(LoadFailed)
      else if key !in storage then Success([])
      else match storage[key]
        case StreakList(xs) => Success(xs)
        case _ => Failure(LoadFailed)
    }

    /** The first streak of the type, or NOT_FOUND. */
    function LoadStreakByType(userId: string, kind: string): (r: Result<Streak>)
      reads this
      ensures LoadStreaks(userId).Failure? ==> r == Failure(LoadFailed)
      ensures LoadStreaks(userId).Success? ==>
        var xs := LoadStreaks(userId).data;
        && (r.Failure? <==> forall j :: 0 <= j < |xs| ==> xs[j].kind != kind)
        && (r.Failure? ==> r.code == NotFound)
        && (r.Success? ==> r.data in xs && r.data.kind == kind)
        && (r.Success? ==> r.data == xs[FirstIndex(xs, StreakKind, kind)])
    {
      match LoadStreaks(userId)
      case Failure(code) => Failure(code)
      case Success(xs) =>
        match Find(xs, StreakKind, kind)
        case None => Failure(NotFound)
        case Some(s) => Success(s)
    }

    /** A save of `s` into its user's streak list: replace the one with its id, or push it. */
    twostate predicate StreakSaved(s: Streak, new out: Result<()>)
      reads this
    {
      match old(LoadStreaks(s.userId))
      case Failure(_) => out == Failure(LoadFailed) && storage == old(storage)
      case Success(xs) => Written(StreaksKey(s.userId), StreakList(Upsert(xs, StreakId, s)), out)
    }

    method SaveStreak(streak: Streak) returns (r: Result<()>)
      modifies this
      ensures StreakSaved(streak, r)
    {
      var loaded := LoadStreaks(streak.userId);
      if loaded.Failure? {
        return Failure(loaded.code);
      }
      var streaks := loaded.data;
      var index := FirstIndex(streaks, StreakId, streak.id);
      if index == -1 {
        streaks := streaks + [streak];
      } else {
        streaks := streaks[index := streak];
      }
      r := SaveJson(StreaksKey(streak.userId), StreakList(streaks));
    }

    /**
     * The streak an activity leaves behind: the activity recorded on the
     * user's streak of that type, or a fresh streak when none can be loaded.
     */
    function StreakAfterActivity(userId: string, kind: string, activityDate: Timestamp, newId: string, now: Timestamp)
      : Streak
      reads this
    {
      match LoadStreakByType(userId, kind)
      case Failure(_) => NewStreak(newId, userId, kind, activityDate, now)
      case Success(found) => RecordActivity(found, activityDate, now)
    }

    /**
     * Records an activity on the streak of a type: an existing streak
     * continues, restarts or stays by the whole days elapsed; when none can
     * be loaded a fresh streak at 1/1 is created. Either way it is saved.
     */
    method UpdateStreakActivity(userId: string, kind: string, activityDate: Timestamp,
                                newId: string, now: Timestamp)
      returns (r: Result<Streak>)
      modifies this
      ensures var s := old(StreakAfterActivity(userId, kind, activityDate, newId, now));
        && StreakSaved(s, Outcome(r))
        && (r.Success? ==> r.data == s)
        && s.lastActivityDate == activityDate
    {
      var found := LoadStreakByType(userId, kind);
      if found.Failure? {
        var newStreak := NewStreak(newId, userId, kind, activityDate, now);
        var saved := SaveStreak(newStreak);
        if saved.Failure? {
          return Failure(saved.code);
        }
        return Success(newStreak);
      }
      var streak := found.data;
      var daysDiff := DaysBetween(streak.lastActivityDate, activityDate);
      if daysDiff == 1 {
        streak := streak.(currentStreak := streak.currentStreak + 1);
        streak := streak.(longestStreak := if streak.longestStreak >= streak.currentStreak
                                           then streak.longestStreak else streak.currentStreak);
        streak := streak.(isActive := true);
      } else if daysDiff > 1 {
        streak := streak.(currentStreak := 1, isActive := true);
      }
      streak := streak.(lastActivityDate := activityDate, updatedDate := now);
      var saved := SaveStreak(streak);
      if saved.Failure? {
        return Failure(saved.code);
      }
      return Success(streak);
    }

    // -------------------------------------------------------------------------
    // Leaderboards
    // -------------------------------------------------------------------------

    /**
     * A leaderboard, empty when none is stored, its entries cut by
     * `slice(offset)` and then `slice(0, limit)` for the bounds that are given.
     */
    function LoadLeaderboard(leaderboardId: string, limit: Option<int>, offset: Option<int>, now: Timestamp)
      : (r: Result<Leaderboard>)
      reads this
      ensures r.Failure? ==> r.code == LoadFailed
      ensures LeaderboardKey(leaderboardId) !in unreadable && LeaderboardKey(leaderboardId) !in storage ==>
        r.Success? && r.data.entries == [] && r.data.totalParticipants == 0 && r.data.id == leaderboardId
      ensures r.Success? && limit.None? && offset.None? ==>
        LeaderboardKey(leaderboardId) !in storage
        || storage[LeaderboardKey(leaderboardId)] == LeaderboardRecord(r.data)
      ensures LeaderboardKey(leaderboardId) in unreadable ==> r.Failure?
      ensures LeaderboardKey(leaderboardId) !in unreadable && LeaderboardKey(leaderboardId) in storage ==>
        var stored := storage[LeaderboardKey(leaderboardId)];
        && (r.Success? <==> stored.LeaderboardRecord?)
        && (r.Success? ==> r.data == stored.leaderboard.(entries := Page(stored.leaderboard.entries, limit, offset)))
    {
      var key := LeaderboardKey(leaderboardId);
      var loaded :=
        if key in unreadable then Failure(LoadFailed)
        else if key !in storage then Success(Leaderboard(leaderboardId, leaderboardId, "score", [], 0, now))
        else match storage[key]
          case LeaderboardRecord(b) => Success(b)
          case _ => Failure(LoadFailed);
      match loaded
      case Failure(code) => Failure(code)
      case Success(board) => Success(board.(entries := Page(board.entries, limit, offset)))
    }

    /** A user's standing on a leaderboard, NOT_FOUND when they have no entry on it. */
    function GetUserRanking(userId: string, leaderboardId: string, now: Timestamp): (r: Result<LeaderboardRanking>)
      reads this
      ensures LoadLeaderboard(leaderboardId, None, None, now).Failure? ==> r == Failure(LoadFailed)
      ensures LoadLeaderboard(leaderboardId, None, None, now).Success? ==>
        var board := LoadLeaderboard(leaderboardId, None, None, now).data;
        && (r.Failure? <==> forall i :: 0 <= i < |board.entries| ==> board.entries[i].userId != userId)
        && (r.Failure? ==> r.code == NotFound)
        && r == RankingOf(board, userId)
        && (r.Success? ==>
              r.data.userId == userId && r.data.aboveUsers + 1 + r.data.belowUsers == board.totalParticipants)
    {
      match LoadLeaderboard(leaderboardId, None, None, now)
      case Failure(code) => Failure(code)
      case Success(board) => RankingOf(board, userId)
    }

    /**
     * Replaces the entry with the same id (or appends it), stable-sorts the
     * entries by score, highest first, ranks them 1..N and records N as the
     * participant count. Returns the entry with its new rank.
     */
    method UpdateLeaderboardEntry(entry: LeaderboardEntry, now: Timestamp) returns (r: Result<LeaderboardEntry>)
      modifies this
      ensures old(LoadLeaderboard(entry.leaderboardId, None, None, now)).Failure? ==>
        r == Failure(LoadFailed) && storage == old(storage)
      ensures old(LoadLeaderboard(entry.leaderboardId, None, None, now)).Success? ==>
        var board := old(LoadLeaderboard(entry.leaderboardId, None, None, now)).data;
        var entries := Reranked(board.entries, entry);
        && Written(LeaderboardKey(entry.leaderboardId),
                   LeaderboardRecord(board.(entries := entries, totalParticipants := |entries|, lastUpdated := now)),
                   Outcome(r))
        && (r.Success? ==> var k := FirstIndex(entries, EntryId, entry.id);
                           0 <= k && r.data == entries[k] && r.data.rank == k + 1)
    {
      var loaded := LoadLeaderboard(entry.leaderboardId, None, None, now);
      if loaded.Failure? {
        return Failure(loaded.code);
      }
      var board := loaded.data;
      var upserted := Upsert(board.entries, EntryId, entry);
      var sorted := SortByScore(upserted);
      var ranked := AssignRanks(sorted);
      assert ranked == Reranked(board.entries, entry);
      RerankedIsWellRanked(board.entries, entry);
      var k := FirstIndex(ranked, EntryId, entry.id);
      assert k != -1 by {
        var m :| 0 <= m < |ranked| && ranked[m] == entry.(rank := m + 1);
        assert EntryId(ranked[m]) == entry.id;
      }
      board := board.(entries := ranked, totalParticipants := |ranked|, lastUpdated := now);
      var saved := SaveJson(LeaderboardKey(entry.leaderboardId), LeaderboardRecord(board));
      if saved.Failure? {
        return Failure(saved.code);
      }
      return Success(ranked[k]);
    }

    // -------------------------------------------------------------------------
    // Rewards
    // -------------------------------------------------------------------------

    function LoadRewards(userId: string): (r: Result<seq<Reward>>)
      reads this
      ensures r.Failure? ==> r.code == LoadFailed
      ensures RewardsKey(userId) !in unreadable && RewardsKey(userId) !in storage ==> r == Success([])
      ensures RewardsKey(userId) in unreadable ==> r.Failure?
      ensures RewardsKey(userId) !in unreadable && RewardsKey(userId) in storage ==>
        (r.Success? <==> storage[RewardsKey(userId)].RewardList?) && (r.Success? ==> r.data == storage[RewardsKey(userId)].rewards)
    {
      var key := RewardsKey(userId);
      if key in unreadable then Failure(LoadFailed)
      else if key !in storage then Success([])
      else match storage[key]
        case RewardList(xs) => Success(xs)
        case _ => Failure(LoadFailed)
    }

    /** A user's reward list reads the same as long as its key holds the same blob. */
    twostate lemma RewardsFramed(userId: string)
      requires Stored(storage, RewardsKey(userId)) == Stored(old(storage), RewardsKey(userId))
      ensures LoadRewards(userId) == old(LoadRewards(userId))
    {
    }

    /** A save of `w` into its user's reward list: replace the one with its id, or push it. */
    twostate predicate RewardSaved(w: Reward, new out: Result<()>)
      reads this
    {
      match old(LoadRewards(w.userId))
      case Failure(_) => out == Failure(LoadFailed) && storage == old(storage)
      case Success(xs) => Written(RewardsKey(w.userId), RewardList(Upsert(xs, RewardId, w)), out)
    }

    method SaveReward(reward: Reward) returns (r: Result<()>)
      modifies this
      ensures RewardSaved(reward, r)
    {
      var loaded := LoadRewards(reward.userId);
      if loaded.Failure? {
        return Failure(loaded.code);
      }
      var rewards := loaded.data;
      var index := FirstIndex(rewards, RewardId, reward.id);
      if index == -1 {
        rewards := rewards + [reward];
      } else {
        rewards := rewards[index := reward];
      }
      r := SaveJson(RewardsKey(reward.userId), RewardList(rewards));
    }

    /**
     * Claims a reward once: NOT_FOUND for an unknown id, INVALID_DATA when it
     * is already claimed (nothing is written), otherwise that reward becomes
     * claimed and the claim spends the reward's points cost. Paying the cost
     * is left to the caller.
     */
    method ClaimReward(userId: string, rewardId: string, claimId: string, now: Timestamp)
      returns (r: Result<RewardClaim>)
      modifies this
      ensures old(LoadRewards(userId)).Failure? ==> r == Failure(LoadFailed) && storage == old(storage)
      ensures old(LoadRewards(userId)).Success? ==>
        match Find(old(LoadRewards(userId)).data, RewardId, rewardId)
        case None => r == Failure(NotFound) && storage == old(storage)
        case Some(w) =>
          if w.claimed then r == Failure(InvalidData) && storage == old(storage)
          else
            && RewardSaved(w.(claimed := true, claimedDate := Some(now), updatedDate := now), Outcome(r))
            && (r.Success? ==> r.data == RewardClaim(claimId, userId, rewardId, w.pointsCost, now))
    {
      var loaded := LoadRewards(userId);
      if loaded.Failure? {
        return Failure(loaded.code);
      }
      var found := Find(loaded.data, RewardId, rewardId);
      if found.None? {
        return Failure(NotFound);
      }
      var reward := found.value;
      if reward.claimed {
        return Failure(InvalidData);
      }
      reward := reward.(claimed := true, claimedDate := Some(now), updatedDate := now);
      var saved := SaveReward(reward);
      if saved.Failure? {
        return Failure(saved.code);
      }
      return Success(RewardClaim(claimId, userId, rewardId, reward.pointsCost, reward.claimedDate.value));
    }

    // -------------------------------------------------------------------------
    // Progress
    // -------------------------------------------------------------------------

    /** A user's progress records, only those of the metric when a truthy metric is given. */
    function LoadProgress(userId: string, metric: Option<string>): (r: Result<seq<Progress>>)
      reads this
      ensures r.Failure? ==> r.code == LoadFailed
      ensures r.Success? && TruthyString(metric) ==>
        forall j :: 0 <= j < |r.data| ==> r.data[j].metric == metric.value
      ensures ProgressKey(userId) !in unreadable && ProgressKey(userId) !in storage ==> r == Success([])
      ensures ProgressKey(userId) in unreadable ==> r.Failure?
      ensures ProgressKey(userId) !in unreadable && ProgressKey(userId) in storage ==>
        var stored := storage[ProgressKey(userId)];
        && (r.Success? <==> stored.ProgressList?)
        && (r.Success? && TruthyString(metric) ==> r.data == Filter(stored.records, MetricIs(metric.value)))
        && (r.Success? && !TruthyString(metric) ==> r.data == stored.records)
    {
      var key := ProgressKey(userId);
      var loaded :=
        if key in unreadable then Failure(LoadFailed)
        else if key !in storage then Success([])
        else match storage[key]
          case ProgressList(xs) => Success(xs)
          case _ => Failure(LoadFailed);
      match loaded
      case Failure(code) => Failure(code)
      case Success(xs) => Success(if TruthyString(metric) then Filter(xs, MetricIs(metric.value)) else xs)
    }

    /** A save of `p` into its user's progress list: replace the one with its id, or push it. */
    twostate predicate ProgressSaved(p: Progress, new out: Result<()>)
      reads this
    {
      match old(LoadProgress(p.userId, None))
      case Failure(_) => out == Failure(LoadFailed) && storage == old(storage)
      case Success(xs) => Written(ProgressKey(p.userId), ProgressList(Upsert(xs, ProgressId, p)), out)
    }

    method SaveProgress(progress: Progress) returns (r: Result<()>)
      modifies this
      ensures ProgressSaved(progress, r)
    {
      var loaded := LoadProgress(progress.userId, None);
      if loaded.Failure? {
        return Failure(loaded.code);
      }
      var records := loaded.data;
      var index := FirstIndex(records, ProgressId, progress.id);
      if index == -1 {
        records := records + [progress];
      } else {
        records := records[index := progress];
      }
      r := SaveJson(ProgressKey(progress.userId), ProgressList(records));
    }

    /**
     * The record a progress update leaves behind: the first record of the
     * metric with the increment added, or a new record holding the increment
     * at 0% when the metric has none.
     */
    function ProgressAfterUpdate(update: ProgressUpdate, newId: string, now: Timestamp): (r: Result<Progress>)
      reads this
      ensures r.Failure? ==> r.code == LoadFailed
      ensures r.Success? && update.metric != "" ==> r.data.metric == update.metric
      ensures r.Success? <==> LoadProgress(update.userId, Some(update.metric)).Success?
      ensures r.Success? ==>
        var found := LoadProgress(update.userId, Some(update.metric)).data;
        && (found == [] ==>
              && r.data == NewProgress(newId, update, now)
              && r.data.id == newId && r.data.userId == update.userId
              && r.data.currentValue == update.increment && r.data.progress == 0.0)
        && (found != [] ==>
              && r.data == Increment(found[0], update.increment, now)
              && r.data.id == found[0].id && r.data.userId == found[0].userId
              && r.data.currentValue == found[0].currentValue + update.increment)
      ensures ProgressKey(update.userId) !in unreadable && ProgressKey(update.userId) in storage
              && storage[ProgressKey(update.userId)].ProgressList? && update.metric != "" ==>
        var found := Filter(storage[ProgressKey(update.userId)].records, MetricIs(update.metric));
        && r.Success?
        && (found == [] ==> r.data.id == newId && r.data.currentValue == update.increment && r.data.progress == 0.0)
        && (found != [] ==> r.data.id == found[0].id && r.data.currentValue == found[0].currentValue + update.increment)
    {
      match LoadProgress(update.userId, Some(update.metric))
      case Failure(code) => Failure(code)
      case Success(found) =>
        Success(if found == [] then NewProgress(newId, update, now) else Increment(found[0], update.increment, now))
    }

    /** Applies a progress update and saves the record it leaves behind. */
    method UpdateProgress(update: ProgressUpdate, newId: string, now: Timestamp) returns (r: Result<Progress>)
      modifies this
      ensures match old(ProgressAfterUpdate(update, newId, now))
        case Failure(_) => r == Failure(LoadFailed) && storage == old(storage)
        case Success(p) => ProgressSaved(p, Outcome(r)) && (r.Success? ==> r.data == p)
    {
      var loaded := LoadProgress(update.userId, Some(update.metric));
      if loaded.Failure? {
        return Failure(loaded.code);
      }
      var progress: Progress;
      if loaded.data == [] {
        progress := NewProgress(newId, update, now);
      } else {
        progress := Increment(loaded.data[0], update.increment, now);
      }
      var saved := SaveProgress(progress);
      if saved.Failure? {
        return Failure(saved.code);
      }
      return Success(progress);
    }
  }

  /** An achievement after an unlock: unlocked, stamped, and its progress at its requirement. */
  function Unlocked(a: Achievement, now: Timestamp): Achievement
  {
    a.(unlocked := true, unlockedDate := Some(now), progress := a.requirement, updatedDate := now)
  }
}
