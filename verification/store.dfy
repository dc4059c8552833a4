/**
 * The gamification store: an in-memory cache of the signed-in user's
 * latest loaded records above a repository, and the rules that chain one
 * action into another (reaching a requirement unlocks, unlocking and
 * levelling up award points, a reward claim pays its cost first).
 */
module Store {

  import opened Entities
  import opened Collections
  import opened Points
  import opened Progression
  import opened Repository

  /** The store's fields besides the repository; an action's `set({...})` is a record update. */
  datatype StoreState = StoreState(
    userId: Option<string>,
    achievements: seq<Achievement>,
    pointBalance: Option<PointBalance>,
    pointTransactions: seq<PointTransaction>,
    level: Option<Level>,
    streaks: seq<Streak>,
    rewards: seq<Reward>,
    progress: seq<Progress>,
    isLoading: bool,
    isInitialized: bool)

  const InitialState: StoreState := StoreState(None, [], None, [], None, [], [], [], false, false)

  /** How many transactions the store reloads after recording one. */
  const RecentTransactions: int := 10

  /** Every action first checks `!userId`: nothing happens without a truthy user id. */
  predicate Signed(s: StoreState) {
    TruthyString(s.userId)
  }

  /** The data of a repository result, or the cached value when the result is a failure. */
  function Loaded<T>(r: Result<T>, cached: T): T
  {
    if r.Success? then r.data else cached
  }

  /** A predicate selecting the progress records of every metric but one. */
  function OtherMetric(metric: string): Progress -> bool
  {
    (p: Progress) => p.metric != metric
  }

  /** The cache after `loadProgress(metric)` loaded `loaded`. */
  function MergeMetric(cached: seq<Progress>, metric: Option<string>, loaded: seq<Progress>): seq<Progress>
  {
    if TruthyString(metric) then Filter(cached, OtherMetric(metric.value)) + loaded else loaded
  }

  /**
   * Reloading one metric keeps the cached records of every other metric,
   * in order, and holds for that metric exactly the records just loaded.
   */
  lemma MergeMetricReplacesOnlyThatMetric(cached: seq<Progress>, metric: string, loaded: seq<Progress>, m: string)
    requires metric != ""
    requires forall j :: 0 <= j < |loaded| ==> loaded[j].metric == metric
    ensures Filter(MergeMetric(cached, Some(metric), loaded), MetricIs(m)) ==
      if m == metric then loaded else Filter(cached, MetricIs(m))
  {
    var kept := Filter(cached, OtherMetric(metric));
    FilterAppend(kept, loaded, MetricIs(m));
    if m == metric {
      forall j | 0 <= j < |kept| ensures !MetricIs(m)(kept[j]) {
        assert OtherMetric(metric)(kept[j]);
      }
      FilterDropsAll(kept, MetricIs(m));
      FilterKeepsAll(loaded, MetricIs(m));
    } else {
      FilterNarrows(cached, OtherMetric(metric), MetricIs(m));
      FilterDropsAll(loaded, MetricIs(m));
    }
  }

  /** Decimal digits of an integer, as a template string prints it. */
  function DecimalString(n: int): string
    decreases if n < 0 then 1 - n else n
  {
    if n < 0 then "-" + DecimalString(-n)
    else if n < 10 then ["0123456789"[n]]
    else DecimalString(n / 10) + ["0123456789"[n % 10]]
  }

  /** A user's stored ledger and the store's cached balance and recent transactions. */
  datatype PointsView = PointsView(ledger: Option<Blob>, balance: Option<PointBalance>, recent: seq<PointTransaction>)

  /**
   * The store's `addPoints` for `u`, from `was` with the ledger reading as
   * `wasLog`: when the repository can record the transaction, the ledger
   * gains it on top and the cached balance and latest ten transactions are
   * reloaded from the new ledger; otherwise nothing in the view changes.
   */
  ghost predicate PointsRecordedOver(was: PointsView, wasLog: Result<seq<PointTransaction>>, view: PointsView,
                                     unwritable: set<StorageKey>,
                                     u: string, amount: int, source: string, sourceId: Option<string>,
                                     category: Option<string>, description: Option<string>, id: string, now: Timestamp)
  {
    if wasLog.Success? && PointTransactionsKey(u) !in unwritable then
      var txs := [NextTransaction(id, u, amount, source, sourceId, category, description, now, wasLog.data)] + wasLog.data;
      && view.ledger == Some(TransactionList(txs))
      && view.balance == Some(BalanceOf(u, txs, now))
      && view.recent == Slice(txs, 0, RecentTransactions)
    else view == was
  }

  /**
   * Recording on top of a consistent ledger leaves a consistent ledger one
   * transaction longer, whose total and whose cached balance are the old
   * total plus the amount, and whose newest ten transactions are cached with
   * the recorded one first.
   */
  lemma RecordingKeepsLedgerConsistent(was: PointsView, wasLog: Result<seq<PointTransaction>>, view: PointsView,
                                       unwritable: set<StorageKey>,
                                       u: string, amount: int, source: string, sourceId: Option<string>,
                                       category: Option<string>, description: Option<string>, id: string, now: Timestamp)
    requires PointsRecordedOver(was, wasLog, view, unwritable, u, amount, source, sourceId, category, description, id, now)
    requires wasLog.Success? && LedgerConsistent(wasLog.data)
    requires PointTransactionsKey(u) !in unwritable
    ensures view.ledger.Some? && view.ledger.value.TransactionList?
    ensures var log := view.ledger.value.transactions;
      && |log| == |wasLog.data| + 1
      && log[1..] == wasLog.data
      && LedgerConsistent(log)
      && Total(log) == Total(wasLog.data) + amount
      && log[0].amount == amount && log[0].balance == Total(log)
      && view.balance.Some? && view.balance.value.total == Total(log)
      && |view.recent| == (if |log| < RecentTransactions then |log| else RecentTransactions)
      && view.recent[0] == log[0]
  {
    NextTransactionKeepsLedger(id, u, amount, source, sourceId, category, description, now, wasLog.data);
    var log := view.ledger.value.transactions;
    assert log[1..] == wasLog.data;
  }

  class GamificationStore {

    var repository: StorageGamificationRepository
    var state: StoreState

    constructor (repository: StorageGamificationRepository)
      ensures this.repository == repository && state == InitialState
    {
      this.repository := repository;
      state := InitialState;
    }

    // -------------------------------------------------------------------------
    // Initialization
    // -------------------------------------------------------------------------

    method SetUserId(userId: string)
      modifies this
      ensures repository == old(repository)
      ensures state == old(state).(userId := Some(userId))
    {
      state := state.(userId := Some(userId));
    }

    method SetRepository(repository: StorageGamificationRepository)
      modifies this
      ensures this.repository == repository && state == old(state)
    {
      this.repository := repository;
    }

    // -------------------------------------------------------------------------
    // Loading the cache
    // -------------------------------------------------------------------------

    method LoadAchievements()
      modifies this
      ensures repository == old(repository)
      ensures !Signed(old(state)) ==> state == old(state)
      ensures Signed(old(state)) ==>
        state == old(state).(achievements := Loaded(repository.LoadAchievements(old(state).userId.value),
                                                    old(state).achievements),
                             isLoading := false)
    {
      if !TruthyString(state.userId) {
        return;
      }
      state := state.(isLoading := true);
      var result := repository.LoadAchievements(state.userId.value);
      if result.Success? {
        state := state.(achievements := result.data, isLoading := false);
      } else {
        state := state.(isLoading := false);
      }
    }

    method LoadPointBalance(now: Timestamp)
      modifies this
      ensures repository == old(repository)
      ensures !Signed(old(state)) ==> state == old(state)
      ensures Signed(old(state)) ==>
        var u := old(state).userId.value;
        state == old(state).(pointBalance := match repository.LoadLog(u)
                                             case Success(txs) => Some(BalanceOf(u, txs, now))
                                             case Failure(_) => old(state).pointBalance)
    {
      if !TruthyString(state.userId) {
        return;
      }
      var result := repository.LoadPointBalance(state.userId.value, now);
      if result.Success? {
        state := state.(pointBalance := Some(result.data));
      }
    }

    method LoadPointTransactions(limit: Option<int>)
      modifies this
      ensures repository == old(repository)
      ensures !Signed(old(state)) ==> state == old(state)
      ensures Signed(old(state)) ==>
        state == old(state).(pointTransactions := Loaded(repository.LoadPointTransactions(old(state).userId.value, limit),
                                                         old(state).pointTransactions))
    {
      if !TruthyString(state.userId) {
        return;
      }
      var result := repository.LoadPointTransactions(state.userId.value, limit);
      if result.Success? {
        state := state.(pointTransactions := result.data);
      }
    }

    method LoadLevel(now: Timestamp)
      modifies this
      ensures repository == old(repository)
      ensures !Signed(old(state)) ==> state == old(state)
      ensures Signed(old(state)) ==>
        state == old(state).(level := match repository.LoadLevel(old(state).userId.value, now)
                                      case Success(l) => Some(l)
                                      case Failure(_) => old(state).level)
    {
      if !TruthyString(state.userId) {
        return;
      }
      var result := repository.LoadLevel(state.userId.value, now);
      if result.Success? {
        state := state.(level := Some(result.data));
      }
    }

    method LoadStreaks()
      modifies this
      ensures repository == old(repository)
      ensures !Signed(old(state)) ==> state == old(state)
      ensures Signed(old(state)) ==>
        state == old(state).(streaks := Loaded(repository.LoadStreaks(old(state).userId.value), old(state).streaks))
    {
      if !TruthyString(state.userId) {
        return;
      }
      var result := repository.LoadStreaks(state.userId.value);
      if result.Success? {
        state := state.(streaks := result.data);
      }
    }

    method LoadRewards()
      modifies this
      ensures repository == old(repository)
      ensures !Signed(old(state)) ==> state == old(state)
      ensures Signed(old(state)) ==>
        state == old(state).(rewards := Loaded(repository.LoadRewards(old(state).userId.value), old(state).rewards))
    {
      if !TruthyString(state.userId) {
        return;
      }
      var result := repository.LoadRewards(state.userId.value);
      if result.Success? {
        state := state.(rewards := result.data);
      }
    }

    /**
     * Loads one metric's records into the cache beside the other metrics',
     * or, without a truthy metric, replaces the whole cached list.
     */
    method LoadProgress(metric: Option<string>)
      modifies this
      ensures repository == old(repository)
      ensures !Signed(old(state)) ==> state == old(state)
      ensures Signed(old(state)) ==>
        match repository.LoadProgress(old(state).userId.value, metric)
        case Failure(_) => state == old(state)
        case Success(loaded) => state == old(state).(progress := MergeMetric(old(state).progress, metric, loaded))
    {
      if !TruthyString(state.userId) {
        return;
      }
      var result := repository.LoadProgress(state.userId.value, metric);
      if result.Success? {
        if TruthyString(metric) {
          var existing := Filter(state.progress, OtherMetric(metric.value));
          state := state.(progress := existing + result.data);
        } else {
          state := state.(progress := result.data);
        }
      }
    }

    // -------------------------------------------------------------------------
    // Points
    // -------------------------------------------------------------------------

    /** What the points actions touch for `u`: the stored ledger and the cached balance and recent transactions. */
    function PointsViewOf(u: string): PointsView
      reads this, repository
    {
      PointsView(Stored(repository.storage, PointTransactionsKey(u)), state.pointBalance, state.pointTransactions)
    }

    /** The store's `addPoints` for `u`, from the ledger, balance and recent transactions `was`. */
    twostate predicate PointsRecorded(u: string, amount: int, source: string, sourceId: Option<string>,
                                      category: Option<string>, description: Option<string>, id: string, now: Timestamp)
      reads this, repository
    {
      PointsRecordedOver(old(PointsViewOf(u)), old(repository.LoadLog(u)), PointsViewOf(u), repository.unwritable,
                         u, amount, source, sourceId, category, description, id, now)
    }

    /** Neither `u`'s ledger nor the cached balance and recent transactions changed. */
    twostate predicate PointsUntouched(u: string)
      reads this, repository
    {
      PointsViewOf(u) == old(PointsViewOf(u))
    }

    method AddPoints(amount: int, source: string, sourceId: Option<string>, category: Option<string>,
                     description: Option<string>, id: string, now: Timestamp)
      modifies this, repository
      ensures repository == old(repository)
      ensures !Signed(old(state)) ==> state == old(state) && repository.storage == old(repository.storage)
      ensures Signed(old(state)) ==>
        var u := old(state).userId.value;
        && PointsRecorded(u, amount, source, sourceId, category, description, id, now)
        && SameExcept(old(repository.storage), repository.storage, {PointTransactionsKey(u)})
        && state == old(state).(pointBalance := state.pointBalance, pointTransactions := state.pointTransactions)
    {
      if !TruthyString(state.userId) {
        return;
      }
      var u := state.userId.value;
      var result := repository.AddPoints(u, amount, source, sourceId, category, description, id, now);
      if result.Success? {
        ghost var was := old(repository.LoadLog(u)).data;
        ghost var txs := [NextTransaction(id, u, amount, source, sourceId, category, description, now, was)] + was;
        assert repository.LoadLog(u) == Success(txs);
        LoadPointBalance(now);
        LoadPointTransactions(Some(RecentTransactions));
        assert PointsViewOf(u) == PointsView(Some(TransactionList(txs)), Some(BalanceOf(u, txs, now)), Slice(txs, 0, RecentTransactions));
      }
    }

    /** `addPoints` with the amount negated and no category. */
    method DeductPoints(amount: int, source: string, sourceId: Option<string>, description: Option<string>,
                        id: string, now: Timestamp)
      modifies this, repository
      ensures repository == old(repository)
      ensures !Signed(old(state)) ==> state == old(state) && repository.storage == old(repository.storage)
      ensures Signed(old(state)) ==>
        var u := old(state).userId.value;
        && PointsRecorded(u, -amount, source, sourceId, None, description, id, now)
        && SameExcept(old(repository.storage), repository.storage, {PointTransactionsKey(u)})
        && state == old(state).(pointBalance := state.pointBalance, pointTransactions := state.pointTransactions)
    {
      if !TruthyString(state.userId) {
        return;
      }
      var u := state.userId.value;
      var result := repository.DeductPoints(u, amount, source, sourceId, description, id, now);
      if result.Success? {
        ghost var was := old(repository.LoadLog(u)).data;
        ghost var txs := [NextTransaction(id, u, -amount, source, sourceId, None, description, now, was)] + was;
        assert repository.LoadLog(u) == Success(txs);
        LoadPointBalance(now);
        LoadPointTransactions(Some(RecentTransactions));
        assert PointsViewOf(u) == PointsView(Some(TransactionList(txs)), Some(BalanceOf(u, txs, now)), Slice(txs, 0, RecentTransactions));
      }
    }

    // -------------------------------------------------------------------------
    // Achievements
    // -------------------------------------------------------------------------

    /**
     * The unlock of `xs[i]`, the achievement at `i` of `u`'s stored list `xs`,
     * from storage `wasStorage`, cache `was` and ledger `wasLog`: the list is
     * written back with that achievement unlocked, the cached copy is
     * replaced by the unlocked one, and its points, when truthy, are awarded
     * with source and category "achievement"; nothing else is written and no
     * other cached field changes.
     */
    ghost predicate AchievementUnlockedSince(wasStorage: map<StorageKey, Blob>, was: StoreState,
                                       wasLog: Result<seq<PointTransaction>>,
                                       u: string, xs: seq<Achievement>, i: int, now: Timestamp, txId: string)
      requires 0 <= i < |xs|
      reads this, repository
    {
      var a := Unlocked(xs[i], now);
      var ledger := Stored(wasStorage, PointTransactionsKey(u));
      && Stored(repository.storage, AchievementsKey(xs[0].userId)) == Some(AchievementList(xs[i := a]))
      && state.achievements == ReplaceAll(was.achievements, AchievementId, a)
      && (if TruthyNumber(a.points)
          then PointsRecordedOver(PointsView(ledger, was.pointBalance, was.pointTransactions), wasLog,
                                  PointsViewOf(u), repository.unwritable,
                                  u, a.points.value, "achievement", Some(a.id), Some("achievement"),
                                  Some("Unlocked achievement: " + a.title), txId, now)
          else PointsViewOf(u) == PointsView(ledger, was.pointBalance, was.pointTransactions))
      && SameExcept(wasStorage, repository.storage, {AchievementsKey(xs[0].userId), PointTransactionsKey(u)})
      && state == was.(achievements := state.achievements, pointBalance := state.pointBalance,
                       pointTransactions := state.pointTransactions)
    }

    twostate predicate AchievementUnlocked(u: string, xs: seq<Achievement>, i: int, now: Timestamp, txId: string)
      requires 0 <= i < |xs|
      reads this, repository
    {
      AchievementUnlockedSince(old(repository.storage), old(state), old(repository.LoadLog(u)), u, xs, i, now, txId)
    }

    method UnlockAchievement(achievementId: string, now: Timestamp, txId: string)
      modifies this, repository
      ensures repository == old(repository)
      ensures !Signed(old(state)) ==> state == old(state) && repository.storage == old(repository.storage)
      ensures Signed(old(state)) ==>
        var u := old(state).userId.value;
        match old(repository.LoadAchievements(u))
        case Failure(_) => state == old(state) && repository.storage == old(repository.storage)
        case Success(xs) =>
          var i := FirstIndex(xs, AchievementId, achievementId);
          if i == -1 || AchievementsKey(xs[0].userId) in repository.unwritable
          then state == old(state) && repository.storage == old(repository.storage)
          else AchievementUnlocked(u, xs, i, now, txId)
    {
      if !TruthyString(state.userId) {
        return;
      }
      var result := repository.UnlockAchievement(state.userId.value, achievementId, now);
      if result.Success? {
        var achievement := result.data;
        state := state.(achievements := ReplaceAll(state.achievements, AchievementId, achievement));
        ghost var u := state.userId.value;
        assert Stored(repository.storage, PointTransactionsKey(u)) == Stored(old(repository.storage), PointTransactionsKey(u));
        assert repository.LoadLog(u) == old(repository.LoadLog(u));
        assert PointsViewOf(u) == old(PointsViewOf(u));
        if TruthyNumber(achievement.points) {
          AddPoints(achievement.points.value, "achievement", Some(achievementId), Some("achievement"),
                    Some("Unlocked achievement: " + achievement.title), txId, now);
        }
      }
    }

    /**
     * Sets an achievement's progress; when the requested progress reaches
     * the requirement of an achievement not yet unlocked, the unlock follows
     * (with its award). A failed update leaves storage and cache alone.
     */
    method UpdateAchievementProgress(achievementId: string, progress: int, now: Timestamp, txId: string)
      modifies this, repository
      ensures repository == old(repository)
      ensures !Signed(old(state)) ==> state == old(state) && repository.storage == old(repository.storage)
      ensures Signed(old(state)) ==>
        var u := old(state).userId.value;
        match old(repository.LoadAchievements(u))
        case Failure(_) => state == old(state) && repository.storage == old(repository.storage)
        case Success(xs) =>
          var i := FirstIndex(xs, AchievementId, achievementId);
          if i == -1 || AchievementsKey(xs[0].userId) in repository.unwritable then
            state == old(state) && repository.storage == old(repository.storage)
          else if progress >= xs[i].requirement && !xs[i].unlocked then
            AchievementUnlocked(u, xs, i, now, txId)
          else
            var updated := xs[i].(progress := progress, updatedDate := now);
            && repository.storage == old(repository.storage)[AchievementsKey(xs[0].userId) := AchievementList(xs[i := updated])]
            && state == old(state).(achievements := ReplaceAll(old(state).achievements, AchievementId, updated))
    {
      if !TruthyString(state.userId) {
        return;
      }
      var result := repository.UpdateAchievementProgress(state.userId.value, achievementId, progress, now);
      if result.Success? {
        var achievement := result.data;
        ghost var u := state.userId.value;
        ghost var xs := old(repository.LoadAchievements(u)).data;
        ghost var i := FirstIndex(xs, AchievementId, achievementId);
        assert 0 <= i < |xs| && achievement == xs[i].(progress := progress, updatedDate := now);
        state := state.(achievements := ReplaceAll(state.achievements, AchievementId, achievement));
        if progress >= achievement.requirement && !achievement.unlocked {
          ghost var listed := repository.LoadAchievements(u).data;
          assert listed == xs[i := achievement] || listed == xs;
          ghost var was, wasStorage, wasLog := state, repository.storage, repository.LoadLog(u);
          assert wasLog == old(repository.LoadLog(u));
          FirstIndexSameKeys(listed, xs, AchievementId, achievementId);
          assert listed[0].userId == xs[0].userId;
          UnlockAchievement(achievementId, now, txId);
          assert AchievementUnlockedSince(wasStorage, was, wasLog, u, listed, i, now, txId);
          UnlockAfterUpdate(old(repository.storage), old(state), wasStorage, was, wasLog, u, xs, listed, i,
                            achievement, now, txId);
        }
      }
    }

    /**
     * The unlock that follows a progress update, seen from before the
     * update: the update wrote `xs` with `xs[i]` replaced by `updated` and
     * cached `updated`, and the unlock then found the same achievement (in
     * that list, or in `xs` when the list went under another user's key),
     * so the end result is the unlock of `xs[i]` from the original state.
     */
    lemma UnlockAfterUpdate(before: map<StorageKey, Blob>, beforeState: StoreState,
                            mid: map<StorageKey, Blob>, midState: StoreState, log: Result<seq<PointTransaction>>,
                            u: string, xs: seq<Achievement>, listed: seq<Achievement>, i: int,
                            updated: Achievement, now: Timestamp, txId: string)
      requires 0 <= i < |xs| && xs[i].id == updated.id
      requires updated == xs[i].(progress := updated.progress, updatedDate := now)
      requires listed == xs[i := updated] || listed == xs
      requires mid == before[AchievementsKey(xs[0].userId) := AchievementList(xs[i := updated])]
      requires midState == beforeState.(achievements := ReplaceAll(beforeState.achievements, AchievementId, updated))
      requires AchievementUnlockedSince(mid, midState, log, u, listed, i, now, txId)
      ensures AchievementUnlockedSince(before, beforeState, log, u, xs, i, now, txId)
    {
      var a := Unlocked(xs[i], now);
      assert Unlocked(listed[i], now) == a;
      assert listed[i := a] == xs[i := a];
      assert listed[0].userId == xs[0].userId;
      ReplaceAllTwice(beforeState.achievements, AchievementId, updated, a);
      assert Stored(mid, PointTransactionsKey(u)) == Stored(before, PointTransactionsKey(u));
    }

    // -------------------------------------------------------------------------
    // Levels
    // -------------------------------------------------------------------------

    /** The description of the level-up award. */
    function LevelUpDescription(level: int): string
    {
      "Leveled up to level " + DecimalString(level)
    }

    /**
     * Adds experience, reloads the cached level from the repository and, on
     * a level up, awards ten points per level reached with source
     * "level_up" and category "level". A failed gain changes nothing.
     */
    method AddExperience(amount: int, now: Timestamp, txId: string)
      modifies this, repository
      ensures repository == old(repository)
      ensures !Signed(old(state)) ==> state == old(state) && repository.storage == old(repository.storage)
      ensures Signed(old(state)) ==>
        var u := old(state).userId.value;
        match old(repository.LoadLevel(u, now))
        case Failure(_) => state == old(state) && repository.storage == old(repository.storage)
        case Success(stored) =>
          if LevelKey(stored.userId) in repository.unwritable then
            state == old(state) && repository.storage == old(repository.storage)
          else
            var p := GainExperience(u, stored, amount);
            && Stored(repository.storage, LevelKey(stored.userId)) == Some(LevelRecord(LevelAfter(stored, p, now)))
            && state.level.Some? && repository.LoadLevel(u, now) == Success(state.level.value)
            && (stored.userId == u ==> state.level == Some(LevelAfter(stored, p, now)))
            && (if p.canLevelUp
                then PointsRecorded(u, p.currentLevel * 10, "level_up", None, Some("level"),
                                    Some(LevelUpDescription(p.currentLevel)), txId, now)
                else PointsUntouched(u))
            && SameExcept(old(repository.storage), repository.storage, {LevelKey(stored.userId), PointTransactionsKey(u)})
            && state == old(state).(level := state.level, pointBalance := state.pointBalance,
                                    pointTransactions := state.pointTransactions)
    {
      if !TruthyString(state.userId) {
        return;
      }
      ghost var u := state.userId.value;
      var result := repository.AddExperience(state.userId.value, amount, now);
      if result.Success? {
        LoadLevel(now);
        assert Stored(repository.storage, PointTransactionsKey(u)) == Stored(old(repository.storage), PointTransactionsKey(u));
        assert repository.LoadLog(u) == old(repository.LoadLog(u));
        if result.data.canLevelUp {
          ghost var levelBlob := Stored(repository.storage, LevelKey(u));
          AddPoints(result.data.currentLevel * 10, "level_up", None, Some("level"),
                    Some(LevelUpDescription(result.data.currentLevel)), txId, now);
          assert Stored(repository.storage, LevelKey(u)) == levelBlob;
        }
      }
    }

    // -------------------------------------------------------------------------
    // Streaks
    // -------------------------------------------------------------------------

    /**
     * Records an activity and merges the streak the repository saved into
     * the cache by id: the cached streak with that id is replaced, or the
     * streak is appended when none has it. A failed save changes nothing.
     */
    method UpdateStreakActivity(kind: string, activityDate: Timestamp, newId: string, now: Timestamp)
      modifies this, repository
      ensures repository == old(repository)
      ensures !Signed(old(state)) ==> state == old(state) && repository.storage == old(repository.storage)
      ensures Signed(old(state)) ==>
        var s := old(repository.StreakAfterActivity(state.userId.value, kind, activityDate, newId, now));
        var saved := old(repository.LoadStreaks(s.userId));
        if saved.Success? && StreaksKey(s.userId) !in repository.unwritable then
          && repository.storage == old(repository.storage)[StreaksKey(s.userId) := StreakList(Upsert(saved.data, StreakId, s))]
          && state == old(state).(streaks := MergeById(old(state).streaks, StreakId, s))
        else state == old(state) && repository.storage == old(repository.storage)
    {
      if !TruthyString(state.userId) {
        return;
      }
      var result := repository.UpdateStreakActivity(state.userId.value, kind, activityDate, newId, now);
      if result.Success? {
        state := state.(streaks := MergeById(state.streaks, StreakId, result.data));
      }
    }

    // -------------------------------------------------------------------------
    // Rewards
    // -------------------------------------------------------------------------

    /** Every reward list in storage holds what it held in `wasStorage`. */
    ghost predicate RewardsUntouchedSince(wasStorage: map<StorageKey, Blob>)
      reads this, repository
    {
      forall k: StorageKey :: k.RewardsKey? ==> Stored(repository.storage, k) == Stored(wasStorage, k)
    }

    /**
     * The outcome of the repository's claim, against the reward lists the
     * claim read: `listed`, the signed-in user's list, and `saved`, the list
     * of the reward's owner. A reward that is listed and not yet claimed is
     * written back claimed into its owner's list, every other reward list is
     * left alone, the claim is returned, and the cached rewards are reloaded;
     * otherwise no claim is returned and neither storage nor cache changes.
     */
    ghost predicate RewardClaimedSince(wasStorage: map<StorageKey, Blob>, wasRewards: seq<Reward>,
                                       listed: Result<seq<Reward>>, saved: Result<seq<Reward>>,
                                       u: string, rewardId: string, claimId: string, now: Timestamp,
                                       claim: Option<RewardClaim>)
      reads this, repository
    {
      var found := if listed.Success? then Find(listed.data, RewardId, rewardId) else None;
      if found.Some? && !found.value.claimed && saved.Success? && RewardsKey(found.value.userId) !in repository.unwritable then
        var w := found.value;
        var c := w.(claimed := true, claimedDate := Some(now), updatedDate := now);
        && claim == Some(RewardClaim(claimId, u, rewardId, w.pointsCost, now))
        && Stored(repository.storage, RewardsKey(w.userId)) == Some(RewardList(Upsert(saved.data, RewardId, c)))
        && (forall k: StorageKey :: k.RewardsKey? && k != RewardsKey(w.userId) ==>
              Stored(repository.storage, k) == Stored(wasStorage, k))
        && state.rewards == Loaded(repository.LoadRewards(u), wasRewards)
      else
        claim == None && state.rewards == wasRewards && RewardsUntouchedSince(wasStorage)
    }

    /** The repository's claim against the storage and cache the action started from. */
    twostate predicate RewardClaimed(u: string, rewardId: string, claimId: string, now: Timestamp,
                                     new claim: Option<RewardClaim>)
      reads this, repository
    {
      var listed := old(repository.LoadRewards(u));
      var found := if listed.Success? then Find(listed.data, RewardId, rewardId) else None;
      var saved := if found.Some? then old(repository.LoadRewards(found.value.userId)) else listed;
      RewardClaimedSince(old(repository.storage), old(state.rewards), listed, saved, u, rewardId, claimId, now, claim)
    }

    /**
     * The second half of a claim: asks the repository to claim the reward
     * and reloads the cached rewards when it succeeds. The ghost parameters
     * carry the reward lists and cache as they stood before any points were
     * deducted; they agree with the current ones.
     */
    method ClaimAndReload(ghost wasStorage: map<StorageKey, Blob>, ghost wasRewards: seq<Reward>,
                          ghost listed: Result<seq<Reward>>, ghost saved: Result<seq<Reward>>,
                          u: string, rewardId: string, claimId: string, now: Timestamp)
      returns (claim: Option<RewardClaim>)
      requires state.userId == Some(u) && u != ""
      requires state.rewards == wasRewards
      requires repository.LoadRewards(u) == listed
      requires listed.Success? && Find(listed.data, RewardId, rewardId).Some? ==>
        saved == repository.LoadRewards(Find(listed.data, RewardId, rewardId).value.userId)
      requires forall k: StorageKey :: k.RewardsKey? ==> Stored(repository.storage, k) == Stored(wasStorage, k)
      modifies this, repository
      ensures repository == old(repository)
      ensures RewardClaimedSince(wasStorage, wasRewards, listed, saved, u, rewardId, claimId, now, claim)
      ensures forall k: StorageKey :: !k.RewardsKey? ==> Stored(repository.storage, k) == Stored(old(repository.storage), k)
      ensures state == old(state).(rewards := state.rewards)
    {
      var result := repository.ClaimReward(u, rewardId, claimId, now);
      if result.Success? {
        LoadRewards();
        return Some(result.data);
      }
      return None;
    }

    /**
     * Pays for a priced reward and then claims it: the cost is deducted from
     * the ledger, and stays deducted whether or not the claim succeeds.
     */
    method PayAndClaim(reward: Reward, rewardId: string, claimId: string, txId: string, now: Timestamp)
      returns (claim: Option<RewardClaim>)
      requires Signed(state)
      requires TruthyNumber(reward.pointsCost)
      modifies this, repository
      ensures repository == old(repository)
      ensures var u := old(state).userId.value;
        && PointsRecorded(u, -reward.pointsCost.value, "reward_claim", Some(rewardId), None,
                          Some("Claimed reward: " + reward.title), txId, now)
        && RewardClaimed(u, rewardId, claimId, now, claim)
        && (forall k: StorageKey :: !k.RewardsKey? && k != PointTransactionsKey(u) ==>
              Stored(repository.storage, k) == Stored(old(repository.storage), k))
        && state == old(state).(rewards := state.rewards, pointBalance := state.pointBalance,
                                pointTransactions := state.pointTransactions)
    {
      var userId := state.userId.value;
      ghost var listed := repository.LoadRewards(userId);
      ghost var found := if listed.Success? then Find(listed.data, RewardId, rewardId) else None;
      ghost var saved := if found.Some? then repository.LoadRewards(found.value.userId) else listed;
      DeductPoints(reward.pointsCost.value, "reward_claim", Some(rewardId),
                   Some("Claimed reward: " + reward.title), txId, now);
      assert forall k: StorageKey :: k.RewardsKey? ==> Stored(repository.storage, k) == Stored(old(repository.storage), k);
      repository.RewardsFramed(userId);
      if found.Some? {
        repository.RewardsFramed(found.value.userId);
      }
      ghost var midView := PointsViewOf(userId);
      assert PointsRecordedOver(old(PointsViewOf(userId)), old(repository.LoadLog(userId)), midView, repository.unwritable,
                                userId, -reward.pointsCost.value, "reward_claim", Some(rewardId), None,
                                Some("Claimed reward: " + reward.title), txId, now);
      claim := ClaimAndReload(old(repository.storage), old(state.rewards), listed, saved,
                              userId, rewardId, claimId, now);
      assert PointsViewOf(userId) == midView;
    }

    /**
     * Claims a reward. A reward the cache lists with a truthy points cost is
     * paid for first: without a cached balance, or with a cached total below
     * the cost, nothing happens and no claim is returned.
     */
    method ClaimReward(rewardId: string, claimId: string, txId: string, now: Timestamp)
      returns (claim: Option<RewardClaim>)
      modifies this, repository
      ensures repository == old(repository)
      ensures !Signed(old(state)) ==>
        claim == None && state == old(state) && repository.storage == old(repository.storage)
      ensures Signed(old(state)) ==>
        var u := old(state).userId.value;
        var cached := Find(old(state).rewards, RewardId, rewardId);
        var priced := cached.Some? && TruthyNumber(cached.value.pointsCost);
        var balance := old(state).pointBalance;
        if priced && (balance.None? || balance.value.total < cached.value.pointsCost.value) then
          claim == None && state == old(state) && repository.storage == old(repository.storage)
        else
          && (if priced
              then PointsRecorded(u, -cached.value.pointsCost.value, "reward_claim", Some(rewardId), None,
                                  Some("Claimed reward: " + cached.value.title), txId, now)
              else PointsUntouched(u))
          && RewardClaimed(u, rewardId, claimId, now, claim)
          && (forall k: StorageKey :: !k.RewardsKey? && k != PointTransactionsKey(u) ==>
                Stored(repository.storage, k) == Stored(old(repository.storage), k))
          && state == old(state).(rewards := state.rewards, pointBalance := state.pointBalance,
                                  pointTransactions := state.pointTransactions)
    {
      if !TruthyString(state.userId) {
        return None;
      }
      var reward := Find(state.rewards, RewardId, rewardId);
      if reward.Some? && TruthyNumber(reward.value.pointsCost) {
        var balance := state.pointBalance;
        if balance.None? || balance.value.total < reward.value.pointsCost.value {
          return None;
        }
        claim := PayAndClaim(reward.value, rewardId, claimId, txId, now);
      } else {
        var userId := state.userId.value;
        ghost var listed := repository.LoadRewards(userId);
        ghost var found := if listed.Success? then Find(listed.data, RewardId, rewardId) else None;
        ghost var saved := if found.Some? then repository.LoadRewards(found.value.userId) else listed;
        claim := ClaimAndReload(repository.storage, state.rewards, listed, saved,
                                userId, rewardId, claimId, now);
        assert PointsViewOf(userId) == old(PointsViewOf(userId));
      }
    }

    // -------------------------------------------------------------------------
    // Progress
    // -------------------------------------------------------------------------

    /**
     * Applies a progress update and merges the record the repository saved
     * into the cache by id. A failed update changes nothing.
     */
    method UpdateProgress(update: ProgressUpdate, newId: string, now: Timestamp)
      modifies this, repository
      ensures repository == old(repository)
      ensures !Signed(old(state)) ==> state == old(state) && repository.storage == old(repository.storage)
      ensures Signed(old(state)) ==>
        match old(repository.ProgressAfterUpdate(update, newId, now))
        case Failure(_) => state == old(state) && repository.storage == old(repository.storage)
        case Success(p) =>
          var saved := old(repository.LoadProgress(p.userId, None));
          if saved.Success? && ProgressKey(p.userId) !in repository.unwritable then
            && repository.storage == old(repository.storage)[ProgressKey(p.userId) := ProgressList(Upsert(saved.data, ProgressId, p))]
            && state == old(state).(progress := MergeById(old(state).progress, ProgressId, p))
          else state == old(state) && repository.storage == old(repository.storage)
    {
      if !TruthyString(state.userId) {
        return;
      }
      var result := repository.UpdateProgress(update, newId, now);
      if result.Success? {
        state := state.(progress := MergeById(state.progress, ProgressId, result.data));
      }
    }
  }
}
