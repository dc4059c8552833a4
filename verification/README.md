# Gamification storage and store, modelled in Dafny

This project models the gamification core of a React Native app. It covers
achievements, a points ledger, levels, streaks, leaderboards, rewards and
progress counters, in two layers:

- **`StorageGamificationRepository`** (`repository.dfy`). Every operation
  loads a per-user JSON collection from key-value storage, changes it and
  saves it back. It returns either the data or an error code: `LOAD_FAILED`,
  `SAVE_FAILED`, `NOT_FOUND` or `INVALID_DATA`.
  - The model is a class whose `storage` field maps a storage key to a typed
    blob.
  - Two constant key sets say which keys cannot be read and which cannot be
    written. They drive the failure paths.
  - A blob of the wrong kind under a key reads as `LOAD_FAILED`. This stands
    for JSON that does not parse.
- **`useGamificationStore`** (`store.dfy`). An in-memory cache of the latest
  loaded state, which chains repository calls:
  - an achievement that reaches its requirement is unlocked;
  - an unlock awards the achievement's points;
  - a level-up awards ten points per level;
  - a reward claim is gated on the cached balance and pays before it claims;
  - cached lists are merged by id.

  The model is a class holding the repository object and one `StoreState`
  value. Each `set({...})` is a record update of that value.

The pure rules sit in their own modules, with lemmas about them:

- `collections.dfy`: `find`, `findIndex`, replace-or-push, `map`-merge,
  `filter` and JavaScript's `slice`.
- `points.dfy`: the ledger sum and the per-category totals.
- `progression.dfy`: experience to level, streak continuation, progress
  counters.
- `leaderboard.dfy`: the stable score sort, ranks and a user's standing.

Inputs the source takes from its environment are parameters:

- the clock, as `now` in integer milliseconds;
- the random ids, as `id`, `txId`, `newId` and `claimId`;
- ISO date strings, as integer milliseconds.

JavaScript numbers are `int`. The three fractional results (`levelProgress`,
`percentile`, `progress`) are `real`. JavaScript truthiness is written out:

- `TruthyString`: present and non-empty;
- `TruthyNumber`: present and non-zero;
- `JsRemainder`: the truncating `%`.

## Model

Source paths are relative to the repository root.

| member | source | states |
|---|---|---|
| Collections.FirstIndex | src/infrastructure/repositories/StorageGamificationRepository.ts:133 | `findIndex` returns -1 exactly when no element has the key. Otherwise it returns a position holding the key with no earlier one. |
| Collections.Find | src/infrastructure/repositories/StorageGamificationRepository.ts:109 | `find` returns nothing exactly when no element has the key. Otherwise it returns the element at the first position holding the key. |
| Collections.UpsertThenFind | src/infrastructure/repositories/StorageGamificationRepository.ts:401-406 | After replace-or-push by id, the first element with that id is the saved one. Every other position is unchanged. The list grows by one exactly when the id was absent. |
| Collections.MergeById | src/infrastructure/storage/GamificationStore.ts:276-281 | The cache merge replaces every element with the id and keeps all others. It pushes the record only when no element had the id, and the record ends up in the list. |
| Collections.MergeThenFind | src/infrastructure/storage/GamificationStore.ts:339-344 | After a merge, looking up the id finds the merged record. Merging the same record again changes nothing. |
| Collections.ReplaceAllTwice | src/infrastructure/storage/GamificationStore.ts:148-150 | Two `map` replacements by the same id amount to the second one alone. |
| Collections.FirstIndexSameKeys | src/infrastructure/repositories/StorageGamificationRepository.ts:165 | Lists with the same ids position by position give the same `findIndex` result. |
| Collections.Filter | src/infrastructure/repositories/StorageGamificationRepository.ts:670 | `filter` keeps exactly the elements that pass, and only those. |
| Collections.FilterAppend | src/infrastructure/storage/GamificationStore.ts:326-327 | Filtering distributes over concatenation. |
| Collections.FilterNarrows | src/infrastructure/storage/GamificationStore.ts:326-327 | Filtering by a weaker test and then a stronger one is the same as filtering by the stronger one alone. |
| Collections.FilterKeepsAll | src/infrastructure/storage/GamificationStore.ts:326-327 | A list whose elements all pass is unchanged by the filter. |
| Collections.FilterDropsAll | src/infrastructure/storage/GamificationStore.ts:326-327 | A list whose elements all fail filters to the empty list. |
| Collections.SliceIndex | src/infrastructure/repositories/StorageGamificationRepository.ts:491 | A `slice` index resolves into `0..length`. An index in range is kept, a negative one counts back from the end and stops at 0, and one past the end becomes the length. |
| Collections.Slice | src/infrastructure/repositories/StorageGamificationRepository.ts:234 | `slice(0, n)` with a positive `n` is the first `min(n, length)` elements. `slice(start)` with `0 <= start <= length` is everything from `start`. |
| Collections.SliceWindow | src/infrastructure/repositories/StorageGamificationRepository.ts:491 | Every `slice` is the run of elements from the resolved start, as many as lie before the resolved end. |
| Collections.Page | src/infrastructure/repositories/StorageGamificationRepository.ts:487-494 | Without bounds the entries are kept whole. A limit alone keeps the entries before the resolved limit, and an offset alone keeps those from the resolved offset. Both together take the limit from what the offset leaves. Negative bounds resolve as `slice` does. With a non-negative offset and limit, the page is the window of at most `limit` entries from `offset`, clipped to the list. |
| Collections.PagesTile | src/infrastructure/repositories/StorageGamificationRepository.ts:487-494 | A page of `n` entries at offset `o`, followed by everything from `o + n`, is everything from `o`. Consecutive pages neither skip nor repeat entries. |
| Points.PrependKeepsLedgerConsistent | src/infrastructure/repositories/StorageGamificationRepository.ts:247-273 | Prepending a transaction whose balance is the prior sum plus its amount keeps every recorded balance equal to the sum of it and all older amounts. The new head's balance is the new sum. |
| Points.TotalAppend | src/infrastructure/repositories/StorageGamificationRepository.ts:203 | The `reduce` sum of two logs laid end to end is the sum of their sums. |
| Points.NextTransactionKeepsLedger | src/infrastructure/repositories/StorageGamificationRepository.ts:247-273 | Recording a transaction keeps a consistent ledger consistent. The new total is the old total plus the amount. |
| Points.CategoryTotalsMeaning | src/infrastructure/repositories/StorageGamificationRepository.ts:204-210 | The per-category map holds exactly the truthy categories that occur in the log. Each maps to the sum of that category's amounts. |
| Points.CategorySumOutside | src/infrastructure/repositories/StorageGamificationRepository.ts:204-210 | A category no transaction carries sums to zero. |
| Progression.GainExperience | src/infrastructure/repositories/StorageGamificationRepository.ts:332-337 | The new total is the stored total plus the amount, and the experience to the next level is 100 minus the experience within the level. For a total of at least zero, the level is `total div 100 + 1` with `total mod 100` experience inside it, and `levelProgress` equals the experience within the level. A level-up is reported exactly when the level number grew (line 363). |
| Progression.LevelUpExactlyOnBoundary | src/infrastructure/repositories/StorageGamificationRepository.ts:332-363 | Start from a record whose level agrees with its total. A level-up is reported exactly when the new total crosses a multiple of 100, and the written record agrees with its total again. |
| Progression.RecordActivity | src/infrastructure/repositories/StorageGamificationRepository.ts:438-455 | The counters move by the whole days elapsed. One day increments the current streak and keeps `longest = max(longest, current)`. More than one day restarts at 1 and leaves the longest alone. Less than a day leaves both counters alone. The last activity date always becomes the new date, and a streak whose current run is between 1 and its longest stays so. |
| Progression.SameDayRepeatIsIdempotent | src/infrastructure/repositories/StorageGamificationRepository.ts:438-455 | A second activity within a day of the first moves only the last-activity date. |
| Progression.Increment | src/infrastructure/repositories/StorageGamificationRepository.ts:713-719 | The increment is added to the value, the update date is stamped, and every other field stays. Only a non-zero target recomputes the percentage: below the cap it is `value / target * 100`, and it never exceeds 100. For any non-zero target, including a negative one, 100 is reached exactly when `value / target >= 1`. A falsy target leaves the percentage alone. |
| Progression.NewProgress | src/infrastructure/repositories/StorageGamificationRepository.ts:699-710 | A record created for a metric with none carries the given id, user, metric, category and period. It holds the increment as its value at 0% with no target, and both its dates are the current time. |
| Leaderboards.InsertByScore | src/infrastructure/repositories/StorageGamificationRepository.ts:560 | One insertion step of the sort adds exactly the inserted entry to the multiset of entries. |
| Leaderboards.SortByScore | src/infrastructure/repositories/StorageGamificationRepository.ts:560 | The sort is a permutation of its input. |
| Leaderboards.InsertKeepsOrder | src/infrastructure/repositories/StorageGamificationRepository.ts:560 | Inserting into a list in score order keeps it in score order. |
| Leaderboards.SortByScoreOrders | src/infrastructure/repositories/StorageGamificationRepository.ts:560 | The sorted entries run from the highest score to the lowest. |
| Leaderboards.InsertKeepsTies | src/infrastructure/repositories/StorageGamificationRepository.ts:560 | An insertion step places the entry before the entries of equal score. |
| Leaderboards.SortByScoreIsStable | src/infrastructure/repositories/StorageGamificationRepository.ts:560 | The sort is stable: for every score, the entries holding it keep their prior relative order. |
| Leaderboards.AssignRanks | src/infrastructure/repositories/StorageGamificationRepository.ts:562-564 | The `forEach` gives every entry the rank `position + 1` and changes nothing else. |
| Leaderboards.RankingOf | src/infrastructure/repositories/StorageGamificationRepository.ts:516-537 | `NOT_FOUND` exactly when no entry has the user id. Otherwise, for the user's first entry, the result carries its rank and score. Users above is rank - 1, users below is total - rank, and the percentile is `(total - rank) / total * 100`. The percentile is absent when the total is 0. |
| Leaderboards.RankingOnWellRankedBoard | src/infrastructure/repositories/StorageGamificationRepository.ts:527-537 | On a board the update leaves behind, a listed user's rank is their position plus one. Users above is their position, and users below is the number of entries after them. The percentile is `(N - rank) / N * 100` and lies in [0, 100). |
| Leaderboards.PercentileBounds | src/infrastructure/repositories/StorageGamificationRepository.ts:528 | With `1 <= rank <= total`, `(total - rank) / total * 100` lies in [0, 100). |
| Leaderboards.RankedIsWellOrdered | src/infrastructure/repositories/StorageGamificationRepository.ts:560-564 | Ranking a list in score order keeps the order and numbers the entries 1..N. |
| Leaderboards.RerankedIsWellRanked | src/infrastructure/repositories/StorageGamificationRepository.ts:552-565 | After an entry update, ranks are exactly 1..N in list order and scores do not increase along the list. The list grows by one exactly when the id was new, and the updated entry sits at the position its rank names. |
| Repository.StorageGamificationRepository.constructor | src/infrastructure/repositories/StorageGamificationRepository.ts:43-83 | The storage starts as the given map, with the given unreadable and unwritable keys. |
| Repository.StorageGamificationRepository.SaveJson | src/infrastructure/repositories/StorageGamificationRepository.ts:63-83 | A write replaces exactly one key and succeeds. When the key cannot be written, it fails with `SAVE_FAILED` and changes nothing. |
| Repository.StorageGamificationRepository.LoadAchievements | src/infrastructure/repositories/StorageGamificationRepository.ts:89-91 | An unreadable key fails with `LOAD_FAILED`. A user with nothing stored reads as the empty list (line 44 default). A readable stored achievement list is returned as stored, and a blob of any other kind is `LOAD_FAILED`. |
| Repository.StorageGamificationRepository.SaveAchievements | src/infrastructure/repositories/StorageGamificationRepository.ts:93-99 | An empty list succeeds without writing. Any other list is written under its first record's user. |
| Repository.StorageGamificationRepository.GetAchievementById | src/infrastructure/repositories/StorageGamificationRepository.ts:101-121 | A load failure is passed on. `NOT_FOUND` exactly when no stored achievement has the id. Otherwise the result is the first stored achievement with that id. |
| Repository.StorageGamificationRepository.UpdateAchievementProgress | src/infrastructure/repositories/StorageGamificationRepository.ts:123-154 | `NOT_FOUND` for an unknown id, with nothing written. Otherwise only that slot changes, and only its progress and update date. The list is written back, and the returned achievement never goes from locked to unlocked. |
| Repository.StorageGamificationRepository.UnlockAchievement | src/infrastructure/repositories/StorageGamificationRepository.ts:156-188 | `NOT_FOUND` for an unknown id, with nothing written. Otherwise only that slot changes. It becomes unlocked and stamped, with progress equal to its requirement. |
| Repository.StorageGamificationRepository.LoadLog | src/infrastructure/repositories/StorageGamificationRepository.ts:221-237 | An unreadable key fails with `LOAD_FAILED`. A user with nothing stored has the empty log. A readable stored log is returned as stored, and a blob of any other kind is `LOAD_FAILED`. |
| Repository.StorageGamificationRepository.LoadPointTransactions | src/infrastructure/repositories/StorageGamificationRepository.ts:221-237 | Succeeds exactly when the log loads. A falsy limit returns the whole log. A truthy limit returns the log up to the resolved `slice` end. A positive limit gives the newest `min(limit, length)` transactions, and a negative limit `-k` drops the `k` oldest. |
| Repository.StorageGamificationRepository.LoadPointBalance | src/infrastructure/repositories/StorageGamificationRepository.ts:194-219 | The total is the sum of all amounts. The category map holds exactly the truthy categories that occur, each with the sum of its amounts. Its loop is proved against `CategoryTotals`. |
| Repository.StorageGamificationRepository.AddPoints | src/infrastructure/repositories/StorageGamificationRepository.ts:239-285 | A load failure changes nothing. Otherwise exactly one transaction is prepended, with balance equal to the prior total plus the amount. The older transactions stay unchanged and in order. |
| Repository.StorageGamificationRepository.DeductPoints | src/infrastructure/repositories/StorageGamificationRepository.ts:287-295 | `addPoints` with the amount negated and no category. |
| Repository.StorageGamificationRepository.LoadLevel | src/infrastructure/repositories/StorageGamificationRepository.ts:301-313 | An unreadable key fails with `LOAD_FAILED`. A user with nothing stored reads as level 1 with no experience. A readable stored level record is returned as stored, and a blob of any other kind is `LOAD_FAILED`. |
| Repository.StorageGamificationRepository.SaveLevel | src/infrastructure/repositories/StorageGamificationRepository.ts:315-317 | The level is written under its user's key. |
| Repository.StorageGamificationRepository.AddExperience | src/infrastructure/repositories/StorageGamificationRepository.ts:319-366 | A load failure changes nothing. Otherwise the stored record is rewritten with the level, experience and total that `GainExperience` computes, and that progress is returned. |
| Repository.StorageGamificationRepository.LoadStreaks | src/infrastructure/repositories/StorageGamificationRepository.ts:372-374 | An unreadable key fails with `LOAD_FAILED`. A user with nothing stored has no streaks. A readable stored streak list is returned as stored, and a blob of any other kind is `LOAD_FAILED`. |
| Repository.StorageGamificationRepository.LoadStreakByType | src/infrastructure/repositories/StorageGamificationRepository.ts:376-393 | A load failure is passed on. `NOT_FOUND` exactly when no streak has the type. Otherwise the result is the first stored streak of that type. |
| Repository.StorageGamificationRepository.SaveStreak | src/infrastructure/repositories/StorageGamificationRepository.ts:395-408 | The streak replaces the one with its id in its user's list, or is pushed. A load failure writes nothing. |
| Repository.StorageGamificationRepository.UpdateStreakActivity | src/infrastructure/repositories/StorageGamificationRepository.ts:410-464 | The saved and returned streak is `RecordActivity` of the first loaded streak of that type. When the type has none, it is a fresh streak at 1/1. Its last activity date is always the new date. When the streaks cannot be read at all, the save fails too and nothing is written. |
| Repository.StorageGamificationRepository.LoadLeaderboard | src/infrastructure/repositories/StorageGamificationRepository.ts:470-503 | An unreadable key fails with `LOAD_FAILED`. A missing board reads as an empty one with no participants. A readable stored board is returned with only its entries paged: `slice(offset)` then `slice(0, limit)` for the bounds given (`Page`). Every other field stays as stored. |
| Repository.StorageGamificationRepository.GetUserRanking | src/infrastructure/repositories/StorageGamificationRepository.ts:505-540 | A load failure is passed on. `NOT_FOUND` exactly when the user has no entry on the whole board. Otherwise the standing is `RankingOf` the board for the user: rank, score, users above and below, and percentile of their first entry. Users above plus the user plus users below make up the participant count. |
| Repository.StorageGamificationRepository.UpdateLeaderboardEntry | src/infrastructure/repositories/StorageGamificationRepository.ts:542-578 | The board written back holds the replaced-or-pushed entries, stably sorted by score and ranked 1..N. Its participant count is N. The returned entry carries the rank of its position. |
| Repository.StorageGamificationRepository.LoadRewards | src/infrastructure/repositories/StorageGamificationRepository.ts:584-586 | An unreadable key fails with `LOAD_FAILED`. A user with nothing stored has no rewards. A readable stored reward list is returned as stored, and a blob of any other kind is `LOAD_FAILED`. |
| Repository.StorageGamificationRepository.RewardsFramed | src/infrastructure/repositories/StorageGamificationRepository.ts:584-586 | A user's reward list reads the same while its key holds the same blob. |
| Repository.StorageGamificationRepository.SaveReward | src/infrastructure/repositories/StorageGamificationRepository.ts:588-601 | The reward replaces the one with its id in its user's list, or is pushed. A load failure writes nothing. |
| Repository.StorageGamificationRepository.ClaimReward | src/infrastructure/repositories/StorageGamificationRepository.ts:603-653 | `NOT_FOUND` for an unknown id. `INVALID_DATA` when already claimed, with nothing written. Otherwise only that reward becomes claimed, and the claim spends its points cost. |
| Repository.StorageGamificationRepository.LoadProgress | src/infrastructure/repositories/StorageGamificationRepository.ts:659-674 | An unreadable key fails with `LOAD_FAILED`, and a user with nothing stored has no records. From a readable stored list, a truthy metric returns exactly that metric's records in stored order (`filter`). Without one, the whole list is returned. A blob of any other kind is `LOAD_FAILED`. |
| Repository.StorageGamificationRepository.SaveProgress | src/infrastructure/repositories/StorageGamificationRepository.ts:676-689 | The record replaces the one with its id in its user's list, or is pushed. A load failure writes nothing. |
| Repository.StorageGamificationRepository.ProgressAfterUpdate | src/infrastructure/repositories/StorageGamificationRepository.ts:691-719 | Succeeds exactly when the metric's records load, with failures being `LOAD_FAILED`. When the metric has no record, the result is exactly `NewProgress`: a new record with the new id and the user's id, holding the increment at 0%. Otherwise it is `Increment` applied to the first record of the metric: same id and user, the increment added to its value, the percentage recomputed against the unchanged target, and category and period kept. For a readable stored list and a non-empty metric, this is stated directly on the stored list's records of that metric. A non-empty metric yields a record of that metric. |
| Repository.StorageGamificationRepository.UpdateProgress | src/infrastructure/repositories/StorageGamificationRepository.ts:691-728 | The saved and returned record is the first record of the metric with the increment added (`Increment`). When there is none, it is a new record holding the increment at 0%. A load failure writes nothing. |
| Store.MergeMetricReplacesOnlyThatMetric | src/infrastructure/storage/GamificationStore.ts:320-332 | Reloading one metric keeps the cached records of every other metric, in order. That metric's records become exactly the loaded ones. |
| Store.RecordingKeepsLedgerConsistent | src/infrastructure/storage/GamificationStore.ts:200-214 | After the store's `addPoints` on a consistent ledger, the ledger is one transaction longer and still consistent. Its total and the cached balance are the old total plus the amount. The cached recent list holds the newest ten with the new one first. |
| Store.GamificationStore.constructor | src/infrastructure/storage/GamificationStore.ts:80-96 | The store starts with no user and empty caches over the given repository. |
| Store.GamificationStore.SetUserId | src/infrastructure/storage/GamificationStore.ts:100-102 | Only the user id changes. |
| Store.GamificationStore.SetRepository | src/infrastructure/storage/GamificationStore.ts:104-106 | Only the repository changes. |
| Store.GamificationStore.LoadAchievements | src/infrastructure/storage/GamificationStore.ts:129-141 | Without a user nothing changes. Otherwise the cached achievements are replaced on success and kept on failure, and loading ends false. |
| Store.GamificationStore.LoadPointBalance | src/infrastructure/storage/GamificationStore.ts:182-189 | The cached balance becomes the one derived from the stored log. A failure keeps the old one. |
| Store.GamificationStore.LoadPointTransactions | src/infrastructure/storage/GamificationStore.ts:191-198 | The cached transactions become the loaded ones. A failure keeps the old ones. |
| Store.GamificationStore.LoadLevel | src/infrastructure/storage/GamificationStore.ts:232-239 | The cached level becomes the loaded one. A failure keeps the old one. |
| Store.GamificationStore.LoadStreaks | src/infrastructure/storage/GamificationStore.ts:262-269 | The cached streaks become the loaded ones. A failure keeps the old ones. |
| Store.GamificationStore.LoadRewards | src/infrastructure/storage/GamificationStore.ts:286-293 | The cached rewards become the loaded ones. A failure keeps the old ones. |
| Store.GamificationStore.LoadProgress | src/infrastructure/storage/GamificationStore.ts:320-332 | With a truthy metric, the loaded records replace that metric's cached records after the others. Without one they replace the whole list. A failure changes nothing. |
| Store.GamificationStore.AddPoints | src/infrastructure/storage/GamificationStore.ts:200-214 | The ledger gains the transaction, and the cached balance and latest ten transactions are reloaded from the new ledger. On failure neither changes. No other storage key changes. |
| Store.GamificationStore.DeductPoints | src/infrastructure/storage/GamificationStore.ts:216-229 | As `addPoints` with the amount negated and no category. |
| Store.GamificationStore.UnlockAchievement | src/infrastructure/storage/GamificationStore.ts:159-179 | The stored list gets the achievement unlocked, and the cached copy is replaced. Its points, when non-zero, are awarded with source and category "achievement". Nothing changes when the unlock fails. |
| Store.GamificationStore.UpdateAchievementProgress | src/infrastructure/storage/GamificationStore.ts:143-157 | The progress is stored and cached. When it reaches the requirement of an achievement not yet unlocked, the end state is the unlock of that achievement with its award. Nothing changes when the update fails. |
| Store.GamificationStore.UnlockAfterUpdate | src/infrastructure/storage/GamificationStore.ts:152-155 | An unlock chained after a progress update ends where an unlock from the state before the update would. |
| Store.GamificationStore.AddExperience | src/infrastructure/storage/GamificationStore.ts:241-259 | The level record is rewritten and the cache reloaded. On a level-up, `level * 10` points are awarded with source "level_up" and category "level", and only then. No other key changes. |
| Store.GamificationStore.UpdateStreakActivity | src/infrastructure/storage/GamificationStore.ts:271-283 | The saved streak replaces the cached streak with its id, or is appended. All other cached records stay. A failed save changes nothing. |
| Store.GamificationStore.ClaimAndReload | src/infrastructure/storage/GamificationStore.ts:307-316 | A successful repository claim returns the claim and reloads the cached rewards. A failed one returns nothing and changes no reward list or cache. |
| Store.GamificationStore.PayAndClaim | src/infrastructure/storage/GamificationStore.ts:305-316 | The cost is deducted before the claim. It stays deducted whether or not the claim succeeds. |
| Store.GamificationStore.ClaimReward | src/infrastructure/storage/GamificationStore.ts:295-317 | Without a user, no claim and no change. A cached priced reward with no cached balance, or a total below the cost, gives no claim, no deduction and no change. Otherwise a priced reward is paid for, and the repository claim follows. |
| Store.GamificationStore.UpdateProgress | src/infrastructure/storage/GamificationStore.ts:334-346 | The saved record replaces the cached record with its id, or is appended. A failed update changes nothing. |

## Left out

- Storage access (`storageRepository.getString` / `setString`, `unwrap`, JSON
  `stringify` / `parse`) is a map from key to typed blob. Failures come from
  two fixed key sets. Error names and messages are not modelled, only the
  codes.
- Storage failures are fixed per key for a whole operation: a key that
  cannot be read or written stays so for every call within it. The source
  can fail on one call and succeed on the next. The two lines below name what
  this leaves out.
- Store.GamificationStore.UpdateAchievementProgress: promises that the
  unlock follows a successful progress update that meets the requirement. In
  the source, the unlock's own load or save can still fail, leaving the
  achievement updated but locked.
- Repository.StorageGamificationRepository.UpdateStreakActivity: never saves
  the fresh streak it builds after a failed load, because the save reads the
  same unreadable key. In the source, a transient read failure followed by a
  successful read appends a second streak of that type.
- `createError` and the error messages: only the error codes are modelled.
- The `POINTS` storage key: nothing reads or writes it.
- `OPERATION_FAILED`: no modelled operation produces it.
- `initialize` and its `Promise.all` fan-out: it is concurrency.
- The `__DEV__` console logging.
- The React hooks and the `src/index.ts` re-exports: they are UI bindings,
  and helpers that the repository's entity files do not define.
- Each operation takes one `now` for all the timestamps it writes. The source
  reads the clock afresh each time.
- Ids are parameters rather than random strings.
- Dates are integer milliseconds rather than ISO strings.
- Repository.StorageGamificationRepository.AddExperience: the `source`
  argument is not modelled. The source passes it along but never uses it.
- Progression.GainExperience: levels and remainders are exact only for a
  non-negative total. JavaScript's `%` truncates, which `JsRemainder` models,
  but the contract states the split only when the total is at least zero.
- The fractional results are exact `real`s, not IEEE doubles. These are
  `levelProgress`, `percentile` and `progress`.
- `percentile` is `None` when the participant count is zero. JavaScript
  would produce a non-finite number.
- Repository.StorageGamificationRepository.UpdateLeaderboardEntry: the
  returned entry is the first entry with its id after re-ranking. The source
  returns the caller's entry object, which the rank loop mutates through
  aliasing. The two agree when ids are unique on the board.
- The in-place `entries.sort` is modelled as a stable insertion sort over a
  sequence, not an in-place array sort.
- Repository.StorageGamificationRepository.ProgressAfterUpdate: with an empty
  metric, `loadProgress` does not filter, because `""` is falsy. The update
  then increments the user's first record of any metric. The metric
  guarantee is stated only for a non-empty metric.
- Store.GamificationStore.ClaimAndReload and Store.GamificationStore.PayAndClaim
  are the two halves of `claimReward`: the repository claim with its reload,
  and paying before it. They are separate methods, not separate source
  functions.
