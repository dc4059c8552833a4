/**
 * The records of the gamification domain and the result type every
 * repository operation returns. Dates are milliseconds since the epoch;
 * ids and other strings are `string`. Fields that no operation reads or
 * writes (icons, descriptions of definitions, metadata) are not modelled.
 */
module Entities {

  datatype Option<+T> = None | Some(value: T)

  /** The error codes a failed repository operation is tagged with. */
  datatype ErrorCode = LoadFailed | SaveFailed | NotFound | InvalidData | OperationFailed

  /** Either the data of a successful operation or the code of its failure. */
  datatype Result<+T> = Success(data: T) | Failure(code: ErrorCode)

  /** Milliseconds since the epoch; stands for the ISO date strings of the records. */
  type Timestamp = int

  /** JavaScript truthiness of an optional string: present and not empty. */
  predicate TruthyString(s: Option<string>) {
    s.Some? && s.value != ""
  }

  /** JavaScript truthiness of an optional number: present and not zero. */
  predicate TruthyNumber(n: Option<int>) {
    n.Some? && n.value != 0
  }

  datatype Achievement = Achievement(
    id: string,
    userId: string,
    kind: string,
    title: string,
    unlocked: bool,
    unlockedDate: Option<Timestamp>,
    progress: int,
    requirement: int,
    points: Option<int>,
    createdDate: Timestamp,
    updatedDate: Timestamp)

  datatype PointTransaction = PointTransaction(
    id: string,
    userId: string,
    amount: int,
    source: string,
    sourceId: Option<string>,
    category: Option<string>,
    description: Option<string>,
    balance: int,
    createdDate: Timestamp)

  /** Derived on every read from the transaction log, never stored. */
  datatype PointBalance = PointBalance(
    userId: string,
    total: int,
    byCategory: map<string, int>,
    lastUpdated: Timestamp)

  datatype Level = Level(
    id: string,
    userId: string,
    currentLevel: int,
    currentExperience: int,
    totalExperience: int,
    experienceToNextLevel: int,
    levelProgress: real,
    createdDate: Timestamp,
    updatedDate: Timestamp)

  datatype LevelProgress = LevelProgress(
    userId: string,
    currentLevel: int,
    currentExperience: int,
    totalExperience: int,
    experienceToNextLevel: int,
    levelProgress: real,
    canLevelUp: bool)

  datatype Streak = Streak(
    id: string,
    userId: string,
    kind: string,
    currentStreak: int,
    longestStreak: int,
    lastActivityDate: Timestamp,
    isActive: bool,
    createdDate: Timestamp,
    updatedDate: Timestamp)

  datatype LeaderboardEntry = LeaderboardEntry(
    id: string,
    userId: string,
    leaderboardId: string,
    rank: int,
    score: int,
    metric: string,
    createdDate: Timestamp,
    updatedDate: Timestamp)

  datatype Leaderboard = Leaderboard(
    id: string,
    name: string,
    metric: string,
    entries: seq<LeaderboardEntry>,
    totalParticipants: int,
    lastUpdated: Timestamp)

  /**
   * A user's standing on a leaderboard. The percentile is a floating-point
   * quotient in the source; it is `None` where the source divides by a zero
   * participant count.
   */
  datatype LeaderboardRanking = LeaderboardRanking(
    userId: string,
    rank: int,
    score: int,
    percentile: Option<real>,
    aboveUsers: int,
    belowUsers: int)

  datatype Reward = Reward(
    id: string,
    userId: string,
    kind: string,
    title: string,
    pointsCost: Option<int>,
    levelRequired: Option<int>,
    unlocked: bool,
    claimed: bool,
    claimedDate: Option<Timestamp>,
    expiresAt: Option<Timestamp>,
    createdDate: Timestamp,
    updatedDate: Timestamp)

  datatype RewardClaim = RewardClaim(
    id: string,
    userId: string,
    rewardId: string,
    pointsSpent: Option<int>,
    claimedDate: Timestamp)

  datatype Period = Daily | Weekly | Monthly | AllTime

  datatype Progress = Progress(
    id: string,
    userId: string,
    metric: string,
    currentValue: int,
    targetValue: Option<int>,
    progress: real,
    category: Option<string>,
    period: Option<Period>,
    createdDate: Timestamp,
    updatedDate: Timestamp)

  datatype ProgressUpdate = ProgressUpdate(
    userId: string,
    metric: string,
    increment: int,
    category: Option<string>,
    period: Option<Period>)

  // Key functions used to look records up by id (or by another field).
  function AchievementId(a: Achievement): string { a.id }
  function StreakId(s: Streak): string { s.id }
  function StreakKind(s: Streak): string { s.kind }
  function EntryId(e: LeaderboardEntry): string { e.id }
  function EntryUser(e: LeaderboardEntry): string { e.userId }
  function RewardId(r: Reward): string { r.id }
  function ProgressId(p: Progress): string { p.id }
  function ProgressMetric(p: Progress): string { p.metric }
}
