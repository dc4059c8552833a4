/**
 * The per-entity progression rules the repository applies: experience to
 * level at 100 XP per level, streak continuation and reset by whole days
 * elapsed, and per-metric progress counters.
 */
module Progression {

  import opened Entities

  // ---------------------------------------------------------------------------
  // Levels
  // ---------------------------------------------------------------------------

  const ExperiencePerLevel: int := 100

  /** JavaScript's `%`: truncating, so the remainder takes the sign of the dividend. */
  function JsRemainder(a: int, b: int): int
    requires b > 0
  {
    if a >= 0 then a % b else -((-a) % b)
  }

  /** The level record read for a user who has none stored. */
  function DefaultLevel(userId: string, now: Timestamp): Level
  {
    Level(userId + "-level", userId, 1, 0, 0, ExperiencePerLevel, 0.0, now, now)
  }

  /**
   * The outcome of adding `amount` XP to a stored level: the level is
   * `Math.floor(total / 100) + 1`, the XP inside it `total % 100`, and a level
   * up is reported when the new level exceeds the stored one. For a total of
   * at least zero this splits the total into whole levels and a remainder.
   */
  function GainExperience(userId: string, stored: Level, amount: int): (p: LevelProgress)
    ensures p.totalExperience == stored.totalExperience + amount
    ensures p.experienceToNextLevel == ExperiencePerLevel - p.currentExperience
    ensures p.totalExperience >= 0 ==>
      && (p.currentLevel - 1) * ExperiencePerLevel + p.currentExperience == p.totalExperience
      && 0 <= p.currentExperience < ExperiencePerLevel
      && 1 <= p.experienceToNextLevel <= ExperiencePerLevel
      && p.currentLevel >= 1
      && p.levelProgress == p.currentExperience as real
    ensures p.canLevelUp <==> p.currentLevel > stored.currentLevel
  {
    var total := stored.totalExperience + amount;
    var newLevel := total / ExperiencePerLevel + 1;
    var currentExperience := JsRemainder(total, ExperiencePerLevel);
    var experienceToNextLevel := ExperiencePerLevel - currentExperience;
    var levelProgress := (currentExperience as real / ExperiencePerLevel as real) * ExperiencePerLevel as real;
    LevelProgress(userId, newLevel, currentExperience, total, experienceToNextLevel, levelProgress,
                  newLevel > stored.currentLevel)
  }

  /** The stored level record after an experience gain. */
  function LevelAfter(stored: Level, p: LevelProgress, now: Timestamp): Level
  {
    stored.(currentLevel := p.currentLevel, currentExperience := p.currentExperience,
            totalExperience := p.totalExperience, experienceToNextLevel := p.experienceToNextLevel,
            levelProgress := p.levelProgress, updatedDate := now)
  }

  /** A stored level whose level number agrees with its total. */
  ghost predicate LevelMatchesTotal(l: Level) {
    l.totalExperience >= 0 && l.currentLevel == l.totalExperience / ExperiencePerLevel + 1
  }

  /**
   * From a stored level that agrees with its total, a gain reports a level
   * up exactly when the new total crosses a multiple of 100, and the record
   * written back agrees with its total again.
   */
  lemma LevelUpExactlyOnBoundary(userId: string, stored: Level, amount: int, now: Timestamp)
    requires LevelMatchesTotal(stored)
    requires stored.totalExperience + amount >= 0
    ensures GainExperience(userId, stored, amount).canLevelUp <==>
      (stored.totalExperience + amount) / ExperiencePerLevel > stored.totalExperience / ExperiencePerLevel
    ensures LevelMatchesTotal(LevelAfter(stored, GainExperience(userId, stored, amount), now))
  {
    var p := GainExperience(userId, stored, amount);
    assert (p.currentLevel - 1) * ExperiencePerLevel + p.currentExperience == p.totalExperience;
  }

  // ---------------------------------------------------------------------------
  // Streaks
  // ---------------------------------------------------------------------------

  const MsPerDay: int := 1000 * 60 * 60 * 24

  /** `Math.floor` of the elapsed milliseconds over the length of a day. */
  function DaysBetween(last: Timestamp, current: Timestamp): int
  {
    (current - last) / MsPerDay
  }

  /** The streak created for a type that has none (or could not be loaded). */
  function NewStreak(id: string, userId: string, kind: string, activityDate: Timestamp, now: Timestamp): Streak
  {
    Streak(id, userId, kind, 1, 1, activityDate, true, now, now)
  }

  /** The counters of a streak never claim a current run longer than the longest. */
  ghost predicate StreakCountersValid(s: Streak) {
    1 <= s.currentStreak <= s.longestStreak
  }

  /**
   * Recording an activity on an existing streak: one whole day after the
   * last activity continues the run, more than one day restarts it at 1, and
   * a repeat within the day (or an earlier date) leaves the counters alone.
   */
  function RecordActivity(s: Streak, activityDate: Timestamp, now: Timestamp): (r: Streak)
    ensures r.id == s.id && r.userId == s.userId && r.kind == s.kind && r.createdDate == s.createdDate
    ensures r.lastActivityDate == activityDate && r.updatedDate == now
    ensures MsPerDay <= activityDate - s.lastActivityDate < 2 * MsPerDay ==>
      && r.currentStreak == s.currentStreak + 1
      && r.longestStreak == (if s.longestStreak >= r.currentStreak then s.longestStreak else r.currentStreak)
      && r.isActive
    ensures 2 * MsPerDay <= activityDate - s.lastActivityDate ==>
      r.currentStreak == 1 && r.longestStreak == s.longestStreak && r.isActive
    ensures activityDate - s.lastActivityDate < MsPerDay ==>
      r.currentStreak == s.currentStreak && r.longestStreak == s.longestStreak && r.isActive == s.isActive
    ensures StreakCountersValid(s) ==> StreakCountersValid(r)
  {
    var daysDiff := DaysBetween(s.lastActivityDate, activityDate);
    var counted :=
      if daysDiff == 1 then
        var current := s.currentStreak + 1;
        s.(currentStreak := current,
           longestStreak := if s.longestStreak >= current then s.longestStreak else current,
           isActive := true)
      else if daysDiff > 1 then
        s.(currentStreak := 1, isActive := true)
      else s;
    counted.(lastActivityDate := activityDate, updatedDate := now)
  }

  /**
   * Two activities within a day of each other: the second only moves the
   * last-activity date, so a same-day repeat never advances the streak.
   */
  lemma SameDayRepeatIsIdempotent(s: Streak, first: Timestamp, second: Timestamp, now1: Timestamp, now2: Timestamp)
    requires first <= second < first + MsPerDay
    ensures var once := RecordActivity(s, first, now1);
      var twice := RecordActivity(once, second, now2);
      && twice.currentStreak == once.currentStreak
      && twice.longestStreak == once.longestStreak
      && twice.isActive == once.isActive
      && twice.lastActivityDate == second
  {
  }

  // ---------------------------------------------------------------------------
  // Progress counters
  // ---------------------------------------------------------------------------

  /** The record created for a metric that has none: the increment as its value, 0% progress. */
  function NewProgress(id: string, update: ProgressUpdate, now: Timestamp): (r: Progress)
    ensures r.id == id && r.userId == update.userId && r.metric == update.metric
    ensures r.currentValue == update.increment && r.progress == 0.0 && r.targetValue.None?
    ensures r.category == update.category && r.period == update.period
    ensures r.createdDate == now && r.updatedDate == now
  {
    Progress(id, update.userId, update.metric, update.increment, None, 0.0,
             update.category, update.period, now, now)
  }

  /**
   * Adding to an existing record: the increment is added to the value, and
   * only a truthy target recomputes the percentage, capped at 100, which is
   * reached exactly when a positive target is met.
   */
  function Increment(p: Progress, increment: int, now: Timestamp): (r: Progress)
    ensures r == p.(currentValue := p.currentValue + increment, progress := r.progress, updatedDate := now)
    ensures !TruthyNumber(p.targetValue) ==> r.progress == p.progress
    ensures TruthyNumber(p.targetValue) ==> r.progress <= 100.0
    ensures TruthyNumber(p.targetValue) ==>
      (r.progress == 100.0 <==> r.currentValue as real / p.targetValue.value as real >= 1.0)
    ensures TruthyNumber(p.targetValue) && r.progress < 100.0 ==>
      r.progress * p.targetValue.value as real == r.currentValue as real * 100.0
    ensures TruthyNumber(p.targetValue) && p.targetValue.value > 0 ==>
      (r.progress == 100.0 <==> r.currentValue >= p.targetValue.value)
    ensures TruthyNumber(p.targetValue) && p.targetValue.value > 0 && r.currentValue >= 0 ==>
      r.progress >= 0.0
  {
    var value := p.currentValue + increment;
    var percent :=
      if TruthyNumber(p.targetValue) then
        var ratio := (value as real / p.targetValue.value as real) * 100.0;
        if ratio < 100.0 then ratio else 100.0
      else p.progress;
    p.(currentValue := value, progress := percent, updatedDate := now)
  }
}
