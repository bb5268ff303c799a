/**
 * The learning profile as the mission state machine of Python.jsx sees it. The profile
 * belongs to the learning module; only the fields Python.jsx reads or writes are modelled.
 * Dates are day numbers: `toDateString()` of an instant becomes the number of its day.
 */
module Profiles {
  import opened Wrappers

  datatype Profile = Profile(
    completedQuestions: seq<int>,
    skippedQuestions: seq<int>,
    failedAttempts: map<int, int>,
    consecutiveDays: int,
    lastSessionDate: Option<int>)

  /** `completedQuestions.push(id)`. */
  function WithCompletedQuestion(p: Profile, id: int): (r: Profile)
    ensures r.completedQuestions == p.completedQuestions + [id]
    ensures r.(completedQuestions := p.completedQuestions) == p
  {
    p.(completedQuestions := p.completedQuestions + [id])
  }

  /** The day-streak rule applied when a learning mission ends on day `today`. */
  function UpdateStreak(p: Profile, today: int): Profile
  {
    if p.lastSessionDate == Some(today) then p
    else
      var days := if p.lastSessionDate == Some(today - 1) then p.consecutiveDays + 1 else 1;
      p.(consecutiveDays := days, lastSessionDate := Some(today))
  }

  /**
   * Same day: no change. Day after the last session: one more day. Any other date,
   * or none: the streak restarts at 1. Afterwards the last session is today, and no
   * other field changes.
   */
  lemma StreakRule(p: Profile, today: int)
    ensures var r := UpdateStreak(p, today);
      && r.lastSessionDate == Some(today)
      && (p.lastSessionDate == Some(today) ==> r == p)
      && (p.lastSessionDate == Some(today - 1) ==> r.consecutiveDays == p.consecutiveDays + 1)
      && (p.lastSessionDate != Some(today) && p.lastSessionDate != Some(today - 1) ==> r.consecutiveDays == 1)
      && r.(consecutiveDays := p.consecutiveDays, lastSessionDate := p.lastSessionDate) == p
  {
  }

  /** Finishing a second mission on the same day leaves the streak where the first left it. */
  lemma StreakIdempotent(p: Profile, today: int)
    ensures UpdateStreak(UpdateStreak(p, today), today) == UpdateStreak(p, today)
  {
  }

  /** The profile after missions finished on `n` consecutive days starting at `firstDay`. */
  function StreakAfterDays(p: Profile, firstDay: int, n: nat): Profile
    decreases n
  {
    if n == 0 then p else UpdateStreak(StreakAfterDays(p, firstDay, n - 1), firstDay + n - 1)
  }

  /**
   * One mission a day for `n` days grows the streak by one per day after the first,
   * whatever the first day did to it.
   */
  lemma {:induction false} ConsecutiveDaysGrowStreak(p: Profile, firstDay: int, n: nat)
    requires n >= 1
    ensures StreakAfterDays(p, firstDay, n).lastSessionDate == Some(firstDay + n - 1)
    ensures StreakAfterDays(p, firstDay, n).consecutiveDays
         == UpdateStreak(p, firstDay).consecutiveDays + n - 1
    decreases n
  {
    if n > 1 {
      ConsecutiveDaysGrowStreak(p, firstDay, n - 1);
    }
  }
}
