/**
 * The persisted metrics record of MetricsTracker.jsx and the pure updates applied to it
 * (the `prev => ({...prev, ...})` updaters). Instants are milliseconds since the epoch.
 */
module MetricsRecord {
  import opened Wrappers

  /** One entry of `challengeDetails`; `completedAt` is the completion instant. */
  datatype ChallengeRecord = ChallengeRecord(
    challengeId: int,
    difficulty: string,
    timeSpent: real,
    attempts: int,
    completedAt: nat)

  /**
   * The record as stored. The counters are plain integers because a record read back
   * from storage is not checked; `WellFormed` is the invariant the updates keep.
   */
  datatype MetricsState = MetricsState(
    sessionId: string,
    startTime: nat,
    attempts: int,
    errors: int,
    skips: int,
    completedChallenges: int,
    challengeDetails: seq<ChallengeRecord>)

  /** What `getMetricsData` returns: the record plus `exportTime` and `duration` (seconds). */
  datatype MetricsExport = MetricsExport(metrics: MetricsState, exportTime: nat, duration: real)

  /** The three kinds of change the recorder makes to the record, reset aside. */
  datatype Event = Attempt(success: bool) | Skip | Completion(record: ChallengeRecord)

  predicate WellFormed(m: MetricsState) {
    && 0 <= m.errors <= m.attempts
    && 0 <= m.skips
    && m.completedChallenges == |m.challengeDetails|
  }

  /** The record created when storage holds none, and by a reset. */
  function Fresh(sessionId: string, now: nat): (m: MetricsState)
    ensures WellFormed(m) && m.attempts == m.skips == 0 && m.challengeDetails == []
    ensures m.sessionId == sessionId && m.startTime == now
  {
    MetricsState(sessionId, now, 0, 0, 0, 0, [])
  }

  /**
   * Seconds between the start instant and `end` (a float division in the source),
   * or 0 when no interval is active.
   */
  function Elapsed(start: Option<nat>, end: nat): (seconds: real)
    ensures start.None? ==> seconds == 0.0
    ensures start.Some? ==> seconds * 1000.0 == (end - start.value) as real
    ensures start.Some? && start.value <= end ==> seconds >= 0.0
  {
    if start.Some? then (end - start.value) as real / 1000.0 else 0.0
  }

  /** The update each recorder operation hands to `setMetrics`. */
  function Apply(m: MetricsState, e: Event): MetricsState
  {
    match e
    case Attempt(success) =>
      m.(attempts := m.attempts + 1, errors := m.errors + if success then 0 else 1)
    case Skip =>
      m.(skips := m.skips + 1)
    case Completion(r) =>
      m.(completedChallenges := m.completedChallenges + 1, challengeDetails := m.challengeDetails + [r])
  }

  /** The record after a history of events, oldest first. */
  function Replay(m: MetricsState, history: seq<Event>): MetricsState
    decreases |history|
  {
    if history == [] then m
    else Apply(Replay(m, history[..|history| - 1]), history[|history| - 1])
  }

  function CountAttempts(history: seq<Event>): nat
    decreases |history|
  {
    if history == [] then 0
    else CountAttempts(history[..|history| - 1]) + if history[|history| - 1].Attempt? then 1 else 0
  }

  function CountCompletions(history: seq<Event>): nat
    decreases |history|
  {
    if history == [] then 0
    else CountCompletions(history[..|history| - 1]) + if history[|history| - 1].Completion? then 1 else 0
  }

  /**
   * `m'` extends `m`: same session and start, no counter went down, and the detail log
   * only gained entries at its end.
   */
  predicate Grows(m: MetricsState, m': MetricsState) {
    && m'.sessionId == m.sessionId && m'.startTime == m.startTime
    && m.attempts <= m'.attempts && m.errors <= m'.errors && m.skips <= m'.skips
    && m.completedChallenges <= m'.completedChallenges
    && |m.challengeDetails| <= |m'.challengeDetails|
    && m'.challengeDetails[..|m.challengeDetails|] == m.challengeDetails
  }

  /** recordAttempt: one more attempt, one more error exactly when it failed, nothing else. */
  lemma AttemptEffect(m: MetricsState, success: bool)
    ensures var m' := Apply(m, Attempt(success));
      && m'.attempts == m.attempts + 1
      && (m'.errors == m.errors + 1 <==> !success)
      && (success ==> m'.errors == m.errors)
      && m'.(attempts := m.attempts, errors := m.errors) == m
  {
  }

  /** recordSkip: one more skip and nothing else. */
  lemma SkipEffect(m: MetricsState)
    ensures var m' := Apply(m, Skip);
      m'.skips == m.skips + 1 && m'.(skips := m.skips) == m
  {
  }

  /** recordChallengeCompletion: exactly one record appended at the end, earlier ones untouched. */
  lemma CompletionEffect(m: MetricsState, r: ChallengeRecord)
    ensures var m' := Apply(m, Completion(r));
      && m'.completedChallenges == m.completedChallenges + 1
      && |m'.challengeDetails| == |m.challengeDetails| + 1
      && m'.challengeDetails[|m.challengeDetails|] == r
      && m'.challengeDetails[..|m.challengeDetails|] == m.challengeDetails
      && m'.(completedChallenges := m.completedChallenges, challengeDetails := m.challengeDetails) == m
  {
  }

  /** Every single update keeps the invariant and only grows the record. */
  lemma ApplyKeepsInvariant(m: MetricsState, e: Event)
    requires WellFormed(m)
    ensures WellFormed(Apply(m, e)) && Grows(m, Apply(m, e))
  {
    var m' := Apply(m, e);
    assert m'.challengeDetails[..|m.challengeDetails|] == m.challengeDetails;
  }

  lemma GrowsTransitive(a: MetricsState, b: MetricsState, c: MetricsState)
    requires Grows(a, b) && Grows(b, c)
    ensures Grows(a, c)
  {
    assert c.challengeDetails[..|a.challengeDetails|] == c.challengeDetails[..|b.challengeDetails|][..|a.challengeDetails|];
  }

  /**
   * Over any history without a reset: `errors <= attempts` and
   * `completedChallenges == |challengeDetails|` hold throughout, every counter is
   * non-decreasing, the log is append-only, and attempts and completions are counted
   * one per event.
   */
  lemma {:induction false} ReplayKeepsInvariant(m: MetricsState, history: seq<Event>)
    requires WellFormed(m)
    ensures WellFormed(Replay(m, history)) && Grows(m, Replay(m, history))
    ensures Replay(m, history).attempts == m.attempts + CountAttempts(history)
    ensures |Replay(m, history).challengeDetails| == |m.challengeDetails| + CountCompletions(history)
    decreases |history|
  {
    if history == [] {
      assert m.challengeDetails[..|m.challengeDetails|] == m.challengeDetails;
    } else {
      var before := Replay(m, history[..|history| - 1]);
      ReplayKeepsInvariant(m, history[..|history| - 1]);
      ApplyKeepsInvariant(before, history[|history| - 1]);
      GrowsTransitive(m, before, Replay(m, history));
    }
  }

  /** getMetricsData: the record unchanged, tagged with the export instant and the duration. */
  function Snapshot(m: MetricsState, now: nat): (e: MetricsExport)
    ensures e.metrics == m && e.exportTime == now
    ensures e.duration * 1000.0 == (now - m.startTime) as real
  {
    MetricsExport(m, now, (now - m.startTime) as real / 1000.0)
  }

  /** Two exports with no change in between differ only in `exportTime` and `duration`. */
  lemma ExportStable(m: MetricsState, t1: nat, t2: nat)
    ensures Snapshot(m, t1).metrics == Snapshot(m, t2).metrics
    ensures t1 == t2 ==> Snapshot(m, t1) == Snapshot(m, t2)
    ensures Snapshot(m, t2).duration - Snapshot(m, t1).duration == (t2 - t1) as real / 1000.0
  {
  }
}
