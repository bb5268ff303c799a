/**
 * The metrics provider of MetricsTracker.jsx: the session-id store, the in-memory record
 * with its persistence effect, and the challenge-start cell that lives outside the record.
 * Clock readings and random draws are parameters.
 */
module MetricsTracker {
  import opened Wrappers
  import opened SessionIds
  import opened MetricsRecord
  import opened BrowserStorage

  /** The stored session id, if it is truthy (present and not the empty string). */
  function StoredSessionId(item: Option<string>): (id: Option<string>)
    ensures id.Some? <==> item.Some? && item.value != ""
    ensures id.Some? ==> id == item
  {
    if item.Some? && item.value != "" then item else None
  }

  /**
   * getSessionId: the stored id when there is one; otherwise a fresh id, which is stored.
   * Either way the store then holds the returned id, so a second call returns it again.
   */
  method GetSessionId(storage: LocalStorage, now: nat, random: nat) returns (id: string)
    requires random < RandomBound
    modifies storage`sessionItem
    ensures StoredSessionId(old(storage.sessionItem)).Some? ==>
      id == old(storage.sessionItem).value && storage.sessionItem == old(storage.sessionItem)
    ensures StoredSessionId(old(storage.sessionItem)).None? ==>
      id == GenerateSessionId(now, random) && storage.sessionItem == Some(id)
    ensures StoredSessionId(storage.sessionItem) == Some(id)
  {
    var stored := storage.sessionItem;
    if stored.Some? && stored.value != "" {
      id := stored.value;
    } else {
      id := GenerateSessionId(now, random);
      storage.sessionItem := Some(id);
    }
  }

  /**
   * The initializer of the `metrics` state: an empty or absent stored value gives a fresh
   * record tagged with the session id; a stored record is taken as it is, unchecked;
   * any other text makes `JSON.parse` fail, and nothing catches that.
   */
  function LoadMetrics(item: Option<StoredMetrics>, sessionId: string, now: nat): (r: Result<MetricsState, string>)
    ensures r.Failure? <==> item.Some? && item.value.Text? && item.value.text != ""
    ensures item.Some? && item.value.Document? ==> r == Success(item.value.record)
    ensures item.None? || item == Some(Text("")) ==> r == Success(Fresh(sessionId, now))
  {
    match item
    case None => Success(Fresh(sessionId, now))
    case Some(Document(m)) => Success(m)
    case Some(Text(s)) => if s == "" then Success(Fresh(sessionId, now)) else Failure("JSON.parse: " + s)
  }

  predicate IsTrackedMode(mode: string) {
    mode == "standard" || mode == "learning"
  }

  /** `bitvoyager_metrics_<sessionId>.json` */
  function ExportFileName(sessionId: string): string {
    "bitvoyager_metrics_" + sessionId + ".json"
  }

  class MetricsProvider {
    const storage: LocalStorage
    /** The provider's `sessionId` state: read once at mount, never set again. */
    const sessionId: string
    var metrics: MetricsState
    /** `challengeStartTimeRef.current`; `None` is `null`. */
    var challengeStart: Option<nat>

    /** The persistence effect has run: the stored record is the in-memory one. */
    ghost predicate Valid()
      reads this, storage
    {
      storage.metricsItem == Some(Document(metrics))
    }

    /** Mounting with an id and an initial record; the effect then writes the record. */
    constructor (storage: LocalStorage, sessionId: string, initial: MetricsState)
      modifies storage`metricsItem
      ensures this.storage == storage && this.sessionId == sessionId
      ensures metrics == initial && challengeStart == None
      ensures Valid()
    {
      this.storage := storage;
      this.sessionId := sessionId;
      metrics := initial;
      challengeStart := None;
      new;
      storage.metricsItem := Some(Document(initial));
    }

    /** The effect on `[metrics]`. */
    method Persist()
      modifies storage`metricsItem
      ensures Valid()
    {
      storage.metricsItem := Some(Document(metrics));
    }

    /** An unrecognised mode changes nothing (its console message is not modelled); a valid one starts the clock. */
    method StartMode(mode: string, now: nat)
      modifies this`challengeStart
      ensures IsTrackedMode(mode) ==> challengeStart == Some(now)
      ensures !IsTrackedMode(mode) ==> challengeStart == old(challengeStart)
    {
      if mode == "" || (mode != "standard" && mode != "learning") {
        return;
      }
      challengeStart := Some(now);
    }

    method CompleteMode()
      modifies this`challengeStart
      ensures challengeStart == None
    {
      challengeStart := None;
    }

    method RecordAttempt(success: bool)
      modifies this`metrics, storage`metricsItem
      ensures metrics == Apply(old(metrics), Attempt(success))
      ensures Valid()
    {
      metrics := Apply(metrics, Attempt(success));
      Persist();
    }

    method RecordSkip()
      modifies this`metrics, storage`metricsItem
      ensures metrics == Apply(old(metrics), Skip)
      ensures Valid()
    {
      metrics := Apply(metrics, Skip);
      Persist();
    }

    /**
     * Appends the record of a finished challenge, timed from the start instant (0 when
     * none is active), then re-arms the clock at the completion instant.
     */
    method RecordChallengeCompletion(challengeId: int, difficulty: string, attempts: int, now: nat)
      modifies this`metrics, this`challengeStart, storage`metricsItem
      ensures metrics == Apply(old(metrics),
        Completion(ChallengeRecord(challengeId, difficulty, Elapsed(old(challengeStart), now), attempts, now)))
      ensures challengeStart == Some(now)
      ensures Valid()
    {
      var timeSpent := Elapsed(challengeStart, now);
      metrics := Apply(metrics, Completion(ChallengeRecord(challengeId, difficulty, timeSpent, attempts, now)));
      Persist();
      challengeStart := Some(now);
    }

    method StartChallenge(now: nat)
      modifies this`challengeStart
      ensures challengeStart == Some(now)
    {
      challengeStart := Some(now);
    }

    /**
     * The exported document and its download name. The name uses the provider's session
     * id, not the record's, so after a reset it still names the old session.
     */
    method ExportMetrics(now: nat) returns (data: MetricsExport, fileName: string)
      ensures data == Snapshot(metrics, now) && data.metrics == metrics && data.exportTime == now
      ensures fileName == ExportFileName(sessionId)
    {
      data := Snapshot(metrics, now);
      fileName := ExportFileName(sessionId);
    }

    /**
     * Stores a new session id and a fresh record tagged with it, and returns the id.
     * The provider's own `sessionId` is not updated.
     */
    method ResetMetrics(now: nat, random: nat) returns (newSessionId: string)
      requires random < RandomBound
      modifies this`metrics, storage`sessionItem, storage`metricsItem
      ensures newSessionId == GenerateSessionId(now, random)
      ensures storage.sessionItem == Some(newSessionId)
      ensures metrics == Fresh(newSessionId, now) && Valid()
    {
      newSessionId := GenerateSessionId(now, random);
      storage.sessionItem := Some(newSessionId);
      var record := Fresh(newSessionId, now);
      metrics := record;
      storage.metricsItem := Some(Document(record));
    }
  }

  /**
   * Mounting the provider: the session id first, then the record, then the persistence
   * effect. Fails exactly when the stored metrics text cannot be parsed.
   */
  method Mount(storage: LocalStorage, now: nat, random: nat) returns (r: Result<MetricsProvider, string>)
    requires random < RandomBound
    modifies storage
    ensures r.Failure? <==> old(storage.metricsItem).Some? && old(storage.metricsItem).value.Text?
                            && old(storage.metricsItem).value.text != ""
    ensures StoredSessionId(old(storage.sessionItem)).Some? ==> storage.sessionItem == old(storage.sessionItem)
    ensures StoredSessionId(old(storage.sessionItem)).None? ==> storage.sessionItem == Some(GenerateSessionId(now, random))
    ensures storage.profileItem == old(storage.profileItem)
    ensures r.Failure? ==> storage.metricsItem == old(storage.metricsItem)
    ensures r.Success? ==>
      && fresh(r.value) && r.value.storage == storage && r.value.Valid()
      && Some(r.value.sessionId) == StoredSessionId(storage.sessionItem)
      && r.value.metrics == LoadMetrics(old(storage.metricsItem), r.value.sessionId, now).value
      && r.value.challengeStart == None
  {
    var id := GetSessionId(storage, now, random);
    var loaded := LoadMetrics(storage.metricsItem, id, now);
    if loaded.Failure? {
      return Failure(loaded.error);
    }
    var provider := new MetricsProvider(storage, id, loaded.value);
    r := Success(provider);
  }

  /** A second lookup of the session id returns the first one; the stored id stays that id. */
  method SessionIdIsStable(storage: LocalStorage, t1: nat, r1: nat, t2: nat, r2: nat)
    returns (first: string, second: string)
    requires r1 < RandomBound && r2 < RandomBound
    modifies storage`sessionItem
    ensures first == second
    ensures storage.sessionItem == Some(first)
    ensures StoredSessionId(old(storage.sessionItem)).Some? ==> storage.sessionItem == old(storage.sessionItem)
  {
    first := GetSessionId(storage, t1, r1);
    var between := storage.sessionItem;
    second := GetSessionId(storage, t2, r2);
    assert storage.sessionItem == between;
  }

  /**
   * Timing: a completion at `t1` after the clock was started at `t0` takes `t1 - t0`;
   * a second completion at `t2` is measured from `t1`; after `completeMode` a
   * completion records 0.
   */
  method CompletionsAreTimedFromThePreviousOne(p: MetricsProvider, t0: nat, t1: nat, t2: nat, t3: nat)
    requires p.Valid()
    modifies p, p.storage
    ensures p.Valid()
    ensures |p.metrics.challengeDetails| == |old(p.metrics.challengeDetails)| + 3
    ensures p.metrics.challengeDetails[|old(p.metrics.challengeDetails)|].timeSpent * 1000.0 == (t1 - t0) as real
    ensures p.metrics.challengeDetails[|old(p.metrics.challengeDetails)| + 1].timeSpent * 1000.0 == (t2 - t1) as real
    ensures p.metrics.challengeDetails[|old(p.metrics.challengeDetails)| + 2].timeSpent == 0.0
  {
    p.StartMode("standard", t0);
    p.RecordChallengeCompletion(1, "easy", 1, t1);
    p.RecordChallengeCompletion(2, "medium", 1, t2);
    p.CompleteMode();
    p.RecordChallengeCompletion(3, "hard", 1, t3);
  }

  /**
   * After a reset, the record carries the new id while an export is still named after
   * the id the provider was mounted with.
   */
  method ExportAfterResetNamesTheOldSession(p: MetricsProvider, now: nat, random: nat)
    returns (newId: string, data: MetricsExport, fileName: string)
    requires p.Valid() && random < RandomBound
    modifies p, p.storage
    ensures data.metrics.sessionId == newId
    ensures fileName == ExportFileName(p.sessionId)
  {
    newId := p.ResetMetrics(now, random);
    data, fileName := p.ExportMetrics(now);
  }
}
