/**
 * The mission progression state machine of Python.jsx: question loading and selection,
 * the completion handlers of standard and learning mode, attempt counting, the draft-code
 * map and the values derived for rendering. The question loader, the selector, the
 * skill-level update and the profile loader belong to other modules and are parameters.
 */
module Missions {
  import opened Wrappers
  import opened MetricsRecord
  import opened Profiles
  import opened BrowserStorage
  import opened MetricsTracker

  /** The difficulty label of each position in standard mode. */
  const DifficultyOrder: seq<string> := ["easy", "medium", "hard"]

  /** Question ids 1..QuestionCount are tried when the bank is loaded. */
  const QuestionCount: int := 29

  const SelectionError: string := "Could not find enough suitable questions"

  datatype Question = Question(id: int, difficulty: string, code: string)

  /**
   * What the selector returns: a list (possibly empty), nothing (null or undefined), or an
   * exception with its `message`. A thrown value without a message (`undefined`) is written
   * `Raised("")`: like the empty message of `new Error()`, it is falsy and shows nothing.
   */
  datatype Selection = Selected(questions: seq<Question>) | NoSelection | Raised(message: string)

  /** The result of initializeQuestions. */
  datatype Init = Init(questions: seq<Question>, allQuestions: map<int, Question>, error: Option<string>)

  /**
   * Whether the component treats an initialisation error as a failure: the truthiness of
   * the error value, so no error and the empty message both count as none.
   */
  predicate Failed(error: Option<string>) {
    error.Some? && error.value != ""
  }

  /** `PythonQuestion(i)`; `None` when it throws. */
  type QuestionLoader = int -> Option<Question>

  /** `selectQuestions(mode, profile, allQuestions)`. */
  type Selector = (string, Option<Profile>, map<int, Question>) -> Selection

  /** `updateSkillLevels(profile, question, completed, attempts, skipped)`. */
  type SkillUpdate = (Profile, Question, bool, int, bool) -> Profile

  /** `DIFFICULTY_ORDER[i]`; `None` is `undefined`, read past the end of the table. */
  function DifficultyLabel(i: int): (name: Option<string>)
    ensures name.Some? <==> 0 <= i < |DifficultyOrder|
    ensures name.Some? ==> name.value == DifficultyOrder[i]
  {
    if 0 <= i < |DifficultyOrder| then Some(DifficultyOrder[i]) else None
  }

  function LowerChar(c: char): char {
    if 'A' <= c <= 'Z' then (c as int + 32) as char else c
  }

  /** `toLowerCase`, on ASCII letters. */
  function Lower(s: string): (r: string)
    ensures |r| == |s| && forall i :: 0 <= i < |s| ==> r[i] == LowerChar(s[i])
  {
    seq(|s|, i requires 0 <= i < |s| => LowerChar(s[i]))
  }

  // ---------------------------------------------------------------- loading and selection

  /** The bank the loading loop builds: every id in 1..29 whose load does not throw. */
  function QuestionBank(load: QuestionLoader): map<int, Question>
  {
    map i | 1 <= i <= QuestionCount && load(i).Some? :: load(i).value
  }

  /** The loading loop of initializeQuestions; a failing id is left out and the loop goes on. */
  method LoadQuestionBank(load: QuestionLoader) returns (bank: map<int, Question>)
    ensures forall i :: i in bank <==> 1 <= i <= QuestionCount && load(i).Some?
    ensures forall i :: i in bank ==> bank[i] == load(i).value
    ensures bank == QuestionBank(load)
  {
    bank := map[];
    var i := 1;
    while i <= QuestionCount
      invariant 1 <= i <= QuestionCount + 1
      invariant forall j :: j in bank <==> 1 <= j < i && load(j).Some?
      invariant forall j :: j in bank ==> bank[j] == load(j).value
    {
      var q := load(i);
      if q.Some? {
        bank := bank[i := q.value];
      }
      i := i + 1;
    }
  }

  /**
   * What initializeQuestions produces: the selection over the loaded bank, or, when the
   * selector gives nothing or throws, an error message with no questions and an empty bank.
   * An empty list is a success.
   */
  function QuestionsFor(mode: string, profile: Option<Profile>, load: QuestionLoader, select: Selector): (init: Init)
    ensures init.error.None? <==> select(mode, profile, QuestionBank(load)).Selected?
    ensures init.error.None? ==> init.questions == select(mode, profile, QuestionBank(load)).questions
                                 && init.allQuestions == QuestionBank(load)
    ensures init.error.Some? ==> init.questions == [] && init.allQuestions == map[]
    ensures select(mode, profile, QuestionBank(load)).NoSelection? ==> init.error == Some(SelectionError)
    ensures select(mode, profile, QuestionBank(load)).Raised? ==>
      init.error == Some(select(mode, profile, QuestionBank(load)).message)
    ensures Failed(init.error) <==>
      || select(mode, profile, QuestionBank(load)).NoSelection?
      || (select(mode, profile, QuestionBank(load)).Raised? && select(mode, profile, QuestionBank(load)).message != "")
  {
    var bank := QuestionBank(load);
    match select(mode, profile, bank)
    case Selected(qs) => Init(qs, bank, None)
    case NoSelection => Init([], map[], Some(SelectionError))
    case Raised(message) => Init([], map[], Some(message))
  }

  method InitializeQuestions(mode: string, profile: Option<Profile>, load: QuestionLoader, select: Selector)
    returns (init: Init)
    ensures init == QuestionsFor(mode, profile, load, select)
  {
    var bank := LoadQuestionBank(load);
    var selection := select(mode, profile, bank);
    match selection
    case Selected(qs) => init := Init(qs, bank, None);
    case NoSelection => init := Init([], map[], Some(SelectionError));
    case Raised(message) => init := Init([], map[], Some(message));
  }

  // ---------------------------------------------------------------- the draft-code map

  /** The map the `forEach` builds: each question's id to its default code, later ones winning. */
  function CodeMapOf(qs: seq<Question>): map<int, string>
    decreases |qs|
  {
    if qs == [] then map[] else CodeMapOf(qs[..|qs| - 1])[qs[|qs| - 1].id := qs[|qs| - 1].code]
  }

  method InitialCodeMap(qs: seq<Question>) returns (codeMap: map<int, string>)
    ensures codeMap == CodeMapOf(qs)
  {
    codeMap := map[];
    for i := 0 to |qs|
      invariant codeMap == CodeMapOf(qs[..i])
    {
      assert qs[..i + 1][..i] == qs[..i];
      codeMap := codeMap[qs[i].id := qs[i].code];
    }
    assert qs[..|qs|] == qs;
  }

  /** The initial map has exactly the ids of the selected questions as keys. */
  lemma {:induction false} CodeMapKeys(qs: seq<Question>)
    ensures forall id :: id in CodeMapOf(qs) <==> exists q :: q in qs && q.id == id
    decreases |qs|
  {
    if qs != [] {
      var init := qs[..|qs| - 1];
      CodeMapKeys(init);
      var last := qs[|qs| - 1];
      assert qs == init + [last];
      forall id ensures id in CodeMapOf(qs) <==> exists q :: q in qs && q.id == id {
        if id == last.id {
          assert last in qs;
        } else {
          assert id in CodeMapOf(qs) <==> id in CodeMapOf(init);
          if exists q :: q in qs && q.id == id {
            var q :| q in qs && q.id == id;
            assert q in init;
          }
        }
      }
    }
  }

  /** `userCodeMap[id] || question.code`: the draft when there is a non-empty one, else the default. */
  function DisplayedCode(codeMap: map<int, string>, q: Question): (code: string)
    ensures code == q.code || (q.id in codeMap && code == codeMap[q.id])
    ensures code == "" ==> q.code == ""
  {
    if q.id in codeMap && codeMap[q.id] != "" then codeMap[q.id] else q.code
  }

  /** An edit is what is displayed for its question; clearing the draft brings the default back. */
  lemma EditIsDisplayed(codeMap: map<int, string>, q: Question, newCode: string)
    ensures DisplayedCode(codeMap[q.id := newCode], q) == if newCode != "" then newCode else q.code
  {
  }

  /** An edit leaves what is displayed for every other question as it was. */
  lemma EditLeavesOthers(codeMap: map<int, string>, id: int, newCode: string, q: Question)
    requires q.id != id
    ensures DisplayedCode(codeMap[id := newCode], q) == DisplayedCode(codeMap, q)
  {
  }

  /** Before any edit, each selected question (ids distinct) displays its own default code. */
  lemma {:induction false} InitialCodeIsDefault(qs: seq<Question>, k: int)
    requires 0 <= k < |qs|
    requires forall i, j :: 0 <= i < j < |qs| ==> qs[i].id != qs[j].id
    ensures DisplayedCode(CodeMapOf(qs), qs[k]) == qs[k].code
    decreases |qs|
  {
    if k < |qs| - 1 {
      var init := qs[..|qs| - 1];
      assert init[k] == qs[k];
      InitialCodeIsDefault(init, k);
      assert qs[k].id != qs[|qs| - 1].id;
    }
  }

  // ---------------------------------------------------------------- progression

  /** The progression fields of the component's state. */
  datatype Progress = Progress(
    index: int,
    attempts: int,
    completedDifficulties: seq<Option<string>>,
    missionComplete: bool,
    showMetricsExport: bool)

  const Start: Progress := Progress(0, 0, [], false, false)

  /** The index stays in range (0 when there is no question) and attempts are non-negative. */
  predicate InRange(p: Progress, total: int) {
    0 <= p.index && (p.index == 0 || p.index < total) && 0 <= p.attempts
  }

  /**
   * The step both modes share: the next question with a fresh attempt count while one
   * is left, otherwise the mission is complete and the export is offered.
   */
  function Advance(p: Progress, total: int): Progress
  {
    if p.index < total - 1 then p.(index := p.index + 1, attempts := 0)
    else p.(missionComplete := true, showMetricsExport := true)
  }

  /** Standard mode: the difficulty of the position is logged when it was completed, then the step. */
  function AdvanceStandard(p: Progress, total: int, completed: bool): Progress
  {
    var logged := if completed then p.(completedDifficulties := p.completedDifficulties + [DifficultyLabel(p.index)]) else p;
    Advance(logged, total)
  }

  /**
   * A step keeps the index in range, moves it by exactly one or not at all, and
   * completes the mission only on the last question.
   */
  lemma AdvanceInRange(p: Progress, total: int)
    requires InRange(p, total)
    ensures var q := Advance(p, total);
      && InRange(q, total)
      && (q.index == p.index + 1 <==> p.index < total - 1)
      && (q.index == p.index + 1 ==> q.attempts == 0 && q.missionComplete == p.missionComplete)
      && (q.index == p.index ==> q.missionComplete && q.showMetricsExport && (p.index == total - 1 || total <= 0))
      && q.completedDifficulties == p.completedDifficulties
  {
  }

  lemma AdvanceStandardLog(p: Progress, total: int, completed: bool)
    requires InRange(p, total)
    ensures var q := AdvanceStandard(p, total, completed);
      && InRange(q, total)
      && q.completedDifficulties == p.completedDifficulties + (if completed then [DifficultyLabel(p.index)] else [])
      && (q.index == p.index + 1 || (q.index == p.index && q.missionComplete))
  {
  }

  /** The progression after one standard-mode outcome per question, in order. */
  function RunStandard(p: Progress, total: int, outcomes: seq<bool>): Progress
    decreases |outcomes|
  {
    if outcomes == [] then p
    else AdvanceStandard(RunStandard(p, total, outcomes[..|outcomes| - 1]), total, outcomes[|outcomes| - 1])
  }

  /** The labels of the completed positions, in order. */
  function CompletedLabels(outcomes: seq<bool>): seq<Option<string>>
    decreases |outcomes|
  {
    if outcomes == [] then []
    else CompletedLabels(outcomes[..|outcomes| - 1])
         + if outcomes[|outcomes| - 1] then [DifficultyLabel(|outcomes| - 1)] else []
  }

  /**
   * Through a standard mission of `total` questions, the index follows the number of
   * outcomes, the log lists the labels of exactly the completed positions, and the
   * mission is complete, on the last question, exactly when every question has an outcome.
   */
  lemma {:induction false} StandardRunProgress(total: int, outcomes: seq<bool>)
    requires |outcomes| <= total
    ensures var p := RunStandard(Start, total, outcomes);
      && p.completedDifficulties == CompletedLabels(outcomes)
      && (|outcomes| < total ==> p.index == |outcomes| && !p.missionComplete)
      && (0 < |outcomes| == total ==> p.index == total - 1 && p.missionComplete && p.showMetricsExport)
    decreases |outcomes|
  {
    if outcomes != [] {
      StandardRunProgress(total, outcomes[..|outcomes| - 1]);
    }
  }

  /** Three questions, all completed: easy, medium, hard, and the mission is complete. */
  lemma ThreeCompletedQuestions()
    ensures var p := RunStandard(Start, 3, [true, true, true]);
      p.completedDifficulties == [Some("easy"), Some("medium"), Some("hard")] && p.missionComplete && p.index == 2
  {
    StandardRunProgress(3, [true, true, true]);
    assert [true, true, true][..2] == [true, true];
    assert [true, true][..1] == [true];
    assert [true][..0] == [];
  }

  /**
   * Learning mode: with a profile and a question at the index, the profile after the
   * skill update (attempts 0 when skipped, one more than counted otherwise), the question
   * id appended when completed, and the streak rule on the last question. `None` when
   * the handler returns early.
   */
  function LearningOutcome(profile: Option<Profile>, qs: seq<Question>, index: int, completed: bool,
                           skipped: bool, attempts: int, today: int, update: SkillUpdate): (r: Option<Profile>)
    ensures r.Some? <==> profile.Some? && 0 <= index < |qs|
    ensures r.Some? && completed ==>
      var updated := update(profile.value, qs[index], true, if skipped then 0 else attempts + 1, skipped);
      r.value.completedQuestions == updated.completedQuestions + [qs[index].id]
    ensures r.Some? && !completed ==>
      var updated := update(profile.value, qs[index], false, if skipped then 0 else attempts + 1, skipped);
      r.value.completedQuestions == updated.completedQuestions
    ensures r.Some? ==>
      var updated := update(profile.value, qs[index], completed, if skipped then 0 else attempts + 1, skipped);
      var learned := if completed then WithCompletedQuestion(updated, qs[index].id) else updated;
      && (index < |qs| - 1 ==> r.value == learned)
      && (index == |qs| - 1 ==>
            && r.value.lastSessionDate == Some(today)
            && (learned.lastSessionDate == Some(today) ==> r.value == learned)
            && (learned.lastSessionDate == Some(today - 1) ==> r.value.consecutiveDays == learned.consecutiveDays + 1)
            && (learned.lastSessionDate != Some(today) && learned.lastSessionDate != Some(today - 1) ==>
                  r.value.consecutiveDays == 1)
            && r.value.(consecutiveDays := learned.consecutiveDays, lastSessionDate := learned.lastSessionDate) == learned)
  {
    if profile.None? || !(0 <= index < |qs|) then None
    else
      var q := qs[index];
      var updated := update(profile.value, q, completed, if skipped then 0 else attempts + 1, skipped);
      var learned := if completed then WithCompletedQuestion(updated, q.id) else updated;
      Some(if index < |qs| - 1 then learned else UpdateStreak(learned, today))
  }

  /**
   * The metrics changes of handleMissionComplete: a skip is recorded when skipped; a
   * completion record, timed from `start`, only for a completed, non-skipped question
   * that exists at the index.
   */
  function MissionMetrics(m: MetricsState, start: Option<nat>, qs: seq<Question>, index: int,
                          completed: bool, skipped: bool, attempts: int, now: nat): MetricsState
  {
    var afterSkip := if skipped then Apply(m, Skip) else m;
    if completed && !skipped && 0 <= index < |qs|
    then Apply(afterSkip, Completion(ChallengeRecord(qs[index].id, qs[index].difficulty, Elapsed(start, now), attempts, now)))
    else afterSkip
  }

  /**
   * One skip exactly when skipped; one record, at the end, exactly when a completed
   * question was not skipped; so a skip never appends a record.
   */
  lemma MissionMetricsEffect(m: MetricsState, start: Option<nat>, qs: seq<Question>, index: int,
                             completed: bool, skipped: bool, attempts: int, now: nat)
    ensures var m' := MissionMetrics(m, start, qs, index, completed, skipped, attempts, now);
      && m'.skips == m.skips + (if skipped then 1 else 0)
      && m'.attempts == m.attempts && m'.errors == m.errors
      && m'.challengeDetails[..|m.challengeDetails|] == m.challengeDetails
      && (|m'.challengeDetails| == |m.challengeDetails| + 1 <==> completed && !skipped && 0 <= index < |qs|)
      && (|m'.challengeDetails| != |m.challengeDetails| + 1 ==> m'.challengeDetails == m.challengeDetails)
      && (skipped ==> m'.challengeDetails == m.challengeDetails)
      && (completed && !skipped && 0 <= index < |qs| ==>
            && m'.challengeDetails[|m.challengeDetails|]
               == ChallengeRecord(qs[index].id, qs[index].difficulty, Elapsed(start, now), attempts, now)
            && m'.completedChallenges == m.completedChallenges + 1)
      && (!(completed && !skipped && 0 <= index < |qs|) ==> m'.completedChallenges == m.completedChallenges)
  {
    var m' := MissionMetrics(m, start, qs, index, completed, skipped, attempts, now);
    assert m'.challengeDetails[..|m.challengeDetails|] == m.challengeDetails;
  }

  // ---------------------------------------------------------------- rendering inputs

  /** The `progressInfo` handed to the question renderer. */
  datatype ProgressInfo = ProgressInfo(
    current: int,
    total: int,
    difficulty: Option<string>,
    completedDifficulties: seq<Option<string>>,
    mode: string,
    userProfile: Option<Profile>,
    attempts: int,
    isRetry: bool,
    previouslyFailed: bool)

  /** Computed only while a question is shown, so the index is in range. */
  function ProgressInfoFor(mode: string, profile: Option<Profile>, qs: seq<Question>, index: int,
                           completedDifficulties: seq<Option<string>>, attempts: int): (info: ProgressInfo)
    requires 0 <= index < |qs|
    ensures 1 <= info.current <= info.total == |qs| && info.current == index + 1
    ensures info.difficulty == if mode == "standard" then DifficultyLabel(index) else Some(qs[index].difficulty)
    ensures info.userProfile == if mode == "learning" then profile else None
    ensures info.attempts == attempts && info.completedDifficulties == completedDifficulties && info.mode == mode
    ensures info.isRetry <==> mode == "learning" && profile.Some? && qs[index].id in profile.value.skippedQuestions
    ensures info.previouslyFailed <==>
      (mode == "learning" && profile.Some? && qs[index].id in profile.value.failedAttempts
       && profile.value.failedAttempts[qs[index].id] > 0)
  {
    var q := qs[index];
    var learning := mode == "learning";
    ProgressInfo(
      index + 1,
      |qs|,
      if mode == "standard" then DifficultyLabel(index) else Some(q.difficulty),
      completedDifficulties,
      mode,
      if learning then profile else None,
      attempts,
      learning && profile.Some? && q.id in profile.value.skippedQuestions,
      learning && profile.Some? && q.id in profile.value.failedAttempts && profile.value.failedAttempts[q.id] > 0)
  }

  // ---------------------------------------------------------------- the component

  /**
   * The state of the mission component. Each handler reads the state as it was when the
   * component rendered and then applies its updates.
   */
  class MissionSession {
    const tracker: MetricsProvider
    /** The chosen mode; "" stands for no mode yet. */
    var mode: string
    var userProfile: Option<Profile>
    var currentMissionIndex: int
    var missionComplete: bool
    var selectedQuestions: seq<Question>
    var allQuestions: map<int, Question>
    var error: Option<string>
    var completedDifficulties: seq<Option<string>>
    var currentAttempts: int
    var showMetricsExport: bool
    var userCodeMap: map<int, string>
    /** `questionsInitialized.current` */
    var questionsInitialized: bool

    function CurrentProgress(): Progress
      reads this
    {
      Progress(currentMissionIndex, currentAttempts, completedDifficulties, missionComplete, showMetricsExport)
    }

    ghost predicate Valid()
      reads this, tracker, tracker.storage
    {
      && tracker.Valid()
      && 0 <= currentMissionIndex && 0 <= currentAttempts
      && (error.None? ==> InRange(CurrentProgress(), |selectedQuestions|))
      && (!questionsInitialized ==> selectedQuestions == [] && currentMissionIndex == 0 && error.None?)
    }

    constructor (tracker: MetricsProvider)
      requires tracker.Valid()
      ensures this.tracker == tracker && Valid()
      ensures mode == "" && userProfile == None && CurrentProgress() == Start
      ensures selectedQuestions == [] && allQuestions == map[] && error == None
      ensures userCodeMap == map[] && !questionsInitialized
    {
      this.tracker := tracker;
      mode := "";
      userProfile := None;
      currentMissionIndex := 0;
      missionComplete := false;
      selectedQuestions := [];
      allQuestions := map[];
      error := None;
      completedDifficulties := [];
      currentAttempts := 0;
      showMetricsExport := false;
      userCodeMap := map[];
      questionsInitialized := false;
    }

    /** `setMode`, from the mode selection screen. */
    method SelectMode(m: string)
      modifies this`mode
      ensures mode == m
    {
      mode := m;
    }

    /**
     * The body of the mode-initialisation effect: start the recorder's clock with the
     * lower-cased mode, fetch the profile in learning mode, load and select the questions,
     * and take the result on the first run or when its error is truthy; a later run whose
     * selector throws with an empty message keeps the questions already installed.
     */
    method RunModeEffect(now: nat, fetchedProfile: Option<Profile>, load: QuestionLoader, select: Selector)
      requires Valid()
      modifies this`userProfile, this`selectedQuestions, this`allQuestions, this`error,
               this`questionsInitialized, this`userCodeMap, tracker`challengeStart
      ensures Valid()
      ensures mode == "" ==> unchanged(this) && unchanged(tracker)
      ensures mode != "" ==>
        var profile := if mode == "learning" then fetchedProfile else None;
        var init := QuestionsFor(mode, profile, load, select);
        var replace := !old(questionsInitialized) || Failed(init.error);
        && tracker.challengeStart == (if IsTrackedMode(Lower(mode)) then Some(now) else old(tracker.challengeStart))
        && userProfile == (if mode == "learning" then fetchedProfile else old(userProfile))
        && questionsInitialized
        && (replace ==> selectedQuestions == init.questions && allQuestions == init.allQuestions
                        && error == init.error && userCodeMap == CodeMapOf(init.questions))
        && (!replace ==> selectedQuestions == old(selectedQuestions) && allQuestions == old(allQuestions)
                         && error == old(error) && userCodeMap == old(userCodeMap))
    {
      if mode == "" {
        return;
      }
      tracker.StartMode(Lower(mode), now);
      var profile: Option<Profile> := None;
      if mode == "learning" {
        profile := fetchedProfile;
        userProfile := profile;
      }
      var init := InitializeQuestions(mode, profile, load, select);
      if !questionsInitialized || Failed(init.error) {
        TakeQuestions(init);
      }
    }

    /** The branch of the effect that installs a fresh initialisation result. */
    method TakeQuestions(init: Init)
      requires Valid()
      requires !questionsInitialized || Failed(init.error)
      requires init.error.Some? ==> init.questions == []
      modifies this`selectedQuestions, this`allQuestions, this`error, this`questionsInitialized, this`userCodeMap
      ensures Valid()
      ensures selectedQuestions == init.questions && allQuestions == init.allQuestions && error == init.error
      ensures userCodeMap == CodeMapOf(init.questions) && questionsInitialized
    {
      selectedQuestions := init.questions;
      allQuestions := init.allQuestions;
      error := init.error;
      questionsInitialized := true;
      userCodeMap := InitialCodeMap(init.questions);
    }

    /** One more attempt on the current question, forwarded to the recorder unchanged. */
    method HandleTestAttempt(success: bool)
      requires Valid()
      modifies this`currentAttempts, tracker`metrics, tracker.storage`metricsItem
      ensures Valid()
      ensures currentAttempts == old(currentAttempts) + 1
      ensures tracker.metrics == Apply(old(tracker.metrics), Attempt(success))
    {
      currentAttempts := currentAttempts + 1;
      tracker.RecordAttempt(success);
    }

    method HandleStandardModeComplete(completed: bool)
      requires Valid()
      modifies this`currentMissionIndex, this`currentAttempts, this`completedDifficulties,
               this`missionComplete, this`showMetricsExport, tracker`challengeStart
      ensures Valid()
      ensures CurrentProgress() == AdvanceStandard(old(CurrentProgress()), |selectedQuestions|, completed)
      ensures tracker.challengeStart ==
        if old(currentMissionIndex) < |selectedQuestions| - 1 then old(tracker.challengeStart) else None
    {
      if currentMissionIndex < |selectedQuestions| - 1 {
        if completed {
          completedDifficulties := completedDifficulties + [DifficultyLabel(currentMissionIndex)];
        }
        currentMissionIndex := currentMissionIndex + 1;
        currentAttempts := 0;
      } else {
        if completed {
          completedDifficulties := completedDifficulties + [DifficultyLabel(currentMissionIndex)];
        }
        missionComplete := true;
        tracker.CompleteMode();
        showMetricsExport := true;
      }
    }

    /**
     * Learning mode, with `attempts` the attempt count read at render time. Without a
     * profile or a question at the index nothing happens; otherwise the profile is
     * updated and saved, then the mission advances or, on the last question, the streak
     * is updated and the mission completes.
     */
    method HandleLearningModeComplete(completed: bool, skipped: bool, attempts: int, today: int, update: SkillUpdate)
      requires Valid()
      modifies this`userProfile, this`currentMissionIndex, this`currentAttempts, this`missionComplete,
               this`showMetricsExport, tracker`challengeStart, tracker.storage`profileItem
      ensures Valid()
      ensures match LearningOutcome(old(userProfile), selectedQuestions, old(currentMissionIndex),
                                    completed, skipped, attempts, today, update)
        case None =>
          unchanged(this) && unchanged(tracker) && unchanged(tracker.storage)
        case Some(p) =>
          && userProfile == Some(p) && tracker.storage.profileItem == Some(p)
          && CurrentProgress() == Advance(old(CurrentProgress()), |selectedQuestions|)
          && tracker.challengeStart ==
               if old(currentMissionIndex) < |selectedQuestions| - 1 then old(tracker.challengeStart) else None
    {
      if userProfile.None? || currentMissionIndex >= |selectedQuestions| {
        return;
      }
      var q := selectedQuestions[currentMissionIndex];
      var effective := if skipped then 0 else attempts + 1;
      var updated := update(userProfile.value, q, completed, effective, skipped);
      if completed {
        updated := WithCompletedQuestion(updated, q.id);
      }
      tracker.storage.profileItem := Some(updated);
      userProfile := Some(updated);
      if currentMissionIndex < |selectedQuestions| - 1 {
        currentMissionIndex := currentMissionIndex + 1;
        currentAttempts := 0;
      } else {
        if updated.lastSessionDate != Some(today) {
          updated := UpdateStreak(updated, today);
          tracker.storage.profileItem := Some(updated);
          userProfile := Some(updated);
        }
        missionComplete := true;
        tracker.CompleteMode();
        showMetricsExport := true;
      }
    }

    /**
     * handleMissionComplete with `attempts` the attempt count read at render time: record
     * the skip or the completion, then take the mode's branch (every mode other than
     * "standard" takes the learning branch).
     */
    method HandleMissionCompleteWith(completed: bool, skipped: bool, attempts: int, now: nat, today: int,
                                     update: SkillUpdate)
      requires Valid()
      modifies this`userProfile, this`currentMissionIndex, this`currentAttempts, this`completedDifficulties,
               this`missionComplete, this`showMetricsExport, tracker`metrics, tracker`challengeStart,
               tracker.storage`metricsItem, tracker.storage`profileItem
      ensures Valid()
      ensures tracker.metrics == MissionMetrics(old(tracker.metrics), old(tracker.challengeStart), selectedQuestions,
                                                old(currentMissionIndex), completed, skipped, attempts, now)
      ensures mode == "standard" ==>
        && CurrentProgress() == AdvanceStandard(old(CurrentProgress()), |selectedQuestions|, completed)
        && userProfile == old(userProfile) && tracker.storage.profileItem == old(tracker.storage.profileItem)
      ensures mode != "standard" ==>
        match LearningOutcome(old(userProfile), selectedQuestions, old(currentMissionIndex),
                              completed, skipped, attempts, today, update)
        case None =>
          CurrentProgress() == old(CurrentProgress()) && userProfile == old(userProfile)
          && tracker.storage.profileItem == old(tracker.storage.profileItem)
        case Some(p) =>
          userProfile == Some(p) && tracker.storage.profileItem == Some(p)
          && CurrentProgress() == Advance(old(CurrentProgress()), |selectedQuestions|)
      ensures !old(missionComplete) && missionComplete ==>
        old(currentMissionIndex) == currentMissionIndex && tracker.challengeStart == None
      ensures !old(missionComplete) && missionComplete && error.None? ==>
        currentMissionIndex == |selectedQuestions| - 1 || selectedQuestions == []
      ensures var recorded := completed && !skipped && old(currentMissionIndex) < |selectedQuestions|;
        var ends := old(currentMissionIndex) >= |selectedQuestions| - 1
          && (mode == "standard" || LearningOutcome(old(userProfile), selectedQuestions, old(currentMissionIndex),
                                                    completed, skipped, attempts, today, update).Some?);
        tracker.challengeStart == if ends then None else if recorded then Some(now) else old(tracker.challengeStart)
    {
      RecordOutcome(completed, skipped, attempts, now);
      if mode == "standard" {
        HandleStandardModeComplete(completed);
      } else {
        HandleLearningModeComplete(completed, skipped, attempts, today, update);
      }
    }

    /** The recorder calls of handleMissionComplete. */
    method RecordOutcome(completed: bool, skipped: bool, attempts: int, now: nat)
      requires Valid()
      modifies tracker`metrics, tracker`challengeStart, tracker.storage`metricsItem
      ensures Valid()
      ensures tracker.metrics == MissionMetrics(old(tracker.metrics), old(tracker.challengeStart), selectedQuestions,
                                                currentMissionIndex, completed, skipped, attempts, now)
      ensures tracker.challengeStart ==
        if completed && !skipped && currentMissionIndex < |selectedQuestions| then Some(now) else old(tracker.challengeStart)
    {
      if skipped {
        tracker.RecordSkip();
      }
      if completed && !skipped && currentMissionIndex < |selectedQuestions| {
        var q := selectedQuestions[currentMissionIndex];
        tracker.RecordChallengeCompletion(q.id, q.difficulty, attempts, now);
      }
    }

    method HandleMissionComplete(completed: bool, skipped: bool, now: nat, today: int, update: SkillUpdate)
      requires Valid()
      modifies this`userProfile, this`currentMissionIndex, this`currentAttempts, this`completedDifficulties,
               this`missionComplete, this`showMetricsExport, tracker`metrics, tracker`challengeStart,
               tracker.storage`metricsItem, tracker.storage`profileItem
      ensures Valid()
      ensures tracker.metrics == MissionMetrics(old(tracker.metrics), old(tracker.challengeStart), selectedQuestions,
                                                old(currentMissionIndex), completed, skipped, old(currentAttempts), now)
      ensures mode == "standard" ==> CurrentProgress() == AdvanceStandard(old(CurrentProgress()), |selectedQuestions|, completed)
      ensures mode != "standard" ==>
        match LearningOutcome(old(userProfile), selectedQuestions, old(currentMissionIndex),
                              completed, skipped, old(currentAttempts), today, update)
        case None =>
          CurrentProgress() == old(CurrentProgress()) && userProfile == old(userProfile)
          && tracker.storage.profileItem == old(tracker.storage.profileItem)
        case Some(p) =>
          userProfile == Some(p) && tracker.storage.profileItem == Some(p)
          && CurrentProgress() == Advance(old(CurrentProgress()), |selectedQuestions|)
      ensures var recorded := completed && !skipped && old(currentMissionIndex) < |selectedQuestions|;
        var ends := old(currentMissionIndex) >= |selectedQuestions| - 1
          && (mode == "standard" || LearningOutcome(old(userProfile), selectedQuestions, old(currentMissionIndex),
                                                    completed, skipped, old(currentAttempts), today, update).Some?);
        tracker.challengeStart == if ends then None else if recorded then Some(now) else old(tracker.challengeStart)
      ensures mode == "standard" ==>
        userProfile == old(userProfile) && tracker.storage.profileItem == old(tracker.storage.profileItem)
    {
      HandleMissionCompleteWith(completed, skipped, currentAttempts, now, today, update);
    }

    /** handleSkip: the skip path of handleMissionComplete. */
    method HandleSkip(now: nat, today: int, update: SkillUpdate)
      requires Valid()
      modifies this`userProfile, this`currentMissionIndex, this`currentAttempts, this`completedDifficulties,
               this`missionComplete, this`showMetricsExport, tracker`metrics, tracker`challengeStart,
               tracker.storage`metricsItem, tracker.storage`profileItem
      ensures Valid()
      ensures tracker.metrics == Apply(old(tracker.metrics), Skip)
      ensures mode == "standard" ==> CurrentProgress() == Advance(old(CurrentProgress()), |selectedQuestions|)
      ensures mode != "standard" ==>
        match LearningOutcome(old(userProfile), selectedQuestions, old(currentMissionIndex),
                              false, true, old(currentAttempts), today, update)
        case None =>
          CurrentProgress() == old(CurrentProgress()) && userProfile == old(userProfile)
          && tracker.storage.profileItem == old(tracker.storage.profileItem)
        case Some(p) =>
          userProfile == Some(p) && tracker.storage.profileItem == Some(p)
          && CurrentProgress() == Advance(old(CurrentProgress()), |selectedQuestions|)
      ensures var ends := old(currentMissionIndex) >= |selectedQuestions| - 1
          && (mode == "standard" || LearningOutcome(old(userProfile), selectedQuestions, old(currentMissionIndex),
                                                    false, true, old(currentAttempts), today, update).Some?);
        tracker.challengeStart == if ends then None else old(tracker.challengeStart)
      ensures mode == "standard" ==>
        userProfile == old(userProfile) && tracker.storage.profileItem == old(tracker.storage.profileItem)
    {
      HandleMissionComplete(false, true, now, today, update);
    }

    /**
     * The renderer's `onMissionComplete`: a completed, non-skipped question first counts
     * as a successful attempt; the completion handler still sees the attempt count of the
     * render, so the recorded attempts do not include that final one, and in learning mode
     * the skill update is given that count plus one.
     */
    method OnMissionComplete(completed: bool, skipped: bool, now: nat, today: int, update: SkillUpdate)
      requires Valid()
      modifies this`userProfile, this`currentMissionIndex, this`currentAttempts, this`completedDifficulties,
               this`missionComplete, this`showMetricsExport, tracker`metrics, tracker`challengeStart,
               tracker.storage`metricsItem, tracker.storage`profileItem
      ensures Valid()
      ensures var afterAttempt := if completed && !skipped then Apply(old(tracker.metrics), Attempt(true)) else old(tracker.metrics);
        tracker.metrics == MissionMetrics(afterAttempt, old(tracker.challengeStart), selectedQuestions,
                                          old(currentMissionIndex), completed, skipped, old(currentAttempts), now)
      ensures mode == "standard" ==>
        var counted := old(CurrentProgress()).(attempts := old(currentAttempts) + if completed && !skipped then 1 else 0);
        CurrentProgress() == AdvanceStandard(counted, |selectedQuestions|, completed)
      ensures mode != "standard" ==>
        var counted := old(CurrentProgress()).(attempts := old(currentAttempts) + if completed && !skipped then 1 else 0);
        match LearningOutcome(old(userProfile), selectedQuestions, old(currentMissionIndex),
                              completed, skipped, old(currentAttempts), today, update)
        case None =>
          CurrentProgress() == counted && userProfile == old(userProfile)
          && tracker.storage.profileItem == old(tracker.storage.profileItem)
        case Some(p) =>
          userProfile == Some(p) && tracker.storage.profileItem == Some(p)
          && CurrentProgress() == Advance(counted, |selectedQuestions|)
      ensures !old(missionComplete) && missionComplete ==> tracker.challengeStart == None
      ensures var recorded := completed && !skipped && old(currentMissionIndex) < |selectedQuestions|;
        var ends := old(currentMissionIndex) >= |selectedQuestions| - 1
          && (mode == "standard" || LearningOutcome(old(userProfile), selectedQuestions, old(currentMissionIndex),
                                                    completed, skipped, old(currentAttempts), today, update).Some?);
        tracker.challengeStart == if ends then None else if recorded then Some(now) else old(tracker.challengeStart)
      ensures mode == "standard" ==>
        userProfile == old(userProfile) && tracker.storage.profileItem == old(tracker.storage.profileItem)
    {
      var rendered := currentAttempts;
      if completed && !skipped {
        HandleTestAttempt(true);
      }
      HandleMissionCompleteWith(completed, skipped, rendered, now, today, update);
    }

    /** The edited question's draft is replaced; every other entry stays. */
    method HandleCodeChange(questionId: int, newCode: string)
      modifies this`userCodeMap
      ensures userCodeMap == old(userCodeMap)[questionId := newCode]
    {
      userCodeMap := userCodeMap[questionId := newCode];
    }

    /** The study reset clears the three keys; the page reload that follows is not modelled. */
    method ResetStudy()
      modifies tracker.storage
      ensures tracker.storage.sessionItem == None && tracker.storage.metricsItem == None
      ensures tracker.storage.profileItem == None
    {
      tracker.storage.RemoveStudyKeys();
    }
  }

  /**
   * A re-run of the mode effect whose selector throws an error with an empty message: the
   * error is falsy, so the questions, the error and the drafts already installed stay.
   */
  method EmptyMessageKeepsQuestions(s: MissionSession, now: nat, fetched: Option<Profile>,
                                    load: QuestionLoader, select: Selector)
    requires s.Valid() && s.mode != "" && s.questionsInitialized
    requires select(s.mode, if s.mode == "learning" then fetched else None, QuestionBank(load)) == Raised("")
    modifies s, s.tracker
    ensures s.Valid()
    ensures s.selectedQuestions == old(s.selectedQuestions) && s.allQuestions == old(s.allQuestions)
    ensures s.error == old(s.error) && s.userCodeMap == old(s.userCodeMap)
  {
    s.RunModeEffect(now, fetched, load, select);
  }

  /**
   * A standard mission of three questions, each completed: the three difficulties are
   * logged in order, three records are appended, the mission is complete and the clock
   * is cleared.
   */
  method StandardMissionOfThree(s: MissionSession, t1: nat, t2: nat, t3: nat, today: int, update: SkillUpdate)
    requires s.Valid() && s.mode == "standard" && s.error == None && |s.selectedQuestions| == 3
    requires s.CurrentProgress() == Start
    modifies s, s.tracker, s.tracker.storage
    ensures s.Valid()
    ensures s.completedDifficulties == [Some("easy"), Some("medium"), Some("hard")]
    ensures s.missionComplete && s.showMetricsExport && s.currentMissionIndex == 2
    ensures |s.tracker.metrics.challengeDetails| == |old(s.tracker.metrics.challengeDetails)| + 3
    ensures s.tracker.challengeStart == None
  {
    ghost var n := |s.tracker.metrics.challengeDetails|;
    s.OnMissionComplete(true, false, t1, today, update);
    assert s.CurrentProgress() == Progress(1, 0, [Some("easy")], false, false);
    s.OnMissionComplete(true, false, t2, today, update);
    assert s.CurrentProgress() == Progress(2, 0, [Some("easy"), Some("medium")], false, false);
    s.OnMissionComplete(true, false, t3, today, update);
  }
}
