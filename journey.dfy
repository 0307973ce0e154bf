/**
 * The journey controller: the view machine intro -> color-selection ->
 * unlocking -> questions -> loading -> results, the answers keyed by question
 * id, the step over the twenty questions, the press-and-hold unlock, the
 * checkpoints, the chat and the reset.
 *
 * Timers are explicit: each interval or timeout the controller starts is a
 * pending entry, and the method named after it runs its body once. A call to
 * the backend is split where it awaits: the method that starts it queues a
 * request, and the method that receives it takes the request from the front of
 * the queue together with what the endpoint answered.
 */
module Journey {
  import opened Wrappers
  import opened Text
  import opened Record
  import opened Json
  import opened Analysis
  import opened Catalog
  import opened Gemini
  import QuestionCard

  datatype View = Intro | ColorSelection | Unlocking | Questions | Loading | Results

  /** A particle of the memory pile; its random offset, rotation and scale are not kept. */
  datatype MemoryParticle = MemoryParticle(kind: ParticleType, color: string)

  /** A pending `generateYearReview` call: the answers and colour context it was given. */
  datatype ReviewCall = ReviewCall(answers: Record, colorContext: string)

  /** A pending `chatWithYear` call: the transcript before the message, and the message. */
  datatype ChatCall = ChatCall(history: seq<Turn>, message: string)

  const ChatGreeting := "我已小心珍藏你的记忆。让我们开始对话吧。(I have stored your memories gently. Let us reflect.)"

  // ---------------------------------------------------------------------------
  // Unlock arithmetic

  /** Progress between the lowest value a decay tick can leave and the highest a press tick can. */
  predicate ProgressInRange(p: real) {
    -5.0 < p < 101.5
  }

  /** One tick of the press interval: the new progress, and whether the unlock completes. */
  function PressStep(p: real): (real, bool) {
    if p >= 100.0 then (100.0, true) else (p + 1.5, false)
  }

  /** One tick of a release interval: the new progress, and whether the interval clears itself. */
  function DecayStep(p: real): (real, bool) {
    if p <= 0.0 then (0.0, true) else (p - 5.0, false)
  }

  /** Both ticks keep the progress in range. */
  lemma StepsKeepRange(p: real)
    requires ProgressInRange(p)
    ensures ProgressInRange(PressStep(p).0) && ProgressInRange(DecayStep(p).0)
  {
  }

  /** The progress after n press ticks, n counted from p. */
  function PressFrom(p: real, n: nat): real
    decreases n
  {
    if n == 0 then p else PressFrom(PressStep(p).0, n - 1)
  }

  /** Below 100, each press tick adds exactly 1.5. */
  lemma {:induction false} PressRise(p: real, k: nat)
    requires k == 0 || p + 1.5 * (k - 1) as real < 100.0
    ensures PressFrom(p, k) == p + 1.5 * k as real
    decreases k
  {
    if k > 0 {
      assert p < 100.0;
      PressRise(p + 1.5, k - 1);
    }
  }

  /**
   * Holding from rest: 67 ticks bring the progress to 100.5 without completing,
   * and the 68th tick clamps it to 100 and completes the unlock.
   */
  lemma UnlockFromRest()
    ensures forall k: nat :: k < 67 ==> !PressStep(PressFrom(0.0, k)).1
    ensures PressFrom(0.0, 67) == 100.5
    ensures PressStep(PressFrom(0.0, 67)) == (100.0, true)
  {
    forall k: nat | k < 67 ensures !PressStep(PressFrom(0.0, k)).1 {
      PressRise(0.0, k);
    }
    PressRise(0.0, 67);
  }

  /** The progress after at most n release ticks, and whether the interval has cleared itself. */
  function DecayFrom(p: real, n: nat): (real, bool)
    decreases n
  {
    if n == 0 then (p, false)
    else if p <= 0.0 then (0.0, true)
    else DecayFrom(p - 5.0, n - 1)
  }

  /** Released at any progress up to 5k, a release interval ends at exactly 0 within k + 1 ticks. */
  lemma {:induction false} DecayEndsAtZero(p: real, k: nat)
    requires p <= 5.0 * k as real
    ensures DecayFrom(p, k + 1) == (0.0, true)
    decreases k
  {
    if p > 0.0 {
      DecayEndsAtZero(p - 5.0, k - 1);
    }
  }

  // ---------------------------------------------------------------------------
  // Checkpoints

  /** The checkpoint message for the number of answers given so far; "" shows nothing. */
  function CheckpointMessage(count: int): (m: string)
    ensures m != "" <==> count == 5 || count == 10 || count == 15
  {
    if count == 5 then "正在把你的烟火气装入信封..." + " (Collecting your sparks...)"
    else if count == 10 then "听起来，那是很温柔的一年。" + " (Sounds like a gentle year.)"
    else if count == 15 then "那些情绪的碎片，都已妥善安放。" + " (Fragments safely stored.)"
    else ""
  }

  /** Whether answering at this step shows a checkpoint: every fifth answer but the last. */
  predicate CheckpointAt(step: int) {
    step < N - 1 && (step + 1) % 5 == 0 && CheckpointMessage(step + 1) != ""
  }

  /** Over the twenty steps, checkpoints come after the 5th, 10th and 15th answers and no other. */
  lemma CheckpointSteps(step: int)
    requires 0 <= step < N
    ensures CheckpointAt(step) <==> step == 4 || step == 9 || step == 14
  {
  }

  // ---------------------------------------------------------------------------
  // Answers

  /** The ids a question carries. */
  function IdSet(): set<string> {
    set i | 0 <= i < |QuestionIds| :: QuestionIds[i]
  }

  lemma {:induction false} ImageSize(s: seq<string>)
    ensures |set i | 0 <= i < |s| :: s[i]| <= |s|
  {
    if s != [] {
      var init := s[..|s| - 1];
      ImageSize(init);
      var a := set i | 0 <= i < |init| :: init[i];
      var b := set i | 0 <= i < |s| :: s[i];
      assert b == a + {s[|s| - 1]} by {
        forall x | x in b ensures x in a + {s[|s| - 1]} {
          var i :| 0 <= i < |s| && s[i] == x;
          if i < |s| - 1 { assert init[i] == x; }
        }
        forall x | x in a ensures x in b {
          var i :| 0 <= i < |init| && init[i] == x;
          assert s[i] == x;
        }
      }
    }
  }

  /** Answers keyed only by question ids, one per id, number at most twenty. */
  lemma AnswerCountBound(answers: Record)
    requires DistinctKeys(answers)
    requires forall i :: 0 <= i < |answers| ==> answers[i].key in QuestionIds
    ensures |answers| <= N
  {
    SizeIsKeyCount(answers);
    assert Keys(answers) <= IdSet() by {
      forall k | k in Keys(answers) ensures k in IdSet() {
        var i :| 0 <= i < |answers| && answers[i].key == k;
        var j :| 0 <= j < |QuestionIds| && QuestionIds[j] == k;
      }
    }
    ImageSize(QuestionIds);
    assert |Keys(answers)| <= |IdSet()| by {
      SubsetSize(Keys(answers), IdSet());
    }
  }

  /** Storing an answer under a question id keeps the answers keyed by distinct question ids. */
  lemma PutKeepsQuestionKeys(r: Record, k: string, v: string)
    requires DistinctKeys(r)
    requires forall i :: 0 <= i < |r| ==> r[i].key in QuestionIds
    requires k in QuestionIds
    ensures DistinctKeys(Put(r, k, v))
    ensures forall i :: 0 <= i < |Put(r, k, v)| ==> Put(r, k, v)[i].key in QuestionIds
  {
    var r' := Put(r, k, v);
    PutKeys(r, k, v);
    forall i | 0 <= i < |r'| ensures r'[i].key in QuestionIds {
      assert r'[i].key in Keys(r');
      if r'[i].key != k {
        assert r'[i].key in Keys(r);
        var j :| 0 <= j < |r| && r[j].key == r'[i].key;
      }
    }
  }

  /** Storing an answer under k leaves every other id's answer as it was. */
  lemma PutLeavesOthers(r: Record, k: string, v: string)
    ensures forall k' :: k' != k ==> Get(Put(r, k, v), k') == Get(r, k')
  {
    forall k' | k' != k ensures Get(Put(r, k, v), k') == Get(r, k') {
      GetPutOther(r, k, v, k');
    }
  }

  lemma SubsetSize(a: set<string>, b: set<string>)
    requires a <= b
    ensures |a| <= |b|
  {
    assert b == a + (b - a);
  }

  /**
   * The cleaning `finishAndAnalyze` applies before parsing leaves a reply that
   * is exactly `JSON.stringify` of a result (with no backtick in its text)
   * unchanged, so the parser sees what the backend wrote.
   */
  lemma ReviewJsonTextOfStringified(a: AnalysisResult)
    requires BacktickFree(a)
    ensures ReviewJsonText(StringifyAnalysis(a)) == StringifyAnalysis(a)
  {
    StringifyNoBacktick(a);
    ReviewJsonTextOfBraced(StringifyAnalysis(a));
  }

  // ---------------------------------------------------------------------------
  // The controller

  class AppComponent {
    const service: GeminiService

    var viewState: View
    var selectedColor: Option<YearColor>
    var memoryParticles: seq<MemoryParticle>
    var currentStep: int
    var answers: Record

    var unlockProgress: real
    var isUnlocking: bool
    /** The press interval is running. */
    var pressTimer: bool
    /** Release intervals still running; each clears itself once the progress is at most 0. */
    var decayTimers: nat
    /** Pending 800 ms timeouts that open the questions. */
    var openTimers: nat

    var analysisResult: Option<AnalysisResult>
    var reviewCalls: seq<ReviewCall>

    var currentInspiration: Option<string>
    var isGettingInspiration: bool
    /** The question texts of pending `generateInspiration` calls. */
    var inspirationCalls: seq<string>

    var showCheckpoint: bool
    var checkpointMessage: string
    /** Pending 3 s timeouts that hide the checkpoint. */
    var checkpointTimers: nat

    var chatInput: string
    var chatHistory: seq<Turn>
    var isChatLoading: bool
    var chatCalls: seq<ChatCall>

    /** The step is a question index, answers are keyed by distinct question ids, the progress is in range. */
    predicate Valid()
      reads this
    {
      && 0 <= currentStep < N
      && DistinctKeys(answers)
      && (forall i :: 0 <= i < |answers| ==> answers[i].key in QuestionIds)
      && ProgressInRange(unlockProgress)
    }

    /** The fields `resetJourney` clears, at their initial values. */
    predicate IsFresh()
      reads this
    {
      && answers == []
      && chatHistory == []
      && analysisResult == None
      && currentStep == 0
      && unlockProgress == 0.0
      && memoryParticles == []
      && selectedColor == None
      && viewState == Intro
    }

    constructor(service: GeminiService)
      ensures this.service == service
      ensures Valid() && IsFresh()
      ensures !isUnlocking && !pressTimer && decayTimers == 0 && openTimers == 0
      ensures reviewCalls == [] && chatCalls == [] && inspirationCalls == []
      ensures currentInspiration == None && !isGettingInspiration
      ensures !showCheckpoint && checkpointMessage == "" && checkpointTimers == 0
      ensures chatInput == "" && !isChatLoading
    {
      this.service := service;
      viewState := Intro;
      selectedColor := None;
      memoryParticles := [];
      currentStep := 0;
      answers := [];
      unlockProgress := 0.0;
      isUnlocking := false;
      pressTimer := false;
      decayTimers := 0;
      openTimers := 0;
      analysisResult := None;
      reviewCalls := [];
      currentInspiration := None;
      isGettingInspiration := false;
      inspirationCalls := [];
      showCheckpoint := false;
      checkpointMessage := "";
      checkpointTimers := 0;
      chatInput := "";
      chatHistory := [];
      isChatLoading := false;
      chatCalls := [];
    }

    // -------------------------------------------------------------------------
    // Reads

    /** `currentQuestion`: the question at the current step. */
    function CurrentQuestion(): (q: Question)
      reads this
      requires Valid()
      ensures q.id == QuestionIds[currentStep]
      ensures q in Catalog.Questions
    {
      QuestionsCarryIds();
      Catalog.Questions[currentStep]
    }

    /** `getAnswerFor`: the stored answer for an id, "" when there is none. */
    function GetAnswerFor(qId: string): (a: string)
      reads this
      ensures qId !in Keys(answers) ==> a == ""
      ensures a != "" ==> exists i :: 0 <= i < |answers| && answers[i] == Entry(qId, a)
      ensures Get(answers, qId).Some? ==> a == Get(answers, qId).value
    {
      Get(answers, qId).GetOr("")
    }

    /** The letter body of the analysis, "" while there is none. */
    function LetterBody(): string
      reads this
    {
      match analysisResult
      case None => ""
      case Some(a) => a.letterBody
    }

    /**
     * `letterParagraphs`: the letter body split on runs of newlines, each piece
     * trimmed, empty pieces dropped. Every paragraph is a non-empty line with
     * no surrounding whitespace, and together they keep all the visible text.
     */
    function LetterParagraphs(): (ps: seq<string>)
      reads this
      ensures ps == Paragraphs(LetterBody())
      ensures forall p :: p in ps ==> p != [] && !IsSpace(p[0]) && !IsSpace(p[|p| - 1]) && '\n' !in p
      ensures NonSpace(Concat(ps)) == NonSpace(LetterBody())
    {
      ParagraphsWellFormed(LetterBody());
      ParagraphsKeepText(LetterBody());
      Paragraphs(LetterBody())
    }

    /** `selectedColor()?.aiContext || "Neutral"`. */
    function ColorContext(): (ctx: string)
      reads this
      ensures ctx != ""
      ensures selectedColor.Some? && selectedColor.value.aiContext != "" ==> ctx == selectedColor.value.aiContext
      ensures selectedColor.None? || selectedColor.value.aiContext == "" ==> ctx == "Neutral"
    {
      match selectedColor
      case Some(c) => if c.aiContext == "" then "Neutral" else c.aiContext
      case None => "Neutral"
    }

    // -------------------------------------------------------------------------
    // Navigation

    /** `startJourney`: on to the colour selection. */
    method StartJourney()
      modifies this`viewState
      ensures viewState == ColorSelection
    {
      viewState := ColorSelection;
    }

    /** `resetJourney`: clears the answers, chat, analysis, step, progress, particles and colour. */
    method ResetJourney()
      requires Valid()
      modifies this`answers, this`chatHistory, this`analysisResult, this`currentStep,
               this`unlockProgress, this`memoryParticles, this`selectedColor, this`viewState
      ensures Valid() && IsFresh()
    {
      answers := [];
      chatHistory := [];
      analysisResult := None;
      currentStep := 0;
      unlockProgress := 0.0;
      memoryParticles := [];
      selectedColor := None;
      viewState := Intro;
    }

    /** `confirmColor`: keeps the colour and goes to the unlock screen at zero progress. */
    method ConfirmColor(color: YearColor)
      requires Valid()
      modifies this`selectedColor, this`unlockProgress, this`viewState
      ensures Valid()
      ensures selectedColor == Some(color) && unlockProgress == 0.0 && viewState == Unlocking
    {
      selectedColor := Some(color);
      unlockProgress := 0.0;
      viewState := Unlocking;
    }

    // -------------------------------------------------------------------------
    // Unlock

    /** `startUnlock`: once the progress is at least 100 it does nothing; otherwise it starts the press interval. */
    method StartUnlock()
      modifies this`isUnlocking, this`pressTimer
      ensures old(unlockProgress) >= 100.0 ==>
        isUnlocking == old(isUnlocking) && pressTimer == old(pressTimer)
      ensures old(unlockProgress) < 100.0 ==> isUnlocking && pressTimer
    {
      if unlockProgress >= 100.0 {
        return;
      }
      isUnlocking := true;
      pressTimer := true;
    }

    /** `endUnlock`: short of 100 it stops pressing and starts a release interval; at 100 or more it does nothing. */
    method EndUnlock()
      modifies this`pressTimer, this`isUnlocking, this`decayTimers
      ensures old(unlockProgress) < 100.0 ==>
        !pressTimer && !isUnlocking && decayTimers == old(decayTimers) + 1
      ensures old(unlockProgress) >= 100.0 ==>
        pressTimer == old(pressTimer) && isUnlocking == old(isUnlocking) && decayTimers == old(decayTimers)
    {
      if unlockProgress < 100.0 {
        pressTimer := false;
        isUnlocking := false;
        decayTimers := decayTimers + 1;
      }
    }

    /** `completeUnlock`: stops the press interval and schedules the opening of the questions. */
    method CompleteUnlock()
      modifies this`pressTimer, this`openTimers
      ensures !pressTimer && openTimers == old(openTimers) + 1
    {
      pressTimer := false;
      openTimers := openTimers + 1;
    }

    /** One tick of the press interval: +1.5 below 100; at 100 or more, clamp to 100 and complete. */
    method PressTick()
      requires Valid() && pressTimer
      modifies this`unlockProgress, this`pressTimer, this`openTimers
      ensures Valid()
      ensures unlockProgress == PressStep(old(unlockProgress)).0
      ensures PressStep(old(unlockProgress)).1 ==> !pressTimer && openTimers == old(openTimers) + 1
      ensures !PressStep(old(unlockProgress)).1 ==> pressTimer && openTimers == old(openTimers)
    {
      StepsKeepRange(unlockProgress);
      if unlockProgress >= 100.0 {
        CompleteUnlock();
        unlockProgress := 100.0;
      } else {
        unlockProgress := unlockProgress + 1.5;
      }
    }

    /** One tick of a release interval: -5 above 0; at 0 or below, set 0 and clear this interval. */
    method DecayTick()
      requires Valid() && decayTimers > 0
      modifies this`unlockProgress, this`decayTimers
      ensures Valid()
      ensures unlockProgress == DecayStep(old(unlockProgress)).0
      ensures decayTimers == if DecayStep(old(unlockProgress)).1 then old(decayTimers) - 1 else old(decayTimers)
    {
      StepsKeepRange(unlockProgress);
      if unlockProgress <= 0.0 {
        decayTimers := decayTimers - 1;
        unlockProgress := 0.0;
      } else {
        unlockProgress := unlockProgress - 5.0;
      }
    }

    /** The 800 ms timeout after an unlock: shows the questions, whatever the view is by then. */
    method OpenTimerFires()
      requires openTimers > 0
      modifies this`openTimers, this`viewState
      ensures openTimers == old(openTimers) - 1 && viewState == Questions
    {
      openTimers := openTimers - 1;
      viewState := Questions;
    }

    // -------------------------------------------------------------------------
    // Answers and steps

    /** `addMemoryParticle`: one particle in the chosen colour's kind and colour; none without a colour. */
    method AddMemoryParticle()
      modifies this`memoryParticles
      ensures selectedColor.None? ==> memoryParticles == old(memoryParticles)
      ensures selectedColor.Some? ==>
        memoryParticles == old(memoryParticles) +
          [MemoryParticle(selectedColor.value.particleType, selectedColor.value.particleColor)]
    {
      if selectedColor.None? {
        return;
      }
      var color := selectedColor.value;
      memoryParticles := memoryParticles + [MemoryParticle(color.particleType, color.particleColor)];
    }

    /** `triggerCheckpoint`: shows the message for this count, if it has one, and schedules its dismissal. */
    method TriggerCheckpoint(count: int)
      modifies this`checkpointMessage, this`showCheckpoint, this`checkpointTimers
      ensures CheckpointMessage(count) != "" ==>
        checkpointMessage == CheckpointMessage(count) && showCheckpoint &&
        checkpointTimers == old(checkpointTimers) + 1
      ensures CheckpointMessage(count) == "" ==>
        checkpointMessage == old(checkpointMessage) && showCheckpoint == old(showCheckpoint) &&
        checkpointTimers == old(checkpointTimers)
    {
      var msg := CheckpointMessage(count);
      if msg != "" {
        checkpointMessage := msg;
        showCheckpoint := true;
        checkpointTimers := checkpointTimers + 1;
      }
    }

    /** The 3 s timeout after a checkpoint: hides whichever checkpoint is showing. */
    method DismissCheckpoint()
      requires checkpointTimers > 0
      modifies this`showCheckpoint, this`checkpointTimers
      ensures !showCheckpoint && checkpointTimers == old(checkpointTimers) - 1
    {
      showCheckpoint := false;
      checkpointTimers := checkpointTimers - 1;
    }

    /**
     * `finishAndAnalyze`, up to its await: shows the loading view and asks for
     * the review of the current answers in the colour's context.
     */
    method FinishAndAnalyze()
      modifies this`viewState, this`reviewCalls
      ensures viewState == Loading
      ensures reviewCalls == old(reviewCalls) + [ReviewCall(answers, ColorContext())]
    {
      viewState := Loading;
      var colorContext := ColorContext();
      reviewCalls := reviewCalls + [ReviewCall(answers, colorContext)];
    }

    /** `handleAnswer`, its first step: the answer is stored under the current question's id. */
    method StoreAnswer(answer: string)
      requires Valid()
      modifies this`answers
      ensures Valid()
      ensures answers == Put(old(answers), QuestionIds[currentStep], answer)
      ensures GetAnswerFor(QuestionIds[currentStep]) == answer
      ensures forall k :: k != QuestionIds[currentStep] ==> Get(answers, k) == Get(old(answers), k)
    {
      var q := CurrentQuestion();
      var previous := answers;
      answers := Put(answers, q.id, answer);
      PutKeepsQuestionKeys(previous, q.id, answer);
      GetPutSame(previous, q.id, answer);
      PutLeavesOthers(previous, q.id, answer);
    }

    /**
     * `handleAnswer`, its last step: before the last question, one step on,
     * with a checkpoint after every fifth answer; at the last, the analysis.
     */
    method Advance()
      requires Valid()
      modifies this`checkpointMessage, this`showCheckpoint, this`checkpointTimers,
               this`currentStep, this`viewState, this`reviewCalls
      ensures Valid()
      ensures old(currentStep) < N - 1 ==>
        currentStep == old(currentStep) + 1 && viewState == old(viewState) && reviewCalls == old(reviewCalls)
      ensures old(currentStep) == N - 1 ==>
        currentStep == old(currentStep) && viewState == Loading &&
        reviewCalls == old(reviewCalls) + [ReviewCall(answers, ColorContext())]
      ensures CheckpointAt(old(currentStep)) ==>
        showCheckpoint && checkpointMessage == CheckpointMessage(old(currentStep) + 1)
      ensures !CheckpointAt(old(currentStep)) ==>
        showCheckpoint == old(showCheckpoint) && checkpointMessage == old(checkpointMessage)
      ensures checkpointTimers == old(checkpointTimers) + (if CheckpointAt(old(currentStep)) then 1 else 0)
    {
      var stepIndex := currentStep;
      if stepIndex < N - 1 {
        if (stepIndex + 1) % 5 == 0 {
          TriggerCheckpoint(stepIndex + 1);
        }
        currentStep := currentStep + 1;
      } else {
        FinishAndAnalyze();
      }
    }

    /**
     * `handleAnswer`: stores the answer under the current question's id, adds
     * a particle, clears the hint, and either moves to the next step (showing
     * a checkpoint after every fifth answer) or, at the last step, starts the
     * analysis.
     */
    method HandleAnswer(answer: string)
      requires Valid()
      modifies this`answers, this`memoryParticles, this`currentInspiration, this`checkpointMessage,
               this`showCheckpoint, this`checkpointTimers, this`currentStep, this`viewState, this`reviewCalls
      ensures Valid()
      ensures answers == Put(old(answers), QuestionIds[old(currentStep)], answer)
      ensures GetAnswerFor(QuestionIds[old(currentStep)]) == answer
      ensures forall k :: k != QuestionIds[old(currentStep)] ==> Get(answers, k) == Get(old(answers), k)
      ensures selectedColor.None? ==> memoryParticles == old(memoryParticles)
      ensures selectedColor.Some? ==>
        memoryParticles == old(memoryParticles) +
          [MemoryParticle(selectedColor.value.particleType, selectedColor.value.particleColor)]
      ensures currentInspiration == None
      ensures old(currentStep) < N - 1 ==>
        currentStep == old(currentStep) + 1 && viewState == old(viewState) && reviewCalls == old(reviewCalls)
      ensures old(currentStep) == N - 1 ==>
        currentStep == old(currentStep) && viewState == Loading &&
        reviewCalls == old(reviewCalls) + [ReviewCall(answers, ColorContext())]
      ensures CheckpointAt(old(currentStep)) ==>
        showCheckpoint && checkpointMessage == CheckpointMessage(old(currentStep) + 1)
      ensures !CheckpointAt(old(currentStep)) ==>
        showCheckpoint == old(showCheckpoint) && checkpointMessage == old(checkpointMessage)
      ensures checkpointTimers == old(checkpointTimers) + (if CheckpointAt(old(currentStep)) then 1 else 0)
    {
      StoreAnswer(answer);
      AddMemoryParticle();
      currentInspiration := None;
      Advance();
    }

    /** `handleBack`: one step back and the hint cleared, unless already at the first question. */
    method HandleBack()
      requires Valid()
      modifies this`currentStep, this`currentInspiration
      ensures Valid()
      ensures old(currentStep) > 0 ==> currentStep == old(currentStep) - 1 && currentInspiration == None
      ensures old(currentStep) == 0 ==> currentStep == 0 && currentInspiration == old(currentInspiration)
    {
      if currentStep > 0 {
        currentStep := currentStep - 1;
        currentInspiration := None;
      }
    }

    // -------------------------------------------------------------------------
    // Backend results

    /**
     * `finishAndAnalyze`, once the review has arrived: its text, or "{}" when
     * empty, is cleaned of code fences, trimmed and parsed. A result is
     * stored, the chat is seeded with the answers and a greeting, and the
     * results are shown; a parse failure goes back to the questions with the
     * answers kept.
     */
    method ApplyReview(response: ReviewResponse, parse: string -> Option<AnalysisResult>)
      modifies this`analysisResult, this`chatHistory, this`viewState
      ensures var parsed := parse(ReviewJsonText(response.text));
        && (parsed.None? ==>
              viewState == Questions && analysisResult == old(analysisResult) &&
              chatHistory == old(chatHistory))
        && (parsed.Some? ==>
              viewState == Results && analysisResult == parsed &&
              chatHistory == [Turn("user", StringifyRecord(answers)), Turn("model", ChatGreeting)])
      ensures viewState == Results ==> |chatHistory| == 2 && ReadRecord(chatHistory[0].parts) == Some(answers)
    {
      var text := if response.text == "" then "{}" else response.text;
      var jsonStr := Trim(StripFences(text));
      var data := parse(jsonStr);
      if data.None? {
        viewState := Questions;
        return;
      }
      analysisResult := data;
      chatHistory := [Turn("user", StringifyRecord(answers)), Turn("model", ChatGreeting)];
      ReadStringifiedRecord(answers);
      viewState := Results;
    }

    /**
     * `finishAndAnalyze`, after its await: the oldest pending review call is
     * answered with `response`, the value the service's `generateYearReview`
     * resolved to (`GeminiService.GenerateYearReview` says which values those
     * are), and the response is applied as above.
     */
    method ReceiveReview(response: ReviewResponse, parse: string -> Option<AnalysisResult>)
      requires reviewCalls != []
      modifies this`reviewCalls, this`analysisResult, this`chatHistory, this`viewState
      ensures reviewCalls == old(reviewCalls)[1..]
      ensures var parsed := parse(ReviewJsonText(response.text));
        && (parsed.None? ==>
              viewState == Questions && analysisResult == old(analysisResult) &&
              chatHistory == old(chatHistory))
        && (parsed.Some? ==>
              viewState == Results && analysisResult == parsed &&
              chatHistory == [Turn("user", StringifyRecord(answers)), Turn("model", ChatGreeting)])
      ensures viewState == Results ==> |chatHistory| == 2 && ReadRecord(chatHistory[0].parts) == Some(answers)
    {
      reviewCalls := reviewCalls[1..];
      ApplyReview(response, parse);
    }

    /** `getInspiration`, up to its await: unless a hint is already on its way, clears the hint and asks for one. */
    method GetInspiration()
      requires Valid()
      modifies this`isGettingInspiration, this`currentInspiration, this`inspirationCalls
      ensures old(isGettingInspiration) ==>
        currentInspiration == old(currentInspiration) && inspirationCalls == old(inspirationCalls) &&
        isGettingInspiration
      ensures !old(isGettingInspiration) ==>
        isGettingInspiration && currentInspiration == None &&
        inspirationCalls == old(inspirationCalls) + [CurrentQuestion().textZh]
    {
      if isGettingInspiration {
        return;
      }
      isGettingInspiration := true;
      currentInspiration := None;
      inspirationCalls := inspirationCalls + [CurrentQuestion().textZh];
    }

    /** `getInspiration`, after its await: shows the service's hint for the oldest pending call. */
    method ReceiveInspiration(t: Transport)
      requires inspirationCalls != []
      modifies this`isGettingInspiration, this`currentInspiration, this`inspirationCalls
      ensures inspirationCalls == old(inspirationCalls)[1..]
      ensures currentInspiration == Some(service.GenerateInspiration(old(inspirationCalls)[0], t))
      ensures currentInspiration.Some? && IsTrimmed(currentInspiration.value)
      ensures !isGettingInspiration
    {
      var questionText := inspirationCalls[0];
      inspirationCalls := inspirationCalls[1..];
      var hint := service.GenerateInspiration(questionText, t);
      currentInspiration := Some(hint);
      isGettingInspiration := false;
    }

    /** `sendChatMessage`, up to its await: a blank input does nothing; otherwise the trimmed message joins the transcript and is sent. */
    method SendChatMessage()
      modifies this`chatHistory, this`chatInput, this`isChatLoading, this`chatCalls
      ensures IsBlank(old(chatInput)) ==>
        chatHistory == old(chatHistory) && chatInput == old(chatInput) &&
        isChatLoading == old(isChatLoading) && chatCalls == old(chatCalls)
      ensures !IsBlank(old(chatInput)) ==>
        && chatHistory == old(chatHistory) + [Turn("user", Trim(old(chatInput)))]
        && chatInput == "" && isChatLoading
        && chatCalls == old(chatCalls) + [ChatCall(old(chatHistory), Trim(old(chatInput)))]
    {
      var msg := Trim(chatInput);
      if msg == "" {
        return;
      }
      var oldHistory := chatHistory;
      chatHistory := oldHistory + [Turn("user", msg)];
      chatInput := "";
      isChatLoading := true;
      chatCalls := chatCalls + [ChatCall(oldHistory, msg)];
    }

    /** `sendChatMessage`, after its await: the service's reply to the oldest pending message joins the transcript. */
    method ReceiveChatReply(backend: seq<ChatMessage> -> Transport)
      requires chatCalls != []
      modifies this`chatHistory, this`isChatLoading, this`chatCalls
      ensures chatCalls == old(chatCalls)[1..]
      ensures |chatHistory| == |old(chatHistory)| + 1
      ensures chatHistory[..|old(chatHistory)|] == old(chatHistory)
      ensures chatHistory[|old(chatHistory)|].role == "model"
      ensures service.isDemoMode ==> chatHistory[|old(chatHistory)|].parts == OfflineChatReply
      ensures !service.isDemoMode ==>
        var call := old(chatCalls)[0];
        var r := service.CallDeepSeek(backend(ChatRequest(call.history, call.message)));
        chatHistory[|old(chatHistory)|].parts == if r.Success? then r.value else ChatFallback
      ensures !isChatLoading
    {
      var call := chatCalls[0];
      chatCalls := chatCalls[1..];
      var reply := service.ChatWithYear(call.history, call.message, backend);
      chatHistory := chatHistory + [Turn("model", reply)];
      isChatLoading := false;
    }
  }

  // ---------------------------------------------------------------------------
  // The question card shown for the current step

  /** The card is given the controller's step as its index and the number of questions as its total. */
  predicate ShowsStep(app: AppComponent, card: QuestionCard.QuestionCardComponent)
    reads app, card
  {
    card.currentIndex == app.currentStep && card.total == |Catalog.Questions|
  }

  /**
   * The card is the last exactly at the step where answering starts the
   * analysis (`Advance` at step N - 1) instead of moving on.
   */
  lemma LastCardStartsAnalysis(app: AppComponent, card: QuestionCard.QuestionCardComponent)
    requires app.Valid() && ShowsStep(app, card)
    ensures card.IsLast() <==> app.currentStep == N - 1
    ensures !card.IsLast() <==> app.currentStep < N - 1
  {
    QuestionsCarryIds();
  }

  /** Back is disabled exactly at the step where `HandleBack` would change nothing. */
  lemma BackDisabledAtFirstStep(app: AppComponent, card: QuestionCard.QuestionCardComponent)
    requires app.Valid() && ShowsStep(app, card)
    ensures card.BackDisabled() <==> app.currentStep == 0
    ensures !card.BackDisabled() <==> app.currentStep > 0
  {
  }
}
