/**
 * The question card (`QuestionCardComponent`): the answer being typed, the
 * typewriter that reveals the question text one character per tick, and the
 * guards on its buttons.
 *
 * Timers are explicit: the effect that runs when the question or the initial
 * answer changes queues a 50 ms start in `pendingStarts`; `StartFires` is that
 * timeout running `typeWriterEffect`, and `TypeTick` is one run of the 50 ms
 * interval body. A tick never comes while a start is pending: the effect
 * clears the running interval, and an interval's first tick comes 50 ms after
 * its own start, by which time every start queued before it has fired.
 */
module QuestionCard {
  import opened Wrappers
  import opened Text
  import opened Catalog

  /**
   * What the typewriter shows after n ticks of the interval body on text:
   * each tick adds the next character until the whole text is shown.
   */
  function AfterTicks(text: string, n: nat): (shown: string) {
    if n == 0 then []
    else
      var s := AfterTicks(text, n - 1);
      if |s| < |text| then s + [text[|s|]] else s
  }

  function Min(a: nat, b: nat): nat {
    if a < b then a else b
  }

  /** After n ticks the first min(n, |text|) characters are shown: a prefix, and all of it once n reaches |text|. */
  lemma {:induction false} AfterTicksIsPrefix(text: string, n: nat)
    ensures AfterTicks(text, n) == text[..Min(n, |text|)]
  {
    if n > 0 {
      AfterTicksIsPrefix(text, n - 1);
      var s := AfterTicks(text, n - 1);
      if |s| < |text| {
        assert text[..Min(n, |text|)] == text[..Min(n - 1, |text|)] + [text[|s|]];
      }
    }
  }

  class QuestionCardComponent {
    var question: Question
    var currentIndex: int
    var total: int
    var initialAnswer: string

    var currentAnswer: string
    var displayedText: string

    /** The typewriter interval is running. */
    var typing: bool
    /** The text and the position of the running interval. */
    var fullText: string
    var index: nat
    /** Question texts of the 50 ms start timeouts not yet fired, oldest first. */
    var pendingStarts: seq<string>

    /**
     * While a start is pending nothing has been typed since the effect; while
     * the interval runs, what is shown is the first `index` characters of its
     * text.
     */
    predicate Valid()
      reads this
    {
      && (pendingStarts != [] ==> displayedText == [])
      && (typing ==> index <= |fullText| && displayedText == fullText[..index])
    }

    /** The component with its inputs set, after its effect has run once. */
    constructor(q: Question, i: int, n: int, init: string)
      ensures Valid()
      ensures question == q && currentIndex == i && total == n && initialAnswer == init
      ensures currentAnswer == init && displayedText == [] && !typing
      ensures pendingStarts == [q.textZh]
    {
      question := q;
      currentIndex := i;
      total := n;
      initialAnswer := init;
      currentAnswer := init;
      displayedText := [];
      typing := false;
      fullText := [];
      index := 0;
      pendingStarts := [q.textZh];
    }

    /**
     * New inputs from the parent, and the effect that follows: the shown text
     * is cleared, the answer is reset to the initial answer, the interval is
     * cleared and a start is scheduled for the new question's text.
     */
    method InputsChanged(q: Question, i: int, n: int, init: string)
      requires Valid()
      modifies this`question, this`currentIndex, this`total, this`initialAnswer,
               this`displayedText, this`currentAnswer, this`typing, this`pendingStarts
      ensures Valid()
      ensures question == q && currentIndex == i && total == n && initialAnswer == init
      ensures displayedText == [] && currentAnswer == init && !typing
      ensures pendingStarts == old(pendingStarts) + [q.textZh]
    {
      question := q;
      currentIndex := i;
      total := n;
      initialAnswer := init;
      displayedText := [];
      currentAnswer := init;
      typing := false;
      pendingStarts := pendingStarts + [q.textZh];
    }

    /** The oldest 50 ms timeout fires: `typeWriterEffect` replaces any running interval with one over its text from index 0. */
    method StartFires()
      requires Valid() && pendingStarts != []
      modifies this`pendingStarts, this`fullText, this`index, this`typing
      ensures Valid()
      ensures pendingStarts == old(pendingStarts)[1..]
      ensures typing && fullText == old(pendingStarts)[0] && index == 0
      ensures displayedText == []
    {
      fullText := pendingStarts[0];
      pendingStarts := pendingStarts[1..];
      index := 0;
      typing := true;
    }

    /**
     * One run of the interval body: below the end of the text it appends the
     * character at `index` and moves on; at the end it clears the interval,
     * with the whole text shown.
     */
    method TypeTick()
      requires Valid() && typing && pendingStarts == []
      modifies this`displayedText, this`index, this`typing
      ensures Valid()
      ensures old(index) < |fullText| ==>
        displayedText == old(displayedText) + [fullText[old(index)]] && index == old(index) + 1 && typing
      ensures old(index) >= |fullText| ==>
        displayedText == old(displayedText) && index == old(index) && !typing
      ensures displayedText == fullText[..index]
      ensures !typing ==> displayedText == fullText
    {
      if index < |fullText| {
        displayedText := displayedText + [fullText[index]];
        index := index + 1;
      } else {
        typing := false;
      }
    }

    /** `onInput`: the text area's value becomes the current answer. */
    method OnInput(v: string)
      modifies this`currentAnswer
      ensures currentAnswer == v
    {
      currentAnswer := v;
    }

    /** `submit`: emits the answer as typed, but only when it holds more than whitespace. */
    function Submit(): (emitted: Option<string>)
      reads this
      ensures emitted.Some? <==> !IsBlank(currentAnswer)
      ensures emitted.Some? ==> emitted.value == currentAnswer
    {
      if Trim(currentAnswer) != [] then Some(currentAnswer) else None
    }

    /** `isLast`: the card shows the final question. */
    function IsLast(): (last: bool)
      reads this
      ensures last <==> currentIndex == total - 1
    {
      currentIndex == total - 1
    }

    /** The back button is disabled on the first question. */
    function BackDisabled(): (disabled: bool)
      reads this
      ensures disabled <==> currentIndex == 0
    {
      currentIndex == 0
    }

    /** The next button is disabled while the answer is empty. */
    function NextDisabled(): (disabled: bool)
      reads this
      ensures disabled <==> currentAnswer == []
    {
      currentAnswer == []
    }
  }

  /** An answer of whitespace only is never sent, and anything else is sent unchanged. */
  lemma SubmitNeedsVisibleText(card: QuestionCardComponent)
    ensures card.Submit().None? <==> AllSpace(card.currentAnswer)
    ensures card.Submit().Some? ==> card.Submit().value == card.currentAnswer
  {
    BlankIffAllSpace(card.currentAnswer);
  }

  /** While next is disabled, submitting would emit nothing either: the guard only ever hides a blank answer. */
  lemma DisabledNextSendsNothing(card: QuestionCardComponent)
    ensures card.NextDisabled() ==> card.Submit() == None
  {
    BlankIffAllSpace(card.currentAnswer);
  }

  /** Whitespace-only input enables the next button, yet pressing it sends nothing. */
  lemma NextEnabledButNothingSent(card: QuestionCardComponent)
    requires card.currentAnswer != [] && AllSpace(card.currentAnswer)
    ensures !card.NextDisabled() && card.Submit() == None
  {
    BlankIffAllSpace(card.currentAnswer);
  }
}
