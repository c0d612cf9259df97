/**
 * `src/components/TypewriterText.tsx`: a timer-driven effect that reveals one more
 * character of `text` per tick and calls `onComplete` once the whole text is shown.
 * One `Tick` is the effect running and, when it schedules one, its timeout firing.
 */
module Typewriter {

  /** What one run of the effect did. */
  datatype TickResult = Typed(c: char) | Completed

  class TypewriterText {
    const text: string
    var displayedText: string
    var currentIndex: nat

    /** The displayed text is always the first `currentIndex` characters of `text`. */
    predicate Valid()
      reads this
    {
      currentIndex <= |text| && displayedText == text[..currentIndex]
    }

    /** The blinking cursor is rendered while typing is unfinished. */
    function ShowsCursor(): (r: bool)
      reads this
      requires Valid()
      ensures r <==> displayedText != text
    {
      currentIndex < |text|
    }

    constructor (text: string)
      ensures this.text == text && displayedText == "" && currentIndex == 0
      ensures Valid()
    {
      this.text := text;
      displayedText := "";
      currentIndex := 0;
    }

    /** One run of the effect: type the next character, or report completion (`onComplete`). */
    method Tick() returns (r: TickResult)
      requires Valid()
      modifies this
      ensures Valid()
      ensures old(currentIndex) < |text| ==>
        r == Typed(text[old(currentIndex)]) && currentIndex == old(currentIndex) + 1
        && displayedText == old(displayedText) + [text[old(currentIndex)]]
      ensures old(currentIndex) == |text| ==>
        r == Completed && currentIndex == old(currentIndex) && displayedText == old(displayedText)
    {
      if currentIndex < |text| {
        var c := text[currentIndex];
        displayedText := displayedText + [c];
        currentIndex := currentIndex + 1;
        assert text[..currentIndex] == text[..currentIndex - 1] + [c];
        return Typed(c);
      }
      return Completed;
    }
  }

  /** A freshly mounted typewriter, ticked until it reports completion, ends showing the whole text. */
  method TypeOut(text: string) returns (shown: string, ticks: nat)
    ensures shown == text
    ensures ticks == |text| + 1
  {
    var t := new TypewriterText(text);
    ticks := 0;
    var done := false;
    while !done
      invariant t.Valid() && t.text == text
      invariant !done ==> t.currentIndex == ticks
      invariant done ==> t.currentIndex == |text| && ticks == |text| + 1
      decreases |text| - t.currentIndex + (if done then 0 else 1)
    {
      var r := t.Tick();
      ticks := ticks + 1;
      done := r == Completed;
    }
    shown := t.displayedText;
  }
}
