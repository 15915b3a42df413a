/**
 * The typewriter effect of the chat panel: a text is revealed one character per timer
 * tick.  Each timer tick is an explicit call of `Tick`; the timer's period plays no part.
 */
module Typewriter {
  import opened Wrappers

  class Typewriter {
    /** The text being revealed, the shown prefix, the tick counter and whether the timer runs. */
    var text: string
    var displayed: string
    var count: nat
    var running: bool

    /** Between ticks the display is what `count` ticks of the text show. */
    predicate Valid()
      reads this
    {
      count <= |text| && displayed == Shown(text, count)
    }

    constructor ()
      ensures Valid() && displayed == "" && !running
    {
      text := "";
      displayed := "";
      count := 0;
      running := false;
    }

    /**
     * The effect run when the text changes: a missing or empty text shows nothing and
     * starts no timer; any other text restarts from an empty display and a zero counter.
     */
    method SetText(t: Option<string>)
      modifies this
      ensures Valid() && displayed == ""
      ensures t.None? || t.value == "" ==> !running && text == "" && count == 0
      ensures t.Some? && t.value != "" ==> running && text == t.value && count == 0
    {
      running := false;
      if t.None? || t.value == "" {
        text := "";
        displayed := "";
        count := 0;
        return;
      }
      text := t.value;
      displayed := "";
      count := 0;
      running := true;
    }

    /** One timer tick: one more character, or, once all are shown, the timer stops. */
    method Tick()
      requires Valid()
      modifies this
      ensures Valid() && text == old(text)
      ensures old(running) && old(count) < |text| ==> running && count == old(count) + 1
      ensures old(running) && old(count) < |text| ==> displayed == old(displayed) + [text[old(count)]]
      ensures old(running) && old(count) == |text| ==> !running && count == old(count)
      ensures !old(running) ==> !running && count == old(count) && displayed == old(displayed)
    {
      if !running {
        return;
      }
      if count < |text| {
        ShownGrows(text, count);
        count := count + 1;
        displayed := text[..count];
      } else {
        running := false;
      }
    }

    /** Ticking until the timer stops leaves the whole text on display. */
    method RunToEnd()
      requires Valid()
      modifies this
      ensures Valid() && text == old(text) && !running
      ensures old(running) ==> displayed == text
      ensures !old(running) ==> displayed == old(displayed)
    {
      ghost var wasRunning := running;
      while running
        invariant Valid() && text == old(text)
        invariant running ==> wasRunning
        invariant !wasRunning ==> displayed == old(displayed)
        invariant wasRunning && !running ==> count == |text|
        decreases |text| - count, running
      {
        Tick();
      }
      if wasRunning {
        assert text[..|text|] == text;
      }
    }
  }

  /** The display after `ticks` ticks of a freshly set text: the prefix of that many characters. */
  function Shown(text: string, ticks: nat): (r: string)
    ensures |r| == if ticks < |text| then ticks else |text|
    ensures r == text[..|r|]
  {
    if ticks < |text| then text[..ticks] else text
  }

  /** Each tick before the end lengthens the display by exactly the next character. */
  lemma ShownGrows(text: string, ticks: nat)
    requires ticks < |text|
    ensures Shown(text, ticks + 1) == Shown(text, ticks) + [text[ticks]]
  {
    if ticks + 1 < |text| {
      assert text[..ticks + 1] == text[..ticks] + [text[ticks]];
    } else {
      assert text == text[..ticks] + [text[ticks]];
    }
  }

  /** The display only ever grows towards the text: an earlier display is a prefix of a later one. */
  lemma ShownMonotone(text: string, a: nat, b: nat)
    requires a <= b
    ensures Shown(text, a) == Shown(text, b)[..|Shown(text, a)|]
  {
  }
}
