/** The reveal animation of a text (frontend/src/components/TypewriterMarkdown.tsx):
    a `displayed` prefix that an effect advances one timer tick at a time
    while typing, and snaps to the whole text when typing stops. The timer is
    one pending handle; its delay is modelled by category, since the jitter
    comes from `Math.random` and time itself is not modelled. */
module Typewriter {
  import opened Options

  /** A timer delay in milliseconds: a fixed one, or `base` plus a random
      offset in [-5, 5). */
  datatype Delay = Fixed(ms: nat) | Jittered(base: nat)

  /** An armed `setTimeout`: after `delay`, `displayed` becomes `shown`. */
  datatype Timer = Timer(delay: Delay, shown: string)

  const FastBase := 8
  const NormalBase := 15

  /** How many characters a tick reveals (line 27). */
  function ChunkSize(fastMode: bool): nat {
    if fastMode then 2 else 1
  }

  /** The delay before revealing from index `i` (lines 24-34): the base speed
      in fast mode; otherwise by the next character, a long pause after
      sentence ends, a shorter one after clause breaks, a small one at spaces,
      and a jittered base delay elsewhere. */
  function DelayFor(content: string, i: nat, fastMode: bool): Delay
    requires i < |content|
  {
    if fastMode then Fixed(FastBase)
    else
      var c := content[i];
      if c == '.' || c == '!' || c == '?' then Fixed(NormalBase * 15)
      else if c == ',' || c == ';' then Fixed(NormalBase * 10)
      else if c == ' ' then Fixed(NormalBase * 3)
      else Jittered(NormalBase)
  }

  /** `content.substring(0, i + chunkSize)`: the end is clamped to the length. */
  function Reveal(content: string, i: nat, fastMode: bool): string {
    var end := i + ChunkSize(fastMode);
    if end <= |content| then content[..end] else content
  }

  /** The timer one effect run arms while typing, if any (lines 21-38): none
      once the displayed text is at least as long as the content. */
  function Arm(displayed: string, content: string, fastMode: bool): Option<Timer> {
    var i := |displayed|;
    if i >= |content| then None
    else Some(Timer(DelayFor(content, i, fastMode), Reveal(content, i, fastMode)))
  }

  /** The blinking cursor is shown (line 72). */
  predicate CursorVisible(displayed: string, content: string, isTyping: bool) {
    isTyping && |displayed| < |content|
  }

  /** A tick reveals a longer prefix of the current content: at least one
      more character, at most `ChunkSize` more, never past the end. */
  lemma ArmAdvances(displayed: string, content: string, fastMode: bool)
    ensures Arm(displayed, content, fastMode).Some? <==> |displayed| < |content|
    ensures Arm(displayed, content, fastMode).Some? ==>
      var r := Arm(displayed, content, fastMode).value.shown;
      && |displayed| < |r| <= |content|
      && |r| <= |displayed| + ChunkSize(fastMode)
      && r == content[..|r|]
      && (|r| < |content| ==> |r| == |displayed| + ChunkSize(fastMode))
  {
  }

  /** The cursor shows exactly while an effect run would arm a timer. */
  lemma CursorIffArmed(displayed: string, content: string, isTyping: bool, fastMode: bool)
    ensures CursorVisible(displayed, content, isTyping) <==> isTyping && Arm(displayed, content, fastMode).Some?
  {
  }

  /** The delay in milliseconds, given the value `random` of `Math.random()`,
      which lies in [0, 1): a jittered delay is `base + (random * 10 - 5)`. */
  function DelayMs(delay: Delay, random: real): real
    requires 0.0 <= random < 1.0
  {
    match delay
    case Fixed(ms) => ms as real
    case Jittered(base) => base as real + (random * 10.0 - 5.0)
  }

  predicate SentenceEnd(c: char) {
    c == '.' || c == '!' || c == '?'
  }

  predicate ClauseBreak(c: char) {
    c == ',' || c == ';'
  }

  /** In normal mode the pauses are ranked by the next character, whatever
      the jitter: a sentence end waits longer than anything else, a clause
      break longer than a space or a plain character, and a space longer than
      any plain character; within the three fixed classes the pause does not
      depend on which character it is. */
  lemma NormalPausesRanked(content: string, i: nat, j: nat, ri: real, rj: real)
    requires i < |content| && j < |content|
    requires 0.0 <= ri < 1.0 && 0.0 <= rj < 1.0
    ensures var a := content[i]; var b := content[j];
      var di := DelayMs(DelayFor(content, i, false), ri);
      var dj := DelayMs(DelayFor(content, j, false), rj);
      && (SentenceEnd(a) && !SentenceEnd(b) ==> di > dj)
      && (ClauseBreak(a) && !SentenceEnd(b) && !ClauseBreak(b) ==> di > dj)
      && (a == ' ' && !SentenceEnd(b) && !ClauseBreak(b) && b != ' ' ==> di > dj)
      && (SentenceEnd(a) && SentenceEnd(b) ==> di == dj)
      && (ClauseBreak(a) && ClauseBreak(b) ==> di == dj)
      && (a == ' ' && b == ' ' ==> di == dj)
  {
  }

  /** A plain character in normal mode waits within 5 ms of the base speed:
      at least 10 ms and less than 20 ms. */
  lemma JitterRange(content: string, i: nat, random: real)
    requires i < |content| && 0.0 <= random < 1.0
    requires !SentenceEnd(content[i]) && !ClauseBreak(content[i]) && content[i] != ' '
    ensures var d := DelayMs(DelayFor(content, i, false), random);
      NormalBase as real - 5.0 <= d < NormalBase as real + 5.0
  {
  }

  /** Fast mode waits the same at every character, and less than normal mode
      waits at any character. */
  lemma FastIsUniform(content: string, i: nat, j: nat, ri: real, rj: real)
    requires i < |content| && j < |content|
    requires 0.0 <= ri < 1.0 && 0.0 <= rj < 1.0
    ensures DelayMs(DelayFor(content, i, true), ri) == DelayMs(DelayFor(content, j, true), rj)
    ensures DelayMs(DelayFor(content, i, true), ri) < DelayMs(DelayFor(content, j, false), rj)
  {
  }

  /** The displayed text after `n` ticks on unchanged content: each tick is an
      effect run that arms a timer and the timer firing. */
  function AfterTicks(displayed: string, content: string, fastMode: bool, n: nat): string {
    if n == 0 then displayed
    else
      var d := AfterTicks(displayed, content, fastMode, n - 1);
      match Arm(d, content, fastMode)
      case None => d
      case Some(t) => t.shown
  }

  function Min(a: nat, b: nat): nat {
    if a <= b then a else b
  }

  /** From a prefix of the content, `n` ticks reveal exactly the first
      `i + n * ChunkSize` characters, clamped to the whole content; so from the
      empty start, the whole text is shown after `|content|` ticks at most. */
  lemma {:induction false} TicksReveal(displayed: string, content: string, fastMode: bool, n: nat)
    requires |displayed| <= |content| && displayed == content[..|displayed|]
    ensures AfterTicks(displayed, content, fastMode, n)
         == content[..Min(|displayed| + n * ChunkSize(fastMode), |content|)]
  {
    if n > 0 {
      TicksReveal(displayed, content, fastMode, n - 1);
      var d := AfterTicks(displayed, content, fastMode, n - 1);
      var k := Min(|displayed| + (n - 1) * ChunkSize(fastMode), |content|);
      assert |d| == k;
      assert (n - 1) * ChunkSize(fastMode) + ChunkSize(fastMode) == n * ChunkSize(fastMode);
      if |d| >= |content| {
        assert d == content;
      }
    }
  }

  /** A component instance: its `displayedContent` state and the timer handle
      of the last effect run. */
  class TypewriterState {
    var displayed: string
    var pending: Option<Timer>

    /** Mounting: nothing displayed, nothing armed (line 13). */
    constructor()
      ensures displayed == "" && pending == None
    {
      displayed := "";
      pending := None;
    }

    /** One run of the effect (lines 15-41), after the previous run's cleanup
      cleared its timer. Not typing: the text is shown whole at once. Typing:
      a timer for the next step is armed unless the displayed text is already
      at least as long, in which case a stale longer text is left as it is. */
    method RunEffect(content: string, isTyping: bool, fastMode: bool)
      modifies this
      ensures !isTyping ==> displayed == content && pending == None
      ensures isTyping ==> displayed == old(displayed) && pending == Arm(old(displayed), content, fastMode)
    {
      pending := None;
      if !isTyping {
        displayed := content;
        return;
      }
      var i := |displayed|;
      if i >= |content| {
        return;
      }
      var chunkSize := ChunkSize(fastMode);
      var delay := DelayFor(content, i, fastMode);
      pending := Some(Timer(delay, if i + chunkSize <= |content| then content[..i + chunkSize] else content));
    }

    /** The pending timer fires: the revealed text is set and the handle is
      spent. Without a pending timer nothing happens. */
    method Fire()
      modifies this
      ensures old(pending).Some? ==> displayed == old(pending).value.shown
      ensures old(pending).None? ==> displayed == old(displayed)
      ensures pending == None
    {
      if pending.Some? {
        displayed := pending.value.shown;
        pending := None;
      }
    }

    /** Unmounting runs the cleanup: the timer is cleared (line 40). */
    method Unmount()
      modifies this
      ensures pending == None && displayed == old(displayed)
    {
      pending := None;
    }
  }
}
