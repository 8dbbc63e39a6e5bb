/**
 * The typing effect of the hero heading: five phrases typed one character
 * per tick, held, deleted one character per tick, then the next phrase.
 * Each tick returns the delay before the next one; the timer itself is not
 * modelled, a run of ticks is.
 */
module Typing {

  /** The phrases in the order they are shown. */
  const Phrases: seq<string> := [
    "Space & BioAI Research Engineer",
    "Computational Biology Researcher",
    "Space Systems Data Scientist",
    "Neurotech & Bioelectronics Research Engineer",
    "Life Sciences & Materials Researcher"
  ]

  /** Delay after typing a character, in milliseconds. */
  const TypeDelay: int := 100
  /** Delay after deleting a character. */
  const DeleteDelay: int := 50
  /** Pause with the whole phrase on screen. */
  const HoldDelay: int := 2000
  /** Pause with the heading empty before the next phrase. */
  const NextDelay: int := 500

  /**
   * String.prototype.substring(0, end): the end is clamped into [0, |s|] and
   * the prefix of that length is returned.
   */
  function JsPrefix(s: string, end: int): (r: string)
    ensures 0 <= end <= |s| ==> |r| == end
    ensures end < 0 ==> r == []
    ensures end > |s| ==> r == s
    ensures r <= s
  {
    if end < 0 then [] else if end > |s| then s else s[..end]
  }

  /** The variables of the effect and the heading's text content. */
  datatype TypingState = TypingState(phraseIndex: nat, charIndex: int, isDeleting: bool,
                                     typingSpeed: int, text: string)

  /** Every phrase of the list has at least one character. */
  predicate NonEmpty(phrases: seq<string>) {
    forall k :: 0 <= k < |phrases| ==> |phrases[k]| >= 1
  }

  /** One call of the tick function over the phrase list `phrases`. */
  function Tick(phrases: seq<string>, st: TypingState): (r: TypingState)
    requires st.phraseIndex < |phrases|
    ensures r.phraseIndex < |phrases|
  {
    var current := phrases[st.phraseIndex];
    var text := if st.isDeleting then JsPrefix(current, st.charIndex - 1) else JsPrefix(current, st.charIndex + 1);
    var charIndex := if st.isDeleting then st.charIndex - 1 else st.charIndex + 1;
    var speed := if st.isDeleting then DeleteDelay else TypeDelay;
    if !st.isDeleting && charIndex == |current| then
      TypingState(st.phraseIndex, charIndex, true, HoldDelay, text)
    else if st.isDeleting && charIndex == 0 then
      TypingState((st.phraseIndex + 1) % |phrases|, charIndex, false, NextDelay, text)
    else
      TypingState(st.phraseIndex, charIndex, st.isDeleting, speed, text)
  }

  /** n ticks in a row. */
  function Run(phrases: seq<string>, st: TypingState, n: nat): (r: TypingState)
    requires st.phraseIndex < |phrases|
    ensures r.phraseIndex < |phrases|
    decreases n
  {
    if n == 0 then st else Run(phrases, Tick(phrases, st), n - 1)
  }

  /**
   * What holds between ticks: the heading shows the first charIndex characters
   * of the current phrase; while typing at least one character is still
   * missing, while deleting at least one is still shown.
   */
  predicate Inv(phrases: seq<string>, st: TypingState) {
    && st.phraseIndex < |phrases|
    && 0 <= st.charIndex <= |phrases[st.phraseIndex]|
    && st.text == phrases[st.phraseIndex][..st.charIndex]
    && (st.isDeleting ==> st.charIndex >= 1)
    && (!st.isDeleting ==> st.charIndex < |phrases[st.phraseIndex]|)
  }

  /** The state before the first tick; the heading holds whatever the page had. */
  function Initial(text: string): TypingState {
    TypingState(0, 0, false, TypeDelay, text)
  }

  /** The first tick shows the first character of the first phrase, whatever was there. */
  lemma InitialTick(phrases: seq<string>, text: string)
    requires |phrases| > 0 && NonEmpty(phrases)
    ensures Inv(phrases, Tick(phrases, Initial(text)))
    ensures Tick(phrases, Initial(text)).text == phrases[0][..1]
    ensures Tick(phrases, Initial(text)).typingSpeed == (if |phrases[0]| == 1 then HoldDelay else TypeDelay)
  {
  }

  /**
   * Each tick keeps the invariant. The delay it returns says what happened:
   * 2000 after the last character was typed (the whole phrase is shown), 500
   * after the last was deleted (empty heading, next phrase), otherwise 100
   * while typing and 50 while deleting.
   */
  lemma TickKeepsInv(phrases: seq<string>, st: TypingState)
    requires NonEmpty(phrases) && Inv(phrases, st)
    ensures Inv(phrases, Tick(phrases, st))
    ensures var r := Tick(phrases, st);
            && (r.typingSpeed == HoldDelay <==> !st.isDeleting && r.text == phrases[st.phraseIndex])
            && (r.typingSpeed == NextDelay <==> st.isDeleting && r.text == [])
            && (r.typingSpeed == TypeDelay <==> !st.isDeleting && r.text != phrases[st.phraseIndex])
            && (r.typingSpeed == DeleteDelay <==> st.isDeleting && r.text != [])
  {
  }

  /** Running a + b ticks is running a ticks and then b more. */
  lemma {:induction false} RunAdd(phrases: seq<string>, st: TypingState, a: nat, b: nat)
    requires st.phraseIndex < |phrases|
    ensures Run(phrases, st, a + b) == Run(phrases, Run(phrases, st, a), b)
    decreases a
  {
    if a > 0 {
      RunAdd(phrases, Tick(phrases, st), a - 1, b);
    }
  }

  /** The invariant holds after any number of ticks. */
  lemma {:induction false} RunKeepsInv(phrases: seq<string>, st: TypingState, n: nat)
    requires NonEmpty(phrases) && Inv(phrases, st)
    ensures Inv(phrases, Run(phrases, st, n))
    decreases n
  {
    if n > 0 {
      TickKeepsInv(phrases, st);
      RunKeepsInv(phrases, Tick(phrases, st), n - 1);
    }
  }

  /**
   * Typing: from a typing state at c characters, n ticks with c + n below the
   * phrase length show c + n characters, still typing, at 100 ms per tick.
   */
  lemma {:induction false} TypingPhase(phrases: seq<string>, st: TypingState, n: nat)
    requires Inv(phrases, st) && !st.isDeleting && n >= 1
    requires st.charIndex + n < |phrases[st.phraseIndex]|
    ensures Run(phrases, st, n) == TypingState(st.phraseIndex, st.charIndex + n, false, TypeDelay,
                                               phrases[st.phraseIndex][..st.charIndex + n])
    decreases n
  {
    var t := Tick(phrases, st);
    assert t == TypingState(st.phraseIndex, st.charIndex + 1, false, TypeDelay,
                            phrases[st.phraseIndex][..st.charIndex + 1]);
    if n > 1 {
      TypingPhase(phrases, t, n - 1);
    }
  }

  /**
   * From a typing state at c characters, the remaining |phrase| - c ticks show
   * the whole phrase and switch to deleting with the 2000 ms hold.
   */
  lemma {:induction false} TypedOut(phrases: seq<string>, st: TypingState)
    requires Inv(phrases, st) && !st.isDeleting
    ensures var len := |phrases[st.phraseIndex]|;
            Run(phrases, st, len - st.charIndex)
              == TypingState(st.phraseIndex, len, true, HoldDelay, phrases[st.phraseIndex])
  {
    var p, len := st.phraseIndex, |phrases[st.phraseIndex]|;
    var n := len - st.charIndex;
    if n == 1 {
      assert Run(phrases, st, 1) == Run(phrases, Tick(phrases, st), 0);
    } else {
      TypingPhase(phrases, st, n - 1);
      RunAdd(phrases, st, n - 1, 1);
      var u := Run(phrases, st, n - 1);
      assert Run(phrases, u, 1) == Run(phrases, Tick(phrases, u), 0);
      assert phrases[p][..len] == phrases[p];
    }
  }

  /**
   * Deleting: from a deleting state at c characters, n ticks with n below c
   * show c - n characters, still deleting, at 50 ms per tick.
   */
  lemma {:induction false} DeletingPhase(phrases: seq<string>, st: TypingState, n: nat)
    requires Inv(phrases, st) && st.isDeleting && 1 <= n < st.charIndex
    ensures Run(phrases, st, n) == TypingState(st.phraseIndex, st.charIndex - n, true, DeleteDelay,
                                               phrases[st.phraseIndex][..st.charIndex - n])
    decreases n
  {
    var t := Tick(phrases, st);
    assert t == TypingState(st.phraseIndex, st.charIndex - 1, true, DeleteDelay,
                            phrases[st.phraseIndex][..st.charIndex - 1]);
    if n > 1 {
      DeletingPhase(phrases, t, n - 1);
    }
  }

  /**
   * From a deleting state at c characters, c ticks empty the heading and move
   * to the start of the next phrase (wrapping after the last) with the 500 ms pause.
   */
  lemma {:induction false} DeletedOut(phrases: seq<string>, st: TypingState)
    requires Inv(phrases, st) && st.isDeleting
    ensures Run(phrases, st, st.charIndex)
              == TypingState((st.phraseIndex + 1) % |phrases|, 0, false, NextDelay, [])
  {
    var c := st.charIndex;
    if c == 1 {
      assert Run(phrases, st, 1) == Run(phrases, Tick(phrases, st), 0);
    } else {
      DeletingPhase(phrases, st, c - 1);
      RunAdd(phrases, st, c - 1, 1);
      var u := Run(phrases, st, c - 1);
      assert Run(phrases, u, 1) == Run(phrases, Tick(phrases, u), 0);
    }
  }

  /** The start of phrase p: nothing typed yet, typing. */
  function PhraseStart(p: nat, speed: int, text: string): TypingState {
    TypingState(p, 0, false, speed, text)
  }

  /** The phrase after p in a list of n phrases, wrapping after the last. */
  lemma NextPhrase(p: nat, n: nat)
    requires p < n
    ensures (p + 1) % n == if p + 1 < n then p + 1 else 0
  {
  }

  /**
   * One full cycle: from the start of phrase p with an empty heading, after
   * twice the phrase length in ticks the heading is empty again at the start
   * of the next phrase, or of the first after the last.
   */
  lemma CycleOfPhrase(phrases: seq<string>, p: nat, speed: int)
    requires p < |phrases| && |phrases[p]| >= 1
    ensures Run(phrases, PhraseStart(p, speed, []), 2 * |phrases[p]|)
              == PhraseStart(if p + 1 < |phrases| then p + 1 else 0, NextDelay, [])
  {
    var st := PhraseStart(p, speed, []);
    var len := |phrases[p]|;
    TypedOut(phrases, st);
    RunAdd(phrases, st, len, len);
    DeletedOut(phrases, Run(phrases, st, len));
    NextPhrase(p, |phrases|);
  }

  /** If phrase p starts after `ticks` ticks, the next one starts 2 * |phrase p| ticks later. */
  lemma CycleStep(phrases: seq<string>, p: nat, ticks: nat, speed: int)
    requires p < |phrases| && |phrases[p]| >= 1
    requires Run(phrases, PhraseStart(0, speed, []), ticks) == PhraseStart(p, NextDelay, [])
    ensures Run(phrases, PhraseStart(0, speed, []), ticks + 2 * |phrases[p]|)
              == PhraseStart(if p + 1 < |phrases| then p + 1 else 0, NextDelay, [])
  {
    RunAdd(phrases, PhraseStart(0, speed, []), ticks, 2 * |phrases[p]|);
    CycleOfPhrase(phrases, p, NextDelay);
  }

  /** The page's phrases: five, of 31, 32, 28, 44 and 36 characters. */
  lemma PhraseLengths()
    ensures |Phrases| == 5 && NonEmpty(Phrases)
    ensures |Phrases[0]| == 31 && |Phrases[1]| == 32 && |Phrases[2]| == 28
    ensures |Phrases[3]| == 44 && |Phrases[4]| == 36
  {
  }

  /** Ticks in one pass over every phrase of the list: twice the total length. */
  function CycleLength(phrases: seq<string>): nat {
    if phrases == [] then 0 else CycleLength(phrases[..|phrases| - 1]) + 2 * |phrases[|phrases| - 1]|
  }

  /**
   * After the first k phrases of the list, the effect is at the start of
   * phrase k, or back at phrase 0 when k is the whole list.
   */
  lemma {:induction false} PassOfPhrases(phrases: seq<string>, k: nat, speed: int)
    requires 0 < k <= |phrases| && NonEmpty(phrases)
    ensures Run(phrases, PhraseStart(0, speed, []), CycleLength(phrases[..k]))
              == PhraseStart(if k < |phrases| then k else 0, NextDelay, [])
  {
    var front := phrases[..k];
    assert front[..k - 1] == phrases[..k - 1];
    assert CycleLength(front) == CycleLength(phrases[..k - 1]) + 2 * |phrases[k - 1]|;
    if k == 1 {
      assert CycleLength(phrases[..0]) == 0;
      CycleOfPhrase(phrases, 0, speed);
    } else {
      PassOfPhrases(phrases, k - 1, speed);
      CycleStep(phrases, k - 1, CycleLength(phrases[..k - 1]), speed);
    }
  }

  /**
   * The effect is periodic: a pass of CycleLength ticks over all phrases
   * returns to the start of the first phrase with an empty heading.
   */
  lemma Rotation(phrases: seq<string>, speed: int)
    requires |phrases| > 0 && NonEmpty(phrases)
    ensures Run(phrases, PhraseStart(0, speed, []), CycleLength(phrases)) == PhraseStart(0, NextDelay, [])
  {
    PassOfPhrases(phrases, |phrases|, speed);
    assert phrases[..|phrases|] == phrases;
  }

  /** On the page the pass takes 342 ticks. */
  lemma FullRotation(speed: int)
    ensures CycleLength(Phrases) == 342
    ensures Run(Phrases, PhraseStart(0, speed, []), CycleLength(Phrases)) == PhraseStart(0, NextDelay, [])
  {
    PhraseLengths();
    Rotation(Phrases, speed);
    var ps := Phrases;
    assert ps[..1][..0] == [];
    assert CycleLength(ps[..1]) == 62;
    assert ps[..2][..1] == ps[..1];
    assert CycleLength(ps[..2]) == 126;
    assert ps[..3][..2] == ps[..2];
    assert CycleLength(ps[..3]) == 182;
    assert ps[..4][..3] == ps[..3];
    assert CycleLength(ps[..4]) == 270;
    assert ps[..5][..4] == ps[..4];
    assert ps[..5] == ps;
  }

  /** The typing effect's variables and the heading it writes to. */
  class Typewriter {
    const phrases: seq<string>
    var phraseIndex: nat
    var charIndex: int
    var isDeleting: bool
    var typingSpeed: int
    var text: string

    function State(): TypingState
      reads this
    {
      TypingState(phraseIndex, charIndex, isDeleting, typingSpeed, text)
    }

    /**
     * The page's five phrases; the variables start at phrase 0, character 0,
     * typing, 100 ms; the heading holds `initialText`.
     */
    constructor (initialText: string)
      ensures phrases == Phrases && NonEmpty(phrases)
      ensures State() == Initial(initialText)
    {
      phrases := Phrases;
      phraseIndex := 0;
      charIndex := 0;
      isDeleting := false;
      typingSpeed := 100;
      text := initialText;
      new;
      PhraseLengths();
    }

    /** One tick: write the next prefix, then switch phase at either end of the phrase. */
    method Type()
      requires phraseIndex < |phrases|
      modifies this
      ensures State() == Tick(phrases, old(State()))
      ensures NonEmpty(phrases) && old(Inv(phrases, State())) ==> Inv(phrases, State())
    {
      ghost var st := State();
      var currentPhrase := phrases[phraseIndex];

      if isDeleting {
        text := JsPrefix(currentPhrase, charIndex - 1);
        charIndex := charIndex - 1;
        typingSpeed := 50;
      } else {
        text := JsPrefix(currentPhrase, charIndex + 1);
        charIndex := charIndex + 1;
        typingSpeed := 100;
      }

      if !isDeleting && charIndex == |currentPhrase| {
        isDeleting := true;
        typingSpeed := 2000;
      } else if isDeleting && charIndex == 0 {
        isDeleting := false;
        phraseIndex := (phraseIndex + 1) % |phrases|;
        typingSpeed := 500;
      }

      if NonEmpty(phrases) && Inv(phrases, st) {
        TickKeepsInv(phrases, st);
      }
    }
  }
}
