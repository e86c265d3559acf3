/**
 * The video-masked hero's rotation: on every interval tick the clip index
 * advances modulo the number of clips, and the word index advances modulo the
 * number of words exactly when the clip index wraps back to 0, like the two
 * digits of an odometer.
 */
module WordRotation {

  const WORDS: seq<string> := ["OUTCOMPETING", "MADE", "SIMPLE"]
  const CLIPS: seq<string> := ["/videos/Video1.mp4", "/videos/Video2.mp4", "/videos/Video3.mp4"]
  const CLIPS_PER_WORD: int := |CLIPS|

  /** Ticks in one full rotation through every word and every clip. */
  const CYCLE: int := CLIPS_PER_WORD * |WORDS|

  /** The two state variables. */
  datatype Frame = Frame(word: int, clip: int)

  const START: Frame := Frame(0, 0)

  predicate InRange(f: Frame) {
    0 <= f.word < |WORDS| && 0 <= f.clip < CLIPS_PER_WORD
  }

  /** One tick, on values: the specification of `Rotation.Tick`. */
  function Next(f: Frame): (n: Frame)
    ensures 0 <= n.clip < CLIPS_PER_WORD
    ensures 0 <= f.word < |WORDS| ==> 0 <= n.word < |WORDS|
    ensures n.word != f.word ==> n.clip == 0
  {
    var clip := (f.clip + 1) % CLIPS_PER_WORD;
    if clip == 0 then Frame((f.word + 1) % |WORDS|, clip) else Frame(f.word, clip)
  }

  /** The reading of the odometer: the word is the high digit, the clip the low one. */
  function Position(f: Frame): int {
    f.word * CLIPS_PER_WORD + f.clip
  }

  /** A tick keeps both indices in range, and moves the word exactly when the new clip index is 0. */
  lemma NextInRange(f: Frame)
    requires InRange(f)
    ensures InRange(Next(f))
    ensures Next(f).clip == (f.clip + 1) % CLIPS_PER_WORD
    ensures Next(f).clip == 0 ==> Next(f).word == (f.word + 1) % |WORDS|
    ensures Next(f).clip != 0 ==> Next(f).word == f.word
  {
  }

  /** A tick adds one to the odometer reading, modulo the cycle length. */
  lemma NextAdvancesPosition(f: Frame)
    requires InRange(f)
    ensures 0 <= Position(f) < CYCLE
    ensures Position(Next(f)) == (Position(f) + 1) % CYCLE
  {
  }

  /** In-range frames are told apart by their odometer reading. */
  lemma PositionInjective(f: Frame, g: Frame)
    requires InRange(f) && InRange(g)
    requires Position(f) == Position(g)
    ensures f == g
  {
  }

  /** The frame after `n` ticks. */
  function After(f: Frame, n: nat): Frame {
    if n == 0 then f else Next(After(f, n - 1))
  }

  /** After `n` ticks from the start, the odometer reads `n` modulo the cycle, and both indices are in range. */
  lemma {:induction false} PositionAfter(n: nat)
    ensures InRange(After(START, n))
    ensures Position(After(START, n)) == n % CYCLE
  {
    if n > 0 {
      var before := After(START, n - 1);
      PositionAfter(n - 1);
      NextAdvancesPosition(before);
      assert Position(After(START, n)) == ((n - 1) % CYCLE + 1) % CYCLE;
      ModSuccessor(n - 1);
    }
  }

  lemma ModSuccessor(k: nat)
    ensures (k % CYCLE + 1) % CYCLE == (k + 1) % CYCLE
  {
    assert CYCLE == 9;
  }

  /** The rotation returns to its first word and first clip after exactly nine ticks, and not before. */
  lemma FullCycle(n: nat)
    ensures After(START, CYCLE) == START
    ensures 0 < n < CYCLE ==> After(START, n) != START
  {
    PositionAfter(CYCLE);
    PositionInjective(After(START, CYCLE), START);
    PositionAfter(n);
  }

  /** The component's state. */
  class Rotation {
    var wordIndex: int
    var clipIndex: int

    ghost predicate Valid()
      reads this
    {
      InRange(Frame(wordIndex, clipIndex))
    }

    constructor ()
      ensures Valid() && wordIndex == 0 && clipIndex == 0
    {
      wordIndex, clipIndex := 0, 0;
    }

    /** One interval tick: the clip updater, which bumps the word when the clip wraps. */
    method Tick()
      requires Valid()
      modifies this
      ensures Valid()
      ensures Frame(wordIndex, clipIndex) == Next(Frame(old(wordIndex), old(clipIndex)))
    {
      var next := (clipIndex + 1) % CLIPS_PER_WORD;
      if next == 0 {
        wordIndex := (wordIndex + 1) % |WORDS|;
      }
      clipIndex := next;
    }

    /** `WORDS[wordIndex]`, always in bounds. */
    function CurrentWord(): (w: string)
      reads this
      requires Valid()
      ensures w in WORDS
    {
      WORDS[wordIndex]
    }

    /** `CLIPS[clipIndex]`, always in bounds because there are as many clips per word as clips. */
    function CurrentClip(): (c: string)
      reads this
      requires Valid()
      ensures c in CLIPS
    {
      CLIPS[clipIndex]
    }
  }
}
