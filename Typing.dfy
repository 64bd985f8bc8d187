/** The per-attempt typing state machine of the trainer (class TextMode of
    OOP_PROJECT_TST/main.cpp).

    The value type `Session` is the abstract state: one field per field of
    TextMode, and one member function per operation, which is the
    specification of that operation. The class `TextMode` holds the same
    fields as mutable variables; each of its methods updates them in place
    and is proved to move `State()` exactly as the matching function says.

    The clock (raylib's GetTime) is an explicit `now` argument in seconds,
    and the random paragraph choice (rand() % 10) an explicit index. */
module Typing {
  import Corpus

  /** Length of an attempt in seconds. */
  const TimeLimit: real := 30.0

  /** C's strlen: the number of characters before the first NUL. */
  function StrLen(s: string): (n: nat)
    ensures n <= |s|
    ensures forall j :: 0 <= j < n ==> s[j] != '\0'
    ensures n < |s| ==> s[n] == '\0'
  {
    if |s| == 0 || s[0] == '\0' then 0 else 1 + StrLen(s[1..])
  }

  /** A string with no NUL in it. */
  predicate NoNul(s: string)
  {
    forall j :: 0 <= j < |s| ==> s[j] != '\0'
  }

  /** The character code C reads at `text[i]`: at the end of the text the
      terminating NUL, code 0. Past the end C reads out of bounds; 0 stands in
      for that read, which only a key of code 0 can lead to. */
  function CharAt(text: string, i: nat): int
  {
    if i < |text| then text[i] as int else 0
  }

  /** The result of a float division: a number, or infinity/NaN when the
      divisor is zero. */
  datatype Rate = Finite(value: real) | NonFinite

  /** The fields of one TextMode object. */
  datatype Session = Session(
    paragraphs: seq<string>,
    currentParagraph: nat,
    text: string,
    textLength: nat,
    currentPosition: nat,
    mistakes: nat,
    startTime: real,
    isTyping: bool,
    isTimeUp: bool,
    isStarted: bool,
    wordWrap: bool)
  {
    /** The structural invariant: a ten-entry paragraph array, the active
        text is the selected entry, its length is its strlen, and the
        cursor never passes the terminator. */
    predicate Valid()
    {
      |paragraphs| == Corpus.ParagraphCount &&
      currentParagraph < |paragraphs| &&
      text == paragraphs[currentParagraph] &&
      textLength == StrLen(text) &&
      currentPosition <= textLength
    }

    /** The flag discipline of every reachable session: the start button
        sets isStarted and isTyping together, and the time-up flag is only
        ever raised while typing. */
    predicate FlagsAgree()
    {
      isTyping == isStarted && (isTimeUp ==> isTyping)
    }

    /** The state a freshly selected paragraph is in. */
    predicate AtStart()
    {
      currentPosition == 0 && mistakes == 0 && !isTyping && !isTimeUp && !isStarted
    }

    /** The clock is running: the guard of the timer and of the live queries. */
    predicate Running()
    {
      isTyping && isStarted
    }

    /** Keystrokes have an effect: running and the time is not up. */
    predicate Active()
    {
      Running() && !isTimeUp
    }

    /** The code of the character the cursor is on (0 at the end). */
    function Expected(): int
    {
      CharAt(text, currentPosition)
    }

    /** startTyping: begins the clock, only when started and not yet typing. */
    function StartTyping(now: real): (r: Session)
      ensures isStarted && !isTyping ==> r.isTyping && r.startTime == now && !r.isTimeUp
      ensures !(isStarted && !isTyping) ==> r == this
      ensures r.(isTyping := isTyping, startTime := startTime, isTimeUp := isTimeUp) == this
    {
      if !isTyping && isStarted then this.(isTyping := true, startTime := now, isTimeUp := false)
      else this
    }

    /** startGame: sets isStarted, then startTyping. Pressing start again
        during an attempt keeps the original start time. */
    function StartGame(now: real): (r: Session)
      ensures r.Running()
      ensures isTyping ==> r == this.(isStarted := true)
      ensures !isTyping ==> r.startTime == now && !r.isTimeUp
      ensures r.(isStarted := isStarted, isTyping := isTyping, startTime := startTime,
                 isTimeUp := isTimeUp) == this
    {
      this.(isStarted := true).StartTyping(now)
    }

    /** checkInput: while active, a key equal to the character under the
        cursor advances the cursor, any other key is a mistake. */
    function CheckInput(key: int): (r: Session)
      ensures !Active() ==> r == this
      ensures Active() ==> r.currentPosition + r.mistakes == currentPosition + mistakes + 1
      ensures r.currentPosition == currentPosition + 1 <==> Active() && key == Expected()
      ensures r.mistakes == mistakes + 1 <==> Active() && key != Expected()
      ensures r.(currentPosition := currentPosition, mistakes := mistakes) == this
    {
      if !isTyping || isTimeUp || !isStarted then this
      else if key == CharAt(text, currentPosition) then this.(currentPosition := currentPosition + 1)
      else this.(mistakes := mistakes + 1)
    }

    /** isComplete: the cursor is at (or past) the end, or the time is up. */
    predicate IsComplete()
      ensures Valid() ==> (IsComplete() <==> currentPosition == textLength || isTimeUp)
    {
      currentPosition >= textLength || isTimeUp
    }

    /** getCPM: correct characters per minute of elapsed time; 0 before the
        clock runs. */
    function Cpm(now: real): (r: Rate)
      ensures !Running() ==> r == Finite(0.0)
      ensures Running() ==> (r.NonFinite? <==> now == startTime)
      ensures Running() && now > startTime ==>
                r.Finite? && r.value >= 0.0 &&
                r.value * (now - startTime) == 60.0 * currentPosition as real
    {
      if !isTyping || !isStarted then Finite(0.0)
      else
        var minutes := (now - startTime) / 60.0;
        if minutes == 0.0 then NonFinite else Finite(currentPosition as real / minutes)
    }

    /** getWPM: words per minute, a word being five characters. */
    function Wpm(now: real): (r: Rate)
      ensures !Running() ==> r == Finite(0.0)
      ensures Running() ==> (r.NonFinite? <==> now == startTime)
      ensures Running() && now > startTime ==>
                r.Finite? && r.value >= 0.0 &&
                r.value * (now - startTime) == 12.0 * currentPosition as real
    {
      if !isTyping || !isStarted then Finite(0.0)
      else
        var minutes := (now - startTime) / 60.0;
        if minutes == 0.0 then NonFinite else Finite((currentPosition as real / 5.0) / minutes)
    }

    /** getAccuracy: the percentage of keystrokes that were correct, 100
        before the first keystroke. */
    function Accuracy(): (r: real)
      ensures 0.0 <= r <= 100.0
      ensures mistakes == 0 ==> r == 100.0
      ensures currentPosition == 0 && mistakes > 0 ==> r == 0.0
      ensures currentPosition + mistakes > 0 ==>
                r * (currentPosition + mistakes) as real == 100.0 * currentPosition as real
    {
      if currentPosition + mistakes == 0 then 100.0
      else (currentPosition as real / (currentPosition + mistakes) as real) * 100.0
    }

    /** selectRandomParagraph with the random index made explicit: loads the
        chosen paragraph and resets the attempt. */
    function SelectRandomParagraph(index: nat): (r: Session)
      requires index < |paragraphs|
      ensures r.currentParagraph == index && r.text == paragraphs[index]
      ensures r.textLength == StrLen(paragraphs[index])
      ensures r.AtStart()
      ensures r.paragraphs == paragraphs && r.wordWrap == wordWrap && r.startTime == startTime
      ensures |paragraphs| == Corpus.ParagraphCount ==> r.Valid() && r.FlagsAgree()
    {
      var p := paragraphs[index];
      this.(currentParagraph := index, text := p, textLength := StrLen(p),
            currentPosition := 0, mistakes := 0,
            isTyping := false, isTimeUp := false, isStarted := false)
    }

    /** updateTimer: raises the time-up flag once 30 seconds have passed
        since the clock started. */
    function UpdateTimer(now: real): (r: Session)
      ensures r.isTimeUp <==> isTimeUp || (Running() && now - startTime >= TimeLimit)
      ensures r.(isTimeUp := isTimeUp) == this
    {
      if isTyping && !isTimeUp && isStarted && now - startTime >= TimeLimit
      then this.(isTimeUp := true)
      else this
    }

    /** getRemainingTime: the seconds left, clamped at 0; the full 30 before
        the clock runs. */
    function RemainingTime(now: real): (r: real)
      ensures r >= 0.0
      ensures !Running() ==> r == TimeLimit
      ensures Running() ==> (r == 0.0 <==> now - startTime >= TimeLimit)
      ensures Running() && r > 0.0 ==> r == TimeLimit - (now - startTime)
      ensures Running() && now >= startTime ==> r <= TimeLimit
    {
      if !isTyping || !isStarted then TimeLimit
      else
        var elapsed := now - startTime;
        if TimeLimit - elapsed > 0.0 then TimeLimit - elapsed else 0.0
    }

    /** toggleWordWrap: flips the rendering flag and nothing else. */
    function ToggleWordWrap(): (r: Session)
      ensures r.wordWrap == !wordWrap
      ensures r.(wordWrap := wordWrap) == this
    {
      this.(wordWrap := !wordWrap)
    }
  }

  /** The state the EasyMode, MediumMode and HardMode constructors leave: the
      TextMode constructor's initial values, the tier's ten paragraphs, then
      selectRandomParagraph. */
  function NewSession(tier: nat, index: nat): (r: Session)
    requires tier < Corpus.TierCount && index < Corpus.ParagraphCount
    ensures r.Valid() && r.FlagsAgree() && r.AtStart()
    ensures r.paragraphs == Corpus.Paragraphs(tier)
    ensures r.currentParagraph == index && r.text == Corpus.Paragraphs(tier)[index]
    ensures r.wordWrap && r.startTime == 0.0
  {
    var blank := Session(Corpus.Paragraphs(tier), 0, "", 0, 0, 0, 0.0, false, false, false, true);
    blank.SelectRandomParagraph(index)
  }

  /** A TextMode object. The paragraph array is fixed when the object is
      built, so it is a constant field. */
  class TextMode {
    const paragraphs: seq<string>
    var currentParagraph: nat
    var text: string
    var textLength: nat
    var currentPosition: nat
    var mistakes: nat
    var startTime: real
    var isTyping: bool
    var isTimeUp: bool
    var isStarted: bool
    var wordWrap: bool

    /** The abstract value of this object. */
    function State(): Session
      reads this
    {
      Session(paragraphs, currentParagraph, text, textLength, currentPosition, mistakes,
              startTime, isTyping, isTimeUp, isStarted, wordWrap)
    }

    /** Builds the text mode of one tier, with the paragraph chosen by `index`. */
    constructor (tier: nat, index: nat)
      requires tier < Corpus.TierCount && index < Corpus.ParagraphCount
      ensures State() == NewSession(tier, index)
    {
      paragraphs := Corpus.Paragraphs(tier);
      currentPosition, mistakes, startTime := 0, 0, 0.0;
      isTyping, isTimeUp, isStarted := false, false, false;
      currentParagraph, wordWrap := 0, true;
      new;
      SelectRandomParagraph(index);
    }

    method ToggleWordWrap()
      modifies this
      ensures State() == old(State()).ToggleWordWrap()
    {
      wordWrap := !wordWrap;
    }

    method StartTyping(now: real)
      modifies this
      ensures State() == old(State()).StartTyping(now)
    {
      if !isTyping && isStarted {
        isTyping := true;
        startTime := now;
        isTimeUp := false;
      }
    }

    method CheckInput(key: int)
      modifies this
      ensures State() == old(State()).CheckInput(key)
    {
      if !isTyping || isTimeUp || !isStarted {
        return;
      }
      if key == CharAt(text, currentPosition) {
        currentPosition := currentPosition + 1;
      } else {
        mistakes := mistakes + 1;
      }
    }

    method SelectRandomParagraph(index: nat)
      requires index < |paragraphs|
      modifies this
      ensures State() == old(State()).SelectRandomParagraph(index)
    {
      currentParagraph := index;
      text := paragraphs[currentParagraph];
      textLength := StrLen(text);
      currentPosition := 0;
      mistakes := 0;
      isTyping := false;
      isTimeUp := false;
      isStarted := false;
    }

    method UpdateTimer(now: real)
      modifies this
      ensures State() == old(State()).UpdateTimer(now)
    {
      if isTyping && !isTimeUp && isStarted {
        var elapsedTime := now - startTime;
        if elapsedTime >= TimeLimit {
          isTimeUp := true;
        }
      }
    }

    method StartGame(now: real)
      modifies this
      ensures State() == old(State()).StartGame(now)
    {
      isStarted := true;
      StartTyping(now);
    }
  }
}
