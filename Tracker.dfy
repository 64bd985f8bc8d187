/** The driver of the typing trainer (class TypingTracker of
    OOP_PROJECT_TST/main.cpp): it owns one text mode, replaces it when the
    difficulty changes, and feeds it once per frame. */
module Tracker {
  import Corpus
  import opened Typing

  /** One call of update: the timer check, the auto-start, then at most one
      nonzero key. Keys are character codes; 0 means no key this frame. */
  function Frame(s: Session, now: real, key: int): (r: Session)
    ensures s.Valid() ==> r.Valid()
    ensures s.FlagsAgree() ==> r.FlagsAgree()
    ensures s.Running() && now - s.startTime >= TimeLimit ==>
              r.isTimeUp && r.currentPosition == s.currentPosition && r.mistakes == s.mistakes
    ensures key == 0 && s.FlagsAgree() ==> r == s.UpdateTimer(now)
    ensures s.FlagsAgree() ==>
              r.currentPosition + r.mistakes ==
              s.currentPosition + s.mistakes + (if key != 0 && s.UpdateTimer(now).Active() then 1 else 0)
  {
    var timed := s.UpdateTimer(now);
    var started := if !timed.isTyping && timed.isStarted then timed.StartTyping(now) else timed;
    if key != 0 then started.CheckInput(key) else started
  }

  /** The user actions handleInput and update turn into calls on the text
      mode, with the mouse geometry stripped off. */
  datatype Event =
    | Tick(now: real, key: int)        // one frame of update
    | Start(now: real)                 // the Start button
    | Toggle                           // the word-wrap button
    | Restart(index: nat)              // the R key, with the random index
    | Switch(tier: nat, index: nat)    // a difficulty button

  /** The indices an event carries are ones rand() % 10 and the three
      buttons can produce. */
  predicate EventOk(e: Event)
  {
    match e
    case Restart(index) => index < Corpus.ParagraphCount
    case Switch(tier, index) => tier < Corpus.TierCount && index < Corpus.ParagraphCount
    case _ => true
  }

  /** The session after one event. */
  function Step(s: Session, e: Event): (r: Session)
    requires EventOk(e) && s.Valid()
    ensures r.Valid()
    ensures s.FlagsAgree() ==> r.FlagsAgree()
  {
    match e
    case Tick(now, key) => Frame(s, now, key)
    case Start(now) => s.StartGame(now)
    case Toggle => s.ToggleWordWrap()
    case Restart(index) => s.SelectRandomParagraph(index)
    case Switch(tier, index) => NewSession(tier, index)
  }

  /** The session after a run of events. */
  function Run(s: Session, events: seq<Event>): (r: Session)
    requires s.Valid()
    requires forall i :: 0 <= i < |events| ==> EventOk(events[i])
    ensures r.Valid()
    decreases |events|
  {
    if events == [] then s
    else Run(Step(s, events[0]), events[1..])
  }

  /** Every session the trainer can reach from its start-up state keeps the
      structural invariant and the flag discipline; in particular the
      auto-start branch of update never fires. */
  lemma {:induction false} Reachable(s: Session, events: seq<Event>)
    requires s.Valid() && s.FlagsAgree()
    requires forall i :: 0 <= i < |events| ==> EventOk(events[i])
    ensures Run(s, events).Valid() && Run(s, events).FlagsAgree()
    ensures forall now: real :: !(var t := Run(s, events).UpdateTimer(now); !t.isTyping && t.isStarted)
    decreases |events|
  {
    if events != [] {
      Reachable(Step(s, events[0]), events[1..]);
    }
  }

  /** A TypingTracker object, without the screen-layout fields. */
  class TypingTracker {
    var currentMode: TextMode
    var selectedMode: int

    /** Start-up: easy mode, with the paragraph chosen by `index`. */
    constructor (index: nat)
      requires index < Corpus.ParagraphCount
      ensures selectedMode == 0 && fresh(currentMode)
      ensures currentMode.State() == NewSession(0, index)
    {
      selectedMode := 0;
      currentMode := new TextMode(0, index);
    }

    /** switchMode: discards the current session and builds a fresh one of
        the chosen tier. */
    method SwitchMode(mode: nat, index: nat)
      requires mode < Corpus.TierCount && index < Corpus.ParagraphCount
      modifies this
      ensures selectedMode == mode && fresh(currentMode)
      ensures currentMode.State() == NewSession(mode, index)
    {
      selectedMode := mode;
      currentMode := new TextMode(mode, index);
    }

    /** update: one frame, with the clock reading and the key of the frame. */
    method Update(now: real, key: int)
      modifies currentMode
      ensures currentMode.State() == Frame(old(currentMode.State()), now, key)
    {
      currentMode.UpdateTimer(now);
      if !currentMode.isTyping && currentMode.isStarted {
        currentMode.StartTyping(now);
      }
      if key != 0 {
        currentMode.CheckInput(key);
      }
    }
  }
}
