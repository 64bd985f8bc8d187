/** Worked runs of the state machine on a three-letter text, frame by frame
    as the driver would produce them. */
module Scenarios {
  import opened Typing
  import opened TypingLemmas
  import opened Tracker
  import Corpus

  /** A text mode whose ten paragraphs are all "cat", before the start button. */
  function CatSession(): (s: Session)
    ensures s.Valid() && s.FlagsAgree() && s.AtStart()
  {
    var cats := seq(Corpus.ParagraphCount, _ => "cat");
    assert StrLen("cat") == 3 by {
      assert "cat"[1..] == "at" && "at"[1..] == "t" && "t"[1..] == "";
    }
    Session(cats, 0, "cat", 3, 0, 0, 0.0, false, false, false, true)
  }

  /** A key pressed before the start button changes nothing. */
  lemma KeyBeforeStart()
    ensures Frame(CatSession(), 1.0, 'c' as int) == CatSession()
    ensures CatSession().Accuracy() == 100.0 && CatSession().RemainingTime(1.0) == TimeLimit
  {
  }

  /** Start at second 5, type c, a, t in three frames: complete, no mistake,
      100% accuracy (and the clock still shows time left). */
  lemma TypingCat()
    ensures var s0 := CatSession().StartGame(5.0);
            var s3 := Frame(Frame(Frame(s0, 6.0, 'c' as int), 7.0, 'a' as int), 8.0, 't' as int);
            s3.currentPosition == 3 && s3.mistakes == 0 && s3.IsComplete() &&
            s3.Accuracy() == 100.0 && s3.RemainingTime(8.0) == 27.0
  {
  }

  /** A wrong first key: one mistake, cursor unmoved, 0% accuracy, still
      running. */
  lemma WrongFirstKey()
    ensures var s := Frame(CatSession().StartGame(5.0), 6.0, 'x' as int);
            s.currentPosition == 0 && s.mistakes == 1 && s.Accuracy() == 0.0 &&
            s.Active() && !s.IsComplete()
  {
  }

  /** A key in the frame where the 30 seconds run out is ignored, the time
      is up and no time remains. */
  lemma KeyAtTimeOut()
    ensures var s := Frame(CatSession().StartGame(5.0), 35.1, 'c' as int);
            s.isTimeUp && s.currentPosition == 0 && s.mistakes == 0 &&
            s.IsComplete() && s.RemainingTime(35.1) == 0.0
  {
  }

  /** Pressing start a second time during the attempt keeps the start time. */
  lemma StartTwice()
    ensures CatSession().StartGame(5.0).StartGame(12.0).startTime == 5.0
  {
  }

  /** After the last letter, another key is a mistake. */
  lemma KeyAfterEnd()
    ensures var s := Feed(CatSession().StartGame(5.0), Codes("cat") + ['s' as int]);
            s.currentPosition == 3 && s.mistakes == 1 && s.IsComplete()
  {
    var s0 := CatSession().StartGame(5.0);
    assert s0.text[s0.currentPosition..s0.textLength] == "cat";
    TypeRestOfText(s0);
    FeedAppend(s0, Codes("cat"), ['s' as int]);
    KeysAfterEnd(Feed(s0, Codes("cat")), ['s' as int]);
  }
}
