/** Properties of the typing state machine that relate several operations
    or several keystrokes. */
module TypingLemmas {
  import opened Typing

  /** The key codes a user sends when typing the string `t` exactly. */
  function Codes(t: string): (ks: seq<int>)
    ensures |ks| == |t| && forall j :: 0 <= j < |t| ==> ks[j] == t[j] as int
  {
    seq(|t|, j requires 0 <= j < |t| => t[j] as int)
  }

  /** For a paragraph with no NUL in it, strlen is its full length, so the
      whole paragraph is the target text. */
  lemma StrLenOfNulFree(s: string)
    requires NoNul(s)
    ensures StrLen(s) == |s|
  {
  }

  /** A run of keystrokes, each checked in arrival order. */
  function Feed(s: Session, keys: seq<int>): Session
    decreases |keys|
  {
    if keys == [] then s else Feed(s.CheckInput(keys[0]), keys[1..])
  }

  /** Feeding two runs of keys one after the other is feeding their
      concatenation. */
  lemma {:induction false} FeedAppend(s: Session, a: seq<int>, b: seq<int>)
    ensures Feed(s, a + b) == Feed(Feed(s, a), b)
    decreases |a|
  {
    if a != [] {
      assert (a + b)[0] == a[0] && (a + b)[1..] == a[1..] + b;
      FeedAppend(s.CheckInput(a[0]), a[1..], b);
    } else {
      assert a + b == b;
    }
  }

  /** Before the start button or after the time is up, no keystroke changes
      anything. */
  lemma {:induction false} FeedInactive(s: Session, keys: seq<int>)
    requires !s.Active()
    ensures Feed(s, keys) == s
    decreases |keys|
  {
    if keys != [] {
      FeedInactive(s.CheckInput(keys[0]), keys[1..]);
    }
  }

  /** While keystrokes have an effect, each one adds exactly one to
      cursor + mistakes, neither count goes down, and nothing else changes. */
  lemma {:induction false} FeedCounts(s: Session, keys: seq<int>)
    requires s.Active()
    ensures Feed(s, keys).currentPosition + Feed(s, keys).mistakes
            == s.currentPosition + s.mistakes + |keys|
    ensures Feed(s, keys).currentPosition >= s.currentPosition
    ensures Feed(s, keys).mistakes >= s.mistakes
    ensures Feed(s, keys).(currentPosition := s.currentPosition, mistakes := s.mistakes) == s
    decreases |keys|
  {
    if keys != [] {
      FeedCounts(s.CheckInput(keys[0]), keys[1..]);
    }
  }

  /** Nonzero keys (the only ones the driver passes on) never move the
      cursor past the terminator. */
  lemma {:induction false} FeedKeepsValid(s: Session, keys: seq<int>)
    requires s.Valid()
    requires forall i :: 0 <= i < |keys| ==> keys[i] != 0
    ensures Feed(s, keys).Valid()
    decreases |keys|
  {
    if keys != [] {
      var t := s.CheckInput(keys[0]);
      assert t.Valid() by {
        assert s.currentPosition == s.textLength ==> s.Expected() == 0;
      }
      FeedKeepsValid(t, keys[1..]);
    }
  }

  /** Typing the rest of the text exactly brings the cursor to the end with
      no new mistake, and the attempt is complete. */
  lemma {:induction false} TypeRestOfText(s: Session)
    requires s.Valid() && s.Active()
    ensures var r := Feed(s, Codes(s.text[s.currentPosition..s.textLength]));
            r.currentPosition == s.textLength && r.mistakes == s.mistakes &&
            r.IsComplete() && r.Valid() && r.Active()
    decreases s.textLength - s.currentPosition
  {
    var rest := s.text[s.currentPosition..s.textLength];
    if s.currentPosition < s.textLength {
      var keys := Codes(rest);
      assert keys[0] == s.text[s.currentPosition] as int == s.Expected();
      var t := s.CheckInput(keys[0]);
      assert t.currentPosition == s.currentPosition + 1;
      assert keys[1..] == Codes(t.text[t.currentPosition..t.textLength]);
      TypeRestOfText(t);
    } else {
      assert Codes(rest) == [];
    }
  }

  /** A whole attempt typed without error ends complete at 100% accuracy. */
  lemma PerfectAttempt(s: Session)
    requires s.Valid() && s.Active() && s.currentPosition == 0 && s.mistakes == 0
    ensures var r := Feed(s, Codes(s.text[..s.textLength]));
            r.currentPosition == s.textLength && r.IsComplete() && r.Accuracy() == 100.0
  {
    TypeRestOfText(s);
  }

  /** Once the cursor is at the end of the text, every further nonzero key
      is counted as a mistake: there is no terminal guard in checkInput. */
  lemma {:induction false} KeysAfterEnd(s: Session, keys: seq<int>)
    requires s.Valid() && s.Active() && s.currentPosition == s.textLength
    requires forall i :: 0 <= i < |keys| ==> keys[i] != 0
    ensures Feed(s, keys).currentPosition == s.textLength
    ensures Feed(s, keys).mistakes == s.mistakes + |keys|
    ensures Feed(s, keys).IsComplete()
    decreases |keys|
  {
    if keys != [] {
      var t := s.CheckInput(keys[0]);
      assert s.Expected() == 0;
      KeysAfterEnd(t, keys[1..]);
    }
  }

  /** A complete attempt makes no more progress: a nonzero key either is
      ignored (time up) or is a mistake (cursor at the end). */
  lemma CompleteMakesNoProgress(s: Session, key: int)
    requires s.Valid() && s.IsComplete() && key != 0
    ensures s.CheckInput(key).currentPosition == s.currentPosition
    ensures s.CheckInput(key).IsComplete()
  {
    assert !s.isTimeUp ==> s.Expected() == 0;
  }

  /** A correct key never lowers the accuracy. */
  lemma CorrectKeyNeverLowersAccuracy(s: Session)
    requires s.Active()
    ensures s.CheckInput(s.Expected()).Accuracy() >= s.Accuracy()
  {
    var t := s.CheckInput(s.Expected());
    if s.currentPosition + s.mistakes > 0 {
      var c, n := s.currentPosition as real, (s.currentPosition + s.mistakes) as real;
      assert t.currentPosition as real == c + 1.0;
      assert (t.currentPosition + t.mistakes) as real == n + 1.0;
      PercentUp(c, n);
    }
  }

  /** A mistake never raises the accuracy. */
  lemma MistakeNeverRaisesAccuracy(s: Session, key: int)
    requires key != s.Expected()
    ensures s.CheckInput(key).Accuracy() <= s.Accuracy()
  {
    var t := s.CheckInput(key);
    if s.Active() && s.currentPosition + s.mistakes > 0 {
      var c, n := s.currentPosition as real, (s.currentPosition + s.mistakes) as real;
      assert t.currentPosition as real == c;
      assert (t.currentPosition + t.mistakes) as real == n + 1.0;
      PercentDown(c, n);
    }
  }

  /** One more correct keystroke out of one more in all raises the percentage. */
  lemma PercentUp(c: real, n: real)
    requires 0.0 <= c <= n && n > 0.0
    ensures (c / n) * 100.0 <= ((c + 1.0) / (n + 1.0)) * 100.0
  {
    var x, y := c / n, (c + 1.0) / (n + 1.0);
    assert x * n == c;
    assert y * (n + 1.0) == c + 1.0;
    assert x <= 1.0;
    assert x * (n + 1.0) == c + x;
  }

  /** One more keystroke in all, none of them correct, lowers the percentage. */
  lemma PercentDown(c: real, n: real)
    requires 0.0 <= c <= n && n > 0.0
    ensures (c / (n + 1.0)) * 100.0 <= (c / n) * 100.0
  {
    var x, y := c / n, c / (n + 1.0);
    assert x * n == c;
    assert y * (n + 1.0) == c;
    assert x >= 0.0;
  }

  /** Every operation keeps the flag discipline, and the paragraph choice
      re-establishes it from any state. */
  lemma FlagsAgreePreserved(s: Session, now: real, key: int, index: nat)
    requires s.FlagsAgree()
    ensures s.StartTyping(now).FlagsAgree() && s.StartGame(now).FlagsAgree()
    ensures s.CheckInput(key).FlagsAgree() && s.UpdateTimer(now).FlagsAgree()
    ensures s.ToggleWordWrap().FlagsAgree()
    ensures index < |s.paragraphs| ==> s.SelectRandomParagraph(index).FlagsAgree()
  {
  }

  /** Every operation but the paragraph choice keeps the structural
      invariant (checkInput only for nonzero keys). */
  lemma ValidPreserved(s: Session, now: real, key: int)
    requires s.Valid() && key != 0
    ensures s.StartTyping(now).Valid() && s.StartGame(now).Valid()
    ensures s.CheckInput(key).Valid() && s.UpdateTimer(now).Valid()
    ensures s.ToggleWordWrap().Valid()
  {
    assert s.currentPosition == s.textLength ==> s.Expected() == 0;
  }

  /** Once the time is up, it stays up: pressing start again does not
      restart the clock, and only a new paragraph clears the flag. */
  lemma TimeUpSticky(s: Session, now: real, key: int)
    requires s.FlagsAgree() && s.isTimeUp
    ensures s.StartTyping(now) == s && s.StartGame(now) == s
    ensures s.CheckInput(key) == s && s.UpdateTimer(now) == s
    ensures s.ToggleWordWrap().isTimeUp
  {
  }

  /** The timer flag and the remaining time agree: while the clock runs,
      updateTimer leaves the flag set exactly when no time remains (or it
      was already set). */
  lemma TimerMatchesRemainingTime(s: Session, now: real)
    requires s.Running()
    ensures s.UpdateTimer(now).isTimeUp <==> s.isTimeUp || s.RemainingTime(now) == 0.0
  {
  }

  /** Finishing the text does not stop the clock: a completed attempt that
      is still running gets the time-up flag once 30 seconds have passed. */
  lemma ClockRunsAfterCompletion(s: Session, now: real)
    requires s.Valid() && s.Active() && s.currentPosition == s.textLength
    requires now - s.startTime >= TimeLimit
    ensures s.IsComplete() && s.UpdateTimer(now).isTimeUp
    ensures s.UpdateTimer(now).currentPosition == s.textLength
  {
  }

  /** The remaining time never goes up as the clock advances. */
  lemma RemainingTimeNonIncreasing(s: Session, t1: real, t2: real)
    requires t1 <= t2
    ensures s.RemainingTime(t2) <= s.RemainingTime(t1)
  {
  }

  /** Words per minute is characters per minute over five, and the two are
      infinite at the same instants. */
  lemma WpmIsFifthOfCpm(s: Session, now: real)
    ensures s.Wpm(now).Finite? <==> s.Cpm(now).Finite?
    ensures s.Wpm(now).Finite? ==> s.Wpm(now).value * 5.0 == s.Cpm(now).value
  {
    if s.Running() && now != s.startTime {
      var minutes := (now - s.startTime) / 60.0;
      var c := s.currentPosition as real;
      assert s.Cpm(now).value * minutes == c;
      assert s.Wpm(now).value * minutes == c / 5.0;
    }
  }

  /** Toggling word wrap twice restores the session. */
  lemma ToggleTwice(s: Session)
    ensures s.ToggleWordWrap().ToggleWordWrap() == s
  {
  }
}
