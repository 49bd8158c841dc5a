/** The stable-response poll of browser/response_capture.py.

    Everything the loop learns from the page is one `Poll` per turn; the deadline is the end
    of the sequence of polls. Two texts have the same SHA-256 exactly when they are equal. */
module ResponseCapture {
  import opened Basics

  /** What the interceptor of special page states did with the text it was given. */
  datatype Interception = Passed | Replaced(text: string) | Raised

  /** One turn: the extracted text (None when the probe failed or timed out), what the
      interceptor did, and the finished probe (None when it failed or timed out). */
  datatype Poll = Poll(extracted: Option<string>, interception: Interception, finished: Option<bool>)

  datatype Config = Config(stableSamples: int, baseline: Option<string>, endMarker: string)

  datatype Capture =
    | Text(text: string)
    | Unresponsive          // TAB_UNRESPONSIVE
    | InterceptorFailed     // an error of the interceptor propagates
    | TimedOut              // the deadline passed

  const MAX_UNRESPONSIVE_POLLS := 6

  function Sample(p: Poll): string {
    match p.interception
    case Replaced(text) => text
    case _ => if p.extracted.Some? then p.extracted.value else ""
  }

  predicate Healthy(p: Poll) {
    p.extracted.Some? && p.finished.Some?
  }

  /** Python's `part in text`. */
  predicate Contains(text: string, part: string) {
    part <= text || (text != "" && Contains(text[1..], part))
  }

  predicate Stale(config: Config, text: string) {
    config.baseline == Some(text)
  }

  /** The last `n` samples before position `end` all are `text`. */
  ghost predicate Held(polls: seq<Poll>, end: nat, n: nat, text: string)
    requires n <= end <= |polls|
  {
    forall i :: end - n <= i < end ==> Sample(polls[i]) == text
  }

  /** How many polls up to `end` failed in a row. */
  function Streak(polls: seq<Poll>, end: nat): (n: nat)
    requires end <= |polls|
    ensures n <= end
  {
    if end == 0 || Healthy(polls[end - 1]) then 0 else 1 + Streak(polls, end - 1)
  }

  /** The text whose hash the loop remembers after `end` turns: the latest that was not stale. */
  ghost function Remembered(polls: seq<Poll>, end: nat, config: Config): Option<string>
    requires end <= |polls|
  {
    if end == 0 then None
    else if Stale(config, Sample(polls[end - 1])) then Remembered(polls, end - 1, config)
    else Some(Sample(polls[end - 1]))
  }

  /** `text` has been stable for `n` samples: each of the last `n` samples is `text`, and so
      was the latest sample before them that was not stale. */
  ghost predicate Steady(polls: seq<Poll>, end: nat, n: int, text: string, config: Config)
    requires end <= |polls|
  {
    n <= 0 || (n <= end && text != "" && !Stale(config, text) && Held(polls, end, n, text)
               && Remembered(polls, end - n, config) == Some(text))
  }

  /** The sample of turn `i` may be returned: it is not the previous turn's text, it has been
      stable long enough, and the page says it is done or the end marker is in it. */
  ghost predicate Acceptable(polls: seq<Poll>, i: nat, config: Config)
    requires i < |polls|
  {
    var text := Sample(polls[i]);
    && !Stale(config, text)
    && (polls[i].finished == Some(true) || (config.endMarker != "" && Contains(text, config.endMarker)))
    && Steady(polls, i + 1, config.stableSamples, text, config)
  }

  /** Turn `i` ends the wait: the interceptor raised, the page has been mute for too long, or
      its sample may be returned. */
  ghost predicate Ends(polls: seq<Poll>, i: nat, config: Config)
    requires i < |polls|
  {
    || polls[i].interception.Raised?
    || Streak(polls, i + 1) >= 6
    || Acceptable(polls, i, config)
  }

  /** Nothing in the first `n` turns ends the wait. */
  ghost predicate Quiet(polls: seq<Poll>, n: nat, config: Config)
    requires n <= |polls|
  {
    forall i :: 0 <= i < n ==> !Ends(polls, i, config)
  }

  /** The wait ended at turn `turn`, the first turn that ends it, with result `r`. */
  ghost predicate EndedAt(polls: seq<Poll>, config: Config, turn: nat, r: Capture) {
    && turn <= |polls| && Quiet(polls, turn, config)
    && match r
       case TimedOut => turn == |polls|
       case InterceptorFailed => turn < |polls| && polls[turn].interception.Raised?
       case Unresponsive =>
         && turn < |polls| && !polls[turn].interception.Raised?
         && Streak(polls, turn + 1) == 6
       case Text(text) =>
         && turn < |polls| && !polls[turn].interception.Raised?
         && Streak(polls, turn + 1) < 6
         && Acceptable(polls, turn, config) && text == Sample(polls[turn])
  }

  /** What a turn shows is what the interceptor made of it, or else what was extracted, or
      nothing. */
  predicate Shows(p: Poll, text: string) {
    match p.interception
    case Replaced(other) => text == other
    case Passed => text == if p.extracted.Some? then p.extracted.value else ""
    case Raised => false
  }

  /** In this turn and the five before it the text or the finished probe failed. */
  predicate MuteUpTo(polls: seq<Poll>, turn: nat)
    requires 5 <= turn < |polls|
  {
    forall i :: turn - 5 <= i <= turn ==> polls[i].extracted.None? || polls[i].finished.None?
  }

  lemma MuteFrom(polls: seq<Poll>, turn: nat)
    requires turn < |polls| && Streak(polls, turn + 1) == 6
    ensures 5 <= turn && MuteUpTo(polls, turn)
  {
    StreakCovers(polls, turn - 5, 6);
  }

  predicate OccursAt(text: string, part: string, i: nat) {
    i + |part| <= |text| && text[i..i + |part|] == part
  }

  /** Python's `part in text`. */
  lemma {:induction false} ContainsIff(text: string, part: string)
    ensures Contains(text, part) <==> exists i: nat :: OccursAt(text, part, i)
    decreases |text|
  {
    if part <= text {
      assert OccursAt(text, part, 0);
    } else if text != "" {
      ContainsIff(text[1..], part);
      if Contains(text[1..], part) {
        var i: nat :| OccursAt(text[1..], part, i);
        assert text[1..][i..i + |part|] == text[i + 1..i + 1 + |part|];
        assert OccursAt(text, part, i + 1);
      }
      forall i: nat | OccursAt(text, part, i) ensures i > 0 && OccursAt(text[1..], part, i - 1) {
        assert i > 0 ==> text[1..][i - 1..i - 1 + |part|] == text[i..i + |part|];
      }
    }
  }

  /** wait_for_stable_response. */
  method WaitForStableResponse(polls: seq<Poll>, config: Config) returns (r: Capture)
    ensures exists turn :: EndedAt(polls, config, turn, r)
    ensures r.Text? ==> exists turn :: 0 <= turn < |polls| && Shows(polls[turn], r.text)
    ensures r.Unresponsive? ==> exists turn :: 5 <= turn < |polls| && MuteUpTo(polls, turn)
  {
    var previous: Option<string> := None;
    var stableCount, streak := 0, 0;
    for i := 0 to |polls|
      invariant Quiet(polls, i, config)
      invariant previous == Remembered(polls, i, config)
      invariant 0 <= stableCount && Counts(polls, i, stableCount, config)
      invariant streak == Streak(polls, i) < MAX_UNRESPONSIVE_POLLS
    {
      var p := polls[i];
      if p.interception.Raised? {
        assert EndedAt(polls, config, i, InterceptorFailed);
        return InterceptorFailed;
      }
      var text := Sample(p);
      var stale := Stale(config, text);
      ghost var before := stableCount;
      if stale {
        stableCount := 0;
      } else if previous == Some(text) && text != "" {
        stableCount := stableCount + 1;
      } else {
        stableCount := 0;
        previous := Some(text);
      }
      CountsNext(polls, i, before, stableCount, config);
      assert Remembered(polls, i + 1, config) == if stale then Remembered(polls, i, config) else Some(text);
      if Healthy(p) {
        streak := 0;
      } else {
        streak := streak + 1;
        if streak >= MAX_UNRESPONSIVE_POLLS {
          assert EndedAt(polls, config, i, Unresponsive);
          MuteFrom(polls, i);
          return Unresponsive;
        }
      }
      AcceptableByCount(polls, i, stableCount, config);
      if !stale && p.finished == Some(true) && stableCount >= config.stableSamples {
        assert EndedAt(polls, config, i, Text(text)) && Shows(p, text);
        return Text(text);
      }
      if !stale && config.endMarker != "" && Contains(text, config.endMarker) && stableCount >= config.stableSamples {
        assert EndedAt(polls, config, i, Text(text)) && Shows(p, text);
        return Text(text);
      }
    }
    assert EndedAt(polls, config, |polls|, TimedOut);
    r := TimedOut;
  }

  lemma AcceptableByCount(polls: seq<Poll>, i: nat, count: int, config: Config)
    requires i < |polls| && 0 <= count && Counts(polls, i + 1, count, config)
    ensures var text := Sample(polls[i]);
      Acceptable(polls, i, config) <==>
        && !Stale(config, text) && config.stableSamples <= count
        && (polls[i].finished == Some(true) || (config.endMarker != "" && Contains(text, config.endMarker)))
  {
    assert config.stableSamples >= 1 ==> CountAt(polls, i + 1, config.stableSamples, count, config);
  }

  /** The counter of the loop reaches `n` exactly when the latest sample is steady for `n`. */
  ghost predicate Counts(polls: seq<Poll>, end: nat, count: int, config: Config)
    requires end <= |polls|
  {
    if end == 0 then count == 0 else forall n :: 1 <= n ==> CountAt(polls, end, n, count, config)
  }

  ghost predicate CountAt(polls: seq<Poll>, end: nat, n: int, count: int, config: Config)
    requires 0 < end <= |polls|
  {
    n <= count <==> Steady(polls, end, n, Sample(polls[end - 1]), config)
  }

  lemma CountsNext(polls: seq<Poll>, i: nat, before: int, after: int, config: Config)
    requires i < |polls| && 0 <= before && Counts(polls, i, before, config)
    requires after == NextCount(polls, i, before, config)
    ensures Counts(polls, i + 1, after, config)
  {
    var end := i + 1;
    forall n | 1 <= n
      ensures CountAt(polls, end, n, after, config)
    {
      CountsNextAt(polls, i, before, n, config);
    }
  }

  ghost function NextCount(polls: seq<Poll>, i: nat, before: int, config: Config): int
    requires i < |polls|
  {
    var text := Sample(polls[i]);
    if !Stale(config, text) && Remembered(polls, i, config) == Some(text) && text != "" then before + 1 else 0
  }

  lemma CountsNextAt(polls: seq<Poll>, i: nat, before: int, n: int, config: Config)
    requires i < |polls| && 0 <= before && Counts(polls, i, before, config) && 1 <= n
    ensures CountAt(polls, i + 1, n, NextCount(polls, i, before, config), config)
  {
    var text := Sample(polls[i]);
    if n == 1 {
      assert Held(polls, i + 1, 1, text);
    } else if i > 0 {
      assert CountAt(polls, i, n - 1, before, config);
      if n <= i + 1 {
        assert Held(polls, i + 1, n, text) <==> Held(polls, i, n - 1, text) && Sample(polls[i]) == text;
      }
    }
  }

  /** What a caller may rely on when a text is returned: for a positive number of samples it
      is not empty, it is not the baseline, each of the last `stableSamples` samples equals it
      and so does one earlier sample, and the page had finished or the marker was in it. */
  lemma AcceptedTextIsStable(polls: seq<Poll>, i: nat, config: Config)
    requires i < |polls| && Acceptable(polls, i, config) && config.stableSamples >= 1
    ensures var text := Sample(polls[i]);
      && text != "" && config.baseline != Some(text)
      && config.stableSamples <= i && Held(polls, i + 1, config.stableSamples, text)
      && (exists j :: 0 <= j <= i - config.stableSamples && Sample(polls[j]) == text)
      && (polls[i].finished == Some(true) || (config.endMarker != "" && Contains(text, config.endMarker)))
  {
    var j := RememberedWasSeen(polls, i + 1 - config.stableSamples, config);
  }

  lemma {:induction false} RememberedWasSeen(polls: seq<Poll>, end: nat, config: Config) returns (j: nat)
    requires end <= |polls| && Remembered(polls, end, config).Some?
    ensures j < end && Sample(polls[j]) == Remembered(polls, end, config).value
  {
    if Stale(config, Sample(polls[end - 1])) {
      j := RememberedWasSeen(polls, end - 1, config);
    } else {
      j := end - 1;
    }
  }

  /** Some wait with this configuration ends with an empty text. */
  ghost predicate ReturnsEmpty(config: Config) {
    exists polls, turn :: EndedAt(polls, config, turn, Text(""))
  }

  /** When a wait can return an empty text: exactly when no sample is asked for and the empty
      text is not the baseline, in which case it is always stale. */
  lemma EmptyTextIff(config: Config)
    ensures ReturnsEmpty(config) <==> config.stableSamples <= 0 && config.baseline != Some("")
  {
    if config.stableSamples <= 0 && config.baseline != Some("") {
      var polls := [Poll(Some(""), Passed, Some(true))];
      assert Streak(polls, 1) == 0;
      assert EndedAt(polls, config, 0, Text(""));
    }
    if polls, turn :| EndedAt(polls, config, turn, Text("")) {
      if config.stableSamples >= 1 {
        AcceptedTextIsStable(polls, turn, config);
      }
    }
  }

  /** The polls and the configuration decide the result. */
  lemma ResultIsDetermined(polls: seq<Poll>, config: Config, i: nat, a: Capture, j: nat, b: Capture)
    requires EndedAt(polls, config, i, a) && EndedAt(polls, config, j, b)
    ensures i == j && a == b
  {
    assert i < j ==> Ends(polls, i, config);
    assert j < i ==> Ends(polls, j, config);
  }

  /** Six failed polls in a row raise: the wait has ended by the sixth, and if it ends there it
      is not with a text. */
  lemma SixFailuresRaise(polls: seq<Poll>, config: Config, j: nat, turn: nat, r: Capture)
    requires j + 6 <= |polls|
    requires forall k :: j <= k < j + 6 ==> !Healthy(polls[k])
    requires EndedAt(polls, config, turn, r)
    ensures turn < j + 6
    ensures turn == j + 6 - 1 ==> r.Unresponsive? || r.InterceptorFailed?
  {
    StreakCovers(polls, j, 6);
    assert Ends(polls, j + 6 - 1, config);
  }

  /** The streak is the number of failed polls in a row, no more and no fewer. */
  lemma {:induction false} StreakCovers(polls: seq<Poll>, j: nat, n: nat)
    requires j + n <= |polls|
    ensures (forall k :: j <= k < j + n ==> !Healthy(polls[k])) <==> Streak(polls, j + n) >= n
  {
    if n > 0 {
      StreakCovers(polls, j, n - 1);
    }
  }
}
