/**
 * What "slow conversion" measures. The timer of a monitored job is carried from one evaluation to the
 * next; over any run of evaluations it is told here from the words the messages contained, and when.
 */
module ConversionTimer {
  import opened Options
  import opened PrintConstants
  import opened Strings
  import opened Substate
  import opened JobMonitor
  import opened JobMonitorTheorems

  // ---------------------------------------------------------------------------------------
  // Runs of evaluations
  // ---------------------------------------------------------------------------------------

  /** One evaluation: what the reads of the flags gave, and what the outside world answered. */
  datatype Visit = Visit(canceledFirst: bool, interrupted: bool, canceledLater: bool, cancelOk: bool, poll: Poll)

  predicate ValidVisits(vs: seq<Visit>) {
    forall v | v in vs :: ValidPoll(v.poll)
  }

  /** The monitored job after an evaluation. */
  function VisitedOnce(m: Monitor, v: Visit): (r: Monitor)
    requires WellFormed(m) && ValidPoll(v.poll)
    ensures WellFormed(r)
  {
    QueryIsDisciplined(m.(isCanceled := v.canceledLater), v.poll);
    Evaluate(m, v.canceledFirst, v.interrupted, v.canceledLater, v.cancelOk, v.poll).m
  }

  /** The monitored job after a run of evaluations. */
  function Visited(m: Monitor, vs: seq<Visit>): (r: Monitor)
    requires WellFormed(m) && ValidVisits(vs)
    ensures WellFormed(r)
  {
    if vs == [] then m else VisitedOnce(Visited(m, vs[..|vs| - 1]), vs[|vs| - 1])
  }

  /** The evaluation gets as far as the two parsers. */
  predicate Parses(m: Monitor, v: Visit) {
    m.hasService && (v.canceledFirst ==> v.cancelOk) && !v.interrupted && IsHandled(m, v.poll)
  }

  /** The job as the parsers of such an evaluation find it. */
  function ParsedIn(m: Monitor, v: Visit): (r: Monitor)
    requires WellFormed(m) && Parses(m, v)
    ensures WellFormed(r)
  {
    Updated(m.(isCanceled := v.canceledLater), v.poll.response.value)
  }

  // ---------------------------------------------------------------------------------------
  // What the messages contained
  // ---------------------------------------------------------------------------------------

  /** A table word found in a message, with the clock readings made for it. */
  datatype Match = Match(code: Code, clock: Clock)

  predicate IsConversion(c: Code) {
    c == PRINT_JOB_RUNNING_UPLOADING_FILES || c == PRINT_JOB_RUNNING_CONVERTING_FILES
  }

  /** The first n table words, as far as the message contains them. */
  function Found(message: string, clocks: seq<Clock>, n: nat): seq<Match>
    requires n <= |MESSAGE_LIST| == |clocks|
  {
    if n == 0 then []
    else
      Found(message, clocks, n - 1) +
      if Contains(message, MESSAGE_LIST[n - 1].word) then [Match(MESSAGE_LIST[n - 1].code, clocks[n - 1])] else []
  }

  function FoundIn(v: Visit): seq<Match>
    requires ValidPoll(v.poll) && v.poll.response.Some?
  {
    Found(Received(v.poll.response.value).message, v.poll.clocks, |MESSAGE_LIST|)
  }

  /** All words found over a run, in the order they were found: only messages that were parsed count. */
  function History(m: Monitor, vs: seq<Visit>): seq<Match>
    requires WellFormed(m) && ValidVisits(vs)
  {
    if vs == [] then []
    else
      var front, v := vs[..|vs| - 1], vs[|vs| - 1];
      History(m, front) + if Parses(Visited(m, front), v) then FoundIn(v) else []
  }

  /** The end of the part of a history up to its last word that is not a conversion: such a word resets the timer. */
  function LastReset(ms: seq<Match>): (r: nat)
    ensures r <= |ms|
    ensures r > 0 ==> !IsConversion(ms[r - 1].code)
    ensures forall k | r <= k < |ms| :: IsConversion(ms[k].code)
  {
    if ms == [] || !IsConversion(ms[|ms| - 1].code) then |ms| else LastReset(ms[..|ms| - 1])
  }

  /** The earliest match from r on that read a clock that is not at zero. */
  function FirstStarted(ms: seq<Match>, r: nat): (k: nat)
    requires r <= |ms|
    ensures r <= k <= |ms|
    ensures k < |ms| ==> ms[k].clock.start != 0
    ensures forall i | r <= i < k :: ms[i].clock.start == 0
    decreases |ms| - r
  {
    if r == |ms| || ms[r].clock.start != 0 then r else FirstStarted(ms, r + 1)
  }

  /** The timer that is due after a history: that of the first conversion since the last reset. */
  function TimerOf(initial: nat, ms: seq<Match>): nat {
    var r := LastReset(ms);
    if r == 0 && initial != 0 then initial
    else
      var k := FirstStarted(ms, r);
      if k < |ms| then ms[k].clock.start else 0
  }

  lemma LastResetStep(ms: seq<Match>, x: Match)
    ensures LastReset(ms + [x]) == if IsConversion(x.code) then LastReset(ms) else |ms| + 1
  {
    assert (ms + [x])[..|ms|] == ms;
  }

  lemma FirstStartedStep(ms: seq<Match>, x: Match, r: nat)
    requires r <= |ms|
    ensures FirstStarted(ms + [x], r) ==
            var k := FirstStarted(ms, r);
            if k < |ms| || x.clock.start != 0 then k else k + 1
  {
    var k, k' := FirstStarted(ms, r), FirstStarted(ms + [x], r);
    assert forall i | 0 <= i < |ms| :: (ms + [x])[i] == ms[i];
    assert (ms + [x])[|ms|] == x;
    assert k' < k ==> k' < |ms|;
  }

  /** One more word: a conversion starts the timer unless it runs, any other word stops it. */
  lemma TimerStep(initial: nat, ms: seq<Match>, x: Match)
    ensures TimerOf(initial, ms + [x]) ==
            if !IsConversion(x.code) then 0
            else if TimerOf(initial, ms) == 0 then x.clock.start else TimerOf(initial, ms)
  {
    LastResetStep(ms, x);
    FirstStartedStep(ms, x, LastReset(ms));
  }

  // ---------------------------------------------------------------------------------------
  // One message
  // ---------------------------------------------------------------------------------------

  /** Is the code for slow conversion due for a match that follows a history? */
  predicate IsSlow(initial: nat, past: seq<Match>, x: Match) {
    IsConversion(x.code) && Elapsed(x.clock.check, TimerOf(initial, past + [x])) >= 5000
  }

  lemma ItemStep(s: Scan, initial: nat, ms: seq<Match>, x: Match)
    requires s.startTime == TimerOf(initial, ms)
    ensures MessageItem(s, x.code, x.clock).startTime == TimerOf(initial, ms + [x])
    ensures MessageItem(s, x.code, x.clock).codes ==
            s.codes + [x.code] + if IsSlow(initial, ms, x) then [PRINT_JOB_RUNNING_SLOW_FILE_CONVERSION] else []
  {
    TimerStep(initial, ms, x);
  }

  lemma {:induction false} ScanTimer(m: Monitor, clocks: seq<Clock>, n: nat, initial: nat, past: seq<Match>)
    requires n <= |MESSAGE_LIST| == |clocks|
    requires m.uploadingFilesStartTime == TimerOf(initial, past)
    ensures MessageScan(m, clocks, n).startTime == TimerOf(initial, past + Found(m.message, clocks, n))
  {
    if n == 0 {
      assert past + Found(m.message, clocks, n) == past;
    } else {
      ScanTimer(m, clocks, n - 1, initial, past);
      var before, e := Found(m.message, clocks, n - 1), MESSAGE_LIST[n - 1];
      if Contains(m.message, e.word) {
        ItemStep(MessageScan(m, clocks, n - 1), initial, past + before, Match(e.code, clocks[n - 1]));
        assert past + Found(m.message, clocks, n) == (past + before) + [Match(e.code, clocks[n - 1])];
      } else {
        assert Found(m.message, clocks, n) == before;
      }
    }
  }

  /** The codes a message is told in: that of each word found, each slow conversion followed by its own code. */
  function Told(initial: nat, past: seq<Match>, found: seq<Match>): seq<Code> {
    if found == [] then []
    else
      var front, x := found[..|found| - 1], found[|found| - 1];
      Told(initial, past, front) + [x.code] +
      if IsSlow(initial, past + front, x) then [PRINT_JOB_RUNNING_SLOW_FILE_CONVERSION] else []
  }

  lemma {:induction false} ToldStep(initial: nat, past: seq<Match>, found: seq<Match>, x: Match)
    ensures Told(initial, past, found + [x]) ==
            Told(initial, past, found) + [x.code] +
            if IsSlow(initial, past + found, x) then [PRINT_JOB_RUNNING_SLOW_FILE_CONVERSION] else []
  {
    assert (found + [x])[..|found|] == found;
  }

  lemma {:induction false} ScanTells(m: Monitor, clocks: seq<Clock>, n: nat, initial: nat, past: seq<Match>)
    requires n <= |MESSAGE_LIST| == |clocks|
    requires m.uploadingFilesStartTime == TimerOf(initial, past)
    ensures MessageScan(m, clocks, n).codes == Told(initial, past, Found(m.message, clocks, n))
  {
    if n == 0 {
    } else {
      ScanTells(m, clocks, n - 1, initial, past);
      var before, e := Found(m.message, clocks, n - 1), MESSAGE_LIST[n - 1];
      if Contains(m.message, e.word) {
        var x := Match(e.code, clocks[n - 1]);
        ScanTimer(m, clocks, n - 1, initial, past);
        ItemStep(MessageScan(m, clocks, n - 1), initial, past + before, x);
        ToldStep(initial, past, before, x);
        assert Found(m.message, clocks, n) == before + [x];
      } else {
        assert Found(m.message, clocks, n) == before;
      }
    }
  }

  /** The code for slow conversion stands for its own word, or for a conversion that has gone on for too long. */
  predicate SaysSlow(initial: nat, past: seq<Match>, found: seq<Match>, k: nat)
    requires k < |found|
  {
    found[k].code == PRINT_JOB_RUNNING_SLOW_FILE_CONVERSION || IsSlow(initial, past + found[..k], found[k])
  }

  lemma {:induction false} SaysSlowInPrefix(initial: nat, past: seq<Match>, found: seq<Match>, x: Match)
    ensures (exists k: nat | k < |found + [x]| :: SaysSlow(initial, past, found + [x], k)) <==>
            (exists k: nat | k < |found| :: SaysSlow(initial, past, found, k)) ||
            x.code == PRINT_JOB_RUNNING_SLOW_FILE_CONVERSION || IsSlow(initial, past + found, x)
  {
    var all := found + [x];
    forall k: nat | k < |found|
      ensures SaysSlow(initial, past, all, k) <==> SaysSlow(initial, past, found, k)
    {
      assert all[..k] == found[..k];
    }
    assert all[..|found|] == found;
    if x.code == PRINT_JOB_RUNNING_SLOW_FILE_CONVERSION || IsSlow(initial, past + found, x) {
      assert SaysSlow(initial, past, all, |found|);
    }
  }

  lemma {:induction false} ItemSaysSlow(s: Scan, initial: nat, past: seq<Match>, found: seq<Match>, x: Match)
    requires s.startTime == TimerOf(initial, past + found)
    requires PRINT_JOB_RUNNING_SLOW_FILE_CONVERSION in s.codes <==>
             exists k: nat | k < |found| :: SaysSlow(initial, past, found, k)
    ensures PRINT_JOB_RUNNING_SLOW_FILE_CONVERSION in MessageItem(s, x.code, x.clock).codes <==>
            exists k: nat | k < |found + [x]| :: SaysSlow(initial, past, found + [x], k)
  {
    ItemStep(s, initial, past + found, x);
    SaysSlowInPrefix(initial, past, found, x);
  }

  lemma {:induction false} ScanSaysSlow(m: Monitor, clocks: seq<Clock>, n: nat, initial: nat, past: seq<Match>)
    requires n <= |MESSAGE_LIST| == |clocks|
    requires m.uploadingFilesStartTime == TimerOf(initial, past)
    ensures
      var found := Found(m.message, clocks, n);
      PRINT_JOB_RUNNING_SLOW_FILE_CONVERSION in MessageScan(m, clocks, n).codes <==>
      exists k: nat | k < |found| :: SaysSlow(initial, past, found, k)
  {
    if n == 0 {
    } else {
      ScanSaysSlow(m, clocks, n - 1, initial, past);
      var before, e := Found(m.message, clocks, n - 1), MESSAGE_LIST[n - 1];
      if Contains(m.message, e.word) {
        var x := Match(e.code, clocks[n - 1]);
        ScanTimer(m, clocks, n - 1, initial, past);
        ItemSaysSlow(MessageScan(m, clocks, n - 1), initial, past, before, x);
        assert Found(m.message, clocks, n) == before + [x];
      } else {
        assert Found(m.message, clocks, n) == before;
      }
    }
  }

  // ---------------------------------------------------------------------------------------
  // Any run
  // ---------------------------------------------------------------------------------------

  /** What the message parser finds is the message of the response and the timer the job came with. */
  lemma Heard(m: Monitor, v: Visit)
    requires WellFormed(m) && Parses(m, v)
    ensures
      var u := ReasonsParsed(ParsedIn(m, v));
      u.message == Received(v.poll.response.value).message && u.uploadingFilesStartTime == m.uploadingFilesStartTime
  {
    assert Stored(ParsedIn(m, v)) == Received(v.poll.response.value);
  }

  lemma QueryTimer(m: Monitor, poll: Poll)
    requires WellFormed(m) && ValidPoll(poll)
    requires IsHandled(m, poll)
    ensures WellFormed(Updated(m, poll.response.value))
    ensures Query(m, poll).m == MessageParsed(ReasonsParsed(Updated(m, poll.response.value)), poll.clocks)
  {
    var u := Updated(m, poll.response.value);
    QueryCases(m, poll, u);
    CallbackIsDisciplined(MessageParsed(ReasonsParsed(u), poll.clocks), poll.stopped);
  }

  lemma QueryWithoutTimer(m: Monitor, poll: Poll)
    requires WellFormed(m) && ValidPoll(poll) && !IsHandled(m, poll)
    ensures Query(m, poll).m.uploadingFilesStartTime == m.uploadingFilesStartTime
  {
  }

  /** An evaluation that does not parse leaves the timer alone; one that does parses this message. */
  lemma VisitTimer(m: Monitor, v: Visit)
    requires WellFormed(m) && ValidPoll(v.poll)
    ensures VisitedOnce(m, v).uploadingFilesStartTime ==
            if Parses(m, v)
            then MessageScan(ReasonsParsed(ParsedIn(m, v)), v.poll.clocks, |MESSAGE_LIST|).startTime
            else m.uploadingFilesStartTime
  {
    var m' := m.(isCanceled := v.canceledLater);
    if IsHandled(m', v.poll) {
      QueryTimer(m', v.poll);
    } else {
      QueryWithoutTimer(m', v.poll);
    }
  }

  /**
   * After any run of evaluations the timer holds the clock reading of the first conversion or upload found
   * since the last word that resets it, no matter how many evaluations, and what other messages, lie between.
   */
  lemma {:induction false} TimerIsOfFirstConversion(m: Monitor, vs: seq<Visit>)
    requires WellFormed(m) && ValidVisits(vs)
    ensures Visited(m, vs).uploadingFilesStartTime == TimerOf(m.uploadingFilesStartTime, History(m, vs))
  {
    if vs == [] {
    } else {
      var front, v := vs[..|vs| - 1], vs[|vs| - 1];
      TimerIsOfFirstConversion(m, front);
      var before := Visited(m, front);
      VisitTimer(before, v);
      if Parses(before, v) {
        Heard(before, v);
        var initial, past := m.uploadingFilesStartTime, History(m, front);
        ScanTimer(ReasonsParsed(ParsedIn(before, v)), v.poll.clocks, |MESSAGE_LIST|, initial, past);
      } else {
        assert History(m, vs) == History(m, front);
      }
    }
  }

  /** After any run, the codes a message adds are exactly those it is told in, against that timer. */
  lemma {:induction false} MessageIsTold(m: Monitor, vs: seq<Visit>, v: Visit)
    requires WellFormed(m) && ValidVisits(vs) && ValidPoll(v.poll) && Parses(Visited(m, vs), v)
    ensures
      var u := ParsedIn(Visited(m, vs), v);
      MessageScan(ReasonsParsed(u), v.poll.clocks, |MESSAGE_LIST|).codes ==
      Told(m.uploadingFilesStartTime, History(m, vs), FoundIn(v))
  {
    TimerIsOfFirstConversion(m, vs);
    Heard(Visited(m, vs), v);
    var u := ReasonsParsed(ParsedIn(Visited(m, vs), v));
    ScanTells(u, v.poll.clocks, |MESSAGE_LIST|, m.uploadingFilesStartTime, History(m, vs));
  }

  predicate SpellsFound(found: seq<Match>, clocks: seq<Clock>, hits: seq<nat>)
    requires |clocks| == |MESSAGE_LIST|
  {
    |found| == |hits| && forall p | 0 <= p < |hits| ::
      hits[p] < |MESSAGE_LIST| && found[p] == Match(MESSAGE_LIST[hits[p]].code, clocks[hits[p]])
  }

  lemma SpellsFoundStep(found: seq<Match>, clocks: seq<Clock>, hits: seq<nat>, n: nat)
    requires n < |MESSAGE_LIST| == |clocks| && SpellsFound(found, clocks, hits)
    ensures SpellsFound(found + [Match(MESSAGE_LIST[n].code, clocks[n])], clocks, hits + [n])
  {
  }

  lemma FoundStep(message: string, clocks: seq<Clock>, n: nat)
    requires n < |MESSAGE_LIST| == |clocks|
    ensures Found(message, clocks, n + 1) ==
            if Occurs(message, MESSAGE_LIST, n)
            then Found(message, clocks, n) + [Match(MESSAGE_LIST[n].code, clocks[n])] else Found(message, clocks, n)
  {
  }

  /** The words found are those the message contains, each once, in table order, with their own clock readings. */
  lemma {:induction false} FoundAre(message: string, clocks: seq<Clock>, n: nat) returns (hits: seq<nat>)
    requires n <= |MESSAGE_LIST| == |clocks|
    ensures AreHits(message, MESSAGE_LIST, n, hits) && SpellsFound(Found(message, clocks, n), clocks, hits)
  {
    if n == 0 {
      hits := [];
    } else {
      var before := FoundAre(message, clocks, n - 1);
      hits := OneMoreFound(message, clocks, n - 1, before);
    }
  }

  lemma {:induction false} OneMoreFound(message: string, clocks: seq<Clock>, n: nat, before: seq<nat>)
    returns (hits: seq<nat>)
    requires n < |MESSAGE_LIST| == |clocks| && AreHits(message, MESSAGE_LIST, n, before)
    requires SpellsFound(Found(message, clocks, n), clocks, before)
    ensures AreHits(message, MESSAGE_LIST, n + 1, hits)
    ensures SpellsFound(Found(message, clocks, n + 1), clocks, hits)
  {
    HitsStep(message, MESSAGE_LIST, n, before);
    FoundStep(message, clocks, n);
    if Occurs(message, MESSAGE_LIST, n) {
      SpellsFoundStep(Found(message, clocks, n), clocks, before, n);
      hits := before + [n];
    } else {
      hits := before;
    }
  }

  /**
   * "Slow conversion" does not measure the current conversion. After any run it is appended exactly when its
   * own word is found, or a conversion or upload is found five seconds or more after the first one since the
   * last reset, counting the words found before it in the same message.
   */
  lemma {:induction false} SlowConversionIsTimedFromFirst(m: Monitor, vs: seq<Visit>, v: Visit)
    requires WellFormed(m) && ValidVisits(vs) && ValidPoll(v.poll) && Parses(Visited(m, vs), v)
    ensures
      var u, found := ParsedIn(Visited(m, vs), v), FoundIn(v);
      PRINT_JOB_RUNNING_SLOW_FILE_CONVERSION in MessageScan(ReasonsParsed(u), v.poll.clocks, |MESSAGE_LIST|).codes <==>
      exists k: nat | k < |found| :: SaysSlow(m.uploadingFilesStartTime, History(m, vs), found, k)
  {
    TimerIsOfFirstConversion(m, vs);
    Heard(Visited(m, vs), v);
    var u := ReasonsParsed(ParsedIn(Visited(m, vs), v));
    ScanSaysSlow(u, v.poll.clocks, |MESSAGE_LIST|, m.uploadingFilesStartTime, History(m, vs));
    assert Found(u.message, v.poll.clocks, |MESSAGE_LIST|) == FoundIn(v);
  }

  // ---------------------------------------------------------------------------------------
  // A conversion that is slow when it starts
  // ---------------------------------------------------------------------------------------

  lemma {:induction false} ContainedCharacter(text: string, word: string, c: char)
    requires c in word && Contains(text, word)
    ensures c in text
  {
    var i :| 0 <= i <= |text| && OccursAt(text, word, i);
    var k :| 0 <= k < |word| && word[k] == c;
    assert text[i..i + |word|][k] == text[i + k];
  }

  lemma {:induction false} WithoutCharacter(text: string, word: string, c: char)
    requires c in word && c !in text
    ensures !Contains(text, word)
  {
    if Contains(text, word) {
      ContainedCharacter(text, word, c);
    }
  }

  const CONVERTING_FILES := "converting-files"

  lemma CharactersOfConverting()
    ensures 'a' !in CONVERTING_FILES && 'p' !in CONVERTING_FILES
    ensures 'u' !in CONVERTING_FILES && 'w' !in CONVERTING_FILES
  {
  }

  lemma {:induction false} NoMessageError()
    ensures !HasMessageError(CONVERTING_FILES)
  {
    CharactersOfConverting();
    assert "file-parsing-error"[5] == 'p' && "large-file-error"[1] == 'a' && "port-error"[0] == 'p';
    WithoutCharacter(CONVERTING_FILES, "file-parsing-error", 'p');
    WithoutCharacter(CONVERTING_FILES, "large-file-error", 'a');
    WithoutCharacter(CONVERTING_FILES, "port-error", 'p');
  }

  lemma {:induction false} OnlyConvertingContained()
    ensures Contains(CONVERTING_FILES, "converting-files")
    ensures !Contains(CONVERTING_FILES, "slow-file-conversion") && !Contains(CONVERTING_FILES, "uploading-files")
  {
    CharactersOfConverting();
    assert OccursAt(CONVERTING_FILES, "converting-files", 0);
    assert "slow-file-conversion"[3] == 'w' && "uploading-files"[0] == 'u';
    WithoutCharacter(CONVERTING_FILES, "slow-file-conversion", 'w');
    WithoutCharacter(CONVERTING_FILES, "uploading-files", 'u');
  }

  lemma {:induction false} ConvertingIsFound(clocks: seq<Clock>, n: nat)
    requires |clocks| == |MESSAGE_LIST| && 0 < n <= |MESSAGE_LIST|
    ensures Found(CONVERTING_FILES, clocks, n) == [Match(PRINT_JOB_RUNNING_CONVERTING_FILES, clocks[0])]
  {
    NoMessageError();
    OnlyConvertingContained();
    if n == 1 {
    } else {
      ConvertingIsFound(clocks, n - 1);
    }
  }

  lemma NothingIsFound(clocks: seq<Clock>, n: nat)
    requires |clocks| == |MESSAGE_LIST| && n <= |MESSAGE_LIST|
    ensures Found("", clocks, n) == []
  {
  }

  /** An undisturbed evaluation of a job that is being processed. */
  function Undisturbed(message: string, clocks: seq<Clock>): Visit {
    Visit(false, false, false, true,
          Poll(true, true, Some(Response(Some(IPP_JOB_PROCESSING), None, None, Some(message))), clocks))
  }

  lemma UndisturbedParses(m: Monitor, message: string, clocks: seq<Clock>)
    requires WellFormed(m) && |clocks| == |MESSAGE_LIST| && |message| < 1024
    requires m.hasService && !m.isFirstQueryState && m.message != message
    ensures
      var v := Undisturbed(message, clocks);
      var m' := VisitedOnce(m, v);
      && Parses(m, v) && FoundIn(v) == Found(message, clocks, |MESSAGE_LIST|)
      && m'.hasService && !m'.isFirstQueryState && m'.message == message
  {
    var v := Undisturbed(message, clocks);
    QueryCases(m.(isCanceled := false), v.poll, ParsedIn(m, v));
    Heard(m, v);
    CallbackIsDisciplined(MessageParsed(ReasonsParsed(ParsedIn(m, v)), clocks), true);
  }

  lemma VisitedStep(m: Monitor, vs: seq<Visit>, v: Visit)
    requires WellFormed(m) && ValidVisits(vs) && ValidPoll(v.poll)
    ensures ValidVisits(vs + [v]) && Visited(m, vs + [v]) == VisitedOnce(Visited(m, vs), v)
    ensures History(m, vs + [v]) == History(m, vs) + if Parses(Visited(m, vs), v) then FoundIn(v) else []
  {
    assert (vs + [v])[..|vs|] == vs;
  }

  lemma {:induction false} Converted(m: Monitor, first: seq<Clock>)
    requires |first| == |MESSAGE_LIST|
    requires m == NewMonitor(true, "job", false, "make").(isFirstQueryState := false)
    ensures
      var vs := [Undisturbed(CONVERTING_FILES, first)];
      && ValidVisits(vs) && History(m, vs) == [Match(PRINT_JOB_RUNNING_CONVERTING_FILES, first[0])]
      && Visited(m, vs).hasService && !Visited(m, vs).isFirstQueryState && Visited(m, vs).message == CONVERTING_FILES
  {
    var v := Undisturbed(CONVERTING_FILES, first);
    UndisturbedParses(m, CONVERTING_FILES, first);
    ConvertingIsFound(first, |MESSAGE_LIST|);
    VisitedStep(m, [], v);
    assert [] + [v] == [v];
  }

  /** A conversion, then another message, and the history holds the conversion alone. */
  lemma {:induction false} ConvertedOnce(m: Monitor, first: seq<Clock>, second: seq<Clock>)
    requires |first| == |second| == |MESSAGE_LIST|
    requires m == NewMonitor(true, "job", false, "make").(isFirstQueryState := false)
    ensures
      var vs := [Undisturbed(CONVERTING_FILES, first), Undisturbed("", second)];
      && ValidVisits(vs) && History(m, vs) == [Match(PRINT_JOB_RUNNING_CONVERTING_FILES, first[0])]
      && Visited(m, vs).hasService && !Visited(m, vs).isFirstQueryState && Visited(m, vs).message == ""
  {
    var before, v := [Undisturbed(CONVERTING_FILES, first)], Undisturbed("", second);
    Converted(m, first);
    UndisturbedParses(Visited(m, before), "", second);
    NothingIsFound(second, |MESSAGE_LIST|);
    VisitedStep(m, before, v);
  }

  /** A conversion seen at 1000 and another at 6000, with a message of nothing in between: the second is "slow". */
  lemma {:induction false} SlowOnArrival(m: Monitor, first: seq<Clock>, second: seq<Clock>, third: seq<Clock>)
    requires |first| == |second| == |third| == |MESSAGE_LIST|
    requires m == NewMonitor(true, "job", false, "make").(isFirstQueryState := false)
    requires first[0].start == 1000 && third[0].start == third[0].check == 6000
    ensures
      var vs := [Undisturbed(CONVERTING_FILES, first), Undisturbed("", second)];
      var v := Undisturbed(CONVERTING_FILES, third);
      && ValidVisits(vs) && Parses(Visited(m, vs), v)
      && PRINT_JOB_RUNNING_SLOW_FILE_CONVERSION in
           MessageScan(ReasonsParsed(ParsedIn(Visited(m, vs), v)), third, |MESSAGE_LIST|).codes
  {
    var vs := [Undisturbed(CONVERTING_FILES, first), Undisturbed("", second)];
    var v := Undisturbed(CONVERTING_FILES, third);
    ConvertedOnce(m, first, second);
    UndisturbedParses(Visited(m, vs), CONVERTING_FILES, third);
    ConvertingIsFound(third, |MESSAGE_LIST|);
    SlowConversionIsTimedFromFirst(m, vs, v);
    var past := [Match(PRINT_JOB_RUNNING_CONVERTING_FILES, first[0])];
    SlowAfterFive(past, FoundIn(v)[0]);
    assert FoundIn(v)[..0] == [] && past + [] == past;
    assert SaysSlow(0, past, FoundIn(v), 0);
  }

  lemma SlowAfterFive(past: seq<Match>, x: Match)
    requires |past| == 1 && IsConversion(past[0].code) && IsConversion(x.code)
    requires past[0].clock.start == 1000 && x.clock.check == 6000
    ensures IsSlow(0, past, x)
  {
    TimerStep(0, past, x);
  }
}
