/**
 * How long an ordinary wake lasts. The source says it ends by 215 s + 180 s. The deadline is looked at only when a
 * starting answer arrives, so what can be promised is about the requests that follow such answers.
 */
module WakeLoopPromise {
  import opened Options
  import opened WakeLoop

  // A run without a migration, a launch or a move.
  ghost predicate Ordinary(log: seq<Event>) {
    forall i :: 0 <= i < |log| && log[i].Answered? ==> OrdinaryAnswer(log[i].answer)
  }

  predicate OrdinaryAnswer(a: Answer) {
    !Migrating(a) && !Launching(a) && !Moving(a)
  }

  // When the first preparing answer came.
  function FirstPreparing(log: seq<Event>): Option<int> {
    if log == [] then None
    else
      var before := FirstPreparing(log[..|log| - 1]);
      var e := log[|log| - 1];
      if before.None? && e.Answered? && Preparing(e.answer) then Some(e.at) else before
  }

  // When the latest answer came, if it was a starting one.
  function StartingAt(log: seq<Event>): Option<int> {
    if log == [] then None
    else
      var e := log[|log| - 1];
      if e.Answered? then (if Starting(e.answer) then Some(e.at) else None) else StartingAt(log[..|log| - 1])
  }

  // The moment from which a starting answer ends the wake.
  function GivesUpAt(start: int, firstPreparing: Option<int>): int {
    match firstPreparing
    case None => start + WAKE_DEADLINE_MS
    case Some(p) => Max(start + WAKE_DEADLINE_MS, Min(p + PREPARE_DEADLINE_MS, start + LAUNCH_DEADLINE_MS))
  }

  // Every request that follows a starting answer follows one that came before `bound`.
  ghost predicate ReasksFollow(log: seq<Event>, bound: int) {
    forall i :: 0 <= i < |log| && log[i].Asked? && StartingAt(log[..i]).Some? ==> StartingAt(log[..i]).value < bound
  }

  lemma LogSnoc(log: seq<Event>, e: Event)
    ensures FirstPreparing(log + [e])
         == if FirstPreparing(log).None? && e.Answered? && Preparing(e.answer) then Some(e.at) else FirstPreparing(log)
    ensures StartingAt(log + [e])
         == if e.Answered? then (if Starting(e.answer) then Some(e.at) else None) else StartingAt(log)
    ensures Ordinary(log + [e]) <==> Ordinary(log) && (e.Answered? ==> OrdinaryAnswer(e.answer))
    ensures forall bound :: ReasksFollow(log + [e], bound)
              <==> ReasksFollow(log, bound) && (e.Asked? && StartingAt(log).Some? ==> StartingAt(log).value < bound)
  {
    assert (log + [e])[..|log|] == log;
    assert forall i :: 0 <= i < |log| ==> (log + [e])[..i] == log[..i] && (log + [e])[i] == log[i];
    assert (log + [e])[|log|] == e;
  }

  // --- When an ordinary wake gives up ----------------------------------------------------------------------------

  ghost predicate OrdinaryClocks(k: Clocks, start: int, log: seq<Event>) {
    && k.t0 == start && k.migrationStartedAt.None? && k.launchStartedAt.None? && k.moveStartedAt.None? && k.moveResumed
    && k.prepareStartedAt == FirstPreparing(log)
    && k.deadline == GivesUpAt(start, FirstPreparing(log))
  }

  // An ordinary wake so far: what its clocks are, and when it goes on.
  ghost predicate OnCourse(s: Loop, start: int) {
    var g := GivesUpAt(start, FirstPreparing(s.log));
    && OrdinaryClocks(s.clocks, start, s.log)
    && ReasksFollow(s.log, g)
    && (s.pc.Top? ==> StartingAt(s.log).Some? ==> StartingAt(s.log).value < g)
    && (s.pc.Done? && s.pc.outcome.HandedBack? && Starting(s.pc.outcome.answer) ==>
          StartingAt(s.log).Some? && StartingAt(s.log).value >= g)
    && !s.pc.MoveCheck? && !s.pc.MovePaused? && !s.pc.MoveReading?
  }

  lemma GivingUpOnlyMovesLater(start: int, p: int)
    ensures GivesUpAt(start, None) <= GivesUpAt(start, Some(p)) <= start + LAUNCH_DEADLINE_MS
    ensures GivesUpAt(start, Some(p)) <= start + 395_000 <==> p <= start + WAKE_DEADLINE_MS
  {
  }

  lemma AnswerKeepsCourse(c: Caller, s: Loop, a: Answer, now: int, start: int)
    requires OnCourse(s, start) && s.pc.Answering? && OrdinaryAnswer(a)
    ensures OnCourse(OnAnswer(c, s, a, now), start)
  {
    LogSnoc(s.log, Answered(a, now));
    GivingUpOnlyMovesLater(start, now);
    hide FirstPreparing, StartingAt, Ordinary;
  }

  lemma StepKeepsCourse(c: Caller, s: Loop, e: Env, start: int)
    requires OnCourse(s, start) && Ordinary(Step(c, s, e).log)
    ensures OnCourse(Step(c, s, e), start)
  {
    match s.pc
    case Top => LogSnoc(s.log, Asked(e.now));
    case Answering =>
      var a := if s.carried.Some? then s.carried.value else e.answer;
      if !e.aborted {
        LogSnoc(s.log, Answered(a, e.now));
        AnswerKeepsCourse(c, s, a, e.now, start);
      }
    case Done(_) =>
  }

  lemma StepExtendsLog(c: Caller, s: Loop, e: Env)
    ensures s.log <= Step(c, s, e).log
  {
  }

  lemma {:induction false} OrdinaryRun(c: Caller, start: int, script: seq<Env>)
    requires Ordinary(Run(c, start, script).log)
    ensures OnCourse(Run(c, start, script), start)
  {
    if script == [] {
    } else {
      var s, e := Run(c, start, script[..|script| - 1]), script[|script| - 1];
      StepExtendsLog(c, s, e);
      assert forall i :: 0 <= i < |s.log| ==> s.log[i] == Step(c, s, e).log[i];
      OrdinaryRun(c, start, script[..|script| - 1]);
      StepKeepsCourse(c, s, e, start);
    }
  }

  /**
   * An ordinary wake goes on after a starting answer only if that answer came before the moment the wake gives up, and
   * ends with a starting answer only if that one came at or after it. Before ten minutes are over, always; within
   * 395 s exactly when no preparing answer came or the first came within 215 s.
   */
  lemma OrdinaryWakeGivesUp(c: Caller, start: int, script: seq<Env>)
    requires Ordinary(Run(c, start, script).log)
    ensures var s := Run(c, start, script);
      var p := FirstPreparing(s.log);
      && ReasksFollow(s.log, GivesUpAt(start, p))
      && (s.pc.Done? && s.pc.outcome.HandedBack? && Starting(s.pc.outcome.answer) ==>
            StartingAt(s.log).Some? && StartingAt(s.log).value >= GivesUpAt(start, p))
      && (GivesUpAt(start, p) <= start + 395_000 <==> p.None? || p.value <= start + 215_000)
      && GivesUpAt(start, p) <= start + 600_000
  {
    OrdinaryRun(c, start, script);
  }

  // --- The promise, over every run --------------------------------------------------------------------------------

  // The times of a real call: the first request goes out at once, every answer (a timeout at the latest) is there
  // within 215 s, and every further request waits out its pause.
  predicate Punctual(log: seq<Event>, start: int) {
    forall i :: 0 <= i < |log| ==> OnTime(log[..i], log[i], start)
  }

  predicate OnTime(before: seq<Event>, e: Event, start: int) {
    if before == [] then e == Asked(start)
    else
      match before[|before| - 1]
      case Asked(sent) => e.Answered? && sent <= e.at <= sent + DESKTOP_BOOT_TIMEOUT_MS
      case Answered(a, heard) =>
        e == Asked(heard + (if Starting(a) then WAKE_REASK_MS else RETRY_DELAY_MS))
      case _ => false
  }

  lemma PunctualSnoc(log: seq<Event>, e: Event, start: int)
    ensures Punctual(log + [e], start) <==> Punctual(log, start) && OnTime(log, e, start)
  {
    assert (log + [e])[..|log|] == log;
    assert forall i :: 0 <= i < |log| ==> (log + [e])[..i] == log[..i] && (log + [e])[i] == log[i];
    assert (log + [e])[|log|] == e;
  }

  // A run a call can make, without a migration, a launch or a move, whose first preparing answer came then.
  ghost predicate PossibleWake(log: seq<Event>, start: int, firstPreparing: Option<int>) {
    Ordinary(log) && Punctual(log, start) && FirstPreparing(log) == firstPreparing
  }

  // "An ordinary wake ends by 215 s + 180 s": no such run asks again after a starting answer from then on.
  ghost predicate PromiseHolds(c: Caller, start: int, firstPreparing: Option<int>) {
    forall script :: PossibleWake(Run(c, start, script).log, start, firstPreparing) ==>
      ReasksFollow(Run(c, start, script).log, start + 395_000)
  }

  // Some run has come back to the top of the loop with this log, these clocks and at most this many asks.
  ghost predicate Heard(c: Caller, start: int, log: seq<Event>, p: Option<int>, asks: nat, retried: bool) {
    && PossibleWake(log, start, p)
    && exists script :: HeardBy(Run(c, start, script), log, asks, retried)
  }

  ghost predicate HeardBy(s: Loop, log: seq<Event>, asks: nat, retried: bool) {
    s.pc.Top? && s.carried.None? && s.log == log && s.asks == asks < MAX_ISSUES <= s.clocks.maxIssues
        && s.retried == retried
  }

  lemma NotedNeverLowersTheCap(k: Clocks, asks: nat, a: Answer, now: int)
    requires OrdinaryAnswer(a) && k.moveResumed && k.migrationStartedAt.None?
    ensures Noted(k, asks, a, now).maxIssues >= k.maxIssues
  {
  }

  lemma HeardIsOnCourse(c: Caller, start: int, script: seq<Env>, log: seq<Event>, p: Option<int>, asks: nat,
                        retried: bool)
    requires HeardBy(Run(c, start, script), log, asks, retried) && PossibleWake(log, start, p)
    ensures OnCourse(Run(c, start, script), start)
  {
    OrdinaryRun(c, start, script);
  }

  lemma AskStep(c: Caller, s: Loop, e: Env)
    requires s.pc.Top? && s.carried.None? && !e.aborted && s.asks < s.clocks.maxIssues
    ensures Step(c, s, e) == s.(pc := Answering, asks := s.asks + 1, log := s.log + [Asked(e.now)])
  {
  }

  lemma AskKeepsCourse(s: Loop, start: int, now: int)
    requires OnCourse(s, start) && s.pc.Top?
    ensures OnCourse(s.(pc := Answering, asks := s.asks + 1, log := s.log + [Asked(now)]), start)
  {
    LogSnoc(s.log, Asked(now));
    hide FirstPreparing, StartingAt, Ordinary;
  }

  lemma AnswerLeadsOn(c: Caller, start: int, t: Loop, a: Answer, at: int)
    requires OnCourse(t, start) && t.pc.Answering? && t.clocks.maxIssues >= MAX_ISSUES
    requires Starting(a) || (Refused(a) && SilentlyRetryable(a.code) && !t.retried)
    requires OrdinaryAnswer(a)
    requires Starting(a) ==> at < GivesUpAt(start, FirstPreparing(t.log + [Answered(a, at)]))
    ensures var u := OnAnswer(c, t, a, at);
      && u.pc.Top? && u.carried.None? && u.log == t.log + [Answered(a, at)] && u.asks == t.asks
      && u.clocks.maxIssues >= MAX_ISSUES && u.retried == (t.retried || Refused(a))
  {
    NotedNeverLowersTheCap(t.clocks, t.asks, a, at);
    AnswerKeepsCourse(c, t, a, at, start);
    assert OnAnswer(c, t, a, at).clocks.deadline == GivesUpAt(start, FirstPreparing(t.log + [Answered(a, at)]));
    hide Noted, FirstPreparing, GivesUpAt, OnCourse;
  }

  // One more exchange brings the loop back to its top.
  lemma ExchangeLeadsOn(c: Caller, start: int, s: Loop, log: seq<Event>, asks: nat, retried: bool, sent: int, a: Answer,
                        at: int)
    requires HeardBy(s, log, asks, retried) && OnCourse(s, start) && asks < 30
    requires Starting(a) || (Refused(a) && SilentlyRetryable(a.code) && !retried)
    requires OrdinaryAnswer(a)
    requires Starting(a) ==> at < GivesUpAt(start, FirstPreparing(log + [Asked(sent)] + [Answered(a, at)]))
    ensures var t := Step(c, Step(c, s, Env(sent, false, a, NoEvidence)), Env(at, false, a, NoEvidence));
      HeardBy(t, log + [Asked(sent)] + [Answered(a, at)], asks + 1, retried || Refused(a))
  {
    var e := Env(sent, false, a, NoEvidence);
    AskStep(c, s, e);
    AskKeepsCourse(s, start, sent);
    var t := Step(c, s, e);
    hide OnCourse, FirstPreparing, GivesUpAt, OnAnswer;
    AnswerLeadsOn(c, start, t, a, at);
    assert Step(c, t, Env(at, false, a, NoEvidence)) == OnAnswer(c, t, a, at);
  }

  lemma RunTwoMore(c: Caller, start: int, script: seq<Env>, e: Env, f: Env)
    ensures Run(c, start, script + [e] + [f]) == Step(c, Step(c, Run(c, start, script), e), f)
  {
    hide Step;
    RunFromSnoc(c, Init(c, start), script, e);
    RunFromSnoc(c, Init(c, start), script + [e], f);
  }

  lemma ExchangeIsPossible(log: seq<Event>, start: int, p: Option<int>, sent: int, a: Answer, at: int)
    requires PossibleWake(log, start, p) && OrdinaryAnswer(a)
    requires OnTime(log, Asked(sent), start) && sent <= at <= sent + DESKTOP_BOOT_TIMEOUT_MS
    ensures PossibleWake(log + [Asked(sent)] + [Answered(a, at)], start, if p.None? && Preparing(a) then Some(at)
        else p)
    ensures FirstPreparing(log + [Asked(sent)] + [Answered(a, at)]) == if p.None? && Preparing(a) then Some(at) else p
    ensures StartingAt(log + [Asked(sent)] + [Answered(a, at)]) == if Starting(a) then Some(at) else None
  {
    LogSnoc(log, Asked(sent));
    LogSnoc(log + [Asked(sent)], Answered(a, at));
    PunctualSnoc(log, Asked(sent), start);
    PunctualSnoc(log + [Asked(sent)], Answered(a, at), start);
    hide FirstPreparing, StartingAt, Ordinary, Punctual;
  }

  // One more request and its answer, after which the loop goes on.
  lemma HearAnother(c: Caller, start: int, log: seq<Event>, p: Option<int>, asks: nat, retried: bool,
                    sent: int, a: Answer, at: int)
    returns (later: seq<Event>, q: Option<int>)
    requires Heard(c, start, log, p, asks, retried) && asks < 30
    requires OrdinaryAnswer(a) && OnTime(log, Asked(sent), start) && sent <= at <= sent + DESKTOP_BOOT_TIMEOUT_MS
    requires Starting(a) || (Refused(a) && SilentlyRetryable(a.code) && !retried)
    requires var q := if p.None? && Preparing(a) then Some(at) else p; Starting(a) ==> at < GivesUpAt(start, q)
    ensures later == log + [Asked(sent)] + [Answered(a, at)]
    ensures q == if p.None? && Preparing(a) then Some(at) else p
    ensures Heard(c, start, later, q, asks + 1, retried || Refused(a))
    ensures later != [] && later[|later| - 1] == Answered(a, at)
    ensures StartingAt(later) == if Starting(a) then Some(at) else None
  {
    later := log + [Asked(sent)] + [Answered(a, at)];
    q := if p.None? && Preparing(a) then Some(at) else p;
    var script :| HeardBy(Run(c, start, script), log, asks, retried);
    hide FirstPreparing, StartingAt, Ordinary, Punctual, Run, Step, OnCourse, HeardBy, PossibleWake, OnTime, GivesUpAt,
         Starting, Refused, Preparing, OrdinaryAnswer;
    ExchangeIsPossible(log, start, p, sent, a, at);
    var more := RunExchange(c, start, script, log, p, asks, retried, sent, a, at);
    assert HeardBy(Run(c, start, more), later, asks + 1, retried || Refused(a));
  }

  lemma RunExchange(c: Caller, start: int, script: seq<Env>, log: seq<Event>, p: Option<int>, asks: nat, retried: bool,
                    sent: int, a: Answer, at: int)
    returns (more: seq<Env>)
    requires PossibleWake(log, start, p) && HeardBy(Run(c, start, script), log, asks, retried) && asks < 30
    requires OrdinaryAnswer(a) && (Starting(a) || (Refused(a) && SilentlyRetryable(a.code) && !retried))
    requires Starting(a) ==> at < GivesUpAt(start, FirstPreparing(log + [Asked(sent)] + [Answered(a, at)]))
    ensures HeardBy(Run(c, start, more), log + [Asked(sent)] + [Answered(a, at)], asks + 1, retried || Refused(a))
  {
    hide FirstPreparing, Run, Step, OnCourse, HeardBy, PossibleWake, GivesUpAt, Starting, Refused, OrdinaryAnswer;
    HeardIsOnCourse(c, start, script, log, p, asks, retried);
    ExchangeLeadsOn(c, start, Run(c, start, script), log, asks, retried, sent, a, at);
    var e, f := Env(sent, false, a, NoEvidence), Env(at, false, a, NoEvidence);
    RunTwoMore(c, start, script, e, f);
    more := script + [e] + [f];
  }

  // The request that follows.
  lemma AskAgainAfter(c: Caller, start: int, log: seq<Event>, p: Option<int>, asks: nat, retried: bool, sent: int)
    returns (script: seq<Env>)
    requires Heard(c, start, log, p, asks, retried) && OnTime(log, Asked(sent), start)
    ensures Run(c, start, script).log == log + [Asked(sent)]
    ensures PossibleWake(log + [Asked(sent)], start, p)
  {
    var before :| HeardBy(Run(c, start, before), log, asks, retried);
    var e := Env(sent, false, Answer(true, OtherCode, false, false, false, false, false, false), NoEvidence);
    RunFromSnoc(c, Init(c, start), before, e);
    LogSnoc(log, Asked(sent));
    PunctualSnoc(log, Asked(sent), start);
    script := before + [e];
  }

  const STARTING := Answer(false, SandboxStarting, true, false, false, false, false, false)
  const PREPARING := Answer(false, SandboxStarting, true, false, false, true, false, false)
  const FAILED := Answer(false, OtherCode, false, false, false, false, false, false)

  // A starting answer at 200 s, which every ordinary wake may hear.
  lemma HearStarting(c: Caller, start: int) returns (log: seq<Event>)
    requires c.movingAnswer.None?
    ensures Heard(c, start, log, None, 1, false) && log != []
    ensures log[|log| - 1] == Answered(STARTING, start + 200_000)
  {
    assert Run(c, start, []) == Init(c, start);
    assert HeardBy(Run(c, start, []), [], 0, false);
    var q;
    log, q := HearAnother(c, start, [], None, 0, false, start, STARTING, start + 200_000);
  }

  // A first preparing answer between 215 s and ten minutes: the loop asks again too late.
  lemma LatePreparingBreaksThePromise(c: Caller, start: int, p: int) returns (script: seq<Env>)
    requires c.movingAnswer.None? && start + 215_000 < p < start + 600_000
    ensures PossibleWake(Run(c, start, script).log, start, Some(p))
    ensures !ReasksFollow(Run(c, start, script).log, start + 395_000)
  {
    hide Heard, PossibleWake, FirstPreparing, StartingAt, Ordinary, Punctual, ReasksFollow, Run;
    var log := HearStarting(c, start);
    var q: Option<int>, asks, retried := None, 1, false;
    var sent := start + 201_500;
    if p > start + 400_000 {
      log, q := HearAnother(c, start, log, None, 1, false, sent, FAILED, start + 390_000);
      asks, retried, sent := 2, true, start + 391_500;
    }
    log, q := HearAnother(c, start, log, None, asks, retried, sent, PREPARING, p);
    sent := p + 1_500;
    var heard := p;
    if p < start + 395_000 {
      heard := Max(start + 395_000, sent);
      log, q := HearAnother(c, start, log, q, asks + 1, retried, sent, STARTING, heard);
      asks := asks + 1;
    }
    script := AskAgainAfter(c, start, log, q, asks + 1, retried, heard + 1_500);
    LogSnoc(log, Asked(heard + 1_500));
  }

  /**
   * The promise holds of the wakes whose first preparing answer came at `firstPreparing`, of all of them, if and only
   * if there was none, or it came within 215 s, or at ten minutes or later, when it ends the wake itself.
   */
  lemma PromiseHoldsExactly(c: Caller, start: int, firstPreparing: Option<int>)
    requires c.movingAnswer.None?
    ensures PromiseHolds(c, start, firstPreparing) <==>
            firstPreparing.None? || firstPreparing.value <= start + 215_000 || firstPreparing.value >= start + 600_000
  {
    if firstPreparing.Some? && start + 215_000 < firstPreparing.value < start + 600_000 {
      var script := LatePreparingBreaksThePromise(c, start, firstPreparing.value);
      assert !PromiseHolds(c, start, firstPreparing);
    } else {
      forall script | PossibleWake(Run(c, start, script).log, start, firstPreparing)
        ensures ReasksFollow(Run(c, start, script).log, start + 395_000)
      {
        OrdinaryRun(c, start, script);
        if firstPreparing.Some? && firstPreparing.value >= start + 600_000 {
          ReasksBeforePreparing(c, start, script);
        }
      }
    }
  }

  // A first preparing answer at ten minutes or later is the last thing the loop hears.
  ghost predicate EndsIfPreparedTooLate(s: Loop, start: int) {
    var p := FirstPreparing(s.log);
    p.Some? && p.value >= start + 600_000 ==> s.pc.Done? && ReasksFollow(s.log, start + 215_000)
  }

  lemma AnswerEndsIfPreparedTooLate(c: Caller, s: Loop, a: Answer, now: int, start: int)
    requires OnCourse(s, start) && EndsIfPreparedTooLate(s, start) && s.pc.Answering? && OrdinaryAnswer(a)
    ensures EndsIfPreparedTooLate(OnAnswer(c, s, a, now), start)
  {
    LogSnoc(s.log, Answered(a, now));
    AnswerKeepsCourse(c, s, a, now, start);
    assert OnAnswer(c, s, a, now).clocks.deadline == GivesUpAt(start, FirstPreparing(s.log + [Answered(a, now)]));
    hide Noted, FirstPreparing, StartingAt, Ordinary, ReasksFollow;
  }

  lemma StepEndsIfPreparedTooLate(c: Caller, s: Loop, e: Env, start: int)
    requires OnCourse(s, start) && EndsIfPreparedTooLate(s, start)
    requires Ordinary(Step(c, s, e).log)
    ensures EndsIfPreparedTooLate(Step(c, s, e), start)
  {
    if s.pc.Top? {
      LogSnoc(s.log, Asked(e.now));
    } else if s.pc.Answering? && !e.aborted {
      var a := if s.carried.Some? then s.carried.value else e.answer;
      LogSnoc(s.log, Answered(a, e.now));
      hide FirstPreparing, StartingAt, Ordinary, ReasksFollow, EndsIfPreparedTooLate, OnCourse, OnAnswer;
      AnswerEndsIfPreparedTooLate(c, s, a, e.now, start);
    }
  }

  lemma {:induction false} ReasksBeforePreparing(c: Caller, start: int, script: seq<Env>)
    requires Ordinary(Run(c, start, script).log)
    ensures EndsIfPreparedTooLate(Run(c, start, script), start)
  {
    if script == [] {
    } else {
      var s, e := Run(c, start, script[..|script| - 1]), script[|script| - 1];
      StepExtendsLog(c, s, e);
      assert forall i :: 0 <= i < |s.log| ==> s.log[i] == Step(c, s, e).log[i];
      OrdinaryRun(c, start, script[..|script| - 1]);
      ReasksBeforePreparing(c, start, script[..|script| - 1]);
      StepEndsIfPreparedTooLate(c, s, e, start);
    }
  }

  /**
   * The one retry after a plain failure looks at no clock: here it leaves after 395 s, without any preparing answer.
   */
  lemma RetryIsOutsideEveryClock(c: Caller, start: int)
    requires c.movingAnswer.None?
    ensures exists script :: var log := Run(c, start, script).log;
      PossibleWake(log, start, None) && log != [] && log[|log| - 1] == Asked(start + 401_500)
  {
    hide Heard, FirstPreparing, StartingAt, Ordinary, Punctual, ReasksFollow, Run;
    var log := HearStarting(c, start);
    var q;
    log, q := HearAnother(c, start, log, None, 1, false, start + 201_500, FAILED, start + 400_000);
    var script := AskAgainAfter(c, start, log, None, 2, true, start + 401_500);
    assert Run(c, start, script).log == log + [Asked(start + 401_500)];
  }

  // --- When the last request leaves --------------------------------------------------------------------------------

  ghost predicate SentBy(log: seq<Event>, sent: int, heard: int) {
    forall i :: 0 <= i < |log| ==>
      && (log[i].Asked? ==> log[i].at < sent)
      && (log[i].Answered? ==> log[i].at < heard)
  }

  lemma SentBySnoc(log: seq<Event>, e: Event, sent: int, heard: int, sent1: int, heard1: int)
    requires SentBy(log, sent, heard) && sent <= sent1 && heard <= heard1
    requires (e.Asked? ==> e.at < sent1) && (e.Answered? ==> e.at < heard1)
    ensures SentBy(log + [e], sent1, heard1)
  {
  }

  // What the last answer allows: the retry follows a failure of a request that left within a pause of `g`.
  predicate LeadsOn(e: Event, g: int, retried: bool) {
    && e.Answered?
    && if Starting(e.answer) then e.at < g
       else retried && Refused(e.answer) && e.at < g + WAKE_REASK_MS + DESKTOP_BOOT_TIMEOUT_MS
  }

  // Every request that is not the retry leaves within a pause of the moment the wake gives up.
  ghost predicate InTime(s: Loop, start: int) {
    var g := GivesUpAt(start, FirstPreparing(s.log));
    var spare := if s.retried then DESKTOP_BOOT_TIMEOUT_MS + RETRY_DELAY_MS else 0;
    && s.carried.None?
    && SentBy(s.log, g + WAKE_REASK_MS + spare, g + WAKE_REASK_MS + spare + DESKTOP_BOOT_TIMEOUT_MS)
    && (s.pc.Top? && s.log != [] ==> LeadsOn(s.log[|s.log| - 1], g, s.retried))
    && (s.pc.Answering? ==> s.log != [] && s.log[|s.log| - 1].Asked?)
  }

  lemma AskIsOnTime(s: Loop, now: int, start: int)
    requires InTime(s, start) && s.pc.Top? && OnTime(s.log, Asked(now), start)
    ensures now < GivesUpAt(start, FirstPreparing(s.log)) + WAKE_REASK_MS
                  + (if s.retried then DESKTOP_BOOT_TIMEOUT_MS + RETRY_DELAY_MS else 0)
  {
    hide FirstPreparing, SentBy;
  }

  lemma AskKeepsTime(c: Caller, s: Loop, e: Env, start: int)
    requires InTime(s, start) && s.pc.Top? && Punctual(Step(c, s, e).log, start)
    ensures InTime(Step(c, s, e), start)
  {
    if !e.aborted && s.asks < s.clocks.maxIssues {
      var t := Step(c, s, e);
      AskStep(c, s, e);
      LogSnoc(s.log, Asked(e.now));
      PunctualSnoc(s.log, Asked(e.now), start);
      AskIsOnTime(s, e.now, start);
      hide Punctual, FirstPreparing, Ordinary, ReasksFollow, StartingAt, GivesUpAt, Step, OnTime;
      var sent := GivesUpAt(start, FirstPreparing(s.log)) + WAKE_REASK_MS
                  + if s.retried then DESKTOP_BOOT_TIMEOUT_MS + RETRY_DELAY_MS else 0;
      SentBySnoc(s.log, Asked(e.now), sent, sent + DESKTOP_BOOT_TIMEOUT_MS, sent, sent + DESKTOP_BOOT_TIMEOUT_MS);
    }
  }

  lemma AnswerGoesOn(c: Caller, s: Loop, a: Answer, now: int, start: int)
    requires OnCourse(s, start) && s.pc.Answering? && OrdinaryAnswer(a)
    ensures var t := OnAnswer(c, s, a, now);
      var g, h := GivesUpAt(start, FirstPreparing(s.log)), GivesUpAt(start, FirstPreparing(t.log));
      && t.log == s.log + [Answered(a, now)] && t.carried.None? && !t.pc.Answering? && g <= h
      && (s.retried ==> t.retried)
      && (t.pc.Top? ==> if Starting(a) then now < h else t.retried && !s.retried && Refused(a))
  {
    AnswerKeepsCourse(c, s, a, now, start);
    LogSnoc(s.log, Answered(a, now));
    GivingUpOnlyMovesLater(start, now);
    assert OnAnswer(c, s, a, now).clocks.deadline == GivesUpAt(start, FirstPreparing(OnAnswer(c, s, a, now).log));
    hide Noted, FirstPreparing, StartingAt, GivesUpAt, ReasksFollow;
  }

  lemma AnswerKeepsTime(c: Caller, s: Loop, a: Answer, now: int, start: int)
    requires InTime(s, start) && OnCourse(s, start) && s.pc.Answering? && OrdinaryAnswer(a)
    requires Punctual(s.log + [Answered(a, now)], start)
    ensures InTime(OnAnswer(c, s, a, now), start)
  {
    var t := OnAnswer(c, s, a, now);
    AnswerGoesOn(c, s, a, now, start);
    PunctualSnoc(s.log, Answered(a, now), start);
    hide FirstPreparing, Punctual, OnCourse, GivesUpAt, OnAnswer;
    var spare := if s.retried then DESKTOP_BOOT_TIMEOUT_MS + RETRY_DELAY_MS else 0;
    var more := if t.retried then DESKTOP_BOOT_TIMEOUT_MS + RETRY_DELAY_MS else 0;
    var sent := GivesUpAt(start, FirstPreparing(s.log)) + WAKE_REASK_MS + spare;
    var after := GivesUpAt(start, FirstPreparing(t.log)) + WAKE_REASK_MS + more;
    assert s.log[|s.log| - 1].at < sent;
    SentBySnoc(s.log, Answered(a, now), sent, sent + DESKTOP_BOOT_TIMEOUT_MS, after, after + DESKTOP_BOOT_TIMEOUT_MS);
    hide SentBy;
    assert t.log[|t.log| - 1] == Answered(a, now);
  }

  lemma StepKeepsTime(c: Caller, s: Loop, e: Env, start: int)
    requires InTime(s, start) && OnCourse(s, start) && Ordinary(Step(c, s, e).log) && Punctual(Step(c, s, e).log, start)
    ensures InTime(Step(c, s, e), start)
  {
    hide FirstPreparing, StartingAt, Punctual, ReasksFollow, SentBy, GivesUpAt;
    if s.pc.Top? {
      AskKeepsTime(c, s, e, start);
    } else if s.pc.Answering? && !e.aborted {
      LogSnoc(s.log, Answered(e.answer, e.now));
      AnswerKeepsTime(c, s, e.answer, e.now, start);
    }
  }

  lemma {:induction false} RunKeepsTime(c: Caller, start: int, script: seq<Env>)
    requires Ordinary(Run(c, start, script).log) && Punctual(Run(c, start, script).log, start) && c.movingAnswer.None?
    ensures InTime(Run(c, start, script), start)
  {
    if script == [] {
    } else {
      var s, e := Run(c, start, script[..|script| - 1]), script[|script| - 1];
      var t := Step(c, s, e);
      StepExtendsLog(c, s, e);
      assert forall i :: 0 <= i < |s.log| ==> s.log[i] == t.log[i] && s.log[..i] == t.log[..i];
      OrdinaryRun(c, start, script[..|script| - 1]);
      RunKeepsTime(c, start, script[..|script| - 1]);
      StepKeepsTime(c, s, e, start);
    }
  }

  /** Its last request leaves, retry included, within 218 s of the moment it gives up, and it has ended 215 s later. */
  lemma OrdinaryWakeEnds(c: Caller, start: int, script: seq<Env>)
    requires c.movingAnswer.None?
    requires Ordinary(Run(c, start, script).log) && Punctual(Run(c, start, script).log, start)
    ensures var log := Run(c, start, script).log; var g := GivesUpAt(start, FirstPreparing(log));
      SentBy(log, g + 218_000, g + 433_000)
  {
    RunKeepsTime(c, start, script);
  }
}
