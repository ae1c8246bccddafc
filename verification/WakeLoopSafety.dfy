/** When the wake loop may ask, in every run. */
module WakeLoopSafety {
  import opened Options
  import opened WakeLoop
  import opened WakeLoopBounds

  function LastAnswer(log: seq<Event>): Option<Answer> {
    if log == [] then None
    else if log[|log| - 1].Answered? then Some(log[|log| - 1].answer)
    else LastAnswer(log[..|log| - 1])
  }

  // What must have happened for a request to be sent next.
  predicate MayAsk(log: seq<Event>) {
    match LastAnswer(log)
    case None => true
    case Some(a) =>
      && !a.ok
      && !NeedsAttention(a)
      && (Moving(a) ==> log[|log| - 1] == ReadSaid(AskAgain))
      && (Refused(a) ==> SilentlyRetryable(a.code))
  }

  predicate AfterRefusal(log: seq<Event>) {
    LastAnswer(log).Some? && Refused(LastAnswer(log).value)
  }

  ghost predicate EveryAskAllowed(log: seq<Event>) {
    forall i :: 0 <= i < |log| && log[i].Asked? ==> MayAsk(log[..i])
  }

  function Requests(log: seq<Event>): nat {
    if log == [] then 0 else Requests(log[..|log| - 1]) + (if log[|log| - 1].Asked? then 1 else 0)
  }

  function ProgressReads(log: seq<Event>): nat {
    if log == [] then 0 else ProgressReads(log[..|log| - 1]) + (if log[|log| - 1].ReadSent? then 1 else 0)
  }

  // Requests whose latest answer was a plain failure.
  function Retries(log: seq<Event>): nat {
    if log == [] then 0
    else Retries(log[..|log| - 1]) + (if log[|log| - 1].Asked? && AfterRefusal(log[..|log| - 1]) then 1 else 0)
  }

  lemma Appended(log: seq<Event>, e: Event)
    ensures LastAnswer(log + [e]) == if e.Answered? then Some(e.answer) else LastAnswer(log)
    ensures Requests(log + [e]) == Requests(log) + (if e.Asked? then 1 else 0)
    ensures ProgressReads(log + [e]) == ProgressReads(log) + (if e.ReadSent? then 1 else 0)
    ensures Retries(log + [e]) == Retries(log) + (if e.Asked? && AfterRefusal(log) then 1 else 0)
    ensures EveryAskAllowed(log) && (e.Asked? ==> MayAsk(log)) ==> EveryAskAllowed(log + [e])
  {
    assert (log + [e])[..|log|] == log;
    assert forall i :: 0 <= i < |log| ==> (log + [e])[..i] == log[..i];
  }

  ghost predicate Safe(s: Loop) {
    && EveryAskAllowed(s.log)
    && Requests(s.log) <= s.asks
    && ProgressReads(s.log) <= s.moveReads && ProgressReads(s.log) <= MOVE_MAX_ISSUES
    && Retries(s.log) <= (if s.retried then 1 else 0)
    && (s.pc.Top? ==> MayAsk(s.log) && (AfterRefusal(s.log) ==> s.retried && Retries(s.log) == 0))
    && (s.carried.Some? ==> s.log == [] && (s.pc.Top? || s.pc.Answering? || s.pc.Done?))
    && match s.pc
       case MoveCheck(last) => LastAnswer(s.log) == Some(last) && Moving(last)
       case MovePaused(last) => LastAnswer(s.log) == Some(last) && Moving(last)
       case MoveReading(last) => LastAnswer(s.log) == Some(last) && Moving(last)
       case _ => true
  }

  lemma AnswerKeepsSafe(c: Caller, s: Loop, a: Answer, now: int)
    requires Safe(s) && s.pc.Answering?
    ensures Safe(OnAnswer(c, s, a, now))
  {
    Appended(s.log, Answered(a, now));
    hide Noted, WatchMove, Requests, ProgressReads, Retries, EveryAskAllowed, LastAnswer;
  }

  lemma StepKeepsSafe(c: Caller, s: Loop, e: Env)
    requires Safe(s)
    ensures Safe(Step(c, s, e))
  {
    hide OnAnswer, Requests, ProgressReads, Retries, EveryAskAllowed, LastAnswer;
    match s.pc
    case Top => Appended(s.log, Asked(e.now));
    case Answering => AnswerKeepsSafe(c, s, if s.carried.Some? then s.carried.value else e.answer, e.now);
    case MoveCheck(_) =>
    case MovePaused(_) => Appended(s.log, ReadSent);
    case MoveReading(_) => Appended(s.log, ReadSaid(e.read));
    case Done(_) =>
  }

  lemma {:induction false} RunSafe(c: Caller, start: int, script: seq<Env>)
    ensures Safe(Run(c, start, script))
  {
    if script == [] {
    } else {
      RunSafe(c, start, script[..|script| - 1]);
      hide Step;
      StepKeepsSafe(c, Run(c, start, script[..|script| - 1]), script[|script| - 1]);
    }
  }

  /**
   * In every run: no request follows a success or a move that needs attention; one that follows a moving answer comes
   * right after a progress read that said to ask; at most one follows a plain failure, and only a retryable one.
   */
  lemma AsksAreJustified(c: Caller, start: int, script: seq<Env>, i: nat)
    requires var log := Run(c, start, script).log; i < |log| && log[i].Asked?
    ensures var log := Run(c, start, script).log; MayAsk(log[..i])
    ensures Retries(Run(c, start, script).log) <= 1
  {
    RunSafe(c, start, script);
  }

  /** The server sees at most 2402 requests and 522 progress reads from one call. */
  lemma TrafficIsBounded(c: Caller, start: int, script: seq<Env>)
    ensures Requests(Run(c, start, script).log) <= 2402
    ensures ProgressReads(Run(c, start, script).log) <= 522
  {
    RunSafe(c, start, script);
    EveryRunStops(c, start, script);
  }

  /** Once the caller has aborted, the loop sends nothing more. */
  lemma {:induction false} AbortedLoopSendsNothing(c: Caller, s: Loop, more: seq<Env>)
    requires forall i :: 0 <= i < |more| ==> more[i].aborted
    ensures Requests(RunFrom(c, s, more).log) == Requests(s.log)
    ensures ProgressReads(RunFrom(c, s, more).log) == ProgressReads(s.log)
    ensures |more| >= 3 ==> RunFrom(c, s, more).pc.Done?
  {
    AbortedLoopStops(c, s, more);
  }

  function DistanceWhenAborted(pc: Pc): nat {
    match pc
    case Done(_) => 0
    case MoveCheck(_) => 2
    case _ => 1
  }

  lemma {:induction false} AbortedLoopStops(c: Caller, s: Loop, more: seq<Env>)
    requires forall i :: 0 <= i < |more| ==> more[i].aborted
    ensures RunFrom(c, s, more).log == s.log
    ensures DistanceWhenAborted(RunFrom(c, s, more).pc) == 0
        || DistanceWhenAborted(RunFrom(c, s, more).pc) + |more| <= DistanceWhenAborted(s.pc)
  {
    if more == [] {
    } else {
      AbortedLoopStops(c, s, more[..|more| - 1]);
    }
  }
}
