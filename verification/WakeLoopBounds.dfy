/**
 * The wake loop stops: no sequence of answers, reads, clock values and aborts makes one call ask the server more
 * than 2402 times or read a move's progress more than 522 times. The clock is never used. The ask bound is attained.
 */
module WakeLoopBounds {
  import opened Options
  import opened WakeLoop

  const ASK_CEILING: nat := 2402

  // What the two clock starts a loop takes once in its life (migration, and the wake after it) may still add.
  function OneShots(k: Clocks): int {
    (if k.migrationStartedAt.None? then MIGRATION_MAX_ISSUES - 1 else 0)
        + (if k.wakeResumed then 0 else AWS_MAX_ISSUES - 1)
  }

  // The cap, and what launch and prepare may still add to it.
  function WakeRoom(k: Clocks): int {
    Max(k.maxIssues, AWS_MAX_ISSUES)
    + (if k.launchStartedAt.None? then LAUNCH_MAX_ISSUES - 1 else 0)
    + (if k.prepareStartedAt.None? then PREPARE_MAX_ISSUES - 1 else 0)
  }

  // One re-anchoring after a move, with the launch and prepare clocks it arms again.
  const REANCHOR_ROOM: nat := AWS_MAX_ISSUES - 1 + LAUNCH_MAX_ISSUES - 1 + PREPARE_MAX_ISSUES - 1

  // The highest cap the loop can still reach. Caps are raised, lowered and re-anchored; this never rises.
  function HighestCap(k: Clocks): int {
    OneShots(k) +
    if k.moveStartedAt.None? then WakeRoom(k) + MOVE_MAX_ISSUES - 1 + REANCHOR_ROOM
    else if k.moveResumed then Max(k.moveMaxIssues + REANCHOR_ROOM, WakeRoom(k))
    else k.moveMaxIssues + REANCHOR_ROOM
  }

  ghost predicate Coherent(k: Clocks) {
    && k.maxIssues <= HighestCap(k)
    && (k.moveStartedAt.None? ==> k.moveResumed)
    && (k.moveStartedAt.Some? ==> k.moveMaxIssues >= MOVE_MAX_ISSUES)
    && (!k.moveResumed ==> k.maxIssues == k.moveMaxIssues)
  }

  ghost predicate Bounded(s: Loop) {
    && s.asks <= ASK_CEILING
    && Coherent(s.clocks) && HighestCap(s.clocks) <= ASK_CEILING
    && (s.pc.Answering? ==> 1 <= s.asks <= s.clocks.maxIssues)
    && s.moveReads <= MOVE_MAX_ISSUES + (if s.pc.Done? then 1 else 0)
  }

  function PcRank(pc: Pc): nat {
    match pc
    case Done(_) => 0
    case Top => 1
    case MovePaused(_) => 2
    case MoveCheck(_) => 3
    case MoveReading(_) => 4
    case Answering => 5
  }

  // Asks left, then reads left, then the place in the loop, as one number.
  function StepsLeft(s: Loop): int {
    6 * (ASK_CEILING - s.asks) + 4 * (MOVE_MAX_ISSUES + 1 - s.moveReads) + PcRank(s.pc)
  }

  lemma InitBounded(c: Caller, start: int)
    ensures Bounded(Init(c, start))
    ensures HighestCap(Init(c, start).clocks) == ASK_CEILING
  {
  }

  // What every note keeps: the cap covers the asks made so far and stays under the highest cap, which never rises.
  ghost predicate Tamer(k: Clocks, l: Clocks, asks: nat) {
    && l.moveResumed && l.moveStartedAt == k.moveStartedAt && l.moveMaxIssues == k.moveMaxIssues
    && asks <= l.maxIssues <= HighestCap(l) <= HighestCap(k)
  }

  lemma NoteMigrationTames(k: Clocks, asks: nat, a: Answer, now: int)
    requires k.moveResumed && 1 <= asks <= k.maxIssues <= HighestCap(k)
    ensures Tamer(k, NoteMigration(k, asks, a, now), asks)
  {
  }

  lemma NoteLaunchTames(k: Clocks, asks: nat, a: Answer, now: int)
    requires k.moveResumed && 1 <= asks <= k.maxIssues <= HighestCap(k)
    ensures Tamer(k, NoteLaunch(k, asks, a, now), asks)
  {
  }

  lemma NotePreparingTames(k: Clocks, asks: nat, a: Answer, now: int)
    requires k.moveResumed && 1 <= asks <= k.maxIssues <= HighestCap(k)
    ensures Tamer(k, NotePreparing(k, asks, a, now), asks)
  {
  }

  lemma NoteStartingTames(k: Clocks, asks: nat, a: Answer, now: int)
    requires k.moveResumed && 1 <= asks <= k.maxIssues <= HighestCap(k)
    ensures Tamer(k, NoteStarting(k, a), asks)
  {
  }

  lemma ReanchorTames(k: Clocks, asks: nat, now: int)
    requires Coherent(k) && 1 <= asks <= k.maxIssues
    ensures Tamer(k, Reanchored(k, asks, now), asks)
  {
  }

  lemma MoveTames(k: Clocks, asks: nat, now: int)
    requires Coherent(k) && 1 <= asks <= k.maxIssues
    ensures Coherent(WatchMove(k, asks, now)) && HighestCap(WatchMove(k, asks, now)) <= HighestCap(k)
  {
  }

  lemma NotedTames(k: Clocks, asks: nat, a: Answer, now: int)
    requires Coherent(k) && 1 <= asks <= k.maxIssues
    ensures Coherent(Noted(k, asks, a, now)) && HighestCap(Noted(k, asks, a, now)) <= HighestCap(k)
  {
    var k1 := Reanchored(k, asks, now);
    ReanchorTames(k, asks, now);
    var k2 := NoteMigration(k1, asks, a, now);
    NoteMigrationTames(k1, asks, a, now);
    var k3 := NoteLaunch(k2, asks, a, now);
    NoteLaunchTames(k2, asks, a, now);
    var k4 := NotePreparing(k3, asks, a, now);
    NotePreparingTames(k3, asks, a, now);
    NoteStartingTames(k4, asks, a, now);
  }

  // An answer may raise, lower or re-anchor the cap, but never lifts the highest cap still reachable.
  lemma AnswerKeepsBounds(c: Caller, s: Loop, a: Answer, now: int)
    requires Bounded(s) && s.pc.Answering?
    ensures var t := OnAnswer(c, s, a, now);
      && Bounded(t) && HighestCap(t.clocks) <= HighestCap(s.clocks) && t.asks == s.asks && t.moveReads == s.moveReads
      && (t.pc.Top? || t.pc.Done? || t.pc.MoveCheck?)
  {
    NotedTames(s.clocks, s.asks, a, now);
    MoveTames(s.clocks, s.asks, now);
  }

  // The loop's termination measure, for every environment: no clock and no fairness is needed.
  lemma StepMakesProgress(c: Caller, s: Loop, e: Env)
    requires Bounded(s)
    ensures Bounded(Step(c, s, e)) && HighestCap(Step(c, s, e).clocks) <= HighestCap(s.clocks)
    ensures StepsLeft(s) >= 0
    ensures !s.pc.Done? ==> StepsLeft(Step(c, s, e)) < StepsLeft(s)
  {
    hide OnAnswer, OnRead, Coherent, HighestCap;
    match s.pc
    case Answering =>
      if !e.aborted { AnswerKeepsBounds(c, s, if s.carried.Some? then s.carried.value else e.answer, e.now); }
    case MoveReading(last) => if !e.aborted { ReadKeepsBounds(s, last, e.read); }
    case Top => TopMakesProgress(c, s, e);
    case _ =>
  }

  lemma ReadKeepsBounds(s: Loop, last: Answer, read: ReadAnswer)
    requires Bounded(s) && s.pc.MoveReading?
    ensures var t := OnRead(s, last, read);
      && Bounded(t) && t.clocks == s.clocks && t.asks == s.asks && t.moveReads == s.moveReads
      && (t.pc.Top? || t.pc.Done? || t.pc == MoveCheck(last))
  {
    hide Coherent, HighestCap;
  }

  // A cap reached is at most the highest.
  lemma TopMakesProgress(c: Caller, s: Loop, e: Env)
    requires Bounded(s) && s.pc.Top?
    ensures Bounded(Step(c, s, e)) && HighestCap(Step(c, s, e).clocks) <= HighestCap(s.clocks)
    ensures StepsLeft(s) >= 0 && StepsLeft(Step(c, s, e)) < StepsLeft(s)
  {
  }

  lemma {:induction false} RunBounded(c: Caller, start: int, script: seq<Env>)
    ensures Bounded(Run(c, start, script))
    ensures Run(c, start, script).pc.Done? || StepsLeft(Run(c, start, script)) + |script| <= StepsLeft(Init(c, start))
  {
    if script == [] {
      InitBounded(c, start);
    } else {
      RunBounded(c, start, script[..|script| - 1]);
      StepMakesProgress(c, Run(c, start, script[..|script| - 1]), script[|script| - 1]);
    }
  }

  /** Every call ends, after at most 16505 steps, 2402 asks and 522 progress reads, whatever the environment does. */
  lemma EveryRunStops(c: Caller, start: int, script: seq<Env>)
    ensures Run(c, start, script).asks <= 2402
    ensures Run(c, start, script).moveReads <= 523
    ensures !Run(c, start, script).pc.Done? ==> Run(c, start, script).moveReads <= 522
    ensures |script| > 16505 ==> Run(c, start, script).pc.Done?
  {
    RunBounded(c, start, script);
    StepMakesProgress(c, Run(c, start, script),
                      Env(0, true, Answer(false, Absent, false, false, false, false, false, false), NoEvidence));
  }

  // --- The ask bound is attained --------------------------------------------------------------------------------

  function Pending(migrating: bool, launching: bool, preparing: bool): Answer {
    Answer(false, SandboxStarting, true, migrating, launching, preparing, false, false)
  }

  const MOVE_ANSWER := Answer(false, SandboxStarting, true, false, false, false, true, false)

  ghost predicate AboutToAsk(s: Loop, asks: nat, taken: nat, k: Clocks) {
    s.pc.Top? && s.asks == asks && s.moveReads == taken && s.clocks == k && s.carried.None?
  }

  // Some run with a frozen clock is about to ask again after this many asks and reads, with these clocks.
  ghost predicate Reaches(c: Caller, asks: nat, taken: nat, k: Clocks) {
    exists script :: AboutToAsk(Run(c, 0, script), asks, taken, k)
  }

  lemma ReachesStarting(c: Caller, asks: nat, taken: nat, k: Clocks, a: Answer)
    requires Reaches(c, asks, taken, k) && asks < k.maxIssues
    requires Starting(a) && Noted(k, asks + 1, a, 0).deadline > 0
    ensures Reaches(c, asks + 1, taken, Noted(k, asks + 1, a, 0))
  {
    var script :| AboutToAsk(Run(c, 0, script), asks, taken, k);
    var e := Env(0, false, a, AskAgain);
    RunFromSnoc(c, Init(c, 0), script, e);
    RunFromSnoc(c, Init(c, 0), script + [e], e);
    assert AboutToAsk(Run(c, 0, script + [e] + [e]), asks + 1, taken, Noted(k, asks + 1, a, 0));
  }

  // A moving answer, then one read that says to ask again.
  lemma MoveRound(c: Caller, s: Loop, e: Env)
    requires s.pc.Top? && s.carried.None? && s.asks < s.clocks.maxIssues && s.moveReads < MOVE_MAX_ISSUES
    requires c.computer.Some? && c.owner.Some? && e == Env(0, false, MOVE_ANSWER, AskAgain)
    requires WatchMove(s.clocks, s.asks + 1, 0).deadline > 0
    ensures AboutToAsk(Step(c, Step(c, Step(c, Step(c, Step(c, s, e), e), e), e), e),
                       s.asks + 1, s.moveReads + 1, WatchMove(s.clocks, s.asks + 1, 0))
  {
    var s1 := Step(c, s, e);
    assert s1.pc.Answering? && s1.asks == s.asks + 1 && s1.clocks == s.clocks;
    var s2 := Step(c, s1, e);
    assert s2.pc == MoveCheck(MOVE_ANSWER) && s2.clocks == WatchMove(s.clocks, s.asks + 1, 0) && s2.carried.None?;
    var s3 := Step(c, s2, e);
    assert s3.pc == MovePaused(MOVE_ANSWER) && s3.clocks == s2.clocks && s3.moveReads == s.moveReads;
  }

  lemma ReachesMoving(c: Caller, asks: nat, taken: nat, k: Clocks)
    requires Reaches(c, asks, taken, k) && asks < k.maxIssues && taken < MOVE_MAX_ISSUES
    requires c.computer.Some? && c.owner.Some? && WatchMove(k, asks + 1, 0).deadline > 0
    ensures Reaches(c, asks + 1, taken + 1, WatchMove(k, asks + 1, 0))
  {
    var script :| AboutToAsk(Run(c, 0, script), asks, taken, k);
    var s := Run(c, 0, script);
    var e := Env(0, false, MOVE_ANSWER, AskAgain);
    MoveRound(c, s, e);
    var last := script + [e] + [e] + [e] + [e] + [e];
    assert Run(c, 0, last) == Step(c, Step(c, Step(c, Step(c, Step(c, s, e), e), e), e), e) by {
      hide Step;
      RunFromSnoc(c, Init(c, 0), script, e);
      RunFromSnoc(c, Init(c, 0), script + [e], e);
      RunFromSnoc(c, Init(c, 0), script + [e] + [e], e);
      RunFromSnoc(c, Init(c, 0), script + [e] + [e] + [e], e);
      RunFromSnoc(c, Init(c, 0), script + [e] + [e] + [e] + [e], e);
    }
    assert AboutToAsk(Run(c, 0, last), asks + 1, taken + 1, WatchMove(k, asks + 1, 0));
  }

  // `n` asks that change no clock.
  lemma {:induction false} ReachesByAsks(c: Caller, asks: nat, taken: nat, k: Clocks, a: Answer, n: nat)
    requires Reaches(c, asks, taken, k) && asks + n <= k.maxIssues && k.deadline > 0
    requires Starting(a) && forall i: nat :: Noted(k, i, a, 0) == k
    ensures Reaches(c, asks + n, taken, k)
  {
    if n == 0 {
    } else {
      ReachesByAsks(c, asks, taken, k, a, n - 1);
      ReachesStarting(c, asks + n - 1, taken, k, a);
    }
  }

  lemma {:induction false} ReachesByMoves(c: Caller, asks: nat, taken: nat, k: Clocks, n: nat)
    requires Reaches(c, asks, taken, k) && asks + n <= k.maxIssues && taken + n <= MOVE_MAX_ISSUES
    requires c.computer.Some? && c.owner.Some? && k.deadline > 0
    requires forall i: nat :: WatchMove(k, i, 0) == k
    ensures Reaches(c, asks + n, taken + n, k)
  {
    if n == 0 {
    } else {
      ReachesByMoves(c, asks, taken, k, n - 1);
      ReachesMoving(c, asks + n - 1, taken + n - 1, k);
    }
  }

  // Up to the cap with answers that change no clock, then one that raises it.
  lemma ReachesCapThen(c: Caller, asks: nat, taken: nat, k: Clocks, a: Answer, b: Answer)
    requires Reaches(c, asks, taken, k) && asks < k.maxIssues && k.deadline > 0
    requires Starting(a) && forall i: nat :: Noted(k, i, a, 0) == k
    requires Starting(b) && Noted(k, k.maxIssues, b, 0).deadline > 0
    ensures Reaches(c, k.maxIssues, taken, Noted(k, k.maxIssues, b, 0))
  {
    ReachesByAsks(c, asks, taken, k, a, k.maxIssues - 1 - asks);
    ReachesStarting(c, k.maxIssues - 1, taken, k, b);
  }

  /** The bound is exact: with every clock armed at its cap, some environment gets 2402 asks out of one call. */
  lemma AskCeilingIsAttained(c: Caller)
    requires c.computer.Some? && c.owner.Some? && c.movingAnswer.None?
    ensures exists script :: Run(c, 0, script).asks == 2402
  {
    UpToTheMove(c);
    AfterTheMove(c);
  }

  // The clocks of a move that began at once, after all the others had been started.
  const IN_THE_MOVE := Clocks(0, 15_600_000, 1735, Some(0), Some(0), Some(0), true, Some(0), 1735, false)

  lemma UpToTheMove(c: Caller)
    requires c.computer.Some? && c.owner.Some? && c.movingAnswer.None?
    ensures Reaches(c, 1214, 1, IN_THE_MOVE)
  {
    var plain, migrate := Pending(false, false, false), Pending(true, false, false);
    var launch, prepare := Pending(false, true, false), Pending(false, false, true);
    assert Run(c, 0, []) == Init(c, 0);
    var k0 := Clocks(0, 215_000, 40, None, None, None, false, None, 0, true);
    assert Reaches(c, 0, 0, k0);
    ReachesStarting(c, 0, 0, k0, plain);
    var k1 := k0.(maxIssues := 146);
    ReachesCapThen(c, 1, 0, k1, plain, launch);
    var k2 := k1.(maxIssues := 547, deadline := 600_000, launchStartedAt := Some(0));
    ReachesCapThen(c, 146, 0, k2, plain, prepare);
    var k3 := k2.(maxIssues := 668, prepareStartedAt := Some(0));
    ReachesCapThen(c, 547, 0, k3, plain, migrate);
    var k4 := k3.(maxIssues := 1069, migrationStartedAt := Some(0));
    ReachesCapThen(c, 668, 0, k4, migrate, plain);
    var k5 := k4.(maxIssues := 1214, deadline := 215_000, wakeResumed := true);
    ReachesByAsks(c, 1069, 0, k5, plain, 144);
    ReachesMoving(c, 1213, 0, k5);
    var k6 := k5.(maxIssues := 1735, moveMaxIssues := 1735, deadline := 15_600_000, moveStartedAt := Some(0),
                  moveResumed := false);
    assert k6 == IN_THE_MOVE;
  }

  lemma AfterTheMove(c: Caller)
    requires c.computer.Some? && c.owner.Some? && c.movingAnswer.None?
    requires Reaches(c, 1214, 1, IN_THE_MOVE)
    ensures exists script :: Run(c, 0, script).asks == 2402
  {
    var plain, k6 := Pending(false, false, false), IN_THE_MOVE;
    var launch, prepare := Pending(false, true, false), Pending(false, false, true);
    ReachesByMoves(c, 1214, 1, k6, 520);
    ReachesStarting(c, 1734, 521, k6, plain);
    var k7 := k6.(maxIssues := 1880, deadline := 215_000, launchStartedAt := None, prepareStartedAt := None,
                  moveResumed := true);
    ReachesCapThen(c, 1735, 521, k7, plain, launch);
    var k8 := k7.(maxIssues := 2281, deadline := 600_000, launchStartedAt := Some(0));
    ReachesCapThen(c, 1880, 521, k8, plain, prepare);
    var k9 := k8.(maxIssues := 2402, prepareStartedAt := Some(0));
    ReachesByAsks(c, 2281, 521, k9, plain, 121);
    assert Reaches(c, 2402, 521, k9);
  }
}
