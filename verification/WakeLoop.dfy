/**
 * The open loop of the shell (shell/ezil/session.js): one call asks a server to open a computer, asks again while
 * the computer wakes, migrates, launches, prepares or moves, and retries one plain failure once.
 *
 * The loop is a state machine over the points where the source awaits. Everything the loop does not decide (the
 * answer, the progress read, the clock, the caller's abort) is one `Env` per step, chosen by an adversary.
 */
module WakeLoop {
  import opened Options

  // The classes of codes the source's literal lists distinguish.
  datatype ErrorCode =
    | SandboxStarting
    | Absent
    | BillingUnavailable
    | OtherCode
    | PreviewUnavailable
    | Deterministic
    | AwsRefusal
    | BillingRefusal

  datatype Answer = Answer(
    ok: bool, code: ErrorCode, aws: bool,
    migrating: bool, launching: bool, preparing: bool, moving: bool, needsAttention: bool)

  datatype ReadAnswer = AskAgain | StopAsking | SignedOut | NoEvidence

  datatype Env = Env(now: int, aborted: bool, answer: Answer, read: ReadAnswer)

  datatype Outcome = Cancelled | CapReached | SignedOutMidMove | HandedBack(answer: Answer)

  // What a run sent and heard; `at` is the clock's reading then.
  datatype Event = Asked(at: int) | Answered(answer: Answer, at: int) | ReadSent | ReadSaid(read: ReadAnswer)

  // `owner` is the caller's own signal; without one nobody can cancel the loop.
  datatype Caller = Caller(computer: Option<string>, owner: Option<nat>, movingAnswer: Option<Answer>)

  datatype Pc =
    | Top
    | Answering
    | MoveCheck(last: Answer)
    | MovePaused(last: Answer)
    | MoveReading(last: Answer)
    | Done(outcome: Outcome)

  // The five clocks and the cap on the asks.
  datatype Clocks = Clocks(
    t0: int, deadline: int, maxIssues: int,
    migrationStartedAt: Option<int>, launchStartedAt: Option<int>, prepareStartedAt: Option<int>,
    wakeResumed: bool, moveStartedAt: Option<int>, moveMaxIssues: int, moveResumed: bool)

  datatype Loop = Loop(
    pc: Pc, asks: nat, moveReads: nat, retried: bool, carried: Option<Answer>, clocks: Clocks, log: seq<Event>)

  function CeilDiv(a: nat, b: nat): nat
    requires b > 0
  {
    (a + b - 1) / b
  }

  const WAKE_DEADLINE_MS: nat := 215_000
  const WAKE_REASK_MS: nat := 1_500
  const RETRY_DELAY_MS: nat := 1_500
  const DESKTOP_BOOT_TIMEOUT_MS: nat := 215_000
  const MIGRATION_DEADLINE_MS: nat := 600_000
  const LAUNCH_DEADLINE_MS: nat := 600_000
  const PREPARE_DEADLINE_MS: nat := 180_000
  const MOVE_WATCH_MS: nat := (13_200 + 2_400) * 1_000
  const MOVE_REASK_MS: nat := 30_000
  const MAX_ISSUES: nat := 40
  const AWS_MAX_ISSUES: nat := CeilDiv(WAKE_DEADLINE_MS, WAKE_REASK_MS) + 2
  const LAUNCH_MAX_ISSUES: nat := CeilDiv(LAUNCH_DEADLINE_MS, WAKE_REASK_MS) + 2
  const MIGRATION_MAX_ISSUES: nat := CeilDiv(MIGRATION_DEADLINE_MS, WAKE_REASK_MS) + 2
  const PREPARE_MAX_ISSUES: nat := CeilDiv(PREPARE_DEADLINE_MS, WAKE_REASK_MS) + 2
  const MOVE_MAX_ISSUES: nat := CeilDiv(MOVE_WATCH_MS, MOVE_REASK_MS) + 2

  function Max(a: int, b: int): int { if a < b then b else a }

  function Min(a: int, b: int): int { if a < b then a else b }

  // --- What an answer says -------------------------------------------------------------------------------------

  predicate NeedsAttention(a: Answer) { !a.ok && a.needsAttention }

  predicate Moving(a: Answer) { !a.ok && !a.needsAttention && a.moving }

  predicate Starting(a: Answer) { !a.ok && !a.needsAttention && !a.moving && a.code == SandboxStarting }

  predicate Refused(a: Answer) { !a.ok && !a.needsAttention && !a.moving && a.code != SandboxStarting }

  predicate Migrating(a: Answer) { Starting(a) && a.aws && a.migrating }

  predicate Launching(a: Answer) { Starting(a) && a.aws && a.launching }

  predicate Preparing(a: Answer) { Starting(a) && a.aws && a.preparing }

  predicate SilentlyRetryable(code: ErrorCode) {
    code in {Absent, BillingUnavailable, OtherCode}
  }

  // --- The loop, one step per await ----------------------------------------------------------------------------

  function Init(c: Caller, start: int): Loop {
    Loop(Top, 0, 0, false,
         if c.movingAnswer.Some? && !c.movingAnswer.value.ok && c.movingAnswer.value.moving then c.movingAnswer
             else None,
         Clocks(start, start + WAKE_DEADLINE_MS, MAX_ISSUES, None, None, None, false, None, 0, true),
         [])
  }

  // A moving answer replaces the deadline and the cap by the move's own, counted from its first answer.
  function WatchMove(k: Clocks, asks: nat, now: int): Clocks {
    var started := if k.moveStartedAt.Some? then k.moveStartedAt.value else now;
    var cap := if k.moveStartedAt.Some? then k.moveMaxIssues else asks - 1 + MOVE_MAX_ISSUES;
    k.(moveStartedAt := Some(started), moveMaxIssues := cap, deadline := started + MOVE_WATCH_MS, maxIssues := cap,
       moveResumed := false)
  }

  // The first answer without the move flag after a moving one re-anchors the wake clocks.
  function Reanchored(k: Clocks, asks: nat, now: int): Clocks {
    if k.moveResumed then k
    else k.(moveResumed := true, t0 := now, deadline := now + WAKE_DEADLINE_MS,
            maxIssues := asks - 1 + AWS_MAX_ISSUES, prepareStartedAt := None, launchStartedAt := None)
  }

  function NoteMigration(k: Clocks, asks: nat, a: Answer, now: int): Clocks {
    if Migrating(a) then
      if k.migrationStartedAt.Some? then k
      else k.(migrationStartedAt := Some(now), deadline := now + MIGRATION_DEADLINE_MS,
              maxIssues := asks - 1 + MIGRATION_MAX_ISSUES)
    else if k.migrationStartedAt.Some? && !k.wakeResumed then
      k.(wakeResumed := true, deadline := now + WAKE_DEADLINE_MS, maxIssues := asks - 1 + AWS_MAX_ISSUES)
    else k
  }

  function NoteLaunch(k: Clocks, asks: nat, a: Answer, now: int): Clocks {
    if Launching(a) && !Migrating(a) && k.launchStartedAt.None? then
      k.(launchStartedAt := Some(now), deadline := Max(k.deadline, now + LAUNCH_DEADLINE_MS),
         maxIssues := Max(k.maxIssues, asks - 1 + LAUNCH_MAX_ISSUES))
    else k
  }

  function NotePreparing(k: Clocks, asks: nat, a: Answer, now: int): Clocks {
    if Preparing(a) && k.prepareStartedAt.None? then
      k.(prepareStartedAt := Some(now),
         deadline := Max(k.deadline, Min(now + PREPARE_DEADLINE_MS, k.t0 + LAUNCH_DEADLINE_MS)),
         maxIssues := Max(k.maxIssues, asks - 1 + PREPARE_MAX_ISSUES))
    else k
  }

  // A starting answer from AWS never leaves the cap below a full wake's.
  function NoteStarting(k: Clocks, a: Answer): Clocks {
    if Starting(a) && a.aws && k.migrationStartedAt.None? && k.launchStartedAt.None?
    then k.(maxIssues := Max(k.maxIssues, AWS_MAX_ISSUES))
    else k
  }

  // The clocks after an answer without a move flag.
  function Noted(k: Clocks, asks: nat, a: Answer, now: int): Clocks {
    NoteStarting(NotePreparing(NoteLaunch(NoteMigration(Reanchored(k, asks, now), asks, a, now), asks, a, now), asks, a,
                               now), a)
  }

  // Where an answer without a move flag leads; `deadline` is the one it left.
  function Verdict(a: Answer, now: int, deadline: int, retried: bool): Pc {
    if a.ok then Done(HandedBack(a))
    else if a.code == SandboxStarting then if now >= deadline then Done(HandedBack(a)) else Top
    else if !retried && SilentlyRetryable(a.code) then Top
    else Done(HandedBack(a))
  }

  function OnAnswer(c: Caller, s: Loop, a: Answer, now: int): Loop {
    var log := s.log + [Answered(a, now)];
    if NeedsAttention(a) then s.(carried := None, log := log, pc := Done(HandedBack(a)))
    else if Moving(a) then
      s.(carried := None, log := log, clocks := WatchMove(s.clocks, s.asks, now),
         pc := if c.computer.None? || c.owner.None? then Done(HandedBack(a)) else MoveCheck(a))
    else
      var k := Noted(s.clocks, s.asks, a, now);
      s.(carried := None, log := log, clocks := k, pc := Verdict(a, now, k.deadline, s.retried),
         retried := s.retried || (Refused(a) && SilentlyRetryable(a.code)))
  }

  function OnRead(s: Loop, last: Answer, read: ReadAnswer): Loop {
    var s := s.(log := s.log + [ReadSaid(read)]);
    match read
    case AskAgain => s.(pc := Top)
    case SignedOut => s.(pc := Done(SignedOutMidMove))
    case StopAsking => s.(pc := Done(HandedBack(last)))
    case NoEvidence => s.(pc := MoveCheck(last))
  }

  function Step(c: Caller, s: Loop, e: Env): Loop {
    match s.pc
    case Top =>
      if e.aborted then s.(pc := Done(Cancelled))
      else if s.asks >= s.clocks.maxIssues then s.(pc := Done(CapReached))
      else s.(pc := Answering, asks := s.asks + 1, log := if s.carried.Some? then s.log else s.log + [Asked(e.now)])
    case Answering =>
      if e.aborted then s.(pc := Done(Cancelled))
      else OnAnswer(c, s, if s.carried.Some? then s.carried.value else e.answer, e.now)
    case MoveCheck(last) =>
      if e.now >= s.clocks.deadline then s.(pc := Done(HandedBack(last))) else s.(pc := MovePaused(last))
    case MovePaused(last) =>
      if e.aborted then s.(pc := Done(Cancelled))
      else if s.moveReads + 1 > MOVE_MAX_ISSUES then s.(moveReads := s.moveReads + 1, pc := Done(HandedBack(last)))
      else s.(moveReads := s.moveReads + 1, pc := MoveReading(last), log := s.log + [ReadSent])
    case MoveReading(last) =>
      if e.aborted then s.(pc := Done(Cancelled)) else OnRead(s, last, e.read)
    case Done(_) => s
  }

  function RunFrom(c: Caller, s: Loop, script: seq<Env>): Loop {
    if script == [] then s else Step(c, RunFrom(c, s, script[..|script| - 1]), script[|script| - 1])
  }

  function Run(c: Caller, start: int, script: seq<Env>): Loop {
    RunFrom(c, Init(c, start), script)
  }

  lemma RunFromSnoc(c: Caller, s: Loop, script: seq<Env>, e: Env)
    ensures RunFrom(c, s, script + [e]) == Step(c, RunFrom(c, s, script), e)
  {
    assert (script + [e])[..|script|] == script;
  }
}
