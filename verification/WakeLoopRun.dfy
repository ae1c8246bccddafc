/** `withWakeAndOneRetry` as the source writes it: local variables, two nested loops, four shared maps. */
module WakeLoopRun {
  import opened Options
  import opened WakeLoop
  import opened WakeLoopBounds
  import opened WakeLoopSafety
  import opened WakeRegistries

  class Registries {
    var migrating: map<Key, string>
    var launching: map<Key, string>
    var preparing: map<Key, string>
    var moving: map<Key, Watcher>

    constructor ()
      ensures Contents() == Board(map[], map[], map[], map[])
    {
      migrating, launching, preparing, moving := map[], map[], map[], map[];
    }

    function Contents(): Board
      reads this
    {
      Board(migrating, launching, preparing, moving)
    }

    // The `finally` block.
    method Clear(key: Key)
      modifies this
      ensures Contents() == Without(old(Contents()), key)
    {
      migrating := migrating - {key};
      launching := launching - {key};
      preparing := preparing - {key};
      moving := moving - {key};
    }
  }

  function Script(env: nat -> Env, n: nat): seq<Env> {
    seq(n, i requires 0 <= i => env(i))
  }

  lemma ScriptSnoc(env: nat -> Env, n: nat, c: Caller, start: int)
    ensures Run(c, start, Script(env, n + 1)) == Step(c, Run(c, start, Script(env, n)), env(n))
  {
    assert Script(env, n + 1) == Script(env, n) + [env(n)];
    RunFromSnoc(c, Init(c, start), Script(env, n), env(n));
  }

  lemma NothingRun(c: Caller, start: int, env: nat -> Env)
    ensures Run(c, start, Script(env, 0)) == Init(c, start)
  {
    assert Script(env, 0) == [];
  }

  lemma MarkedThenCleared(b: Board, key: Key, c: Caller, log: seq<Event>)
    ensures Without(Marked(b, key, c, log), key) == Without(b, key)
  {
  }

  lemma SameMarks(b: Board, key: Key, c: Caller, log: seq<Event>, later: seq<Event>)
    requires LastAnswer(log) == LastAnswer(later) && ShowsPreparing(log) == ShowsPreparing(later)
    ensures Marked(b, key, c, log) == Marked(b, key, c, later)
  {
  }

  lemma NothingMarked(b: Board, key: Key, c: Caller)
    requires Without(b, key) == b
    ensures Marked(b, key, c, []) == b
  {
  }

  // Writes the clocks' locals after an answer without a move flag, in the source's order.
  method NoteAnswer(asks: nat, res: Answer, now: int, k: Clocks) returns (l: Clocks)
    ensures l == Noted(k, asks, res, now)
  {
    var t0, deadline, maxIssues := k.t0, k.deadline, k.maxIssues;
    var migrationStartedAt, launchStartedAt, prepareStartedAt := k.migrationStartedAt, k.launchStartedAt,
        k.prepareStartedAt;
    var wakeResumed, moveResumed := k.wakeResumed, k.moveResumed;
    if !moveResumed {
      moveResumed := true;
      t0 := now;
      deadline := now + WAKE_DEADLINE_MS;
      maxIssues := asks - 1 + AWS_MAX_ISSUES;
      prepareStartedAt := None;
      launchStartedAt := None;
    }
    if Migrating(res) {
      if migrationStartedAt == None {
        migrationStartedAt := Some(now);
        deadline := now + MIGRATION_DEADLINE_MS;
        maxIssues := asks - 1 + MIGRATION_MAX_ISSUES;
      }
    } else if migrationStartedAt != None && !wakeResumed {
      wakeResumed := true;
      deadline := now + WAKE_DEADLINE_MS;
      maxIssues := asks - 1 + AWS_MAX_ISSUES;
    }
    ghost var noted := NoteMigration(Reanchored(k, asks, now), asks, res, now);
    assert noted == Clocks(t0, deadline, maxIssues, migrationStartedAt, launchStartedAt, prepareStartedAt, wakeResumed,
                           k.moveStartedAt, k.moveMaxIssues, moveResumed);
    hide NoteMigration, Reanchored;
    if Launching(res) && !Migrating(res) && launchStartedAt == None {
      launchStartedAt := Some(now);
      deadline := Max(deadline, now + LAUNCH_DEADLINE_MS);
      maxIssues := Max(maxIssues, asks - 1 + LAUNCH_MAX_ISSUES);
    }
    if Preparing(res) && prepareStartedAt == None {
      prepareStartedAt := Some(now);
      deadline := Max(deadline, Min(now + PREPARE_DEADLINE_MS, t0 + LAUNCH_DEADLINE_MS));
      maxIssues := Max(maxIssues, asks - 1 + PREPARE_MAX_ISSUES);
    }
    if Starting(res) && res.aws && migrationStartedAt == None && launchStartedAt == None {
      maxIssues := Max(maxIssues, AWS_MAX_ISSUES);
    }
    l := Clocks(t0, deadline, maxIssues, migrationStartedAt, launchStartedAt, prepareStartedAt, wakeResumed,
                k.moveStartedAt, k.moveMaxIssues, moveResumed);
  }

  // The registry writes one answer makes.
  method PostAnswer(registries: Registries, key: Key, c: Caller, res: Answer)
    modifies registries
    ensures registries.Contents() == Post(old(registries.Contents()), key, c, res)
  {
    if NeedsAttention(res) {
      registries.moving := registries.moving - {key};
    } else if Moving(res) {
      registries.migrating := registries.migrating - {key};
      registries.launching := registries.launching - {key};
      registries.preparing := registries.preparing - {key};
      if c.computer.Some? {
        registries.moving := registries.moving[key := Watcher(c.computer.value, c.owner)];
      }
    } else {
      registries.moving := registries.moving - {key};
      if Migrating(res) {
        if c.computer.Some? { registries.migrating := registries.migrating[key := c.computer.value]; }
      } else {
        registries.migrating := registries.migrating - {key};
      }
      if Launching(res) && !Migrating(res) {
        if c.computer.Some? { registries.launching := registries.launching[key := c.computer.value]; }
      } else {
        registries.launching := registries.launching - {key};
      }
      if Preparing(res) {
        if c.computer.Some? { registries.preparing := registries.preparing[key := c.computer.value]; }
      }
    }
  }

  lemma SaysNothing(log: seq<Event>, e: Event)
    requires !e.Answered?
    ensures LastAnswer(log + [e]) == LastAnswer(log) && ShowsPreparing(log + [e]) == ShowsPreparing(log)
  {
    assert (log + [e])[..|log|] == log;
  }

  // The wait inside a move: reads the move's progress until it says to ask, to stop, or the wait runs out.
  method WaitForMove(c: Caller, start: int, env: nat -> Env, from: nat, res: Answer, deadline: int, reads0: nat)
    returns (verdict: Option<Outcome>, steps: nat, moveReads: nat)
    requires var s := Run(c, start, Script(env, from));
      s.pc == MoveCheck(res) && s.clocks.deadline == deadline && s.moveReads == reads0 && Bounded(s)
    ensures var s, t := Run(c, start, Script(env, from)), Run(c, start, Script(env, steps));
      && t.pc == (if verdict.Some? then Done(verdict.value) else Top)
      && t == s.(pc := t.pc, moveReads := moveReads, log := t.log)
      && Bounded(t) && StepsLeft(t) < StepsLeft(s)
      && LastAnswer(t.log) == LastAnswer(s.log) && ShowsPreparing(t.log) == ShowsPreparing(s.log)
  {
    hide Run, RunFrom, OnAnswer, Bounded, StepsLeft, LastAnswer, ShowsPreparing, Requests, ProgressReads, Retries,
        EveryAskAllowed, Script;
    ghost var s0 := Run(c, start, Script(env, from));
    ghost var s := s0;
    moveReads := reads0;
    steps := from;
    while true
      invariant steps >= from && s == Run(c, start, Script(env, steps))
      invariant s.pc == MoveCheck(res) && Bounded(s) && StepsLeft(s) <= StepsLeft(s0)
      invariant s == s0.(moveReads := moveReads, log := s.log)
      invariant LastAnswer(s.log) == LastAnswer(s0.log) && ShowsPreparing(s.log) == ShowsPreparing(s0.log)
      decreases StepsLeft(s)
    {
      ghost var head := s;
      StepMakesProgress(c, s, env(steps));
      ScriptSnoc(env, steps, c, start);
      s := Step(c, s, env(steps));
      steps := steps + 1;
      if env(steps - 1).now >= deadline {
        return Some(HandedBack(res)), steps, moveReads;
      }
      StepMakesProgress(c, s, env(steps));
      ScriptSnoc(env, steps, c, start);
      SaysNothing(s.log, ReadSent);
      s := Step(c, s, env(steps));
      steps := steps + 1;
      if env(steps - 1).aborted {
        return Some(Cancelled), steps, moveReads;
      }
      moveReads := moveReads + 1;
      if moveReads > MOVE_MAX_ISSUES {
        return Some(HandedBack(res)), steps, moveReads;
      }
      var e := env(steps);
      StepMakesProgress(c, s, e);
      ScriptSnoc(env, steps, c, start);
      SaysNothing(s.log, ReadSaid(e.read));
      s := Step(c, s, e);
      steps := steps + 1;
      if e.aborted {
        return Some(Cancelled), steps, moveReads;
      }
      match e.read
      case AskAgain => return None, steps, moveReads;
      case SignedOut => return Some(SignedOutMidMove), steps, moveReads;
      case StopAsking => return Some(HandedBack(res)), steps, moveReads;
      case NoEvidence =>
    }
  }

  // What an answer without a move flag leads to: the loop's result, or another ask.
  method Decide(res: Answer, now: int, deadline: int, retried: bool) returns (verdict: Option<Outcome>,
      retriedNow: bool)
    requires !NeedsAttention(res) && !Moving(res)
    ensures Verdict(res, now, deadline, retried) == (if verdict.Some? then Done(verdict.value) else Top)
    ensures verdict.None? ==> retriedNow == (retried || (Refused(res) && SilentlyRetryable(res.code)))
  {
    if res.ok { return Some(HandedBack(res)), retried; }
    if res.code == SandboxStarting {
      if now >= deadline { return Some(HandedBack(res)), retried; }
      return None, retried;
    }
    if !retried && SilentlyRetryable(res.code) { return None, true; }
    return Some(HandedBack(res)), retried;
  }

  // One answer: the registries, the wait inside a move, the clocks, and whether to ask again.
  method HandleAnswer(registries: Registries, key: Key, c: Caller, start: int, env: nat -> Env, from: nat, asks: nat,
                      res: Answer, k: Clocks, retried: bool, moveReads: nat, ghost b: Board, ghost t: Loop)
    returns (verdict: Option<Outcome>, steps: nat, moveReadsNow: nat, l: Clocks, retriedNow: bool)
    requires t == Run(c, start, Script(env, from)) == Loop(Answering, asks, moveReads, retried, t.carried, k, t.log)
    requires Bounded(t) && !env(from).aborted && res == if t.carried.Some? then t.carried.value else env(from).answer
    requires Without(b, key) == b && registries.Contents() == Marked(b, key, c, t.log)
    modifies registries
    ensures var s := Run(c, start, Script(env, steps));
      && Bounded(s) && StepsLeft(s) < StepsLeft(t) && s.asks == asks
      && s.pc == (if verdict.Some? then Done(verdict.value) else Top)
      && (verdict.None? ==> s == Loop(Top, asks, moveReadsNow, retriedNow, None, l, s.log))
      && (verdict.None? ==> registries.Contents() == Marked(b, key, c, s.log))
    ensures Without(registries.Contents(), key) == b
  {
    hide Run, RunFrom, Noted, WatchMove, Bounded, StepsLeft, LastAnswer, ShowsPreparing, Script, Marked, Post, Without,
        Put,
         Verdict;
    var e := env(from);
    steps, moveReadsNow, l, retriedNow := from + 1, moveReads, k, retried;
    StepMakesProgress(c, t, e);
    ScriptSnoc(env, from, c, start);
    ghost var u := OnAnswer(c, t, res, e.now);
    assert u == Step(c, t, e) && u.log == t.log + [Answered(res, e.now)];
    PostAnswer(registries, key, c, res);
    PostFrame(Marked(b, key, c, t.log), key, c, res);
    MarkedThenCleared(b, key, c, t.log);
    if NeedsAttention(res) {
      verdict := Some(HandedBack(res));
      return;
    }
    MarkedAfter(b, key, c, t.log, res, e.now);
    MarkedThenCleared(b, key, c, u.log);
    if Moving(res) {
      l := WatchMove(k, asks, e.now);
      if c.computer.None? || c.owner.None? {
        verdict := Some(HandedBack(res));
        return;
      }
      verdict, steps, moveReadsNow := WaitForMove(c, start, env, steps, res, l.deadline, moveReads);
      SameMarks(b, key, c, u.log, Run(c, start, Script(env, steps)).log);
    } else {
      l := NoteAnswer(asks, res, e.now, k);
      verdict, retriedNow := Decide(res, e.now, l.deadline, retried);
    }
  }

  // The loop itself, inside the source's `try`.
  method AskUntilSettled(registries: Registries, key: Key, c: Caller, start: int, env: nat -> Env)
    returns (outcome: Outcome, steps: nat, asks: nat)
    requires Without(registries.Contents(), key) == registries.Contents()
    modifies registries
    ensures Run(c, start, Script(env, steps)).pc == Done(outcome)
    ensures asks == Run(c, start, Script(env, steps)).asks <= 2402
    ensures Without(registries.Contents(), key) == old(registries.Contents())
  {
    hide RunFrom, Noted, WatchMove, Bounded, StepsLeft, LastAnswer, ShowsPreparing, Script, Marked, Post, Without, Put,
        Verdict;
    var k := Clocks(start, start + WAKE_DEADLINE_MS, MAX_ISSUES, None, None, None, false, None, 0, true);
    var retried := false;
    var moveReads := 0;
    var carried := if c.movingAnswer.Some? && !c.movingAnswer.value.ok && c.movingAnswer.value.moving
                   then c.movingAnswer else None;
    asks, steps := 0, 0;
    ghost var b := registries.Contents();
    ghost var s := Init(c, start);
    InitBounded(c, start);
    NothingRun(c, start, env);
    NothingMarked(b, key, c);
    while true
      invariant s == Run(c, start, Script(env, steps)) == Loop(Top, asks, moveReads, retried, carried, k, s.log)
      invariant Bounded(s)
      invariant registries.Contents() == Marked(b, key, c, s.log)
      decreases StepsLeft(s)
    {
      MarkedThenCleared(b, key, c, s.log);
      AsksAreFew(s);
      StepMakesProgress(c, s, env(steps));
      ScriptSnoc(env, steps, c, start);
      if env(steps).aborted { return Cancelled, steps + 1, asks; }
      if asks >= k.maxIssues { return CapReached, steps + 1, asks; }
      ghost var t := Step(c, s, env(steps));
      asks := asks + 1;
      steps := steps + 1;
      assert t == Loop(Answering, asks, moveReads, retried, carried, k, t.log);
      AsksAreFew(t);
      MarkedIgnores(b, key, c, s.log, Asked(env(steps - 1).now));
      if env(steps).aborted {
        ScriptSnoc(env, steps, c, start);
        MarkedThenCleared(b, key, c, t.log);
        return Cancelled, steps + 1, asks;
      }
      var res := if carried.Some? then carried.value else env(steps).answer;
      carried := None;
      var verdict;
      verdict, steps, moveReads, k,
          retried := HandleAnswer(registries, key, c, start, env, steps, asks, res, k, retried,
                                                            moveReads, b, t);
      if verdict.Some? { return verdict.value, steps, asks; }
      s := Run(c, start, Script(env, steps));
    }
  }

  lemma AsksAreFew(s: Loop)
    requires Bounded(s)
    ensures s.asks <= 2402
  {
  }

  /**
   * One call, against any environment. It always returns; it does what the state machine does; it makes at most
   * 2402 asks; and it leaves the shared registries as it found them.
   */
  method WithWakeAndOneRetry(registries: Registries, key: Key, c: Caller, start: int, env: nat -> Env)
    returns (outcome: Outcome, steps: nat, asks: nat)
    requires Without(registries.Contents(), key) == registries.Contents()
    modifies registries
    ensures Run(c, start, Script(env, steps)).pc == Done(outcome)
    ensures asks == Run(c, start, Script(env, steps)).asks <= 2402
    ensures registries.Contents() == old(registries.Contents())
  {
    outcome, steps, asks := AskUntilSettled(registries, key, c, start, env);
    registries.Clear(key);
  }
}
