/**
 * What the loop does next, told from its log alone: when a wake, a migration, a launch, a preparation or a move gives
 * up, how many requests it may make, and what each answer leads to. Nothing here goes through the loop's own clocks.
 */
module WakeLoopClocks {
  import opened Options
  import opened WakeLoop

  // --- What the log says ------------------------------------------------------------------------------------------

  // The first of these that an answer is, in this order.
  datatype Kind = Success | Blocked | Move | Waking | Failure

  function KindOf(a: Answer): Kind {
    if a.ok then Success
    else if a.needsAttention then Blocked
    else if a.moving then Move
    else if a.code == SandboxStarting then Waking
    else Failure
  }

  predicate Any(a: Answer) { true }

  predicate Moves(a: Answer) { KindOf(a) == Move }

  predicate Fails(a: Answer) { KindOf(a) == Failure }

  predicate WakesOnAws(a: Answer) { KindOf(a) == Waking && a.aws }

  predicate Migrates(a: Answer) { WakesOnAws(a) && a.migrating }

  predicate Resumes(a: Answer) { !Moves(a) && !Migrates(a) }

  predicate Launches(a: Answer) { WakesOnAws(a) && a.launching && !a.migrating }

  predicate Prepares(a: Answer) { WakesOnAws(a) && a.preparing }

  // The first such answer at `from` or later.
  function First(log: seq<Event>, from: nat, p: Answer -> bool): (i: Option<nat>)
    ensures i.Some? ==> from <= i.value < |log| && log[i.value].Answered? && p(log[i.value].answer)
    ensures forall k :: from <= k < (if i.Some? then i.value else |log|) && log[k].Answered? ==> !p(log[k].answer)
    decreases |log| - from
  {
    if from >= |log| then None
    else if log[from].Answered? && p(log[from].answer) then Some(from)
    else First(log, from + 1, p)
  }

  // The last such answer.
  function Last(log: seq<Event>, p: Answer -> bool): (i: Option<nat>)
    ensures i.Some? ==> i.value < |log| && log[i.value].Answered? && p(log[i.value].answer)
    ensures forall k :: (if i.Some? then i.value + 1 else 0) <= k < |log| && log[k].Answered? ==> !p(log[k].answer)
  {
    if log == [] then None
    else if log[|log| - 1].Answered? && p(log[|log| - 1].answer) then Some(|log| - 1)
    else Last(log[..|log| - 1], p)
  }

  function Answers(log: seq<Event>): nat {
    if log == [] then 0 else Answers(log[..|log| - 1]) + if log[|log| - 1].Answered? then 1 else 0
  }

  function ReadsSent(log: seq<Event>): nat {
    if log == [] then 0 else ReadsSent(log[..|log| - 1]) + if log[|log| - 1].ReadSent? then 1 else 0
  }

  // Where the wake after the last move begins, or the run.
  function SinceMove(log: seq<Event>): (from: nat)
    ensures from <= |log|
  {
    if Last(log, Moves).Some? then Last(log, Moves).value + 1 else 0
  }

  predicate InMove(log: seq<Event>) {
    Last(log, Moves).Some? && First(log, SinceMove(log), Any).None?
  }

  // --- The answers that matter ------------------------------------------------------------------------------------

  // The first answer after a move.
  function Anchor(log: seq<Event>): (i: Option<nat>)
    ensures i.Some? ==> i.value < |log| && log[i.value].Answered?
  {
    if Last(log, Moves).Some? then First(log, SinceMove(log), Any) else None
  }

  function Migration(log: seq<Event>): (i: Option<nat>)
    ensures i.Some? ==> i.value < |log| && log[i.value].Answered?
  {
    First(log, 0, Migrates)
  }

  // The first answer after the migration.
  function Resumption(log: seq<Event>): (i: Option<nat>)
    ensures i.Some? ==> i.value < |log| && log[i.value].Answered?
  {
    if Migration(log).Some? then First(log, Migration(log).value + 1, Resumes) else None
  }

  function Launch(log: seq<Event>): (i: Option<nat>)
    ensures i.Some? ==> i.value < |log| && log[i.value].Answered?
  {
    First(log, SinceMove(log), Launches)
  }

  function Preparation(log: seq<Event>): (i: Option<nat>)
    ensures i.Some? ==> i.value < |log| && log[i.value].Answered?
  {
    First(log, SinceMove(log), Prepares)
  }

  function Later(a: Option<nat>, b: Option<nat>): Option<nat> {
    if a.None? || (b.Some? && a.value < b.value) then b else a
  }

  // The latest answer that set the deadline and the cap anew.
  function Reset(log: seq<Event>): (i: Option<nat>)
    ensures i.Some? ==> i.value < |log| && log[i.value].Answered?
  {
    Later(Anchor(log), Later(Migration(log), Resumption(log)))
  }

  predicate ResetsByMigration(log: seq<Event>) { Reset(log).Some? && Reset(log) == Migration(log) }

  // It came with the latest reset or after it.
  predicate Counts(log: seq<Event>, i: Option<nat>) {
    i.Some? && (Reset(log).Some? ==> Reset(log).value <= i.value)
  }

  function TimeOf(log: seq<Event>, i: Option<nat>, otherwise: int): int
    requires i.Some? ==> i.value < |log| && log[i.value].Answered?
  {
    if i.Some? then log[i.value].at else otherwise
  }

  // A limit, raised by that of a launch and by that of a preparation.
  function Raised(limit: int, launch: Option<int>, preparation: Option<int>): int {
    var launched := if launch.Some? then Max(limit, launch.value) else limit;
    if preparation.Some? then Max(launched, preparation.value) else launched
  }

  function ResetLimit(log: seq<Event>, start: int): int {
    TimeOf(log, Reset(log), start) + if ResetsByMigration(log) then 600_000 else 215_000
  }

  function LaunchLimit(log: seq<Event>, start: int): Option<int> {
    if Counts(log, Launch(log)) then Some(TimeOf(log, Launch(log), start) + 600_000) else None
  }

  function PreparationLimit(log: seq<Event>, start: int): Option<int> {
    if Counts(log, Preparation(log)) then
      Some(Min(TimeOf(log, Preparation(log), start) + 180_000, TimeOf(log, Anchor(log), start) + 600_000))
    else None
  }

  // The moment from which a starting answer is the last.
  function GivesUp(log: seq<Event>, start: int): int {
    Raised(ResetLimit(log, start), LaunchLimit(log, start), PreparationLimit(log, start))
  }

  // The moment from which a move is no longer waited for.
  function MoveGivesUp(log: seq<Event>): int
    requires First(log, 0, Moves).Some?
  {
    log[First(log, 0, Moves).value].at + 15_600_000
  }

  function AnswersBefore(log: seq<Event>, i: Option<nat>): nat
    requires i.Some? ==> i.value < |log|
  {
    if i.Some? then Answers(log[..i.value]) else 0
  }

  function ResetCap(log: seq<Event>): int {
    if Reset(log).Some? then AnswersBefore(log, Reset(log)) + if ResetsByMigration(log) then 402 else 146
    else if First(log, 0, WakesOnAws).Some? then 146 else 40
  }

  function LaunchCap(log: seq<Event>): Option<int> {
    if Counts(log, Launch(log)) then Some(AnswersBefore(log, Launch(log)) + 402) else None
  }

  function PreparationCap(log: seq<Event>): Option<int> {
    if Counts(log, Preparation(log)) then Some(AnswersBefore(log, Preparation(log)) + 122) else None
  }

  // How many requests may be made.
  function Cap(log: seq<Event>): int {
    if InMove(log) then AnswersBefore(log, First(log, 0, Moves)) + 522
    else Raised(ResetCap(log), LaunchCap(log), PreparationCap(log))
  }

  // --- One more event ---------------------------------------------------------------------------------------------

  lemma FirstSnoc(log: seq<Event>, e: Event, from: nat, p: Answer -> bool)
    requires from <= |log|
    ensures First(log + [e], from, p)
         == if First(log, from, p).Some? then First(log, from, p)
            else if e.Answered? && p(e.answer) then Some(|log|) else None
  {
    var after := log + [e];
    assert forall k :: 0 <= k < |log| ==> after[k] == log[k];
    assert after[|log|] == e;
    var i, j := First(log, from, p), First(after, from, p);
    if i.Some? {
      assert after[i.value].Answered? && p(after[i.value].answer);
      assert j.Some?;
    }
  }

  lemma LastSnoc(log: seq<Event>, e: Event, p: Answer -> bool)
    ensures Last(log + [e], p) == if e.Answered? && p(e.answer) then Some(|log|) else Last(log, p)
  {
    assert (log + [e])[..|log|] == log;
  }

  lemma CountSnoc(log: seq<Event>, e: Event)
    ensures Answers(log + [e]) == Answers(log) + if e.Answered? then 1 else 0
    ensures ReadsSent(log + [e]) == ReadsSent(log) + if e.ReadSent? then 1 else 0
    ensures forall i: nat :: i < |log| ==> (log + [e])[..i] == log[..i] && (log + [e])[i] == log[i]
    ensures (log + [e])[..|log|] == log && (log + [e])[|log|] == e
  {
    assert (log + [e])[..|log|] == log;
  }

  // An event that is no answer leaves everything that is told as it was.
  lemma QuietEvent(log: seq<Event>, e: Event, start: int)
    requires !e.Answered?
    ensures var after := log + [e];
      && InMove(after) == InMove(log) && Anchor(after) == Anchor(log) && Migration(after) == Migration(log)
      && Resumption(after) == Resumption(log) && Launch(after) == Launch(log) && Preparation(after) == Preparation(log)
      && First(after, 0, Moves) == First(log, 0, Moves) && First(after, 0, WakesOnAws) == First(log, 0, WakesOnAws)
  {
    Told(log, e);
    ToldOfMigration(log, e);
    ToldSinceMove(log, e);
    hide First, Last;
  }

  function OrNow(was: Option<nat>, log: seq<Event>, e: Event, p: Answer -> bool): Option<nat> {
    if was.Some? then was else if e.Answered? && p(e.answer) then Some(|log|) else None
  }

  // What one more event changes of the firsts and the lasts.
  lemma Told(log: seq<Event>, e: Event)
    ensures var after := log + [e];
      && Last(after, Moves) == (if e.Answered? && Moves(e.answer) then Some(|log|) else Last(log, Moves))
      && First(after, 0, Moves) == OrNow(First(log, 0, Moves), log, e, Moves)
      && First(after, 0, WakesOnAws) == OrNow(First(log, 0, WakesOnAws), log, e, WakesOnAws)
  {
    LastSnoc(log, e, Moves);
    FirstSnoc(log, e, 0, Moves);
    FirstSnoc(log, e, 0, WakesOnAws);
    hide First, Last, KindOf, Moves, WakesOnAws;
  }

  lemma ToldOfMigration(log: seq<Event>, e: Event)
    ensures var after := log + [e];
      && Migration(after) == OrNow(Migration(log), log, e, Migrates)
      && Resumption(after)
         == (if Migration(log).Some? then OrNow(Resumption(log), log, e, Resumes) else None)
  {
    FirstSnoc(log, e, 0, Migrates);
    if Migration(log).Some? {
      FirstSnoc(log, e, Migration(log).value + 1, Resumes);
      hide First;
    } else {
      assert First(log + [e], |log| + 1, Resumes) == None;
    }
  }

  // And of those since the last move.
  lemma ToldSinceMove(log: seq<Event>, e: Event)
    requires !(e.Answered? && Moves(e.answer))
    ensures var after := log + [e];
      && SinceMove(after) == SinceMove(log)
      && First(after, SinceMove(log), Any) == OrNow(First(log, SinceMove(log), Any), log, e, Any)
      && Launch(after) == OrNow(Launch(log), log, e, Launches)
      && Preparation(after) == OrNow(Preparation(log), log, e, Prepares)
  {
    LastSnoc(log, e, Moves);
    FirstSnoc(log, e, SinceMove(log), Any);
    FirstSnoc(log, e, SinceMove(log), Launches);
    FirstSnoc(log, e, SinceMove(log), Prepares);
    hide First, Last, KindOf, Moves, Launches, Prepares;
  }

  // An answer that is not of a move.
  lemma AnswerTold(log: seq<Event>, a: Answer, now: int)
    requires !Moves(a)
    ensures var after, n := log + [Answered(a, now)], |log|;
      && !InMove(after) && Anchor(after) == (if InMove(log) then Some(n) else Anchor(log))
      && Migration(after) == (if Migration(log).None? && Migrates(a) then Some(n) else Migration(log))
      && Resumption(after)
         == (if Migration(log).Some? && Resumption(log).None? && !Migrates(a) then Some(n) else Resumption(log))
      && Launch(after) == (if Launch(log).None? && Launches(a) then Some(n) else Launch(log))
      && Preparation(after) == (if Preparation(log).None? && Prepares(a) then Some(n) else Preparation(log))
  {
    Told(log, Answered(a, now));
    ToldOfMigration(log, Answered(a, now));
    ToldSinceMove(log, Answered(a, now));
    hide First, Last, KindOf, Launches, Prepares, Migrates;
  }

  predicate ResetsNow(log: seq<Event>, a: Answer) {
    || InMove(log)
    || (Migration(log).None? && Migrates(a))
    || (Migration(log).Some? && Resumption(log).None? && !Migrates(a))
  }

  lemma ResetTold(log: seq<Event>, a: Answer, now: int)
    requires !Moves(a)
    ensures var after, n := log + [Answered(a, now)], |log|;
      Reset(after) == if ResetsNow(log, a) then Some(n) else Reset(log)
    ensures Reset(log).Some? ==> Reset(log).value < |log|
  {
    AnswerTold(log, a, now);
    hide InMove, Migrates, Moves, KindOf, Anchor, Migration, Resumption, Launch, Preparation;
  }

  // Nothing of the wake has come yet in a move.
  lemma MoveHidesTheWake(log: seq<Event>)
    ensures InMove(log) ==>
              Launch(log).None? && Preparation(log).None? && Anchor(log).None? && First(log, 0, Moves).Some?
  {
  }

  lemma AppendedAt(log: seq<Event>, e: Event, i: Option<nat>, otherwise: int)
    requires i.Some? ==> i.value < |log| && log[i.value].Answered?
    ensures TimeOf(log + [e], i, otherwise) == TimeOf(log, i, otherwise)
    ensures AnswersBefore(log + [e], i) == AnswersBefore(log, i)
    ensures e.Answered? ==> TimeOf(log + [e], Some(|log|), otherwise) == e.at
    ensures AnswersBefore(log + [e], Some(|log|)) == Answers(log)
  {
    CountSnoc(log, e);
  }

  predicate FirstLaunch(log: seq<Event>, a: Answer) { Launch(log).None? && Launches(a) }

  predicate FirstPreparation(log: seq<Event>, a: Answer) { Preparation(log).None? && Prepares(a) }

  predicate FirstMigration(log: seq<Event>, a: Answer) { Migration(log).None? && Migrates(a) }

  lemma ResetKindAfter(log: seq<Event>, a: Answer, now: int)
    requires !Moves(a)
    ensures Reset(log + [Answered(a, now)]) == if ResetsNow(log, a) then Some(|log|) else Reset(log)
    ensures ResetsByMigration(log + [Answered(a, now)])
       <==> if ResetsNow(log, a) then FirstMigration(log, a) else ResetsByMigration(log)
    ensures Reset(log).Some? ==> Reset(log).value < |log| && log[Reset(log).value].Answered?
  {
    AnswerTold(log, a, now);
    ResetTold(log, a, now);
    hide InMove, Migrates, Moves, KindOf, Anchor, Resumption, Launch, Preparation;
  }

  lemma ResetLimitAfter(log: seq<Event>, a: Answer, now: int, start: int)
    requires !Moves(a)
    ensures ResetLimit(log + [Answered(a, now)], start)
         == if !ResetsNow(log, a) then ResetLimit(log, start)
            else now + if FirstMigration(log, a) then 600_000 else 215_000
  {
    ResetKindAfter(log, a, now);
    AppendedAt(log, Answered(a, now), Reset(log), start);
    hide TimeOf, Reset, ResetsNow, FirstMigration, Migration;
  }

  // Whether the first of its kind, which `starts` says came now or did not, still counts after one more answer.
  lemma CountsAfter(log: seq<Event>, a: Answer, now: int, was: Option<nat>, starts: bool)
    requires !Moves(a) && (was.Some? ==> was.value < |log|)
    ensures Counts(log + [Answered(a, now)], if was.None? && starts then Some(|log|) else was)
       <==> (was.None? && starts) || (!ResetsNow(log, a) && Counts(log, was))
  {
    ResetTold(log, a, now);
    hide Reset, ResetsNow;
  }

  lemma LaunchLimitAfter(log: seq<Event>, a: Answer, now: int, start: int)
    requires !Moves(a)
    ensures LaunchLimit(log + [Answered(a, now)], start)
         == if FirstLaunch(log, a) then Some(now + 600_000)
            else if ResetsNow(log, a) then None else LaunchLimit(log, start)
  {
    LaunchTold(log, a, now);
    CountsAfter(log, a, now, Launch(log), Launches(a));
    AppendedAt(log, Answered(a, now), Launch(log), start);
    hide TimeOf, Counts, First, ResetsNow, Launches, SinceMove;
  }

  lemma LaunchTold(log: seq<Event>, a: Answer, now: int)
    requires !Moves(a)
    ensures Launch(log + [Answered(a, now)]) == if FirstLaunch(log, a) then Some(|log|) else Launch(log)
    ensures Launch(log).Some? ==> Launch(log).value < |log| && log[Launch(log).value].Answered?
  {
    AnswerTold(log, a, now);
  }

  lemma PreparationTold(log: seq<Event>, a: Answer, now: int)
    requires !Moves(a)
    ensures var after := log + [Answered(a, now)];
      && Preparation(after) == (if FirstPreparation(log, a) then Some(|log|) else Preparation(log))
      && Anchor(after) == (if InMove(log) then Some(|log|) else Anchor(log))
    ensures Preparation(log).Some? ==> Preparation(log).value < |log| && log[Preparation(log).value].Answered?
    ensures Anchor(log).Some? ==> Anchor(log).value < |log| && log[Anchor(log).value].Answered?
    ensures InMove(log) ==> Preparation(log).None?
  {
    AnswerTold(log, a, now);
  }

  lemma PreparationCounts(log: seq<Event>, a: Answer, now: int)
    requires !Moves(a)
    ensures Counts(log + [Answered(a, now)], Preparation(log + [Answered(a, now)]))
       <==> FirstPreparation(log, a) || (!ResetsNow(log, a) && Counts(log, Preparation(log)))
    ensures FirstPreparation(log, a) || InMove(log) ==> Preparation(log).None?
  {
    hide Counts, First, ResetsNow, Prepares, SinceMove, InMove, Last, Anchor, Reset;
    PreparationTold(log, a, now);
    CountsAfter(log, a, now, Preparation(log), Prepares(a));
  }

  lemma PreparationLimitAfter(log: seq<Event>, a: Answer, now: int, start: int)
    requires !Moves(a)
    ensures var anchor := if InMove(log) then now else TimeOf(log, Anchor(log), start);
      PreparationLimit(log + [Answered(a, now)], start)
      == if FirstPreparation(log, a) then Some(Min(now + 180_000, anchor + 600_000))
         else if ResetsNow(log, a) then None else PreparationLimit(log, start)
  {
    hide TimeOf, Counts, First, ResetsNow, FirstPreparation, Prepares, SinceMove, InMove, Last, Anchor, Reset, Min,
         Preparation;
    PreparationTold(log, a, now);
    ResetFloor(log, a);
    PreparationCounts(log, a, now);
    AppendedAt(log, Answered(a, now), Preparation(log), start);
    AppendedAt(log, Answered(a, now), Anchor(log), start);
  }

  lemma GivesUpAfter(log: seq<Event>, a: Answer, now: int, start: int)
    requires !Moves(a)
    ensures var anchor := if InMove(log) then now else TimeOf(log, Anchor(log), start);
      GivesUp(log + [Answered(a, now)], start)
      == Raised(if !ResetsNow(log, a) then GivesUp(log, start)
                else now + if FirstMigration(log, a) then 600_000 else 215_000,
                if FirstLaunch(log, a) then Some(now + 600_000) else None,
                if FirstPreparation(log, a) then Some(Min(now + 180_000, anchor + 600_000)) else None)
  {
    ResetLimitAfter(log, a, now, start);
    LaunchLimitAfter(log, a, now, start);
    PreparationLimitAfter(log, a, now, start);
    FirstsDoNotCount(log, a);
    hide TimeOf, ResetLimit, LaunchLimit, PreparationLimit, Launch, Preparation, Migration, Anchor, InMove, ResetsNow;
  }

  lemma FirstsDoNotCount(log: seq<Event>, a: Answer)
    ensures FirstLaunch(log, a) ==> !Counts(log, Launch(log))
    ensures FirstPreparation(log, a) ==> !Counts(log, Preparation(log))
  {
  }

  lemma LaunchCapAfter(log: seq<Event>, a: Answer, now: int)
    requires !Moves(a)
    ensures LaunchCap(log + [Answered(a, now)])
         == if FirstLaunch(log, a) then Some(Answers(log) + 402) else if ResetsNow(log, a) then None else LaunchCap(log)
  {
    hide AnswersBefore, Answers, Last, InMove, Counts, First, ResetsNow, Launches, SinceMove;
    LaunchTold(log, a, now);
    CountsAfter(log, a, now, Launch(log), Launches(a));
    AppendedAt(log, Answered(a, now), Launch(log), 0);
  }

  lemma PreparationCapAfter(log: seq<Event>, a: Answer, now: int)
    requires !Moves(a)
    ensures PreparationCap(log + [Answered(a, now)])
         == if FirstPreparation(log, a) then Some(Answers(log) + 122)
            else if ResetsNow(log, a) then None else PreparationCap(log)
  {
    hide AnswersBefore, Answers, Last, InMove, Counts, First, ResetsNow, Prepares, SinceMove, Anchor;
    PreparationTold(log, a, now);
    CountsAfter(log, a, now, Preparation(log), Prepares(a));
    AppendedAt(log, Answered(a, now), Preparation(log), 0);
  }

  lemma ResetCapAfter(log: seq<Event>, a: Answer, now: int)
    requires !Moves(a)
    ensures ResetCap(log + [Answered(a, now)])
         == if ResetsNow(log, a) then Answers(log) + if FirstMigration(log, a) then 402 else 146
            else if Reset(log).None? && WakesOnAws(a) then 146 else ResetCap(log)
  {
    hide AnswersBefore, Answers, Reset, ResetsNow, ResetsByMigration, FirstMigration, WakesOnAws, First, Last;
    ResetKindAfter(log, a, now);
    AppendedAt(log, Answered(a, now), Reset(log), 0);
    Told(log, Answered(a, now));
  }

  // The cap that one more answer leaves; one of a waking AWS computer leaves it at 146 or above.
  lemma CapAfter(log: seq<Event>, a: Answer, now: int)
    requires !Moves(a)
    ensures Cap(log + [Answered(a, now)])
         == if WakesOnAws(a) then Max(RaisedCap(log, a), 146) else RaisedCap(log, a)
    ensures Migration(log).Some? || Migrates(a) || (!InMove(log) && Launch(log).Some?) || FirstLaunch(log, a) ==>
              RaisedCap(log, a) >= 146
  {
    hide Answers, ResetsNow, FirstMigration, FirstLaunch, FirstPreparation, ResetCap, LaunchCap, PreparationCap, Launch,
         Preparation, Migration, Anchor, Resumption, InMove, WakesOnAws, Reset, First, Last, Moves, Migrates;
    AnswerTold(log, a, now);
    ResetCapAfter(log, a, now);
    LaunchCapAfter(log, a, now);
    PreparationCapAfter(log, a, now);
    CapFloor(log);
    ResetFloor(log, a);
  }

  function RaisedCap(log: seq<Event>, a: Answer): int {
    Raised(if !ResetsNow(log, a) then Cap(log) else Answers(log) + if FirstMigration(log, a) then 402 else 146,
           if FirstLaunch(log, a) then Some(Answers(log) + 402) else None,
           if FirstPreparation(log, a) then Some(Answers(log) + 122) else None)
  }

  lemma CapFloor(log: seq<Event>)
    ensures Reset(log).Some? ==> ResetCap(log) >= 146
    ensures Reset(log).None? ==> ResetCap(log) <= 146
    ensures Launch(log).Some? ==> Reset(log).Some? || (LaunchCap(log).Some? && LaunchCap(log).value >= 402)
    ensures Launch(log).None? ==> LaunchCap(log).None?
    ensures Preparation(log).None? ==> PreparationCap(log).None?
  {
    hide Reset, Launch, Preparation, Answers;
  }

  lemma ResetFloor(log: seq<Event>, a: Answer)
    ensures InMove(log) || FirstMigration(log, a) ==> ResetsNow(log, a)
    ensures Migrates(a) ==> FirstMigration(log, a) || Migration(log).Some?
    ensures Migration(log).Some? ==> Reset(log).Some?
    ensures FirstLaunch(log, a) ==> Launch(log).None?
    ensures FirstPreparation(log, a) ==> Preparation(log).None?
  {
  }

  lemma MoveTold(log: seq<Event>, a: Answer, now: int)
    requires Moves(a)
    ensures var after := log + [Answered(a, now)];
      && InMove(after) && Migration(after) == Migration(log) && Resumption(after) == Resumption(log)
      && First(after, 0, Moves) == (if First(log, 0, Moves).Some? then First(log, 0, Moves) else Some(|log|))
  {
    Told(log, Answered(a, now));
    ToldOfMigration(log, Answered(a, now));
    assert First(log + [Answered(a, now)], |log| + 1, Any).None?;
  }

  lemma MoveLimitAfter(log: seq<Event>, a: Answer, now: int)
    requires Moves(a)
    ensures var after, move := log + [Answered(a, now)], First(log, 0, Moves);
      && First(after, 0, Moves).Some?
      && MoveGivesUp(after) == (if move.Some? then MoveGivesUp(log) else now + 15_600_000)
      && Cap(after) == (if move.Some? then AnswersBefore(log, move) else Answers(log)) + 522
      && AnswersBefore(after, First(after, 0, Moves)) + 522 == Cap(after)
  {
    hide Answers, First, InMove, Migration, Resumption, Moves;
    MoveTold(log, a, now);
    AppendedAt(log, Answered(a, now), First(log, 0, Moves), 0);
    CountSnoc(log, Answered(a, now));
  }

  // --- The loop's clocks are what the log says ----------------------------------------------------------------------

  ghost predicate WakeClocks(k: Clocks, log: seq<Event>, start: int) {
    && k.t0 == TimeOf(log, Anchor(log), start)
    && k.launchStartedAt.Some? == Launch(log).Some?
    && k.prepareStartedAt.Some? == Preparation(log).Some?
    && k.deadline == GivesUp(log, start)
  }

  ghost predicate MoveClocks(k: Clocks, log: seq<Event>) {
    var move := First(log, 0, Moves);
    && k.moveStartedAt.Some? == move.Some?
    && (move.Some? ==> k.moveStartedAt.value + 15_600_000 == MoveGivesUp(log)
                       && k.moveMaxIssues == AnswersBefore(log, move) + 522)
  }

  ghost predicate Clocked(k: Clocks, log: seq<Event>, start: int) {
    && k.migrationStartedAt.Some? == Migration(log).Some?
    && k.wakeResumed == Resumption(log).Some?
    && k.moveResumed == !InMove(log)
    && k.maxIssues == Cap(log)
    && MoveClocks(k, log)
    && (InMove(log) ==> k.deadline == MoveGivesUp(log))
    && (!InMove(log) ==> WakeClocks(k, log, start))
  }

  predicate Migrated(k: Clocks, a: Answer) { k.migrationStartedAt.None? && Migrates(a) }

  predicate Resumed(k: Clocks, a: Answer) { k.migrationStartedAt.Some? && !k.wakeResumed && !Migrates(a) }

  predicate Launched(k: Clocks, a: Answer) { (!k.moveResumed || k.launchStartedAt.None?) && Launches(a) }

  predicate Prepared(k: Clocks, a: Answer) { (!k.moveResumed || k.prepareStartedAt.None?) && Prepares(a) }

  // What an answer that is not of a move does to the clocks, told by the clocks before it.
  lemma NotedAnswer(a: Answer)
    ensures Migrating(a) == Migrates(a) && Preparing(a) == Prepares(a)
    ensures (Launching(a) && !Migrating(a)) == Launches(a)
  {
  }

  lemma NotedMarks(k: Clocks, n: nat, a: Answer, now: int)
    ensures var t := Noted(k, n + 1, a, now);
      && t.migrationStartedAt.Some? == (k.migrationStartedAt.Some? || Migrates(a))
      && t.wakeResumed == (k.wakeResumed || Resumed(k, a))
      && t.moveResumed && t.moveStartedAt == k.moveStartedAt && t.moveMaxIssues == k.moveMaxIssues
      && t.t0 == (if k.moveResumed then k.t0 else now)
      && t.launchStartedAt.Some? == (Launched(k, a) || (k.moveResumed && k.launchStartedAt.Some?))
      && t.prepareStartedAt.Some? == (Prepared(k, a) || (k.moveResumed && k.prepareStartedAt.Some?))
  {
    hide Max, Min, CeilDiv, KindOf;
    NotedAnswer(a);
  }

  lemma NotedDeadline(k: Clocks, n: nat, a: Answer, now: int)
    ensures Noted(k, n + 1, a, now).deadline
         == Raised(if k.moveResumed && !Migrated(k, a) && !Resumed(k, a) then k.deadline
                   else now + if Migrated(k, a) then 600_000 else 215_000,
                   if Launched(k, a) then Some(now + 600_000) else None,
                   if Prepared(k, a) then Some(Min(now + 180_000, (if k.moveResumed then k.t0 else now) + 600_000))
                   else None)
  {
  }

  function NotedCap(k: Clocks, n: nat, a: Answer): int {
    Raised(if k.moveResumed && !Migrated(k, a) && !Resumed(k, a) then k.maxIssues
           else n + if Migrated(k, a) then 402 else 146,
           if Launched(k, a) then Some(n + 402) else None,
           if Prepared(k, a) then Some(n + 122) else None)
  }

  lemma NotedMaxIssues(k: Clocks, n: nat, a: Answer, now: int)
    ensures var t := Noted(k, n + 1, a, now);
      t.maxIssues == if WakesOnAws(a) && t.migrationStartedAt.None? && t.launchStartedAt.None?
                     then Max(NotedCap(k, n, a), 146) else NotedCap(k, n, a)
  {
  }

  lemma AnswerKeepsMarks(k: Clocks, log: seq<Event>, a: Answer, now: int, start: int)
    requires Clocked(k, log, start) && !Moves(a)
    ensures var t, after := Noted(k, Answers(log) + 1, a, now), log + [Answered(a, now)];
      && t.migrationStartedAt.Some? == Migration(after).Some?
      && t.wakeResumed == Resumption(after).Some?
      && t.moveResumed && !InMove(after)
      && t.launchStartedAt.Some? == Launch(after).Some?
      && t.prepareStartedAt.Some? == Preparation(after).Some?
      && t.t0 == TimeOf(after, Anchor(after), start)
  {
    hide Noted, First, Last, Migration, Resumption, Launch, Preparation, Anchor, InMove, GivesUp, Cap, Answers, Moves,
         MoveClocks, Raised, TimeOf, Launches, Prepares, Migrates;
    NotedMarks(k, Answers(log), a, now);
    AnswerTold(log, a, now);
    MoveHidesTheWake(log);
    AppendedAt(log, Answered(a, now), Anchor(log), start);
  }

  lemma AnswerKeepsDeadline(k: Clocks, log: seq<Event>, a: Answer, now: int, start: int)
    requires Clocked(k, log, start) && !Moves(a)
    ensures Noted(k, Answers(log) + 1, a, now).deadline == GivesUp(log + [Answered(a, now)], start)
  {
    hide Noted, First, Last, Migration, Resumption, Launch, Preparation, Anchor, InMove, GivesUp, Cap, Answers, Moves,
         MoveClocks, Raised, TimeOf, Launches, Prepares, Migrates;
    NotedDeadline(k, Answers(log), a, now);
    GivesUpAfter(log, a, now, start);
    MoveHidesTheWake(log);
  }

  lemma AnswerKeepsCap(k: Clocks, log: seq<Event>, a: Answer, now: int, start: int)
    requires Clocked(k, log, start) && !Moves(a)
    ensures Noted(k, Answers(log) + 1, a, now).maxIssues == Cap(log + [Answered(a, now)])
  {
    hide Noted, First, Last, Migration, Resumption, Launch, Preparation, Anchor, InMove, GivesUp, Cap, Answers, Moves,
         MoveClocks, Raised, TimeOf, Launches, Prepares, Migrates, WakesOnAws;
    NotedMarks(k, Answers(log), a, now);
    NotedMaxIssues(k, Answers(log), a, now);
    CapAfter(log, a, now);
    MoveHidesTheWake(log);
  }

  lemma AnswerKeepsMove(k: Clocks, log: seq<Event>, a: Answer, now: int, start: int)
    requires Clocked(k, log, start) && !Moves(a)
    ensures MoveClocks(Noted(k, Answers(log) + 1, a, now), log + [Answered(a, now)])
  {
    hide Noted, Last, Migration, Resumption, InMove, GivesUp, Cap, Answers, Moves, WakeClocks, First;
    NotedMarks(k, Answers(log), a, now);
    Told(log, Answered(a, now));
    AppendedAt(log, Answered(a, now), First(log, 0, Moves), start);
  }

  lemma AnswerKeepsClocks(k: Clocks, log: seq<Event>, a: Answer, now: int, start: int)
    requires Clocked(k, log, start) && !Moves(a)
    ensures Clocked(Noted(k, Answers(log) + 1, a, now), log + [Answered(a, now)], start)
  {
    AnswerKeepsMarks(k, log, a, now, start);
    AnswerKeepsDeadline(k, log, a, now, start);
    AnswerKeepsCap(k, log, a, now, start);
    AnswerKeepsMove(k, log, a, now, start);
    hide Noted, Migration, Resumption, Launch, Preparation, Anchor, InMove, GivesUp, Cap, Answers, Moves, MoveClocks,
         TimeOf;
  }

  lemma MoveKeepsClocks(k: Clocks, log: seq<Event>, a: Answer, now: int, start: int)
    requires Clocked(k, log, start) && Moves(a)
    ensures Clocked(WatchMove(k, Answers(log) + 1, now), log + [Answered(a, now)], start)
  {
    hide First, Last, Migration, Resumption, InMove, GivesUp, Cap, Answers, Moves, WakeClocks, MoveGivesUp,
         AnswersBefore;
    MoveTold(log, a, now);
    MoveLimitAfter(log, a, now);
  }

  lemma QuietLimits(log: seq<Event>, e: Event, start: int)
    requires !e.Answered?
    ensures GivesUp(log + [e], start) == GivesUp(log, start)
    ensures TimeOf(log + [e], Anchor(log + [e]), start) == TimeOf(log, Anchor(log), start)
  {
    hide First, Last, TimeOf, Launch, Preparation, Migration, Anchor, Resumption, InMove, Raised;
    QuietEvent(log, e, start);
    AppendedAt(log, e, Reset(log), start);
    hide Reset;
    AppendedAt(log, e, Anchor(log), start);
    AppendedAt(log, e, Launch(log), start);
    AppendedAt(log, e, Preparation(log), start);
  }

  lemma QuietMove(log: seq<Event>, e: Event, start: int)
    requires !e.Answered?
    ensures First(log + [e], 0, Moves) == First(log, 0, Moves)
    ensures First(log, 0, Moves).Some? ==> MoveGivesUp(log + [e]) == MoveGivesUp(log)
    ensures AnswersBefore(log + [e], First(log, 0, Moves)) == AnswersBefore(log, First(log, 0, Moves))
  {
    QuietEvent(log, e, start);
    CountSnoc(log, e);
  }

  lemma QuietCap(log: seq<Event>, e: Event, start: int)
    requires !e.Answered?
    ensures Cap(log + [e]) == Cap(log)
  {
    hide First, Last, Answers, AnswersBefore, InMove, Launch, Preparation, Migration, Anchor, Resumption;
    QuietEvent(log, e, start);
    QuietMove(log, e, start);
    AppendedAt(log, e, Reset(log), start);
    AppendedAt(log, e, Launch(log), start);
    AppendedAt(log, e, Preparation(log), start);
  }

  lemma QuietKeepsClocks(k: Clocks, log: seq<Event>, e: Event, start: int)
    requires Clocked(k, log, start) && !e.Answered?
    ensures Clocked(k, log + [e], start)
  {
    hide GivesUp, Cap, TimeOf, AnswersBefore, MoveGivesUp, First, Last, Migration, Resumption, Launch, Preparation,
         Anchor, InMove;
    MoveHidesTheWake(log);
    QuietLimits(log, e, start);
    QuietMove(log, e, start);
    QuietCap(log, e, start);
    QuietEvent(log, e, start);
  }

  // --- Every run ----------------------------------------------------------------------------------------------------

  // The counters and marks beside the clocks.
  ghost predicate Counted(c: Caller, s: Loop) {
    && s.moveReads == ReadsSent(s.log)
    && s.asks == Answers(s.log) + (if s.pc.Answering? then 1 else 0)
    && s.retried == First(s.log, 0, Fails).Some?
    && (s.carried.Some? ==> s.log == [] && s.carried == c.movingAnswer)
    && (s.pc.Answering? && s.log == [] ==> s.carried.Some?)
  }

  ghost predicate Waits(s: Loop) {
    s.pc.MoveCheck? || s.pc.MovePaused? || s.pc.MoveReading? ==>
      InMove(s.log) && LastHeard(s.log) == Some(s.pc.last)
  }

  function LastHeard(log: seq<Event>): Option<Answer> {
    if Last(log, Any).Some? then Some(log[Last(log, Any).value].answer) else None
  }

  // What the log says of a loop that has not ended.
  ghost predicate IsTold(c: Caller, s: Loop, start: int) {
    !s.pc.Done? ==> Clocked(s.clocks, s.log, start) && Counted(c, s) && Waits(s)
  }

  lemma QuietKeepsRest(log: seq<Event>, e: Event)
    requires !e.Answered?
    ensures Answers(log + [e]) == Answers(log)
    ensures ReadsSent(log + [e]) == ReadsSent(log) + if e.ReadSent? then 1 else 0
    ensures First(log + [e], 0, Fails) == First(log, 0, Fails)
    ensures LastHeard(log + [e]) == LastHeard(log) && InMove(log + [e]) == InMove(log)
  {
    hide First;
    CountSnoc(log, e);
    FirstSnoc(log, e, 0, Fails);
    LastSnoc(log, e, Any);
    QuietEvent(log, e, 0);
  }

  // A step that hears no answer.
  lemma QuietStep(c: Caller, s: Loop, e: Env, start: int)
    requires IsTold(c, s, start) && (s.pc.Answering? ==> e.aborted)
    ensures IsTold(c, Step(c, s, e), start)
  {
    if s.pc.Top? {
      AskStep(c, s, e, start);
    } else {
      WaitStep(c, s, e, start);
    }
  }

  lemma AskStep(c: Caller, s: Loop, e: Env, start: int)
    requires IsTold(c, s, start) && s.pc.Top?
    ensures IsTold(c, Step(c, s, e), start)
  {
    hide Clocked, First, Last, InMove, Answers, ReadsSent, LastHeard, OnAnswer, OnRead;
    QuietKeepsRest(s.log, Asked(e.now));
    if Clocked(s.clocks, s.log, start) {
      QuietKeepsClocks(s.clocks, s.log, Asked(e.now), start);
    }
  }

  // What a step of the wait for a move changes, if it does not end the loop.
  lemma WaitTold(c: Caller, s: Loop, e: Env) returns (event: Event)
    requires !s.pc.Top? && (s.pc.Answering? ==> e.aborted)
    ensures !event.Answered?
    ensures var t := Step(c, s, e);
      t.pc.Done?
      || (&& t.clocks == s.clocks && t.asks == s.asks && t.retried == s.retried && t.carried == s.carried
          && (s.pc.MoveCheck? || s.pc.MovePaused? || s.pc.MoveReading?)
          && (t.pc.Top? || t.pc == MoveCheck(s.pc.last) || t.pc == MovePaused(s.pc.last)
              || t.pc == MoveReading(s.pc.last))
          && t.log == (if s.pc.MoveCheck? then s.log else s.log + [event])
          && t.moveReads == s.moveReads + if s.pc.MovePaused? then 1 else 0)
    ensures event.ReadSent? <==> s.pc.MovePaused?
  {
    hide OnAnswer;
    event := if s.pc.MovePaused? then ReadSent else ReadSaid(e.read);
  }

  lemma WaitStep(c: Caller, s: Loop, e: Env, start: int)
    requires IsTold(c, s, start) && !s.pc.Top? && (s.pc.Answering? ==> e.aborted)
    ensures IsTold(c, Step(c, s, e), start)
  {
    hide Clocked, First, Last, InMove, Answers, ReadsSent, LastHeard, Step;
    MoveIsHeard(s.log);
    var event := WaitTold(c, s, e);
    if !Step(c, s, e).pc.Done? && !s.pc.MoveCheck? {
      QuietKeepsRest(s.log, event);
      QuietKeepsClocks(s.clocks, s.log, event, start);
    }
  }

  lemma MoveIsHeard(log: seq<Event>)
    ensures InMove(log) ==> log != []
  {
  }

  lemma AnswerStep(c: Caller, s: Loop, a: Answer, now: int, start: int)
    requires IsTold(c, s, start) && s.pc.Answering?
    ensures IsTold(c, OnAnswer(c, s, a, now), start)
  {
    var t := OnAnswer(c, s, a, now);
    var e := Answered(a, now);
    hide Clocked, First, Last, InMove, Answers, ReadsSent, Noted;
    if !t.pc.Done? {
      CountSnoc(s.log, e);
      FirstSnoc(s.log, e, 0, Fails);
      LastSnoc(s.log, e, Any);
      if Moves(a) {
        MoveTold(s.log, a, now);
        MoveKeepsClocks(s.clocks, s.log, a, now, start);
      } else {
        AnswerKeepsClocks(s.clocks, s.log, a, now, start);
      }
    }
  }

  lemma {:induction false} EveryRunIsTold(c: Caller, start: int, script: seq<Env>)
    ensures IsTold(c, Run(c, start, script), start)
  {
    if script == [] {
    } else {
      var s, e := Run(c, start, script[..|script| - 1]), script[|script| - 1];
      EveryRunIsTold(c, start, script[..|script| - 1]);
      hide IsTold;
      if s.pc.Answering? && !e.aborted {
        AnswerStep(c, s, if s.carried.Some? then s.carried.value else e.answer, e.now, start);
      } else {
        QuietStep(c, s, e, start);
      }
    }
  }

  // The answer an exchange brings: the first may be the moving one the caller already holds.
  function Heard(c: Caller, log: seq<Event>, e: Env): Answer {
    if log == [] && c.movingAnswer.Some? then c.movingAnswer.value else e.answer
  }

  /**
   * In every run, what an answer leads to: a starting one leads on exactly before the moment the log tells, a plain
   * failure exactly when it is the first and its code is one of three, and a moving one to the wait for the move. Any
   * other is handed back.
   */
  lemma AnswerDecides(c: Caller, start: int, script: seq<Env>, e: Env)
    requires Run(c, start, script).pc.Answering? && !e.aborted
    ensures var log := Run(c, start, script).log; var t := Run(c, start, script + [e]); var a := Heard(c, log, e);
      && t.log == log + [Answered(a, e.now)]
      && t.pc == match KindOf(a)
         case Success => Done(HandedBack(a))
         case Blocked => Done(HandedBack(a))
         case Move => if c.computer.Some? && c.owner.Some? then MoveCheck(a) else Done(HandedBack(a))
         case Waking => if e.now < GivesUp(t.log, start) then Top else Done(HandedBack(a))
         case Failure =>
           if a.code in {Absent, BillingUnavailable, OtherCode} && First(log, 0, Fails).None? then Top
           else Done(HandedBack(a))
  {
    hide First, Last, InMove, GivesUp, RunFrom, Cap, Answers, Migration, Resumption, ReadsSent, Waits;
    var s := Run(c, start, script);
    EveryRunIsTold(c, start, script);
    RunFromSnoc(c, Init(c, start), script, e);
    AnswerLeadsTo(c, s, Heard(c, s.log, e), e.now, start);
  }

  lemma AnswerLeadsTo(c: Caller, s: Loop, a: Answer, now: int, start: int)
    requires IsTold(c, s, start) && s.pc.Answering?
    ensures OnAnswer(c, s, a, now).pc
         == match KindOf(a)
            case Success => Done(HandedBack(a))
            case Blocked => Done(HandedBack(a))
            case Move => if c.computer.Some? && c.owner.Some? then MoveCheck(a) else Done(HandedBack(a))
            case Waking => if now < GivesUp(s.log + [Answered(a, now)], start) then Top else Done(HandedBack(a))
            case Failure =>
              if a.code in {Absent, BillingUnavailable, OtherCode} && First(s.log, 0, Fails).None? then Top
              else Done(HandedBack(a))
  {
    hide First, Last, InMove, GivesUp, RunFrom, Cap, Answers, Migration, Resumption, ReadsSent, Waits, Noted;
    if KindOf(a) == Waking {
      AnswerKeepsDeadline(s.clocks, s.log, a, now, start);
    }
  }

  /** The first answer is the one the caller already holds, without a request, exactly when that is a moving one. */
  lemma FirstAnswer(c: Caller, start: int, e: Env, f: Env)
    requires !e.aborted && !f.aborted
    ensures var held := c.movingAnswer.Some? && !c.movingAnswer.value.ok && c.movingAnswer.value.moving;
      Run(c, start, [e] + [f]).log
      == if held then [Answered(c.movingAnswer.value, f.now)] else [Asked(e.now), Answered(f.answer, f.now)]
  {
    assert Run(c, start, []) == Init(c, start) && [] + [e] == [e];
    RunFromSnoc(c, Init(c, start), [], e);
    RunFromSnoc(c, Init(c, start), [e], f);
    hide Noted, WatchMove, RunFrom;
  }

  /** In every run, the loop asks again exactly while fewer answers came than the log's cap. */
  lemma AsksExactly(c: Caller, start: int, script: seq<Env>, e: Env)
    requires Run(c, start, script).pc.Top? && !e.aborted
    ensures var log := Run(c, start, script).log;
      Run(c, start, script + [e]).pc == if Answers(log) < Cap(log) then Answering else Done(CapReached)
  {
    EveryRunIsTold(c, start, script);
    RunFromSnoc(c, Init(c, start), script, e);
  }

  function ReadLeadsTo(last: Answer, read: ReadAnswer): Pc {
    match read
    case AskAgain => Top
    case SignedOut => Done(SignedOutMidMove)
    case StopAsking => Done(HandedBack(last))
    case NoEvidence => MoveCheck(last)
  }

  /**
   * In every run, the wait for a move ends with the answer it waits on: exactly from the moment its first answer sets,
   * or at the 523rd progress read, or when a read says to stop. Another read leads on to a request or to the next wait.
   */
  lemma MoveDecides(c: Caller, start: int, script: seq<Env>, e: Env)
    ensures var s, t := Run(c, start, script), Run(c, start, script + [e]);
      match s.pc
      case MoveCheck(last) =>
        && LastHeard(s.log) == Some(last)
        && First(s.log, 0, Moves).Some?
        && t.pc == if e.now < MoveGivesUp(s.log) then MovePaused(last) else Done(HandedBack(last))
      case MovePaused(last) =>
        && LastHeard(s.log) == Some(last)
        && t.pc == if e.aborted then Done(Cancelled)
                   else if ReadsSent(s.log) < 522 then MoveReading(last) else Done(HandedBack(last))
      case MoveReading(last) =>
        && LastHeard(s.log) == Some(last)
        && t.pc == if e.aborted then Done(Cancelled)
                   else ReadLeadsTo(last, e.read)
      case _ => true
  {
    hide First, Last, InMove, GivesUp, RunFrom, Answers, ReadsSent, Cap, Migration, Resumption, LastHeard, OnAnswer;
    EveryRunIsTold(c, start, script);
    RunFromSnoc(c, Init(c, start), script, e);
    MoveHidesTheWake(Run(c, start, script).log);
  }

  // --- The moment, spelled out --------------------------------------------------------------------------------------

  // With no launch and no preparation since the last move, one answer alone sets the moment.
  lemma GivesUpPlainly(log: seq<Event>, start: int)
    requires Launch(log).None? && Preparation(log).None?
    ensures var migration, resumption, anchor := Migration(log), Resumption(log), Anchor(log);
      && (migration.None? && anchor.None? ==> GivesUp(log, start) == start + 215_000)
      && (migration.Some? && resumption.None? && anchor.None? ==>
            GivesUp(log, start) == log[migration.value].at + 600_000)
      && (resumption.Some? && anchor.None? ==> GivesUp(log, start) == log[resumption.value].at + 215_000)
      && (anchor.Some? && (migration.None? || migration.value < anchor.value)
          && (resumption.None? || resumption.value <= anchor.value) ==>
            GivesUp(log, start) == log[anchor.value].at + 215_000)
  {
    hide First, Last, SinceMove;
    assert Resumption(log).Some? ==> Migration(log).Some? && Migration(log).value < Resumption(log).value;
  }

  // A launch that nothing has set back keeps the wake going for ten minutes of its own.
  lemma LaunchIsGranted(log: seq<Event>, start: int)
    requires Launch(log).Some? && (Reset(log).Some? ==> Reset(log).value <= Launch(log).value)
    ensures GivesUp(log, start) >= log[Launch(log).value].at + 600_000
  {
  }

  const MIGRATING := Answer(false, SandboxStarting, true, true, false, false, false, false)

  /** A migrating computer is waited for until ten minutes after its first such answer, whenever that came. */
  lemma MigratingWakeWaits(c: Caller, start: int, first: int, second: int)
    requires c.movingAnswer.None?
    ensures var ask := Env(start, false, MIGRATING, NoEvidence);
      var script := [ask] + [ask.(now := first)] + [ask.(now := first + 1_500)] + [ask.(now := second)];
      Run(c, start, script).pc == if second < first + 600_000 then Top else Done(HandedBack(MIGRATING))
  {
    var ask := Env(start, false, MIGRATING, NoEvidence);
    var s := Init(c, start);
    assert RunFrom(c, s, []) == s && [] + [ask] == [ask];
    RunFromSnoc(c, s, [], ask);
    RunFromSnoc(c, s, [ask], ask.(now := first));
    RunFromSnoc(c, s, [ask] + [ask.(now := first)], ask.(now := first + 1_500));
    RunFromSnoc(c, s, [ask] + [ask.(now := first)] + [ask.(now := first + 1_500)], ask.(now := second));
    hide RunFrom;
    MigratingExchange(c, s, ask, ask.(now := first));
    MigratingExchange(c, Step(c, Step(c, s, ask), ask.(now := first)), ask.(now := first + 1_500), ask.(now := second));
  }

  lemma MigratingExchange(c: Caller, s: Loop, e: Env, f: Env)
    requires s.pc.Top? && s.carried.None? && s.clocks.moveResumed && s.asks < s.clocks.maxIssues
        && f.answer == MIGRATING
    requires !e.aborted && !f.aborted
    ensures var t, k := Step(c, Step(c, s, e), f), s.clocks;
      && t.clocks.deadline == (if k.migrationStartedAt.Some? then k.deadline else f.now + 600_000)
      && t.clocks.migrationStartedAt.Some? && t.clocks.moveResumed && t.carried.None?
      && t.asks == s.asks + 1 && (k.migrationStartedAt.None? ==> t.clocks.maxIssues == s.asks + 402)
      && t.pc == if f.now < t.clocks.deadline then Top else Done(HandedBack(MIGRATING))
  {
    assert Noted(s.clocks, s.asks + 1, MIGRATING, f.now) == NoteMigration(s.clocks, s.asks + 1, MIGRATING, f.now);
  }
}
