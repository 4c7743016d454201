/** What holds in every run of the protocol, without any hypothesis on it: rows only evolve in the
    ways of `Evolves`, a task reaches a terminal status at most once, it is logged and called back at
    most once and only by the right winner, and no acknowledged batched task is lost from the view of
    the rescue query. */
module ProtocolHistory {
  import opened Wrappers
  import opened TaskStore
  import opened RateLimit
  import opened Protocol

  // ---- what an actor's program counter says about its row ----

  /** From `get_batch_meta` to its return, release_batched_task works on a batched row. */
  predicate WorksOnBatched(pc: Pc) {
    match pc
    case Create(at, _, _) => at == Join || at == PatchDue || at == Answer
    case Release(at, _) => at != Meta && at != Unstick
    case Return(_, caller) => caller == FromRecheck || caller == FromPublish
    case _ => false
  }

  /** These statements come after the task was seen, or made, terminal. */
  predicate AfterTerminal(pc: Pc) {
    match pc
    case Return(_, caller) => caller != FromPublish
    case Cancel(at) => at == LogCanceled
    case Finalize(at, _, _, _) => at != CasTerminal
    case _ => false
  }

  predicate PcOk(rows: map<TaskId, Row>, t: TaskId, pc: Pc) {
    && (NeedsRow(pc) ==>
          && t in rows
          && (WorksOnBatched(pc) ==> rows[t].batchState != NoBatch)
          && (AfterTerminal(pc) ==> Terminal(rows[t].status))
          && (pc.Create? ==> rows[t].token == pc.spec.token
                             && (rows[t].batchState != NoBatch <==> pc.spec.batched)
                             && (pc.c == Answer ==> rows[t].batchDueAt > 0)))
    && (pc.Create? ==>
          && (pc.c == Acquire || pc.c == Enqueue || pc.c == UndoFresh || pc.c == UndoCreated ==> !pc.spec.batched)
          && (pc.c == Join || pc.c == PatchDue || pc.c == Answer ==> pc.spec.batched)
          && (pc.c == PatchDue ==> pc.due > 0))
    && (pc.Finalize? && pc.f == CasTerminal ==> Terminal(pc.to))
    && (pc.Probe? && pc.p == CasActive ==> !Terminal(pc.status) && pc.status != Submitted)
  }

  ghost predicate PcsOk(s: State) {
    forall a | a in s.actors :: PcOk(s.rows, s.actors[a].task, s.actors[a].pc)
  }

  /** Rows are never deleted and only evolve. */
  ghost predicate RowsEvolve(rows: map<TaskId, Row>, rows': map<TaskId, Row>) {
    forall t | t in rows :: t in rows' && Evolves(rows[t], rows'[t])
  }

  // ---- the winner of a terminal status ----

  /** The winner of a task has still to log it / to call back. */
  predicate BeforeLog(pc: Pc) { pc == Cancel(LogCanceled) || (pc.Finalize? && pc.f == LogFinal) }
  predicate BeforeCallback(pc: Pc) {
    (pc.Finalize? && pc.f != CasTerminal) || (pc.Return? && pc.caller == FromFinalize)
  }
  /** Only the winner of a task ever stands at these statements. */
  predicate OnlyWinner(pc: Pc) {
    BeforeLog(pc) || BeforeCallback(pc) || (pc.Return? && pc.caller == FromCancel)
  }

  predicate WinnerOk(s: State, t: TaskId)
    requires t in s.wins
  {
    var w := s.wins[t];
    && t in s.rows && Terminal(s.rows[t].status)
    && w.actor in s.actors && s.actors[w.actor].task == t
    && var pc := s.actors[w.actor].pc;
    && (OnlyWinner(pc) ==> w.kind == if BeforeCallback(pc) then ByFinalize else ByCancel)
    && Seen(s, t).won == 1
    && Seen(s, t).logged <= (if BeforeLog(pc) || w.kind == ByEnqueueFailure then 0 else 1)
    && Seen(s, t).notified <= (if BeforeCallback(pc) then 0 else 1)
    && (Seen(s, t).notified > 0 ==> w.kind == ByFinalize && s.rows[t].callback)
  }

  ghost predicate WinsOk(s: State) {
    && (forall t | t in s.wins :: WinnerOk(s, t))
    && (forall t :: t !in s.wins ==> Seen(s, t).won == Seen(s, t).logged == Seen(s, t).notified == 0)
    && OnlyTheWinner(s)
  }

  ghost predicate OnlyTheWinner(s: State) {
    forall a | a in s.actors :: OnlyWinner(s.actors[a].pc) ==>
      s.actors[a].task in s.wins && s.wins[s.actors[a].task].actor == a
  }

  /** A batched task whose own request was answered has a due time, and whatever was answered or may be
      replayed is in the table. */
  ghost predicate AckedOk(s: State) {
    && (forall t | t in s.answered :: t in s.rows && (s.rows[t].batchState != NoBatch ==> s.rows[t].batchDueAt > 0))
    && (forall t | t in s.acked :: t in s.rows)
    && (forall t | t in s.filled :: t in s.rows)
  }

  ghost predicate CountersCapped(cfg: Config, s: State) {
    forall tok :: Counter(s.conc, tok) <= cfg.limit
  }

  ghost predicate History(cfg: Config, s: State) {
    s.now >= 0 && PcsOk(s) && WinsOk(s) && AckedOk(s) && CountersCapped(cfg, s)
  }

  // ---- one step, locally ----

  /** The row and the next statement, after any step of an actor at `pc`. */
  predicate LocalRow(cfg: Config, s: State, t: TaskId, pc: Pc, e: Effect) {
    && (t in s.rows && e.write.Some? ==> Evolves(s.rows[t], e.write.value))
    && PcOk(if e.write.Some? then s.rows[t := e.write.value] else s.rows, t, e.next)
    && (e.ack ==> t in s.rows && (s.rows[t].batchState != NoBatch ==> s.rows[t].batchDueAt > 0))
    && (e.fill ==> t in s.rows)
    && (e.slot.Inc? ==> Counter(s.conc, e.slot.tok) < cfg.limit)
  }

  /** A win turns an active row terminal; only a winner comes to log and to call back, each once. */
  predicate LocalWin(s: State, t: TaskId, pc: Pc, e: Effect) {
    && (e.win.Some? ==> t in s.rows && !Terminal(s.rows[t].status) && !OnlyWinner(pc)
                        && e.write.Some? && Terminal(e.write.value.status))
    && (e.write.Some? && Terminal(e.write.value.status) && t in s.rows && !Terminal(s.rows[t].status) ==> e.win.Some?)
    && (OnlyWinner(e.next) ==> OnlyWinner(pc) || e.win.Some?)
    && (e.win.Some? && OnlyWinner(e.next) ==> e.win.value == if BeforeCallback(e.next) then ByFinalize else ByCancel)
    && (e.win == Some(ByEnqueueFailure) ==> !OnlyWinner(e.next))
    && (OnlyWinner(pc) && OnlyWinner(e.next) ==> (BeforeCallback(pc) <==> BeforeCallback(e.next)))
    && (BeforeLog(e.next) ==> e.win.Some?)
    && (e.mark == Some(Logged) ==> BeforeLog(pc))
    && (e.mark == Some(Notified) ==> pc.Finalize? && pc.f == Callback && e.next.Done? && t in s.rows && s.rows[t].callback)
  }

  predicate Local(cfg: Config, s: State, t: TaskId, pc: Pc, e: Effect) {
    LocalRow(cfg, s, t, pc, e) && LocalWin(s, t, pc, e)
  }

  lemma CreateLocal(cfg: Config, s: State, t: TaskId, pc: Pc, c: Choice)
    requires s.now >= 0 && pc.Create? && Able(s, t, pc, c) && PcOk(s.rows, t, pc)
    ensures Local(cfg, s, t, pc, CreateStep(cfg, s, t, pc, c))
  {
  }

  lemma ReleaseLocal(cfg: Config, s: State, t: TaskId, pc: Pc, c: Choice)
    requires s.now >= 0 && pc.Release? && Able(s, t, pc, c) && PcOk(s.rows, t, pc)
    ensures Local(cfg, s, t, pc, ReleaseStep(cfg, s, t, pc, c))
  {
    ReleaseLocalRow(cfg, s, t, pc, c);
    ReleaseLocalWin(cfg, s, t, pc, c);
  }

  lemma ReleaseLocalRow(cfg: Config, s: State, t: TaskId, pc: Pc, c: Choice)
    requires s.now >= 0 && pc.Release? && Able(s, t, pc, c) && PcOk(s.rows, t, pc)
    ensures LocalRow(cfg, s, t, pc, ReleaseStep(cfg, s, t, pc, c))
  {
  }

  lemma ReleaseLocalWin(cfg: Config, s: State, t: TaskId, pc: Pc, c: Choice)
    requires pc.Release? && Able(s, t, pc, c)
    ensures LocalWin(s, t, pc, ReleaseStep(cfg, s, t, pc, c))
  {
  }

  lemma ReturnLocal(cfg: Config, s: State, t: TaskId, pc: Pc, c: Choice)
    requires s.now >= 0 && pc.Return? && Able(s, t, pc, c) && PcOk(s.rows, t, pc)
    ensures Local(cfg, s, t, pc, ReturnStep(s, t, pc, c))
  {
  }

  lemma CancelLocal(cfg: Config, s: State, t: TaskId, pc: Pc, c: Choice)
    requires s.now >= 0 && pc.Cancel? && Able(s, t, pc, c) && PcOk(s.rows, t, pc)
    ensures Local(cfg, s, t, pc, CancelStep(s, t, pc, c))
  {
  }

  lemma SubmitLocal(cfg: Config, s: State, t: TaskId, pc: Pc, c: Choice)
    requires s.now >= 0 && pc.Submit? && Able(s, t, pc, c) && PcOk(s.rows, t, pc)
    ensures Local(cfg, s, t, pc, SubmitStep(s, t, pc, c))
  {
  }

  lemma ProbeLocal(cfg: Config, s: State, t: TaskId, pc: Pc, c: Choice)
    requires s.now >= 0 && pc.Probe? && Able(s, t, pc, c) && PcOk(s.rows, t, pc)
    ensures Local(cfg, s, t, pc, ProbeStep(s, t, pc, c))
  {
  }

  lemma FinalizeLocal(cfg: Config, s: State, t: TaskId, pc: Pc, c: Choice)
    requires s.now >= 0 && pc.Finalize? && Able(s, t, pc, c) && PcOk(s.rows, t, pc)
    ensures Local(cfg, s, t, pc, FinalizeStep(s, t, pc, c))
  {
  }

  lemma StepLocal(cfg: Config, s: State, t: TaskId, pc: Pc, c: Choice)
    requires s.now >= 0 && Able(s, t, pc, c) && PcOk(s.rows, t, pc)
    ensures Local(cfg, s, t, pc, Step(cfg, s, t, pc, c))
  {
    match pc
    case Create(_, _, _) => CreateLocal(cfg, s, t, pc, c);
    case Release(_, _) => ReleaseLocal(cfg, s, t, pc, c);
    case Return(_, _) => ReturnLocal(cfg, s, t, pc, c);
    case Cancel(_) => CancelLocal(cfg, s, t, pc, c);
    case Submit(_, _, _) => SubmitLocal(cfg, s, t, pc, c);
    case Probe(_, _) => ProbeLocal(cfg, s, t, pc, c);
    case Finalize(_, _, _, _) => FinalizeLocal(cfg, s, t, pc, c);
  }

  // ---- one step, globally ----

  /** What a program counter says about its row survives whatever happens to the row. */
  lemma PcOkStable(rows: map<TaskId, Row>, rows': map<TaskId, Row>, t: TaskId, pc: Pc)
    requires PcOk(rows, t, pc) && (t in rows ==> t in rows' && Evolves(rows[t], rows'[t]))
    ensures PcOk(rows', t, pc)
  {
  }

  lemma ApplyRows(cfg: Config, s: State, a: ActorId, e: Effect)
    requires PcsOk(s) && a in s.actors && LocalRow(cfg, s, s.actors[a].task, s.actors[a].pc, e)
    ensures var s' := Apply(s, a, s.actors[a].task, e);
            RowsEvolve(s.rows, s'.rows) && PcsOk(s')
  {
    var s' := Apply(s, a, s.actors[a].task, e);
    forall b | b in s'.actors ensures PcOk(s'.rows, s'.actors[b].task, s'.actors[b].pc) {
      if b != a { PcOkStable(s.rows, s'.rows, s.actors[b].task, s.actors[b].pc); }
    }
  }

  lemma ApplyWins(s: State, a: ActorId, e: Effect)
    requires WinsOk(s) && a in s.actors && LocalWin(s, s.actors[a].task, s.actors[a].pc, e)
    requires var s' := Apply(s, a, s.actors[a].task, e); RowsEvolve(s.rows, s'.rows)
    ensures WinsOk(Apply(s, a, s.actors[a].task, e))
  {
    var s' := Apply(s, a, s.actors[a].task, e);
    ApplyOnlyTheWinner(s, a, e);
    forall u | u in s'.wins ensures WinnerOk(s', u) {
      if u == s.actors[a].task { ApplyWinner(s, a, e); } else { ApplyOtherWinner(s, a, e, u); }
    }
    forall u | u !in s'.wins
      ensures Seen(s', u).won == Seen(s', u).logged == Seen(s', u).notified == 0
    {
      assert u !in s.wins;
    }
  }

  lemma ApplyOnlyTheWinner(s: State, a: ActorId, e: Effect)
    requires WinsOk(s) && a in s.actors && LocalWin(s, s.actors[a].task, s.actors[a].pc, e)
    ensures OnlyTheWinner(Apply(s, a, s.actors[a].task, e))
  {
  }

  lemma ApplyOtherWinner(s: State, a: ActorId, e: Effect, u: TaskId)
    requires a in s.actors && u in s.wins && u != s.actors[a].task && WinnerOk(s, u)
    ensures WinnerOk(Apply(s, a, s.actors[a].task, e), u)
  {
  }

  /** The winner's record of the task that the step works on. */
  lemma ApplyWinner(s: State, a: ActorId, e: Effect)
    requires WinsOk(s) && a in s.actors && LocalWin(s, s.actors[a].task, s.actors[a].pc, e)
    requires var s' := Apply(s, a, s.actors[a].task, e); RowsEvolve(s.rows, s'.rows)
    ensures var t := s.actors[a].task; var s' := Apply(s, a, t, e);
            t in s'.wins ==> WinnerOk(s', t)
  {
    var t := s.actors[a].task;
    if t in s.wins {
      assert WinnerOk(s, t);
      assert e.win == None;
    }
  }

  lemma ApplyRest(cfg: Config, s: State, a: ActorId, e: Effect)
    requires a in s.actors && AckedOk(s) && CountersCapped(cfg, s)
    requires LocalRow(cfg, s, s.actors[a].task, s.actors[a].pc, e)
    ensures var s' := Apply(s, a, s.actors[a].task, e); AckedOk(s') && CountersCapped(cfg, s')
  {
    var s' := Apply(s, a, s.actors[a].task, e);
    forall tok ensures Counter(s'.conc, tok) <= cfg.limit {
      assert Counter(s.conc, tok) <= cfg.limit;
    }
  }

  lemma ApplyHistory(cfg: Config, s: State, a: ActorId, e: Effect)
    requires History(cfg, s) && a in s.actors && Local(cfg, s, s.actors[a].task, s.actors[a].pc, e)
    ensures var s' := Apply(s, a, s.actors[a].task, e); History(cfg, s') && RowsEvolve(s.rows, s'.rows)
  {
    ApplyRows(cfg, s, a, e);
    ApplyWins(s, a, e);
    ApplyRest(cfg, s, a, e);
  }

  lemma RunKeepsHistory(cfg: Config, s: State, a: ActorId, c: Choice)
    requires History(cfg, s) && Enabled(cfg, s, Run(a, c))
    ensures var s' := Next(cfg, s, Run(a, c)); History(cfg, s') && RowsEvolve(s.rows, s'.rows)
  {
    assert PcOk(s.rows, s.actors[a].task, s.actors[a].pc);
    StepLocal(cfg, s, s.actors[a].task, s.actors[a].pc, c);
    ApplyHistory(cfg, s, a, StepOf(cfg, s, a, c));
  }

  /** Events that touch neither rows nor history, and at most add a harmless actor. */
  lemma HistoryFrame(s: State, s': State)
    requires PcsOk(s) && WinsOk(s) && s'.rows == s.rows && s'.wins == s.wins && s'.seen == s.seen
    requires forall a | a in s.actors ::
      a in s'.actors && s'.actors[a].task == s.actors[a].task && s'.actors[a].pc == s.actors[a].pc
    requires forall a | a in s'.actors && a !in s.actors ::
      PcOk(s.rows, s'.actors[a].task, s'.actors[a].pc) && !OnlyWinner(s'.actors[a].pc)
    ensures PcsOk(s') && WinsOk(s')
  {
    forall t | t in s.wins ensures WinnerOk(s', t) { assert WinnerOk(s, t); }
    forall t | t !in s.wins
      ensures Seen(s', t).won == Seen(s', t).logged == Seen(s', t).notified == 0
    { assert Seen(s', t) == Seen(s, t); }
  }

  lemma OtherEventsKeepHistory(cfg: Config, s: State, e: Event)
    requires History(cfg, s) && Enabled(cfg, s, e) && !e.Run?
    ensures History(cfg, Next(cfg, s, e)) && Next(cfg, s, e).rows == s.rows
  {
    HistoryFrame(s, Next(cfg, s, e));
  }

  /** Every event keeps the invariant, and rows only evolve. */
  lemma NextKeepsHistory(cfg: Config, s: State, e: Event)
    requires History(cfg, s) && Enabled(cfg, s, e)
    ensures var s' := Next(cfg, s, e); History(cfg, s') && RowsEvolve(s.rows, s'.rows)
  {
    if e.Run? { RunKeepsHistory(cfg, s, e.actor, e.choice); }
    else { OtherEventsKeepHistory(cfg, s, e); }
  }

  // ---- whole runs ----

  lemma {:induction false} ExecSplit(cfg: Config, s: State, pre: seq<Event>, post: seq<Event>)
    requires Runs(cfg, s, pre + post)
    ensures Runs(cfg, s, pre) && Runs(cfg, Exec(cfg, s, pre), post)
    ensures Exec(cfg, s, pre + post) == Exec(cfg, Exec(cfg, s, pre), post)
    decreases |pre|
  {
    if pre == [] {
      assert pre + post == post;
    } else {
      assert (pre + post)[0] == pre[0] && (pre + post)[1..] == pre[1..] + post;
      ExecSplit(cfg, Next(cfg, s, pre[0]), pre[1..], post);
    }
  }

  lemma InitialHistory(cfg: Config, s: State)
    requires Initial(cfg, s)
    ensures History(cfg, s)
  {
  }

  lemma EvolvesTransitive(rows: map<TaskId, Row>, mid: map<TaskId, Row>, rows': map<TaskId, Row>)
    requires RowsEvolve(rows, mid) && RowsEvolve(mid, rows')
    ensures RowsEvolve(rows, rows')
  {
  }

  /** History only grows. */
  ghost predicate Grows(s: State, s': State) {
    && RowsEvolve(s.rows, s'.rows) && s.acked <= s'.acked && s.answered <= s'.answered && s.filled <= s'.filled
    && (forall t | t in s.wins :: t in s'.wins && s'.wins[t] == s.wins[t])
  }

  lemma ApplyGrows(cfg: Config, s: State, a: ActorId, t: TaskId, pc: Pc, e: Effect)
    requires LocalRow(cfg, s, t, pc, e) && (e.win.Some? ==> t !in s.wins)
    ensures Grows(s, Apply(s, a, t, e))
  {
  }

  lemma NextGrows(cfg: Config, s: State, e: Event)
    requires History(cfg, s) && Enabled(cfg, s, e)
    ensures Grows(s, Next(cfg, s, e))
  {
    NextKeepsHistory(cfg, s, e);
    if e.Run? {
      StepLocal(cfg, s, s.actors[e.actor].task, s.actors[e.actor].pc, e.choice);
      var t := s.actors[e.actor].task;
      if t in s.wins { assert WinnerOk(s, t); }
      ApplyGrows(cfg, s, e.actor, t, s.actors[e.actor].pc, StepOf(cfg, s, e.actor, e.choice));
    }
  }

  /** Every reachable state satisfies the invariant, and is an evolution of every earlier one. */
  lemma {:induction false} HistoryAlways(cfg: Config, s: State, es: seq<Event>)
    requires History(cfg, s) && Runs(cfg, s, es)
    ensures History(cfg, Exec(cfg, s, es)) && Grows(s, Exec(cfg, s, es))
    decreases |es|
  {
    if es != [] {
      var s1 := Next(cfg, s, es[0]);
      NextKeepsHistory(cfg, s, es[0]);
      NextGrows(cfg, s, es[0]);
      HistoryAlways(cfg, s1, es[1..]);
      EvolvesTransitive(s.rows, s1.rows, Exec(cfg, s, es).rows);
    }
  }

  /** Terminal is absorbing: over any run, whatever happens after a task became terminal leaves its
      status, progress, finish time and fail reason as they are. */
  lemma TerminalIsAbsorbing(cfg: Config, s: State, pre: seq<Event>, post: seq<Event>, t: TaskId)
    requires Initial(cfg, s) && Runs(cfg, s, pre + post)
    requires Runs(cfg, s, pre) && t in Exec(cfg, s, pre).rows && Terminal(Exec(cfg, s, pre).rows[t].status)
    ensures var r := Exec(cfg, s, pre).rows[t];
            && t in Exec(cfg, s, pre + post).rows
            && var r' := Exec(cfg, s, pre + post).rows[t];
            && r'.status == r.status && r'.progress == r.progress
            && r'.finishTime == r.finishTime && r'.failReason == r.failReason
  {
    InitialHistory(cfg, s);
    ExecSplit(cfg, s, pre, post);
    HistoryAlways(cfg, s, pre);
    HistoryAlways(cfg, Exec(cfg, s, pre), post);
  }

  /** Terminal exactly once: over any run a task is won at most once, logged at most once and called
      back at most once; it is called back only if the winner was _finalize_queue and the task has a
      callback address; the enqueue-failure path is never logged. */
  lemma TerminalOnce(cfg: Config, s: State, es: seq<Event>, t: TaskId)
    requires Initial(cfg, s) && Runs(cfg, s, es)
    ensures var s' := Exec(cfg, s, es); var n := Seen(s', t);
            && n.won <= 1 && n.logged <= n.won && n.notified <= n.won
            && (n.won == 1 <==> t in s'.wins)
            && (n.won == 1 ==> t in s'.rows && Terminal(s'.rows[t].status))
            && (n.notified == 1 ==> s'.wins[t].kind == ByFinalize && s'.rows[t].callback)
            && (n.logged == 1 ==> s'.wins[t].kind != ByEnqueueFailure)
  {
    InitialHistory(cfg, s);
    HistoryAlways(cfg, s, es);
    var s' := Exec(cfg, s, es);
    if t in s'.wins { assert WinnerOk(s', t); }
  }

  /** The count `won` counts what it should: a row turns from active to terminal in exactly the steps
      that raise it, and then by one. */
  lemma WinsAreTransitions(cfg: Config, s: State, e: Event, t: TaskId)
    requires History(cfg, s) && Enabled(cfg, s, e) && t in s.rows
    ensures var s' := Next(cfg, s, e);
            && t in s'.rows
            && (Seen(s', t).won == Seen(s, t).won
                  + if !Terminal(s.rows[t].status) && Terminal(s'.rows[t].status) then 1 else 0)
  {
    NextKeepsHistory(cfg, s, e);
    if e.Run? {
      StepLocal(cfg, s, s.actors[e.actor].task, s.actors[e.actor].pc, e.choice);
      WinCounts(s, e.actor, StepOf(cfg, s, e.actor, e.choice), t);
    }
  }

  lemma WinCounts(s: State, a: ActorId, e: Effect, t: TaskId)
    requires a in s.actors && t in s.rows && LocalWin(s, s.actors[a].task, s.actors[a].pc, e)
    ensures var s' := Apply(s, a, s.actors[a].task, e);
            Seen(s', t).won == Seen(s, t).won
              + if !Terminal(s.rows[t].status) && Terminal(s'.rows[t].status) then 1 else 0
  {
  }

  /** A submit answer that arrives after the task became terminal: the statement that would queue the
      task writes nothing and goes on to the next one, or gives up, and that one records the upstream id
      in the row and nothing else.  Others may do anything before, between and after the two
      (TerminalIsAbsorbing: the task stays terminal). */
  lemma LateAnswerOnlyRecords(cfg: Config, s: State, a: ActorId, c: Choice)
    requires Enabled(cfg, s, Run(a, c))
    requires s.actors[a].pc.Submit? && s.actors[a].pc.w in {CasQueued, Orphan}
    requires s.actors[a].task in s.rows && Terminal(s.rows[s.actors[a].task].status)
    ensures var t, pc := s.actors[a].task, s.actors[a].pc; var s' := Next(cfg, s, Run(a, c));
            && s'.conc == s.conc && s'.wins == s.wins && s'.submits == s.submits && s'.acked == s.acked
            && (pc.w == CasQueued ==>
                  && s'.rows == s.rows
                  && s'.actors[a].pc == if c == Ok then Submit(Orphan, pc.manual, pc.upstream) else Done)
            && (pc.w == Orphan ==>
                  && s'.actors[a].pc == Done
                  && s'.rows == if c == Ok
                       then s.rows[t := s.rows[t].(upstreamTaskId := Some(pc.upstream), updatedAt := s.now)] else s.rows)
  {
  }

  /** The counter of a token never exceeds the limit. */
  lemma CounterNeverExceedsLimit(cfg: Config, s: State, es: seq<Event>, tok: Token)
    requires Initial(cfg, s) && Runs(cfg, s, es)
    ensures Counter(Exec(cfg, s, es).conc, tok) <= cfg.limit
  {
    InitialHistory(cfg, s);
    HistoryAlways(cfg, s, es);
  }

  /** No silent stall, for the request itself: a batched task whose own request was answered with 202 is,
      in every later state of any run -- triggers lost, messages dropped, actors crashed at any point --
      past SUBMITTED, or released, or selected by the rescue query from its due time or its last write
      on, whichever is later, plus the grace.  (For replayed answers see module ProtocolPromise.) */
  lemma NoSilentStall(cfg: Config, s: State, pre: seq<Event>, post: seq<Event>, t: TaskId, later: int)
    requires Initial(cfg, s) && Runs(cfg, s, pre + post)
    requires Runs(cfg, s, pre) && t in Exec(cfg, s, pre).answered
    ensures t in Exec(cfg, s, pre + post).rows
    ensures var r := Exec(cfg, s, pre + post).rows[t];
            || r.batchState == NoBatch
            || r.status != Submitted
            || r.batchState == Released
            || later < r.batchDueAt + cfg.grace || later < r.updatedAt + cfg.grace
            || StaleBatch(r, later, cfg.grace)
  {
    InitialHistory(cfg, s);
    ExecSplit(cfg, s, pre, post);
    HistoryAlways(cfg, s, pre);
    HistoryAlways(cfg, Exec(cfg, s, pre), post);
  }
}
