/** What becomes of the answers that actors are given: a task that was finalized has the status and the
    reason of an answer that the upstream gave to its winner, and a batched row the due time that the
    batch index answered when it joined. */
module ProtocolAnswers {
  import opened Wrappers
  import opened TaskStore
  import opened Protocol
  import opened ProtocolHistory

  /** What an answer of the upstream, to a submission or to a probe, says about the end of a task: its
      status, the reason of a failure, and the upstream's id if it comes with the answer. */
  datatype Verdict = Ends(to: Status, reason: string, got: Option<string>) | GoesOn

  function VerdictOf(c: Choice): Verdict {
    match c
    case Replied(Rejected(reason)) => Ends(Failure, reason, None)
    case Replied(NoId) => Ends(Failure, "upstream response missing task id", None)
    case Replied(Accepted(id, m)) => if m.Some? && Terminal(m.value) then Ends(m.value, "", Some(id)) else GoesOn
    case Probed(m) => if m.Some? && Terminal(m.value) then Ends(m.value, "", None) else GoesOn
    case _ => GoesOn
  }

  /** In `past` the actor was given an answer with this verdict. */
  ghost predicate Told(past: seq<Event>, a: ActorId, v: Verdict) {
    exists c :: Run(a, c) in past && VerdictOf(c) == v
  }

  /** In `past` an actor of the task was answered by the batch index with this deadline. */
  ghost predicate JoinedWith(s: State, past: seq<Event>, t: TaskId, due: int) {
    exists a :: a in s.actors && s.actors[a].task == t && Run(a, Joined(due)) in past
  }

  // ---- one step ----

  /** The verdict that an actor carries to the CAS is the answer that it was given. */
  predicate CarriesAnswer(pc: Pc, c: Choice, e: Effect) {
    && (e.next.Finalize? && e.next.f == CasTerminal ==>
          VerdictOf(c) == Ends(e.next.to, e.next.reason, e.next.got))
    && (e.next.Probe? && e.next.p == CasActive ==> c == Probed(Some(e.next.status)))
    && (e.next.Create? && e.next.c == PatchDue ==> c == Joined(e.next.due))
  }

  /** A win leaves the status and the reason that its kind demands. */
  predicate WinsAs(pc: Pc, e: Effect) {
    e.win.Some? ==>
      && e.write.Some?
      && match e.win.value
         case ByFinalize =>
           pc.Finalize? && pc.f == CasTerminal && e.write.value.status == pc.to && e.write.value.failReason == pc.reason
           && (pc.got.Some? ==> e.write.value.upstreamTaskId == pc.got)
         case ByCancel => e.write.value.status == Canceled && e.write.value.failReason == "canceled by user"
         case ByEnqueueFailure => e.write.value.status == Failure
  }

  /** Due times come from the join of the row's own request, or with a further attempt. */
  predicate DueMoves(s: State, t: TaskId, pc: Pc, e: Effect) {
    && (e.write.Some? && t in s.rows ==>
          || (e.write.value.batchDueAt == s.rows[t].batchDueAt && e.write.value.requeueAttempts == s.rows[t].requeueAttempts)
          || e.write.value.requeueAttempts > 0
          || (pc.Create? && pc.c == PatchDue && e.write.value.batchDueAt == pc.due))
    && (e.write.Some? && t !in s.rows ==> e.write.value.batchDueAt == 0)
    && (e.ack ==> pc.Create? && NeedsRow(pc))
    && (e.next.Create? && NeedsRow(e.next) ==> pc.Create? && (NeedsRow(pc) || t !in s.rows))
  }

  predicate StepTells(s: State, t: TaskId, pc: Pc, c: Choice, e: Effect) {
    CarriesAnswer(pc, c, e) && WinsAs(pc, e) && DueMoves(s, t, pc, e)
  }

  lemma CreateTells(cfg: Config, s: State, t: TaskId, pc: Pc, c: Choice)
    requires pc.Create? && Able(s, t, pc, c)
    ensures StepTells(s, t, pc, c, CreateStep(cfg, s, t, pc, c))
  {
  }

  lemma ReleaseTells(cfg: Config, s: State, t: TaskId, pc: Pc, c: Choice)
    requires pc.Release? && Able(s, t, pc, c)
    ensures StepTells(s, t, pc, c, ReleaseStep(cfg, s, t, pc, c))
  {
  }

  lemma OthersTell(cfg: Config, s: State, t: TaskId, pc: Pc, c: Choice)
    requires !pc.Create? && !pc.Release? && Able(s, t, pc, c)
    ensures StepTells(s, t, pc, c, Step(cfg, s, t, pc, c))
  {
    match pc
    case Return(_, _) => assert StepTells(s, t, pc, c, ReturnStep(s, t, pc, c));
    case Cancel(_) => assert StepTells(s, t, pc, c, CancelStep(s, t, pc, c));
    case Submit(_, _, _) => assert StepTells(s, t, pc, c, SubmitStep(s, t, pc, c));
    case Probe(_, _) => assert StepTells(s, t, pc, c, ProbeStep(s, t, pc, c));
    case Finalize(_, _, _, _) => assert StepTells(s, t, pc, c, FinalizeStep(s, t, pc, c));
  }

  lemma StepTellsTrue(cfg: Config, s: State, t: TaskId, pc: Pc, c: Choice)
    requires Able(s, t, pc, c)
    ensures StepTells(s, t, pc, c, Step(cfg, s, t, pc, c))
  {
    match pc
    case Create(_, _, _) => CreateTells(cfg, s, t, pc, c);
    case Release(_, _) => ReleaseTells(cfg, s, t, pc, c);
    case _ => OthersTell(cfg, s, t, pc, c);
  }

  // ---- the end of a task ----

  ghost predicate CarriersOk(s: State, past: seq<Event>) {
    forall a | a in s.actors ::
      var pc := s.actors[a].pc;
      && (pc.Finalize? && pc.f == CasTerminal ==> Told(past, a, Ends(pc.to, pc.reason, pc.got)))
      && (pc.Probe? && pc.p == CasActive ==> Run(a, Probed(Some(pc.status))) in past)
      && (pc.Create? && pc.c == PatchDue ==> Run(a, Joined(pc.due)) in past)
  }

  /** How a task that was won has ended. */
  ghost predicate EndedAs(past: seq<Event>, w: Win, r: Row) {
    match w.kind
    case ByFinalize => exists got :: Told(past, w.actor, Ends(r.status, r.failReason, got))
    case ByCancel => r.status == Canceled && r.failReason == "canceled by user"
    case ByEnqueueFailure => r.status == Failure
  }

  ghost predicate WonOk(s: State, past: seq<Event>) {
    forall t | t in s.wins :: t in s.rows && Terminal(s.rows[t].status) && EndedAs(past, s.wins[t], s.rows[t])
  }

  lemma ApplyKeepsCarriers(s: State, a: ActorId, c: Choice, e: Effect, past: seq<Event>)
    requires CarriersOk(s, past) && a in s.actors && CarriesAnswer(s.actors[a].pc, c, e)
    ensures CarriersOk(Apply(s, a, s.actors[a].task, e), past + [Run(a, c)])
  {
    var s' := Apply(s, a, s.actors[a].task, e);
    forall b | b in s'.actors
      ensures var pc := s'.actors[b].pc;
              && (pc.Finalize? && pc.f == CasTerminal ==> Told(past + [Run(a, c)], b, Ends(pc.to, pc.reason, pc.got)))
              && (pc.Probe? && pc.p == CasActive ==> Run(b, Probed(Some(pc.status))) in past + [Run(a, c)])
              && (pc.Create? && pc.c == PatchDue ==> Run(b, Joined(pc.due)) in past + [Run(a, c)])
    {
      if b == a {
        assert Run(a, c) in past + [Run(a, c)];
      } else if s.actors[b].pc.Finalize? && s.actors[b].pc.f == CasTerminal {
        ToldStays(past, Run(a, c), b, Ends(s.actors[b].pc.to, s.actors[b].pc.reason, s.actors[b].pc.got));
      }
    }
  }

  lemma ToldStays(past: seq<Event>, e: Event, a: ActorId, v: Verdict)
    requires Told(past, a, v)
    ensures Told(past + [e], a, v)
  {
    var c :| Run(a, c) in past && VerdictOf(c) == v;
    assert Run(a, c) in past + [e];
  }

  lemma EndStays(past: seq<Event>, e: Event, w: Win, r: Row, r': Row)
    requires EndedAs(past, w, r) && r'.status == r.status && r'.failReason == r.failReason
    ensures EndedAs(past + [e], w, r')
  {
    if w.kind == ByFinalize {
      var got :| Told(past, w.actor, Ends(r.status, r.failReason, got));
      ToldStays(past, e, w.actor, Ends(r.status, r.failReason, got));
    }
  }

  lemma RunKeepsWon(cfg: Config, s: State, a: ActorId, c: Choice, past: seq<Event>)
    requires History(cfg, s) && Enabled(cfg, s, Run(a, c)) && WonOk(s, past) && CarriersOk(s, past)
    ensures WonOk(Next(cfg, s, Run(a, c)), past + [Run(a, c)])
  {
    var t, pc := s.actors[a].task, s.actors[a].pc;
    var e := StepOf(cfg, s, a, c);
    var s' := Next(cfg, s, Run(a, c));
    StepTellsTrue(cfg, s, t, pc, c);
    StepLocal(cfg, s, t, pc, c);
    RunKeepsHistory(cfg, s, a, c);
    forall u | u in s'.wins
      ensures u in s'.rows && Terminal(s'.rows[u].status) && EndedAs(past + [Run(a, c)], s'.wins[u], s'.rows[u])
    {
      if u in s.wins && !(u == t && e.win.Some?) {
        assert Evolves(s.rows[u], s'.rows[u]);
        EndStays(past, Run(a, c), s.wins[u], s.rows[u], s'.rows[u]);
      } else if e.win == Some(ByFinalize) {
        ToldStays(past, Run(a, c), a, Ends(pc.to, pc.reason, pc.got));
        assert EndedAs(past + [Run(a, c)], Win(a, ByFinalize), s'.rows[t]);
      }
    }
  }

  lemma OtherEventsKeepAnswers(cfg: Config, s: State, e: Event, past: seq<Event>)
    requires Enabled(cfg, s, e) && !e.Run? && WonOk(s, past) && CarriersOk(s, past)
    ensures WonOk(Next(cfg, s, e), past + [e]) && CarriersOk(Next(cfg, s, e), past + [e])
  {
    var s' := Next(cfg, s, e);
    forall u | u in s'.wins
      ensures EndedAs(past + [e], s'.wins[u], s'.rows[u])
    { EndStays(past, e, s.wins[u], s.rows[u], s.rows[u]); }
    forall b | b in s'.actors
      ensures var pc := s'.actors[b].pc;
              && (pc.Finalize? && pc.f == CasTerminal ==> Told(past + [e], b, Ends(pc.to, pc.reason, pc.got)))
              && (pc.Probe? && pc.p == CasActive ==> Run(b, Probed(Some(pc.status))) in past + [e])
              && (pc.Create? && pc.c == PatchDue ==> Run(b, Joined(pc.due)) in past + [e])
    {
      if b in s.actors && s.actors[b].pc.Finalize? && s.actors[b].pc.f == CasTerminal {
        ToldStays(past, e, b, Ends(s.actors[b].pc.to, s.actors[b].pc.reason, s.actors[b].pc.got));
      }
    }
  }

  lemma NextKeepsAnswers(cfg: Config, s: State, e: Event, past: seq<Event>)
    requires History(cfg, s) && WonOk(s, past) && CarriersOk(s, past) && Enabled(cfg, s, e)
    ensures WonOk(Next(cfg, s, e), past + [e]) && CarriersOk(Next(cfg, s, e), past + [e])
  {
    if e.Run? {
      RunKeepsWon(cfg, s, e.actor, e.choice, past);
      StepTellsTrue(cfg, s, s.actors[e.actor].task, s.actors[e.actor].pc, e.choice);
      ApplyKeepsCarriers(s, e.actor, e.choice, StepOf(cfg, s, e.actor, e.choice), past);
    } else {
      OtherEventsKeepAnswers(cfg, s, e, past);
    }
  }

  lemma {:induction false} AnswersAlways(cfg: Config, s: State, past: seq<Event>, es: seq<Event>)
    requires History(cfg, s) && WonOk(s, past) && CarriersOk(s, past) && Runs(cfg, s, es)
    ensures WonOk(Exec(cfg, s, es), past + es) && CarriersOk(Exec(cfg, s, es), past + es)
    decreases |es|
  {
    if es == [] {
      assert past + es == past;
    } else {
      NextKeepsAnswers(cfg, s, es[0], past);
      NextKeepsHistory(cfg, s, es[0]);
      AnswersAlways(cfg, Next(cfg, s, es[0]), past + [es[0]], es[1..]);
      assert past + [es[0]] + es[1..] == past + es;
    }
  }

  lemma CarriersInRuns(cfg: Config, s0: State, es: seq<Event>)
    requires Initial(cfg, s0) && Runs(cfg, s0, es)
    ensures CarriersOk(Exec(cfg, s0, es), es)
  {
    InitialHistory(cfg, s0);
    AnswersAlways(cfg, s0, [], es);
    assert [] + es == es;
  }

  /** A task that ended in a run ended as somebody was told: finalized, with the status and the reason of an
      answer that the upstream gave to its winner, a submission or a probe; canceled by the user; or
      FAILURE after a failed publication. */
  lemma EndsAsAnswered(cfg: Config, s0: State, es: seq<Event>, t: TaskId)
    requires Initial(cfg, s0) && Runs(cfg, s0, es) && t in Exec(cfg, s0, es).wins
    ensures var s := Exec(cfg, s0, es); t in s.rows && EndedAs(es, s.wins[t], s.rows[t])
  {
    InitialHistory(cfg, s0);
    AnswersAlways(cfg, s0, [], es);
    assert [] + es == es;
  }

  lemma CasWrites(cfg: Config, s: State, a: ActorId)
    requires Enabled(cfg, s, Run(a, Ok)) && s.actors[a].pc.Finalize? && s.actors[a].pc.f == CasTerminal
    ensures var t, pc := s.actors[a].task, s.actors[a].pc;
            var r' := Next(cfg, s, Run(a, Ok)).rows[t];
            if s.rows[t].status in ACTIVE
            then r'.status == pc.to && r'.failReason == pc.reason && (pc.got.Some? ==> r'.upstreamTaskId == pc.got)
            else r' == s.rows[t]
  {
  }

  /** In the moment of a finalizing win the row takes status, reason and, if it came with the answer, the
      upstream's id of an answer that the winner was given. */
  lemma WinRecordsTheAnswer(cfg: Config, s0: State, es: seq<Event>, a: ActorId)
    requires Initial(cfg, s0) && Runs(cfg, s0, es) && Enabled(cfg, Exec(cfg, s0, es), Run(a, Ok))
    requires var s := Exec(cfg, s0, es); s.actors[a].pc.Finalize? && s.actors[a].pc.f == CasTerminal
    ensures var s := Exec(cfg, s0, es); var t, pc := s.actors[a].task, s.actors[a].pc;
            var r' := Next(cfg, s, Run(a, Ok)).rows[t];
            && Told(es, a, Ends(pc.to, pc.reason, pc.got))
            && if s.rows[t].status in ACTIVE
               then r'.status == pc.to && r'.failReason == pc.reason && (pc.got.Some? ==> r'.upstreamTaskId == pc.got)
               else r' == s.rows[t]
  {
    CarriersInRuns(cfg, s0, es);
    CasWrites(cfg, Exec(cfg, s0, es), a);
  }

  /** What a statement of a probe writes. */
  predicate ProbeWrites(s: State, t: TaskId, pc: Pc, c: Choice, e: Effect)
    requires pc.Probe?
  {
    if pc.p == CasActive && c == Ok && t in s.rows && s.rows[t].status in ACTIVE
    then e.write.Some? && e.write.value.status == pc.status
    else if pc.p == PatchStatus && c == Ok && t in s.rows
    then e.write == Some(s.rows[t].(updatedAt := s.now))
    else e.write == None
  }

  lemma ProbeStepWrites(s: State, t: TaskId, pc: Pc, c: Choice)
    requires pc.Probe? && Able(s, t, pc, c)
    ensures ProbeWrites(s, t, pc, c, ProbeStep(s, t, pc, c))
  {
  }

  /** A probe changes no status but by its answer: the statement that moves an active row moves it to the
      status that the probe was answered with, another one touches the time stamp only, and the others
      write nothing. */
  lemma ProbeAdvancesAsAnswered(cfg: Config, s0: State, es: seq<Event>, a: ActorId, c: Choice)
    requires Initial(cfg, s0) && Runs(cfg, s0, es) && Enabled(cfg, Exec(cfg, s0, es), Run(a, c))
    requires Exec(cfg, s0, es).actors[a].pc.Probe?
    ensures var s := Exec(cfg, s0, es); var t, pc := s.actors[a].task, s.actors[a].pc;
            && ProbeWrites(s, t, pc, c, StepOf(cfg, s, a, c))
            && (pc.p == CasActive ==> Run(a, Probed(Some(pc.status))) in es)
  {
    CarriersInRuns(cfg, s0, es);
    var s := Exec(cfg, s0, es);
    ProbeStepWrites(s, s.actors[a].task, s.actors[a].pc, c);
  }

  // ---- the due time of a batched row ----

  /** Rows made in the run: their due time, and who may answer for them. */
  ghost predicate DuesOk(olds: set<TaskId>, s: State, past: seq<Event>) {
    && (forall t | t in s.rows && t !in olds ::
          s.rows[t].requeueAttempts == 0 && s.rows[t].batchDueAt != 0 ==> JoinedWith(s, past, t, s.rows[t].batchDueAt))
    && (forall a | a in s.actors && s.actors[a].pc.Create? && NeedsRow(s.actors[a].pc) :: s.actors[a].task !in olds)
    && (forall t | t in s.answered :: t !in olds)
  }

  lemma JoinedStays(s: State, s': State, past: seq<Event>, e: Event, t: TaskId, due: int)
    requires JoinedWith(s, past, t, due)
    requires forall a | a in s.actors :: a in s'.actors && s'.actors[a].task == s.actors[a].task
    ensures JoinedWith(s', past + [e], t, due)
  {
    var a :| a in s.actors && s.actors[a].task == t && Run(a, Joined(due)) in past;
    assert Run(a, Joined(due)) in past + [e];
  }

  lemma ApplyKeepsDues(olds: set<TaskId>, s: State, a: ActorId, c: Choice, e: Effect, past: seq<Event>)
    requires DuesOk(olds, s, past) && CarriersOk(s, past) && a in s.actors && olds <= s.rows.Keys
    requires DueMoves(s, s.actors[a].task, s.actors[a].pc, e)
    ensures DuesOk(olds, Apply(s, a, s.actors[a].task, e), past + [Run(a, c)])
  {
    var t, pc := s.actors[a].task, s.actors[a].pc;
    var s' := Apply(s, a, t, e);
    forall u | u in s'.rows && u !in olds && s'.rows[u].requeueAttempts == 0 && s'.rows[u].batchDueAt != 0
      ensures JoinedWith(s', past + [Run(a, c)], u, s'.rows[u].batchDueAt)
    {
      if u in s.rows && s.rows[u].requeueAttempts == 0 && s.rows[u].batchDueAt == s'.rows[u].batchDueAt {
        JoinedStays(s, s', past, Run(a, c), u, s.rows[u].batchDueAt);
      } else {
        assert u == t && Run(a, Joined(pc.due)) in past + [Run(a, c)];
        assert s'.actors[a].task == t;
      }
    }
  }

  lemma OtherEventsKeepDues(cfg: Config, olds: set<TaskId>, s: State, e: Event, past: seq<Event>)
    requires DuesOk(olds, s, past) && Enabled(cfg, s, e) && !e.Run?
    ensures DuesOk(olds, Next(cfg, s, e), past + [e])
  {
    var s' := Next(cfg, s, e);
    forall u | u in s'.rows && u !in olds && s'.rows[u].requeueAttempts == 0 && s'.rows[u].batchDueAt != 0
      ensures JoinedWith(s', past + [e], u, s'.rows[u].batchDueAt)
    { JoinedStays(s, s', past, e, u, s.rows[u].batchDueAt); }
  }

  lemma {:induction false} DuesAlways(cfg: Config, olds: set<TaskId>, s: State, past: seq<Event>, es: seq<Event>)
    requires History(cfg, s) && WonOk(s, past) && CarriersOk(s, past)
    requires DuesOk(olds, s, past) && olds <= s.rows.Keys && Runs(cfg, s, es)
    ensures DuesOk(olds, Exec(cfg, s, es), past + es)
    decreases |es|
  {
    if es == [] {
      assert past + es == past;
    } else {
      var e := es[0];
      if e.Run? {
        StepTellsTrue(cfg, s, s.actors[e.actor].task, s.actors[e.actor].pc, e.choice);
        ApplyKeepsDues(olds, s, e.actor, e.choice, StepOf(cfg, s, e.actor, e.choice), past);
      } else {
        OtherEventsKeepDues(cfg, olds, s, e, past);
      }
      NextKeepsAnswers(cfg, s, e, past);
      NextKeepsHistory(cfg, s, e);
      DuesAlways(cfg, olds, Next(cfg, s, e), past + [e], es[1..]);
      assert past + [e] + es[1..] == past + es;
    }
  }

  /** The due time of a batched row whose own request was answered, and which nobody has put off since, is
      the deadline that the batch index answered to the join of that request. */
  lemma DueIsTheJoins(cfg: Config, s0: State, es: seq<Event>, t: TaskId)
    requires Initial(cfg, s0) && Runs(cfg, s0, es) && t in Exec(cfg, s0, es).answered
    ensures var s := Exec(cfg, s0, es);
            && t in s.rows
            && (s.rows[t].batchState != NoBatch && s.rows[t].requeueAttempts == 0 ==>
                  JoinedWith(s, es, t, s.rows[t].batchDueAt))
  {
    InitialHistory(cfg, s0);
    HistoryAlways(cfg, s0, es);
    DuesAlways(cfg, s0.rows.Keys, s0, [], es);
    assert [] + es == es;
  }
}
