/** Exclusive release, publication at most once and the slot cover of submissions: the properties of the
    protocol that rest on two hypotheses about a run (`Disciplined`).  Module ProtocolSlots builds on
    them; module ProtocolRaces shows that neither can be dropped. */
module ProtocolRelease {
  import opened Wrappers
  import opened TaskStore
  import opened Protocol
  import opened ProtocolHistory

  // ---- the exclusive section ----

  /** From winning `claim_for_release` to the last write of the releaser on its row. */
  predicate InSection(pc: Pc) {
    match pc
    case Release(at, _) => at != Unstick && at != Meta && at != Claim
    case Return(_, caller) => caller == FromRecheck || caller == FromPublish
    case _ => false
  }

  /** The part of the section in which the row is (or is being put back) un-released. */
  predicate BeforeMask(pc: Pc) {
    pc.Release? && (pc.r == TakeSlot || pc.r == Mask || pc.r == DropSlot || pc.r == Unclaim || pc.r == Requeue)
  }

  /** What a live actor in the section knows of its row and of the history of its task. */
  predicate SectionRow(r: Row, n: Tally, pc: Pc) {
    match pc
    case Release(Requeue, _) => (r.batchState == Releasing || r.batchState == Waiting) && n.published == n.failed == 0
    case Release(Recheck, _) => r.batchState == Released && n.published == n.failed == 0
    case Release(Publish, _) => r.batchState == Released && n.published == n.failed == 0
    case Release(FailTask, _) => r.batchState == Released && !Held(r) && n.published == 0
    case Release(at, _) => InSection(pc) ==> r.batchState == Releasing && n.published == n.failed == 0
    case Return(at, caller) =>
      InSection(pc) ==>
        && r.batchState == Released && n.published == 0
        && (caller == FromPublish ==> n.failed > 0 && (at == Decrement ==> !Held(r)))
    case _ => true
  }

  /** What holds of every row: waiting rows hold no slot; an active row that was released, or was never
      batched, holds one unless its publication failed; one publication attempt at most, and only of a
      released row. */
  predicate RowOk(r: Row, n: Tally) {
    && (Held(r) ==> r.batchState == NoBatch || r.batchState == Released)
    && (!Terminal(r.status) && !Held(r) && (r.batchState == NoBatch || r.batchState == Released) ==> n.failed > 0)
    && n.published + n.failed <= 1
    && (n.published + n.failed > 0 ==> r.batchState == Released)
  }

  /** A submit message of the service, or a worker that took one, names a row of the immediate path
      or a batched row whose submission the release path published. */
  predicate Submittable(s: State, t: TaskId) {
    t in s.rows && (s.rows[t].batchState == NoBatch || Seen(s, t).published > 0)
  }

  ghost predicate Exclusive(s: State) {
    forall a, b | a in s.actors && b in s.actors && s.actors[a].alive && s.actors[b].alive
                  && InSection(s.actors[a].pc) && InSection(s.actors[b].pc)
                  && s.actors[a].task == s.actors[b].task :: a == b
  }

  ghost predicate SectionsOk(s: State) {
    forall a | a in s.actors && s.actors[a].alive && InSection(s.actors[a].pc) ::
      s.actors[a].task in s.rows
      && SectionRow(s.rows[s.actors[a].task], Seen(s, s.actors[a].task), s.actors[a].pc)
  }

  ghost predicate RowsOk(s: State) {
    && (forall t | t in s.rows :: RowOk(s.rows[t], Seen(s, t)))
    && (forall t | t !in s.rows :: Seen(s, t).published == Seen(s, t).failed == 0)
  }

  ghost predicate SubmitsOk(s: State) {
    && (forall t | t in s.submits :: Submittable(s, t))
    && (forall a | a in s.actors && s.actors[a].pc.Submit? && s.actors[a].pc.w == Gate && !s.actors[a].pc.manual ::
          Submittable(s, s.actors[a].task))
  }

  ghost predicate ReleaseInv(cfg: Config, s: State) {
    History(cfg, s) && Exclusive(s) && SectionsOk(s) && RowsOk(s) && SubmitsOk(s)
  }

  // ---- the two hypotheses ----

  /** A live actor works on `t` at one of these statements. */
  ghost predicate SomeoneAt(s: State, t: TaskId, at: Pc -> bool) {
    exists b | b in s.actors :: s.actors[b].alive && s.actors[b].task == t && at(s.actors[b].pc)
  }

  predicate AtRequeue(pc: Pc) { pc.Release? && pc.r == Requeue }

  /** H1: no releaser wins the claim of a task that another releaser has just un-claimed and is about
      to write back as requeued (the two statements of the source are not one). */
  ghost predicate ClaimsInTheGap(s: State, a: ActorId, c: Choice)
    requires a in s.actors
  {
    var t := s.actors[a].task;
    && s.actors[a].pc.Release? && s.actors[a].pc.r == Claim && c == Ok
    && t in s.rows && ClaimForRelease(s.rows[t], s.now).Some?
    && SomeoneAt(s, t, AtRequeue)
  }

  /** H2: the rescue does not un-claim a row whose releaser is still alive (its 120 s grace is meant to
      rule that out). */
  ghost predicate UnsticksTheLiving(s: State, a: ActorId, c: Choice)
    requires a in s.actors
  {
    var t := s.actors[a].task;
    && s.actors[a].pc.Release? && s.actors[a].pc.r == Unstick && c == Ok
    && t in s.rows && UnclaimForRelease(s.rows[t], s.now).Some?
    && SomeoneAt(s, t, BeforeMask)
  }

  ghost predicate Disciplined(s: State, e: Event) {
    e.Run? && e.actor in s.actors ==>
      !ClaimsInTheGap(s, e.actor, e.choice) && !UnsticksTheLiving(s, e.actor, e.choice)
  }

  ghost predicate DisciplinedRun(cfg: Config, s: State, es: seq<Event>)
    requires Runs(cfg, s, es)
    decreases |es|
  {
    es != [] ==> Disciplined(s, es[0]) && DisciplinedRun(cfg, Next(cfg, s, es[0]), es[1..])
  }

  // ---- one step, locally ----

  /** What a step does to its row, seen from the section.  `mine`: the actor is in the section;
      `free`: no live actor is. */
  predicate LocalSection(s: State, t: TaskId, pc: Pc, e: Effect) {
    var r' := if e.write.Some? then e.write.value else if t in s.rows then s.rows[t] else NewRow(0, false, false, 0);
    var n' := Count(Seen(s, t), e);
    && (t in s.rows || e.write.Some? ==> RowOk(r', n'))
    && (t !in s.rows && e.write == None ==> e.mark != Some(Published) && e.mark != Some(FailedPublish))
    && (InSection(e.next) ==> t in s.rows && SectionRow(r', n', e.next))
    && (InSection(e.next) ==> InSection(pc) || (pc.Release? && pc.r == Claim))
    && (e.submit ==> (t in s.rows && s.rows[t].batchState == NoBatch) || e.mark == Some(Published))
    && (e.mark == Some(Published) || e.mark == Some(FailedPublish) ==> pc.Release? && pc.r == Publish)
    && !(e.next.Submit? && e.next.w == Gate)
  }

  lemma SectionOfRelease(cfg: Config, s: State, t: TaskId, pc: Pc, c: Choice)
    requires pc.Release? && Able(s, t, pc, c) && PcOk(s.rows, t, pc)
    requires t in s.rows ==> RowOk(s.rows[t], Seen(s, t)) && (InSection(pc) ==> SectionRow(s.rows[t], Seen(s, t), pc))
    ensures LocalSection(s, t, pc, ReleaseStep(cfg, s, t, pc, c))
  {
  }

  lemma SectionOfReturn(cfg: Config, s: State, t: TaskId, pc: Pc, c: Choice)
    requires pc.Return? && Able(s, t, pc, c) && PcOk(s.rows, t, pc)
    requires RowOk(s.rows[t], Seen(s, t)) && (InSection(pc) ==> SectionRow(s.rows[t], Seen(s, t), pc))
    ensures LocalSection(s, t, pc, ReturnStep(s, t, pc, c))
  {
  }

  lemma SectionOfCreate(cfg: Config, s: State, t: TaskId, pc: Pc, c: Choice)
    requires pc.Create? && Able(s, t, pc, c) && PcOk(s.rows, t, pc)
    requires if t in s.rows then RowOk(s.rows[t], Seen(s, t)) else Seen(s, t).published == Seen(s, t).failed == 0
    ensures LocalSection(s, t, pc, CreateStep(cfg, s, t, pc, c))
  {
  }

  lemma SectionOfSubmit(cfg: Config, s: State, t: TaskId, pc: Pc, c: Choice)
    requires (pc.Submit? || pc.Probe?) && Able(s, t, pc, c)
    requires t in s.rows ==> RowOk(s.rows[t], Seen(s, t))
    ensures LocalSection(s, t, pc, Step(cfg, s, t, pc, c))
  {
  }

  lemma SectionOfFinalize(cfg: Config, s: State, t: TaskId, pc: Pc, c: Choice)
    requires (pc.Cancel? || pc.Finalize?) && Able(s, t, pc, c) && PcOk(s.rows, t, pc)
    requires t in s.rows ==> RowOk(s.rows[t], Seen(s, t))
    ensures LocalSection(s, t, pc, Step(cfg, s, t, pc, c))
  {
  }

  lemma SectionStep(cfg: Config, s: State, t: TaskId, pc: Pc, c: Choice)
    requires Able(s, t, pc, c) && PcOk(s.rows, t, pc)
    requires if t in s.rows then RowOk(s.rows[t], Seen(s, t)) else Seen(s, t).published == Seen(s, t).failed == 0
    requires t in s.rows && InSection(pc) ==> SectionRow(s.rows[t], Seen(s, t), pc)
    ensures LocalSection(s, t, pc, Step(cfg, s, t, pc, c))
  {
    match pc
    case Create(_, _, _) => SectionOfCreate(cfg, s, t, pc, c);
    case Release(_, _) => SectionOfRelease(cfg, s, t, pc, c);
    case Return(_, _) => SectionOfReturn(cfg, s, t, pc, c);
    case Submit(_, _, _) => SectionOfSubmit(cfg, s, t, pc, c);
    case Probe(_, _) => SectionOfSubmit(cfg, s, t, pc, c);
    case _ => SectionOfFinalize(cfg, s, t, pc, c);
  }

  /** A step from outside the section, other than a won claim, leaves what the section relies on: it
      may take the row back from releasing to waiting (the rescue) and may zero the mask. */
  predicate LocalForeign(s: State, t: TaskId, pc: Pc, c: Choice, e: Effect) {
    t in s.rows && e.write.Some? && !InSection(pc) && !(pc.Release? && pc.r == Claim) ==>
      && (e.write.value.batchState == s.rows[t].batchState
          || (pc.Release? && pc.r == Unstick && c == Ok
              && s.rows[t].batchState == Releasing && UnclaimForRelease(s.rows[t], s.now).Some?))
      && (Held(e.write.value) ==> Held(s.rows[t]))
  }

  lemma ForeignStep(cfg: Config, s: State, t: TaskId, pc: Pc, c: Choice)
    requires Able(s, t, pc, c)
    ensures LocalForeign(s, t, pc, c, Step(cfg, s, t, pc, c))
  {
    match pc
    case Release(_, _) => ForeignRelease(cfg, s, t, pc, c);
    case Return(_, _) => ForeignReturn(s, t, pc, c);
    case _ => ForeignOther(cfg, s, t, pc, c);
  }

  lemma ForeignRelease(cfg: Config, s: State, t: TaskId, pc: Pc, c: Choice)
    requires pc.Release? && Able(s, t, pc, c)
    ensures LocalForeign(s, t, pc, c, ReleaseStep(cfg, s, t, pc, c))
  {
  }

  lemma ForeignReturn(s: State, t: TaskId, pc: Pc, c: Choice)
    requires pc.Return? && Able(s, t, pc, c)
    ensures LocalForeign(s, t, pc, c, ReturnStep(s, t, pc, c))
  {
  }

  lemma ForeignOther(cfg: Config, s: State, t: TaskId, pc: Pc, c: Choice)
    requires !pc.Release? && !pc.Return? && Able(s, t, pc, c)
    ensures LocalForeign(s, t, pc, c, Step(cfg, s, t, pc, c))
  {
  }

  // ---- one step, globally ----

  /** Under the two hypotheses, whoever enters the section or writes `batch_state` from outside it
      finds no live actor inside that could mind. */
  lemma NobodyElseInside(cfg: Config, s: State, a: ActorId, c: Choice, b: ActorId)
    requires ReleaseInv(cfg, s) && Enabled(cfg, s, Run(a, c)) && Disciplined(s, Run(a, c))
    requires b in s.actors && b != a && s.actors[b].alive && s.actors[b].task == s.actors[a].task
    requires InSection(s.actors[b].pc)
    ensures !InSection(s.actors[a].pc)
    ensures var e := StepOf(cfg, s, a, c);
            s.actors[a].pc.Release? && s.actors[a].pc.r == Claim ==> e.write == None && e.next.Done?
    ensures (s.actors[a].pc.Release? && s.actors[a].pc.r == Unstick && c == Ok
             && UnclaimForRelease(s.rows[s.actors[a].task], s.now).Some?) ==> !BeforeMask(s.actors[b].pc)
  {
    var t, pc := s.actors[a].task, s.actors[a].pc;
    assert SectionRow(s.rows[t], Seen(s, t), s.actors[b].pc);
    assert RowOk(s.rows[t], Seen(s, t));
  }

  /** The step `e` of actor `a` leaves every other live actor of the section what it relies on. */
  ghost predicate Undisturbed(s: State, a: ActorId, e: Effect)
    requires a in s.actors
  {
    var t := s.actors[a].task;
    forall b | b in s.actors && b != a && s.actors[b].alive && s.actors[b].task == t && InSection(s.actors[b].pc) ::
      && t in s.rows && !InSection(e.next) && e.mark != Some(Published) && e.mark != Some(FailedPublish)
      && SectionRow(if e.write.Some? then e.write.value else s.rows[t], Seen(s, t), s.actors[b].pc)
  }

  lemma OthersUndisturbed(cfg: Config, s: State, a: ActorId, c: Choice)
    requires ReleaseInv(cfg, s) && Enabled(cfg, s, Run(a, c)) && Disciplined(s, Run(a, c))
    ensures Undisturbed(s, a, StepOf(cfg, s, a, c))
  {
    var t, pc, e := s.actors[a].task, s.actors[a].pc, StepOf(cfg, s, a, c);
    forall b | b in s.actors && b != a && s.actors[b].alive && s.actors[b].task == t && InSection(s.actors[b].pc)
      ensures t in s.rows && !InSection(e.next) && e.mark != Some(Published) && e.mark != Some(FailedPublish)
      ensures SectionRow(if e.write.Some? then e.write.value else s.rows[t], Seen(s, t), s.actors[b].pc)
    {
      NobodyElseInside(cfg, s, a, c, b);
      StepFacts(cfg, s, a, c);
      assert SectionRow(s.rows[t], Seen(s, t), s.actors[b].pc);
      if e.write.Some? {
        ForeignKeeps(s, t, pc, c, e, s.actors[b].pc);
      }
    }
  }

  lemma StepFacts(cfg: Config, s: State, a: ActorId, c: Choice)
    requires ReleaseInv(cfg, s) && Enabled(cfg, s, Run(a, c))
    ensures var t, pc, e := s.actors[a].task, s.actors[a].pc, StepOf(cfg, s, a, c);
            Local(cfg, s, t, pc, e) && LocalSection(s, t, pc, e) && LocalForeign(s, t, pc, c, e)
  {
    var t, pc := s.actors[a].task, s.actors[a].pc;
    assert PcOk(s.rows, t, pc);
    assert t in s.rows ==> RowOk(s.rows[t], Seen(s, t));
    StepLocal(cfg, s, t, pc, c);
    SectionStep(cfg, s, t, pc, c);
    ForeignStep(cfg, s, t, pc, c);
  }

  lemma ForeignKeeps(s: State, t: TaskId, pc: Pc, c: Choice, e: Effect, other: Pc)
    requires t in s.rows && e.write.Some? && LocalForeign(s, t, pc, c, e)
    requires !InSection(pc) && !(pc.Release? && pc.r == Claim)
    requires InSection(other) && SectionRow(s.rows[t], Seen(s, t), other)
    requires (pc.Release? && pc.r == Unstick && c == Ok && UnclaimForRelease(s.rows[t], s.now).Some?) ==> !BeforeMask(other)
    ensures SectionRow(e.write.value, Seen(s, t), other)
  {
  }

  lemma ApplySections(s: State, a: ActorId, e: Effect)
    requires Exclusive(s) && SectionsOk(s) && a in s.actors && s.actors[a].alive
    requires LocalSection(s, s.actors[a].task, s.actors[a].pc, e) && Undisturbed(s, a, e)
    ensures var s' := Apply(s, a, s.actors[a].task, e); Exclusive(s') && SectionsOk(s')
  {
    var t := s.actors[a].task;
    var s' := Apply(s, a, t, e);
    forall b | b in s'.actors && s'.actors[b].alive && InSection(s'.actors[b].pc)
      ensures s'.actors[b].task in s'.rows
              && SectionRow(s'.rows[s'.actors[b].task], Seen(s', s'.actors[b].task), s'.actors[b].pc)
    {
      if s'.actors[b].task != t {
        assert Seen(s', s'.actors[b].task) == Seen(s, s'.actors[b].task);
      } else if b != a {
        SameMarks(s, t, e, s.actors[b].pc);
      }
    }
  }

  /** The section looks at no counts but those of publications. */
  lemma SameMarks(s: State, t: TaskId, e: Effect, pc: Pc)
    requires e.mark != Some(Published) && e.mark != Some(FailedPublish)
    ensures forall r: Row :: SectionRow(r, Seen(s, t), pc) ==> SectionRow(r, Count(Seen(s, t), e), pc)
  {
  }

  lemma ApplyRowsOk(s: State, a: ActorId, e: Effect)
    requires RowsOk(s) && a in s.actors && LocalSection(s, s.actors[a].task, s.actors[a].pc, e)
    ensures RowsOk(Apply(s, a, s.actors[a].task, e))
  {
    var t := s.actors[a].task;
    var s' := Apply(s, a, t, e);
    forall u | u in s'.rows ensures RowOk(s'.rows[u], Seen(s', u)) {
      if u != t { assert Seen(s', u) == Seen(s, u); }
    }
    forall u | u !in s'.rows ensures Seen(s', u).published == Seen(s', u).failed == 0 {
      if u != t { assert Seen(s', u) == Seen(s, u); }
    }
  }

  lemma ApplySubmits(s: State, a: ActorId, e: Effect)
    requires SubmitsOk(s) && a in s.actors && LocalSection(s, s.actors[a].task, s.actors[a].pc, e)
    requires var s' := Apply(s, a, s.actors[a].task, e); RowsEvolve(s.rows, s'.rows)
    ensures SubmitsOk(Apply(s, a, s.actors[a].task, e))
  {
    var t := s.actors[a].task;
    var s' := Apply(s, a, t, e);
    forall u | Submittable(s, u) ensures Submittable(s', u) {
      if u != t { assert Seen(s', u) == Seen(s, u); }
    }
  }

  /** Every event of a disciplined run keeps the invariant. */
  lemma NextKeepsRelease(cfg: Config, s: State, e: Event)
    requires ReleaseInv(cfg, s) && Enabled(cfg, s, e) && Disciplined(s, e)
    ensures ReleaseInv(cfg, Next(cfg, s, e))
  {
    NextKeepsHistory(cfg, s, e);
    if e.Run? {
      StepFacts(cfg, s, e.actor, e.choice);
      OthersUndisturbed(cfg, s, e.actor, e.choice);
      var eff := StepOf(cfg, s, e.actor, e.choice);
      ApplySections(s, e.actor, eff);
      ApplyRowsOk(s, e.actor, eff);
      ApplySubmits(s, e.actor, eff);
    } else {
      OtherEventsKeepRelease(cfg, s, e);
    }
  }

  /** Events that touch neither rows nor history, add no submit message, wake nobody up and at most
      add an actor outside the section. */
  lemma ReleaseFrame(s: State, s': State)
    requires Exclusive(s) && SectionsOk(s) && RowsOk(s) && SubmitsOk(s)
    requires s'.rows == s.rows && s'.seen == s.seen && s'.submits <= s.submits
    requires forall a | a in s.actors ::
      a in s'.actors && s'.actors[a].task == s.actors[a].task && s'.actors[a].pc == s.actors[a].pc
      && (s'.actors[a].alive ==> s.actors[a].alive)
    requires forall a | a in s'.actors && a !in s.actors ::
      !InSection(s'.actors[a].pc)
      && (s'.actors[a].pc.Submit? && !s'.actors[a].pc.manual ==> Submittable(s, s'.actors[a].task))
    ensures Exclusive(s') && SectionsOk(s') && RowsOk(s') && SubmitsOk(s')
  {
    forall t ensures Seen(s', t) == Seen(s, t) {}
    forall t | Submittable(s, t) ensures Submittable(s', t) {}
  }

  lemma OtherEventsKeepRelease(cfg: Config, s: State, e: Event)
    requires ReleaseInv(cfg, s) && Enabled(cfg, s, e) && !e.Run?
    ensures var s' := Next(cfg, s, e); Exclusive(s') && SectionsOk(s') && RowsOk(s') && SubmitsOk(s')
  {
    ReleaseFrame(s, Next(cfg, s, e));
  }

  // ---- whole runs: exclusive release ----

  lemma InitialRelease(cfg: Config, s: State)
    requires Initial(cfg, s)
    ensures ReleaseInv(cfg, s)
  {
    InitialHistory(cfg, s);
  }

  lemma {:induction false} ReleaseAlways(cfg: Config, s: State, es: seq<Event>)
    requires ReleaseInv(cfg, s) && Runs(cfg, s, es) && DisciplinedRun(cfg, s, es)
    ensures ReleaseInv(cfg, Exec(cfg, s, es))
    decreases |es|
  {
    if es != [] {
      NextKeepsRelease(cfg, s, es[0]);
      ReleaseAlways(cfg, Next(cfg, s, es[0]), es[1..]);
    }
  }

  /** Exclusive release: in every state of a disciplined run, whatever triggers find a task and
      whoever crashes, at most one live actor per task is inside the release section. */
  lemma ExclusiveRelease(cfg: Config, s: State, es: seq<Event>, a: ActorId, b: ActorId)
    requires Initial(cfg, s) && Runs(cfg, s, es) && DisciplinedRun(cfg, s, es)
    requires var x := Exec(cfg, s, es).actors;
             && a in x && b in x && x[a].alive && x[b].alive && x[a].task == x[b].task
             && InSection(x[a].pc) && InSection(x[b].pc)
    ensures a == b
  {
    InitialRelease(cfg, s);
    ReleaseAlways(cfg, s, es);
  }

  /** The release path publishes a task's submission at most once over the whole run, only when it is
      released, and not after a publication that raised. */
  lemma PublishedAtMostOnce(cfg: Config, s: State, es: seq<Event>, t: TaskId)
    requires Initial(cfg, s) && Runs(cfg, s, es) && DisciplinedRun(cfg, s, es)
    ensures var s' := Exec(cfg, s, es); var n := Seen(s', t);
            && n.published + n.failed <= 1
            && (n.published + n.failed == 1 ==> t in s'.rows && s'.rows[t].batchState == Released)
  {
    InitialRelease(cfg, s);
    ReleaseAlways(cfg, s, es);
    var s' := Exec(cfg, s, es);
    if t in s'.rows { assert RowOk(s'.rows[t], Seen(s', t)); }
  }

  // ---- whole runs: submissions are covered by a slot ----

  /** Actor `a`, a worker at its gate, starts an upstream submission now. */
  predicate StartsSubmission(cfg: Config, s: State, a: ActorId) {
    && Enabled(cfg, s, Run(a, Ok)) && s.actors[a].pc.Submit? && s.actors[a].pc.w == Gate
    && StepOf(cfg, s, a, Ok).next.Submit? && StepOf(cfg, s, a, Ok).next.w == Post
  }

  /** Slot cover: every submission that a worker starts on a message of the service is for a row that
      holds a slot. */
  lemma SubmissionsHoldASlot(cfg: Config, s: State, es: seq<Event>, a: ActorId)
    requires Initial(cfg, s) && Runs(cfg, s, es) && DisciplinedRun(cfg, s, es)
    requires StartsSubmission(cfg, Exec(cfg, s, es), a) && !Exec(cfg, s, es).actors[a].pc.manual
    ensures var s' := Exec(cfg, s, es); s'.actors[a].task in s'.rows && Held(s'.rows[s'.actors[a].task])
  {
    InitialRelease(cfg, s);
    ReleaseAlways(cfg, s, es);
    var s' := Exec(cfg, s, es);
    var t := s'.actors[a].task;
    assert Submittable(s', t);
    assert RowOk(s'.rows[t], Seen(s', t));
  }

  /** Every active row that was released, or was never batched, holds its slot -- unless its release
      could not publish it. */
  lemma ActiveRowsHoldASlot(cfg: Config, s: State, es: seq<Event>, t: TaskId)
    requires Initial(cfg, s) && Runs(cfg, s, es) && DisciplinedRun(cfg, s, es)
    requires var s' := Exec(cfg, s, es);
             t in s'.rows && s'.rows[t].status in ACTIVE && !Held(s'.rows[t])
    ensures var s' := Exec(cfg, s, es); var b := s'.rows[t].batchState;
            b == Waiting || b == Requeued || b == Releasing || (b == Released && Seen(s', t).failed == 1)
  {
    InitialRelease(cfg, s);
    ReleaseAlways(cfg, s, es);
    assert RowOk(Exec(cfg, s, es).rows[t], Seen(Exec(cfg, s, es), t));
  }

  /** The gate on a message of /ops/requeue lets a row without a slot pass only if it is being released
      at this moment -- and then it has none -- or its release could not publish it. */
  lemma ManualSubmissions(cfg: Config, s: State, es: seq<Event>, a: ActorId)
    requires Initial(cfg, s) && Runs(cfg, s, es) && DisciplinedRun(cfg, s, es)
    requires StartsSubmission(cfg, Exec(cfg, s, es), a)
    ensures var s' := Exec(cfg, s, es); var t := s'.actors[a].task;
            && t in s'.rows
            && (s'.rows[t].batchState == Releasing ==> !Held(s'.rows[t]))
            && (!Held(s'.rows[t]) ==> s'.rows[t].batchState == Releasing || Seen(s', t).failed == 1)
  {
    InitialRelease(cfg, s);
    ReleaseAlways(cfg, s, es);
    var s' := Exec(cfg, s, es);
    var t := s'.actors[a].task;
    assert RowOk(s'.rows[t], Seen(s', t));
  }
}
