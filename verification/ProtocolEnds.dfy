/** What follows the end of a task: nothing is sent any more, and its slot comes back. */
module ProtocolEnds {
  import opened Wrappers
  import opened TaskStore
  import opened Protocol
  import opened ProtocolHistory
  import opened ProtocolRows

  // ---- nothing is sent any more ----

  predicate AtPublish(pc: Pc) { pc.Release? && pc.r == Publish }

  /** The task has ended, and nobody who saw it active is about to publish it. */
  ghost predicate Withdrawn(s: State, t: TaskId) {
    && t in s.rows && Terminal(s.rows[t].status)
    && (forall a | a in s.actors && s.actors[a].task == t :: !AtPublish(s.actors[a].pc))
  }

  lemma OnlyActiveIsPublished(cfg: Config, s: State, t: TaskId, pc: Pc, c: Choice)
    requires Able(s, t, pc, c) && t in s.rows && Terminal(s.rows[t].status) && !AtPublish(pc)
    ensures var e := Step(cfg, s, t, pc, c); !AtPublish(e.next) && e.mark != Some(Published)
  {
    if pc.Release? {
      var e := ReleaseStep(cfg, s, t, pc, c);
      assert !AtPublish(e.next) && e.mark != Some(Published);
    }
  }

  lemma NextKeepsWithdrawn(cfg: Config, s: State, e: Event, t: TaskId)
    requires Withdrawn(s, t) && Enabled(cfg, s, e)
    ensures Withdrawn(Next(cfg, s, e), t) && Seen(Next(cfg, s, e), t).published == Seen(s, t).published
  {
    NextIsSteady(cfg, s, e);
    if e.Run? && s.actors[e.actor].task == t {
      OnlyActiveIsPublished(cfg, s, t, s.actors[e.actor].pc, e.choice);
    }
  }

  /** Once a task has ended, canceled for instance, the release path publishes it no more, in any run:
      whoever had not yet checked again that it is active finds that it is not. */
  lemma {:induction false} EndedIsNotSent(cfg: Config, s: State, es: seq<Event>, t: TaskId)
    requires Withdrawn(s, t) && Runs(cfg, s, es)
    ensures Withdrawn(Exec(cfg, s, es), t) && Seen(Exec(cfg, s, es), t).published == Seen(s, t).published
    decreases |es|
  {
    if es != [] {
      NextKeepsWithdrawn(cfg, s, es[0], t);
      EndedIsNotSent(cfg, Next(cfg, s, es[0]), es[1..], t);
    }
  }

  // ---- its slot comes back ----

  /** The statements before which an actor owes the slot of an ended task. */
  predicate Owes(pc: Pc) {
    || pc == Cancel(LogCanceled)
    || (pc.Finalize? && pc.f == LogFinal)
    || (pc.Return? && pc.b == ClaimMask)
    || (pc.Release? && pc.r == Recheck)
  }

  predicate HeldByEnded(r: Row) { Terminal(r.status) && Held(r) }

  ghost predicate Owed(s: State, t: TaskId) {
    exists a :: a in s.actors && s.actors[a].alive && s.actors[a].task == t && Owes(s.actors[a].pc)
  }

  /** The slot of every ended task is about to be given back by somebody. */
  ghost predicate NoneForgotten(s: State) {
    forall t | t in s.rows && HeldByEnded(s.rows[t]) :: Owed(s, t)
  }

  /** Crashes, and the two calls whose raise leaves the slot where it is. */
  predicate Forgets(s: State, e: Event) {
    e.Crash?
    || (e.Run? && e.choice == Raise && e.actor in s.actors
        && var pc := s.actors[e.actor].pc; (pc.Return? && pc.b == ClaimMask) || (pc.Release? && pc.r == Recheck))
  }

  /** A step that leaves the row of an ended task holding a slot owes it then, unless it was so before and
      the step had not owed it. */
  predicate PaysUp(s: State, t: TaskId, pc: Pc, e: Effect) {
    && (e.write.Some? && HeldByEnded(e.write.value) && !(t in s.rows && HeldByEnded(s.rows[t])) ==> Owes(e.next))
    && (Owes(pc) && t in s.rows && HeldByEnded(Or(e.write, s.rows[t])) ==> Owes(e.next))
  }

  predicate Careful(pc: Pc, c: Choice) {
    c == Raise ==> !(pc.Return? && pc.b == ClaimMask) && !(pc.Release? && pc.r == Recheck)
  }

  lemma PaysOfRelease(cfg: Config, s: State, t: TaskId, pc: Pc, c: Choice)
    requires pc.Release? && Able(s, t, pc, c) && Careful(pc, c)
    ensures PaysUp(s, t, pc, ReleaseStep(cfg, s, t, pc, c))
  {
  }

  lemma PaysOfCreate(cfg: Config, s: State, t: TaskId, pc: Pc, c: Choice)
    requires pc.Create? && Able(s, t, pc, c)
    ensures PaysUp(s, t, pc, CreateStep(cfg, s, t, pc, c))
  {
  }

  lemma PaysOfOthers(cfg: Config, s: State, t: TaskId, pc: Pc, c: Choice)
    requires !pc.Release? && !pc.Create? && Able(s, t, pc, c) && PcOk(s.rows, t, pc) && Careful(pc, c)
    ensures PaysUp(s, t, pc, Step(cfg, s, t, pc, c))
  {
    match pc
    case Return(_, _) => assert PaysUp(s, t, pc, ReturnStep(s, t, pc, c));
    case Cancel(_) => assert PaysUp(s, t, pc, CancelStep(s, t, pc, c));
    case Submit(_, _, _) => assert PaysUp(s, t, pc, SubmitStep(s, t, pc, c));
    case Probe(_, _) => assert PaysUp(s, t, pc, ProbeStep(s, t, pc, c));
    case Finalize(_, _, _, _) => assert PaysUp(s, t, pc, FinalizeStep(s, t, pc, c));
  }

  lemma PaysOfStep(cfg: Config, s: State, t: TaskId, pc: Pc, c: Choice)
    requires Able(s, t, pc, c) && PcOk(s.rows, t, pc) && Careful(pc, c)
    ensures PaysUp(s, t, pc, Step(cfg, s, t, pc, c))
  {
    match pc
    case Create(_, _, _) => PaysOfCreate(cfg, s, t, pc, c);
    case Release(_, _) => PaysOfRelease(cfg, s, t, pc, c);
    case _ => PaysOfOthers(cfg, s, t, pc, c);
  }

  lemma ApplyForgetsNone(s: State, a: ActorId, e: Effect)
    requires NoneForgotten(s) && a in s.actors && PaysUp(s, s.actors[a].task, s.actors[a].pc, e)
    ensures NoneForgotten(Apply(s, a, s.actors[a].task, e))
  {
    var t := s.actors[a].task;
    var s' := Apply(s, a, t, e);
    forall u | u in s'.rows && HeldByEnded(s'.rows[u])
      ensures Owed(s', u)
    {
      if u in s.rows && HeldByEnded(s.rows[u]) {
        var b :| b in s.actors && s.actors[b].alive && s.actors[b].task == u && Owes(s.actors[b].pc);
        assert s'.actors[b].alive && s'.actors[b].task == u && Owes(s'.actors[b].pc);
      } else {
        assert u == t && s'.actors[a].alive && s'.actors[a].task == u && Owes(s'.actors[a].pc);
      }
    }
  }

  lemma NextForgetsNone(cfg: Config, s: State, e: Event)
    requires History(cfg, s) && NoneForgotten(s) && Enabled(cfg, s, e) && !Forgets(s, e)
    ensures NoneForgotten(Next(cfg, s, e))
  {
    if e.Run? {
      assert PcOk(s.rows, s.actors[e.actor].task, s.actors[e.actor].pc);
      PaysOfStep(cfg, s, s.actors[e.actor].task, s.actors[e.actor].pc, e.choice);
      ApplyForgetsNone(s, e.actor, StepOf(cfg, s, e.actor, e.choice));
    } else {
      var s' := Next(cfg, s, e);
      forall t | t in s'.rows && HeldByEnded(s'.rows[t])
        ensures Owed(s', t)
      {
        var b :| b in s.actors && s.actors[b].alive && s.actors[b].task == t && Owes(s.actors[b].pc);
        assert s'.actors[b] == s.actors[b];
      }
    }
  }

  ghost predicate NobodyForgets(cfg: Config, s: State, es: seq<Event>)
    requires Runs(cfg, s, es)
    decreases |es|
  { es != [] ==> !Forgets(s, es[0]) && NobodyForgets(cfg, Next(cfg, s, es[0]), es[1..]) }

  /** Ended tasks give their slots back: in a run without crashes, in which neither the claim of a mask nor
      the recheck of a releaser raises, the slot of an ended task is at every time owed by a living actor,
      so that an ended task on which nobody works holds none. */
  lemma {:induction false} EndedGiveBack(cfg: Config, s: State, es: seq<Event>)
    requires History(cfg, s) && NoneForgotten(s) && Runs(cfg, s, es) && NobodyForgets(cfg, s, es)
    ensures NoneForgotten(Exec(cfg, s, es))
    decreases |es|
  {
    if es != [] {
      NextForgetsNone(cfg, s, es[0]);
      NextKeepsHistory(cfg, s, es[0]);
      EndedGiveBack(cfg, Next(cfg, s, es[0]), es[1..]);
    }
  }

  /** ... in particular, from a start at which no ended task holds a slot, when nobody works on it. */
  lemma QuietRowsHoldNone(cfg: Config, s0: State, es: seq<Event>, t: TaskId)
    requires Initial(cfg, s0) && (forall u | u in s0.rows :: !HeldByEnded(s0.rows[u]))
    requires Runs(cfg, s0, es) && NobodyForgets(cfg, s0, es)
    requires var s := Exec(cfg, s0, es);
             && t in s.rows && Terminal(s.rows[t].status)
             && (forall a | a in s.actors && s.actors[a].task == t :: s.actors[a].pc == Done)
    ensures !Held(Exec(cfg, s0, es).rows[t])
  {
    InitialHistory(cfg, s0);
    EndedGiveBack(cfg, s0, es);
  }
}
