/** What a 202 is worth.  A replayed request is answered with 202 for a row that another request has
    created, and that one may fail after it has filled the idempotency key and before it has written
    `batch_due_at`: releasing the key spares a filled one.  So not every acknowledged batched task is in
    the sight of the rescue; which ones are, and stay, is said here exactly. */
module ProtocolPromise {
  import opened Wrappers
  import opened TaskStore
  import opened Protocol
  import opened ProtocolHistory

  /** Not stalled: past SUBMITTED, or released, or selected by the rescue query at some time. */
  ghost predicate Kept(cfg: Config, r: Row) {
    r.status != Submitted || r.batchState == Released || exists later :: StaleBatch(r, later, cfg.grace)
  }

  /** ... for good. */
  predicate Firm(r: Row) { r.status != Submitted || r.batchState == Released || r.batchDueAt > 0 }

  /** A batched row is not stalled if and only if it is firm or being released, and a firm one that has to
      be selected is so from its due time and last write plus the grace on. */
  lemma KeptExactly(cfg: Config, r: Row)
    requires r.batchState != NoBatch
    ensures Kept(cfg, r) <==> Firm(r) || r.batchState == Releasing
    ensures Firm(r) && r.status == Submitted && r.batchState != Released ==>
              forall later | later >= r.batchDueAt + cfg.grace && later >= Secs(r.updatedAt) + cfg.grace ::
                StaleBatch(r, later, cfg.grace)
  {
    var late := (if r.batchDueAt > Secs(r.updatedAt) then r.batchDueAt else Secs(r.updatedAt)) + cfg.grace;
    if Firm(r) || r.batchState == Releasing {
      assert r.status != Submitted || r.batchState == Released || StaleBatch(r, late, cfg.grace);
    }
  }

  // ---- firm rows stay firm ----

  predicate KeepsFirm(s: State, t: TaskId, e: Effect) {
    t in s.rows && Firm(s.rows[t]) && e.write.Some? ==> Firm(e.write.value)
  }

  lemma FirmRelease(cfg: Config, s: State, t: TaskId, pc: Pc, c: Choice)
    requires pc.Release? && s.now >= 0 && Able(s, t, pc, c)
    ensures KeepsFirm(s, t, ReleaseStep(cfg, s, t, pc, c))
  {
  }

  lemma FirmCreate(cfg: Config, s: State, t: TaskId, pc: Pc, c: Choice)
    requires pc.Create? && Able(s, t, pc, c) && PcOk(s.rows, t, pc)
    ensures KeepsFirm(s, t, CreateStep(cfg, s, t, pc, c))
  {
  }

  lemma FirmOthers(cfg: Config, s: State, t: TaskId, pc: Pc, c: Choice)
    requires !pc.Release? && !pc.Create? && Able(s, t, pc, c) && PcOk(s.rows, t, pc)
    ensures KeepsFirm(s, t, Step(cfg, s, t, pc, c))
  {
    match pc
    case Return(_, _) => assert KeepsFirm(s, t, ReturnStep(s, t, pc, c));
    case Cancel(_) => assert KeepsFirm(s, t, CancelStep(s, t, pc, c));
    case Submit(_, _, _) => assert KeepsFirm(s, t, SubmitStep(s, t, pc, c));
    case Probe(_, _) => assert KeepsFirm(s, t, ProbeStep(s, t, pc, c));
    case Finalize(_, _, _, _) => assert KeepsFirm(s, t, FinalizeStep(s, t, pc, c));
  }

  lemma FirmStep(cfg: Config, s: State, t: TaskId, pc: Pc, c: Choice)
    requires s.now >= 0 && Able(s, t, pc, c) && PcOk(s.rows, t, pc)
    ensures KeepsFirm(s, t, Step(cfg, s, t, pc, c))
  {
    match pc
    case Create(_, _, _) => FirmCreate(cfg, s, t, pc, c);
    case Release(_, _) => FirmRelease(cfg, s, t, pc, c);
    case _ => FirmOthers(cfg, s, t, pc, c);
  }

  lemma NextKeepsFirm(cfg: Config, s: State, e: Event, t: TaskId)
    requires History(cfg, s) && Enabled(cfg, s, e) && t in s.rows && Firm(s.rows[t])
    ensures t in Next(cfg, s, e).rows && Firm(Next(cfg, s, e).rows[t])
  {
    if e.Run? {
      assert PcOk(s.rows, s.actors[e.actor].task, s.actors[e.actor].pc);
      FirmStep(cfg, s, s.actors[e.actor].task, s.actors[e.actor].pc, e.choice);
    }
  }

  lemma {:induction false} FirmAlways(cfg: Config, s: State, es: seq<Event>, t: TaskId)
    requires History(cfg, s) && Runs(cfg, s, es) && t in s.rows && Firm(s.rows[t])
    ensures t in Exec(cfg, s, es).rows && Firm(Exec(cfg, s, es).rows[t])
    decreases |es|
  {
    if es != [] {
      NextKeepsFirm(cfg, s, es[0], t);
      NextKeepsHistory(cfg, s, es[0]);
      FirmAlways(cfg, Next(cfg, s, es[0]), es[1..], t);
    }
  }

  // ---- rows that are not ----

  /** Time passes until the rescue selects a row that is being released, and starts its job for it. */
  lemma RescueComes(cfg: Config, s: State, t: TaskId) returns (es: seq<Event>, a: ActorId)
    requires t in s.rows && s.rows[t].status == Submitted && s.rows[t].batchState == Releasing
    ensures Runs(cfg, s, es)
    ensures var s' := Exec(cfg, s, es);
            s'.rows == s.rows && a in s'.actors && s'.actors[a] == Actor(t, Release(Unstick, 0), true)
  {
    a := Unused(s.actors.Keys, 0);
    var due := Secs(s.rows[t].updatedAt) + cfg.grace;
    es := Then(cfg, s, [], Tick(if due > s.now then due - s.now else 0));
    assert StaleBatch(s.rows[t], Exec(cfg, s, es).now, cfg.grace);
    es := Then(cfg, s, es, Spawn(a, t, Release(Unstick, 0)));
  }

  lemma UnstickWaits(cfg: Config, s: State, a: ActorId, t: TaskId)
    requires t in s.rows && s.rows[t].status == Submitted && s.rows[t].batchState == Releasing
    requires a in s.actors && s.actors[a] == Actor(t, Release(Unstick, 0), true)
    ensures Enabled(cfg, s, Run(a, Ok))
    ensures Next(cfg, s, Run(a, Ok)).rows == s.rows[t := s.rows[t].(batchState := Waiting, updatedAt := s.now)]
  {
  }

  /** A row being released that is not firm is stalled as soon as the rescue has un-claimed it. */
  lemma UnclaimStalls(cfg: Config, s: State, t: TaskId) returns (es: seq<Event>)
    requires t in s.rows && s.rows[t].batchState == Releasing && !Firm(s.rows[t])
    ensures Runs(cfg, s, es) && t in Exec(cfg, s, es).rows && !Kept(cfg, Exec(cfg, s, es).rows[t])
  {
    var a;
    es, a := RescueComes(cfg, s, t);
    UnstickWaits(cfg, Exec(cfg, s, es), a, t);
    es := Then(cfg, s, es, Run(a, Ok));
    KeptExactly(cfg, Exec(cfg, s, es).rows[t]);
  }

  /** In every continuation the row is not stalled. */
  ghost predicate KeptForGood(cfg: Config, s: State, t: TaskId) {
    forall post | Runs(cfg, s, post) :: t in Exec(cfg, s, post).rows && Kept(cfg, Exec(cfg, s, post).rows[t])
  }

  lemma FirmIsForGood(cfg: Config, s: State, t: TaskId)
    requires History(cfg, s) && t in s.rows && s.rows[t].batchState != NoBatch
    ensures KeptForGood(cfg, s, t) <==> Firm(s.rows[t])
  {
    if Firm(s.rows[t]) {
      forall post | Runs(cfg, s, post)
        ensures t in Exec(cfg, s, post).rows && Kept(cfg, Exec(cfg, s, post).rows[t])
      {
        FirmAlways(cfg, s, post, t);
        HistoryAlways(cfg, s, post);
        assert Evolves(s.rows[t], Exec(cfg, s, post).rows[t]);
        KeptExactly(cfg, Exec(cfg, s, post).rows[t]);
      }
    } else if s.rows[t].batchState == Releasing {
      var post := UnclaimStalls(cfg, s, t);
    } else {
      KeptExactly(cfg, s.rows[t]);
      assert Runs(cfg, s, []) && Exec(cfg, s, []) == s;
    }
  }

  /** No silent stall, exactly: a batched task answered with 202, be it by its own request or by a replay,
      is in every later state of every run past SUBMITTED, released or selected by the rescue query at
      some time, if and only if at the answer it is past SUBMITTED, released or has a due time. */
  lemma PromiseExactly(cfg: Config, s0: State, pre: seq<Event>, t: TaskId)
    requires Initial(cfg, s0) && Runs(cfg, s0, pre) && t in Exec(cfg, s0, pre).acked
    ensures var s := Exec(cfg, s0, pre);
            && t in s.rows
            && (s.rows[t].batchState != NoBatch ==> (KeptForGood(cfg, s, t) <==> Firm(s.rows[t])))
  {
    InitialHistory(cfg, s0);
    HistoryAlways(cfg, s0, pre);
    var s := Exec(cfg, s0, pre);
    if s.rows[t].batchState != NoBatch { FirmIsForGood(cfg, s, t); }
  }

  /** ... which it is if its own request was answered. */
  lemma OwnAnswerIsKept(cfg: Config, s0: State, pre: seq<Event>, t: TaskId)
    requires Initial(cfg, s0) && Runs(cfg, s0, pre) && t in Exec(cfg, s0, pre).answered
    ensures var s := Exec(cfg, s0, pre);
            && t in s.rows && (s.rows[t].batchState != NoBatch ==> Firm(s.rows[t]) && KeptForGood(cfg, s, t))
  {
    InitialHistory(cfg, s0);
    HistoryAlways(cfg, s0, pre);
    var s := Exec(cfg, s0, pre);
    if s.rows[t].batchState != NoBatch { FirmIsForGood(cfg, s, t); }
  }

  // ---- the stall ----

  /** Whatever may still work on the row does not bring it out of its batch. */
  predicate Harmless(pc: Pc) {
    match pc
    case Create(at, _, _) => at == Acquire || at == Insert || at == UndoFresh
    case Cancel(_) => true
    case Return(_, caller) => caller == FromCancel
    case Submit(at, _, _) => at == Gate
    case Probe(at, _) => at == ReadProbe
    case Done => true
    case _ => false
  }

  /** Waiting without a due time, submitted to nobody, and nobody at work on it. */
  predicate StuckRow(r: Row) {
    r.batchState == Waiting && r.batchDueAt <= 0 && (r.status == Submitted ==> r.upstreamTaskId == None)
    && (r.status == Submitted || Terminal(r.status))
  }

  ghost predicate Stuck(s: State, t: TaskId) {
    && t in s.rows && StuckRow(s.rows[t])
    && (forall a | a in s.actors && s.actors[a].task == t :: Harmless(s.actors[a].pc))
  }

  /** Nobody starts a release job for the task: no trigger names it, it is in no batch. */
  predicate NobodyReleases(es: seq<Event>, t: TaskId) {
    forall e | e in es :: e.Spawn? && e.task == t ==> !e.job.Release?
  }

  lemma StuckStep(cfg: Config, s: State, t: TaskId, pc: Pc, c: Choice)
    requires t in s.rows && StuckRow(s.rows[t]) && Harmless(pc) && Able(s, t, pc, c)
    ensures var e := Step(cfg, s, t, pc, c);
            Harmless(e.next) && (e.write.Some? ==> StuckRow(e.write.value))
  {
  }

  lemma NextKeepsStuck(cfg: Config, s: State, e: Event, t: TaskId)
    requires Stuck(s, t) && Enabled(cfg, s, e) && (e.Spawn? && e.task == t ==> !e.job.Release?)
    ensures Stuck(Next(cfg, s, e), t)
  {
    if e.Run? && s.actors[e.actor].task == t { StuckStep(cfg, s, t, s.actors[e.actor].pc, e.choice); }
  }

  /** Such a row stalls for good, unless somebody cancels it: it stays waiting, out of the sight of the
      rescue query at all times. */
  lemma {:induction false} StallsForGood(cfg: Config, s: State, es: seq<Event>, t: TaskId)
    requires Stuck(s, t) && Runs(cfg, s, es) && NobodyReleases(es, t)
    ensures Stuck(Exec(cfg, s, es), t)
    ensures var r := Exec(cfg, s, es).rows[t]; Terminal(r.status) || !Kept(cfg, r)
    decreases |es|
  {
    if es != [] {
      assert es[0] in es && forall e | e in es[1..] :: e in es;
      NextKeepsStuck(cfg, s, es[0], t);
      StallsForGood(cfg, Next(cfg, s, es[0]), es[1..], t);
    } else {
      KeptExactly(cfg, s.rows[t]);
    }
  }

  /** A batched request creates its row and fills its key. */
  lemma FilledRequest(cfg: Config, s0: State, t: TaskId, sp: Spec) returns (es: seq<Event>)
    requires Initial(cfg, s0) && t !in s0.rows && sp.batched
    ensures Runs(cfg, s0, es) && (forall e | e in es :: !e.Crash? && !e.DropMessages?)
    ensures var s := Exec(cfg, s0, es);
            && s.rows == s0.rows[t := NewRow(sp.token, sp.callback, true, s0.now)]
            && s.actors == map[1 := Actor(t, Create(Join, sp, 0), true)] && t in s.filled && s.answered == {}
  {
    es := Then(cfg, s0, [], Spawn(1, t, Create(Insert, sp, 0)));
    es := Then(cfg, s0, es, Run(1, Ok));
    assert Exec(cfg, s0, es).actors == map[1 := Actor(t, Create(Backfill, sp, 0), true)];
    es := Then(cfg, s0, es, Run(1, Ok));
  }

  /** It happens: then the join raises; the retry with the same key is answered with 202, and the task is
      stuck. */
  lemma ReplayedAnswerStalls(cfg: Config, s0: State, t: TaskId, sp: Spec) returns (es: seq<Event>)
    requires Initial(cfg, s0) && t !in s0.rows && sp.batched
    ensures Runs(cfg, s0, es) && (forall e | e in es :: !e.Crash? && !e.DropMessages?)
    ensures var s := Exec(cfg, s0, es);
            && t in s.acked && t !in s.answered && Stuck(s, t)
            && s.rows[t].status == Submitted && !Kept(cfg, s.rows[t])
  {
    es := FilledRequest(cfg, s0, t, sp);
    var s := Exec(cfg, s0, es);
    es := Then(cfg, s0, es, Run(1, Raise));
    assert Exec(cfg, s0, es).actors == map[1 := Actor(t, Done, true)] && Exec(cfg, s0, es).rows == s.rows;
    es := Then(cfg, s0, es, Replay(t));
    KeptExactly(cfg, Exec(cfg, s0, es).rows[t]);
  }
}
