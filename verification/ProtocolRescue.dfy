/** The other half of "no silent stall": what the rescue query selects, the rescue body settles -- first
    whatever others do to the task meanwhile, then more precisely if they leave it alone. */
module ProtocolRescue {
  import opened Wrappers
  import opened TaskStore
  import opened RateLimit
  import opened Protocol
  import opened ProtocolHistory
  import Batching

  /** The job that the rescue loop starts for a selected row. */
  function RescueJob(r: Row): Pc { Release(if r.batchState == Releasing then Unstick else Meta, 0) }

  /** A raise that defeats this attempt: one that release_batched_task does not handle, which leaves the
      loop body, or one of the initial un-claim, which is swallowed but leaves the row in releasing. */
  predicate Abandons(pc: Pc, c: Choice) {
    c == Raise && !(pc.Release? && pc.r in {Mask, DropSlot, Unclaim, Publish}) && !(pc.Return? && pc.b == Decrement)
  }

  /** Put back with one attempt more, and due after the delay of that attempt (Batching.BaseShape) up to a
      tenth of it. */
  predicate PutOff(cfg: Config, r: Row, attempts: nat, now: int) {
    && r.batchState == Requeued && r.requeueAttempts == attempts + 1
    && var base, delay := Batching.BackoffBase(attempts + 1, cfg.backoffMax), r.batchDueAt - now;
    && delay >= 1 && 9 * base <= 10 * delay + 9 && 10 * delay <= 11 * base
  }

  /** A row just put off is selected by the rescue query exactly from the end of the grace after its new due
      time on. */
  lemma PutOffIsGraced(cfg: Config, r: Row, attempts: nat, now: int, later: int)
    requires PutOff(cfg, r, attempts, now) && now >= 0 && r.status == Submitted
    ensures StaleBatch(r, later, cfg.grace) <==> later >= r.batchDueAt + cfg.grace
    ensures later <= now + cfg.grace ==> !StaleBatch(r, later, cfg.grace)
  {
  }

  // ---- any release job, whatever others do ----

  /** The statements of release_batched_task, the rescue's un-claim and the slot returns included. */
  predicate OfRelease(pc: Pc) {
    pc.Release? || (pc.Return? && (pc.caller == FromRecheck || pc.caller == FromPublish))
  }

  /** How many of them are left at most. */
  function Rank(pc: Pc): nat {
    match pc
    case Release(at, _) =>
      (match at
       case Unstick => 10 case Meta => 9 case Claim => 8 case TakeSlot => 7 case Mask => 6
       case Recheck => 5 case Publish => 4 case DropSlot => 3 case Unclaim => 2 case Requeue => 1
       case FailTask => 1)
    case Return(ClaimMask, _) => 3
    case Return(Decrement, _) => 2
    case _ => 0
  }

  /** What the last statement of a release job leaves: the task published by it, or put off by it, or past
      SUBMITTED, or in the middle of a release, or released. */
  predicate Ends(cfg: Config, r: Row, pc: Pc, e: Effect, now: int) {
    || (e.submit && e.mark == Some(Published))
    || (pc.Release? && pc.r == Requeue && PutOff(cfg, r, pc.attempts, now))
    || r.status != Submitted || r.batchState == Releasing || r.batchState == Released
  }

  predicate JobStep(cfg: Config, s: State, t: TaskId, pc: Pc, c: Choice, e: Effect) {
    && (e.next == Done || OfRelease(e.next)) && Rank(e.next) < Rank(pc)
    && (e.next == Done && !Abandons(pc, c) && t in s.rows && s.rows[t].batchState != NoBatch ==>
          Ends(cfg, Or(e.write, s.rows[t]), pc, e, s.now))
  }

  lemma JobStepOfRelease(cfg: Config, s: State, t: TaskId, pc: Pc, c: Choice)
    requires pc.Release? && Able(s, t, pc, c) && PcOk(s.rows, t, pc)
    ensures JobStep(cfg, s, t, pc, c, ReleaseStep(cfg, s, t, pc, c))
  {
    if c.Jitter? {
      Batching.DelayBounds(pc.attempts, cfg.backoffMax, c.u);
      Batching.BaseBounds(pc.attempts, cfg.backoffMax);
    }
  }

  lemma JobStepOfReturn(cfg: Config, s: State, t: TaskId, pc: Pc, c: Choice)
    requires pc.Return? && OfRelease(pc) && Able(s, t, pc, c) && PcOk(s.rows, t, pc)
    ensures JobStep(cfg, s, t, pc, c, ReturnStep(s, t, pc, c))
  {
  }

  lemma JobStepOk(cfg: Config, s: State, t: TaskId, pc: Pc, c: Choice)
    requires OfRelease(pc) && Able(s, t, pc, c) && PcOk(s.rows, t, pc)
    ensures JobStep(cfg, s, t, pc, c, Step(cfg, s, t, pc, c))
  {
    if pc.Return? { JobStepOfReturn(cfg, s, t, pc, c); } else { JobStepOfRelease(cfg, s, t, pc, c); }
  }

  /** The end of a release job, seen from outside. */
  predicate EndedWell(cfg: Config, s: State, s': State, t: TaskId, pc: Pc)
    requires t in s'.rows
  {
    var r := s'.rows[t];
    || (t in s'.submits && Seen(s', t).published == Seen(s, t).published + 1)
    || (pc.Release? && pc.r == Requeue && PutOff(cfg, r, pc.attempts, s'.now))
    || r.status != Submitted || r.batchState == Releasing || r.batchState == Released
  }

  /** The actor's next statement, answered by `c`, is the last one of its release job on a batched task,
      and not an unhandled raise. */
  predicate LastStatement(cfg: Config, s: State, a: ActorId, c: Choice) {
    && Enabled(cfg, s, Run(a, c)) && OfRelease(s.actors[a].pc) && !Abandons(s.actors[a].pc, c)
    && s.actors[a].task in s.rows && s.rows[s.actors[a].task].batchState != NoBatch
    && Next(cfg, s, Run(a, c)).actors[a].pc == Done
  }

  lemma EndsFrom(cfg: Config, s: State, a: ActorId, c: Choice)
    requires History(cfg, s) && LastStatement(cfg, s, a, c)
    ensures EndedWell(cfg, s, Next(cfg, s, Run(a, c)), s.actors[a].task, s.actors[a].pc)
  {
    var t, pc := s.actors[a].task, s.actors[a].pc;
    assert PcOk(s.rows, t, pc);
    JobStepOk(cfg, s, t, pc, c);
    ApplyEnds(cfg, s, a, t, pc, c, StepOf(cfg, s, a, c));
  }

  /** Every release job ends well, in every run: whatever others do to the task meanwhile -- cancel it,
      claim it, un-claim it, publish it -- and whoever crashes, a job on a batched task whose last
      statement is not an unhandled raise has with this statement published the task, or put it off by
      one attempt, or found or made it past SUBMITTED, or left it released or in the middle of a release. */
  lemma ReleaseEnds(cfg: Config, s0: State, es: seq<Event>, a: ActorId, c: Choice)
    requires Initial(cfg, s0) && Runs(cfg, s0, es) && LastStatement(cfg, Exec(cfg, s0, es), a, c)
    ensures var s := Exec(cfg, s0, es);
            EndedWell(cfg, s, Next(cfg, s, Run(a, c)), s.actors[a].task, s.actors[a].pc)
  {
    InitialHistory(cfg, s0);
    HistoryAlways(cfg, s0, es);
    EndsFrom(cfg, Exec(cfg, s0, es), a, c);
  }

  lemma ApplyEnds(cfg: Config, s: State, a: ActorId, t: TaskId, pc: Pc, c: Choice, e: Effect)
    requires JobStep(cfg, s, t, pc, c, e) && e.next == Done && !Abandons(pc, c)
    requires t in s.rows && s.rows[t].batchState != NoBatch
    ensures EndedWell(cfg, s, Apply(s, a, t, e), t, pc)
  {
  }

  function Own(e: Event, a: ActorId): nat { if e.Run? && e.actor == a then 1 else 0 }

  function OwnSteps(es: seq<Event>, a: ActorId): nat {
    if es == [] then 0 else OwnSteps(es[1..], a) + Own(es[0], a)
  }

  /** A release job, or what has become of it. */
  predicate Job(s: State, a: ActorId) {
    a in s.actors && (s.actors[a].pc == Done || OfRelease(s.actors[a].pc))
  }

  function Left(s: State, a: ActorId): (n: nat)
    requires a in s.actors
    ensures n <= 10
  { Rank(s.actors[a].pc) }

  lemma JobAfter(cfg: Config, s: State, e: Event, a: ActorId)
    requires History(cfg, s) && Enabled(cfg, s, e) && Job(s, a)
    ensures var s' := Next(cfg, s, e); Job(s', a) && Left(s', a) + Own(e, a) <= Left(s, a)
  {
    if e.Run? && e.actor == a {
      assert PcOk(s.rows, s.actors[a].task, s.actors[a].pc);
      JobStepOk(cfg, s, s.actors[a].task, s.actors[a].pc, e.choice);
    }
  }

  /** A release job takes at most ten statements, whatever others do. */
  lemma {:induction false} JobsAreShort(cfg: Config, s: State, es: seq<Event>, a: ActorId)
    requires History(cfg, s) && Runs(cfg, s, es) && Job(s, a)
    ensures Job(Exec(cfg, s, es), a) && OwnSteps(es, a) + Left(Exec(cfg, s, es), a) <= Left(s, a)
    decreases |es|
  {
    if es != [] {
      var s1 := Next(cfg, s, es[0]);
      JobAfter(cfg, s, es[0], a);
      NextKeepsHistory(cfg, s, es[0]);
      JobsAreShort(cfg, s1, es[1..], a);
    }
  }

  // ---- a job that leaves the row in releasing ----

  /** In the middle of a release. */
  predicate Mid(r: Row) { r.status == Submitted && r.batchState == Releasing }

  /** The statements before which a job's own claim, or the one that it is about to undo, may be on the row. */
  predicate HoldsClaim(pc: Pc) {
    pc.Release? && pc.r in {Unstick, TakeSlot, Mask, DropSlot, Unclaim, Requeue}
  }

  predicate WinsClaim(s: State, b: ActorId, c: Choice) {
    && b in s.actors && s.actors[b].pc.Release? && s.actors[b].pc.r == Claim && c == Ok
    && s.actors[b].task in s.rows && ClaimForRelease(s.rows[s.actors[b].task], s.now).Some?
  }

  /** Another actor wins the claim of the task, or the job's own un-claim at the start raises. */
  predicate Disturbs(s: State, e: Event, a: ActorId, t: TaskId) {
    && e.Run? && e.actor in s.actors
    && if e.actor == a then e.choice == Raise && s.actors[a].pc.Release? && s.actors[a].pc.r == Unstick
       else s.actors[e.actor].task == t && WinsClaim(s, e.actor, e.choice)
  }

  ghost predicate Disturbed(cfg: Config, s: State, es: seq<Event>, a: ActorId, t: TaskId)
    requires Runs(cfg, s, es)
    decreases |es|
  {
    es != [] && (Disturbs(s, es[0], a, t) || Disturbed(cfg, Next(cfg, s, es[0]), es[1..], a, t))
  }

  /** A write that puts a row into the middle of a release is a claim. */
  predicate OnlyClaims(s: State, t: TaskId, pc: Pc, c: Choice, e: Effect) {
    e.write.Some? && Mid(e.write.value) && (t in s.rows ==> !Mid(s.rows[t])) ==>
      pc.Release? && pc.r == Claim && c == Ok && t in s.rows && ClaimForRelease(s.rows[t], s.now).Some?
  }

  lemma OnlyClaimsOfRelease(cfg: Config, s: State, t: TaskId, pc: Pc, c: Choice)
    requires pc.Release? && Able(s, t, pc, c)
    ensures OnlyClaims(s, t, pc, c, ReleaseStep(cfg, s, t, pc, c))
  {
  }

  lemma OnlyClaimsOfOthers(cfg: Config, s: State, t: TaskId, pc: Pc, c: Choice)
    requires !pc.Release? && Able(s, t, pc, c) && PcOk(s.rows, t, pc)
    ensures OnlyClaims(s, t, pc, c, Step(cfg, s, t, pc, c))
  {
    match pc
    case Create(_, _, _) => assert OnlyClaims(s, t, pc, c, CreateStep(cfg, s, t, pc, c));
    case Return(_, _) => assert OnlyClaims(s, t, pc, c, ReturnStep(s, t, pc, c));
    case Cancel(_) => assert OnlyClaims(s, t, pc, c, CancelStep(s, t, pc, c));
    case Submit(_, _, _) => assert OnlyClaims(s, t, pc, c, SubmitStep(s, t, pc, c));
    case Probe(_, _) => assert OnlyClaims(s, t, pc, c, ProbeStep(s, t, pc, c));
    case Finalize(_, _, _, _) => assert OnlyClaims(s, t, pc, c, FinalizeStep(s, t, pc, c));
  }

  /** A job moves on with its row out of the middle of a release, or its claim still in hand. */
  lemma OwnClaimGoes(cfg: Config, s: State, t: TaskId, pc: Pc, c: Choice)
    requires OfRelease(pc) && Able(s, t, pc, c) && t in s.rows && (Mid(s.rows[t]) ==> HoldsClaim(pc))
    requires !(pc.Release? && pc.r == Unstick && c == Raise)
    ensures var e := if pc.Return? then ReturnStep(s, t, pc, c) else ReleaseStep(cfg, s, t, pc, c);
            (e.next == Done && Abandons(pc, c)) || (Mid(Or(e.write, s.rows[t])) ==> HoldsClaim(e.next))
  {
  }

  ghost predicate Clean(s: State, a: ActorId, t: TaskId) {
    && Job(s, a) && s.actors[a].task == t && t in s.rows
    && (s.actors[a].pc == Done || (Mid(s.rows[t]) ==> HoldsClaim(s.actors[a].pc)))
  }

  lemma NextKeepsClean(cfg: Config, s: State, e: Event, a: ActorId, t: TaskId)
    requires History(cfg, s) && Clean(s, a, t) && Enabled(cfg, s, e) && !Disturbs(s, e, a, t)
    ensures Clean(Next(cfg, s, e), a, t)
  {
    JobAfter(cfg, s, e, a);
    if e.Run? {
      var u, pc := s.actors[e.actor].task, s.actors[e.actor].pc;
      assert PcOk(s.rows, u, pc);
      if e.actor == a {
        OwnClaimGoes(cfg, s, t, pc, e.choice);
      } else if u == t {
        if pc.Release? { OnlyClaimsOfRelease(cfg, s, t, pc, e.choice); } else { OnlyClaimsOfOthers(cfg, s, t, pc, e.choice); }
      }
    }
  }

  lemma {:induction false} CleanAlways(cfg: Config, s: State, es: seq<Event>, a: ActorId, t: TaskId)
    requires History(cfg, s) && Clean(s, a, t) && Runs(cfg, s, es) && !Disturbed(cfg, s, es, a, t)
    ensures Clean(Exec(cfg, s, es), a, t)
    decreases |es|
  {
    if es != [] {
      NextKeepsClean(cfg, s, es[0], a, t);
      NextKeepsHistory(cfg, s, es[0]);
      CleanAlways(cfg, Next(cfg, s, es[0]), es[1..], a, t);
    }
  }

  /** The last statement of an undisturbed job leaves the row out of the middle of a release. */
  lemma EndsClean(cfg: Config, s: State, a: ActorId, t: TaskId, c: Choice)
    requires History(cfg, s) && Clean(s, a, t) && LastStatement(cfg, s, a, c)
    ensures t in Next(cfg, s, Run(a, c)).rows && !Mid(Next(cfg, s, Run(a, c)).rows[t])
  {
    OwnClaimGoes(cfg, s, t, s.actors[a].pc, c);
  }

  /** The rescue body settles what the query selects, in every run: the job that it starts for a selected
      row takes at most ten statements, and if the last one is not an unhandled raise it ends well,
      whatever others do to the task at the same time.  If it leaves the row in the middle of a release,
      then another actor has won the claim since the job began, or the job's own un-claim has raised (and
      the row is as it was found). */
  lemma RescueEnds(cfg: Config, s0: State, pre: seq<Event>, a: ActorId, t: TaskId, es: seq<Event>, c: Choice)
    requires Initial(cfg, s0) && Runs(cfg, s0, pre)
    requires var s := Exec(cfg, s0, pre);
             && t in s.rows && StaleBatch(s.rows[t], s.now, cfg.grace) && a !in s.actors
             && var s1 := s.(actors := s.actors[a := Actor(t, RescueJob(s.rows[t]), true)]);
             && Runs(cfg, s1, es)
             && var s2 := Exec(cfg, s1, es);
             && Enabled(cfg, s2, Run(a, c)) && s2.actors[a].task == t && OfRelease(s2.actors[a].pc)
             && !Abandons(s2.actors[a].pc, c) && Next(cfg, s2, Run(a, c)).actors[a].pc == Done
    ensures var s := Exec(cfg, s0, pre);
            var s1 := s.(actors := s.actors[a := Actor(t, RescueJob(s.rows[t]), true)]);
            var s2 := Exec(cfg, s1, es);
            && OwnSteps(es, a) + 1 <= 10
            && t in s2.rows && EndedWell(cfg, s2, Next(cfg, s2, Run(a, c)), t, s2.actors[a].pc)
            && (Mid(Next(cfg, s2, Run(a, c)).rows[t]) ==> Disturbed(cfg, s1, es, a, t))
  {
    InitialHistory(cfg, s0);
    HistoryAlways(cfg, s0, pre);
    var s := Exec(cfg, s0, pre);
    RescueCanStart(cfg, s, a, t);
    var s1 := Next(cfg, s, Spawn(a, t, RescueJob(s.rows[t])));
    NextKeepsHistory(cfg, s, Spawn(a, t, RescueJob(s.rows[t])));
    RunOfJob(cfg, s1, es, a, t);
    var s2 := Exec(cfg, s1, es);
    JobAfter(cfg, s2, Run(a, c), a);
    EndsFrom(cfg, s2, a, c);
    if !Disturbed(cfg, s1, es, a, t) { EndsClean(cfg, s2, a, t, c); }
  }

  /** A job on a batched task, after any events. */
  lemma RunOfJob(cfg: Config, s1: State, es: seq<Event>, a: ActorId, t: TaskId)
    requires History(cfg, s1) && Clean(s1, a, t) && s1.rows[t].batchState != NoBatch && Runs(cfg, s1, es)
    ensures var s2 := Exec(cfg, s1, es);
            && History(cfg, s2) && Job(s2, a) && OwnSteps(es, a) + Left(s2, a) <= Left(s1, a)
            && t in s2.rows && s2.rows[t].batchState != NoBatch
            && (!Disturbed(cfg, s1, es, a, t) ==> Clean(s2, a, t))
  {
    HistoryAlways(cfg, s1, es);
    JobsAreShort(cfg, s1, es, a);
    assert Evolves(s1.rows[t], Exec(cfg, s1, es).rows[t]);
    if !Disturbed(cfg, s1, es, a, t) { CleanAlways(cfg, s1, es, a, t); }
  }

  /** Every selected row can be taken up. */
  lemma RescueCanStart(cfg: Config, s: State, a: ActorId, t: TaskId)
    requires t in s.rows && StaleBatch(s.rows[t], s.now, cfg.grace) && a !in s.actors
    ensures Enabled(cfg, s, Spawn(a, t, RescueJob(s.rows[t])))
  {
  }

  // ---- a rescue that is left alone ----

  /** Nobody but `a` works on the task `t`, and `a` is not stopped; anything may go on elsewhere. */
  predicate Quiet(s: State, e: Event, a: ActorId, t: TaskId) {
    match e
    case Run(b, c) => b in s.actors && if b == a then !Abandons(s.actors[a].pc, c) else s.actors[b].task != t
    case Crash(b) => b != a
    case _ => true
  }

  ghost predicate QuietRun(cfg: Config, s: State, es: seq<Event>, a: ActorId, t: TaskId)
    requires Runs(cfg, s, es)
    decreases |es|
  {
    es != [] ==> Quiet(s, es[0], a, t) && QuietRun(cfg, Next(cfg, s, es[0]), es[1..], a, t)
  }

  /** The row while the rescue works on it: its `attempts` are those that the job found there. */
  predicate RowAt(r: Row, pc: Pc, attempts: nat) {
    && r.status == Submitted && r.requeueAttempts == attempts
    && (pc.Release? && pc.r != Unstick && pc.r != Meta && pc.r != FailTask ==> pc.attempts == attempts)
    && match pc
       case Release(Unstick, _) => r.batchState == Releasing
       case Release(Meta, _) => Claimable(r.batchState)
       case Release(Claim, _) => Claimable(r.batchState)
       case Release(Requeue, _) => r.batchState == Waiting || r.batchState == Releasing
       case Release(Recheck, _) => r.batchState == Released
       case Release(Publish, _) => r.batchState == Released
       case Release(FailTask, _) => r.batchState == Released
       case Release(_, _) => r.batchState == Releasing
       case Return(_, caller) => caller == FromPublish && r.batchState == Released
       case _ => false
  }

  /** What the job starts from: the publications and the attempts of its task so far. */
  datatype Before = Before(published: nat, attempts: nat)

  /** Published, put off, or failed for good. */
  predicate Settled(cfg: Config, s: State, t: TaskId, b: Before)
    requires t in s.rows
  {
    var r := s.rows[t];
    || (r.batchState == Released && t in s.submits && Seen(s, t).published == b.published + 1)
    || (PutOff(cfg, r, b.attempts, s.now) && Seen(s, t).published == b.published)
    || (Terminal(r.status) && Seen(s, t).published == b.published)
  }

  ghost predicate Working(s: State, a: ActorId, t: TaskId, b: Before) {
    && a in s.actors && s.actors[a].task == t && t in s.rows
    && (s.actors[a].pc == Done
        || (s.actors[a].alive && RowAt(s.rows[t], s.actors[a].pc, b.attempts) && Seen(s, t).published == b.published))
  }

  /** One statement of the rescue, locally. */
  predicate StepOk(cfg: Config, s: State, t: TaskId, pc: Pc, attempts: nat, e: Effect)
    requires t in s.rows
  {
    var r := Or(e.write, s.rows[t]);
    && Rank(e.next) < Rank(pc)
    && (e.next != Done ==> RowAt(r, e.next, attempts) && e.mark != Some(Published))
    && (e.next == Done ==>
          || (r.batchState == Released && e.submit && e.mark == Some(Published))
          || (PutOff(cfg, r, attempts, s.now) && e.mark != Some(Published))
          || (Terminal(r.status) && e.mark != Some(Published)))
  }

  /** Between its statements the row stays as the job knows it ... */
  lemma RowStays(cfg: Config, s: State, t: TaskId, pc: Pc, c: Choice, attempts: nat)
    requires Able(s, t, pc, c) && t in s.rows && RowAt(s.rows[t], pc, attempts) && !Abandons(pc, c)
    ensures var e := if pc.Return? then ReturnStep(s, t, pc, c) else ReleaseStep(cfg, s, t, pc, c);
            var r := Or(e.write, s.rows[t]);
            && (e.next != Done ==> RowAt(r, e.next, attempts))
            && (e.next == Done ==> r.batchState != Releasing
                                   && (r.status == Submitted || Terminal(r.status))
                                   && (r.batchState == Released && r.status == Submitted ==> e.submit && e.mark == Some(Published)))
            && (e.mark == Some(Published) <==> e.submit && e.next == Done && r.batchState == Released && r.status == Submitted)
  {
  }

  /** ... so that of the ends of a release job only three are left. */
  lemma RescueStep(cfg: Config, s: State, t: TaskId, pc: Pc, c: Choice, attempts: nat)
    requires Able(s, t, pc, c) && t in s.rows && RowAt(s.rows[t], pc, attempts) && !Abandons(pc, c)
    ensures StepOk(cfg, s, t, pc, attempts, Step(cfg, s, t, pc, c))
  {
    JobStepOk(cfg, s, t, pc, c);
    RowStays(cfg, s, t, pc, c, attempts);
  }

  lemma ApplyRescue(cfg: Config, s: State, a: ActorId, t: TaskId, e: Effect, b: Before)
    requires a in s.actors && s.actors[a].task == t && s.actors[a].alive && t in s.rows
    requires StepOk(cfg, s, t, s.actors[a].pc, b.attempts, e) && Seen(s, t).published == b.published
    ensures var s' := Apply(s, a, t, e);
            && Working(s', a, t, b)
            && (s'.actors[a].pc == Done ==> Settled(cfg, s', t, b))
  {
  }

  /** A step on another task. */
  lemma ApplyElsewhere(s: State, b: ActorId, e: Effect, a: ActorId, t: TaskId, before: Before)
    requires Working(s, a, t, before) && b in s.actors && b != a && s.actors[b].task != t
    ensures Working(Apply(s, b, s.actors[b].task, e), a, t, before)
    ensures Apply(s, b, s.actors[b].task, e).actors[a] == s.actors[a]
  {
  }

  lemma NextKeepsWorking(cfg: Config, s: State, e: Event, a: ActorId, t: TaskId, before: Before)
    requires Working(s, a, t, before) && Enabled(cfg, s, e) && Quiet(s, e, a, t)
    ensures var s' := Next(cfg, s, e);
            && Working(s', a, t, before)
            && (e.Run? && e.actor == a ==>
                  && Rank(s'.actors[a].pc) < Rank(s.actors[a].pc)
                  && (s'.actors[a].pc == Done ==> Settled(cfg, s', t, before)))
            && (!(e.Run? && e.actor == a) ==> s'.actors[a] == s.actors[a])
  {
    if e.Run? {
      if e.actor == a {
        RescueStep(cfg, s, t, s.actors[a].pc, e.choice, before.attempts);
        ApplyRescue(cfg, s, a, t, StepOf(cfg, s, a, e.choice), before);
      } else {
        ApplyElsewhere(s, e.actor, StepOf(cfg, s, e.actor, e.choice), a, t, before);
      }
    }
  }

  lemma {:induction false} WorkingAlways(cfg: Config, s: State, es: seq<Event>, a: ActorId, t: TaskId, before: Before)
    requires Working(s, a, t, before) && Runs(cfg, s, es) && QuietRun(cfg, s, es, a, t)
    ensures Working(Exec(cfg, s, es), a, t, before)
    ensures OwnSteps(es, a) + Rank(Exec(cfg, s, es).actors[a].pc) <= Rank(s.actors[a].pc)
    decreases |es|
  {
    if es != [] {
      NextKeepsWorking(cfg, s, es[0], a, t, before);
      WorkingAlways(cfg, Next(cfg, s, es[0]), es[1..], a, t, before);
    }
  }

  lemma {:induction false} QuietSplit(cfg: Config, s: State, es: seq<Event>, e: Event, a: ActorId, t: TaskId)
    requires Runs(cfg, s, es + [e]) && QuietRun(cfg, s, es + [e], a, t)
    ensures Runs(cfg, s, es) && QuietRun(cfg, s, es, a, t)
    ensures Enabled(cfg, Exec(cfg, s, es), e) && Quiet(Exec(cfg, s, es), e, a, t)
    ensures Exec(cfg, s, es + [e]) == Next(cfg, Exec(cfg, s, es), e)
    decreases |es|
  {
    if es == [] {
      assert [] + [e] == [e] && [e][1..] == [];
    } else {
      assert (es + [e])[0] == es[0] && (es + [e])[1..] == es[1..] + [e];
      QuietSplit(cfg, Next(cfg, s, es[0]), es[1..], e, a, t);
    }
  }

  /** A rescue left alone settles what the query selects.  From the moment on at which the rescue starts
      its job for a selected row, and if nobody else works on that task meanwhile, the job takes at
      most ten statements, and with its last one it has published the task, or put it back with a
      later due time, or made it terminal -- with or without a free slot, even if the mask write, the
      un-claim after it, a decrement or the publication raises.  In each case the query does not select it. */
  lemma RescueSettles(cfg: Config, s: State, a: ActorId, t: TaskId, es: seq<Event>, last: Event)
    requires t in s.rows && StaleBatch(s.rows[t], s.now, cfg.grace)
    requires Enabled(cfg, s, Spawn(a, t, RescueJob(s.rows[t])))
    requires var s1 := Next(cfg, s, Spawn(a, t, RescueJob(s.rows[t])));
             Runs(cfg, s1, es + [last]) && QuietRun(cfg, s1, es + [last], a, t)
    requires last.Run? && last.actor == a
    ensures var s1 := Next(cfg, s, Spawn(a, t, RescueJob(s.rows[t])));
            var s' := Exec(cfg, s1, es + [last]);
            && a in s'.actors && OwnSteps(es, a) + 1 + Rank(s'.actors[a].pc) <= 10
            && (s'.actors[a].pc == Done ==>
                  && t in s'.rows && Settled(cfg, s', t, Before(Seen(s, t).published, s.rows[t].requeueAttempts))
                  && !StaleBatch(s'.rows[t], s'.now, cfg.grace))
  {
    var before := Before(Seen(s, t).published, s.rows[t].requeueAttempts);
    var s1 := Next(cfg, s, Spawn(a, t, RescueJob(s.rows[t])));
    QuietSplit(cfg, s1, es, last, a, t);
    assert Working(s1, a, t, before);
    WorkingAlways(cfg, s1, es, a, t, before);
    NextKeepsWorking(cfg, Exec(cfg, s1, es), last, a, t, before);
  }

  /** The job of a rescue never gets stuck: until it is done some answer lets it go on. */
  lemma RescueNeverStuck(cfg: Config, s: State, a: ActorId, t: TaskId, before: Before)
    requires Working(s, a, t, before) && s.actors[a].pc != Done
    ensures exists c: Choice :: Enabled(cfg, s, Run(a, c)) && Quiet(s, Run(a, c), a, t)
  {
    var c := if s.actors[a].pc.Release? && s.actors[a].pc.r == Requeue then Jitter(0.0) else Ok;
    assert Enabled(cfg, s, Run(a, c)) && Quiet(s, Run(a, c), a, t);
  }
}
