/** Why the hypotheses of ProtocolRelease and ProtocolSlots are there: without any one of them the
    source has runs that break the property.  First in general (a violated hypothesis leads out of the
    property), then as concrete runs from an empty or one-row table. */
module ProtocolRaces {
  import opened Wrappers
  import opened TaskStore
  import opened RateLimit
  import opened Protocol
  import opened ProtocolHistory
  import opened ProtocolRelease
  import opened ProtocolSlots

  // ---- a violated hypothesis leads out of exclusion ----

  /** A claim won in the gap between another releaser's un-claim and its requeue write puts two live
      actors into the section at once. */
  lemma GapClaimBreaksExclusion(cfg: Config, s: State, a: ActorId)
    requires Enabled(cfg, s, Run(a, Ok)) && ClaimsInTheGap(s, a, Ok)
    ensures !Exclusive(Next(cfg, s, Run(a, Ok)))
  {
    var t := s.actors[a].task;
    var b :| b in s.actors && s.actors[b].alive && s.actors[b].task == t && AtRequeue(s.actors[b].pc);
    ClaimBesideTheSection(cfg, s, a, b);
  }

  /** A rescue that un-claims the row of a living releaser goes on, by its own next two statements, to
      put two live actors into the section at once. */
  lemma UnstickingTheLivingBreaksExclusion(cfg: Config, s: State, a: ActorId)
    requires Enabled(cfg, s, Run(a, Ok)) && UnsticksTheLiving(s, a, Ok)
    ensures var s1 := Next(cfg, s, Run(a, Ok));
            && Enabled(cfg, s1, Run(a, Ok))
            && var s2 := Next(cfg, s1, Run(a, Ok));
            && Enabled(cfg, s2, Run(a, Ok))
            && !Exclusive(Next(cfg, s2, Run(a, Ok)))
  {
    var t := s.actors[a].task;
    var b :| b in s.actors && s.actors[b].alive && s.actors[b].task == t && BeforeMask(s.actors[b].pc);
    UnstickToMeta(cfg, s, a);
    var s1 := Next(cfg, s, Run(a, Ok));
    MetaToClaim(cfg, s1, a);
    ClaimBesideTheSection(cfg, Next(cfg, s1, Run(a, Ok)), a, b);
  }

  lemma UnstickToMeta(cfg: Config, s: State, a: ActorId)
    requires Enabled(cfg, s, Run(a, Ok)) && UnsticksTheLiving(s, a, Ok)
    ensures var t := s.actors[a].task; var s1 := Next(cfg, s, Run(a, Ok));
            && Enabled(cfg, s1, Run(a, Ok)) && s1.actors == s.actors[a := Actor(t, Release(Meta, 0), true)]
            && t in s1.rows && s1.rows[t].status == Submitted && s1.rows[t].batchState == Waiting
  {
  }

  lemma MetaToClaim(cfg: Config, s: State, a: ActorId)
    requires Enabled(cfg, s, Run(a, Ok)) && s.actors[a].pc == Release(Meta, 0)
    requires var t := s.actors[a].task; t in s.rows && s.rows[t].status == Submitted && s.rows[t].batchState == Waiting
    ensures var t := s.actors[a].task; var s1 := Next(cfg, s, Run(a, Ok));
            && Enabled(cfg, s1, Run(a, Ok)) && s1.rows == s.rows
            && s1.actors == s.actors[a := Actor(t, Release(Claim, s.rows[t].requeueAttempts), true)]
  {
  }

  lemma ClaimBesideTheSection(cfg: Config, s: State, a: ActorId, b: ActorId)
    requires Enabled(cfg, s, Run(a, Ok)) && s.actors[a].pc.Release? && s.actors[a].pc.r == Claim
    requires ClaimForRelease(s.rows[s.actors[a].task], s.now).Some?
    requires b != a && b in s.actors && s.actors[b].alive && s.actors[b].task == s.actors[a].task && InSection(s.actors[b].pc)
    ensures !Exclusive(Next(cfg, s, Run(a, Ok)))
  {
    var s' := Next(cfg, s, Run(a, Ok));
    assert InSection(s'.actors[a].pc) && InSection(s'.actors[b].pc);
  }

  /** At every state of the run. */
  ghost predicate ExclusiveThroughout(cfg: Config, s: State, es: seq<Event>)
    requires Runs(cfg, s, es)
    decreases |es|
  {
    Exclusive(s) && (es != [] ==> ExclusiveThroughout(cfg, Next(cfg, s, es[0]), es[1..]))
  }

  /** H1 and H2 over a run, one by one. */
  ghost predicate NoClaimInTheGap(cfg: Config, s: State, es: seq<Event>)
    requires Runs(cfg, s, es)
    decreases |es|
  {
    es != [] ==>
      && (es[0].Run? ==> !ClaimsInTheGap(s, es[0].actor, es[0].choice))
      && NoClaimInTheGap(cfg, Next(cfg, s, es[0]), es[1..])
  }
  ghost predicate SparesTheLiving(cfg: Config, s: State, es: seq<Event>)
    requires Runs(cfg, s, es)
    decreases |es|
  {
    es != [] ==>
      && (es[0].Run? ==> !UnsticksTheLiving(s, es[0].actor, es[0].choice))
      && SparesTheLiving(cfg, Next(cfg, s, es[0]), es[1..])
  }

  lemma {:induction false} ExclusionFrom(cfg: Config, s: State, es: seq<Event>)
    requires ReleaseInv(cfg, s) && Runs(cfg, s, es) && SparesTheLiving(cfg, s, es)
    ensures ExclusiveThroughout(cfg, s, es) <==> NoClaimInTheGap(cfg, s, es)
    decreases |es|
  {
    if es != [] {
      var e := es[0];
      if e.Run? && ClaimsInTheGap(s, e.actor, e.choice) {
        GapClaimBreaksExclusion(cfg, s, e.actor);
      } else {
        NextKeepsRelease(cfg, s, e);
        ExclusionFrom(cfg, Next(cfg, s, e), es[1..]);
      }
    }
  }

  /** Exclusive release, exactly: in a run whose rescues un-claim no living releaser, two live actors
      are never in the section of one task if and only if no claim is won in the gap between an
      un-claim and its requeue write. */
  lemma ExclusiveExactly(cfg: Config, s: State, es: seq<Event>)
    requires Initial(cfg, s) && Runs(cfg, s, es) && SparesTheLiving(cfg, s, es)
    ensures ExclusiveThroughout(cfg, s, es) <==> NoClaimInTheGap(cfg, s, es)
  {
    InitialRelease(cfg, s);
    ExclusionFrom(cfg, s, es);
  }

  // ---- stretches of one releaser's run ----

  /** A job starts. */
  lemma Enter(cfg: Config, s0: State, es: seq<Event>, a: ActorId, t: TaskId, job: Pc) returns (es': seq<Event>)
    requires Runs(cfg, s0, es) && a !in Exec(cfg, s0, es).actors && Startable(cfg, Exec(cfg, s0, es), t, job)
    ensures Runs(cfg, s0, es')
    ensures var s := Exec(cfg, s0, es);
            Exec(cfg, s0, es') == s.(actors := s.actors[a := Actor(t, job, true)])
  {
    Extend(cfg, s0, es, Spawn(a, t, job));
    es' := es + [Spawn(a, t, job)];
  }

  /** What the stretches below follow: one task's row, its token's counter, its publications. */
  datatype View = View(row: Row, counter: nat, published: nat)

  ghost predicate Shows(s: State, t: TaskId, v: View) {
    t in s.rows && s.rows[t] == v.row && Counter(s.conc, v.row.token) == v.counter && Seen(s, t).published == v.published
  }

  predicate At(s: State, a: ActorId, t: TaskId, pc: Pc) {
    a in s.actors && s.actors[a] == Actor(t, pc, true)
  }

  function ViewAfter(v: View, e: Effect): View {
    View(if e.write.Some? then e.write.value else v.row,
         match e.slot { case Inc(_) => v.counter + 1 case Dec(_) => Decremented(v.counter) case _ => v.counter },
         v.published + (if e.mark == Some(Published) then 1 else 0))
  }

  /** The releaser `a` of task `t` takes one step of the run `es`. */
  lemma Follow(cfg: Config, s0: State, es: seq<Event>, a: ActorId, t: TaskId, pc: Pc, c: Choice, v: View, e: Effect)
    returns (es': seq<Event>)
    requires Runs(cfg, s0, es)
    requires var s := Exec(cfg, s0, es);
             At(s, a, t, pc) && Shows(s, t, v) && Able(s, t, pc, c) && e == Step(cfg, s, t, pc, c)
    requires pc.Release? && (e.write.Some? ==> e.write.value.token == v.row.token)
    requires (e.slot.Inc? || e.slot.Dec?) ==> e.slot.tok == v.row.token
    ensures Runs(cfg, s0, es')
    ensures var s, s' := Exec(cfg, s0, es), Exec(cfg, s0, es');
            && Shows(s', t, ViewAfter(v, e)) && s'.now == s.now
            && s'.actors == s.actors[a := Actor(t, e.next, true)]
  {
    Extend(cfg, s0, es, Run(a, c));
    es' := es + [Run(a, c)];
  }

  lemma Start(cfg: Config, s0: State, es: seq<Event>, a: ActorId, t: TaskId, v: View)
    returns (es': seq<Event>)
    requires Runs(cfg, s0, es) && a !in Exec(cfg, s0, es).actors && Shows(Exec(cfg, s0, es), t, v)
    ensures Runs(cfg, s0, es')
    ensures var s, s' := Exec(cfg, s0, es), Exec(cfg, s0, es');
            && Shows(s', t, v) && s'.now == s.now
            && s'.actors == s.actors[a := Actor(t, Release(Meta, 0), true)]
  {
    Extend(cfg, s0, es, Spawn(a, t, Release(Meta, 0)));
    es' := es + [Spawn(a, t, Release(Meta, 0))];
  }

  /** A releaser about to read its task gets as far as holding the claim and a slot. */
  lemma MetaToMask(cfg: Config, s0: State, es: seq<Event>, a: ActorId, t: TaskId, v: View)
    returns (es': seq<Event>)
    requires Runs(cfg, s0, es) && At(Exec(cfg, s0, es), a, t, Release(Meta, 0)) && Shows(Exec(cfg, s0, es), t, v)
    requires v.row.status == Submitted && Claimable(v.row.batchState) && v.counter < cfg.limit
    ensures Runs(cfg, s0, es')
    ensures var s, s' := Exec(cfg, s0, es), Exec(cfg, s0, es');
            && Shows(s', t, v.(row := v.row.(batchState := Releasing, updatedAt := s.now), counter := v.counter + 1))
            && s'.now == s.now
            && s'.actors == s.actors[a := Actor(t, Release(Mask, v.row.requeueAttempts), true)]
  {
    var n := v.row.requeueAttempts;
    var now := Exec(cfg, s0, es).now;
    es' := Follow(cfg, s0, es, a, t, Release(Meta, 0), Ok, v, Effect(Release(Claim, n)));
    var claimed := v.row.(batchState := Releasing, updatedAt := now);
    es' := Follow(cfg, s0, es', a, t, Release(Claim, n), Ok, v, Effect(Release(TakeSlot, n), write := Some(claimed)));
    es' := Follow(cfg, s0, es', a, t, Release(TakeSlot, n), Ok, v.(row := claimed),
                  Effect(Release(Mask, n), slot := Inc(v.row.token)));
  }

  /** It writes the mask. */
  lemma MaskToRecheck(cfg: Config, s0: State, es: seq<Event>, a: ActorId, t: TaskId, n: nat, v: View)
    returns (es': seq<Event>)
    requires Runs(cfg, s0, es) && At(Exec(cfg, s0, es), a, t, Release(Mask, n)) && Shows(Exec(cfg, s0, es), t, v)
    ensures Runs(cfg, s0, es')
    ensures var s, s' := Exec(cfg, s0, es), Exec(cfg, s0, es');
            && Shows(s', t, v.(row := v.row.(batchState := Released, slotFlags := Some(1), updatedAt := s.now)))
            && s'.now == s.now
            && s'.actors == s.actors[a := Actor(t, Release(Recheck, n), true)]
  {
    var row := v.row.(batchState := Released, slotFlags := Some(1), updatedAt := Exec(cfg, s0, es).now);
    es' := Follow(cfg, s0, es, a, t, Release(Mask, n), Ok, v, Effect(Release(Recheck, n), write := Some(row)));
  }

  /** It finds the task active and publishes the submission. */
  lemma RecheckToEnd(cfg: Config, s0: State, es: seq<Event>, a: ActorId, t: TaskId, n: nat, v: View)
    returns (es': seq<Event>)
    requires Runs(cfg, s0, es) && At(Exec(cfg, s0, es), a, t, Release(Recheck, n)) && Shows(Exec(cfg, s0, es), t, v)
    requires v.row.status == Submitted
    ensures Runs(cfg, s0, es')
    ensures var s, s' := Exec(cfg, s0, es), Exec(cfg, s0, es');
            && Shows(s', t, v.(published := v.published + 1)) && s'.now == s.now
            && s'.actors == s.actors[a := Actor(t, Done, true)]
  {
    es' := Follow(cfg, s0, es, a, t, Release(Recheck, n), Ok, v, Effect(Release(Publish, n)));
    es' := Follow(cfg, s0, es', a, t, Release(Publish, n), Ok, v,
                  Effect(Done, submit := true, mark := Some(Published)));
  }

  /** Its mask cannot be written: it gives the slot back and un-claims the row. */
  lemma MaskToGap(cfg: Config, s0: State, es: seq<Event>, a: ActorId, t: TaskId, n: nat, v: View)
    returns (es': seq<Event>)
    requires Runs(cfg, s0, es) && At(Exec(cfg, s0, es), a, t, Release(Mask, n)) && Shows(Exec(cfg, s0, es), t, v)
    requires v.row.status == Submitted && v.row.batchState == Releasing && v.counter > 0
    ensures Runs(cfg, s0, es')
    ensures var s, s' := Exec(cfg, s0, es), Exec(cfg, s0, es');
            && Shows(s', t, v.(row := v.row.(batchState := Waiting, updatedAt := s.now), counter := v.counter - 1))
            && s'.now == s.now
            && s'.actors == s.actors[a := Actor(t, Release(Requeue, n), true)]
  {
    var now := Exec(cfg, s0, es).now;
    es' := Follow(cfg, s0, es, a, t, Release(Mask, n), Raise, v, Effect(Release(DropSlot, n)));
    es' := Follow(cfg, s0, es', a, t, Release(DropSlot, n), Ok, v,
                  Effect(Release(Unclaim, n), slot := Dec(v.row.token)));
    es' := Follow(cfg, s0, es', a, t, Release(Unclaim, n), Ok, v.(counter := v.counter - 1),
                  Effect(Release(Requeue, n), write := Some(v.row.(batchState := Waiting, updatedAt := now))));
  }

  // ---- a submission published twice ----

  /** Without H1: from any quiescent table with a waiting task and two free slots there is a run in
      which its submission is published twice.  One releaser fails to write the mask and un-claims; a
      second one claims and releases; the first then writes `requeued` over `released`; a third one
      releases again. */
  lemma GapPublishesTwice(cfg: Config, s0: State, t: TaskId) returns (es: seq<Event>)
    requires Initial(cfg, s0) && t in s0.rows && s0.rows[t].status == Submitted && s0.rows[t].batchState == Waiting
    requires Counter(s0.conc, s0.rows[t].token) + 2 <= cfg.limit
    ensures Runs(cfg, s0, es) && Seen(Exec(cfg, s0, es), t).published == 2
  {
    var v := View(s0.rows[t], Counter(s0.conc, s0.rows[t].token), 0);
    var n := v.row.requeueAttempts;
    es := ToGap(cfg, s0, [], 1, t, v);
    var v2 := v.(row := v.row.(batchState := Waiting, updatedAt := s0.now));
    es := ToRecheck(cfg, s0, es, 2, t, v2);
    var v3 := View(v2.row.(batchState := Released, slotFlags := Some(1)), v.counter + 1, 0);
    es := RequeueOver(cfg, s0, es, 1, t, n, v3);
    var v4 := v3.(row := PatchData(v3.row, RequeuePatch(cfg, n, 0.0, s0.now), s0.now));
    es := RecheckToEnd(cfg, s0, es, 2, t, n, v4);
    es := ReleaseWhole(cfg, s0, es, 3, t, v4.(published := 1));
  }

  /** A releaser starts, and loses its mask write. */
  lemma ToGap(cfg: Config, s0: State, es: seq<Event>, a: ActorId, t: TaskId, v: View)
    returns (es': seq<Event>)
    requires Runs(cfg, s0, es) && a !in Exec(cfg, s0, es).actors && Shows(Exec(cfg, s0, es), t, v)
    requires v.row.status == Submitted && Claimable(v.row.batchState) && v.counter < cfg.limit
    ensures Runs(cfg, s0, es')
    ensures var s, s' := Exec(cfg, s0, es), Exec(cfg, s0, es');
            && Shows(s', t, v.(row := v.row.(batchState := Waiting, updatedAt := s.now)))
            && s'.now == s.now
            && s'.actors == s.actors[a := Actor(t, Release(Requeue, v.row.requeueAttempts), true)]
  {
    var claimed := v.(row := v.row.(batchState := Releasing, updatedAt := Exec(cfg, s0, es).now), counter := v.counter + 1);
    es' := Start(cfg, s0, es, a, t, v);
    es' := MetaToMask(cfg, s0, es', a, t, v);
    es' := MaskToGap(cfg, s0, es', a, t, v.row.requeueAttempts, claimed);
  }

  /** A releaser starts, and writes its mask. */
  lemma ToRecheck(cfg: Config, s0: State, es: seq<Event>, a: ActorId, t: TaskId, v: View)
    returns (es': seq<Event>)
    requires Runs(cfg, s0, es) && a !in Exec(cfg, s0, es).actors && Shows(Exec(cfg, s0, es), t, v)
    requires v.row.status == Submitted && Claimable(v.row.batchState) && v.counter < cfg.limit
    ensures Runs(cfg, s0, es')
    ensures var s, s' := Exec(cfg, s0, es), Exec(cfg, s0, es');
            && Shows(s', t, View(v.row.(batchState := Released, slotFlags := Some(1), updatedAt := s.now),
                                 v.counter + 1, v.published))
            && s'.now == s.now
            && s'.actors == s.actors[a := Actor(t, Release(Recheck, v.row.requeueAttempts), true)]
  {
    var claimed := v.(row := v.row.(batchState := Releasing, updatedAt := Exec(cfg, s0, es).now), counter := v.counter + 1);
    es' := Start(cfg, s0, es, a, t, v);
    es' := MetaToMask(cfg, s0, es', a, t, v);
    es' := MaskToRecheck(cfg, s0, es', a, t, v.row.requeueAttempts, claimed);
  }

  /** A whole release of a task. */
  lemma ReleaseWhole(cfg: Config, s0: State, es: seq<Event>, a: ActorId, t: TaskId, v: View)
    returns (es': seq<Event>)
    requires Runs(cfg, s0, es) && a !in Exec(cfg, s0, es).actors && Shows(Exec(cfg, s0, es), t, v)
    requires v.row.status == Submitted && Claimable(v.row.batchState) && v.counter < cfg.limit
    ensures Runs(cfg, s0, es') && Seen(Exec(cfg, s0, es'), t).published == v.published + 1
  {
    var row := v.row.(batchState := Released, slotFlags := Some(1), updatedAt := Exec(cfg, s0, es).now);
    es' := ToRecheck(cfg, s0, es, a, t, v);
    es' := RecheckToEnd(cfg, s0, es', a, t, v.row.requeueAttempts, View(row, v.counter + 1, v.published));
  }

  /** The late requeue write. */
  lemma RequeueOver(cfg: Config, s0: State, es: seq<Event>, a: ActorId, t: TaskId, n: nat, v: View)
    returns (es': seq<Event>)
    requires Runs(cfg, s0, es) && At(Exec(cfg, s0, es), a, t, Release(Requeue, n)) && Shows(Exec(cfg, s0, es), t, v)
    ensures Runs(cfg, s0, es')
    ensures var s, s' := Exec(cfg, s0, es), Exec(cfg, s0, es');
            && Shows(s', t, v.(row := PatchData(v.row, RequeuePatch(cfg, n, 0.0, s.now), s.now)))
            && s'.now == s.now
            && s'.actors == s.actors[a := Actor(t, Done, true)]
  {
    var now := Exec(cfg, s0, es).now;
    es' := Follow(cfg, s0, es, a, t, Release(Requeue, n), Jitter(0.0), v,
                  Effect(Done, write := Some(PatchData(v.row, RequeuePatch(cfg, n, 0.0, now), now))));
  }

  /** Without H2: from any quiescent table with a waiting task and two free slots there is a run in
      which its submission is published twice.  A releaser holds the claim for longer than the grace,
      the rescue un-claims it and releases, and the releaser goes on. */
  lemma RescueOfTheLivingPublishesTwice(cfg: Config, s0: State, t: TaskId) returns (es: seq<Event>)
    requires Initial(cfg, s0) && t in s0.rows && s0.rows[t].status == Submitted && s0.rows[t].batchState == Waiting
    requires Counter(s0.conc, s0.rows[t].token) + 2 <= cfg.limit
    ensures Runs(cfg, s0, es) && Seen(Exec(cfg, s0, es), t).published == 2
  {
    var v := View(s0.rows[t], Counter(s0.conc, s0.rows[t].token), 0);
    var n := v.row.requeueAttempts;
    es := Start(cfg, s0, [], 1, t, v);
    es := MetaToMask(cfg, s0, es, 1, t, v);
    var v1 := v.(row := v.row.(batchState := Releasing, updatedAt := s0.now), counter := v.counter + 1);
    es := StartRescue(cfg, s0, es, 2, t, v1);
    var later := s0.now + cfg.grace;
    var v2 := v1.(row := v1.row.(batchState := Waiting, updatedAt := later));
    es := MetaToMask(cfg, s0, es, 2, t, v2);
    var v3 := v2.(row := v2.row.(batchState := Releasing), counter := v2.counter + 1);
    es := MaskToRecheck(cfg, s0, es, 2, t, n, v3);
    var v4 := v3.(row := v3.row.(batchState := Released, slotFlags := Some(1)));
    es := MaskToRecheck(cfg, s0, es, 1, t, n, v4);
    es := RecheckToEnd(cfg, s0, es, 1, t, n, v4);
    es := RecheckToEnd(cfg, s0, es, 2, t, n, v4.(published := 1));
  }

  /** The grace passes, the rescue finds the row and un-claims it. */
  lemma StartRescue(cfg: Config, s0: State, es: seq<Event>, a: ActorId, t: TaskId, v: View)
    returns (es': seq<Event>)
    requires Runs(cfg, s0, es) && a !in Exec(cfg, s0, es).actors && Shows(Exec(cfg, s0, es), t, v)
    requires v.row.status == Submitted && v.row.batchState == Releasing && v.row.updatedAt == Exec(cfg, s0, es).now
    ensures Runs(cfg, s0, es')
    ensures var s, s' := Exec(cfg, s0, es), Exec(cfg, s0, es');
            && Shows(s', t, v.(row := v.row.(batchState := Waiting, updatedAt := s.now + cfg.grace)))
            && s'.now == s.now + cfg.grace
            && s'.actors == s.actors[a := Actor(t, Release(Meta, 0), true)]
  {
    Extend(cfg, s0, es, Tick(cfg.grace));
    es' := es + [Tick(cfg.grace)];
    var now := Exec(cfg, s0, es').now;
    assert Shows(Exec(cfg, s0, es'), t, v);
    es' := Enter(cfg, s0, es', a, t, Release(Unstick, 0));
    assert Shows(Exec(cfg, s0, es'), t, v);
    es' := Follow(cfg, s0, es', a, t, Release(Unstick, 0), Ok, v,
                  Effect(Release(Meta, 0), write := Some(v.row.(batchState := Waiting, updatedAt := now))));
  }

  // ---- a slot given back while its row holds it ----

  /** What a step of actor `a` does to rows, counters and actors. */
  lemma Take(cfg: Config, s0: State, es: seq<Event>, a: ActorId, c: Choice, e: Effect) returns (es': seq<Event>)
    requires Runs(cfg, s0, es)
    requires var s := Exec(cfg, s0, es); Enabled(cfg, s, Run(a, c)) && e == StepOf(cfg, s, a, c)
    ensures Runs(cfg, s0, es')
    ensures var s, s' := Exec(cfg, s0, es), Exec(cfg, s0, es'); var t := s.actors[a].task;
            && s'.rows == (if e.write.Some? then s.rows[t := e.write.value] else s.rows)
            && s'.conc == SlotApply(s.conc, e.slot)
            && s'.actors == s.actors[a := Actor(t, e.next, true)]
            && s'.now == s.now
  {
    Extend(cfg, s0, es, Run(a, c));
    es' := es + [Run(a, c)];
  }

  lemma AcquireGoesOn(cfg: Config, s: State, a: ActorId, t: TaskId, sp: Spec)
    requires At(s, a, t, Create(Acquire, sp, 0)) && Counter(s.conc, sp.token) < cfg.limit
    ensures Enabled(cfg, s, Run(a, Ok))
    ensures StepOf(cfg, s, a, Ok) == Effect(Create(Insert, sp, 0), slot := Inc(sp.token))
  {
  }

  /** A request on the immediate path gets its slot. */
  lemma RequestToInsert(cfg: Config, s0: State, es: seq<Event>, a: ActorId, t: TaskId, sp: Spec)
    returns (es': seq<Event>)
    requires Runs(cfg, s0, es)
    requires var s := Exec(cfg, s0, es); a !in s.actors && Counter(s.conc, sp.token) < cfg.limit && !sp.batched
    ensures Runs(cfg, s0, es')
    ensures var s, s' := Exec(cfg, s0, es), Exec(cfg, s0, es');
            && s'.rows == s.rows && s'.now == s.now
            && s'.conc == s.conc[sp.token := Counter(s.conc, sp.token) + 1]
            && s'.actors == s.actors[a := Actor(t, Create(Insert, sp, 0), true)]
  {
    var s := Exec(cfg, s0, es);
    es' := Enter(cfg, s0, es, a, t, Create(Acquire, sp, 0));
    AcquireGoesOn(cfg, Exec(cfg, s0, es'), a, t, sp);
    assert s.actors[a := Actor(t, Create(Acquire, sp, 0), true)][a := Actor(t, Create(Insert, sp, 0), true)]
        == s.actors[a := Actor(t, Create(Insert, sp, 0), true)];
    es' := Take(cfg, s0, es', a, Ok, Effect(Create(Insert, sp, 0), slot := Inc(sp.token)));
  }

  /** ... and then its row. */
  lemma RequestToBackfill(cfg: Config, s0: State, es: seq<Event>, a: ActorId, t: TaskId, tok: Token)
    returns (es': seq<Event>)
    requires Runs(cfg, s0, es)
    requires var s := Exec(cfg, s0, es); a !in s.actors && t !in s.rows && Counter(s.conc, tok) < cfg.limit
    ensures Runs(cfg, s0, es')
    ensures var s, s' := Exec(cfg, s0, es), Exec(cfg, s0, es'); var sp := Spec(tok, false, false);
            && s'.rows == s.rows[t := NewRow(tok, false, false, s.now)]
            && s'.conc == s.conc[tok := Counter(s.conc, tok) + 1]
            && s'.actors == s.actors[a := Actor(t, Create(Backfill, sp, 0), true)]
  {
    var sp := Spec(tok, false, false);
    var now := Exec(cfg, s0, es).now;
    es' := RequestToInsert(cfg, s0, es, a, t, sp);
    es' := Take(cfg, s0, es', a, Ok, Effect(Create(Backfill, sp, 0), write := Some(NewRow(tok, false, false, now))));
  }

  /** The back-fill of its idempotency key raises, and the handler gives the slot back. */
  lemma BackfillRaises(cfg: Config, s0: State, es: seq<Event>, a: ActorId, t: TaskId, tok: Token)
    returns (es': seq<Event>)
    requires Runs(cfg, s0, es)
    requires var s := Exec(cfg, s0, es);
             t in s.rows && At(s, a, t, Create(Backfill, Spec(tok, false, false), 0)) && Counter(s.conc, tok) > 0
    ensures Runs(cfg, s0, es')
    ensures var s, s' := Exec(cfg, s0, es), Exec(cfg, s0, es');
            && s'.rows == s.rows
            && s'.conc == s.conc[tok := Counter(s.conc, tok) - 1]
            && s'.actors == s.actors[a := Actor(t, Done, true)]
  {
    var sp := Spec(tok, false, false);
    es' := Take(cfg, s0, es, a, Raise, Effect(Create(UndoCreated, sp, 0)));
    es' := Take(cfg, s0, es', a, Ok, Effect(Done, slot := Dec(tok)));
  }

  /** Without H3: from any quiescent table whose token has one slot left there is a run of two requests
      after which the rows of the token hold one slot more than the limit, the counter being at it. */
  lemma ExcessDecrementBreaksTheCap(cfg: Config, s0: State, t1: TaskId, t2: TaskId, tok: Token) returns (es: seq<Event>)
    requires Initial(cfg, s0) && t1 !in s0.rows && t2 !in s0.rows && t1 != t2
    requires Counter(s0.conc, tok) + 1 == cfg.limit
    ensures Runs(cfg, s0, es)
    ensures var s := Exec(cfg, s0, es);
            Counter(s.conc, tok) == cfg.limit && |HeldRows(s.rows, tok)| == cfg.limit + 1
  {
    var r := NewRow(tok, false, false, s0.now);
    es := RequestToBackfill(cfg, s0, [], 1, t1, tok);
    es := BackfillRaises(cfg, s0, es, 1, t1, tok);
    var s1 := Exec(cfg, s0, es);
    WriteRow(s0.rows, t1, r, tok);
    es := RequestToBackfill(cfg, s0, es, 2, t2, tok);
    WriteRow(s1.rows, t2, NewRow(tok, false, false, s1.now), tok);
  }

  /** Quiescent tables of the kind the three races start from exist. */
  lemma SuchTablesExist()
    ensures var waiting := Row(Submitted, 0, 0, "", 0, 0, false, Waiting, Some(0), 5, 0, None);
            var empty := State(map[], map[], map[], {}, {}, 0, {}, {}, {}, map[], multiset{}, map[]);
            Initial(Config(2, 120, 300), empty.(rows := map[7 := waiting])) && Initial(Config(1, 120, 300), empty)
  {
    var waiting := Row(Submitted, 0, 0, "", 0, 0, false, Waiting, Some(0), 5, 0, None);
    forall tok ensures HeldRows(map[7 := waiting], tok) == {} && HeldRows(map[], tok) == {} {}
  }
}
