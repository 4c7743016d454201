/** Who will release a batch: the two triggers of one grouping key (`_join_batch`, `release`), with
    joiners, cancellations and claims racing.

    The members of the key and the joins that open an epoch are those of module BatchIndex: a join
    writes the deadline exactly when the batch was empty (IndexOk, OpEffect).  All joiners here ask for
    the same size `n`; no publication raises and nobody crashes (what is lost then is left to the
    rescue), but the write of `batch_due_at` may raise, whereupon the joiner leaves again -- or fails to
    leave, which is swallowed, and stays in the index. */
module Triggers {
  import opened Wrappers
  import BatchIndex

  /** Joiners go by the task id that they put into the batch. */
  type JoinerId = string

  datatype Pc =
    | PatchDue(count: nat, opens: nat)      // joined, about to write batch_due_at
    | ScheduleDue(count: nat, opens: nat)   // about to schedule the T trigger, if it opened the batch
    | PublishSize(count: nat)               // about to publish the N trigger, if it completed the batch
    | Leave                                 // the write raised: about to leave
    | Over

  /** `epoch` numbers the batches of the key from 1, `opener` is the joiner that opened the last one.
      A joiner's `opens` is the epoch whose deadline it wrote, or 0.  T triggers are tagged with their
      epoch for the proof only: the message carries just the key, and claims whatever is there. */
  datatype State = State(
    members: set<JoinerId>,
    joiners: map<JoinerId, Pc>,
    epoch: nat,
    opener: JoinerId,
    failed: set<JoinerId>,        // history: joiners whose write raised
    sizePending: nat,             // N triggers in the queue
    sizeRunning: nat,             // ... taken, about to claim
    duePending: set<nat>,         // T triggers scheduled, by epoch
    dueRunning: set<nat>)         // ... taken, about to claim

  datatype Event =
    | Join(j: JoinerId)
    | Patch(j: JoinerId, ok: bool)
    | Schedule(j: JoinerId)
    | Publish(j: JoinerId)
    | LeaveBatch(j: JoinerId, ok: bool)
    | CancelMember(j: JoinerId)
    | TakeSize | TakeDue(epoch: nat)
    | ClaimSize | ClaimDue(epoch: nat)

  const INIT := State({}, map[], 0, "", {}, 0, 0, {}, {})

  predicate Enabled(s: State, e: Event) {
    match e
    case Join(j) => j !in s.joiners
    case Patch(j, _) => j in s.joiners && s.joiners[j].PatchDue?
    case Schedule(j) => j in s.joiners && s.joiners[j].ScheduleDue?
    case Publish(j) => j in s.joiners && s.joiners[j].PublishSize?
    case LeaveBatch(j, _) => j in s.joiners && s.joiners[j].Leave?
    case CancelMember(_) => true
    case TakeSize => s.sizePending > 0
    case TakeDue(ep) => ep in s.duePending
    case ClaimSize => s.sizeRunning > 0
    case ClaimDue(ep) => ep in s.dueRunning
  }

  function Next(n: nat, s: State, e: Event): State
    requires Enabled(s, e)
  {
    match e
    case Join(j) =>
      var wrote := s.members == {};
      var pc := PatchDue(|s.members + {j}|, if wrote then s.epoch + 1 else 0);
      s.(members := s.members + {j}, joiners := s.joiners[j := pc],
         epoch := if wrote then s.epoch + 1 else s.epoch,
         opener := if wrote then j else s.opener)
    case Patch(j, ok) =>
      var pc := s.joiners[j];
      s.(joiners := s.joiners[j := if ok then ScheduleDue(pc.count, pc.opens) else Leave],
         failed := if ok then s.failed else s.failed + {j})
    case Schedule(j) =>
      var pc := s.joiners[j];
      s.(joiners := s.joiners[j := PublishSize(pc.count)],
         duePending := if pc.opens > 0 then s.duePending + {pc.opens} else s.duePending)
    case Publish(j) =>
      s.(joiners := s.joiners[j := Over],
         sizePending := if s.joiners[j].count >= n then s.sizePending + 1 else s.sizePending)
    case LeaveBatch(j, ok) => s.(members := if ok then s.members - {j} else s.members, joiners := s.joiners[j := Over])
    case CancelMember(j) => s.(members := s.members - {j})
    case TakeSize => s.(sizePending := s.sizePending - 1, sizeRunning := s.sizeRunning + 1)
    case TakeDue(ep) => s.(duePending := s.duePending - {ep}, dueRunning := s.dueRunning + {ep})
    case ClaimSize => s.(members := {}, sizeRunning := s.sizeRunning - 1)
    case ClaimDue(ep) => s.(members := {}, dueRunning := s.dueRunning - {ep})
  }

  /** The machine's joins are those of the index: same members, same count, and a deadline is written
      exactly when the machine opens an epoch. */
  lemma JoinMatchesTheIndex(n: nat, s: State, z: BatchIndex.Store, key: string, j: JoinerId, now: int, due: int)
    requires BatchIndex.IndexOk(z) && key != "due" && BatchIndex.Members(z, key) == s.members && j !in s.joiners
    ensures var z', s' := BatchIndex.Joined(z, j, key, now, due), Next(n, s, Join(j));
            && BatchIndex.Members(z', key) == s'.members
            && s'.joiners[j].count == |BatchIndex.ZSet(z', BatchIndex.MemberKey(key))|
            && (s'.joiners[j].opens > 0 <==> BatchIndex.Deadline(z, key) == None)
  {
    BatchIndex.JoinEffect(z, j, key, now, due, key);
    var m := BatchIndex.ZSet(BatchIndex.Joined(z, j, key, now, due), BatchIndex.MemberKey(key));
    assert |m| == |m.Keys|;
  }

  predicate Runs(n: nat, s: State, es: seq<Event>)
    decreases |es|
  {
    es == [] || (Enabled(s, es[0]) && Runs(n, Next(n, s, es[0]), es[1..]))
  }

  function Exec(n: nat, s: State, es: seq<Event>): State
    requires Runs(n, s, es)
    decreases |es|
  {
    if es == [] then s else Exec(n, Next(n, s, es[0]), es[1..])
  }

  lemma {:induction false} Then(n: nat, s: State, es: seq<Event>, e: Event) returns (es': seq<Event>)
    requires Runs(n, s, es) && Enabled(Exec(n, s, es), e)
    ensures es' == es + [e] && Runs(n, s, es') && Exec(n, s, es') == Next(n, Exec(n, s, es), e)
    decreases |es|
  {
    es' := es + [e];
    if es == [] {
      assert [e][1..] == [];
    } else {
      var tail := Then(n, Next(n, s, es[0]), es[1..], e);
      assert es'[0] == es[0] && es'[1..] == tail;
    }
  }

  // ---- the N trigger ----

  /** A joiner that completed the batch and has still to publish its N trigger. */
  predicate WillPublish(n: nat, s: State, j: JoinerId) {
    j in s.joiners && !s.joiners[j].Leave? && !s.joiners[j].Over? && s.joiners[j].count >= n
  }

  /** The members that have come to stay: those whose write has not raised. */
  function Staying(s: State): set<JoinerId> { s.members - s.failed }

  /** ... and of these, those that will not publish any more. */
  function Settled(n: nat, s: State): set<JoinerId> {
    set j | j in Staying(s) && !WillPublish(n, s, j)
  }

  predicate ClaimComing(s: State) { s.sizePending > 0 || s.sizeRunning > 0 || s.dueRunning != {} }

  /** The counting invariant: with no claim coming, fewer than `n` members have settled. */
  predicate Counting(n: nat, s: State) {
    && s.members <= s.joiners.Keys && s.failed <= s.joiners.Keys
    && (forall j | j in s.joiners && s.joiners[j].Leave? :: j in s.failed)
    && (!ClaimComing(s) ==> |Settled(n, s)| < n)
  }

  lemma JoinKeepsCounting(n: nat, s: State, j: JoinerId)
    requires n >= 1 && Counting(n, s) && Enabled(s, Join(j))
    ensures Counting(n, Next(n, s, Join(j)))
  {
    var s' := Next(n, s, Join(j));
    if |s'.members| >= n {
      assert Settled(n, s') == Settled(n, s);
    } else {
      SubsetIsSmaller(Settled(n, s'), s'.members);
    }
  }

  lemma NextKeepsCounting(n: nat, s: State, e: Event)
    requires n >= 1 && Counting(n, s) && Enabled(s, e)
    ensures Counting(n, Next(n, s, e))
  {
    var s' := Next(n, s, e);
    if e.Join? {
      JoinKeepsCounting(n, s, e.j);
    } else if !ClaimComing(s') && s'.members != {} {
      SubsetIsSmaller(Settled(n, s'), Settled(n, s));
    } else {
      SubsetIsSmaller(Settled(n, s'), s'.members);
    }
  }

  lemma {:induction false} CountingAlways(n: nat, s: State, es: seq<Event>)
    requires n >= 1 && Counting(n, s) && Runs(n, s, es)
    ensures Counting(n, Exec(n, s, es))
    decreases |es|
  {
    if es != [] {
      NextKeepsCounting(n, s, es[0]);
      CountingAlways(n, Next(n, s, es[0]), es[1..]);
    }
  }

  /** Trigger witness: in every reachable state in which at least `n` members have come to stay, an N
      trigger is in the queue, or somebody has taken a trigger and is about to claim, or one of the
      members is about to publish. */
  lemma SizeTriggerWitness(n: nat, es: seq<Event>)
    requires n >= 1 && Runs(n, INIT, es) && |Staying(Exec(n, INIT, es))| >= n
    ensures var s := Exec(n, INIT, es); ClaimComing(s) || exists j | j in s.members :: WillPublish(n, s, j)
  {
    CountingAlways(n, INIT, es);
    var s := Exec(n, INIT, es);
    if forall j | j in s.members :: !WillPublish(n, s, j) {
      assert Settled(n, s) == Staying(s);
    }
  }

  // ---- the N trigger, exactly, with all members counted ----

  /** A full batch will be claimed. */
  ghost predicate Witness(n: nat, s: State) {
    |s.members| >= n ==> ClaimComing(s) || exists j | j in s.members :: WillPublish(n, s, j)
  }

  /** A full batch loses the last of its members that would have called for it: its write raises, or it is
      cancelled, while no claim is coming and no other member is about to publish. */
  predicate Loses(n: nat, s: State, e: Event) {
    && ((e.Patch? && !e.ok) || e.CancelMember?)
    && !ClaimComing(s)
    && (forall k | k in s.members :: k != e.j ==> !WillPublish(n, s, k))
    && |if e.Patch? then s.members else s.members - {e.j}| >= n
  }

  lemma LosingLoses(n: nat, s: State, e: Event)
    requires n >= 1 && Counting(n, s) && Enabled(s, e) && Loses(n, s, e)
    ensures !Witness(n, Next(n, s, e))
  {
    var s' := Next(n, s, e);
    assert s'.members == if e.Patch? then s.members else s.members - {e.j};
    forall k | k in s'.members
      ensures !WillPublish(n, s', k)
    {
      assert k in s.members;
    }
  }

  /** Nothing else takes the caller away. */
  lemma OthersKeepWitness(n: nat, s: State, e: Event)
    requires n >= 1 && Counting(n, s) && Witness(n, s) && Enabled(s, e) && !Loses(n, s, e)
    ensures Witness(n, Next(n, s, e))
  {
    var s' := Next(n, s, e);
    if |s'.members| >= n && !ClaimComing(s') {
      match e
      case Join(j) => assert WillPublish(n, s', j);
      case Patch(j, ok) => KeepCaller(n, s, e, j);
      case CancelMember(j) =>
        SubsetIsSmaller(s'.members, s.members);
        KeepCaller(n, s, e, j);
      case LeaveBatch(j, ok) =>
        SubsetIsSmaller(s'.members, s.members);
        var k :| k in s.members && WillPublish(n, s, k);
        assert k != j && WillPublish(n, s', k);
      case Schedule(j) =>
        var k :| k in s.members && WillPublish(n, s, k);
        assert WillPublish(n, s', k);
      case Publish(j) =>
        var k :| k in s.members && WillPublish(n, s, k);
        assert WillPublish(n, s', k);
      case _ =>
    }
  }

  lemma KeepCaller(n: nat, s: State, e: Event, j: JoinerId)
    requires Enabled(s, e) && !Loses(n, s, e) && Witness(n, s) && |s.members| >= n && !ClaimComing(s)
    requires (e.Patch? || e.CancelMember?) && e.j == j && |Next(n, s, e).members| >= n
    ensures exists k | k in Next(n, s, e).members :: WillPublish(n, Next(n, s, e), k)
  {
    var s' := Next(n, s, e);
    var k :| k in s.members && WillPublish(n, s, k) && (k != j || (e.Patch? && e.ok));
    assert k in s'.members && WillPublish(n, s', k);
  }

  /** One event keeps the witness if and only if it does not lose the last caller of a full batch. */
  lemma WitnessStep(n: nat, s: State, e: Event)
    requires n >= 1 && Counting(n, s) && Witness(n, s) && Enabled(s, e)
    ensures Witness(n, Next(n, s, e)) <==> !Loses(n, s, e)
  {
    if Loses(n, s, e) { LosingLoses(n, s, e); } else { OthersKeepWitness(n, s, e); }
  }

  ghost predicate WitnessThroughout(n: nat, s: State, es: seq<Event>)
    requires Runs(n, s, es)
    decreases |es|
  { Witness(n, s) && (es != [] ==> WitnessThroughout(n, Next(n, s, es[0]), es[1..])) }

  ghost predicate NeverLoses(n: nat, s: State, es: seq<Event>)
    requires Runs(n, s, es)
    decreases |es|
  { es != [] ==> !Loses(n, s, es[0]) && NeverLoses(n, Next(n, s, es[0]), es[1..]) }

  lemma {:induction false} WitnessFrom(n: nat, s: State, es: seq<Event>)
    requires n >= 1 && Counting(n, s) && Witness(n, s) && Runs(n, s, es)
    ensures WitnessThroughout(n, s, es) <==> NeverLoses(n, s, es)
    decreases |es|
  {
    if es != [] {
      WitnessStep(n, s, es[0]);
      NextKeepsCounting(n, s, es[0]);
      if !Loses(n, s, es[0]) { WitnessFrom(n, Next(n, s, es[0]), es[1..]); }
    }
  }

  /** Trigger witness, exactly: over a run every full batch -- all members counted -- has a size trigger
      queued, a claim in flight or a member about to publish at every time, if and only if no full batch
      ever loses its last caller. */
  lemma WitnessExactly(n: nat, es: seq<Event>)
    requires n >= 1 && Runs(n, INIT, es)
    ensures WitnessThroughout(n, INIT, es) <==> NeverLoses(n, INIT, es)
  {
    WitnessFrom(n, INIT, es);
  }

  /** Members whose write raised must be left out of the count, whether they are about to leave or failed
      to: two members, a size of two, and nobody to release them. */
  lemma LeaverCompletesTheBatch() returns (es: seq<Event>)
    ensures Runs(2, INIT, es)
    ensures var s := Exec(2, INIT, es);
            && |s.members| == 2 && !ClaimComing(s) && (forall j | j in s.members :: !WillPublish(2, s, j))
            && "2" in s.joiners && s.joiners["2"] == Leave
  {
    es := FirstMember();
    es := Then(2, INIT, es, Join("2"));
    assert Exec(2, INIT, es).members == {"1", "2"};
    es := Then(2, INIT, es, Patch("2", false));
  }

  /** One member has come to stay, and nobody comes for it yet. */
  lemma FirstMember() returns (es: seq<Event>)
    ensures Runs(2, INIT, es)
    ensures var s := Exec(2, INIT, es);
            s.members == {"1"} && s.joiners == map["1" := Over] && !ClaimComing(s)
  {
    es := Then(2, INIT, [], Join("1"));
    es := Then(2, INIT, es, Patch("1", true));
    es := Then(2, INIT, es, Schedule("1"));
    es := Then(2, INIT, es, Publish("1"));
  }

  /** ... and a leave that fails leaves it at that: the joiner stays a member, counted by later joins, and
      brings nobody. */
  lemma SwallowedLeaveStays(n: nat, s: State, j: JoinerId)
    requires Enabled(s, LeaveBatch(j, false))
    ensures var s' := Next(n, s, LeaveBatch(j, false));
            && s'.members == s.members && Staying(s') == Staying(s) && s'.joiners[j] == Over
            && (ClaimComing(s') <==> ClaimComing(s))
            && (forall k :: WillPublish(n, s', k) <==> WillPublish(n, s, k))
  {
  }

  // ---- the T trigger ----

  /** The epoch whose T trigger a joiner has still to schedule, or 0. */
  function Opens(pc: Pc): nat { if pc.PatchDue? || pc.ScheduleDue? then pc.opens else 0 }

  /** The opener of the current epoch has still to schedule its T trigger. */
  predicate WillSchedule(s: State) {
    s.epoch > 0 && s.opener in s.joiners && Opens(s.joiners[s.opener]) == s.epoch
  }

  /** The T trigger of the current epoch is scheduled, taken, or about to be scheduled. */
  predicate TimerComing(s: State) {
    s.epoch in s.duePending || s.epoch in s.dueRunning || WillSchedule(s)
  }

  predicate Timing(s: State) {
    && s.members <= s.joiners.Keys && s.failed <= s.joiners.Keys
    && (forall ep | ep in s.duePending :: ep <= s.epoch)
    && (forall ep | ep in s.dueRunning :: ep <= s.epoch)
    && (forall j | j in s.joiners :: Opens(s.joiners[j]) <= s.epoch)
    && (forall j | j in s.joiners && Opens(s.joiners[j]) == s.epoch > 0 :: j == s.opener)
    && (s.epoch > 0 ==> s.opener in s.joiners
                        && (s.joiners[s.opener].PatchDue? || s.joiners[s.opener].ScheduleDue? ==> WillSchedule(s)))
    && (s.epoch == 0 ==> s.joiners == map[])
    && (s.opener in s.failed ==> s.epoch !in s.duePending && s.epoch !in s.dueRunning && !WillSchedule(s))
    && (s.members != {} ==> s.epoch > 0 && (TimerComing(s) || s.opener in s.failed))
    && (WillSchedule(s) ==> s.epoch !in s.duePending && s.epoch !in s.dueRunning)
  }

  lemma NextKeepsTiming(n: nat, s: State, e: Event)
    requires Timing(s) && Enabled(s, e)
    ensures Timing(Next(n, s, e))
  {
    if e.Join? { JoinKeepsTiming(n, s, e.j); }
    else if e.Patch? || e.Schedule? || e.Publish? || e.LeaveBatch? { JoinerKeepsTiming(n, s, e); }
    else { TriggerKeepsTiming(n, s, e); }
  }

  lemma JoinKeepsTiming(n: nat, s: State, j: JoinerId)
    requires Timing(s) && Enabled(s, Join(j))
    ensures Timing(Next(n, s, Join(j)))
  {
  }

  lemma JoinerKeepsTiming(n: nat, s: State, e: Event)
    requires Timing(s) && Enabled(s, e) && (e.Patch? || e.Schedule? || e.Publish? || e.LeaveBatch?)
    ensures Timing(Next(n, s, e))
  {
  }

  lemma TriggerKeepsTiming(n: nat, s: State, e: Event)
    requires Timing(s) && Enabled(s, e)
    requires e.CancelMember? || e.TakeSize? || e.TakeDue? || e.ClaimSize? || e.ClaimDue?
    ensures Timing(Next(n, s, e))
  {
  }

  lemma {:induction false} TimingAlways(n: nat, s: State, es: seq<Event>)
    requires Timing(s) && Runs(n, s, es)
    ensures Timing(Exec(n, s, es))
    decreases |es|
  {
    if es != [] {
      NextKeepsTiming(n, s, es[0]);
      TimingAlways(n, Next(n, s, es[0]), es[1..]);
    }
  }

  /** In every reachable state with an open batch, its T trigger is scheduled, taken or about to be
      scheduled if and only if the opener's write of `batch_due_at` has not raised. */
  lemma OpenBatchHasItsTimer(n: nat, es: seq<Event>)
    requires Runs(n, INIT, es) && Exec(n, INIT, es).members != {}
    ensures var s := Exec(n, INIT, es); TimerComing(s) <==> s.opener !in s.failed
  {
    TimingAlways(n, INIT, es);
  }

  /** The exception happens: the opener fails and leaves while a second member is in; the batch stays
      open and nobody will ever time it out. */
  lemma OpenerLeavesTheBatchWithoutTimer() returns (es: seq<Event>)
    ensures es == [Join("1"), Join("2"), Patch("1", false), LeaveBatch("1", true)] && Runs(3, INIT, es)
    ensures var s := Exec(3, INIT, es); s.members == {"2"} && !TimerComing(s)
  {
    es := Then(3, INIT, [], Join("1"));
    es := Then(3, INIT, es, Join("2"));
    es := Then(3, INIT, es, Patch("1", false));
    es := Then(3, INIT, es, LeaveBatch("1", true));
    assert Exec(3, INIT, es).members == {"2"};
  }
}
