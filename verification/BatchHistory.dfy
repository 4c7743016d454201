/** Whole histories of the batch index: epochs, conservation of members, and the one grouping key for
    which neither holds. */
module BatchHistory {
  import opened Wrappers
  import opened BatchIndex
  import Batching

  datatype Op =
    | JoinOp(task: string, key: string, now: int, wait: int)
    | LeaveOp(task: string, key: string)
    | ClaimOp(key: string)

  function Apply(z: Store, op: Op): Store {
    match op
    case JoinOp(t, k, now, wait) => Joined(z, t, k, now, Batching.OpenerDeadline(now, wait))
    case LeaveOp(t, k) => Left(z, t, k)
    case ClaimOp(k) => Claimed(z, k)
  }

  /** The index after `ops`, from an empty one. */
  function After(ops: seq<Op>): Store {
    if ops == [] then map[] else Apply(After(ops[..|ops| - 1]), ops[|ops| - 1])
  }

  /** No batch is called "due". */
  predicate NoDueKey(ops: seq<Op>) { forall i | 0 <= i < |ops| :: ops[i].key != "due" }

  /** How often `t` joined `k`, was handed out by a claim of `k`, and left `k` while being a member. */
  function Joins(ops: seq<Op>, t: string, k: string): nat {
    if ops == [] then 0
    else
      var op := ops[|ops| - 1];
      Joins(ops[..|ops| - 1], t, k) + if op.JoinOp? && op.task == t && op.key == k then 1 else 0
  }

  function Handed(ops: seq<Op>, t: string, k: string): nat {
    if ops == [] then 0
    else
      var init, op := ops[..|ops| - 1], ops[|ops| - 1];
      Handed(init, t, k) + if op == ClaimOp(k) && t in Members(After(init), k) then 1 else 0
  }

  function Leaves(ops: seq<Op>, t: string, k: string): nat {
    if ops == [] then 0
    else
      var init, op := ops[..|ops| - 1], ops[|ops| - 1];
      Leaves(init, t, k) + if op == LeaveOp(t, k) && t in Members(After(init), k) then 1 else 0
  }

  lemma {:induction false} IndexAlwaysOk(ops: seq<Op>)
    requires NoDueKey(ops)
    ensures IndexOk(After(ops))
  {
    if ops == [] {
    } else {
      var init, op := ops[..|ops| - 1], ops[|ops| - 1];
      IndexAlwaysOk(init);
      match op
      case JoinOp(t, k, now, wait) => JoinEffect(After(init), t, k, now, Batching.OpenerDeadline(now, wait), k);
      case LeaveOp(t, k) => LeaveEffect(After(init), t, k, k);
      case ClaimOp(k) => ClaimEffect(After(init), k, k);
    }
  }

  /** One operation, seen from batch `k`. */
  lemma OpEffect(z: Store, op: Op, k: string)
    requires IndexOk(z) && op.key != "due" && k != "due"
    ensures var z' := Apply(z, op);
            if op.key != k then Members(z', k) == Members(z, k) && Deadline(z', k) == Deadline(z, k)
            else match op
              case JoinOp(t, _, now, wait) =>
                && Members(z', k) == Members(z, k) + {t}
                && Deadline(z', k) == (if Deadline(z, k) == None then Some(Batching.OpenerDeadline(now, wait)) else Deadline(z, k))
              case LeaveOp(t, _) =>
                && Members(z', k) == Members(z, k) - {t}
                && Deadline(z', k) == (if Members(z', k) == {} then None else Deadline(z, k))
              case ClaimOp(_) => Members(z', k) == {} && Deadline(z', k) == None
  {
    match op
    case JoinOp(t, key, now, wait) => JoinEffect(z, t, key, now, Batching.OpenerDeadline(now, wait), k);
    case LeaveOp(t, key) => LeaveEffect(z, t, key, k);
    case ClaimOp(key) => ClaimEffect(z, key, k);
  }

  /** Conservation: over any history, a task that joined a batch once was handed out once, or left
      once, or is still a member -- and only one of the three. */
  lemma {:induction false} MembersConserved(ops: seq<Op>, t: string, k: string)
    requires NoDueKey(ops) && k != "due" && Joins(ops, t, k) <= 1
    ensures Joins(ops, t, k) == Handed(ops, t, k) + Leaves(ops, t, k) + if t in Members(After(ops), k) then 1 else 0
  {
    if ops != [] {
      var init, op := ops[..|ops| - 1], ops[|ops| - 1];
      MembersConserved(init, t, k);
      IndexAlwaysOk(init);
      OpEffect(After(init), op, k);
    }
  }

  /** A task id is handed out by a claim of its batch at most once per run. */
  lemma HandedOutAtMostOnce(ops: seq<Op>, t: string, k: string)
    requires NoDueKey(ops) && k != "due" && Joins(ops, t, k) <= 1
    ensures Handed(ops, t, k) <= 1
    ensures Handed(ops, t, k) == 1 ==> t !in Members(After(ops), k)
  {
    MembersConserved(ops, t, k);
  }

  // ---- order ----

  /** One operation, seen from the member set of `k` with its scores: a join scores its time. */
  lemma ScoreEffect(z: Store, op: Op, k: string)
    requires op.key != "due" && k != "due"
    ensures var m, m' := ZSet(z, MemberKey(k)), ZSet(Apply(z, op), MemberKey(k));
            if op.key != k then m' == m
            else match op
              case JoinOp(t, _, now, _) => m' == m[t := now]
              case LeaveOp(t, _) => m' == m - {t}
              case ClaimOp(_) => m' == map[]
  {
    NamesDiffer(op.key, k);
    NamesDiffer(k, op.key);
  }

  /** When `t` last joined `k`. */
  function LastJoin(ops: seq<Op>, t: string, k: string): Option<int> {
    if ops == [] then None
    else
      var op := ops[|ops| - 1];
      if op.JoinOp? && op.task == t && op.key == k then Some(op.now) else LastJoin(ops[..|ops| - 1], t, k)
  }

  lemma {:induction false} ScoresAreJoins(ops: seq<Op>, t: string, k: string)
    requires NoDueKey(ops) && k != "due" && t in Members(After(ops), k)
    ensures LastJoin(ops, t, k) == Some(ZSet(After(ops), MemberKey(k))[t])
  {
    if ops != [] {
      var init, op := ops[..|ops| - 1], ops[|ops| - 1];
      ScoreEffect(After(init), op, k);
      if t in Members(After(init), k) { ScoresAreJoins(init, t, k); }
    }
  }

  /** A claim hands out the members of its batch in the order in which they joined, first come first. */
  lemma ClaimedInJoinOrder(ops: seq<Op>, k: string, tasks: seq<string>, i: nat, j: nat)
    requires NoDueKey(ops) && k != "due" && IsRange(ZSet(After(ops), MemberKey(k)), tasks) && i < j < |tasks|
    ensures LastJoin(ops, tasks[i], k).Some? && LastJoin(ops, tasks[j], k).Some?
    ensures LastJoin(ops, tasks[i], k).value <= LastJoin(ops, tasks[j], k).value
  {
    ScoresAreJoins(ops, tasks[i], k);
    ScoresAreJoins(ops, tasks[j], k);
  }

  // ---- epochs ----

  /** Batch `k` stays open from `ops` through all of `mid`. */
  predicate OpenThrough(ops: seq<Op>, mid: seq<Op>, k: string) {
    forall i | 0 <= i <= |mid| :: Members(After(ops + mid[..i]), k) != {}
  }

  lemma AfterLast(ops: seq<Op>, op: Op)
    ensures After(ops + [op]) == Apply(After(ops), op)
  {
    assert (ops + [op])[..|ops|] == ops;
  }

  /** Epochs: from the join that opens a batch on, through any operations on any batches that leave it
      open, its deadline is the opener's. */
  lemma {:induction false} EpochDeadline(pre: seq<Op>, opener: Op, mid: seq<Op>)
    requires NoDueKey(pre + [opener] + mid) && opener.JoinOp?
    requires Members(After(pre), opener.key) == {}
    requires OpenThrough(pre + [opener], mid, opener.key)
    ensures Deadline(After(pre), opener.key) == None
    ensures Deadline(After(pre + [opener] + mid), opener.key)
         == Some(Batching.OpenerDeadline(opener.now, opener.wait))
  {
    var k, base := opener.key, pre + [opener];
    assert forall i | 0 <= i < |pre| :: pre[i] == (base + mid)[i];
    assert opener == (base + mid)[|pre|];
    IndexAlwaysOk(pre);
    if mid == [] {
      AfterLast(pre, opener);
      OpEffect(After(pre), opener, k);
      assert base + mid == base;
    } else {
      var init, op := mid[..|mid| - 1], mid[|mid| - 1];
      assert base + mid == (base + init) + [op];
      assert forall i | 0 <= i < |base + init| :: (base + init)[i] == (base + mid)[i];
      assert forall i | 0 <= i <= |init| :: init[..i] == mid[..i];
      EpochDeadline(pre, opener, init);
      IndexAlwaysOk(base + init);
      AfterLast(base + init, op);
      assert op == (base + mid)[|base + init|];
      OpEffect(After(base + init), op, k);
      assert mid[..|mid|] == mid;
      assert Members(After(base + mid), k) != {};
    }
  }

  /** ... so that every join of the open batch, the opener's aside, finds the opener's deadline, leaves it
      as it is, hence returns it, and reports not having written it: one join of the epoch writes. */
  lemma JoinsOfAnEpoch(pre: seq<Op>, opener: Op, mid: seq<Op>, i: nat)
    requires NoDueKey(pre + [opener] + mid) && opener.JoinOp?
    requires Members(After(pre), opener.key) == {}
    requires OpenThrough(pre + [opener], mid, opener.key)
    requires i < |mid| && mid[i].JoinOp? && mid[i].key == opener.key
    ensures var k, due := opener.key, Batching.OpenerDeadline(opener.now, opener.wait);
            && Deadline(After(pre), k) == None
            && Deadline(After(pre + [opener]), k) == Some(due)
            && Deadline(After(pre + [opener] + mid[..i]), k) == Some(due)
            && Deadline(After(pre + [opener] + mid[..i + 1]), k) == Some(due)
  {
    EpochPrefix(pre, opener, mid, 0);
    EpochPrefix(pre, opener, mid, i);
    EpochPrefix(pre, opener, mid, i + 1);
    assert pre + [opener] + mid[..0] == pre + [opener];
  }

  lemma EpochPrefix(pre: seq<Op>, opener: Op, mid: seq<Op>, i: nat)
    requires NoDueKey(pre + [opener] + mid) && opener.JoinOp?
    requires Members(After(pre), opener.key) == {}
    requires OpenThrough(pre + [opener], mid, opener.key) && i <= |mid|
    ensures Deadline(After(pre), opener.key) == None
    ensures Deadline(After(pre + [opener] + mid[..i]), opener.key)
         == Some(Batching.OpenerDeadline(opener.now, opener.wait))
  {
    var base := pre + [opener];
    assert forall k | 0 <= k < |base + mid[..i]| :: (base + mid[..i])[k] == (base + mid)[k];
    assert forall k | 0 <= k <= i :: mid[..i][..k] == mid[..k];
    EpochDeadline(pre, opener, mid[..i]);
  }

  /** Deadlines are positive as long as the clock is: a row's `batch_due_at` is never "absent". */
  lemma {:induction false} DeadlinesArePositive(ops: seq<Op>, k: string)
    requires NoDueKey(ops) && k != "due"
    requires forall i | 0 <= i < |ops| :: ops[i].JoinOp? ==> ops[i].now >= 0
    ensures Deadline(After(ops), k).Some? ==> Deadline(After(ops), k).value > 0
  {
    if ops != [] {
      var init, op := ops[..|ops| - 1], ops[|ops| - 1];
      DeadlinesArePositive(init, k);
      IndexAlwaysOk(init);
      OpEffect(After(init), op, k);
    }
  }

  // ---- the grouping key "due" ----

  /** Clients and models can name it. */
  lemma DueKeyIsReachable(model: string, tokenHash: string, groupBy: string)
    ensures Batching.GroupKey("due", model, tokenHash, groupBy) == "due"
    ensures Batching.GroupKey("", "Due", tokenHash, "model") == "due"
  {
    assert Batching.LStrip("due") == "due" && Batching.RStrip("due") == "due";
    assert Batching.LStrip("Due") == "Due" && Batching.RStrip("Due") == "Due";
    assert Batching.Lower("Due") == "due";
    assert Batching.MakeSafe("due") == "due";
  }

  /** While another batch is open, a claim keeps the index consistent if and only if it is not a claim
      of the batch called "due": that one hands out the other grouping keys as if they were tasks and
      deletes their deadlines. */
  lemma ClaimOfDue(z: Store, key: string, other: string)
    requires IndexOk(z) && other != "due" && other != key && Members(z, other) != {}
    ensures IndexOk(Claimed(z, key)) <==> key != "due"
    ensures key == "due" ==> other in Members(z, key)
  {
    NamesDiffer(key, other);
    NamesDiffer(other, key);
    if key == "due" {
      assert Deadline(Claimed(z, key), other) == None;
      assert Members(Claimed(z, key), other) == Members(z, other) by { NamesDiffer(other, "due"); }
    } else {
      ClaimEffect(z, key, other);
    }
  }
}
