/** The batch index (the three batch scripts of app/redis.py and their callers in
    app/services/batching.py): one ZSET of members per grouping key and one ZSET of deadlines, in one
    flat space of Redis key names. */
module BatchIndex {
  import opened Wrappers
  import Batching

  /** All ZSETs by key name; an absent name is an empty ZSET. */
  type Store = map<string, map<string, int>>

  const DUE_KEY := "atask:batch:due"

  /** K_BATCH.format(key=...) */
  function MemberKey(key: string): string { "atask:batch:" + key }

  // ---- ZSET commands ----

  function ZSet(z: Store, name: string): map<string, int> { if name in z then z[name] else map[] }

  /** An emptied ZSET is deleted. */
  function Put(z: Store, name: string, m: map<string, int>): Store {
    if m == map[] then z - {name} else z[name := m]
  }

  function ZAdd(z: Store, name: string, score: int, member: string): Store {
    Put(z, name, ZSet(z, name)[member := score])
  }

  function ZAddNX(z: Store, name: string, score: int, member: string): Store {
    if member in ZSet(z, name) then z else ZAdd(z, name, score, member)
  }

  function ZRem(z: Store, name: string, member: string): Store {
    Put(z, name, ZSet(z, name) - {member})
  }

  // ---- the scripts ----

  function Joined(z: Store, task: string, key: string, now: int, due: int): Store {
    ZAddNX(ZAdd(z, MemberKey(key), now, task), DUE_KEY, due, key)
  }

  function Claimed(z: Store, key: string): Store { ZRem(z - {MemberKey(key)}, DUE_KEY, key) }

  function Left(z: Store, task: string, key: string): Store {
    var z1 := ZRem(z, MemberKey(key), task);
    if ZSet(z1, MemberKey(key)) == map[] then ZRem(z1 - {MemberKey(key)}, DUE_KEY, key) else z1
  }

  function Members(z: Store, key: string): set<string> { ZSet(z, MemberKey(key)).Keys }

  function Deadline(z: Store, key: string): Option<int> {
    if key in ZSet(z, DUE_KEY) then Some(ZSet(z, DUE_KEY)[key]) else None
  }

  /** ZRANGE 0 -1: all members, each once, by score; the order of equal scores is left open. */
  predicate IsRange(m: map<string, int>, r: seq<string>) {
    && (set x | x in r) == m.Keys
    && (forall i, j | 0 <= i < j < |r| :: r[i] != r[j])
    && (forall i, j | 0 <= i < j < |r| :: r[i] in m && r[j] in m && m[r[i]] <= m[r[j]])
  }

  method ZRange(m: map<string, int>) returns (r: seq<string>)
    ensures IsRange(m, r)
  {
    r := [];
    var rest := m.Keys;
    while rest != {}
      invariant rest <= m.Keys && (set x | x in r) == m.Keys - rest
      invariant forall i | 0 <= i < |r| :: r[i] in m
      invariant forall i, j | 0 <= i < j < |r| :: r[i] != r[j]
      invariant forall i, j | 0 <= i < j < |r| :: r[i] in m && r[j] in m && m[r[i]] <= m[r[j]]
      decreases rest
    {
      var x :| x in rest;
      var i := 0;
      while i < |r| && m[r[i]] <= m[x]
        invariant 0 <= i <= |r|
        invariant forall k | 0 <= k < i :: r[k] in m && m[r[k]] <= m[x]
      { i := i + 1; }
      assert x !in r by { assert x !in (set y | y in r); }
      InsertKeepsOrder(m, r, i, x);
      r := r[..i] + [x] + r[i..];
      rest := rest - {x};
    }
  }

  lemma InsertKeepsOrder(m: map<string, int>, r: seq<string>, i: nat, x: string)
    requires i <= |r| && x in m && x !in r && forall y | y in r :: y in m
    requires forall a, b | 0 <= a < b < |r| :: r[a] != r[b]
    requires forall a, b | 0 <= a < b < |r| :: r[a] in m && r[b] in m && m[r[a]] <= m[r[b]]
    requires forall k | 0 <= k < i :: r[k] in m && m[r[k]] <= m[x]
    requires i < |r| ==> r[i] in m && m[x] < m[r[i]]
    ensures var r' := r[..i] + [x] + r[i..];
            && (set y | y in r') == (set y | y in r) + {x}
            && (forall a, b | 0 <= a < b < |r'| :: r'[a] != r'[b])
            && (forall a, b | 0 <= a < b < |r'| :: r'[a] in m && r'[b] in m && m[r'[a]] <= m[r'[b]])
  {
    var r' := r[..i] + [x] + r[i..];
    assert forall y :: y in r' <==> y in r || y == x by { assert r == r[..i] + r[i..]; }
    forall a, b | 0 <= a < b < |r'|
      ensures r'[a] != r'[b] && r'[a] in m && r'[b] in m && m[r'[a]] <= m[r'[b]]
    {
      if a < i { assert r'[a] == r[a]; } else if a > i { assert r'[a] == r[a - 1]; }
      if b < i { assert r'[b] == r[b]; } else if b > i { assert r'[b] == r[b - 1]; }
      if a < i && b == i { assert r[a] in r; }
      if a == i && b > i + 1 { assert m[r[i]] <= m[r[b - 1]]; }
    }
  }

  /** The index in Redis, updated in place by the scripts. */
  class Index {
    var zsets: Store

    constructor ()
      ensures zsets == map[]
    { zsets := map[]; }

    /** `join`: the member count, the batch's real deadline (read back from the index) and whether this
        call wrote it. */
    method Join(task: string, key: string, waitSeconds: int, now: int) returns (count: nat, due: int, wrote: bool)
      modifies this
      ensures zsets == Joined(old(zsets), task, key, now, Batching.OpenerDeadline(now, waitSeconds))
      ensures count == |ZSet(zsets, MemberKey(key))| && Deadline(zsets, key) == Some(due)
      ensures key != "due" ==> wrote == (Deadline(old(zsets), key) == None)
    {
      var window := if waitSeconds < 1 then 1 else waitSeconds;
      var dueAt := now + window;
      zsets := ZAdd(zsets, MemberKey(key), now, task);
      wrote := key !in ZSet(zsets, DUE_KEY);
      zsets := ZAddNX(zsets, DUE_KEY, dueAt, key);
      count := |ZSet(zsets, MemberKey(key))|;
      due := ZSet(zsets, DUE_KEY)[key];
      NamesDiffer(key, key);
    }

    /** `claim`: all members in the order in which they joined. */
    method Claim(key: string) returns (tasks: seq<string>)
      modifies this
      ensures IsRange(ZSet(old(zsets), MemberKey(key)), tasks) && zsets == Claimed(old(zsets), key)
      ensures forall t :: t in tasks <==> t in Members(old(zsets), key)
    {
      tasks := ZRange(ZSet(zsets, MemberKey(key)));
      zsets := zsets - {MemberKey(key)};
      zsets := ZRem(zsets, DUE_KEY, key);
    }

    method Leave(task: string, key: string)
      modifies this
      ensures zsets == Left(old(zsets), task, key)
    {
      zsets := ZRem(zsets, MemberKey(key), task);
      if ZSet(zsets, MemberKey(key)) == map[] {
        zsets := zsets - {MemberKey(key)};
        zsets := ZRem(zsets, DUE_KEY, key);
      }
    }
  }

  // ---- key names ----

  /** Grouping keys have distinct member sets, and only the key "due" shares one with the deadlines. */
  lemma NamesDiffer(k1: string, k2: string)
    ensures MemberKey(k1) == MemberKey(k2) <==> k1 == k2
    ensures MemberKey(k1) == DUE_KEY <==> k1 == "due"
  {
    assert MemberKey(k1)[12..] == k1 && MemberKey(k2)[12..] == k2;
    assert DUE_KEY[12..] == "due";
    assert DUE_KEY == "atask:batch:" + "due";
  }

  // ---- what the index keeps ----

  /** A batch has a deadline exactly while it has members. */
  ghost predicate IndexOk(z: Store) {
    forall key | key != "due" :: Deadline(z, key).Some? <==> Members(z, key) != {}
  }

  /** A join adds its task to its batch and to no other, and sets a deadline only on an empty batch. */
  lemma JoinEffect(z: Store, task: string, key: string, now: int, due: int, other: string)
    requires IndexOk(z) && key != "due" && other != "due"
    ensures var z' := Joined(z, task, key, now, due);
            && IndexOk(z')
            && Members(z', other) == Members(z, other) + (if other == key then {task} else {})
            && Deadline(z', other) == if other == key && Deadline(z, key) == None then Some(due) else Deadline(z, other)
  {
    forall k | k != "due"
      ensures var z' := Joined(z, task, key, now, due);
              && Members(z', k) == Members(z, k) + (if k == key then {task} else {})
              && Deadline(z', k) == if k == key && Deadline(z, key) == None then Some(due) else Deadline(z, k)
    {
      NamesDiffer(key, k);
      NamesDiffer(k, key);
    }
  }

  /** A claim empties its batch and no other; a leave takes out its task and no other. */
  lemma ClaimEffect(z: Store, key: string, other: string)
    requires IndexOk(z) && key != "due" && other != "due"
    ensures var z' := Claimed(z, key);
            && IndexOk(z')
            && Members(z', other) == (if other == key then {} else Members(z, other))
            && Deadline(z', other) == if other == key then None else Deadline(z, other)
  {
    forall k | k != "due"
      ensures var z' := Claimed(z, key);
              && Members(z', k) == (if k == key then {} else Members(z, k))
              && Deadline(z', k) == if k == key then None else Deadline(z, k)
    {
      NamesDiffer(key, k);
      NamesDiffer(k, key);
    }
  }

  lemma LeaveEffect(z: Store, task: string, key: string, other: string)
    requires IndexOk(z) && key != "due" && other != "due"
    ensures var z' := Left(z, task, key);
            && IndexOk(z')
            && Members(z', other) == (if other == key then Members(z, key) - {task} else Members(z, other))
            && Deadline(z', other) == if other == key && Members(z, key) <= {task} then None else Deadline(z, other)
  {
    forall k | k != "due"
      ensures var z' := Left(z, task, key);
              && Members(z', k) == (if k == key then Members(z, key) - {task} else Members(z, k))
              && Deadline(z', k) == if k == key && Members(z, key) <= {task} then None else Deadline(z, k)
    {
      NamesDiffer(key, k);
      NamesDiffer(k, key);
      assert Members(z, key) <= {task} <==> Members(z, key) - {task} == {};
    }
  }
}
