/** The two scripts behind app/deps/ratelimit.py: the concurrency counter of a token and the sliding
    window of a subject (app/redis.py). */
module RateLimit {
  import opened Wrappers
  import opened TaskStore

  // ---- concurrency counters ----

  /** The value of a counter; a missing key is 0. */
  function Counter(conc: map<Token, nat>, tok: Token): nat { if tok in conc then conc[tok] else 0 }

  /** LUA_CONC_RELEASE: decrement, clamped at 0. */
  function Decremented(n: nat): nat { if n == 0 then 0 else n - 1 }

  class SlotCounters {
    var conc: map<Token, nat>

    constructor ()
      ensures conc == map[]
    { conc := map[]; }

    /** LUA_CONC_ACQUIRE: increment, and take it back beyond the limit. */
    method TryAcquire(tok: Token, limit: nat) returns (ok: bool)
      modifies this
      ensures ok == (Counter(old(conc), tok) < limit)
      ensures forall u :: Counter(conc, u) == Counter(old(conc), u) + if ok && u == tok then 1 else 0
    {
      conc := conc[tok := Counter(conc, tok) + 1];
      ok := conc[tok] <= limit;
      if !ok { conc := conc[tok := conc[tok] - 1]; }
    }

    /** `conc_release`, whose own failure is swallowed. */
    method Release(tok: Token, raises: bool)
      modifies this
      ensures forall u :: Counter(conc, u) ==
                if u == tok && !raises then Decremented(Counter(old(conc), u)) else Counter(old(conc), u)
    {
      if !raises {
        var n: int := Counter(conc, tok) - 1;
        conc := conc[tok := if n < 0 then 0 else n];
      }
    }
  }

  // ---- sliding window ----

  const SPAN_MS: nat := 60_000

  /** A ZSET member "<now>:<random>", whose score is its `at`. */
  datatype Member = Member(at: nat, draw: nat)

  /** ZREMRANGEBYSCORE 0 .. now - span. */
  function Prune(w: set<Member>, now: nat): set<Member> { set m | m in w && m.at > now - SPAN_MS }

  function Admits(w: set<Member>, now: nat, limit: int): bool { |Prune(w, now)| < limit }

  function AfterCall(w: set<Member>, call: Member, limit: int): set<Member> {
    if Admits(w, call.at, limit) then Prune(w, call.at) + {call} else Prune(w, call.at)
  }

  class RateWindow {
    var entries: set<Member>

    constructor ()
      ensures entries == {}
    { entries := {}; }

    /** LUA_RATE_LIMIT at time `call.at`, with the member it would add. */
    method CheckRate(call: Member, limit: int) returns (ok: bool)
      modifies this
      ensures ok == Admits(old(entries), call.at, limit)
      ensures entries == AfterCall(old(entries), call, limit)
    {
      entries := set m | m in entries && m.at > call.at - SPAN_MS;
      var n := |entries|;
      if n >= limit { return false; }
      entries := entries + {call};
      return true;
    }
  }

  /** Calls in the order in which the script runs them: time does not go back. */
  predicate Ordered(calls: seq<Member>) {
    forall i, j | 0 <= i < j < |calls| :: calls[i].at <= calls[j].at
  }

  predicate Distinct(calls: seq<Member>) {
    forall i, j | 0 <= i < j < |calls| :: calls[i] != calls[j]
  }

  /** The window after all `calls`, from an empty one. */
  function Window(calls: seq<Member>, limit: int): set<Member> {
    if calls == [] then {}
    else AfterCall(Window(calls[..|calls| - 1], limit), calls[|calls| - 1], limit)
  }

  predicate Accepted(calls: seq<Member>, i: nat, limit: int)
    requires i < |calls|
  { Admits(Window(calls[..i], limit), calls[i].at, limit) }

  /** One minute, as the laws below mean it. */
  const MINUTE: nat := 60_000

  /** How many of `calls` with a time in (t - a minute, t] were accepted. */
  function AcceptedIn(calls: seq<Member>, t: nat, limit: int): nat {
    if calls == [] then 0
    else
      var last := |calls| - 1;
      AcceptedIn(calls[..last], t, limit)
      + if t - MINUTE < calls[last].at <= t && Accepted(calls, last, limit) then 1 else 0
  }

  /** The members those accepted calls left behind, pruned or not. */
  function AcceptedMembers(calls: seq<Member>, t: nat, limit: int): (r: set<Member>)
    ensures forall m | m in r :: t - MINUTE < m.at <= t && m in calls
  {
    if calls == [] then {}
    else
      var last := |calls| - 1;
      AcceptedMembers(calls[..last], t, limit)
      + if t - MINUTE < calls[last].at <= t && Accepted(calls, last, limit) then {calls[last]} else {}
  }

  /** How many of the accepted calls repeated a member that an earlier one of the same span had. */
  function Repeats(calls: seq<Member>, t: nat, limit: int): nat {
    if calls == [] then 0
    else
      var init, last := calls[..|calls| - 1], |calls| - 1;
      Repeats(init, t, limit)
      + if t - MINUTE < calls[last].at <= t && Accepted(calls, last, limit)
           && calls[last] in AcceptedMembers(init, t, limit) then 1 else 0
  }

  lemma {:induction false} CountTheMembers(calls: seq<Member>, t: nat, limit: int)
    ensures AcceptedIn(calls, t, limit) == |AcceptedMembers(calls, t, limit)| + Repeats(calls, t, limit)
  {
    if calls != [] {
      var init, x := calls[..|calls| - 1], calls[|calls| - 1];
      var before := AcceptedMembers(init, t, limit);
      CountTheMembers(init, t, limit);
      if t - MINUTE < x.at <= t && Accepted(calls, |calls| - 1, limit) {
        assert AcceptedMembers(calls, t, limit) == before + {x};
        assert |before + {x}| == |before| + Bit(x !in before) by { if x in before { assert before + {x} == before; } }
      } else {
        assert AcceptedMembers(calls, t, limit) == before;
      }
    }
  }

  lemma {:induction false} DistinctNeverRepeat(calls: seq<Member>, t: nat, limit: int)
    requires Distinct(calls)
    ensures Repeats(calls, t, limit) == 0
  {
    if calls != [] {
      var init, x := calls[..|calls| - 1], calls[|calls| - 1];
      DistinctNeverRepeat(init, t, limit);
      assert x !in AcceptedMembers(init, t, limit);
    }
  }

  /** Whatever was accepted in (t - span, t] and is younger than `now - span` is still there when the
      window is pruned at `now`. */
  lemma {:induction false} NothingYoungIsLost(calls: seq<Member>, t: nat, limit: int, now: nat)
    requires Ordered(calls) && forall m | m in calls :: m.at <= now
    requires now <= t
    ensures AcceptedMembers(calls, t, limit) <= Prune(Window(calls, limit), now)
  {
    if calls != [] {
      var init, x := calls[..|calls| - 1], calls[|calls| - 1];
      assert forall m | m in init :: m.at <= x.at;
      NothingYoungIsLost(init, t, limit, x.at);
    }
  }

  /** Whatever is in the window was accepted, so that what pruning leaves at `now` are exactly the members
      accepted in the last minute. */
  lemma {:induction false} OnlyAcceptedAreThere(calls: seq<Member>, limit: int, now: nat)
    requires Ordered(calls) && forall m | m in calls :: m.at <= now
    ensures Prune(Window(calls, limit), now) <= AcceptedMembers(calls, now, limit)
  {
    if calls != [] {
      var init, x := calls[..|calls| - 1], calls[|calls| - 1];
      assert forall m | m in init :: m in calls;
      OnlyAcceptedAreThere(init, limit, now);
      assert Prune(Window(calls, limit), now) <= Prune(Window(init, limit), now) + {x};
      if x in Prune(Window(calls, limit), now) && !Accepted(calls, |init|, limit) {
        assert x in Prune(Window(init, limit), now);
      }
    }
  }

  lemma PrunedAreAccepted(calls: seq<Member>, limit: int, now: nat)
    requires Ordered(calls) && forall m | m in calls :: m.at <= now
    ensures Prune(Window(calls, limit), now) == AcceptedMembers(calls, now, limit)
  {
    NothingYoungIsLost(calls, now, limit, now);
    OnlyAcceptedAreThere(calls, limit, now);
  }

  lemma Before(calls: seq<Member>, i: nat)
    requires Ordered(calls) && i < |calls|
    ensures Ordered(calls[..i]) && (forall m | m in calls[..i] :: m.at <= calls[i].at)
    ensures Distinct(calls) ==> Distinct(calls[..i])
  {
    forall m | m in calls[..i] ensures m.at <= calls[i].at {
      var k :| 0 <= k < i && calls[k] == m;
    }
  }

  /** Admission, exactly: for request times that do not go back a request is accepted if and only if fewer
      than `limit` members were accepted in the minute that ends with it; with distinct members, if and
      only if fewer than `limit` requests were. */
  lemma AcceptedExactly(calls: seq<Member>, i: nat, limit: int)
    requires Ordered(calls) && i < |calls|
    ensures Accepted(calls, i, limit) <==> |AcceptedMembers(calls[..i], calls[i].at, limit)| < limit
    ensures Distinct(calls) ==> (Accepted(calls, i, limit) <==> AcceptedIn(calls[..i], calls[i].at, limit) < limit)
  {
    Before(calls, i);
    PrunedAreAccepted(calls[..i], limit, calls[i].at);
    CountTheMembers(calls[..i], calls[i].at, limit);
    if Distinct(calls) { DistinctNeverRepeat(calls[..i], calls[i].at, limit); }
  }

  /** The members of the accepted calls of any minute are never more than the limit. */
  lemma {:induction false} MembersBound(calls: seq<Member>, t: nat, limit: nat)
    requires Ordered(calls)
    ensures |AcceptedMembers(calls, t, limit)| <= limit
  {
    if calls != [] {
      var init, x := calls[..|calls| - 1], calls[|calls| - 1];
      MembersBound(init, t, limit);
      if t - MINUTE < x.at <= t && Accepted(calls, |init|, limit) {
        NothingYoungIsLost(init, t, limit, x.at);
        SubsetIsSmaller(AcceptedMembers(init, t, limit), Prune(Window(init, limit), x.at));
      }
    }
  }

  /** Sliding window bound: for every sequence of request times that does not go back and for every
      instant, the accepted requests of the last minute exceed the limit at most by those that repeated
      the member of an accepted one; with distinct members they never exceed it. */
  lemma WindowBound(calls: seq<Member>, t: nat, limit: nat)
    requires Ordered(calls)
    ensures AcceptedIn(calls, t, limit) <= limit + Repeats(calls, t, limit)
    ensures Distinct(calls) ==> AcceptedIn(calls, t, limit) <= limit
  {
    MembersBound(calls, t, limit);
    CountTheMembers(calls, t, limit);
    if Distinct(calls) { DistinctNeverRepeat(calls, t, limit); }
  }

  /** Repeats do pass: equal draws in the same millisecond are counted once, so that three requests pass
      a limit of two. */
  lemma EqualDrawsPass(m: Member)
    ensures AcceptedIn([m, m, m], m.at, 2) == 3
  {
    var c := [m, m, m];
    assert c[..2] == [m, m] && c[..1] == [m] && c[..0] == [];
    assert [m, m][..1] == [m] && [m, m][..0] == [] && [m][..0] == [];
    assert Prune({m}, m.at) == {m} && Prune({}, m.at) == {};
    assert Window([], 2) == {} && Window([m], 2) == {m} && Window([m, m], 2) == {m};
    assert Accepted(c, 0, 2) && Accepted(c, 1, 2) && Accepted(c, 2, 2);
    assert AcceptedIn([], m.at, 2) == 0;
    assert AcceptedIn([m], m.at, 2) == 1;
    assert AcceptedIn([m, m], m.at, 2) == 2;
  }

  // ---- the key's own expiry ----

  /** The window as Redis keeps it: PEXPIRE drops the whole key `SPAN_MS` after the last accepted
      request. */
  datatype Key = Key(entries: set<Member>, expiresAt: nat)

  function Live(k: Key, now: nat): set<Member> { if k.expiresAt <= now then {} else k.entries }

  function AfterKeyCall(k: Key, call: Member, limit: int): Key {
    var w := Live(k, call.at);
    if Admits(w, call.at, limit) then Key(Prune(w, call.at) + {call}, call.at + SPAN_MS)
    else Key(Prune(w, call.at), k.expiresAt)
  }

  function KeyAfter(calls: seq<Member>, limit: int): Key {
    if calls == [] then Key({}, 0)
    else AfterKeyCall(KeyAfter(calls[..|calls| - 1], limit), calls[|calls| - 1], limit)
  }

  /** The key holds the window, and outlives every member of it. */
  predicate Keeps(k: Key, w: set<Member>) {
    k.entries == w && forall m | m in w :: m.at + SPAN_MS <= k.expiresAt
  }

  lemma ExpiredIsPruned(k: Key, w: set<Member>, now: nat)
    requires Keeps(k, w)
    ensures Prune(Live(k, now), now) == Prune(w, now)
  {
    if k.expiresAt <= now {
      forall m | m in w ensures m !in Prune(w, now) {}
      assert Prune(w, now) == {};
    }
  }

  lemma {:induction false} KeyKeepsWindow(calls: seq<Member>, limit: int)
    requires Ordered(calls)
    ensures Keeps(KeyAfter(calls, limit), Window(calls, limit))
  {
    if calls != [] {
      var init, x := calls[..|calls| - 1], calls[|calls| - 1];
      KeyKeepsWindow(init, limit);
      ExpiredIsPruned(KeyAfter(init, limit), Window(init, limit), x.at);
      MembersAreCalls(init, limit);
      assert forall m | m in init :: m.at <= x.at;
    }
  }

  lemma {:induction false} MembersAreCalls(calls: seq<Member>, limit: int)
    ensures forall m | m in Window(calls, limit) :: m in calls
  {
    if calls != [] { MembersAreCalls(calls[..|calls| - 1], limit); }
  }

  /** The expiry of the key never changes a later decision: whenever the next call comes, the script
      decides as it would on a window that never expires. */
  lemma ExpiryChangesNothing(calls: seq<Member>, limit: int, now: nat)
    requires Ordered(calls)
    ensures Admits(Live(KeyAfter(calls, limit), now), now, limit) == Admits(Window(calls, limit), now, limit)
  {
    KeyKeepsWindow(calls, limit);
    ExpiredIsPruned(KeyAfter(calls, limit), Window(calls, limit), now);
  }
}
