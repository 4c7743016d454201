/** Local task ids (app/services/ids.py) and how they are recognised and rewritten
    (app/services/nativeapi.py). */
module Ids {
  import Batching
  import opened NativeApi

  const PREFIX_MAX := 20

  predicate SlugChar(c: char) { 'a' <= c <= 'z' || '0' <= c <= '9' || c == '-' }
  predicate HexDigit(c: char) { '0' <= c <= '9' || 'a' <= c <= 'f' }

  /** `re.sub` of the class complement: a run of characters outside the class becomes one dash. */
  function Collapse(s: string): string {
    if s == "" then ""
    else if SlugChar(s[0]) then [s[0]] + Collapse(s[1..])
    else if |s| > 1 && !SlugChar(s[1]) then Collapse(s[1..])
    else "-" + Collapse(s[1..])
  }

  function LDash(s: string): string { if s != "" && s[0] == '-' then LDash(s[1..]) else s }
  function RDash(s: string): string {
    if s != "" && s[|s| - 1] == '-' then RDash(s[..|s| - 1]) else s
  }

  function Slug(prefix: string): string {
    RDash(LDash(Batching.Truncate(RDash(LDash(Collapse(Batching.Lower(prefix)))), PREFIX_MAX)))
  }

  /** What an id begins with. */
  function Stem(prefix: string): string { if Slug(prefix) == "" then "task" else Slug(prefix) }

  /** `new_task_id`, with the 32 hex digits of the uuid4. */
  function NewTaskId(prefix: string, hex: string): string { Stem(prefix) + "_" + hex }

  predicate UuidHex(hex: string) { |hex| == 32 && forall i | 0 <= i < 32 :: HexDigit(hex[i]) }

  predicate IdShape(s: string) {
    && 34 <= |s| <= 53 && s[|s| - 33] == '_' && UuidHex(s[|s| - 32..])
    && forall i | 0 <= i < |s| - 33 :: SlugChar(s[i])
  }

  /** `is_local_id`: `$` also matches before a final newline. */
  predicate IsLocalId(s: string) {
    IdShape(s) || (s != "" && s[|s| - 1] == '\n' && IdShape(s[..|s| - 1]))
  }

  predicate AllSlug(s: string) { forall i | 0 <= i < |s| :: SlugChar(s[i]) }

  /** Neither end is a dash. */
  predicate Trim(s: string) { s != "" ==> s[0] != '-' && s[|s| - 1] != '-' }

  predicate Clean(s: string) { AllSlug(s) && Trim(s) && |s| <= PREFIX_MAX }

  lemma {:induction false} CollapseCleans(s: string)
    ensures AllSlug(Collapse(s))
    ensures AllSlug(s) ==> Collapse(s) == s
  {
    if s != "" { CollapseCleans(s[1..]); }
  }

  /** A run of foreign characters inside a prefix becomes one dash, whatever its length. */
  lemma {:induction false} RunsBecomeOneDash(pre: string, bad: string, post: string)
    requires AllSlug(pre) && bad != "" && (forall i | 0 <= i < |bad| :: !SlugChar(bad[i]))
    requires post == "" || SlugChar(post[0])
    ensures Collapse(pre + bad + post) == pre + "-" + Collapse(post)
    decreases |pre| + |bad|
  {
    var s := pre + bad + post;
    if pre != "" {
      assert s[1..] == pre[1..] + bad + post;
      RunsBecomeOneDash(pre[1..], bad, post);
      assert [pre[0]] + (pre[1..] + "-" + Collapse(post)) == pre + "-" + Collapse(post);
    } else if |bad| > 1 {
      assert s[1..] == pre + bad[1..] + post && s[1] == bad[1];
      RunsBecomeOneDash(pre, bad[1..], post);
    } else {
      assert s[1..] == post;
    }
  }

  lemma {:induction false} LDashCleans(s: string)
    requires AllSlug(s)
    ensures AllSlug(LDash(s)) && |LDash(s)| <= |s| && (LDash(s) != "" ==> LDash(s)[0] != '-')
  {
    if s != "" && s[0] == '-' { LDashCleans(s[1..]); }
  }

  lemma {:induction false} RDashCleans(s: string)
    requires AllSlug(s)
    ensures AllSlug(RDash(s)) && |RDash(s)| <= |s|
    ensures RDash(s) == "" || (RDash(s)[0] == s[0] && RDash(s)[|RDash(s)| - 1] != '-')
  {
    if s != "" && s[|s| - 1] == '-' { RDashCleans(s[..|s| - 1]); }
  }

  lemma StripCleans(s: string)
    requires AllSlug(s)
    ensures AllSlug(RDash(LDash(s))) && Trim(RDash(LDash(s))) && |RDash(LDash(s))| <= |s|
  {
    LDashCleans(s);
    RDashCleans(LDash(s));
  }

  /** A slug is clean, and a clean prefix is its own slug, so making a slug twice is making it once; the
      case of the prefix does not matter. */
  lemma SlugIsClean(prefix: string)
    ensures Clean(Slug(prefix))
    ensures Clean(prefix) ==> Slug(prefix) == prefix
    ensures Slug(Slug(prefix)) == Slug(prefix)
    ensures Slug(Batching.Lower(prefix)) == Slug(prefix)
  {
    assert Batching.Lower(Batching.Lower(prefix)) == Batching.Lower(prefix);
    SlugOfAny(prefix);
    if Clean(prefix) { SlugOfClean(prefix); }
    SlugOfClean(Slug(prefix));
  }

  lemma SlugOfAny(prefix: string)
    ensures Clean(Slug(prefix))
  {
    var c := Collapse(Batching.Lower(prefix));
    CollapseCleans(Batching.Lower(prefix));
    StripCleans(c);
    StripCleans(Batching.Truncate(RDash(LDash(c)), PREFIX_MAX));
  }

  lemma SlugOfClean(prefix: string)
    requires Clean(prefix)
    ensures Slug(prefix) == prefix
  {
    assert Batching.Lower(prefix) == prefix;
    CollapseCleans(prefix);
  }

  /** Every generated id is recognised as a local id, and fits the 64 columns of `tasks.task_id`. */
  lemma GeneratedIdsAreLocal(prefix: string, hex: string)
    requires UuidHex(hex)
    ensures IsLocalId(NewTaskId(prefix, hex)) && |NewTaskId(prefix, hex)| <= 53
    ensures Slug(prefix) == "" ==> NewTaskId(prefix, hex) == "task_" + hex
  {
    SlugOfAny(prefix);
    var id := NewTaskId(prefix, hex);
    assert id[|id| - 32..] == hex;
  }

  lemma ShapedIdsAreLocal(p: string, h: string)
    requires IdOf(p, h)
    ensures IsLocalId(p + "_" + h) && IsLocalId(p + "_" + h + "\n")
  {
    var bare := p + "_" + h;
    assert bare[|bare| - 32..] == h;
    var s := bare + "\n";
    assert s[..|s| - 1] == bare;
  }

  /** What is recognised, exactly: one to twenty slug characters, an underscore and 32 hex digits -- and,
      since `$` matches before it, a newline after that. */
  lemma LocalIdsExactly(s: string)
    ensures IsLocalId(s) <==>
              exists p: string, h: string :: IdOf(p, h) && (s == p + "_" + h || s == p + "_" + h + "\n")
  {
    if IsLocalId(s) {
      var bare := if IdShape(s) then s else s[..|s| - 1];
      var p, h := bare[..|bare| - 33], bare[|bare| - 32..];
      assert bare == p + "_" + h && IdOf(p, h);
      assert IdShape(s) || s == bare + "\n";
    }
    forall p: string, h: string | IdOf(p, h) && (s == p + "_" + h || s == p + "_" + h + "\n")
      ensures IsLocalId(s)
    { ShapedIdsAreLocal(p, h); }
  }

  predicate IdOf(p: string, h: string) { 1 <= |p| <= 20 && AllSlug(p) && UuidHex(h) }

  /** Ids are equal if and only if their digits and their stems are. */
  lemma IdsAreInjective(p1: string, h1: string, p2: string, h2: string)
    requires UuidHex(h1) && UuidHex(h2)
    ensures NewTaskId(p1, h1) == NewTaskId(p2, h2) <==> h1 == h2 && Stem(p1) == Stem(p2)
  {
    var a, b := NewTaskId(p1, h1), NewTaskId(p2, h2);
    assert a[|a| - 32..] == h1 && b[|b| - 32..] == h2;
    assert a[..|a| - 33] == Stem(p1) && b[..|b| - 33] == Stem(p2);
  }

  // ---- the ids of /queue, in bodies ----

  /** UTF-8 of an ASCII string. */
  function Encode(s: string): (b: Bytes)
    requires forall i | 0 <= i < |s| :: s[i] < '\U{80}'
    ensures |b| == |s| && forall i | 0 <= i < |s| :: b[i] == s[i] as int
  { seq(|s|, i requires 0 <= i < |s| => s[i] as int) }

  lemma QueueSlug()
    ensures Slug("queue") == "queue"
  {
    assert Clean("queue");
    SlugOfClean("queue");
  }

  /** The 'q' of a queue id occurs in it once. */
  lemma QueueIdsAreMarked(hex: string)
    requires UuidHex(hex)
    ensures forall i | 0 <= i < |NewTaskId("queue", hex)| :: NewTaskId("queue", hex)[i] < '\U{80}'
    ensures Marked(Encode(NewTaskId("queue", hex)))
  {
    QueueSlug();
    var id := NewTaskId("queue", hex);
    assert id == "queue_" + hex && id[0] == 'q';
    forall i | 0 <= i < |id|
      ensures id[i] < '\U{80}' && (i > 0 ==> id[i] != 'q')
    {
      if i >= 6 { assert id[i] == hex[i - 6]; }
    }
  }

  /** Rewrite round trip: for every body and every upstream id, if the local id does not occur in the
      body, rewriting upstream id to local id and then local id to upstream id gives the body back. */
  lemma RewriteRoundTrip(body: Bytes, upstream: Bytes, hex: string)
    requires UuidHex(hex)
    ensures forall i | 0 <= i < |NewTaskId("queue", hex)| :: NewTaskId("queue", hex)[i] < '\U{80}'
    ensures var local := Encode(NewTaskId("queue", hex));
            !Occurs(local, body) ==> RewriteIds(RewriteIds(body, upstream, local), local, upstream) == body
  {
    QueueIdsAreMarked(hex);
    var local := Encode(NewTaskId("queue", hex));
    if upstream != [] && upstream != local && !Occurs(local, body) {
      forall p | p in Pieces(body, upstream)
        ensures !Occurs(local, p)
      {
        if Occurs(local, p) { PiecesOccur(body, upstream, local, p); }
      }
      RoundTripExactly(body, upstream, local);
    }
  }
}
