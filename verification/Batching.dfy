/** The pure part of app/services/batching.py: batch headers, the effective plan, the grouping key
    and the retry delay of a member that found no concurrency slot. */
module Batching {
  import opened Wrappers

  const MAX_BATCH := 1000
  const MAX_KEY_LEN := 64

  // ---- grouping keys ----

  /** Characters that Python's `str.strip` removes. */
  predicate IsSpace(c: char) {
    || '\t' <= c <= '\r' || '\U{1c}' <= c <= ' ' || c == '\U{85}' || c == '\U{a0}' || c == '\U{1680}'
    || '\U{2000}' <= c <= '\U{200a}' || c == '\U{2028}' || c == '\U{2029}' || c == '\U{202f}'
    || c == '\U{205f}' || c == '\U{3000}'
  }

  /** The white list of `_KEY_SAFE`. */
  predicate SafeChar(c: char) {
    'A' <= c <= 'Z' || 'a' <= c <= 'z' || '0' <= c <= '9' || c == '.' || c == '_' || c == ':' || c == '-'
  }

  predicate SafeKey(s: string) {
    |s| <= 64 && forall i | 0 <= i < |s| :: SafeChar(s[i])
  }

  function LStrip(s: string): (r: string)
    ensures |r| <= |s|
    ensures r == s || (|s| > 0 && IsSpace(s[0]))
  { if |s| > 0 && IsSpace(s[0]) then LStrip(s[1..]) else s }

  function RStrip(s: string): (r: string)
    ensures |r| <= |s|
    ensures r == s || (|s| > 0 && IsSpace(s[|s| - 1]))
  { if |s| > 0 && IsSpace(s[|s| - 1]) then RStrip(s[..|s| - 1]) else s }

  function Strip(s: string): string { RStrip(LStrip(s)) }

  function Truncate(s: string, n: nat): string { if |s| <= n then s else s[..n] }

  function MakeSafe(s: string): (r: string)
    ensures |r| == |s|
    ensures forall i | 0 <= i < |s| :: r[i] == if SafeChar(s[i]) then s[i] else '_'
  { seq(|s|, i requires 0 <= i < |s| => if SafeChar(s[i]) then s[i] else '_') }

  function SanitizeKey(raw: string): string { MakeSafe(Truncate(Strip(raw), MAX_KEY_LEN)) }

  /** A grouping key never leaves the white list, and sanitising twice is sanitising once: keys that
      were already cleaned by the header parser are not moved to another batch by `group_key`. */
  lemma SanitizeIsIdempotent(raw: string)
    ensures SafeKey(SanitizeKey(raw))
    ensures SanitizeKey(SanitizeKey(raw)) == SanitizeKey(raw)
  {
    var k := SanitizeKey(raw);
    if |k| > 0 {
      assert SafeChar(k[0]) && SafeChar(k[|k| - 1]);
    }
    assert Strip(k) == k;
  }

  /** Sanitising leaves safe keys as they are, and of any other key the first 64 characters between its
      blanks, with an underscore for each one outside the white list. */
  lemma SanitizeKeepsWhatIsSafe(raw: string)
    ensures SafeKey(raw) ==> SanitizeKey(raw) == raw
    ensures var k, bare := SanitizeKey(raw), Strip(raw);
            && |k| == (if |bare| < 64 then |bare| else 64)
            && forall i | 0 <= i < |k| :: k[i] == if SafeChar(bare[i]) then bare[i] else '_'
  {
    if SafeKey(raw) && |raw| > 0 {
      assert SafeChar(raw[0]) && SafeChar(raw[|raw| - 1]);
    }
  }

  function LowerChar(c: char): char { if 'A' <= c <= 'Z' then c - 'A' + 'a' else c }

  function Lower(s: string): (r: string)
    ensures |r| == |s|
  { seq(|s|, i requires 0 <= i < |s| => LowerChar(s[i])) }

  function GroupKey(batchKey: string, model: string, tokenHash: string, groupBy: string): string {
    if batchKey != "" then SanitizeKey(batchKey)
    else
      var m := Lower(Strip(model));
      if groupBy == "token_model" then SanitizeKey(Truncate(tokenHash, 12) + ":" + m)
      else SanitizeKey(m)
  }

  /** Grouping by model: the token does not matter, case and surrounding blanks do not, and the name of a
      model that is a safe key in lower case is the key of its batch. */
  lemma ModelsGroupByName(m1: string, m2: string, h1: string, h2: string, groupBy: string)
    requires groupBy != "token_model"
    ensures Lower(Strip(m1)) == Lower(Strip(m2)) ==> GroupKey("", m1, h1, groupBy) == GroupKey("", m2, h2, groupBy)
    ensures SafeKey(Lower(Strip(m1))) ==> GroupKey("", m1, h1, groupBy) == Lower(Strip(m1))
  {
    SanitizeKeepsWhatIsSafe(Lower(Strip(m1)));
  }

  predicate HexHash(h: string) {
    |h| >= 12 && forall i | 0 <= i < |h| :: '0' <= h[i] <= '9' || 'a' <= h[i] <= 'f'
  }

  /** Grouping by token: without an explicit key, two tokens whose hashes differ in their first
      twelve digits never share a batch, whatever their models. */
  lemma TokensDoNotShareABatch(h1: string, h2: string, m1: string, m2: string)
    requires HexHash(h1) && HexHash(h2) && h1[..12] != h2[..12]
    ensures GroupKey("", m1, h1, "token_model") != GroupKey("", m2, h2, "token_model")
  {
    TokenPrefixSurvives(h1, Lower(Strip(m1)));
    TokenPrefixSurvives(h2, Lower(Strip(m2)));
  }

  /** ... and a token's models do not share one either: the key spells both out. */
  lemma TokenModelKeys(h: string, m: string)
    requires HexHash(h) && SafeKey(Lower(Strip(m))) && |Lower(Strip(m))| <= 51
    ensures GroupKey("", m, h, "token_model") == h[..12] + ":" + Lower(Strip(m))
  {
    var k := h[..12] + ":" + Lower(Strip(m));
    assert Truncate(h, 12) == h[..12];
    forall i | 0 <= i < |k|
      ensures SafeChar(k[i])
    {
      if i < 12 { assert k[i] == h[i]; } else if i > 12 { assert k[i] == Lower(Strip(m))[i - 13]; }
    }
    SanitizeKeepsWhatIsSafe(k);
  }

  lemma TokenPrefixSurvives(h: string, m: string)
    requires HexHash(h)
    ensures |SanitizeKey(Truncate(h, 12) + ":" + m)| >= 12
    ensures SanitizeKey(Truncate(h, 12) + ":" + m)[..12] == h[..12]
  {
    var s := Truncate(h, 12) + ":" + m;
    assert Truncate(h, 12) == h[..12] && s[..12] == h[..12] && s[12] == ':';
    assert s[0] == h[0];
    assert LStrip(s) == s;
    RStripKeeps(s, 13);
  }

  /** Stripping on the right stops at the last character that is not a space. */
  lemma {:induction false} RStripKeeps(s: string, n: nat)
    requires 0 < n <= |s| && !IsSpace(s[n - 1])
    ensures |RStrip(s)| >= n && RStrip(s)[..n] == s[..n]
  {
    if IsSpace(s[|s| - 1]) {
      RStripKeeps(s[..|s| - 1], n);
      assert s[..|s| - 1][..n] == s[..n];
    }
  }

  // ---- headers and the effective plan ----

  /** A numeric header as `int(text, 10)` sees it. */
  datatype IntHeader = Absent | NotAnInt | Int(v: int)

  datatype Headers = Headers(size: IntHeader, wait: IntHeader, key: Option<string>)

  datatype Settings = Settings(size: int, wait: int, maxWait: int, groupBy: string)

  datatype Plan = Plan(enabled: bool, size: int, wait: int, key: string)

  /** A 400 names the code and the header at fault. */
  datatype Parsed<T> = Reject(code: string, header: string) | Accept(value: T)

  datatype Overrides = Overrides(size: Option<int>, wait: Option<int>, key: Option<string>)

  function Max(a: int, b: int): int { if a < b then b else a }
  function Min(a: int, b: int): int { if a < b then a else b }

  function ParsePositive(h: IntHeader, code: string, header: string): Parsed<Option<int>> {
    match h
    case Absent => Accept(None)
    case NotAnInt => Reject(code, header)
    case Int(v) => if v < 1 then Reject(code, header) else Accept(Some(v))
  }

  function ParseOverrides(h: Headers, maxWait: int): Parsed<Overrides> {
    match ParsePositive(h.size, "invalid_batch_size", "x-batch-size")
    case Reject(c, n) => Reject(c, n)
    case Accept(size) =>
      if size.Some? && size.value > MAX_BATCH then Reject("invalid_batch_size", "x-batch-size")
      else match ParsePositive(h.wait, "invalid_batch_wait", "x-batch-wait")
        case Reject(c, n) => Reject(c, n)
        case Accept(wait) =>
          if wait.Some? && wait.value > maxWait then Reject("batch_wait_too_long", "x-batch-wait")
          else
            var key := if h.key.Some? && SanitizeKey(h.key.value) != ""
                       then Some(SanitizeKey(h.key.value)) else None;
            Accept(Overrides(size, wait, key))
  }

  function ResolvePlan(h: Headers, model: string, tokenHash: string, enabled: bool, cfg: Settings): Parsed<Plan> {
    match ParseOverrides(h, Max(1, cfg.maxWait))
    case Reject(c, n) => Reject(c, n)
    case Accept(over) =>
      if !enabled then Accept(Plan(false, 0, 0, ""))
      else
        var size := if over.size.Some? then over.size.value else Max(0, cfg.size);
        if size < 2 then Accept(Plan(false, size, 0, ""))
        else
          var asked := if over.wait.Some? then over.wait.value else cfg.wait;
          var positive := if asked <= 0 then Max(1, cfg.maxWait) else asked;
          var key := GroupKey(if over.key.Some? then over.key.value else "", model, tokenHash, cfg.groupBy);
          Accept(Plan(true, size, Min(positive, Max(1, cfg.maxWait)), key))
  }

  /** The deadline that `join` computes for the opener of a batch. */
  function OpenerDeadline(now: int, wait: int): int { now + Max(1, wait) }

  /** Every enabled plan batches at least two, waits at least a second and at most the bound, has a
      white-listed key, and its opener's deadline is in the future by no more than the bound. */
  lemma EffectivePlan(h: Headers, model: string, tokenHash: string, enabled: bool, cfg: Settings, now: int)
    ensures var p := ResolvePlan(h, model, tokenHash, enabled, cfg);
            p.Accept? && p.value.enabled ==>
              && enabled && 2 <= p.value.size
              && 1 <= p.value.wait <= Max(1, cfg.maxWait)
              && SafeKey(p.value.key)
              && OpenerDeadline(now, p.value.wait) == now + p.value.wait
              && now < OpenerDeadline(now, p.value.wait) <= now + Max(1, cfg.maxWait)
  {
    var p := ResolvePlan(h, model, tokenHash, enabled, cfg);
    if p.Accept? && p.value.enabled {
      var over := ParseOverrides(h, Max(1, cfg.maxWait)).value;
      var given := if over.key.Some? then over.key.value else "";
      SanitizeIsIdempotent(given);
      SanitizeIsIdempotent(Lower(Strip(model)));
      SanitizeIsIdempotent(Truncate(tokenHash, 12) + ":" + Lower(Strip(model)));
    }
  }

  /** What a client meets as a rejection, in terms of its three headers alone. */
  predicate BadHeaders(h: Headers, maxWait: int) {
    || h.size == NotAnInt || (h.size.Int? && !(1 <= h.size.v <= 1000))
    || h.wait == NotAnInt || (h.wait.Int? && !(1 <= h.wait.v <= Max(1, maxWait)))
  }

  /** The 400 is a function of the headers and the wait bound: not of the enable switch, the
      configured size or wait, the model or the token. */
  lemma RejectionIgnoresTheSwitch(h: Headers, m1: string, m2: string, t1: string, t2: string,
                                  c1: Settings, c2: Settings)
    requires c1.maxWait == c2.maxWait
    ensures ResolvePlan(h, m1, t1, true, c1).Reject? <==> BadHeaders(h, c1.maxWait)
    ensures ResolvePlan(h, m2, t2, false, c2).Reject? <==> BadHeaders(h, c1.maxWait)
    ensures ResolvePlan(h, m1, t1, true, c1).Reject?
            ==> ResolvePlan(h, m1, t1, true, c1) == ResolvePlan(h, m2, t2, false, c2)
  {
  }

  /** The 400 names the first header at fault. */
  lemma RejectionNamesTheFault(h: Headers, model: string, tokenHash: string, enabled: bool, cfg: Settings)
    ensures var p := ResolvePlan(h, model, tokenHash, enabled, cfg);
            var badSize := h.size == NotAnInt || (h.size.Int? && !(1 <= h.size.v <= 1000));
            var badWait := h.wait == NotAnInt || (h.wait.Int? && h.wait.v < 1);
            && (badSize <==> p == Reject("invalid_batch_size", "x-batch-size"))
            && (!badSize && badWait <==> p == Reject("invalid_batch_wait", "x-batch-wait"))
            && (!badSize && !badWait && BadHeaders(h, cfg.maxWait) <==> p == Reject("batch_wait_too_long", "x-batch-wait"))
  {
  }

  /** The client's headers win field by field over the settings; the switch has the last word. */
  lemma HeadersWin(h: Headers, model: string, tokenHash: string, enabled: bool, cfg: Settings)
    requires !BadHeaders(h, cfg.maxWait)
    ensures var p := ResolvePlan(h, model, tokenHash, enabled, cfg);
            && p.Accept?
            && (p.value.enabled <==> enabled && (if h.size.Int? then h.size.v else cfg.size) >= 2)
            && (p.value.enabled ==> p.value.size == if h.size.Int? then h.size.v else cfg.size)
            && (p.value.enabled && h.wait.Int? ==> p.value.wait == h.wait.v)
            && (p.value.enabled && h.wait.Absent? && 1 <= cfg.wait <= cfg.maxWait ==> p.value.wait == cfg.wait)
            && (p.value.enabled && h.wait.Absent? && !(1 <= cfg.wait <= cfg.maxWait) ==> p.value.wait == Max(1, cfg.maxWait))
            && (p.value.enabled && h.key.Some? && SanitizeKey(h.key.value) != "" ==> p.value.key == SanitizeKey(h.key.value))
            && (p.value.enabled && (h.key.None? || SanitizeKey(h.key.value) == "") ==>
                  p.value.key == GroupKey("", model, tokenHash, cfg.groupBy))
  {
    if h.key.Some? { SanitizeIsIdempotent(h.key.value); }
  }

  /** The plan of a client that spelled its key in any way that sanitises alike is the same plan. */
  lemma KeySpellingDoesNotSplitABatch(h: Headers, k: string, model: string, tokenHash: string, cfg: Settings)
    requires h.key == Some(k)
    ensures ResolvePlan(h, model, tokenHash, true, cfg)
         == ResolvePlan(h.(key := Some(SanitizeKey(k))), model, tokenHash, true, cfg)
  {
    SanitizeIsIdempotent(k);
  }

  // ---- retry delay ----

  function Pow2(n: nat): (p: nat)
    ensures p >= 1
  { if n == 0 then 1 else 2 * Pow2(n - 1) }

  /** `requeue`: the attempt number to store. */
  function NextAttempt(attempts: nat): nat { attempts + 1 }

  function BackoffBase(attempt: nat, ceiling: int): int {
    Min(Max(10, ceiling), Pow2(Min(attempt, 12)))
  }

  function Scaled(base: int, jitter: real): real { base as real * (1.0 + jitter) }

  /** `requeue`: seconds until the next try, `jitter` being the drawn factor. */
  function RetryDelay(attempts: nat, ceiling: int, jitter: real): (d: int)
    requires -0.1 <= jitter <= 0.1
    ensures d >= 1
  {
    Max(1, Scaled(BackoffBase(NextAttempt(attempts), ceiling), jitter).Floor)
  }

  lemma {:induction false} Pow2Grows(m: nat, n: nat)
    requires m <= n
    ensures Pow2(m) <= Pow2(n)
  {
    if m < n { Pow2Grows(m, n - 1); }
  }

  /** A product within ten percent of `base`, rounded down. */
  lemma Jittered(base: int, x: real)
    requires base >= 2 && 0.9 * base as real <= x <= 1.1 * base as real
    ensures 1 <= x.Floor && 9 * base <= 10 * x.Floor + 9 && 10 * x.Floor <= 11 * base
  {
    var f := x.Floor;
    assert f as real <= x < (f + 1) as real;
    assert (9 * base) as real < (10 * f + 10) as real;
    assert (10 * f) as real <= (11 * base) as real;
  }

  lemma ScaleWithin(b: real, jitter: real, x: real)
    requires b >= 0.0 && -0.1 <= jitter <= 0.1 && x == b * (1.0 + jitter)
    ensures 0.9 * b <= x <= 1.1 * b
  {
    assert x == b + b * jitter;
    assert b * (jitter + 0.1) >= 0.0 && b * (0.1 - jitter) >= 0.0;
  }

  /** The base of the delay never shrinks from one attempt to the next nor exceeds the ceiling. */
  lemma BaseBounds(attempts: nat, ceiling: int)
    ensures var base := BackoffBase(NextAttempt(attempts), ceiling);
            2 <= base <= Max(10, ceiling) && base <= BackoffBase(NextAttempt(attempts + 1), ceiling)
  {
    Pow2Grows(1, Min(attempts + 1, 12));
    Pow2Grows(Min(attempts + 1, 12), Min(attempts + 2, 12));
  }

  /** The base starts at two seconds and doubles with every attempt up to the twelfth or up to the ceiling,
      which is at least ten seconds; there it stays. */
  lemma BaseShape(attempt: nat, ceiling: int)
    requires attempt >= 1
    ensures BackoffBase(1, ceiling) == 2
    ensures attempt < 12 ==> BackoffBase(attempt + 1, ceiling) == Min(2 * BackoffBase(attempt, ceiling), Max(10, ceiling))
    ensures attempt >= 12 ==> BackoffBase(attempt + 1, ceiling) == BackoffBase(attempt, ceiling) == Min(4096, Max(10, ceiling))
  {
    assert Pow2(1) == 2;
    assert Pow2(12) == 4096 by { assert Pow2(4) == 16 && Pow2(8) == 256; }
  }

  lemma ScaledFloor(base: int, jitter: real)
    requires base >= 2 && -0.1 <= jitter <= 0.1
    ensures var f := Scaled(base, jitter).Floor;
            1 <= f && 9 * base <= 10 * f + 9 && 10 * f <= 11 * base
  {
    ScaleWithin(base as real, jitter, Scaled(base, jitter));
    Jittered(base, Scaled(base, jitter));
  }

  /** The delay is its base moved by the drawn jitter, in whole seconds, so within ten percent of the base. */
  lemma DelayBounds(attempts: nat, ceiling: int, jitter: real)
    requires -0.1 <= jitter <= 0.1
    ensures var base := BackoffBase(NextAttempt(attempts), ceiling);
            var d := RetryDelay(attempts, ceiling, jitter);
            && 9 * base <= 10 * d + 9 && 10 * d <= 11 * base
            && d as real <= Scaled(base, jitter) < d as real + 1.0
  {
    BaseBounds(attempts, ceiling);
    ScaledFloor(BackoffBase(NextAttempt(attempts), ceiling), jitter);
  }
}
