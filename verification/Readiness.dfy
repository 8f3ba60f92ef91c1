/** Waiting for a freshly spawned daemon: probe, then sleep for an exponentially growing, capped
    time that never reaches past the deadline. Delays are milliseconds, the clock nanoseconds. */
module Readiness {

  const NS_PER_MS: nat := 1_000_000
  const INT_MAX: nat := 2_147_483_647

  function Min(a: int, b: int): int {
    if a <= b then a else b
  }

  function Max(a: int, b: int): int {
    if a >= b then a else b
  }

  function Pow2(k: nat): nat {
    if k == 0 then 1 else 2 * Pow2(k - 1)
  }

  function FirstBackoff(initial: int): (b: nat)
    ensures 1 <= b
  {
    Max(initial, 1)
  }

  function MaximumBackoff(initial: int, maximum: int): (b: nat)
    ensures FirstBackoff(initial) <= b
  {
    Max(maximum, FirstBackoff(initial))
  }

  /** The backoff of the k-th wait, as the loop updates it. */
  function Backoff(initial: int, maximum: int, k: nat): (b: nat)
    ensures FirstBackoff(initial) <= b <= MaximumBackoff(initial, maximum)
  {
    if k == 0 then FirstBackoff(initial)
    else Min(MaximumBackoff(initial, maximum), Backoff(initial, maximum, k - 1) * 2)
  }

  lemma DoubledProduct(b: nat, p: nat)
    ensures b * (2 * p) == 2 * (b * p)
  {
  }

  /** Capping before doubling is capping after. */
  lemma CapDoubled(cap: nat, x: nat)
    ensures Min(cap, Min(cap, x) * 2) == Min(cap, 2 * x)
  {
  }

  /** The first backoff is at least a millisecond; it doubles with every wait up to the maximum, or stays if that
      is less. */
  lemma BackoffIsDoubled(initial: int, maximum: int, k: nat)
    ensures var first := if initial < 1 then 1 else initial; var most := if maximum < first then first else maximum;
      Backoff(initial, maximum, k) == if first * Pow2(k) < most then first * Pow2(k) else most
  {
    BackoffClosedForm(initial, maximum, k);
  }

  lemma {:induction false} BackoffClosedForm(initial: int, maximum: int, k: nat)
    ensures Backoff(initial, maximum, k) == Min(MaximumBackoff(initial, maximum), FirstBackoff(initial) * Pow2(k))
  {
    if k > 0 {
      BackoffClosedForm(initial, maximum, k - 1);
      var b, p := FirstBackoff(initial), Pow2(k - 1);
      DoubledProduct(b, p);
      CapDoubled(MaximumBackoff(initial, maximum), b * p);
      hide FirstBackoff, MaximumBackoff, Min;
    }
  }

  /** The milliseconds one wait asks for, with `remaining` nanoseconds to the deadline. */
  function Wait(backoff: nat, remaining: nat): (ms: nat)
    ensures ms * NS_PER_MS <= remaining && ms <= backoff && ms <= INT_MAX
    ensures forall longer: nat :: ms < longer ==> remaining < longer * NS_PER_MS || backoff < longer || INT_MAX < longer
  {
    Min(Min(backoff, remaining / NS_PER_MS), INT_MAX)
  }

  /** One execution of the loop against a daemon that stays alive and unready: the k-th check of the
      deadline reads `clock[k]` after the loop started, and the waits take at least what they ask. */
  datatype Schedule = Schedule(timeout: nat, initial: int, maximum: int, clock: seq<nat>, waits: seq<nat>)

  ghost predicate Legal(s: Schedule) {
    |s.clock| == |s.waits| + 1 && forall k :: 0 <= k < |s.waits| ==> LegalTurn(s, k)
  }

  ghost predicate LegalTurn(s: Schedule, k: nat)
    requires |s.clock| == |s.waits| + 1 && k < |s.waits|
  {
    AskedTurn(s, k) && s.clock[k] + s.waits[k] * NS_PER_MS <= s.clock[k + 1]
  }

  /** What is asked for keeps to the backoff and to the deadline, whether or not the wait took that long. */
  ghost predicate Asked(s: Schedule) {
    |s.clock| == |s.waits| + 1 && forall k :: 0 <= k < |s.waits| ==> AskedTurn(s, k)
  }

  ghost predicate AskedTurn(s: Schedule, k: nat)
    requires |s.clock| == |s.waits| + 1 && k < |s.waits|
  {
    s.clock[k] < s.timeout && s.waits[k] == Wait(Backoff(s.initial, s.maximum, k), s.timeout - s.clock[k])
  }

  /** Every wait but the last took as long as it asked for; the daemon's exit may have cut the last one short. */
  ghost predicate LegalUntilLast(s: Schedule) {
    Asked(s) && forall k :: 0 <= k < |s.waits| - 1 ==> LegalTurn(s, k)
  }

  /** An execution in progress: the last reading of the clock is the elapsed time. */
  ghost predicate Following(s: Schedule, elapsed: nat, intact: bool) {
    |s.clock| == |s.waits| + 1 && s.clock[|s.waits|] <= elapsed && LegalUntilLast(s) && (intact ==> Legal(s))
  }

  /** One more turn: the deadline was checked at `now`, and the wait was over at `later`. */
  function Turn(s: Schedule, now: nat, later: nat): (next: Schedule)
    requires |s.clock| == |s.waits| + 1 && now < s.timeout
    ensures |next.clock| == |next.waits| + 1 == |s.waits| + 2
    ensures next.timeout == s.timeout && next.initial == s.initial && next.maximum == s.maximum
    ensures next.waits == s.waits + [Wait(Backoff(s.initial, s.maximum, |s.waits|), s.timeout - now)]
  {
    var wait := Wait(Backoff(s.initial, s.maximum, |s.waits|), s.timeout - now);
    s.(clock := s.clock[..|s.waits|] + [now, later], waits := s.waits + [wait])
  }

  lemma TurnFollows(s: Schedule, now: nat, later: nat, intact: bool)
    requires Following(s, now, true) && now < s.timeout && now <= later
    requires intact ==> now + Wait(Backoff(s.initial, s.maximum, |s.waits|), s.timeout - now) * NS_PER_MS <= later
    ensures Following(Turn(s, now, later), later, intact)
  {
    var next, n := Turn(s, now, later), |s.waits|;
    forall k | 0 <= k < |next.waits|
      ensures AskedTurn(next, k) && (intact || k < n ==> LegalTurn(next, k))
    {
      if k < n { assert LegalTurn(s, k); }
    }
  }

  lemma LegalIsLegalUntilLast(s: Schedule)
    requires Legal(s)
    ensures LegalUntilLast(s)
  {
    forall k | 0 <= k < |s.waits|
      ensures AskedTurn(s, k)
    {
      assert LegalTurn(s, k);
    }
  }

  function Sum(waits: seq<nat>): nat {
    if waits == [] then 0 else Sum(waits[..|waits| - 1]) + waits[|waits| - 1]
  }

  lemma {:induction false} ElapsedCoversWaits(s: Schedule, k: nat)
    requires LegalUntilLast(s) && (k < |s.waits| || Legal(s)) && k <= |s.waits|
    ensures Sum(s.waits[..k]) * NS_PER_MS <= s.clock[k]
  {
    if k > 0 {
      ElapsedCoversWaits(s, k - 1);
      assert LegalTurn(s, k - 1);
      assert s.waits[..k][..k - 1] == s.waits[..k - 1];
    }
  }

  /** However long probes and waits really take, and even if the daemon's exit ends the last wait early, the
      waits asked for fit in the timeout. */
  lemma WaitsFitTheTimeout(s: Schedule)
    requires LegalUntilLast(s)
    ensures Sum(s.waits) * NS_PER_MS <= s.timeout
  {
    var n := |s.waits|;
    if n > 0 {
      ElapsedCoversWaits(s, n - 1);
      assert AskedTurn(s, n - 1);
      assert s.waits[..n][..n - 1] == s.waits[..n - 1] && s.waits[..n] == s.waits;
    }
  }

  ghost predicate WholeMilliseconds(s: Schedule) {
    s.timeout % NS_PER_MS == 0 && forall k :: 0 <= k < |s.clock| ==> s.clock[k] % NS_PER_MS == 0
  }

  function CeilDiv(a: nat, b: nat): nat
    requires 0 < b
  {
    (a + b - 1) / b
  }

  /** The shortest wait that is not cut short by the deadline. */
  function LeastWait(s: Schedule): (ms: nat)
    ensures 0 < ms
  {
    Min(FirstBackoff(s.initial), INT_MAX)
  }

  // Products the solver is not asked to expand.

  function Times(a: nat, b: nat): nat {
    a * b
  }

  lemma TimesNext(a: nat, b: nat)
    ensures Times(a + 1, b) == Times(a, b) + b && Times(0, b) == 0 && Times(1, b) == b
  {
  }

  lemma TimesGrows(a: nat, c: nat, b: nat)
    requires a <= c
    ensures Times(a, b) <= Times(c, b) && Times(b, a) <= Times(b, c)
  {
    NotNegative(c - a, b);
  }

  lemma NotNegative(a: nat, b: nat)
    ensures 0 <= a * b
  {
  }

  lemma TimesReflects(a: nat, c: nat, b: nat)
    requires Times(a, b) < Times(c, b)
    ensures a < c
  {
    hide Times;
    if c <= a { TimesGrows(c, a, b); }
  }

  lemma TimesCommutes(a: nat, b: nat)
    ensures Times(a, b) == Times(b, a)
  {
  }

  lemma TimesRegroups(a: nat, b: nat, c: nat)
    ensures Times(Times(a, b), c) == Times(a, Times(b, c))
  {
  }

  lemma Quotient(a: nat, b: nat)
    requires 0 < b
    ensures Times(a / b, b) <= a < Times(a / b, b) + b
  {
  }

  /** Before the last one, no wait was cut short: it was at least the least wait. */
  lemma EarlierWaitIsFull(s: Schedule, k: nat)
    requires Legal(s) && WholeMilliseconds(s) && k + 1 < |s.waits|
    ensures LeastWait(s) <= s.waits[k] && s.clock[k] + Times(s.waits[k], NS_PER_MS) <= s.clock[k + 1]
  {
    assert LegalTurn(s, k) && LegalTurn(s, k + 1);
    AlignedDifference(s.timeout, s.clock[k]);
  }

  lemma {:induction false} WaitsAddUp(s: Schedule, k: nat)
    requires Legal(s) && WholeMilliseconds(s) && k < |s.waits|
    ensures Times(k, Times(LeastWait(s), NS_PER_MS)) <= s.clock[k]
  {
    hide Times, Legal, WholeMilliseconds, LeastWait;
    if k == 0 {
      TimesNext(0, Times(LeastWait(s), NS_PER_MS));
      FirstReading(s);
    } else {
      WaitsAddUp(s, k - 1);
      EarlierWaitIsFull(s, k - 1);
      TimesGrows(LeastWait(s), s.waits[k - 1], NS_PER_MS);
      TimesNext(k - 1, Times(LeastWait(s), NS_PER_MS));
    }
  }

  lemma FirstReading(s: Schedule)
    requires Legal(s)
    ensures 0 < |s.clock|
  {
  }

  lemma AlignedDifference(a: nat, b: nat)
    requires a % NS_PER_MS == 0 && b % NS_PER_MS == 0 && b <= a
    ensures (a - b) / NS_PER_MS * NS_PER_MS == a - b
  {
  }

  lemma LastTurnBegins(s: Schedule)
    requires Legal(s) && s.waits != []
    ensures s.clock[|s.waits| - 1] < s.timeout
  {
    assert LegalTurn(s, |s.waits| - 1);
  }

  /** On a clock of whole milliseconds the loop probes at most once per least wait, and once more. */
  lemma ProbesAreBounded(s: Schedule)
    requires Legal(s) && WholeMilliseconds(s)
    ensures |s.waits| + 1 <= CeilDiv(s.timeout / NS_PER_MS, LeastWait(s)) + 1
  {
    var n, least, total := |s.waits|, LeastWait(s), s.timeout / NS_PER_MS;
    if n > 0 {
      FirstReading(s);
      WaitsAddUp(s, n - 1);
      LastTurnBegins(s);
      TimeoutIsWhole(s);
      hide Times, Legal, WholeMilliseconds, LeastWait, CeilDiv;
      TimesRegroups(n - 1, least, NS_PER_MS);
      TimesReflects(Times(n - 1, least), total, NS_PER_MS);
      CeilAbove(n, total, least);
    }
  }

  lemma TimeoutIsWhole(s: Schedule)
    requires WholeMilliseconds(s)
    ensures Times(s.timeout / NS_PER_MS, NS_PER_MS) == s.timeout
  {
  }

  lemma CeilAbove(n: nat, total: nat, least: nat)
    requires 0 < n && 0 < least && Times(n - 1, least) < total
    ensures n <= CeilDiv(total, least)
  {
    hide Times;
    TimesNext(n - 1, least);
    DivLower(total + least - 1, least, n);
  }

  lemma DivLower(a: nat, b: nat, n: nat)
    requires 0 < b && Times(n, b) <= a
    ensures n <= a / b
  {
    hide Times;
    Quotient(a, b);
    if a / b < n {
      TimesGrows(a / b + 1, n, b);
      TimesNext(a / b, b);
    }
  }

  /** If waits take exactly what they ask and probes take no time, then a loop that gives up has asked
      for exactly the timeout. */
  lemma GivesUpAtTheDeadline(s: Schedule)
    requires Legal(s) && s.timeout <= s.clock[|s.waits|]
    requires s.clock[0] == 0
    requires forall k :: 0 <= k < |s.waits| ==> s.clock[k + 1] == s.clock[k] + s.waits[k] * NS_PER_MS
    ensures Sum(s.waits) * NS_PER_MS == s.timeout
  {
    ExactElapsed(s, |s.waits|);
    LegalIsLegalUntilLast(s);
    WaitsFitTheTimeout(s);
    assert s.waits[..|s.waits|] == s.waits;
  }

  lemma {:induction false} ExactElapsed(s: Schedule, k: nat)
    requires Legal(s) && k <= |s.waits| && s.clock[0] == 0
    requires forall i :: 0 <= i < |s.waits| ==> s.clock[i + 1] == s.clock[i] + s.waits[i] * NS_PER_MS
    ensures s.clock[k] == Sum(s.waits[..k]) * NS_PER_MS
  {
    if k > 0 {
      ExactElapsed(s, k - 1);
      assert s.waits[..k][..k - 1] == s.waits[..k - 1];
    }
  }

  /** For a first backoff longer than poll can wait, the bound by the first backoff itself fails, whatever
      the maximum: with a timeout one millisecond longer than poll's longest wait, a daemon that stays unready
      is probed three times. */
  lemma HugeBackoffProbesMore(initial: int, maximum: int) returns (s: Schedule)
    requires INT_MAX < FirstBackoff(initial)
    ensures s.initial == initial && s.maximum == maximum && s.timeout == (INT_MAX + 1) * NS_PER_MS
    ensures Legal(s) && WholeMilliseconds(s)
    ensures CeilDiv(s.timeout / NS_PER_MS, FirstBackoff(s.initial)) + 1 < |s.waits| + 1
  {
    s := Schedule((INT_MAX + 1) * NS_PER_MS, initial, maximum,
                  [0, INT_MAX * NS_PER_MS, (INT_MAX + 1) * NS_PER_MS], [INT_MAX, 1]);
    assert LegalTurn(s, 0) && LegalTurn(s, 1);
    OneTurnIsEnough(INT_MAX + 1, FirstBackoff(initial));
  }

  lemma OneTurnIsEnough(total: nat, wait: nat)
    requires 0 < total <= wait
    ensures CeilDiv(total, wait) == 1
  {
    var a := total + wait - 1;
    Quotient(a, wait);
    hide Times;
    TimesNext(0, wait);
    TimesNext(1, wait);
    if 2 <= a / wait { TimesGrows(2, a / wait, wait); }
  }

  /** A first backoff that poll can wait keeps the bound by the first backoff. */
  lemma OrdinaryBackoffKeepsTheBound(s: Schedule)
    requires Legal(s) && WholeMilliseconds(s) && FirstBackoff(s.initial) <= INT_MAX
    ensures |s.waits| + 1 <= CeilDiv(s.timeout / NS_PER_MS, FirstBackoff(s.initial)) + 1
  {
    ProbesAreBounded(s);
  }

  /** Off whole milliseconds the loop stops sleeping: in the last millisecond it asks for no wait. */
  lemma LastMillisecondSpins(backoff: nat, remaining: nat)
    requires 0 < backoff
    ensures Wait(backoff, remaining) == 0 <==> remaining < NS_PER_MS
  {
  }
}
