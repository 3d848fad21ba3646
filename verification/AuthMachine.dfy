/** Authentication state of one connection (section 26 of SDR-SLC-CP-1.0): a single-use nonce, an
    unlock that lasts, and a window that counts failed attempts. */
module AuthMachine {
  import opened Basics
  import opened Sha256
  import opened Auth

  type Nonce = seq<Byte>

  const MAX_FAILURES := 10
  const WINDOW := 60_000_000_000

  /** The failed attempts counted together, and when their window opened. */
  datatype Span = Span(start: nat, times: seq<nat>)

  datatype State = State(
    nonce: Nonce, nonceValid: bool, unlocked: bool,
    failures: nat, window: nat, closing: bool,
    spans: seq<Span>)

  const FRESH := State([], false, false, 0, 0, false, [Span(0, [])])

  datatype Claim = Claim(methodOk: bool, keyId: string, response: string)

  /** hello with auth on: a new nonce, or none if the random source failed. */
  function Challenge(a: State, fresh_: Option<Nonce>): State {
    if fresh_.Some? then a.(nonce := fresh_.value, nonceValid := true) else a.(nonceValid := false)
  }

  /** The window moves when more than a minute, in 64-bit arithmetic, has passed. */
  function Roll(a: State, now: nat): State {
    if (now - a.window) % TWO_64 > WINDOW
    then a.(window := now, failures := 0, spans := a.spans + [Span(now, [])])
    else a
  }

  /** The MAC is looked at only with a live nonce, the right method and some key configured. */
  predicate Judges(a: State, keys: seq<Key>, c: Claim) {
    a.nonceValid && c.methodOk && |keys| > 0
  }

  ghost predicate Passes(a: State, keys: seq<Key>, c: Claim) {
    Judges(a, keys, c) && Accepts(keys, c.keyId, a.nonce, c.response)
  }

  /** A failure goes into the span that is open. */
  function AddFailure(spans: seq<Span>, now: nat): seq<Span> {
    if spans == [] then [Span(now, [now])]
    else
      var last := spans[|spans| - 1];
      spans[|spans| - 1 := last.(times := last.times + [now])]
  }

  /** One authenticate with its parameters present. */
  ghost function Attempt(a: State, keys: seq<Key>, c: Claim, now: nat, fresh_: Option<Nonce>): State {
    var b := Roll(a, now);
    if Passes(b, keys, c) then b.(unlocked := true, nonceValid := false)
    else
      var f := Challenge(b, fresh_).(failures := b.failures + 1, spans := AddFailure(b.spans, now));
      if f.failures >= MAX_FAILURES then f.(closing := true) else f
  }

  // ---- The failure window -------------------------------------------------------------

  function InInterval(times: seq<nat>, t: nat): (n: nat)
    ensures n <= |times|
    ensures (forall i :: 0 <= i < |times| ==> times[i] < t || times[i] > t + WINDOW) ==> n == 0
  {
    if times == [] then 0
    else InInterval(times[..|times| - 1], t)
         + if t <= times[|times| - 1] <= t + WINDOW then 1 else 0
  }

  /** Failed attempts in the minute from `t` on. */
  function Failures(spans: seq<Span>, t: nat): nat {
    if spans == [] then 0 else Failures(spans[..|spans| - 1], t) + InInterval(spans[|spans| - 1].times, t)
  }

  /** Each span lies within a minute of its start, the next starts after that, and only the last
      may be full. */
  predicate SpansOk(spans: seq<Span>) {
    && (forall i, k :: 0 <= i < |spans| && 0 <= k < |spans[i].times| ==>
          spans[i].start <= spans[i].times[k] <= spans[i].start + WINDOW)
    && (forall i :: 0 <= i < |spans| - 1 ==> spans[i].start + WINDOW < spans[i + 1].start)
    && (forall i :: 0 <= i < |spans| - 1 ==> |spans[i].times| < MAX_FAILURES)
  }

  /** What every connection keeps. */
  predicate Ok(a: State, clock: nat) {
    && a.spans != [] && SpansOk(a.spans)
    && a.window == a.spans[|a.spans| - 1].start <= clock
    && a.failures == |a.spans[|a.spans| - 1].times| <= MAX_FAILURES
    && (a.closing <==> a.failures == MAX_FAILURES)
  }

  lemma AttemptKeeps(a: State, keys: seq<Key>, c: Claim, now: nat, fresh_: Option<Nonce>, clock: nat)
    requires Ok(a, clock) && !a.closing && clock <= now < TWO_64
    ensures Ok(Attempt(a, keys, c, now, fresh_), now)
    ensures Attempt(a, keys, c, now, fresh_).closing <==>
              !Passes(Roll(a, now), keys, c) && Roll(a, now).failures == MAX_FAILURES - 1
  {
    hide Passes, SpansOk;
    Elapsed(a.window, now);
    var b := Roll(a, now);
    RollKeeps(a, now, clock);
    if !Passes(b, keys, c) {
      FailureKeeps(b.spans, now);
    }
  }

  lemma RollKeeps(a: State, now: nat, clock: nat)
    requires Ok(a, clock) && !a.closing && clock <= now < TWO_64
    ensures Ok(Roll(a, now), now) && !Roll(a, now).closing
    ensures now <= Roll(a, now).window + WINDOW
  {
    hide SpansOk;
    Elapsed(a.window, now);
    if now - a.window > WINDOW {
      NewSpan(a.spans, now);
    }
  }

  lemma Elapsed(start: nat, now: nat)
    requires start <= now < TWO_64
    ensures (now - start) % TWO_64 == now - start
  {
  }

  lemma NewSpan(spans: seq<Span>, now: nat)
    requires spans != [] && SpansOk(spans) && |spans[|spans| - 1].times| < MAX_FAILURES
    requires spans[|spans| - 1].start + WINDOW < now
    ensures SpansOk(spans + [Span(now, [])])
  {
    var n, all := |spans|, spans + [Span(now, [])];
    forall i | 0 <= i < n
      ensures all[i].start + WINDOW < all[i + 1].start && |all[i].times| < MAX_FAILURES
    {
      assert all[i] == spans[i];
      assert i < n - 1 ==> all[i + 1] == spans[i + 1];
    }
  }

  lemma FailureKeeps(spans: seq<Span>, now: nat)
    requires spans != [] && SpansOk(spans) && |spans[|spans| - 1].times| < MAX_FAILURES
    requires spans[|spans| - 1].start <= now <= spans[|spans| - 1].start + WINDOW
    ensures SpansOk(AddFailure(spans, now))
  {
  }

  lemma {:induction false} BeforeIsEmpty(spans: seq<Span>, t: nat)
    requires SpansOk(spans)
    requires forall i :: 0 <= i < |spans| ==> spans[i].start + WINDOW < t
    ensures Failures(spans, t) == 0
    decreases |spans|
  {
    if spans != [] {
      BeforeIsEmpty(spans[..|spans| - 1], t);
      var last := spans[|spans| - 1];
      forall k | 0 <= k < |last.times|
        ensures last.times[k] < t
      {
        assert spans[|spans| - 1].times[k] <= last.start + WINDOW;
      }
    }
  }

  lemma {:induction false} StartsGrow(spans: seq<Span>, i: nat, j: nat)
    requires SpansOk(spans) && i < j < |spans|
    ensures spans[i].start + WINDOW < spans[j].start
    decreases j
  {
    if i < j - 1 {
      StartsGrow(spans, i, j - 1);
      assert spans[j - 1].start + WINDOW < spans[j - 1 + 1].start;
    } else {
      assert spans[i].start + WINDOW < spans[i + 1].start;
    }
  }

  /** Spans before the last two lie wholly before any minute that reaches the last. */
  lemma LongAgo(spans: seq<Span>, t: nat)
    requires SpansOk(spans) && |spans| >= 2 && spans[|spans| - 1].start <= t + WINDOW
    ensures Failures(spans[..|spans| - 2], t) == 0
  {
    hide Failures;
    var n := |spans|;
    var before := spans[..n - 2];
    forall i | 0 <= i < |before|
      ensures before[i].start + WINDOW < t
    {
      StartsGrow(spans, i, n - 2);
      StartsGrow(spans, n - 2, n - 1);
    }
    BeforeIsEmpty(before, t);
  }

  lemma ReachesLast(spans: seq<Span>, t: nat)
    requires SpansOk(spans) && spans != [] && InInterval(spans[|spans| - 1].times, t) != 0
    ensures spans[|spans| - 1].start <= t + WINDOW
  {
    hide InInterval;
    var last := spans[|spans| - 1];
    var k :| 0 <= k < |last.times| && t <= last.times[k] <= t + WINDOW;
    assert spans[|spans| - 1].start <= spans[|spans| - 1].times[k];
  }

  /** Any 60-second interval of a connection holds at most 19 answered failures: at most nine of
      one window and ten of the next. */
  lemma {:induction false} NineteenAMinute(spans: seq<Span>, t: nat)
    requires SpansOk(spans) && (spans != [] ==> |spans[|spans| - 1].times| <= MAX_FAILURES)
    ensures Failures(spans, t) <= 2 * MAX_FAILURES - 1
    decreases |spans|
  {
    hide InInterval;
    if spans != [] {
      var n := |spans|;
      var last, init := spans[n - 1], spans[..n - 1];
      assert init != [] ==> init[n - 2] == spans[n - 2];
      if InInterval(last.times, t) == 0 {
        NineteenAMinute(init, t);
      } else if n >= 2 {
        ReachesLast(spans, t);
        LongAgo(spans, t);
        assert init[..n - 2] == spans[..n - 2];
      }
    }
  }
}
