/** Runs that reach the bounds of the authentication gate: nineteen failures in a minute, and a
    locked connection that takes the bias tee with it. */
module ControlAuthRuns {
  import opened Basics
  import opened ControlPlane
  import opened ControlInvariants
  import opened ControlAuth
  import opened AuthMachine
  import Auth
  import Radio
  import VitaSender

  // ---- Wrong answers ------------------------------------------------------------------

  const WRONG := AuthMachine.Claim(false, "", "")

  function EnvAt(now: nat): Env {
    Env(0, 0, 0, true, true, true, true, None, now, 0)
  }

  /** authenticate with a method the device does not have. */
  function Wrong(s: nat, now: nat): Step {
    Command(s, Authenticate(Value(WRONG)), EnvAt(now))
  }

  /** The record after one more failure; its window has not moved. */
  function Failed(a: AuthMachine.State, now: nat): AuthMachine.State {
    a.(nonceValid := false, failures := a.failures + 1, spans := AddFailure(a.spans, now))
  }

  lemma WrongFails(a: AuthMachine.State, keys: seq<Auth.Key>, now: nat)
    requires !a.closing && Roll(a, now).failures + 1 < MAX_FAILURES
    ensures Attempt(a, keys, WRONG, now, None) == Failed(Roll(a, now), now)
  {
  }

  /** One wrong answer that does not end the connection. */
  lemma WrongNext(w: World, s: nat, now: nat)
    requires WellSized(w) && s < MAX_SESSIONS && w.sessions[s].live && w.sessions[s].phase != AwaitHello
    requires w.cfg.rxAuth && !w.sessions[s].auth.closing && Roll(w.sessions[s].auth, now).failures + 1 < MAX_FAILURES
    ensures Possible(w, Wrong(s, now))
    ensures var w' := Next(w, Wrong(s, now));
            var t := w.sessions[s].(auth := Failed(Roll(w.sessions[s].auth, now), now));
            w' == w.(sessions := w.sessions[s := t], logs := w'.logs, judged := w'.judged, issued := w'.issued,
                clock := now)
  {
    hide Next, Dispatch, Reply, Offers, Attempt, Passed;
    var q, env := Authenticate(Value(WRONG)), EnvAt(now);
    WrongFails(w.sessions[s].auth, w.cfg.keys, now);
    AuthenticateDispatch(w, s, WRONG, env);
    PlainNext(w, s, q, env, Dispatch(w, s, q, env));
  }

  lemma AuthenticateDispatch(w: World, s: nat, claim: AuthMachine.Claim, env: Env)
    requires WellSized(w) && s < MAX_SESSIONS && w.cfg.rxAuth
    ensures var v := Attempted(w, s, claim, env);
            var w' := Dispatch(w, s, Authenticate(Value(claim)), env);
            w' == v.(logs := w'.logs)
  {
    hide Reply, Offers, Passed, Attempted, DoHello, DoSetFrequency, DoSetSampleRate, DoSetControl, DoGetControl,
      DoOpenStream, DoStartRx, DoStopRx, DoCloseStream, OnlyTouches;
  }

  /** Only the connection's authentication record, and what is logged, differ. */
  predicate OnlyAuth(w: World, s: nat, w': World)
    requires WellSized(w) && s < MAX_SESSIONS
  {
    && WellSized(w')
    && w' == w.(sessions := w.sessions[s := w.sessions[s].(auth := w'.sessions[s].auth)],
                logs := w'.logs, judged := w'.judged, issued := w'.issued, clock := w'.clock)
  }

  predicate PiledSpan(x: Span, y: Span, now: nat, k: nat) {
    && y.start == x.start && |y.times| == |x.times| + k && y.times[..|x.times|] == x.times
    && forall i :: |x.times| <= i < |y.times| ==> y.times[i] == now
  }

  /** `k` failures at `now` have been added to the open span. */
  predicate Piled(a: AuthMachine.State, b: AuthMachine.State, now: nat, k: nat) {
    && a.spans != [] && |b.spans| == |a.spans| && b.spans[..|a.spans| - 1] == a.spans[..|a.spans| - 1]
    && b.failures == a.failures + k && b.window == a.window && b.closing == a.closing && b.unlocked == a.unlocked
    && PiledSpan(a.spans[|a.spans| - 1], b.spans[|a.spans| - 1], now, k)
  }

  lemma PiledMore(a: AuthMachine.State, b: AuthMachine.State, c: AuthMachine.State, now: nat, k: nat)
    requires Piled(a, b, now, 1) && Piled(b, c, now, k)
    ensures Piled(a, c, now, k + 1)
  {
    var n := |a.spans|;
    var x, y, z := a.spans[n - 1], b.spans[n - 1], c.spans[n - 1];
    assert z.times[..|x.times|] == y.times[..|x.times|];
    assert z.times[|x.times|] == y.times[|x.times|];
  }

  lemma FailedPiles(a: AuthMachine.State, now: nat)
    requires a.spans != []
    ensures Piled(a, Failed(a, now), now, 1)
  {
  }

  lemma NoRoll(a: AuthMachine.State, now: nat)
    requires a.window <= now <= a.window + WINDOW && now < TWO_64
    ensures Roll(a, now) == a
  {
    Elapsed(a.window, now);
  }

  ghost predicate AllWrong(ws: seq<World>, es: seq<Step>, s: nat, now: nat) {
    |ws| == |es| + 1 && forall i :: 0 <= i < |es| ==> es[i] == Wrong(s, now) && ws[i].clock <= now
  }

  /** `k` wrong answers at the same moment, none of which ends the connection. */
  lemma {:induction false} WrongMany(w: World, s: nat, now: nat, k: nat) returns (ws: seq<World>, es: seq<Step>)
    requires WellSized(w) && s < MAX_SESSIONS && w.sessions[s].live && w.sessions[s].phase != AwaitHello
    requires w.cfg.rxAuth && !w.sessions[s].auth.closing && w.clock <= now
    requires var a := w.sessions[s].auth;
             a.spans != [] && a.window <= now <= a.window + WINDOW && now < TWO_64 && a.failures + k < MAX_FAILURES
    ensures Chain(ws, es) && |es| == k && ws[0] == w && AllWrong(ws, es, s, now)
    ensures OnlyAuth(w, s, ws[k]) && Piled(w.sessions[s].auth, ws[k].sessions[s].auth, now, k) && ws[k].clock <= now
    decreases k
  {
    hide Next, Possible, Follows;
    if k == 0 {
      ws, es := [w], [];
    } else {
      var a := w.sessions[s].auth;
      NoRoll(a, now);
      WrongNext(w, s, now);
      FailedPiles(a, now);
      var e := Wrong(s, now);
      var w1 := Next(w, e);
      OneStep(w, e);
      var vs, cs := WrongMany(w1, s, now, k - 1);
      Join([w, w1], [e], vs, cs);
      ws, es := [w, w1] + vs[1..], [e] + cs;
      PiledMore(a, w1.sessions[s].auth, vs[k - 1].sessions[s].auth, now, k - 1);
      assert w1.sessions[s := vs[k - 1].sessions[s]] == w.sessions[s := vs[k - 1].sessions[s]];
    }
  }

  // ---- Nineteen in a minute -----------------------------------------------------------

  lemma {:induction false} AllInside(times: seq<nat>, t: nat)
    requires forall i :: 0 <= i < |times| ==> t <= times[i] <= t + WINDOW
    ensures InInterval(times, t) == |times|
  {
    if times != [] {
      AllInside(times[..|times| - 1], t);
    }
  }

  lemma TwoSpans(spans: seq<Span>, t: nat)
    requires |spans| == 2
    requires forall i, k :: 0 <= i < 2 && 0 <= k < |spans[i].times| ==> t <= spans[i].times[k] <= t + WINDOW
    ensures Failures(spans, t) == |spans[0].times| + |spans[1].times|
  {
    hide InInterval;
    AllInside(spans[0].times, t);
    AllInside(spans[1].times, t);
    assert spans[..1] == [spans[0]];
    assert Failures([spans[0]], t) == InInterval(spans[0].times, t) by {
      assert [spans[0]][..0] == [];
    }
  }

  /** connect and hello with authentication on, in the first minute the clock counts. */
  lemma HelloRun(w: World) returns (ws: seq<World>, es: seq<Step>)
    requires Initial(w) && w.cfg.rxAuth && w.clock <= WINDOW
    ensures Chain(ws, es) && |es| == 2 && ws[0] == w && forall i :: 0 <= i < 2 ==> TimeFlows(ws[i], es[i])
    ensures var w' := ws[2];
            && WellSized(w') && w'.sessions[0] == NEW_SESSION.(phase := Idle) && w'.clock == WINDOW
            && w'.cfg == w.cfg && w'.radio == w.radio
  {
    hide Next, Dispatch, Reply, Offers;
    var w1 := Next(w, Connect);
    FirstConnects(w);
    var q, env := Hello(Missing), EnvAt(WINDOW);
    DispatchIs(w1, 0, q, env);
    PlainNext(w1, 0, q, env, DoHello(w1, 0, Missing, env));
    es := [Connect, Command(0, q, env)];
    ws := [w, w1, Next(w1, es[1])];
  }

  /** Nine failures at the end of one window and nine at the start of the next. */
  lemma EighteenRun(w: World) returns (ws: seq<World>, es: seq<Step>)
    requires Initial(w) && w.cfg.rxAuth && w.clock <= WINDOW
    ensures Trace(ws, es) && ws[0] == w && forall i :: 0 <= i < |es| ==> TimeFlows(ws[i], es[i])
    ensures var w' := ws[|es|];
            && WellSized(w') && w'.sessions[0].live && w'.sessions[0].phase == Idle && w'.clock <= WINDOW + 1
            && w'.cfg == w.cfg && w'.radio == w.radio && !w'.sessions[0].auth.closing && !w'.sessions[0].auth.unlocked
            && EighteenIn(w'.sessions[0].auth)
  {
    hide Next, Possible, Initial, Follows;
    var us, ds := HelloRun(w);
    var vs, cs := WrongMany(us[2], 0, WINDOW, 9);
    Join(us, ds, vs, cs);
    var w3 := vs[9];
    var e := Wrong(0, WINDOW + 1);
    RollsAtLast(w3.sessions[0].auth);
    WrongNext(w3, 0, WINDOW + 1);
    OneStep(w3, e);
    var w4 := Next(w3, e);
    FailedPiles(Roll(w3.sessions[0].auth, WINDOW + 1), WINDOW + 1);
    Join(us + vs[1..], ds + cs, [w3, w4], [e]);
    var xs, bs := WrongMany(w4, 0, WINDOW + 1, 8);
    var ys, as_ := us + vs[1..] + [w4], ds + cs + [e];
    assert us + vs[1..] + [w3, w4][1..] == ys;
    Join(ys, as_, xs, bs);
    ws, es := ys + xs[1..], as_ + bs;
    Timely(us, ds, vs, cs, w3, e, ys, as_);
    TimelyJoin(ys, as_, xs, bs, WINDOW + 1);
  }

  /** Nine failures at WINDOW in the window from 0, nine at WINDOW + 1 in the next. */
  predicate EighteenIn(a: AuthMachine.State) {
    && a.failures == 9 && a.window == WINDOW + 1 && |a.spans| == 2
    && |a.spans[0].times| == 9 && |a.spans[1].times| == 9
    && (forall k :: 0 <= k < 9 ==> a.spans[0].times[k] == WINDOW)
    && (forall k :: 0 <= k < 9 ==> a.spans[1].times[k] == WINDOW + 1)
  }

  lemma RollsAtLast(a: AuthMachine.State)
    requires a.window == 0
    ensures Roll(a, WINDOW + 1) == a.(window := WINDOW + 1, failures := 0, spans := a.spans + [Span(WINDOW + 1, [])])
  {
    Elapsed(0, WINDOW + 1);
  }

  ghost predicate AllTimely(ws: seq<World>, es: seq<Step>) {
    |ws| == |es| + 1 && forall i :: 0 <= i < |es| ==> TimeFlows(ws[i], es[i])
  }

  lemma TimelyJoin(us: seq<World>, ds: seq<Step>, vs: seq<World>, cs: seq<Step>, now: nat)
    requires AllTimely(us, ds) && AllWrong(vs, cs, 0, now) && us[|ds|] == vs[0] && now < TWO_64
    ensures AllTimely(us + vs[1..], ds + cs)
  {
    var ws, es := us + vs[1..], ds + cs;
    forall i | 0 <= i < |es|
      ensures TimeFlows(ws[i], es[i])
    {
      if i < |ds| {
        assert TimeFlows(us[i], ds[i]);
      } else {
        assert ws[i] == vs[i - |ds|] && es[i] == cs[i - |ds|];
      }
    }
  }

  lemma Timely(us: seq<World>, ds: seq<Step>, vs: seq<World>, cs: seq<Step>, w3: World, e: Step,
               ys: seq<World>, as_: seq<Step>)
    requires AllTimely(us, ds) && AllWrong(vs, cs, 0, WINDOW) && us[|ds|] == vs[0] && vs[|cs|] == w3 && |cs| > 0
    requires e == Wrong(0, WINDOW + 1) && w3.clock <= WINDOW
    requires as_ == ds + cs + [e] && |ys| == |as_| + 1 && ys[..|as_|] == us + vs[1..]
    ensures AllTimely(ys, as_)
  {
    TimelyJoin(us, ds, vs, cs, WINDOW);
    var xs := us + vs[1..];
    forall i | 0 <= i < |as_|
      ensures TimeFlows(ys[i], as_[i])
    {
      assert ys[i] == ys[..|as_|][i];
      if i < |ds| + |cs| {
        assert TimeFlows(xs[i], (ds + cs)[i]);
      } else {
        assert ys[i] == w3;
      }
    }
  }

  lemma TenthCloses(a: AuthMachine.State, keys: seq<Auth.Key>)
    requires EighteenIn(a) && !a.closing
    ensures Attempt(a, keys, WRONG, WINDOW + 1, None) == Failed(a, WINDOW + 1).(closing := true)
  {
    NoRoll(a, WINDOW + 1);
  }

  lemma NineteenIn(a: AuthMachine.State)
    requires EighteenIn(a)
    ensures Failures(Failed(a, WINDOW + 1).spans, WINDOW) == 19
  {
    var spans := Failed(a, WINDOW + 1).spans;
    assert |spans| == 2 && |spans[0].times| == 9 && |spans[1].times| == 10;
    TwoSpans(spans, WINDOW);
  }

  lemma RecordIs(w: World, s: nat, now: nat)
    requires WellSized(w) && s < MAX_SESSIONS && w.cfg.rxAuth && w.sessions[s].phase != AwaitHello
    ensures RecordAfter(w, Wrong(s, now)) == Attempt(w.sessions[s].auth, w.cfg.keys, WRONG, now, None)
  {
    hide Dispatch, Reply, Offers, Attempt, Passed;
    AuthenticateDispatch(w, s, WRONG, EnvAt(now));
  }

  /** The nineteenth failure within a minute: it is answered, the connection is gone after it, and a
      bias tee that was on goes with it although the connection was locked. */
  lemma NineteenRun(w: World) returns (ws: seq<World>, es: seq<Step>)
    requires Initial(w) && w.cfg.rxAuth && w.clock <= WINDOW
    ensures Trace(ws, es) && |es| > 0 && ws[0] == w && forall i :: 0 <= i < |es| ==> TimeFlows(ws[i], es[i])
    ensures var n := |es| - 1;
            && es[n].Command? && es[n].s == 0 && WellSized(ws[n]) && WellSized(ws[n + 1])
            && Failures(RecordAfter(ws[n], es[n]).spans, WINDOW) == 19
            && !ws[n].sessions[0].auth.unlocked && ws[n + 1].sessions[0] == FREE_SESSION
            && (w.radio.bias && !w.cfg.biasPersist ==> ws[n].radio.bias && !ws[n + 1].radio.bias)
  {
    hide Next, Initial, Follows, Attempt, Failures, Handle, LastStraw;
    var us, ds := EighteenRun(w);
    var w5 := us[|ds|];
    var e := Wrong(0, WINDOW + 1);
    OneStep(w5, e);
    var w6 := Next(w5, e);
    Join(us, ds, [w5, w6], [e]);
    ws, es := us + [w5, w6][1..], ds + [e];
    var a := w5.sessions[0].auth;
    RecordIs(w5, 0, WINDOW + 1);
    TenthCloses(a, w5.cfg.keys);
    NineteenIn(a);
    var n := |ds|;
    assert ws[n] == w5 && es[n] == e && ws[n + 1] == w6;
    forall i | 0 <= i < |es|
      ensures TimeFlows(ws[i], es[i])
    {
      if i < n {
        assert TimeFlows(us[i], ds[i]);
      }
    }
    GuessesBounded(ws, es, n, WINDOW);
    ClosesIff(w5, 0, e.request, e.env);
    LockedRuns(ws, es, n, 0);
  }

  // ---- Another client's bias tee ------------------------------------------------------

  /** connect, hello and a right answer: connection 0 is unlocked. */
  lemma UnlockRun(w: World, nonce: Nonce) returns (ws: seq<World>, es: seq<Step>)
    requires Initial(w) && w.cfg.rxAuth && |w.cfg.keys| > 0
    ensures Trace(ws, es) && |es| == 3 && ws[0] == w
    ensures var w' := ws[3];
            && WellSized(w') && w'.sessions == w.sessions[0 := w'.sessions[0]] && w'.sessions[0].live
            && w'.sessions[0].phase == Idle && w'.sessions[0].auth.unlocked && !w'.sessions[0].auth.closing
            && w'.cfg == w.cfg && w'.owner == -1
  {
    hide Next, Dispatch, Reply, Offers, Attempt, Passed, Attempted, Auth.Hmac, Auth.HexText, Auth.Accepts, Roll;
    var w1 := Next(w, Connect);
    FirstConnects(w);
    var q1, env := Hello(Missing), EnvAt(0).(nonce := Some(nonce));
    DispatchIs(w1, 0, q1, env);
    PlainNext(w1, 0, q1, env, DoHello(w1, 0, Missing, env));
    var w2 := Next(w1, Command(0, q1, env));
    var claim := AuthMachine.Claim(true, w.cfg.keys[0].id, Auth.HexText(Auth.Hmac(w.cfg.keys[0].psk, nonce)));
    Auth.HonestClientAccepted(w.cfg.keys, 0, nonce);
    RightPasses(w2, claim, nonce, env);
    var q2 := Authenticate(Value(claim));
    AuthenticateDispatch(w2, 0, claim, env);
    AttemptUnlocks(w2, 0, claim, env);
    AttemptCloses(w2, 0, claim, env);
    PlainNext(w2, 0, q2, env, Dispatch(w2, 0, q2, env));
    es := [Connect, Command(0, q1, env), Command(0, q2, env)];
    ws := [w, w1, w2, Next(w2, es[2])];
  }

  lemma RightPasses(w: World, claim: AuthMachine.Claim, nonce: Nonce, env: Env)
    requires WellSized(w) && w.sessions[0].auth.nonceValid && w.sessions[0].auth.nonce == nonce
    requires claim.methodOk && |w.cfg.keys| > 0 && Auth.Accepts(w.cfg.keys, claim.keyId, nonce, claim.response)
    ensures Passed(w, 0, claim, env)
  {
    hide Auth.Accepts;
  }

  lemma BiasNext(w: World)
    requires WellSized(w) && w.sessions[0].live && w.sessions[0].phase == Idle && w.owner == -1
    requires w.sessions[0].auth.unlocked && !w.sessions[0].auth.closing
    ensures var e := Command(0, SetControl(Rx(false), BiasTee(Value(5.0))), EnvAt(0));
            var w' := Next(w, e);
            && Possible(w, e)
            && w' == w.(radio := w.radio.(bias := true), logs := w'.logs, clock := 0)
  {
    hide Next, Dispatch, Reply, Broadcast, Offers;
    var q := SetControl(Rx(false), BiasTee(Value(5.0)));
    var w1 := DoSetControl(w, 0, q.to, q.setting, EnvAt(0));
    DispatchIs(w, 0, q, EnvAt(0));
    PlainNext(w, 0, q, EnvAt(0), w1);
  }

  lemma SecondConnects(w: World)
    requires WellSized(w) && w.sessions[0].live && w.sessions[1] == FREE_SESSION
    ensures var w' := Next(w, Connect);
            w' == w.(sessions := w.sessions[1 := NEW_SESSION], logs := w'.logs)
  {
    hide FirstFree, Handle, DoDestroy, VitaSender.Callback;
    var _ := FirstFree(w.sessions);
  }

  /** A client with a key switches the bias tee on; another connects, sends nothing at all, and
      leaves; the bias tee is off although its client is still there. */
  lemma BiasRun(w: World, nonce: Nonce) returns (ws: seq<World>, es: seq<Step>)
    requires Initial(w) && w.cfg.rxAuth && |w.cfg.keys| > 0 && !w.cfg.biasPersist
    ensures Trace(ws, es) && |es| == 6 && ws[0] == w && es[5] == Disconnect(1, true)
    ensures WellSized(ws[5]) && WellSized(ws[6])
    ensures ws[5].radio.bias && !ws[5].sessions[1].auth.unlocked && !Untouched(ws[5], 1, ws[6])
    ensures !ws[6].radio.bias && ws[6].sessions[0].live && ws[6].sessions[0].auth.unlocked
  {
    hide Next, Initial, Follows, Passed, Attempted;
    var us, ds := UnlockRun(w, nonce);
    FreeAtStart(w);
    assert w.sessions[1] == FREE_SESSION;
    BiasNext(us[3]);
    var on := Command(0, SetControl(Rx(false), BiasTee(Value(5.0))), EnvAt(0));
    var w4 := Next(us[3], on);
    SecondConnects(w4);
    var w5 := Next(w4, Connect);
    var w6 := Next(w5, Disconnect(1, true));
    OneStep(us[3], on);
    OneStep(w4, Connect);
    OneStep(w5, Disconnect(1, true));
    Join(us, ds, [us[3], w4], [on]);
    Join(us + [us[3], w4][1..], ds + [on], [w4, w5], [Connect]);
    Join(us + [us[3], w4][1..] + [w4, w5][1..], ds + [on] + [Connect], [w5, w6], [Disconnect(1, true)]);
    ws := us + [us[3], w4][1..] + [w4, w5][1..] + [w5, w6][1..];
    es := ds + [on] + [Connect] + [Disconnect(1, true)];
    assert ws[5] == w5 && ws[6] == w6;
    LeaveNext(w5);
  }

  lemma FreeAtStart(w: World)
    requires Initial(w)
    ensures WellSized(w) && forall i :: 0 <= i < MAX_SESSIONS ==> w.sessions[i] == FREE_SESSION
  {
  }

  lemma LeaveNext(w: World)
    requires WellSized(w) && w.sessions[1] == NEW_SESSION && w.owner == -1 && w.radio.bias && !w.cfg.biasPersist
    ensures var w' := Next(w, Disconnect(1, true)); !w'.radio.bias && w'.sessions == w.sessions[1 := FREE_SESSION]
  {
    hide Handle, Broadcast, Offers, VitaSender.Callback, FirstFree;
  }
}
