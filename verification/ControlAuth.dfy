/** The authentication gate over every run: a locked connection changes nothing, unlocking takes a
    right answer and lasts as long as the connection, and every challenge is judged at most once. */
module ControlAuth {
  import opened Basics
  import opened ControlPlane
  import opened ControlInvariants
  import opened AuthMachine
  import Auth
  import Radio
  import VitaSender

  // ---- What handlers do to the authentication state -----------------------------------

  predicate AuthSame(w: World, s: nat, w': World, opens: bool)
    requires WellSized(w) && WellSized(w') && s < MAX_SESSIONS
  {
    && w'.sessions[s].auth == w.sessions[s].auth && w'.issued == w.issued && w'.judged == w.judged
    && (w'.sessions[s].streamOpen ==> w.sessions[s].streamOpen || opens)
  }

  lemma TuneUntouched(w: World, s: nat, to: Address, n: Arg<nat>, env: Env)
    requires WellSized(w) && s < MAX_SESSIONS
    ensures AuthSame(w, s, DoSetFrequency(w, s, to, n, env), false)
    ensures AuthSame(w, s, DoSetSampleRate(w, s, to, n, env), false)
  {
    hide Reply, Broadcast, Offers, Radio.Rates, Radio.InBand;
  }

  lemma OpenUntouched(w: World, s: nat, to: Address, problem: Arg<Code>)
    requires WellSized(w) && s < MAX_SESSIONS
    ensures AuthSame(w, s, DoOpenStream(w, s, to, problem), to.Rx?)
  {
    hide Reply, Broadcast, Offers;
  }

  lemma StartUntouched(w: World, s: nat, id: StreamRef, env: Env)
    requires WellSized(w) && s < MAX_SESSIONS
    ensures AuthSame(w, s, DoStartRx(w, s, id, env), false)
  {
    hide Reply, Offers, VitaSender.Add, VitaSender.Free, VitaSender.Remove, Radio.Start, Radio.Starts;
  }

  lemma StopUntouched(w: World, s: nat, id: StreamRef)
    requires WellSized(w) && s < MAX_SESSIONS
    ensures AuthSame(w, s, DoStopRx(w, s, id), false)
  {
    hide Reply, Offers, VitaSender.Remove;
  }

  lemma CloseUntouched(w: World, s: nat, id: StreamRef)
    requires WellSized(w) && s < MAX_SESSIONS
    ensures AuthSame(w, s, DoCloseStream(w, s, id), false)
  {
    hide Reply, Broadcast, Offers, VitaSender.Remove;
  }

  lemma SettingUntouched(w: World, s: nat, setting: Setting, env: Env)
    requires WellSized(w) && s < MAX_SESSIONS
    ensures AuthSame(w, s, DoSetting(w, s, setting, env), false)
  {
    hide Reply, Broadcast, Offers, SendContexts, ModeSideEffects;
  }

  /** Only open_stream opens a stream, and only hello and authenticate touch the rest. */
  lemma AuthUntouched(w: World, s: nat, q: Request, env: Env)
    requires WellSized(w) && s < MAX_SESSIONS
    requires !q.Hello? && !q.Authenticate?
    ensures AuthSame(w, s, Dispatch(w, s, q, env), q.OpenStream? && q.to.Rx?)
  {
    hide Reply, Offers, DoHello, DoAuthenticate, DoSetFrequency, DoSetSampleRate, DoSetting, DoOpenStream, DoStartRx,
      DoStopRx, DoCloseStream, OnlyTouches;
    match q
    case SetFrequency(to, n) => TuneUntouched(w, s, to, n, env);
    case SetSampleRate(to, n) => TuneUntouched(w, s, to, n, env);
    case SetControl(to, setting) => SettingUntouched(w, s, setting, env);
    case OpenStream(to, problem) => OpenUntouched(w, s, to, problem);
    case StartRx(id) => StartUntouched(w, s, id, env);
    case StopRx(id) => StopUntouched(w, s, id);
    case CloseStream(id) => CloseUntouched(w, s, id);
    case _ =>
  }

  lemma AttemptUnlocks(w: World, s: nat, claim: AuthMachine.Claim, env: Env)
    requires WellSized(w) && s < MAX_SESSIONS
    ensures Attempted(w, s, claim, env).sessions[s].auth.unlocked <==>
              w.sessions[s].auth.unlocked || Passed(w, s, claim, env)
  {
    hide Passes, Judges;
  }

  /** hello and authenticate touch only the connection's own record. */
  lemma AuthOnly(w: World, s: nat, q: Request, env: Env)
    requires WellSized(w) && s < MAX_SESSIONS
    requires q.Hello? || q.Authenticate?
    ensures var w' := Dispatch(w, s, q, env);
            && w'.slots == w.slots && w'.owner == w.owner && w'.radio == w.radio && w'.counter == w.counter
            && w'.sessions == w.sessions[s := w.sessions[s].(phase := w'.sessions[s].phase,
                 auth := w'.sessions[s].auth)]
            && (w'.sessions[s].auth.unlocked <==>
                  w.sessions[s].auth.unlocked ||
                  (q.Authenticate? && w.cfg.rxAuth && q.claim.Value? && Passed(w, s, q.claim.value, env)))
  {
    hide Reply, Offers, Passed, Attempted, OnlyTouches, DoSetFrequency, DoSetSampleRate, DoSetControl, DoGetControl,
      DoOpenStream, DoStartRx, DoStopRx, DoCloseStream;
    if q.Authenticate? && q.claim.Value? {
      AttemptUnlocks(w, s, q.claim.value, env);
    }
  }

  // ---- Locked connections -------------------------------------------------------------

  /** Owner, slots, radio, stream ids and all connections but this one. */
  predicate Untouched(w: World, s: nat, w': World)
    requires WellSized(w) && WellSized(w')
  {
    && w'.owner == w.owner && w'.slots == w.slots && w'.radio == w.radio && w'.counter == w.counter
    && (forall i :: 0 <= i < MAX_SESSIONS && i != s ==> w'.sessions[i] == w.sessions[i] && w'.logs[i] == w.logs[i])
  }

  lemma EntryTouches(w: World, s: nat, problem: Arg<Code>, claim: Arg<AuthMachine.Claim>, env: Env)
    requires WellSized(w) && s < MAX_SESSIONS
    ensures Untouched(w, s, DoHello(w, s, problem, env)) && Untouched(w, s, DoAuthenticate(w, s, claim, env))
  {
    hide Offers, Attempted, Passed;
  }

  lemma ReadTouches(w: World, s: nat, to: Address, name: Arg<Option<Control>>)
    requires WellSized(w) && s < MAX_SESSIONS
    ensures Untouched(w, s, DoGetControl(w, s, to, name))
  {
    hide Offers;
  }

  /** A command that does not address rx is answered, and that is all. */
  lemma RefusedTouches(w: World, s: nat, to: Address, env: Env)
    requires WellSized(w) && s < MAX_SESSIONS && !to.Rx?
    ensures forall n :: Untouched(w, s, DoSetFrequency(w, s, to, n, env))
    ensures forall n :: Untouched(w, s, DoSetSampleRate(w, s, to, n, env))
    ensures forall c :: Untouched(w, s, DoSetControl(w, s, to, c, env))
    ensures forall p :: Untouched(w, s, DoOpenStream(w, s, to, p))
  {
    hide Offers;
  }

  /** A command the gate lets past touches nothing of rx. */
  lemma OpenTouches(w: World, s: nat, q: Request, env: Env)
    requires WellSized(w) && s < MAX_SESSIONS && !AddressesRx(q)
    ensures Untouched(w, s, Dispatch(w, s, q, env))
  {
    hide Offers, DoStartRx, DoStopRx, DoCloseStream, DoSetFrequency, DoSetSampleRate, DoSetControl, DoOpenStream,
      DoHello, DoAuthenticate, DoGetControl, OnlyTouches, NextId;
    match q
    case Hello(problem) => EntryTouches(w, s, problem, Missing, env);
    case Authenticate(claim) => EntryTouches(w, s, Missing, claim, env);
    case GetControl(to, name) => ReadTouches(w, s, to, name);
    case SetFrequency(to, hz) => RefusedTouches(w, s, to, env);
    case SetSampleRate(to, sps) => RefusedTouches(w, s, to, env);
    case SetControl(to, setting) => RefusedTouches(w, s, to, env);
    case OpenStream(to, problem) => RefusedTouches(w, s, to, env);
    case _ =>
  }

  /** With rx authentication on, what a locked connection's command does is seen by nobody else. */
  lemma LockedHandles(w: World, s: nat, q: Request, env: Env)
    requires WellSized(w) && s < MAX_SESSIONS
    requires w.cfg.rxAuth && !w.sessions[s].auth.unlocked
    ensures Untouched(w, s, Handle(w, s, q, env))
  {
    hide Offers, Dispatch, AddressesRx;
    if !TooEarly(w.sessions[s], q) && !AddressesRx(q) {
      OpenTouches(w, s, q, env);
    }
  }

  // ---- The gate -----------------------------------------------------------------------

  predicate GateAt(w: World, i: nat)
    requires WellSized(w) && i < MAX_SESSIONS
  {
    w.cfg.rxAuth && w.sessions[i].streamOpen ==> w.sessions[i].auth.unlocked
  }

  ghost predicate Gate(w: World) {
    WellSized(w) && forall i :: 0 <= i < MAX_SESSIONS ==> GateAt(w, i)
  }

  /** A right answer to the challenge in force. */
  ghost predicate Answers(w: World, s: nat, q: Request, env: Env)
    requires WellSized(w) && s < MAX_SESSIONS
  {
    q.Authenticate? && q.claim.Value? && Passed(w, s, q.claim.value, env)
  }

  /** What a command can do to its connection's lock and stream. */
  lemma HandleOne(w: World, s: nat, q: Request, env: Env)
    requires WellSized(w) && s < MAX_SESSIONS
    ensures var t, t' := w.sessions[s], Handle(w, s, q, env).sessions[s];
            && (t.auth.unlocked ==> t'.auth.unlocked)
            && (t'.auth.unlocked ==> t.auth.unlocked || Answers(w, s, q, env))
            && (t'.streamOpen ==> t.streamOpen || !w.cfg.rxAuth || t.auth.unlocked)
  {
    hide Dispatch, Reply, Offers, Passed;
    if q.Hello? || q.Authenticate? {
      AuthOnly(w, s, q, env);
    } else {
      AuthUntouched(w, s, q, env);
    }
  }

  lemma HandleGate(w: World, s: nat, q: Request, env: Env)
    requires Gate(w) && s < MAX_SESSIONS
    ensures Gate(Handle(w, s, q, env))
  {
    hide Handle, Answers;
    var w' := Handle(w, s, q, env);
    HandleOne(w, s, q, env);
    forall i | 0 <= i < MAX_SESSIONS
      ensures GateAt(w', i)
    {
      assert GateAt(w, i);
    }
  }

  lemma StepGate(w: World, e: Step)
    requires Gate(w) && Possible(w, e)
    ensures Gate(Next(w, e))
  {
    hide Handle, Broadcast, Offers, FirstFree, VitaSender.Callback, VitaSender.Remove;
    var w' := Next(w, e);
    if e.Command? {
      HandleGate(w, e.s, e.request, e.env);
    }
    var w1 := if e.Command? then Handle(w, e.s, e.request, e.env) else w;
    forall i | 0 <= i < MAX_SESSIONS
      ensures GateAt(w', i)
    {
      assert GateAt(w1, i);
    }
  }

  // ---- The end of a locked connection -------------------------------------------------

  /** The failed attempt that ends a connection: nine failures counted in the window it falls in. */
  ghost predicate LastStraw(w: World, s: nat, q: Request, env: Env)
    requires WellSized(w) && s < MAX_SESSIONS
  {
    && w.cfg.rxAuth && w.sessions[s].phase != AwaitHello && q.Authenticate? && q.claim.Value?
    && !Passed(w, s, q.claim.value, env)
    && Roll(w.sessions[s].auth, env.now).failures >= MAX_FAILURES - 1
  }

  lemma ClosesIff(w: World, s: nat, q: Request, env: Env)
    requires WellSized(w) && s < MAX_SESSIONS && !w.sessions[s].auth.closing
    ensures Handle(w, s, q, env).sessions[s].auth.closing <==> LastStraw(w, s, q, env)
  {
    hide Dispatch, Reply, Offers, Passed, OnlyTouches, Attempted, Roll;
    if q.Authenticate? {
      AuthenticateIs(w, s, q.claim, env);
      if q.claim.Value? {
        AttemptCloses(w, s, q.claim.value, env);
      }
    } else if q.Hello? {
      HelloOpen(w, s, q.problem, env);
    } else {
      AuthUntouched(w, s, q, env);
    }
  }

  lemma AuthenticateIs(w: World, s: nat, claim: Arg<AuthMachine.Claim>, env: Env)
    requires WellSized(w) && s < MAX_SESSIONS
    ensures var t := Dispatch(w, s, Authenticate(claim), env).sessions[s];
            t == if w.cfg.rxAuth && claim.Value? then Attempted(w, s, claim.value, env).sessions[s] else w.sessions[s]
  {
    hide Reply, Offers, Passed, Attempted, DoHello, DoSetFrequency, DoSetSampleRate, DoSetControl, DoGetControl,
      DoOpenStream, DoStartRx, DoStopRx, DoCloseStream;
  }

  lemma AttemptCloses(w: World, s: nat, claim: AuthMachine.Claim, env: Env)
    requires WellSized(w) && s < MAX_SESSIONS && !w.sessions[s].auth.closing
    ensures Attempted(w, s, claim, env).sessions[s].auth.closing <==>
              !Passed(w, s, claim, env) && Roll(w.sessions[s].auth, env.now).failures >= MAX_FAILURES - 1
  {
    hide Passes, Judges;
  }

  lemma HelloOpen(w: World, s: nat, problem: Arg<Code>, env: Env)
    requires WellSized(w) && s < MAX_SESSIONS && !w.sessions[s].auth.closing
    ensures !Dispatch(w, s, Hello(problem), env).sessions[s].auth.closing
  {
    hide Dispatch, Reply, Offers;
    DispatchIs(w, s, Hello(problem), env);
  }

  /** The step ends connection `s`. */
  ghost predicate Ends(w: World, e: Step, s: nat)
    requires WellSized(w) && s < MAX_SESSIONS
  {
    match e
    case Disconnect(i, _) => i == s
    case Command(i, q, env) => i == s && LastStraw(w, s, q, env)
    case _ => false
  }

  /** The bias tee is on, is not to be kept, and the device will switch it off. */
  predicate BiasFalls(w: World, e: Step) {
    && w.radio.bias && !w.cfg.biasPersist
    && match e
       case Disconnect(_, biasOk) => biasOk
       case Command(_, _, env) => env.biasOk
       case _ => false
  }

  /** A connection that owns nothing leaves: of all the others see, only the bias tee can change. */
  lemma QuietLeave(w: World, s: nat, biasOk: bool)
    requires WellSized(w) && s < MAX_SESSIONS && w.owner != s
    requires w.sessions[s].token < 0 && w.sessions[s].phase != Streaming
    ensures var w' := DoDestroy(w, s, biasOk);
            var off := w.radio.bias && !w.cfg.biasPersist && biasOk;
            Untouched(w.(radio := w.radio.(bias := w.radio.bias && !off)), s, w')
  {
    hide Broadcast, Offers;
  }

  /** A step of a locked connection changes nothing others have or see, if and only if it does not
      end the connection while the bias tee is on and falls with it; and then only that changes. */
  lemma LockedChangesNothing(w: World, e: Step, s: nat)
    requires Weak(w) && Gate(w) && NoneClosing(w) && Possible(w, e) && s < MAX_SESSIONS
    requires (e.Command? && e.s == s) || (e.Disconnect? && e.s == s)
    requires w.cfg.rxAuth && !w.sessions[s].auth.unlocked
    ensures Untouched(w, s, Next(w, e)) <==> !(Ends(w, e, s) && BiasFalls(w, e))
    ensures Untouched(w.(radio := w.radio.(bias := Next(w, e).radio.bias)), s, Next(w, e))
    ensures Next(w, e).radio.bias ==> w.radio.bias
  {
    hide Handle, DoDestroy, LastStraw, Gate, Held;
    LockedOwnsNothing(w, s);
    match e
    case Disconnect(_, biasOk) =>
      QuietLeave(w, s, biasOk);
    case Command(_, q, env) =>
      LockedHandles(w, s, q, env);
      ClosesIff(w, s, q, env);
      var w1 := Handle(w, s, q, env).(clock := env.now);
      if w1.sessions[s].auth.closing {
        ClosingOwnsNothing(w, s, q, env);
        QuietLeave(w1, s, env.biasOk);
      }
  }

  lemma LockedOwnsNothing(w: World, s: nat)
    requires Weak(w) && Gate(w) && s < MAX_SESSIONS && w.cfg.rxAuth && w.sessions[s].live
             && !w.sessions[s].auth.unlocked
    ensures w.owner != s && w.sessions[s].token < 0 && w.sessions[s].phase != Streaming
            && w.sessions[s].phase != StreamOpen
  {
    assert GateAt(w, s) && SessionOk(w.sessions[s], s == w.owner);
  }

  /** The last failed attempt leaves the rest of the record as it was. */
  lemma ClosingOwnsNothing(w: World, s: nat, q: Request, env: Env)
    requires WellSized(w) && s < MAX_SESSIONS && !w.sessions[s].auth.closing
    requires Handle(w, s, q, env).sessions[s].auth.closing
    ensures var t, t' := w.sessions[s], Handle(w, s, q, env).sessions[s];
            t'.token == t.token && t'.phase == t.phase && Handle(w, s, q, env).owner == w.owner
  {
    hide Dispatch, Reply, Offers, Passed, OnlyTouches, Attempted;
    ClosesIff(w, s, q, env);
    AuthenticateIs(w, s, q.claim, env);
    AuthOnly(w, s, q, env);
  }

  /** Over every run: each step of a locked connection. */
  lemma LockedRuns(ws: seq<World>, es: seq<Step>, n: nat, s: nat)
    requires Trace(ws, es) && n < |es| && s < MAX_SESSIONS && WellSized(ws[n]) && WellSized(ws[n + 1])
    requires (es[n].Command? && es[n].s == s) || (es[n].Disconnect? && es[n].s == s)
    requires ws[n].cfg.rxAuth && !ws[n].sessions[s].auth.unlocked
    ensures Untouched(ws[n], s, ws[n + 1]) <==> !(Ends(ws[n], es[n], s) && BiasFalls(ws[n], es[n]))
    ensures Untouched(ws[n].(radio := ws[n].radio.(bias := ws[n + 1].radio.bias)), s, ws[n + 1])
  {
    hide Next, Possible, Initial, Weak, Gate, Ends, Untouched;
    AlwaysWeak(ws, es, n);
    AlwaysGate(ws, es, n);
    assert Follows(ws[n], es[n], ws[n + 1]);
    LockedChangesNothing(ws[n], es[n], s);
  }

  // ---- Challenges ---------------------------------------------------------------------

  predicate NoRepeats(s: seq<Nonce>) {
    forall i, j :: 0 <= i < j < |s| ==> s[i] != s[j]
  }

  /** A challenge in force was handed out, is unused, and is no other connection's. */
  predicate LiveNonce(w: World, i: nat)
    requires WellSized(w) && i < MAX_SESSIONS
  {
    w.sessions[i].auth.nonceValid ==>
      && w.sessions[i].auth.nonce in w.issued && w.sessions[i].auth.nonce !in w.judged
      && forall j :: 0 <= j < MAX_SESSIONS && j != i && w.sessions[j].auth.nonceValid ==>
           w.sessions[j].auth.nonce != w.sessions[i].auth.nonce
  }

  ghost predicate SingleUse(w: World) {
    && WellSized(w) && NoRepeats(w.judged)
    && (forall n :: n in w.judged ==> n in w.issued)
    && forall i :: 0 <= i < MAX_SESSIONS ==> LiveNonce(w, i)
  }

  /** The random source never gives the same nonce twice. */
  predicate FreshNonce(w: World, e: Step) {
    e.Command? && e.env.nonce.Some? ==> e.env.nonce.value !in w.issued
  }

  /** One connection's challenge is spent, replaced or dropped. */
  lemma NonceMoves(w: World, s: nat, fresh_: Option<Nonce>, judged: bool, w': World)
    requires SingleUse(w) && s < MAX_SESSIONS && WellSized(w')
    requires fresh_.Some? ==> fresh_.value !in w.issued
    requires judged ==> w.sessions[s].auth.nonceValid
    requires w'.sessions == w.sessions[s := w'.sessions[s]]
    requires w'.judged == if judged then w.judged + [w.sessions[s].auth.nonce] else w.judged
    requires w'.sessions[s].auth.nonceValid ==> fresh_.Some? && w'.sessions[s].auth.nonce == fresh_.value
    requires w'.issued == w.issued || (fresh_.Some? && w'.issued == w.issued + {fresh_.value})
    requires w'.sessions[s].auth.nonceValid ==> w'.sessions[s].auth.nonce in w'.issued
    ensures SingleUse(w')
  {
    assert LiveNonce(w, s);
    forall i | 0 <= i < MAX_SESSIONS
      ensures LiveNonce(w', i)
    {
      assert LiveNonce(w, i);
      forall j | 0 <= j < MAX_SESSIONS && j != i && w'.sessions[j].auth.nonceValid && w'.sessions[i].auth.nonceValid
        ensures w'.sessions[j].auth.nonce != w'.sessions[i].auth.nonce
      {
        assert LiveNonce(w, j);
      }
    }
  }

  lemma SameNonces(w: World, w': World)
    requires SingleUse(w) && WellSized(w') && w'.issued == w.issued && w'.judged == w.judged
    requires forall i :: 0 <= i < MAX_SESSIONS ==>
               w'.sessions[i].auth == w.sessions[i].auth || !w'.sessions[i].auth.nonceValid
    ensures SingleUse(w')
  {
    forall i | 0 <= i < MAX_SESSIONS
      ensures LiveNonce(w', i)
    {
      assert LiveNonce(w, i);
    }
  }

  lemma HelloNonces(w: World, s: nat, problem: Arg<Code>, env: Env)
    requires SingleUse(w) && s < MAX_SESSIONS && (env.nonce.Some? ==> env.nonce.value !in w.issued)
    ensures SingleUse(DoHello(w, s, problem, env))
  {
    hide SingleUse, Reply, Offers;
    NonceSized(w);
    var w' := DoHello(w, s, problem, env);
    if problem.Value? || !w.cfg.rxAuth {
      SameNonces(w, w');
    } else {
      NonceMoves(w, s, env.nonce, false, w');
    }
  }

  lemma NonceSized(w: World)
    ensures SingleUse(w) ==> WellSized(w)
  {
  }

  lemma AttemptNonce(a: AuthMachine.State, keys: seq<Auth.Key>, c: AuthMachine.Claim, now: nat, fresh_: Option<Nonce>)
    ensures var b := Attempt(a, keys, c, now, fresh_);
            if Passes(Roll(a, now), keys, c) then !b.nonceValid
            else (b.nonceValid <==> fresh_.Some?) && (fresh_.Some? ==> b.nonce == fresh_.value)
  {
    hide Passes;
  }

  lemma AuthenticateNonces(w: World, s: nat, claim: Arg<AuthMachine.Claim>, env: Env)
    requires SingleUse(w) && s < MAX_SESSIONS
    requires env.nonce.Some? ==> env.nonce.value !in w.issued
    ensures SingleUse(DoAuthenticate(w, s, claim, env))
  {
    hide SingleUse, Reply, Offers, Passes, Attempt;
    NonceSized(w);
    var w' := DoAuthenticate(w, s, claim, env);
    if !w.cfg.rxAuth || !claim.Value? {
      SameNonces(w, w');
    } else {
      AttemptNonce(w.sessions[s].auth, w.cfg.keys, claim.value, env.now, env.nonce);
      NonceMoves(w, s, env.nonce, Judges(w.sessions[s].auth, w.cfg.keys, claim.value), w');
    }
  }

  lemma HandleNonces(w: World, s: nat, q: Request, env: Env)
    requires SingleUse(w) && s < MAX_SESSIONS
    requires env.nonce.Some? ==> env.nonce.value !in w.issued
    ensures SingleUse(Handle(w, s, q, env))
  {
    hide SingleUse, Reply, Offers, DoHello, DoAuthenticate, DoSetFrequency, DoSetSampleRate, DoSetControl, DoGetControl,
      DoOpenStream, DoStartRx, DoStopRx, DoCloseStream;
    NonceSized(w);
    var w' := Handle(w, s, q, env);
    if TooEarly(w.sessions[s], q) || Locked(w.cfg, w.sessions[s], q) {
      SameNonces(w, w');
    } else if q.Hello? {
      HelloNonces(w, s, q.problem, env);
    } else if q.Authenticate? {
      AuthenticateNonces(w, s, q.claim, env);
    } else {
      AuthUntouched(w, s, q, env);
      SameNonces(w, w');
    }
  }

  lemma LeavingNonces(w: World, s: nat, biasOk: bool)
    requires SingleUse(w) && s < MAX_SESSIONS
    ensures SingleUse(DoDestroy(w, s, biasOk)) && SingleUse(DoConnect(w))
  {
    hide SingleUse, Broadcast, Offers, FirstFree, VitaSender.Remove;
    NonceSized(w);
    SameNonces(w, DoDestroy(w, s, biasOk));
    SameNonces(w, DoConnect(w));
  }

  lemma StepNonces(w: World, e: Step)
    requires SingleUse(w) && Possible(w, e) && FreshNonce(w, e)
    ensures SingleUse(Next(w, e))
  {
    hide SingleUse, Handle, DoDestroy, DoConnect, VitaSender.Callback;
    NonceSized(w);
    match e
    case Connect => LeavingNonces(w, 0, true);
    case Disconnect(s, biasOk) => LeavingNonces(w, s, biasOk);
    case Usb(buf) => SameNonces(w, Next(w, e));
    case Command(s, q, env) =>
      HandleNonces(w, s, q, env);
      var w1 := Handle(w, s, q, env).(clock := env.now);
      SameNonces(Handle(w, s, q, env), w1);
      if w1.sessions[s].auth.closing {
        LeavingNonces(w1, s, env.biasOk);
      }
  }

  // ---- Failed attempts ----------------------------------------------------------------

  /** The monotonic clock, in nanoseconds, before it wraps. */
  predicate TimeFlows(w: World, e: Step) {
    e.Command? ==> w.clock <= e.env.now < TWO_64
  }

  ghost predicate Clocked(w: World) {
    WellSized(w) && forall i :: 0 <= i < MAX_SESSIONS ==> Ok(w.sessions[i].auth, w.clock) && !w.sessions[i].auth.closing
  }

  lemma LaterOk(a: AuthMachine.State, clock: nat, now: nat)
    requires Ok(a, clock) && clock <= now
    ensures Ok(a, now)
  {
  }

  lemma DispatchOk(w: World, s: nat, q: Request, env: Env)
    requires Clocked(w) && s < MAX_SESSIONS && w.clock <= env.now < TWO_64
    ensures Ok(Dispatch(w, s, q, env).sessions[s].auth, env.now)
  {
    hide Ok, Reply, Offers, Attempt, Passes, DoSetFrequency, DoSetSampleRate, DoSetControl, DoGetControl,
      DoOpenStream, DoStartRx, DoStopRx, DoCloseStream;
    var a := w.sessions[s].auth;
    LaterOk(a, w.clock, env.now);
    if q.Authenticate? {
      if q.claim.Value? {
        AttemptKeeps(a, w.cfg.keys, q.claim.value, env.now, env.nonce, w.clock);
      }
    } else if q.Hello? {
      ChallengeOk(a, env.nonce, env.now);
    } else {
      AuthUntouched(w, s, q, env);
    }
  }

  lemma ChallengeOk(a: AuthMachine.State, fresh_: Option<Nonce>, now: nat)
    requires Ok(a, now)
    ensures Ok(Challenge(a, fresh_), now)
  {
  }

  lemma FreshOk(clock: nat)
    ensures Ok(FRESH, clock)
  {
  }

  lemma StepClocked(w: World, e: Step)
    requires Clocked(w) && Possible(w, e) && TimeFlows(w, e)
    ensures Clocked(Next(w, e))
  {
    hide Ok, Dispatch, Reply, Broadcast, Offers, FirstFree, VitaSender.Callback, VitaSender.Remove;
    var w' := Next(w, e);
    FreshOk(w'.clock);
    if e.Command? {
      DispatchOk(w, e.s, e.request, e.env);
    }
    forall i | 0 <= i < MAX_SESSIONS
      ensures Ok(w'.sessions[i].auth, w'.clock) && !w'.sessions[i].auth.closing
    {
      LaterOk(w.sessions[i].auth, w.clock, if e.Command? then e.env.now else w.clock);
    }
  }

  // ---- Runs ---------------------------------------------------------------------------

  lemma InitialAuth(w: World)
    requires Initial(w)
    ensures Gate(w) && SingleUse(w) && Clocked(w)
  {
    FreshOk(w.clock);
  }

  lemma {:induction false} AlwaysGate(ws: seq<World>, es: seq<Step>, n: nat)
    requires Trace(ws, es) && n < |ws|
    ensures Gate(ws[n])
  {
    hide Gate, Next, Possible, Initial;
    if n == 0 {
      InitialAuth(ws[0]);
    } else {
      AlwaysGate(ws, es, n - 1);
      assert Follows(ws[n - 1], es[n - 1], ws[n]);
      StepGate(ws[n - 1], es[n - 1]);
    }
  }

  /** No challenge is judged twice, on any connection, as long as the random source repeats none. */
  lemma {:induction false} AlwaysSingleUse(ws: seq<World>, es: seq<Step>, n: nat)
    requires Trace(ws, es) && n < |ws| && forall i :: 0 <= i < n ==> FreshNonce(ws[i], es[i])
    ensures SingleUse(ws[n])
  {
    hide SingleUse, FreshNonce, Next, Possible, Initial;
    if n == 0 {
      InitialAuth(ws[0]);
    } else {
      AlwaysSingleUse(ws, es, n - 1);
      assert Follows(ws[n - 1], es[n - 1], ws[n]);
      StepNonces(ws[n - 1], es[n - 1]);
    }
  }

  lemma {:induction false} AlwaysClocked(ws: seq<World>, es: seq<Step>, n: nat)
    requires Trace(ws, es) && n < |ws| && forall k :: 0 <= k < n ==> TimeFlows(ws[k], es[k])
    ensures Clocked(ws[n])
  {
    hide TimeFlows, Next, Possible, Initial, Clocked;
    if n == 0 {
      InitialAuth(ws[0]);
    } else {
      AlwaysClocked(ws, es, n - 1);
      assert Follows(ws[n - 1], es[n - 1], ws[n]);
      StepClocked(ws[n - 1], es[n - 1]);
    }
  }

  /** The record of a connection when its command has been handled, the failure that ends it
      included. */
  ghost function RecordAfter(w: World, e: Step): AuthMachine.State
    requires WellSized(w) && e.Command? && e.s < MAX_SESSIONS
  {
    Handle(w, e.s, e.request, e.env).sessions[e.s].auth
  }

  lemma HandleOk(w: World, s: nat, q: Request, env: Env)
    requires Clocked(w) && s < MAX_SESSIONS && w.clock <= env.now < TWO_64
    ensures Ok(Handle(w, s, q, env).sessions[s].auth, env.now)
  {
    hide Ok, Dispatch, Reply;
    DispatchOk(w, s, q, env);
    LaterOk(w.sessions[s].auth, w.clock, env.now);
  }

  /** On every connection of every run, any minute holds at most nineteen failed attempts, and the
      tenth failure of a window ends the connection: its record is free again. */
  lemma GuessesBounded(ws: seq<World>, es: seq<Step>, n: nat, t: nat)
    requires Trace(ws, es) && n < |es| && es[n].Command? && forall k :: 0 <= k <= n ==> TimeFlows(ws[k], es[k])
    ensures WellSized(ws[n]) && WellSized(ws[n + 1]) && es[n].s < MAX_SESSIONS
    ensures var a := RecordAfter(ws[n], es[n]);
            && a.spans != [] && Failures(a.spans, t) <= 19
            && a.failures == |a.spans[|a.spans| - 1].times| <= MAX_FAILURES
            && (a.failures == MAX_FAILURES <==> ws[n + 1].sessions[es[n].s] == FREE_SESSION)
            && (a.failures < MAX_FAILURES ==> ws[n + 1].sessions[es[n].s].auth == a)
  {
    hide Handle, DoDestroy, Initial, Failures, SpansOk, Clocked;
    AlwaysClocked(ws, es, n);
    assert Follows(ws[n], es[n], ws[n + 1]);
    assert TimeFlows(ws[n], es[n]);
    var e := es[n];
    HandleOk(ws[n], e.s, e.request, e.env);
    NineteenAMinute(RecordAfter(ws[n], e).spans, t);
  }

  // ---- Unlocking ----------------------------------------------------------------------

  /** Connection `i` answered its challenge with a right MAC. */
  ghost predicate AnswersAt(w: World, e: Step, i: nat)
    requires WellSized(w) && i < MAX_SESSIONS
  {
    e.Command? && e.s == i && Answers(w, i, e.request, e.env)
  }

  /** Unlocking takes a right answer, and is kept while the connection lasts. */
  lemma UnlockStep(w: World, e: Step, i: nat)
    requires Weak(w) && Possible(w, e) && i < MAX_SESSIONS
    ensures var t := Next(w, e).sessions[i];
            t.auth.unlocked ==> t.live && w.sessions[i].live && (w.sessions[i].auth.unlocked || AnswersAt(w, e, i))
    ensures var t := Next(w, e).sessions[i];
            w.sessions[i].live && w.sessions[i].auth.unlocked && t.live ==> t.auth.unlocked
  {
    hide Handle, Answers, DoDestroy, VitaSender.Callback, Held, FirstFree;
    assert SessionOk(w.sessions[i], i == w.owner);
    if e.Command? {
      HandleOne(w, e.s, e.request, e.env);
    }
  }

  /** A connection that is unlocked answered rightly at some earlier step and never left since. */
  lemma {:induction false} UnlockEarned(ws: seq<World>, es: seq<Step>, n: nat, i: nat) returns (m: nat)
    requires Trace(ws, es) && n < |ws| && i < MAX_SESSIONS && WellSized(ws[n]) && ws[n].sessions[i].auth.unlocked
    ensures m < n && WellSized(ws[m]) && AnswersAt(ws[m], es[m], i)
    ensures forall j :: m <= j <= n ==> WellSized(ws[j]) && ws[j].sessions[i].live
  {
    hide AnswersAt, Next, Possible, Weak;
    if n == 0 {
      assert false;
    } else {
      AlwaysWeak(ws, es, n - 1);
      assert Follows(ws[n - 1], es[n - 1], ws[n]);
      UnlockStep(ws[n - 1], es[n - 1], i);
      if ws[n - 1].sessions[i].auth.unlocked {
        m := UnlockEarned(ws, es, n - 1, i);
      } else {
        m := n - 1;
      }
    }
  }

  /** With authentication on, whoever has a stream proved that it holds a key, on this connection. */
  lemma StreamNeedsKey(ws: seq<World>, es: seq<Step>, n: nat, i: nat) returns (m: nat)
    requires Trace(ws, es) && n < |ws| && i < MAX_SESSIONS && WellSized(ws[n])
    requires ws[n].cfg.rxAuth && ws[n].sessions[i].streamOpen
    ensures m < n && WellSized(ws[m]) && AnswersAt(ws[m], es[m], i)
    ensures forall j :: m <= j <= n ==> WellSized(ws[j]) && ws[j].sessions[i].live
  {
    hide AnswersAt, Trace;
    AlwaysGate(ws, es, n);
    assert GateAt(ws[n], i);
    m := UnlockEarned(ws, es, n, i);
  }
}
