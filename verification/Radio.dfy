/** The tuner as rtl_bridge keeps it: the radio globals, the limits of each sampling mode, and the
    reference count that starts and stops the USB reader.  What librtlsdr answers is a parameter. */
module Radio {
  import opened Basics

  datatype Mode = Normal | DirectI | DirectQ

  datatype State = State(
    freq: nat, rate: nat, rateRequested: nat, gain: int, agc: bool,
    bias: bool, ppm: int, mode: Mode, streams: nat, running: bool)

  // ---- Limits and signal description by mode ------------------------------------------

  function FreqMin(m: Mode): nat { if m == Normal then 500000 else 100000 }

  function FreqMax(m: Mode): nat { if m == Normal then 1766000000 else 30000000 }

  function Rates(m: Mode): seq<nat> {
    if m == Normal then [250000, 1024000, 1536000, 1800000, 2048000, 2400000]
    else [250000, 512000, 1024000, 2048000]
  }

  function PreferredRate(m: Mode): (r: nat)
    ensures r in Rates(m)
  {
    if m == Normal then
      assert Rates(m)[4] == 2048000;
      2048000
    else
      assert Rates(m)[2] == 1024000;
      1024000
  }

  /** Payload Format word 0. */
  function Format(m: Mode): u32 { if m == Normal then 0x300001C7 else 0x100001C7 }

  predicate InBand(m: Mode, f: nat) { FreqMin(m) <= f <= FreqMax(m) }

  /** What get_capabilities publishes for the mode in force covers what is tuned and requested. */
  predicate WithinLimits(r: State) {
    InBand(r.mode, r.freq) && r.rateRequested in Rates(r.mode) && r.rate > 0
  }

  /** What rtl_bridge_init leaves: the preferred rate requested, nobody streaming. */
  predicate JustBooted(r: State) {
    r.rateRequested == PreferredRate(r.mode) && r.streams == 0 && !r.running
  }

  /** Initialisation is within the limits exactly when the tuner settled in band at some rate. */
  lemma BootedWithinIff(r: State)
    requires JustBooted(r)
    ensures WithinLimits(r) <==> InBand(r.mode, r.freq) && r.rate > 0
  {
    hide Rates, PreferredRate;
    var _ := PreferredRate(r.mode);
  }

  // ---- Setters: `applied` is what the hardware reports back ---------------------------

  function SetFrequency(r: State, applied: nat): State {
    if applied == 0 then r else r.(freq := applied)
  }

  function SetSampleRate(r: State, want: nat, applied: nat): State {
    r.(rate := if applied == 0 then r.rate else applied, rateRequested := want)
  }

  // ---- The stream reference count -----------------------------------------------------

  /** rtl_bridge_start: the first stream creates the reader thread. */
  function Start(r: State, threadOk: bool): State {
    if r.streams + 1 != 1 then r.(streams := r.streams + 1)
    else if threadOk then r.(streams := 1, running := true)
    else r.(streams := 0, running := false)
  }

  predicate Starts(r: State, threadOk: bool) { r.streams > 0 || threadOk }

  /** rtl_bridge_stop: the last stream joins it; the count never goes negative. */
  function Stop(r: State): State {
    var n := if r.streams == 0 then 0 else r.streams - 1;
    r.(streams := n, running := r.running && n != 0)
  }

  /** The reader runs exactly while somebody streams. */
  predicate Counted(r: State) { r.running <==> r.streams > 0 }

  /** A start that succeeded and the stop that follows it leave the radio as it was. */
  lemma StartStop(r: State, threadOk: bool)
    requires Counted(r)
    ensures Counted(Start(r, threadOk)) && Counted(Stop(r))
    ensures Starts(r, threadOk) ==> Stop(Start(r, threadOk)) == r
    ensures !Starts(r, threadOk) ==> Start(r, threadOk) == r
  {
  }

  class RtlBridge {
    var freq: nat
    var rate: nat
    var rateRequested: nat
    var gain: int
    var agc: bool
    var bias: bool
    var ppm: int
    var mode: Mode
    var streams: int
    var running: bool

    ghost predicate Valid() reads this { streams >= 0 }

    ghost function View(): State
      requires Valid()
      reads this
    {
      State(freq, rate, rateRequested, gain, agc, bias, ppm, mode, streams, running)
    }

    /** rtl_bridge_init, given what the hardware reports back. */
    constructor (m: Mode, rateApplied: nat, freqApplied: nat, gainApplied: int, agcOn: bool, biasOn: bool,
        ppmValue: int)
      ensures Valid()
      ensures View() == State(freqApplied, rateApplied, PreferredRate(m), gainApplied, agcOn, biasOn, ppmValue, m, 0,
              false)
      ensures JustBooted(View()) && (WithinLimits(View()) <==> InBand(m, freqApplied) && rateApplied > 0)
    {
      mode := m;
      rateRequested := PreferredRate(m);
      rate, freq, gain := rateApplied, freqApplied, gainApplied;
      agc, bias, ppm := agcOn, biasOn, ppmValue;
      streams, running := 0, false;
      new;
      BootedWithinIff(View());
    }

    method BridgeStart(threadOk: bool) returns (r: int)
      requires Valid()
      modifies this
      ensures Valid() && View() == Start(old(View()), threadOk)
      ensures r == 0 <==> Starts(old(View()), threadOk)
    {
      streams := streams + 1;
      if streams == 1 {
        running := true;
        if !threadOk {
          running := false;
          streams := streams - 1;
          return -1;
        }
      }
      return 0;
    }

    method BridgeStop()
      requires Valid()
      modifies this
      ensures Valid() && View() == Stop(old(View()))
    {
      streams := streams - 1;
      if streams < 0 {
        streams := 0;
      }
      if streams == 0 && running {
        running := false;
      }
    }

    method Tune(applied: nat)
      requires Valid()
      modifies this`freq
      ensures View() == SetFrequency(old(View()), applied)
    {
      if applied != 0 {
        freq := applied;
      }
    }

    method SetRate(want: nat, applied: nat)
      requires Valid()
      modifies this`rate, this`rateRequested
      ensures View() == SetSampleRate(old(View()), want, applied)
    {
      if applied != 0 {
        rate := applied;
      }
      rateRequested := want;
    }
  }
}
