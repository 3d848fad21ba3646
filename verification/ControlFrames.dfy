/** From a frame's bytes to the request the control plane acts on: when reading it stays inside its
    tokens, how the authentication gate and the handlers each find what it addresses, and that they
    agree. */
module ControlFrames {
  import opened Basics
  import opened JsonText
  import opened Jsmn
  import opened JsmnCounts
  import opened ControlPlane
  import T = TokLookup

  // ---- When a lookup leaves the tokens ------------------------------------------------

  /** The lookup comes to a key it cannot pass. */
  ghost predicate Lost(js: string, toks: seq<Token>, obj: nat, key: string)
    requires T.AllInText(js, toks) && obj < |toks|
  {
    var first := obj + 1;
    exists k :: 0 <= k < toks[obj].size && T.Reached(js, toks, first, k, key) && !T.Fits(toks, first, k)
      && !T.Matches(js, toks, first, k, key)
  }

  /** The key is the last token of all: what the lookup answers is not there. */
  ghost predicate Dangles(js: string, toks: seq<Token>, obj: nat, key: string)
    requires T.AllInText(js, toks) && obj < |toks|
  {
    var first := obj + 1;
    exists k :: 0 <= k < toks[obj].size && T.Reached(js, toks, first, k, key) && !T.Fits(toks, first, k)
      && T.Matches(js, toks, first, k, key)
  }

  ghost predicate Nowhere(js: string, toks: seq<Token>, obj: nat, key: string)
    requires T.AllInText(js, toks) && obj < |toks|
  {
    var first := obj + 1;
    forall k :: 0 <= k < toks[obj].size ==> T.Fits(toks, first, k) && !T.Matches(js, toks, first, k, key)
  }

  function Find(js: string, toks: seq<Token>, obj: nat, key: string): T.Find
    requires T.AllInText(js, toks) && obj < |toks|
  {
    T.Walk(js, toks, obj + 1, toks[obj].size, key)
  }

  lemma FindKinds(js: string, toks: seq<Token>, obj: nat, key: string)
    requires Rooted(toks) && T.AllInText(js, toks) && obj < |toks|
    ensures var r := Find(js, toks, obj, key);
            && (r.PastEnd? <==> Lost(js, toks, obj, key))
            && (r.ValueAt? && r.at >= |toks| <==> Dangles(js, toks, obj, key))
            && (r.Absent? <==> Nowhere(js, toks, obj, key))
  {
    hide T.Walk, T.Fits, T.Matches;
    var first, m := obj + 1, toks[obj].size;
    T.NoneBefore(js, toks, first, key);
    var j := T.WalkEnds(js, toks, first, m, 0, key);
    assert forall k :: j < k && T.Matches(js, toks, first, j, key) ==> !T.Reached(js, toks, first, k, key);
    if j < m && !T.Fits(toks, first, j) {
      forall k | j < k
        ensures !T.Matches(js, toks, first, k, key)
      {
        NoneBeyond(toks, first, j, k);
        NoKeyThere(js, toks, first, k, key);
      }
    }
  }

  /** Behind a key that does not fit there is none. */
  lemma {:induction false} NoneBeyond(toks: seq<Token>, first: nat, j: nat, k: nat)
    requires Rooted(toks) && first <= |toks| && j < k && !T.Fits(toks, first, j)
    requires forall i :: 0 <= i < j ==> T.Fits(toks, first, i)
    ensures T.KeyAt(toks, first, k) == -1
    decreases k
  {
    hide SkipTo, Units, SizesFrom;
    if j < k - 1 {
      NoneBeyond(toks, first, j, k - 1);
    } else {
      T.SurplusIs(toks, first, j);
      T.EndUnits(toks);
      var p := T.KeyAt(toks, first, j);
      if p < |toks| {
        ChildrenThere(toks, p);
        SkipExact(toks, p + 1, 1);
      }
    }
  }

  lemma NoKeyThere(js: string, toks: seq<Token>, first: nat, k: nat, key: string)
    requires T.AllInText(js, toks) && T.KeyAt(toks, first, k) == -1
    ensures !T.Matches(js, toks, first, k, key)
  {
  }

  // ---- The envelope -------------------------------------------------------------------

  /** The type is there and is not "request". */
  ghost predicate OtherType(js: string, toks: seq<Token>)
    requires T.AllInText(js, toks) && toks != []
  {
    var t := Find(js, toks, 0, "type");
    t.ValueAt? && t.at < |toks| && !T.TokEq(js, toks[t.at], "request")
  }

  /** Two lookups in one object come to the same keys: if one's key is the last token, the other finds
      its own before or runs off. */
  lemma NotBoth(js: string, toks: seq<Token>, obj: nat, a: string, b: string)
    requires Rooted(toks) && T.AllInText(js, toks) && obj < |toks| && Dangles(js, toks, obj, a)
    ensures !Nowhere(js, toks, obj, b)
  {
    hide T.Fits, T.Matches, T.Reached;
  }

  ghost predicate Parsed(js: string, toks: seq<Token>) {
    var r := Run(js, T.MAX_JSON_TOKENS, START);
    r.Count? && r.n >= 1 && r.st.toks == toks && toks != [] && toks[0].kind == Object
  }

  lemma ParsedSound(js: string, toks: seq<Token>)
    requires Parsed(js, toks)
    ensures T.AllInText(js, toks) && Rooted(toks)
  {
    hide Run, Rooted;
    T.ParsedInText(js);
    ParseRooted(js, T.MAX_JSON_TOKENS);
  }

  /** Whatever the payload: the session thread reads a token behind the last if and only if one of its
      three lookups comes to a key it cannot pass, or the type, or for a request the id or the
      command, is a key that is the last token. */
  lemma EnvelopeOverrunsIff(js: string, toks: seq<Token>)
    requires Parsed(js, toks)
    ensures T.AllInText(js, toks)
    ensures T.EnvelopeRead(js) == T.Overrun <==>
              || Lost(js, toks, 0, "type") || Lost(js, toks, 0, "id") || Lost(js, toks, 0, "command")
              || Dangles(js, toks, 0, "type")
              || (!OtherType(js, toks) && (Dangles(js, toks, 0, "id") || Dangles(js, toks, 0, "command")))
  {
    hide Run, T.Walk, Lost, Dangles, Nowhere, Rooted;
    ParsedSound(js, toks);
    FindKinds(js, toks, 0, "type");
    FindKinds(js, toks, 0, "id");
    FindKinds(js, toks, 0, "command");
    if Dangles(js, toks, 0, "type") {
      NotBoth(js, toks, 0, "type", "id");
      NotBoth(js, toks, 0, "type", "command");
    } else if Dangles(js, toks, 0, "id") {
      NotBoth(js, toks, 0, "id", "type");
      NotBoth(js, toks, 0, "id", "command");
    } else if Dangles(js, toks, 0, "command") {
      NotBoth(js, toks, 0, "command", "type");
      NotBoth(js, toks, 0, "command", "id");
    }
  }

  // ---- What a command addresses -------------------------------------------------------

  /** A lookup below a value found by another; reading the value's size may already overrun. */
  function Below(js: string, toks: seq<Token>, p: nat, key: string): T.Find
    requires T.AllInText(js, toks)
  {
    if p < |toks| then Find(js, toks, p, key) else T.PastEnd
  }

  method FindBelow(js: string, toks: seq<Token>, p: nat, key: string) returns (r: T.Find)
    requires T.AllInText(js, toks) && Rooted(toks)
    ensures r == Below(js, toks, p, key)
  {
    if p >= |toks| {
      return T.PastEnd;
    }
    r := T.FindKey(js, toks, p, key);
  }

  const HANDLE_COMMANDS := {"start_rx", "stop_rx", "close_stream"}

  const SETTING_COMMANDS := {"set_frequency", "set_sample_rate", "set_control", "open_stream"}

  /** What the gate finds; `None` when it reads behind the tokens. */
  function Gate(cmd: string, js: string, toks: seq<Token>): Option<bool>
    requires T.AllInText(js, toks) && toks != []
  {
    if cmd in HANDLE_COMMANDS then Some(true)
    else if cmd !in SETTING_COMMANDS then Some(false)
    else
      var p := Find(js, toks, 0, "params");
      if p.PastEnd? then None
      else if p.Absent? then Some(false)
      else
        var f := Below(js, toks, p.at, "function");
        if f.PastEnd? || (f.ValueAt? && f.at >= |toks|) then None
        else Some(f.ValueAt? && T.TokEq(js, toks[f.at], "rx"))
  }

  /** What the handlers find: require_function, then channel_ok. */
  function AddressRead(js: string, toks: seq<Token>): Option<Address>
    requires T.AllInText(js, toks) && toks != []
  {
    var p := Find(js, toks, 0, "params");
    if p.PastEnd? then None
    else if p.Absent? then Some(NoParams)
    else
      var f := Below(js, toks, p.at, "function");
      if f.PastEnd? then None
      else if f.Absent? then if Below(js, toks, p.at, "direction").PastEnd? then None else Some(NoFunction)
      else if f.at >= |toks| then None
      else if !T.TokEq(js, toks[f.at], "rx") then Some(OtherFunction)
      else
        var c := Below(js, toks, p.at, "channel");
        if c.PastEnd? then None else Some(Rx(c.ValueAt?))
  }

  /** The gate lets a command past exactly when its handler finds that it does not address rx. */
  lemma GateAgrees(cmd: string, js: string, toks: seq<Token>)
    requires T.AllInText(js, toks) && toks != [] && cmd in SETTING_COMMANDS && AddressRead(js, toks).Some?
    ensures Gate(cmd, js, toks) == Some(AddressRead(js, toks).value.Rx?)
  {
    hide T.Walk;
  }

  /** cmd_addresses_rx. */
  method CmdAddressesRx(cmd: string, js: string, toks: seq<Token>) returns (r: Option<bool>)
    requires T.AllInText(js, toks) && Rooted(toks) && toks != []
    ensures r == Gate(cmd, js, toks)
    ensures cmd in HANDLE_COMMANDS ==> r == Some(true)
    ensures cmd in SETTING_COMMANDS && AddressRead(js, toks).Some? ==> r == Some(AddressRead(js, toks).value.Rx?)
    ensures cmd !in HANDLE_COMMANDS + SETTING_COMMANDS ==> r == Some(false)
  {
    hide T.Walk, Rooted, AddressRead;
    if cmd in SETTING_COMMANDS && AddressRead(js, toks).Some? {
      GateAgrees(cmd, js, toks);
    }
    if cmd == "start_rx" || cmd == "stop_rx" || cmd == "close_stream" {
      return Some(true);
    }
    if cmd != "set_frequency" && cmd != "set_sample_rate" && cmd != "set_control" && cmd != "open_stream" {
      return Some(false);
    }
    var p := T.FindKey(js, toks, 0, "params");
    if !p.ValueAt? {
      return if p.PastEnd? then None else Some(false);
    }
    var f := FindBelow(js, toks, p.at, "function");
    if f.Absent? {
      return Some(false);
    }
    if f.PastEnd? || f.at >= |toks| {
      return None;
    }
    return Some(T.TokEq(js, toks[f.at], "rx"));
  }

  method RequireFunction(js: string, toks: seq<Token>) returns (to: Option<Address>)
    requires T.AllInText(js, toks) && Rooted(toks) && toks != []
    ensures to == AddressRead(js, toks)
  {
    hide T.Walk, Rooted;
    var p := T.FindKey(js, toks, 0, "params");
    if !p.ValueAt? {
      return if p.PastEnd? then None else Some(NoParams);
    }
    var f := FindBelow(js, toks, p.at, "function");
    if f.PastEnd? {
      return None;
    }
    if f.Absent? {
      var d := FindBelow(js, toks, p.at, "direction");
      return if d.PastEnd? then None else Some(NoFunction);
    }
    if f.at >= |toks| {
      return None;
    }
    if !T.TokEq(js, toks[f.at], "rx") {
      return Some(OtherFunction);
    }
    var c := FindBelow(js, toks, p.at, "channel");
    return if c.PastEnd? then None else Some(Rx(c.ValueAt?));
  }

  predicate ReadsRx(js: string, toks: seq<Token>, p: nat)
    requires T.AllInText(js, toks) && p < |toks|
  {
    var f := Find(js, toks, p, "function");
    f.ValueAt? && f.at < |toks| && T.TokEq(js, toks[f.at], "rx")
  }

  /** Whatever the payload: the handlers read behind the tokens if and only if a lookup they come to
      does, in order. */
  lemma AddressOverrunsIff(js: string, toks: seq<Token>)
    requires Parsed(js, toks)
    ensures T.AllInText(js, toks)
    ensures var p := Find(js, toks, 0, "params");
            AddressRead(js, toks).None? <==>
              || Lost(js, toks, 0, "params") || Dangles(js, toks, 0, "params")
              || (&& p.ValueAt? && p.at < |toks|
                  && (|| Lost(js, toks, p.at, "function") || Dangles(js, toks, p.at, "function")
                      || (Nowhere(js, toks, p.at, "function") && Lost(js, toks, p.at, "direction"))
                      || (ReadsRx(js, toks, p.at) && Lost(js, toks, p.at, "channel"))))
  {
    hide Run, T.Walk, Lost, Dangles, Nowhere, Rooted;
    ParsedSound(js, toks);
    FindKinds(js, toks, 0, "params");
    var p := Find(js, toks, 0, "params");
    if p.ValueAt? && p.at < |toks| {
      FindKinds(js, toks, p.at, "function");
      FindKinds(js, toks, p.at, "direction");
      FindKinds(js, toks, p.at, "channel");
    }
  }

  // ---- On a well-formed frame ---------------------------------------------------------

  function Function(p: Json): Option<Json> {
    if p.Obj? then T.Lookup(p.members, "function") else None
  }

  /** What a command addresses, read off its tree. */
  function AddressOf(v: Json): Address
    requires v.Obj?
  {
    var p := T.Lookup(v.members, "params");
    if p.None? then NoParams
    else
      var f := Function(p.value);
      if f.None? then NoFunction
      else if T.SpanText(f.value) != "rx" then OtherFunction
      else Rx(p.value.Obj? && T.Lookup(p.value.members, "channel").Some?)
  }

  lemma FindOnTree(js: string, toks: seq<Token>, obj: nat, v: Json, key: string)
    requires T.Encoded(js, toks, obj, v) && T.AllInText(js, toks) && !v.Arr?
    ensures obj < |toks|
    ensures var r := Find(js, toks, obj, key);
            var want := if v.Obj? then T.Lookup(v.members, key) else None;
            if want.None? then r == T.Absent
            else r.ValueAt? && r.at < |toks| && T.Encoded(js, toks, r.at, want.value)
  {
    hide T.EncodedAt, T.Lookup;
    if v.Obj? {
      hide T.Walk;
      T.WalkFinds(js, toks, obj, key, v);
    } else {
      ScalarSize(js, toks, obj, v);
    }
  }

  lemma ScalarSize(js: string, toks: seq<Token>, i: nat, v: Json)
    requires T.Encoded(js, toks, i, v) && (v.Prim? || v.Str?)
    ensures i < |toks| && toks[i].size == 0
  {
    var off: nat :| T.EncodedAt(js, toks, i, v, off);
    T.FirstToken(toks, i, v, off);
  }

  /** On every well-formed frame whose params are no list, the handlers find what its tree says. */
  lemma AddressOnTree(js: string, toks: seq<Token>, v: Json)
    requires v.Obj? && T.Encoded(js, toks, 0, v) && T.AllInText(js, toks)
    requires T.Lookup(v.members, "params").Some? ==> !T.Lookup(v.members, "params").value.Arr?
    ensures toks != [] && AddressRead(js, toks) == Some(AddressOf(v))
  {
    hide T.EncodedAt, T.Lookup, T.Walk, Find, T.SpanText;
    FindOnTree(js, toks, 0, v, "params");
    var p := T.Lookup(v.members, "params");
    if p.Some? {
      var at := Find(js, toks, 0, "params").at;
      FindOnTree(js, toks, at, p.value, "function");
      FindOnTree(js, toks, at, p.value, "direction");
      FindOnTree(js, toks, at, p.value, "channel");
      var f := Function(p.value);
      if f.Some? {
        T.SpanOfFirst(js, toks, Find(js, toks, at, "function").at, f.value);
      }
    }
  }

  // ---- The request a frame means ------------------------------------------------------

  function NameOf(q: Request): string {
    match q
    case Hello(_) => "hello"
    case Authenticate(_) => "authenticate"
    case GetCapabilities => "get_capabilities"
    case Ping => "ping"
    case GetClockStatus => "get_clock_status"
    case GetStatus => "get_status"
    case GetControl(_, _) => "get_control"
    case SetFrequency(_, _) => "set_frequency"
    case SetSampleRate(_, _) => "set_sample_rate"
    case SetControl(_, _) => "set_control"
    case OpenStream(_, _) => "open_stream"
    case StartRx(_) => "start_rx"
    case StopRx(_) => "stop_rx"
    case CloseStream(_) => "close_stream"
    case _ => ""
  }

  /** The dispatch table. */
  const NAMES := HANDLE_COMMANDS + SETTING_COMMANDS
    + {"hello", "authenticate", "get_capabilities", "ping", "get_clock_status", "get_status", "get_control"}

  /** The command's handler begins with require_function. */
  predicate Addressed(q: Request) {
    q.GetControl? || q.SetFrequency? || q.SetSampleRate? || q.SetControl? || q.OpenStream?
  }

  /** The frame asks for `q`: its command, and what it addresses.  The other parameters of `q` are as
      its handler reads them. */
  ghost predicate Means(js: string, q: Request) {
    match T.EnvelopeRead(js)
    case Malformed => q.Garbage?
    case MissingField => q.Garbage?
    case NotRequest => q.NotARequest?
    case Overrun => false
    case Request(_, cmd) =>
      T.ParsedInText(js);
      var toks := Run(js, T.MAX_JSON_TOKENS, START).st.toks;
      if cmd in NAMES then NameOf(q) == cmd && (Addressed(q) ==> AddressRead(js, toks) == Some(q.to))
      else q.UnknownRequest?
  }

  /** A request by that name, its own parameters left out. */
  function Bare(cmd: string, to: Address): Request {
    if cmd in HANDLE_COMMANDS then
      if cmd == "start_rx" then StartRx(NoId) else if cmd == "stop_rx" then StopRx(NoId) else CloseStream(NoId)
    else if cmd in SETTING_COMMANDS then
      if cmd == "set_frequency" then SetFrequency(to, Missing)
      else if cmd == "set_sample_rate" then SetSampleRate(to, Missing)
      else if cmd == "set_control" then SetControl(to, NoSetting)
      else OpenStream(to, Missing)
    else if cmd == "hello" then Hello(Missing)
    else if cmd == "authenticate" then Authenticate(Missing)
    else if cmd == "get_capabilities" then GetCapabilities
    else if cmd == "ping" then Ping
    else if cmd == "get_clock_status" then GetClockStatus
    else if cmd == "get_status" then GetStatus
    else if cmd == "get_control" then GetControl(to, Missing)
    else UnknownRequest
  }

  lemma BareNamed(cmd: string, to: Address)
    ensures var q := Bare(cmd, to);
            && (if cmd in NAMES then NameOf(q) == cmd else q.UnknownRequest?)
            && (Addressed(q) ==> q.to == to)
  {
  }

  /** Every frame that is read inside its tokens asks for something. */
  lemma HasMeaning(js: string) returns (q: Request)
    requires T.EnvelopeRead(js) != T.Overrun
    requires T.EnvelopeRead(js).Request? ==>
               var toks := Run(js, T.MAX_JSON_TOKENS, START).st.toks;
               T.AllInText(js, toks) && toks != [] && AddressRead(js, toks).Some?
    ensures Means(js, q)
  {
    hide Run, AddressRead, T.EnvelopeRead, Bare, NameOf, NAMES, T.AllInText;
    match T.EnvelopeRead(js)
    case Malformed => q := Garbage;
    case MissingField => q := Garbage;
    case NotRequest => q := NotARequest;
    case Request(_, cmd) =>
      var to := AddressRead(js, Run(js, T.MAX_JSON_TOKENS, START).st.toks).value;
      q := Bare(cmd, to);
      BareNamed(cmd, to);
  }

  /** The hello-first rule and the gate, decided on the frame, are those of the request it means. */
  lemma GatesAgree(js: string, q: Request)
    requires Means(js, q) && T.EnvelopeRead(js).Request?
    ensures var cmd, toks := T.EnvelopeRead(js).command, Run(js, T.MAX_JSON_TOKENS, START).st.toks;
            && T.AllInText(js, toks) && toks != []
            && (cmd == "hello" <==> q.Hello?) && !q.Garbage? && !q.NotARequest?
            && Gate(cmd, js, toks) == Some(AddressesRx(q))
  {
    hide Run, T.Walk;
    T.ParsedInText(js);
    var cmd, toks := T.EnvelopeRead(js).command, Run(js, T.MAX_JSON_TOKENS, START).st.toks;
    if cmd in SETTING_COMMANDS {
      GateAgrees(cmd, js, toks);
    }
  }
}
