/** The query side: reading names out of a received packet and choosing the records to answer with. */
module MdnsQuery {
  import opened Bytes
  import opened MdnsCodec
  import opened MdnsResponse

  /** dns_read_name.  A name that is still going after 64 rounds is returned as far as it got. */
  method DnsReadName(b: seq<u8>, start: nat, cap: nat) returns (r: NameRead)
    ensures r == ReadName(b, start, [], ROUNDS, -1, cap)
    ensures cap > 0 && r.NameAt? ==> |r.name| < cap
  {
    if cap > 0 {
      ReadNameFits(b, start, [], ROUNDS, -1, cap);
    }
    var p, out, back: int := start, [], -1;
    var guard := 0;
    while guard < ROUNDS
      invariant 0 <= guard <= ROUNDS && 0 <= p && (back < 0 || 0 <= back)
      invariant ReadName(b, p, out, ROUNDS - guard, back, cap) == ReadName(b, start, [], ROUNDS, -1, cap)
    {
      if p >= |b| {
        return BadName;
      }
      var l := b[p] as nat;
      p := p + 1;
      if l == 0 {
        return NameAt(out, if back < 0 then p else back);
      }
      if l >= 0xC0 {
        if p >= |b| {
          return BadName;
        }
        var target := (l - 0xC0) * 256 + b[p] as nat;
        p := p + 1;
        if back < 0 {
          back := p;
        }
        p := target;
      } else {
        if p + l > |b| {
          return BadName;
        }
        if |out| + l + 2 > cap {
          return BadName;
        }
        out := Dotted(out, b[p..p + l]);
        p := p + l;
      }
      guard := guard + 1;
    }
    return NameAt(out, if back < 0 then p else back);
  }

  // ---- Which records a question asks for ----------------------------------------------

  function Lower(c: u8): u8 {
    if 65 <= c <= 90 then c + 32 else c
  }

  /** The C string in a buffer: up to the first NUL. */
  function UpToNul(s: seq<u8>): seq<u8> {
    if s == [] || s[0] == 0 then [] else [s[0]] + UpToNul(s[1..])
  }

  /** strcasecmp(name, own) == 0. */
  predicate SameName(name: seq<u8>, own: seq<u8>) {
    var n := UpToNul(name);
    |n| == |own| && forall i :: 0 <= i < |n| ==> Lower(n[i]) == Lower(own[i])
  }

  const TYPE_ANY := 255

  /** _services._dns-sd._udp.local */
  const META_NAME: seq<u8> := [95, 115, 101, 114, 118, 105, 99, 101, 115, 46, 95, 100, 110, 115, 45, 115, 100,
                              46, 95, 117, 100, 112, 46, 108, 111, 99, 97, 108]

  function Union(a: Which, b: Which): Which {
    Which(a.ptr || b.ptr, a.srv || b.srv, a.txt || b.txt, a.a || b.a)
  }

  function Wanted(c: Config, name: seq<u8>, qtype: nat): Which
    requires GoodConfig(c)
  {
    var any := qtype == TYPE_ANY;
    if (SameName(name, NameText(ServiceName())) || SameName(name, META_NAME)) && (any || qtype == TYPE_PTR) then ALL
    else if SameName(name, NameText(InstanceName(c))) then
      Which(false, any || qtype == TYPE_SRV, any || qtype == TYPE_TXT, any || qtype == TYPE_SRV)
    else if SameName(name, NameText(HostName(c))) && (any || qtype == TYPE_A) then Which(false, false, false, true)
    else NOTHING
  }

  /** The loop over the questions, from `pos` with `k` left. */
  function Ask(c: Config, b: seq<u8>, pos: nat, k: nat): Which
    requires GoodConfig(c)
    decreases k
  {
    if k == 0 then NOTHING
    else
      var n := ReadName(b, pos, [], ROUNDS, -1, NAME_CAP);
      if n.BadName? || n.next + 4 > |b| then NOTHING
      else Union(Wanted(c, n.name, Get16(b, n.next)), Ask(c, b, n.next + 4, k - 1))
  }

  predicate IsQuery(b: seq<u8>) {
    |b| >= 12 && b[2] < 0x80
  }

  /** No answer is taken for a query, so two responders do not answer each other. */
  lemma AnswersUnasked(c: Config, w: Which, ttl: nat)
    requires GoodConfig(c) && ttl < 0x1_0000_0000
    ensures !IsQuery(Response(c, w, ttl))
  {
    hide Response, GoodConfig;
    HeaderKept(c, w, ttl);
  }

  /** records_for_query. */
  method RecordsForQuery(c: Config, b: seq<u8>) returns (which: Which)
    requires GoodConfig(c)
    ensures which == if IsQuery(b) then Ask(c, b, 12, Get16(b, 4)) else NOTHING
  {
    hide ReadName, SameName, NameText, GoodConfig, GoodName, InstanceName, HostName, ServiceName;
    which := NOTHING;
    if |b| < 12 || b[2] >= 0x80 {
      return;
    }
    var qd := b[4] as nat * 256 + b[5] as nat;
    if qd == 0 {
      return;
    }
    var svc, inst, host := NameText(ServiceName()), NameText(InstanceName(c)), NameText(HostName(c));
    var pos, q := 12, 0;
    while q < qd
      invariant 0 <= q <= qd && 0 <= pos
      invariant Union(which, Ask(c, b, pos, qd - q)) == Ask(c, b, 12, qd)
      decreases qd - q
    {
      var n := DnsReadName(b, pos, NAME_CAP);
      if n.BadName? {
        break;
      }
      pos := n.next;
      if pos + 4 > |b| {
        break;
      }
      var qtype := b[pos] as nat * 256 + b[pos + 1] as nat;
      pos := pos + 4;
      var any := qtype == TYPE_ANY;
      if SameName(n.name, svc) && (any || qtype == TYPE_PTR) {
        which := Union(which, ALL);
      } else if SameName(n.name, META_NAME) && (any || qtype == TYPE_PTR) {
        which := Union(which, ALL);
      } else if SameName(n.name, inst) {
        if any || qtype == TYPE_SRV {
          which := which.(srv := true, a := true);
        }
        if any || qtype == TYPE_TXT {
          which := which.(txt := true);
        }
      } else if SameName(n.name, host) && (any || qtype == TYPE_A) {
        which := which.(a := true);
      }
      q := q + 1;
    }
  }

  // ---- Well-formed queries ------------------------------------------------------------

  datatype Question = Question(name: seq<Label>, qtype: nat, qclass: nat)

  /** The questions stand one after the other from `p` on, each name in full or with pointers, within
      the reader's buffer and round limit. */
  predicate Placed(b: seq<u8>, p: nat, qs: seq<Question>)
    decreases |qs|
  {
    qs == [] ||
    (&& Spells(b, p, qs[0].name, ROUNDS) && |Join([], qs[0].name)| + 2 <= NAME_CAP
     && var t := EndOf(b, p, qs[0].name, ROUNDS);
        t + 4 <= |b| && Get16(b, t) == qs[0].qtype && Get16(b, t + 2) == qs[0].qclass && Placed(b, t + 4, qs[1..]))
  }

  function WantedAll(c: Config, qs: seq<Question>): Which
    requires GoodConfig(c)
  {
    if qs == [] then NOTHING else Union(Wanted(c, Join([], qs[0].name), qs[0].qtype), WantedAll(c, qs[1..]))
  }

  lemma {:induction false} AskReads(c: Config, b: seq<u8>, p: nat, qs: seq<Question>)
    requires GoodConfig(c) && Placed(b, p, qs)
    ensures Ask(c, b, p, |qs|) == WantedAll(c, qs)
    decreases |qs|
  {
    hide ReadName, Spells, EndOf, Join, Get16, Wanted;
    if qs != [] {
      ReadSpelled(b, p, qs[0].name, [], ROUNDS, -1, NAME_CAP);
      AskReads(c, b, EndOf(b, p, qs[0].name, ROUNDS) + 4, qs[1..]);
    }
  }

  /** For every query, whatever follows its questions and however their names are compressed: the
      records chosen are exactly the union of what each question asks for. */
  lemma QueryAnswered(c: Config, b: seq<u8>, qs: seq<Question>)
    requires GoodConfig(c) && IsQuery(b) && Get16(b, 4) == |qs| && Placed(b, 12, qs)
    ensures Ask(c, b, 12, Get16(b, 4)) == WantedAll(c, qs)
  {
    AskReads(c, b, 12, qs);
  }

  // ---- Queries as bytes ---------------------------------------------------------------

  /** A name the reader's buffer and round limit can take. */
  predicate GoodQuestion(q: Question) {
    && GoodName(q.name) && |q.name| < ROUNDS && |Join([], q.name)| + 2 <= NAME_CAP
    && q.qtype < 0x10000 && q.qclass < 0x10000
  }

  function QuestionBytes(q: Question): seq<u8>
    requires GoodQuestion(q)
  {
    NameBytes(q.name) + (Be16(q.qtype) + Be16(q.qclass))
  }

  function QuestionsBytes(qs: seq<Question>): seq<u8>
    requires forall i :: 0 <= i < |qs| ==> GoodQuestion(qs[i])
  {
    if qs == [] then [] else QuestionBytes(qs[0]) + QuestionsBytes(qs[1..])
  }

  /** Names in full, one question after the other. */
  lemma {:induction false} FullPlaced(b: seq<u8>, p: nat, qs: seq<Question>)
    requires (forall i :: 0 <= i < |qs| ==> GoodQuestion(qs[i])) && At(b, p, QuestionsBytes(qs))
    ensures Placed(b, p, qs)
    decreases |qs|
  {
    hide At, Spells, EndOf, NameBytes, Join, Be16, Get16;
    if qs != [] {
      var q := qs[0];
      AtSplit(b, p, QuestionBytes(q), QuestionsBytes(qs[1..]));
      AtSplit(b, p, NameBytes(q.name), Be16(q.qtype) + Be16(q.qclass));
      var t := p + |NameBytes(q.name)|;
      AtSplit(b, t, Be16(q.qtype), Be16(q.qclass));
      AtLength(b, t + 2, Be16(q.qclass));
      FullSpells(b, p, q.name, ROUNDS);
      Get16At(b, t, q.qtype);
      Get16At(b, t + 2, q.qclass);
      FullPlaced(b, t + 4, qs[1..]);
    }
  }

  /** A second question whose name is a pointer to any place where its labels stand. */
  lemma PointedPlaced(b: seq<u8>, p: nat, q: Question, at: nat)
    requires GoodQuestion(q) && at < 0x4000 && |q.name| + 1 < ROUNDS && At(b, at, NameBytes(q.name))
    requires At(b, p, PointerBytes(at) + (Be16(q.qtype) + Be16(q.qclass)))
    ensures Placed(b, p, [q])
  {
    hide At, Spells, EndOf, NameBytes, Join, Be16, Get16;
    AtSplit(b, p, PointerBytes(at), Be16(q.qtype) + Be16(q.qclass));
    AtSplit(b, p + 2, Be16(q.qtype), Be16(q.qclass));
    AtLength(b, p + 4, Be16(q.qclass));
    FullSpells(b, at, q.name, ROUNDS - 1);
    PointerSpells(b, p, at, q.name, ROUNDS - 1);
    Get16At(b, p + 2, q.qtype);
    Get16At(b, p + 4, q.qclass);
    assert Placed(b, p + 6, []);
  }
}
