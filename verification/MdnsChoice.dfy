/** Which records a query is answered with, said of the records themselves: those whose owner and type
    it names, all of them when it browses for the service, and the address beside a service location. */
module MdnsChoice {
  import opened Bytes
  import opened MdnsCodec
  import opened MdnsResponse
  import opened MdnsBuilder
  import opened MdnsQuery
  import opened MdnsAdvert

  // ---- Names without case -------------------------------------------------------------

  predicate IsUpper(c: u8) { 65 <= c <= 90 }

  /** The same letter, perhaps one in upper and one in lower case, or the same byte. */
  lemma SameLetter(a: u8, b: u8)
    ensures Lower(a) == Lower(b) <==>
              a == b || (IsUpper(a) && b as int == a as int + 32) || (IsUpper(b) && a as int == b as int + 32)
  {
  }

  /** Two texts a name matches are equally long. */
  lemma SameLength(name: seq<u8>, a: seq<u8>, b: seq<u8>)
    requires SameName(name, a) && SameName(name, b)
    ensures |a| == |b|
  {
  }

  /** No name matches both the service and the instance, nor the instance and the host, nor the
      instance and the name that lists services. */
  lemma Apart(c: Config, name: seq<u8>)
    requires GoodConfig(c) && SameName(name, NameText(InstanceName(c)))
    ensures !SameName(name, NameText(ServiceName())) && !SameName(name, NameText(HostName(c)))
    ensures !SameName(name, META_NAME)
  {
    hide SameName, NameText, Spelled, InstanceName, HostName, ServiceName;
    var inst, svc, host := NameText(InstanceName(c)), NameText(ServiceName()), NameText(HostName(c));
    TextLengths(c);
    if SameName(name, svc) {
      SameLength(name, inst, svc);
    }
    if SameName(name, host) {
      SameLength(name, inst, host);
    }
    if SameName(name, META_NAME) {
      SameLength(name, inst, META_NAME);
      OverTcp(c);
      SameByte(name, inst, META_NAME, |inst| - 10 + 1);
    }
  }

  lemma TextLengths(c: Config)
    requires GoodConfig(c)
    ensures |NameText(ServiceName())| == 19 && |NameText(InstanceName(c))| == Chars(c) + 20
    ensures |NameText(HostName(c))| == Chars(c) + 6 && Chars(c) >= 0
  {
    assert Chars(c) >= 0;
    hide Spelled, NameBytes;
    NameLengths(c);
    NameBytesLength(ServiceName());
    NameBytesLength(InstanceName(c));
    NameBytesLength(HostName(c));
  }

  /** The instance is a service over TCP: behind the underscore before `tcp.local` stands a t. */
  lemma OverTcp(c: Config)
    requires GoodConfig(c)
    ensures var t := NameText(InstanceName(c)); |t| >= 10 && t[|t| - 9] == 116
  {
    hide Spelled, GoodConfig;
    TextLengths(c);
    SpelledJoined(c.instance, ServiceName());
    ServiceText();
  }

  lemma ServiceText()
    ensures |Spelled(ServiceName())| == 20 && Spelled(ServiceName())[10] == 116
  {
    var tail := [TCP, LOCAL];
    assert ServiceName()[1..] == tail && tail[1..] == [LOCAL] && [LOCAL][1..] == [];
    assert Spelled(tail) == TCP + [DOT] + Spelled([LOCAL]);
    assert Spelled(ServiceName()) == SDR_SLC + [DOT] + Spelled(tail);
  }

  lemma SameByte(name: seq<u8>, a: seq<u8>, b: seq<u8>, i: nat)
    requires SameName(name, a) && SameName(name, b) && i < |a| == |b|
    ensures Lower(a[i]) == Lower(b[i])
  {
    assert Lower(UpToNul(name)[i]) == Lower(a[i]);
  }

  // ---- Records and questions ----------------------------------------------------------

  /** The question names this record: its owner, and its type or any type. */
  predicate Names(r: Record, name: seq<u8>, qtype: nat) {
    SameName(name, r.name) && (qtype == r.rtype || qtype == TYPE_ANY)
  }

  /** The question browses: for instances of the service, or for services. */
  predicate Browses(name: seq<u8>, qtype: nat) {
    && (SameName(name, NameText(ServiceName())) || SameName(name, META_NAME))
    && (qtype == TYPE_PTR || qtype == TYPE_ANY)
  }

  /** The record is due: named, browsed for, or the address beside a service location that is named. */
  predicate Due(c: Config, ttl: nat, r: Record, name: seq<u8>, qtype: nat)
    requires GoodConfig(c)
  {
    Names(r, name, qtype) || Browses(name, qtype) || (r.rtype == TYPE_A && Names(SrvRecord(c, ttl), name, qtype))
  }

  lemma OwnerTexts(c: Config)
    requires Legible(c)
    ensures Join([], ServiceName()) == NameText(ServiceName())
    ensures Join([], InstanceName(c)) == NameText(InstanceName(c))
    ensures Join([], HostName(c)) == NameText(HostName(c))
  {
    hide Join, Spelled, InstanceName, HostName, ServiceName;
    JoinText(ServiceName());
    JoinText(InstanceName(c));
    JoinText(HostName(c));
  }

  /** By its type, a record is in the answer or not. */
  lemma InAnswer(c: Config, w: Which, ttl: nat, r: Record)
    requires GoodConfig(c) && r in Intended(c, ALL, ttl)
    ensures r in Intended(c, w, ttl) <==>
              || (w.ptr && r == PtrRecord(c, ttl)) || (w.srv && r == SrvRecord(c, ttl))
              || (w.txt && r == TxtRecord(c, ttl)) || (w.a && r == AddrRecord(c, ttl))
    ensures r == PtrRecord(c, ttl) || r == SrvRecord(c, ttl) || r == TxtRecord(c, ttl) || r == AddrRecord(c, ttl)
  {
    hide Join, InstanceName, HostName, ServiceName;
  }

  /** For every question and every record: the record is chosen if and only if it is due. */
  lemma ChosenIffDue(c: Config, ttl: nat, r: Record, name: seq<u8>, qtype: nat)
    requires Legible(c) && r in Intended(c, ALL, ttl)
    ensures r in Intended(c, Wanted(c, name, qtype), ttl) <==> Due(c, ttl, r, name, qtype)
  {
    hide Intended, SameName, Join, NameText, InstanceName, HostName, ServiceName, GoodConfig;
    InAnswer(c, Wanted(c, name, qtype), ttl, r);
    OwnerTexts(c);
    if SameName(name, NameText(InstanceName(c))) {
      Apart(c, name);
    }
  }

  /** Nothing is chosen for a name that is neither one of the three names nor the one that lists services. */
  lemma NothingForOthers(c: Config, name: seq<u8>, qtype: nat)
    requires GoodConfig(c) && !SameName(name, META_NAME) && !SameName(name, NameText(ServiceName()))
    requires !SameName(name, NameText(InstanceName(c))) && !SameName(name, NameText(HostName(c)))
    ensures Wanted(c, name, qtype) == NOTHING
  {
    hide SameName, NameText, InstanceName, HostName, ServiceName, GoodConfig;
  }

  // ---- Whole queries ------------------------------------------------------------------

  /** Some question of the query asks for the record. */
  ghost predicate DueIn(c: Config, ttl: nat, r: Record, qs: seq<Question>)
    requires GoodConfig(c)
  {
    exists i :: 0 <= i < |qs| && Due(c, ttl, r, Join([], qs[i].name), qs[i].qtype)
  }

  lemma UnionAnswers(c: Config, v: Which, w: Which, ttl: nat, r: Record)
    requires GoodConfig(c) && r in Intended(c, ALL, ttl)
    ensures r in Intended(c, Union(v, w), ttl) <==> r in Intended(c, v, ttl) || r in Intended(c, w, ttl)
  {
    hide Intended, PtrRecord, SrvRecord, TxtRecord, AddrRecord;
    InAnswer(c, v, ttl, r);
    InAnswer(c, w, ttl, r);
    InAnswer(c, Union(v, w), ttl, r);
  }

  lemma {:induction false} AllChosen(c: Config, ttl: nat, r: Record, qs: seq<Question>)
    requires Legible(c) && r in Intended(c, ALL, ttl)
    ensures r in Intended(c, WantedAll(c, qs), ttl) <==> DueIn(c, ttl, r, qs)
    decreases |qs|
  {
    hide Wanted, Due, Union, Join, GoodConfig, GoodName, Intended;
    if qs == [] {
      InAnswer(c, NOTHING, ttl, r);
    } else {
      var rest := qs[1..];
      AllChosen(c, ttl, r, rest);
      ChosenIffDue(c, ttl, r, Join([], qs[0].name), qs[0].qtype);
      UnionAnswers(c, Wanted(c, Join([], qs[0].name), qs[0].qtype), WantedAll(c, rest), ttl, r);
      assert forall i :: 0 <= i < |rest| ==> rest[i] == qs[i + 1];
      if i :| 0 <= i < |qs| && Due(c, ttl, r, Join([], qs[i].name), qs[i].qtype) {
        if i > 0 {
          assert rest[i - 1] == qs[i];
        }
      }
    }
  }

  /** From the bytes of a query to the bytes of the answer: reading the answer back gives, of all the
      daemon's records, exactly those some question asks for, in their order. */
  lemma QueryGetsDue(c: Config, b: seq<u8>, qs: seq<Question>, ttl: nat, r: Record)
    requires Legible(c) && ttl < 0x1_0000_0000 && r in Intended(c, ALL, ttl)
    requires IsQuery(b) && Get16(b, 4) == |qs| && Placed(b, 12, qs)
    ensures var w := Ask(c, b, 12, Get16(b, 4));
            var m := Response(c, w, ttl);
            && ReadRecords(m, 12, Count(w)) == RecordsAt(Intended(c, w, ttl), |m|)
            && (r in Intended(c, w, ttl) <==> DueIn(c, ttl, r, qs))
  {
    hide Ask, WantedAll, DueIn, Intended, Placed, Response, ReadRecords, GoodConfig, GoodName, Count, Get16;
    QueryAnswered(c, b, qs);
    AllChosen(c, ttl, r, qs);
    ResponseReadsBack(c, Ask(c, b, 12, Get16(b, 4)), ttl);
  }
}
