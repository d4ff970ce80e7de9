/**
 Whole runs: what holds of a packet after any sequence of pushes, some of which may have failed.
 */
module DnsRuns {
  import opened Wrappers
  import opened Bytes
  import opened DnsWalk
  import opened DnsRead
  import opened DnsCompress
  import opened DnsCompressSound
  import opened DnsDict
  import opened DnsSections
  import opened DnsRecords
  import opened DnsPush
  import opened DnsPacket
  import opened DnsLimits
  import opened DnsParse
  import opened DnsRoundTrip

  // ---------------------------------------------------------------- one record

  lemma Modulo(ttl: nat, q: nat, r: nat)
    requires ttl == q * 0x80000000 + r && r < 0x80000000
    ensures ttl % 0x80000000 == r
  {
  }

  /** The four octets make up the number without its top bit. */
  lemma TtlSum(ttl: nat)
    ensures (ttl / 0x1000000) % 128 * 0x1000000 + (ttl / 0x10000) % 256 * 0x10000 + (ttl / 0x100) % 256 * 0x100
            + ttl % 256
            == ttl % 0x80000000
  {
    var a, b, c := ttl / 0x100, ttl / 0x10000, ttl / 0x1000000;
    assert a == 0x100 * b + a % 0x100;
    assert b == 0x100 * c + b % 0x100;
    assert c == 128 * (c / 128) + c % 128;
    Modulo(ttl, c / 128, c % 128 * 0x1000000 + b % 256 * 0x10000 + a % 256 * 0x100 + ttl % 256);
  }

  lemma TtlRead(d: seq<byte>, p: nat, ttl: nat)
    requires p + 4 <= |d| && d[p..p + 4] == Ttl(ttl)
    ensures (d[p] as int % 128) * 0x1000000 + d[p + 1] as int * 0x10000 + d[p + 2] as int * 0x100 + d[p + 3]
            == ttl % 0x80000000
  {
    var s := d[p..p + 4];
    assert d[p] == s[0] && d[p + 1] == s[1] && d[p + 2] == s[2] && d[p + 3] == s[3];
    TtlSum(ttl);
  }

  lemma FixedRead(d: seq<byte>, p: nat, typ: nat, cls: nat)
    requires p + 4 <= |d| && d[p..p + 4] == Fixed(typ, cls) && typ < 65536 && cls < 65536
    ensures Read16(d, p) == typ && Read16(d, p + 2) == cls
  {
    var s := d[p..p + 4];
    assert d[p] == s[0] && d[p + 1] == s[1] && d[p + 2] == s[2] && d[p + 3] == s[3];
  }

  /** What parsing the record at `rr` must give for the record `e`. */
  predicate HeadParsed(rr: Rr, at: nat, end: nat, e: Entry) {
    rr.dnp == at && rr.typ == e.typ && rr.cls == e.cls && rr.question == (e.section == QD)
    && (e.section != QD ==> rr.ttl == e.ttl % 0x80000000 && rr.rdp + rr.rdlen == end)
  }

  /** Where questions end and what a record's extent is, as `dns_rr_parse` sees them. */
  lemma Extent(d: seq<byte>, offs: seq<nat>, i: nat)
    requires HEADER <= |d| && Records(d, offs, Count(d, 0)) && i < |offs| - 1
    ensures RecordAt(d, i < Count(d, 0), offs[i], offs[i + 1]) && (offs[i] < QEnd(d) <==> i < Count(d, 0))
  {
    var q := Count(d, 0);
    QuestionsEnd(d, offs, q, 0);
    if i < q {
      OffsetsRise(d, offs, q, i + 1, q);
    } else {
      OffsetsRise(d, offs, q, q, i);
    }
  }

  lemma FieldsParse(d: seq<byte>, o: nat, o': nat, e: Entry)
    requires HEADER <= |d| && RecordAt(d, e.section == QD, o, o') && (o < QEnd(d) <==> e.section == QD)
    requires e.typ < 65536 && e.cls < 65536
    requires var s := Skip(d, o); d[s..s + 4] == Fixed(e.typ, e.cls)
                                  && (e.section != QD ==> d[s + 4..s + 8] == Ttl(e.ttl))
    ensures RrParse(d, o).Some? && HeadParsed(RrParse(d, o).value, o, o', e)
    ensures e.section != QD ==> RrParse(d, o).value.rdp == Skip(d, o) + 10
  {
    var s := Skip(d, o);
    FixedRead(d, s, e.typ, e.cls);
    if e.section != QD {
      TtlRead(d, s + 4, e.ttl);
    }
  }

  /** A record that stands there is parsed: type, class, time to live modulo 2^31, and the place of its data. */
  lemma {:induction false} HeadParses(d: seq<byte>, offs: seq<nat>, cap: nat, i: nat, e: Entry)
    requires HEADER <= |d| && Records(d, offs, Count(d, 0)) && i < |offs| - 1 && (e.section == QD <==> i < Count(d, 0))
    requires CleanEntry(e) && EntryAt(d, cap, offs[i], offs[i + 1], e)
    ensures RrParse(d, offs[i]).Some? && HeadParsed(RrParse(d, offs[i]).value, offs[i], offs[i + 1], e)
    ensures e.section != QD ==> RrParse(d, offs[i]).value.rdp == Skip(d, offs[i]) + 10
  {
    Extent(d, offs, i);
    FieldsParse(d, offs[i], offs[i + 1], e);
  }

  /** Owner name and data of a record that stands there are parsed, too. */
  lemma {:induction false} EntryParses(d: seq<byte>, offs: seq<nat>, cap: nat, i: nat, e: Entry, room: Room)
    requires HEADER <= |d| && Records(d, offs, Count(d, 0)) && i < |offs| - 1 && (e.section == QD <==> i < Count(d, 0))
    requires CleanEntry(e) && EntryAt(d, cap, offs[i], offs[i + 1], e) && cap <= MAX_POINTERS
    ensures RrParse(d, offs[i]).Some?
    ensures var rr := RrParse(d, offs[i]).value;
            HeadParsed(rr, offs[i], offs[i + 1], e) && HostParsed(HostText(d, rr.dnp), e.name)
            && (e.section != QD ==> rr.rdp + rr.rdlen <= |d| && Parsed(e.rd, ParseData(d, rr, room), room))
  {
    HeadParses(d, offs, cap, i, e);
    HostReads(d, cap, offs[i], e.name);
    var rr := RrParse(d, offs[i]).value;
    if e.section != QD {
      if NameIn(e.rd).None? {
        FlatParses(d, cap, rr, e.rd, room);
      } else {
        NamedParses(d, cap, rr, e.rd, room);
      }
    }
  }

  // ---------------------------------------------------------------- runs

  /** A packet, the records it took, and their offsets. */
  datatype Run = Run(s: State, log: seq<Entry>, offs: seq<nat>)

  /** No name in the dictionary needs more than `cap` pointers in a row. */
  predicate Shallow(d: seq<byte>, dict: seq<nat>, cap: nat) {
    12 <= |d| && forall i :: 0 <= i < |Used(dict)| ==> dict[i] == |d| || ReadsOk(View(d, 12, cap), dict[i])
  }

  /**
   Clean names, room for two more pointers in a row, and no record with a name in its data pushed
   out of order: such a push leaves the dictionary with an entry that nothing stands behind.
   */
  predicate Tame(s: State, e: Entry) {
    CleanEntry(e) && Shallow(s.d, s.dict, MAX_POINTERS - 2)
    && (Verdict(s.d, e.section) == Done || e.section == QD || NameOffset(e.rd).None?)
  }

  function Next(r: Run, size: nat, e: Entry): Run
    requires HEADER <= |r.s.d|
  {
    var (outcome, s') := Push(r.s, size, e);
    if outcome == Done then Run(s', r.log + [e], r.offs + [|s'.d|]) else r.(s := s')
  }

  predicate Sections(d: seq<byte>, log: seq<Entry>)
    requires HEADER <= |d|
  {
    forall i :: 0 <= i < |log| ==> SectionOfIndex(i, Count(d, 0), Count(d, 1), Count(d, 2), Count(d, 3))
                                   == log[i].section
  }

  predicate Stand(d: seq<byte>, log: seq<Entry>, offs: seq<nat>) {
    |offs| == |log| + 1
    && forall i :: 0 <= i < |log| ==> CleanEntry(log[i]) && EntryAt(d, MAX_POINTERS, offs[i], offs[i + 1], log[i])
  }

  /** Everything that was taken stands, in its section. */
  predicate Good(r: Run) {
    Laid(r.s, r.offs) && CleanDict(r.s.d, r.s.dict, MAX_POINTERS)
    && Stand(r.s.d, r.log, r.offs) && Sections(r.s.d, r.log)
  }

  lemma CleanIfShallow(d: seq<byte>, dict: seq<nat>, cap: nat)
    requires CleanDict(d, dict, MAX_POINTERS) && Shallow(d, dict, cap) && cap <= MAX_POINTERS
    ensures CleanDict(d, dict, cap)
  {
    forall i | 0 <= i < |Used(dict)| && dict[i] != |d| ensures Clean(LabelsAt(View(d, 12, cap), dict[i])) {
      WalkExtends(Packet(d), View(d, 12, cap), dict[i], |d|, 0);
    }
  }

  lemma StandGrow(d: seq<byte>, log: seq<Entry>, offs: seq<nat>, d': seq<byte>)
    requires Stand(d, log, offs) && SameBody(d', d)
    ensures Stand(d', log, offs)
  {
    forall i | 0 <= i < |log| ensures EntryAt(d', MAX_POINTERS, offs[i], offs[i + 1], log[i]) {
      EntryGrow(d, MAX_POINTERS, d', MAX_POINTERS, offs[i], offs[i + 1], log[i]);
    }
  }

  lemma StandAppend(d: seq<byte>, log: seq<Entry>, offs: seq<nat>, e: Entry, o': nat)
    requires Stand(d, log, offs) && CleanEntry(e) && EntryAt(d, MAX_POINTERS, offs[|offs| - 1], o', e)
    ensures Stand(d, log + [e], offs + [o'])
  {
  }

  /** The index of a new record is behind those of its section and before those of none. */
  lemma SectionsAppend(d: seq<byte>, log: seq<Entry>, d': seq<byte>, e: Entry)
    requires HEADER <= |d| && HEADER <= |d'| && Sections(d, log) && Verdict(d, e.section) == Done && |log| == Total(d)
    requires forall j :: 0 <= j < 4 ==> Count(d', j) == Count(d, j) + (if j == Index(e.section) then 1 else 0)
    ensures Sections(d', log + [e])
  {
    TotalIs(d);
    NoLater(d, Index(e.section));
  }

  /** A push that was refused, or found no room, leaves everything standing. */
  lemma {:induction false} RefusedKeeps(r: Run, size: nat, e: Entry)
    requires Good(r) && Tame(r.s, e) && size <= 65535 && Push(r.s, size, e).0 != Done
    ensures Good(Next(r, size, e)) && Next(r, size, e).s.(dict := r.s.dict) == r.s
  {
    var s' := Push(r.s, size, e).1;
    var b := Body(r.s.d, r.s.dict);
    RefusedDict(r.s, size, e);
    var n := PushName(b, size, e.name);
    if n.Some? {
      RollbackKeepsSound(b.d, b.dict, n.value.d);
      UsedAfter(n.value.d, b.dict, |b.d|);
      forall i | 0 <= i < |Used(s'.dict)| && s'.dict[i] != |b.d|
        ensures ReadsOk(Packet(b.d), s'.dict[i]) && Clean(LabelsAt(Packet(b.d), s'.dict[i]))
      {
        assert s'.dict[i] == b.dict[i];
      }
    }
  }

  /** What a failed push leaves in the dictionary is its owner name at most. */
  lemma {:induction false} RefusedDict(s: State, size: nat, e: Entry)
    requires SoundBody(Body(s.d, s.dict)) && size <= 65535 && Tame(s, e) && Push(s, size, e).0 != Done
    ensures Push(s, size, e).1 == s.(dict := DictAfterOwner(Body(s.d, s.dict), size, e.name))
  {
    RefusedWhen(s, size, e);
    var w := Written(s, size, e);
    if w.Some? {
      var n := PushName(Body(s.d, s.dict), size, e.name).value;
      WrittenParts(s, size, e, n, w.value);
      if e.section != QD {
        DataDict(Headed(n, e), size, e.rd, w.value);
      }
    }
  }

  /** A record that was taken stands behind the others, in its section. */
  lemma {:induction false} TakenKeeps(r: Run, size: nat, e: Entry)
    requires Good(r) && Tame(r.s, e) && size <= 65535 && Push(r.s, size, e).0 == Done
    ensures Good(Next(r, size, e)) && |r.s.d| < |Next(r, size, e).s.d| <= size
  {
    var s, s' := r.s, Push(r.s, size, e).1;
    PushKeepsLaid(s, size, e, r.offs, s');
    CleanIfShallow(s.d, s.dict, MAX_POINTERS - 2);
    var b := Written(s, size, e).value;
    TakenReads(s, size, e, MAX_POINTERS - 2, r.offs, b, s');
    StandGrow(s.d, r.log, r.offs, s'.d);
    StandAppend(s'.d, r.log, r.offs, e, |s'.d|);
    TakenVerdict(s, size, e);
    SectionsAppend(s.d, r.log, s'.d, e);
  }

  lemma TakenVerdict(s: State, size: nat, e: Entry)
    requires SoundBody(Body(s.d, s.dict)) && Writable(e) && size <= 65535 && Push(s, size, e).0 == Done
    ensures Verdict(s.d, e.section) == Done
  {
    PushRecordSound(Body(s.d, s.dict), size, e.section == QD, e.name, e.typ, e.cls, e.ttl, e.rd);
    SameVerdict(s.d, Written(s, size, e).value.d, e.section);
  }

  /** The record just taken stands as it was given, and the dictionary stays clean. */
  lemma TakenReads(s: State, size: nat, e: Entry, cap: nat, offs: seq<nat>, b: Body, s': State)
    requires Laid(s, offs) && CleanDict(s.d, s.dict, cap) && cap + 2 <= MAX_POINTERS && CleanEntry(e) && size <= 65535
    requires Written(s, size, e) == Some(b) && Push(s, size, e) == (Done, s')
    ensures EntryAt(s'.d, cap + 2, |s.d|, |s'.d|, e) && CleanDict(s'.d, s'.dict, cap + 2)
  {
    PushRecordSound(Body(s.d, s.dict), size, e.section == QD, e.name, e.typ, e.cls, e.ttl, e.rd);
    RecordReads(Body(s.d, s.dict), size, e, cap, b);
    CountBound(s, offs, b, Index(e.section));
    CountsUp(b.d, Index(e.section), s'.d);
    EntryGrow(b.d, cap + 2, s'.d, cap + 2, |s.d|, |b.d|, e);
    GrowKeepsClean(b.d, b.dict, cap + 2, s'.d);
  }

  lemma CountBound(s: State, offs: seq<nat>, b: Body, i: nat)
    requires Laid(s, offs) && s.d <= b.d && |b.d| <= 65535 && i < 4
    ensures Count(b.d, i) < 65535
  {
    KeepsHeader(s.d, b.d);
    TotalIs(s.d);
    TotalBound(s.d, offs);
  }

  /** The packet of `size` octets that `dns_p_init` and then pushing `es` leave. */
  function After(size: nat, es: seq<Entry>): (r: Run)
    ensures HEADER <= |r.s.d|
  {
    if es == [] then Run(EMPTY, [], [HEADER]) else Next(After(size, es[..|es| - 1]), size, es[|es| - 1])
  }

  predicate TameRun(size: nat, es: seq<Entry>) {
    es == [] || (TameRun(size, es[..|es| - 1]) && Tame(After(size, es[..|es| - 1]).s, es[|es| - 1]))
  }

  lemma NextIsGood(r: Run, size: nat, e: Entry)
    requires Good(r) && Tame(r.s, e) && size <= 65535 && |r.s.d| <= size
    ensures Good(Next(r, size, e)) && |Next(r, size, e).s.d| <= size
  {
    if Push(r.s, size, e).0 == Done {
      TakenKeeps(r, size, e);
    } else {
      RefusedKeeps(r, size, e);
    }
  }

  lemma EmptyIsGood()
    ensures Good(Run(EMPTY, [], [HEADER]))
  {
    EmptyIsLaid();
    assert Used(EMPTY.dict) == [];
  }

  /**
   Whatever was pushed, and whether or not it was taken: every record taken so far stands as it was
   given, in its section; names in the dictionary are well-ended; the memo is absent or fresh.
   */
  lemma {:induction false} RunsAreGood(size: nat, es: seq<Entry>)
    requires HEADER <= size <= 65535 && TameRun(size, es)
    ensures Good(After(size, es)) && |After(size, es).s.d| <= size
  {
    if es == [] {
      EmptyIsGood();
    } else {
      RunsAreGood(size, es[..|es| - 1]);
      NextIsGood(After(size, es[..|es| - 1]), size, es[|es| - 1]);
    }
  }

  /** A record is a question exactly when it comes before as many records as the header counts questions. */
  lemma QuestionsFirst(r: Run, i: nat)
    requires Good(r) && i < |r.log|
    ensures r.log[i].section == QD <==> i < Count(r.s.d, 0)
  {
  }

  /**
   After any run, every record that was taken is parsed as it was given: head, owner name and data,
   names up to case and with their final dot.
   */
  lemma {:induction false} RunRoundTrip(size: nat, es: seq<Entry>, i: nat, room: Room)
    requires HEADER <= size <= 65535 && TameRun(size, es) && i < |After(size, es).log|
    ensures var r := After(size, es);
            var d, e := r.s.d, r.log[i];
            |r.offs| == |r.log| + 1 && RrParse(d, r.offs[i]).Some?
            && var rr := RrParse(d, r.offs[i]).value;
               HeadParsed(rr, r.offs[i], r.offs[i + 1], e) && HostParsed(HostText(d, rr.dnp), e.name)
               && (e.section != QD ==> rr.rdp + rr.rdlen <= |d| && Parsed(e.rd, ParseData(d, rr, room), room))
  {
    RunsAreGood(size, es);
    var r := After(size, es);
    QuestionsFirst(r, i);
    EntryParses(r.s.d, r.offs, MAX_POINTERS, i, r.log[i], room);
  }

  lemma UnstudiedRecount(d: seq<byte>, src: nat)
    requires HEADER <= |d|
    ensures Section(d, UNSTUDIED, src) == Recount(d, src)
  {
  }

  /** After any run, `dns_rr_section` finds every record in the section it was pushed to, studied or not. */
  lemma {:induction false} RunSections(size: nat, es: seq<Entry>, i: nat)
    requires HEADER <= size <= 65535 && TameRun(size, es) && i < |After(size, es).log|
    ensures var r := After(size, es);
            i < |r.offs| && Section(r.s.d, r.s.memos, r.offs[i]) == r.log[i].section
              == Section(r.s.d, Study(r.s.d), r.offs[i])
  {
    RunsAreGood(size, es);
    var r := After(size, es);
    LayoutBoundaries(r.s.d, r.offs, Count(r.s.d, 0), i);
    OffsetsRise(r.s.d, r.offs, Count(r.s.d, 0), i, |r.offs| - 1);
    MemoAgreesWithRecount(r.s.d, i);
    UnstudiedRecount(r.s.d, r.offs[i]);
  }
}
