/**
 Whole messages, field by field: the bytes of a message, what it comes back as, and so exactly which messages come back
 as they are.
 */
module MsgExact {
  import opened EfcpTypes
  import opened PciAccess
  import opened MsgCodec
  import opened MsgCombine
  import opened MsgConfigs
  import opened MsgReports
  import opened MsgDifs
  import opened IratiMsg
  import opened MsgWire
  import opened MsgFields
  import opened MsgDifFields

  // ---------------------------------------------------------------- many pointers

  function PtrsOut<T>(out: (T, seq<Octet>) -> seq<Octet>, xs: seq<Option<T>>, k: seq<Octet>): seq<Octet> {
    if xs == [] then k else PtrOut(out, xs[0], PtrsOut(out, xs[1..], k))
  }

  function PtrsBack<T>(back: T -> T, xs: seq<Option<T>>): (ys: seq<Option<T>>)
    ensures |ys| == |xs| && forall i :: 0 <= i < |xs| ==> ys[i] == PtrBack(back, xs[i])
  {
    if xs == [] then [] else [PtrBack(back, xs[0])] + PtrsBack(back, xs[1..])
  }

  function PtrsW<T>(w: Wire<T>): Wire<seq<Option<T>>> {
    Wire((xs: seq<Option<T>>, k: seq<Octet>) => PtrsOut(w.out, xs, k), (xs: seq<Option<T>>) => PtrsBack(w.back, xs))
  }

  lemma {:induction false} PtrsAre<T(!new)>(w: Wire<T>, xs: seq<Option<T>>, k: seq<Octet>)
    ensures AllBytes(PtrW(w).out, xs, k) == PtrsOut(w.out, xs, k) && Seen(PtrW(w).back, xs) == PtrsBack(w.back, xs)
  {
    if xs != [] {
      PtrsAre(w, xs[1..], k);
    }
  }

  lemma PtrsAs<T(!new)>(c: Codec<T>, w: Wire<T>, n: nat)
    requires As(c, w)
    ensures As(Pointers(c, n), PtrsW(w))
  {
    PtrAs(c, w);
    ManyAs(Ptr(c), PtrW(w), n);
    forall xs, k ensures ManyW(PtrW(w)).out(xs, k) == PtrsW(w).out(xs, k) { PtrsAre(w, xs, k); }
    forall xs ensures ManyW(PtrW(w)).back(xs) == PtrsW(w).back(xs) { PtrsAre(w, xs, []); }
  }

  // ---------------------------------------------------------------- messages

  function HeadOut(h: Head, k: seq<Octet>): seq<Octet> { h.0 + AllBytes(NameBytes, h.1, AllBytes(TextBytes, h.2, k)) }

  function ConfigsOut(c: Configs, k: seq<Octet>): seq<Octet> {
    PtrsOut(FlowSpecOut, c.0, PtrsOut(DifOut, c.1, PtrsOut(DtpOut, c.2, PtrsOut(DtcpOut, c.3, k))))
  }

  function TablesOut(t: Tables, k: seq<Octet>): seq<Octet> {
    PtrsOut(RibRespBytes, t.0, PtrsOut(PffListBytes, t.1, PtrsOut(CryptoOut, t.2, PtrsOut(PropertiesOut, t.3, k))))
  }

  function RestOut(r: Rest, k: seq<Octet>): seq<Octet> {
    PtrsOut(NeighboursOut, r.0, PtrsOut(ReportOut, r.1, AllBytes(BufferBytes, r.2, k)))
  }

  /** The fixed part, then what it points to: kind by kind, in the order of the source. */
  function MsgOut(m: Msg, tail: seq<Octet>): seq<Octet> {
    HeadOut((m.copy, m.names, m.strings), ConfigsOut((m.flowSpecs, m.difs, m.dtps, m.dtcps),
    TablesOut((m.ribs, m.pffs, m.cryptos, m.properties), RestOut((m.neighbours, m.reports, m.buffers), tail))))
  }

  /** What a message comes back as. */
  function MsgBack(m: Msg): Msg {
    Msg(m.copy, Seen(NameSeen, m.names), Seen(TextSeen, m.strings), PtrsBack(Same, m.flowSpecs), PtrsBack(DifBack, m.difs),
        PtrsBack(DtpBack, m.dtps), PtrsBack(DtcpBack, m.dtcps), PtrsBack(RibRespSeen, m.ribs), PtrsBack(Same, m.pffs),
        PtrsBack(CryptoBack, m.cryptos), PtrsBack(PropertiesBack, m.properties), PtrsBack(NeighboursBack, m.neighbours),
        PtrsBack(ReportBack, m.reports), Seen(BufferSeen, m.buffers))
  }

  // ---------------------------------------------------------------- from the kinds

  ghost predicate WiredHead(k: Kinds) { As(k.names, WName) && As(k.strings, WText) }

  ghost predicate WiredConfigs(k: Kinds) {
    && As(k.flowSpecs, Wire(FlowSpecOut, Same)) && As(k.difs, Wire(DifOut, DifBack))
    && As(k.dtps, WDtp) && As(k.dtcps, WDtcp)
  }

  ghost predicate WiredTables(k: Kinds) {
    && As(k.ribs, Wire(RibRespBytes, RibRespSeen)) && As(k.pffs, Wire(PffListBytes, Same))
    && As(k.cryptos, Wire(CryptoOut, CryptoBack)) && As(k.properties, Wire(PropertiesOut, PropertiesBack))
  }

  ghost predicate WiredRest(k: Kinds) {
    && As(k.neighbours, Wire(NeighboursOut, NeighboursBack)) && As(k.reports, Wire(ReportOut, ReportBack)) && As(k.buffers, WBuffer)
  }

  function HeadBack(h: Head): Head { (h.0, Seen(NameSeen, h.1), Seen(TextSeen, h.2)) }

  function ConfigsBack(c: Configs): Configs {
    (PtrsBack(Same, c.0), PtrsBack(DifBack, c.1), PtrsBack(DtpBack, c.2), PtrsBack(DtcpBack, c.3))
  }

  function TablesBack(t: Tables): Tables {
    (PtrsBack(RibRespSeen, t.0), PtrsBack(Same, t.1), PtrsBack(CryptoBack, t.2), PtrsBack(PropertiesBack, t.3))
  }

  function RestBack(r: Rest): Rest { (PtrsBack(NeighboursBack, r.0), PtrsBack(ReportBack, r.1), Seen(BufferSeen, r.2)) }

  lemma HeadAs(k: Kinds, l: Layout)
    requires WiredHead(k)
    ensures As(HeadOfMsg(k, l), Wire(HeadOut, HeadBack))
  {
    var copy := Wire((s: seq<Octet>, t: seq<Octet>) => s + t, Same);
    assert As(Copied(l.copylen), copy);
    ManyAs(k.names, WName, l.names);
    ManyAs(k.strings, WText, l.strings);
    ThreeAs(Copied(l.copylen), copy, Many(k.names, l.names), ManyW(WName), Many(k.strings, l.strings), ManyW(WText));
  }

  lemma ConfigsAs(k: Kinds, l: Layout)
    requires WiredConfigs(k)
    ensures As(ConfigsOf(k, l), Wire(ConfigsOut, ConfigsBack))
  {
    PtrsAs(k.flowSpecs, Wire(FlowSpecOut, Same), l.flowSpecs);
    PtrsAs(k.difs, Wire(DifOut, DifBack), l.difs);
    PtrsAs(k.dtps, WDtp, l.dtps);
    PtrsAs(k.dtcps, WDtcp, l.dtcps);
    FourAs(Pointers(k.flowSpecs, l.flowSpecs), PtrsW(Wire(FlowSpecOut, Same)), Pointers(k.difs, l.difs), PtrsW(Wire(DifOut, DifBack)),
           Pointers(k.dtps, l.dtps), PtrsW(WDtp), Pointers(k.dtcps, l.dtcps), PtrsW(WDtcp));
  }

  lemma TablesAs(k: Kinds, l: Layout)
    requires WiredTables(k)
    ensures As(TablesOf(k, l), Wire(TablesOut, TablesBack))
  {
    var a, b, c, d :=
      Wire(RibRespBytes, RibRespSeen), Wire(PffListBytes, Same), Wire(CryptoOut, CryptoBack), Wire(PropertiesOut, PropertiesBack);
    PtrsAs(k.ribs, a, l.ribs);
    PtrsAs(k.pffs, b, l.pffs);
    PtrsAs(k.cryptos, c, l.cryptos);
    PtrsAs(k.properties, d, l.properties);
    FourAs(Pointers(k.ribs, l.ribs), PtrsW(a), Pointers(k.pffs, l.pffs), PtrsW(b), Pointers(k.cryptos, l.cryptos), PtrsW(c),
           Pointers(k.properties, l.properties), PtrsW(d));
  }

  lemma RestAs(k: Kinds, l: Layout)
    requires WiredRest(k)
    ensures As(RestOf(k, l), Wire(RestOut, RestBack))
  {
    PtrsAs(k.neighbours, Wire(NeighboursOut, NeighboursBack), l.neighbours);
    PtrsAs(k.reports, Wire(ReportOut, ReportBack), l.reports);
    ManyAs(k.buffers, WBuffer, l.buffers);
    ThreeAs(Pointers(k.neighbours, l.neighbours), PtrsW(Wire(NeighboursOut, NeighboursBack)),
            Pointers(k.reports, l.reports), PtrsW(Wire(ReportOut, ReportBack)), Many(k.buffers, l.buffers), ManyW(WBuffer));
  }

  lemma MsgAs(a: Codec<Head>, b: Codec<Configs>, c: Codec<Tables>, d: Codec<Rest>)
    requires As(a, Wire(HeadOut, HeadBack)) && As(b, Wire(ConfigsOut, ConfigsBack))
    requires As(c, Wire(TablesOut, TablesBack)) && As(d, Wire(RestOut, RestBack))
    ensures As(Struct(Four(a, b, c, d), MsgPartsOf, BuildMsg, MsgLen), Wire(MsgOut, MsgBack))
  {
    var w := FourW(Wire(HeadOut, HeadBack), Wire(ConfigsOut, ConfigsBack), Wire(TablesOut, TablesBack), Wire(RestOut, RestBack));
    FourAs(a, Wire(HeadOut, HeadBack), b, Wire(ConfigsOut, ConfigsBack), c, Wire(TablesOut, TablesBack), d, Wire(RestOut, RestBack));
    StructAs(Four(a, b, c, d), w, MsgPartsOf, BuildMsg, MsgLen, Wire(MsgOut, MsgBack));
  }

  ghost predicate Wired(k: Kinds) { WiredHead(k) && WiredConfigs(k) && WiredTables(k) && WiredRest(k) }

  lemma WiredMsg(k: Kinds, m: Msg, tail: seq<Octet>)
    requires Wired(k)
    ensures MsgBytes(k, m, tail) == MsgOut(m, tail) && MsgSeen(k, m) == MsgBack(m)
  {
    var l := LayoutOf(m);
    HeadAs(k, l);
    ConfigsAs(k, l);
    TablesAs(k, l);
    RestAs(k, l);
    MsgAs(HeadOfMsg(k, l), ConfigsOf(k, l), TablesOf(k, l), RestOf(k, l));
  }

  // ---------------------------------------------------------------- the messages of the source

  lemma SourceDifsWired(k: Kinds)
    requires k.difs == Difs()
    ensures As(k.difs, Wire(DifOut, DifBack))
  {
    DifAs();
  }

  lemma SourceConnectionsWired(k: Kinds)
    requires k.flowSpecs == FlowSpecs() && k.dtps == DtpConfigs() && k.dtcps == DtcpConfigs()
    ensures As(k.flowSpecs, Wire(FlowSpecOut, Same)) && As(k.dtps, WDtp) && As(k.dtcps, WDtcp)
  {
    FlowSpecAs();
    DtpAs();
    DtcpAs();
  }

  lemma SourceConfigsWired(k: Kinds)
    requires SourceConfigs(k)
    ensures WiredConfigs(k)
  {
    SourceDifsWired(k);
    SourceConnectionsWired(k);
  }

  lemma SourceHeadWired(k: Kinds)
    requires SourceHead(k)
    ensures WiredHead(k)
  {
    BasicAs();
  }

  lemma SourceTablesWired(k: Kinds)
    requires SourceTables(k)
    ensures WiredTables(k)
  {
    CryptoAs();
    PropertiesAs();
    assert As(k.ribs, Wire(RibRespBytes, RibRespSeen)) && As(k.pffs, Wire(PffListBytes, Same));
  }

  lemma SourceRestWired(k: Kinds)
    requires SourceRest(k)
    ensures WiredRest(k)
  {
    NeighboursAs();
    ReportAs();
    assert As(k.buffers, WBuffer);
  }

  lemma SourceWired(k: Kinds)
    requires AsInSource(k)
    ensures Wired(k)
  {
    SourceHeadWired(k);
    SourceConfigsWired(k);
    SourceTablesWired(k);
    SourceRestWired(k);
  }

  /** The bytes of a message and what it comes back as, field by field. */
  lemma MsgFieldByField(k: Kinds, m: Msg, tail: seq<Octet>)
    requires AsInSource(k)
    ensures MsgBytes(k, m, tail) == MsgOut(m, tail) && MsgSeen(k, m) == MsgBack(m)
  {
    SourceWired(k);
    WiredMsg(k, m, tail);
  }

  ghost predicate KeptIff(k: Kinds, m: Msg, back: Msg) { ComesBack(k, m) <==> InRange(k, m) && Whole(k, m) && back == m }

  lemma BackIff(k: Kinds, m: Msg, back: Msg)
    requires Sound(k) && MsgSeen(k, m) == back
    ensures KeptIff(k, m, back)
  {
    SoundRoundTrip(k, m, []);
  }

  /**
   A message comes back as it is exactly if its numbers and counts are in range, nothing that the reader expects is NULL,
   no string is NULL or too long, no buffer is empty, and flow control has the same policy in the three places that are
   mixed up: the last three are what makes `MsgBack` leave it alone.
   */
  lemma ComesBackIff(k: Kinds, m: Msg)
    requires AsInSource(k)
    ensures KeptIff(k, m, MsgBack(m))
  {
    SourceIsSound(k);
    MsgFieldByField(k, m, []);
    BackIff(k, m, MsgBack(m));
  }
}
