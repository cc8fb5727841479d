/**
 Whole control messages: a fixed part that is copied, then the structures that it points to, of each kind as many
 as the layout of the message type says.
 */
module IratiMsg {
  import opened EfcpTypes
  import opened PciAccess
  import opened MsgCodec
  import opened MsgReports
  import opened MsgCombine
  import opened MsgConfigs
  import opened MsgDifs

  // ---------------------------------------------------------------- the codecs of responses and tables

  function Ribs(): Codec<RibResp> {
    Codec(RibRespBytes, ReadRibResp, (r: RibResp) => About(RibRespSeen(r), RibRespLen(r), true, RibRespFits(r), true))
  }

  function Pffs(): Codec<PffList> {
    Codec(PffListBytes, ReadPffList, (l: PffList) => About(l, PffListLen(l), true, PffListFits(l), true))
  }

  lemma ReadRibFits(bs: seq<Octet>)
    ensures ReadRibResp(bs).Done? ==> RibRespFits(ReadRibResp(bs).value)
  {
    forall b ensures ReadRibObject(b).Done? ==> RibObjectFits(ReadRibObject(b).value) {
      Widths();
      ReadNumFits(8, b);
    }
    ReadListFits(ReadRibObject, RibObjectFits, bs);
  }

  lemma RibsLawful()
    ensures Measured(Ribs(), RibRespLen)
  {
    var c := Ribs();
    forall r: RibResp, k
      ensures |RibRespBytes(r, k)| == RibRespLen(r) + |k|
      ensures RibRespFits(r) ==> ReadRibResp(RibRespBytes(r, k)) == Done(RibRespSeen(r), k)
    {
      RibRespRoundTrip(r);
    }
    forall bs ensures c.read(bs).Done? ==> Good(c, c.read(bs).value) { ReadRibFits(bs); }
    forall r: RibResp ensures RibRespFits(RibRespSeen(r)) ==> RibRespFits(r) { RibSeenFits(r); }
    LawfulFrom(c);
  }

  lemma RibSeenFits(r: RibResp)
    ensures RibRespFits(RibRespSeen(r)) ==> RibRespFits(r)
  {
    forall i | 0 <= i < |r| ensures RibObjectFits(RibRespSeen(r)[i]) <==> RibObjectFits(r[i]) {
      assert RibRespSeen(r)[i] == RibObjectSeen(r[i]);
    }
  }

  lemma ReadPffEntryFits(bs: seq<Octet>)
    ensures ReadPffEntry(bs).Done? ==> PffEntryFits(ReadPffEntry(bs).value)
  {
    Widths();
    forall b ensures ReadPort(b).Done? ==> PortFits(ReadPort(b).value) { ReadNumFits(4, b); }
    forall b ensures ReadAltList(b).Done? ==> AltListFits(ReadAltList(b).value) { ReadListFits(ReadPort, PortFits, b); }
    if ReadPffEntry(bs).Done? {
      var r := ReadNum(4, bs).rest;
      var r2 := ReadNum(2, r).rest;
      ReadNumFits(4, bs);
      ReadNumFits(2, r);
      ReadNumFits(4, r2);
      ReadListFits(ReadAltList, AltListFits, ReadNum(4, r2).rest);
    }
  }

  lemma PffsLawful()
    ensures Measured(Pffs(), PffListLen)
  {
    var c := Pffs();
    forall l: PffList, k
      ensures |PffListBytes(l, k)| == PffListLen(l) + |k| && (PffListFits(l) ==> ReadPffList(PffListBytes(l, k)) == Done(l, k))
    {
      PffListRoundTrip(l);
    }
    forall bs ensures c.read(bs).Done? ==> Good(c, c.read(bs).value) {
      forall b ensures ReadPffEntry(b).Done? ==> PffEntryFits(ReadPffEntry(b).value) { ReadPffEntryFits(b); }
      ReadListFits(ReadPffEntry, PffEntryFits, bs);
    }
    LawfulFrom(c);
  }

  // ---------------------------------------------------------------- messages

  datatype Layout = Layout(
    copylen: nat, names: nat, strings: nat, flowSpecs: nat, difs: nat, dtps: nat, dtcps: nat, ribs: nat, pffs: nat,
    cryptos: nat, properties: nat, neighbours: nat, reports: nat, buffers: nat)

  /** NULL is `None`, for whatever the message points to. */
  datatype Msg = Msg(
    copy: seq<Octet>, names: seq<Option<Name>>, strings: seq<Text>,
    flowSpecs: seq<Option<FlowSpec>>, difs: seq<Option<DifConfig>>, dtps: seq<Option<DtpConfig>>, dtcps: seq<Option<DtcpConfig>>,
    ribs: seq<Option<RibResp>>, pffs: seq<Option<PffList>>, cryptos: seq<Option<CryptoState>>, properties: seq<Option<seq<DifProperty>>>,
    neighbours: seq<Option<NeighbourList>>, reports: seq<Option<MediaReport>>, buffers: seq<Buffer>)

  function LayoutOf(m: Msg): Layout {
    Layout(|m.copy|, |m.names|, |m.strings|, |m.flowSpecs|, |m.difs|, |m.dtps|, |m.dtcps|, |m.ribs|, |m.pffs|,
           |m.cryptos|, |m.properties|, |m.neighbours|, |m.reports|, |m.buffers|)
  }

  function StructuresLen(m: Msg): nat {
    |m.copy| + Total(NameLen, m.names) + Total(TextLen, m.strings)
    + PointersLen(FlowSpecLen, m.flowSpecs) + PointersLen(DifLen, m.difs)
    + PointersLen(DtpConfigLen, m.dtps) + PointersLen(DtcpLen, m.dtcps)
    + PointersLen(RibRespLen, m.ribs) + PointersLen(PffListLen, m.pffs)
    + PointersLen(CryptoLen, m.cryptos) + PointersLen(PropertyListLen, m.properties)
    + PointersLen(NeighbourListLen, m.neighbours) + PointersLen(MediaReportLen, m.reports)
  }

  /** The room for a message, if a NULL buffer is counted as the four bytes of a size. */
  function MsgLen(m: Msg): nat { StructuresLen(m) + Total(BufferLen, m.buffers) }

  /** The sum asks every buffer for its size, and a NULL one has none to give. */
  function BuffersAnnounced(bs: seq<Buffer>): Option<nat> {
    if bs == [] then Some(0)
    else if bs[0].None? then None
    else
      match BuffersAnnounced(bs[1..])
      case None => None
      case Some(n) => Some(4 + |bs[0].value| + n)
  }

  /** The length that is announced for a message. */
  function Announced(m: Msg): Option<nat> {
    match BuffersAnnounced(m.buffers)
    case None => None
    case Some(n) => Some(StructuresLen(m) + n)
  }

  predicate BuffersThere(bs: seq<Buffer>) { forall i :: 0 <= i < |bs| ==> bs[i].Some? }

  /** No buffer that the message itself points to is NULL; the buffers inside a crypto state do not count. */
  predicate NoNullBuffer(m: Msg) { BuffersThere(m.buffers) }

  lemma {:induction false} BuffersAnnouncedIff(bs: seq<Buffer>)
    ensures BuffersAnnounced(bs).Some? <==> BuffersThere(bs)
    ensures BuffersAnnounced(bs).Some? ==> BuffersAnnounced(bs).value == Total(BufferLen, bs)
  {
    if bs != [] {
      BuffersAnnouncedIff(bs[1..]);
      assert BuffersThere(bs) <==> bs[0].Some? && BuffersThere(bs[1..]);
    }
  }

  lemma AnnouncedIff(m: Msg)
    ensures Announced(m).Some? <==> NoNullBuffer(m)
    ensures Announced(m).Some? ==> Announced(m).value == MsgLen(m)
  {
    BuffersAnnouncedIff(m.buffers);
  }

  /** For a message written in this many bytes, what the announced length says of them. */
  predicate Announces(m: Msg, bytes: nat) {
    match Announced(m)
    case None => !NoNullBuffer(m)
    case Some(n) => NoNullBuffer(m) && bytes <= n && (bytes == n <==> NoNullName(m))
  }

  lemma RoomAnnounced(m: Msg, bytes: nat)
    requires bytes <= MsgLen(m) && (bytes == MsgLen(m) <==> NoNullName(m))
    ensures Announces(m, bytes)
  {
    AnnouncedIff(m);
  }

  /** One codec for every kind of structure. */
  datatype Kinds = Kinds(
    names: Codec<Option<Name>>, strings: Codec<Text>,
    flowSpecs: Codec<FlowSpec>, difs: Codec<DifConfig>, dtps: Codec<DtpConfig>, dtcps: Codec<DtcpConfig>,
    ribs: Codec<RibResp>, pffs: Codec<PffList>, cryptos: Codec<CryptoState>, properties: Codec<seq<DifProperty>>,
    neighbours: Codec<NeighbourList>, reports: Codec<MediaReport>, buffers: Codec<Buffer>)

  function Copied(n: nat): Codec<seq<Octet>> {
    Codec((s: seq<Octet>, k: seq<Octet>) => s + k, bs => Raw(n, bs), (s: seq<Octet>) => About(s, |s|, true, |s| == n, true))
  }

  function CopyLen(s: seq<Octet>): nat { |s| }

  lemma CopiedLawful(n: nat)
    ensures Measured(Copied(n), CopyLen)
  {
    var c := Copied(n);
    forall s, k ensures |c.write(s, k)| == c.len(s) + |k| && (c.ranged(s) ==> c.read(c.write(s, k)) == Done(s, k)) {
      RawRoundTrip(s, k);
    }
    LawfulFrom(c);
  }

  type Head = (seq<Octet>, seq<Option<Name>>, seq<Text>)

  type Configs = (seq<Option<FlowSpec>>, seq<Option<DifConfig>>, seq<Option<DtpConfig>>, seq<Option<DtcpConfig>>)

  type Tables = (seq<Option<RibResp>>, seq<Option<PffList>>, seq<Option<CryptoState>>, seq<Option<seq<DifProperty>>>)

  type Rest = (seq<Option<NeighbourList>>, seq<Option<MediaReport>>, seq<Buffer>)

  type MsgParts = (Head, Configs, Tables, Rest)

  function MsgPartsOf(m: Msg): MsgParts {
    ((m.copy, m.names, m.strings), (m.flowSpecs, m.difs, m.dtps, m.dtcps), (m.ribs, m.pffs, m.cryptos, m.properties),
     (m.neighbours, m.reports, m.buffers))
  }

  function BuildMsg(p: MsgParts): Msg {
    Msg(p.0.0, p.0.1, p.0.2, p.1.0, p.1.1, p.1.2, p.1.3, p.2.0, p.2.1, p.2.2, p.2.3, p.3.0, p.3.1, p.3.2)
  }

  function HeadLen(h: Head): nat { |h.0| + Total(NameLen, h.1) + Total(TextLen, h.2) }

  function ConfigsLen(c: Configs): nat {
    PointersLen(FlowSpecLen, c.0) + PointersLen(DifLen, c.1) + PointersLen(DtpConfigLen, c.2) + PointersLen(DtcpLen, c.3)
  }

  function TablesLen(t: Tables): nat {
    PointersLen(RibRespLen, t.0) + PointersLen(PffListLen, t.1) + PointersLen(CryptoLen, t.2) + PointersLen(PropertyListLen, t.3)
  }

  function RestLen(r: Rest): nat {
    PointersLen(NeighbourListLen, r.0) + PointersLen(MediaReportLen, r.1) + Total(BufferLen, r.2)
  }

  function HeadOfMsg(k: Kinds, l: Layout): Codec<Head> {
    Three(Copied(l.copylen), Many(k.names, l.names), Many(k.strings, l.strings))
  }

  function ConfigsOf(k: Kinds, l: Layout): Codec<Configs> {
    Four(Pointers(k.flowSpecs, l.flowSpecs), Pointers(k.difs, l.difs), Pointers(k.dtps, l.dtps), Pointers(k.dtcps, l.dtcps))
  }

  function TablesOf(k: Kinds, l: Layout): Codec<Tables> {
    Four(Pointers(k.ribs, l.ribs), Pointers(k.pffs, l.pffs), Pointers(k.cryptos, l.cryptos), Pointers(k.properties, l.properties))
  }

  function RestOf(k: Kinds, l: Layout): Codec<Rest> {
    Three(Pointers(k.neighbours, l.neighbours), Pointers(k.reports, l.reports), Many(k.buffers, l.buffers))
  }

  /** The codec of messages with this layout. */
  function MessagesOf(k: Kinds, l: Layout): Codec<Msg> {
    Struct(Four(HeadOfMsg(k, l), ConfigsOf(k, l), TablesOf(k, l), RestOf(k, l)), MsgPartsOf, BuildMsg, MsgLen)
  }

  // ---------------------------------------------------------------- the laws of messages, from those of the kinds

  predicate AllHaveNames(ps: seq<DifProperty>) { forall i :: 0 <= i < |ps| ==> Present(ps[i].difName) }

  predicate PropertiesNamed(xs: seq<Option<seq<DifProperty>>>) {
    forall i :: 0 <= i < |xs| ==> xs[i].Some? ==> AllHaveNames(xs[i].value)
  }

  predicate NeighboursNamed(xs: seq<Option<NeighbourList>>) {
    forall i :: 0 <= i < |xs| ==> xs[i].Some? ==> AllNamed(xs[i].value)
  }

  ghost predicate SoundHead(k: Kinds) {
    && Sized(k.names, NameLen) && Measured(k.strings, TextLen)
    && (forall n :: (k.names.exact(n) <==> Present(n)) && (k.names.whole(n) ==> Present(n)))
  }

  ghost predicate SoundConfigs(k: Kinds) {
    Measured(k.flowSpecs, FlowSpecLen) && Measured(k.difs, DifLen) && Measured(k.dtps, DtpConfigLen) && Measured(k.dtcps, DtcpLen)
  }

  ghost predicate SoundTables(k: Kinds) {
    && Measured(k.ribs, RibRespLen) && Measured(k.pffs, PffListLen) && Measured(k.cryptos, CryptoLen)
    && Sized(k.properties, PropertyListLen)
    && (forall ps :: (k.properties.exact(ps) <==> AllHaveNames(ps)) && (k.properties.whole(ps) ==> AllHaveNames(ps)))
  }

  ghost predicate SoundRest(k: Kinds) {
    && Sized(k.neighbours, NeighbourListLen)
    && (forall l :: (k.neighbours.exact(l) <==> AllNamed(l)) && (k.neighbours.whole(l) ==> AllNamed(l)))
    && Measured(k.reports, MediaReportLen) && Measured(k.buffers, BufferLen)
  }

  /** The lists of each kind, with what their lengths and their exactness come down to. */
  lemma HeadFrom(a: Codec<seq<Octet>>, b: Codec<seq<Option<Name>>>, c: Codec<seq<Text>>)
    requires Measured(a, CopyLen) && Sized(b, ns => Total(NameLen, ns)) && Measured(c, ts => Total(TextLen, ts))
    requires forall ns: seq<Option<Name>> :: b.exact(ns) <==> AllPresent(ns)
    ensures Sized(Three(a, b, c), HeadLen) && forall h: Head :: Three(a, b, c).exact(h) <==> AllPresent(h.1)
  {
    ThreeLawful(a, b, c);
    forall h: Head ensures Three(a, b, c).len(h) == HeadLen(h) && (Three(a, b, c).exact(h) <==> AllPresent(h.1)) {
      ThreeIs(a, b, c, h);
    }
  }

  lemma ConfigsFrom(
      a: Codec<seq<Option<FlowSpec>>>, b: Codec<seq<Option<DifConfig>>>, c: Codec<seq<Option<DtpConfig>>>,
      d: Codec<seq<Option<DtcpConfig>>>)
    requires Measured(a, xs => PointersLen(FlowSpecLen, xs)) && Measured(b, xs => PointersLen(DifLen, xs))
    requires Measured(c, xs => PointersLen(DtpConfigLen, xs)) && Measured(d, xs => PointersLen(DtcpLen, xs))
    ensures Measured(Four(a, b, c, d), ConfigsLen)
  {
    FourLawful(a, b, c, d);
    forall t: Configs ensures Four(a, b, c, d).len(t) == ConfigsLen(t) { FourIs(a, b, c, d, t); }
  }

  lemma TablesFrom(
      a: Codec<seq<Option<RibResp>>>, b: Codec<seq<Option<PffList>>>, c: Codec<seq<Option<CryptoState>>>,
      d: Codec<seq<Option<seq<DifProperty>>>>)
    requires Measured(a, xs => PointersLen(RibRespLen, xs)) && Measured(b, xs => PointersLen(PffListLen, xs))
    requires Measured(c, xs => PointersLen(CryptoLen, xs)) && Sized(d, xs => PointersLen(PropertyListLen, xs))
    requires forall xs: seq<Option<seq<DifProperty>>> :: d.exact(xs) <==> PropertiesNamed(xs)
    ensures Sized(Four(a, b, c, d), TablesLen) && forall t: Tables :: Four(a, b, c, d).exact(t) <==> PropertiesNamed(t.3)
  {
    FourLawful(a, b, c, d);
    forall t: Tables ensures Four(a, b, c, d).len(t) == TablesLen(t) && (Four(a, b, c, d).exact(t) <==> PropertiesNamed(t.3)) {
      FourIs(a, b, c, d, t);
    }
  }

  lemma RestFrom(a: Codec<seq<Option<NeighbourList>>>, b: Codec<seq<Option<MediaReport>>>, c: Codec<seq<Buffer>>)
    requires Sized(a, xs => PointersLen(NeighbourListLen, xs)) && Measured(b, xs => PointersLen(MediaReportLen, xs))
    requires Measured(c, xs => Total(BufferLen, xs)) && forall xs: seq<Option<NeighbourList>> :: a.exact(xs) <==> NeighboursNamed(xs)
    ensures Sized(Three(a, b, c), RestLen) && forall r: Rest :: Three(a, b, c).exact(r) <==> NeighboursNamed(r.0)
  {
    ThreeLawful(a, b, c);
    forall r: Rest ensures Three(a, b, c).len(r) == RestLen(r) && (Three(a, b, c).exact(r) <==> NeighboursNamed(r.0)) {
      ThreeIs(a, b, c, r);
    }
  }

  lemma HeadSized(k: Kinds, l: Layout)
    requires SoundHead(k)
    ensures Sized(HeadOfMsg(k, l), HeadLen) && forall h: Head :: HeadOfMsg(k, l).exact(h) <==> AllPresent(h.1)
  {
    CopiedLawful(l.copylen);
    ManySized(k.names, NameLen, l.names);
    ManySized(k.strings, TextLen, l.strings);
    HeadFrom(Copied(l.copylen), Many(k.names, l.names), Many(k.strings, l.strings));
  }

  lemma ConfigsSized(k: Kinds, l: Layout)
    requires SoundConfigs(k)
    ensures Measured(ConfigsOf(k, l), ConfigsLen)
  {
    PointersMeasured(k.flowSpecs, FlowSpecLen, l.flowSpecs);
    PointersMeasured(k.difs, DifLen, l.difs);
    PointersMeasured(k.dtps, DtpConfigLen, l.dtps);
    PointersMeasured(k.dtcps, DtcpLen, l.dtcps);
    ConfigsFrom(Pointers(k.flowSpecs, l.flowSpecs), Pointers(k.difs, l.difs), Pointers(k.dtps, l.dtps), Pointers(k.dtcps, l.dtcps));
  }

  lemma TablesSized(k: Kinds, l: Layout)
    requires SoundTables(k)
    ensures Sized(TablesOf(k, l), TablesLen) && forall t: Tables :: TablesOf(k, l).exact(t) <==> PropertiesNamed(t.3)
  {
    PointersMeasured(k.ribs, RibRespLen, l.ribs);
    PointersMeasured(k.pffs, PffListLen, l.pffs);
    PointersMeasured(k.cryptos, CryptoLen, l.cryptos);
    PointersSized(k.properties, PropertyListLen, l.properties);
    TablesFrom(Pointers(k.ribs, l.ribs), Pointers(k.pffs, l.pffs), Pointers(k.cryptos, l.cryptos), Pointers(k.properties, l.properties));
  }

  lemma RestSized(k: Kinds, l: Layout)
    requires SoundRest(k)
    ensures Sized(RestOf(k, l), RestLen) && forall r: Rest :: RestOf(k, l).exact(r) <==> NeighboursNamed(r.0)
  {
    PointersSized(k.neighbours, NeighbourListLen, l.neighbours);
    PointersMeasured(k.reports, MediaReportLen, l.reports);
    ManySized(k.buffers, BufferLen, l.buffers);
    ManyLawful(k.buffers, l.buffers);
    RestFrom(Pointers(k.neighbours, l.neighbours), Pointers(k.reports, l.reports), Many(k.buffers, l.buffers));
  }

  /** No name in the message is NULL. */
  predicate NoNullName(m: Msg) { AllPresent(m.names) && PropertiesNamed(m.properties) && NeighboursNamed(m.neighbours) }

  lemma MsgFrom(a: Codec<Head>, b: Codec<Configs>, c: Codec<Tables>, d: Codec<Rest>)
    requires Sized(a, HeadLen) && Measured(b, ConfigsLen) && Sized(c, TablesLen) && Sized(d, RestLen)
    requires forall h: Head :: a.exact(h) <==> AllPresent(h.1)
    requires forall t: Tables :: c.exact(t) <==> PropertiesNamed(t.3)
    requires forall r: Rest :: d.exact(r) <==> NeighboursNamed(r.0)
    ensures var e := Struct(Four(a, b, c, d), MsgPartsOf, BuildMsg, MsgLen);
            Sized(e, MsgLen) && forall m: Msg :: e.exact(m) <==> NoNullName(m)
  {
    var f := Four(a, b, c, d);
    FourLawful(a, b, c, d);
    forall m: Msg ensures MsgLen(m) == f.len(MsgPartsOf(m)) { FourIs(a, b, c, d, MsgPartsOf(m)); }
    StructSized(f, MsgPartsOf, BuildMsg, MsgLen);
    forall m: Msg ensures Struct(f, MsgPartsOf, BuildMsg, MsgLen).exact(m) <==> NoNullName(m) {
      StructIs(f, MsgPartsOf, BuildMsg, MsgLen, m);
      FourIs(a, b, c, d, MsgPartsOf(m));
    }
  }

  /** A whole list of names has no NULL in it, and so for lists of properties and of neighbours. */
  lemma WholeLists(k: Kinds, l: Layout, m: Msg)
    requires SoundHead(k) && SoundTables(k) && SoundRest(k)
    requires Many(k.names, l.names).whole(m.names) && Pointers(k.properties, l.properties).whole(m.properties)
    requires Pointers(k.neighbours, l.neighbours).whole(m.neighbours)
    ensures NoNullName(m)
  {
    forall i | 0 <= i < |m.names| ensures Present(m.names[i]) { assert k.names.whole(m.names[i]); }
    forall i | 0 <= i < |m.properties| && m.properties[i].Some? ensures AllHaveNames(m.properties[i].value) {
      assert Ptr(k.properties).whole(m.properties[i]) && k.properties.whole(m.properties[i].value);
    }
    forall i | 0 <= i < |m.neighbours| && m.neighbours[i].Some? ensures AllNamed(m.neighbours[i].value) {
      assert Ptr(k.neighbours).whole(m.neighbours[i]) && k.neighbours.whole(m.neighbours[i].value);
    }
  }

  lemma WholeParts(k: Kinds, l: Layout, m: Msg)
    requires MessagesOf(k, l).whole(m)
    ensures Many(k.names, l.names).whole(m.names) && Pointers(k.properties, l.properties).whole(m.properties)
    ensures Pointers(k.neighbours, l.neighbours).whole(m.neighbours)
  {
    var a, b, c, d := HeadOfMsg(k, l), ConfigsOf(k, l), TablesOf(k, l), RestOf(k, l);
    StructIs(Four(a, b, c, d), MsgPartsOf, BuildMsg, MsgLen, m);
    FourIs(a, b, c, d, MsgPartsOf(m));
    ThreeIs(Copied(l.copylen), Many(k.names, l.names), Many(k.strings, l.strings), MsgPartsOf(m).0);
    FourIs(Pointers(k.ribs, l.ribs), Pointers(k.pffs, l.pffs), Pointers(k.cryptos, l.cryptos), Pointers(k.properties, l.properties),
           MsgPartsOf(m).2);
    ThreeIs(Pointers(k.neighbours, l.neighbours), Pointers(k.reports, l.reports), Many(k.buffers, l.buffers), MsgPartsOf(m).3);
  }

  ghost predicate Sound(k: Kinds) { SoundHead(k) && SoundConfigs(k) && SoundTables(k) && SoundRest(k) }

  /** The laws of all messages of a layout follow from those of the structures they point to. */
  lemma MessagesLawful(k: Kinds, l: Layout)
    requires Sound(k)
    ensures Sized(MessagesOf(k, l), MsgLen) && forall m: Msg :: MessagesOf(k, l).exact(m) <==> NoNullName(m)
  {
    HeadSized(k, l);
    ConfigsSized(k, l);
    TablesSized(k, l);
    RestSized(k, l);
    MsgFrom(HeadOfMsg(k, l), ConfigsOf(k, l), TablesOf(k, l), RestOf(k, l));
  }

  /** Everything has to be used up. */
  function ReadMsg(k: Kinds, l: Layout, bs: seq<Octet>): Option<Msg> {
    Complete(MessagesOf(k, l).read(bs))
  }

  function Complete(p: Parsed<Msg>): Option<Msg> {
    match p
    case Cut => None
    case Done(m, r) => if r == [] then Some(m) else None
  }

  function MsgBytes(k: Kinds, m: Msg, tail: seq<Octet>): seq<Octet> { MessagesOf(k, LayoutOf(m)).write(m, tail) }

  /** What a message comes back as. */
  function MsgSeen(k: Kinds, m: Msg): Msg { MessagesOf(k, LayoutOf(m)).seen(m) }

  /** Numbers fit their types and lists their 16-bit counts. */
  predicate InRange(k: Kinds, m: Msg) { MessagesOf(k, LayoutOf(m)).ranged(m) }

  /** Nothing that the reader expects is NULL, at any depth. */
  predicate Whole(k: Kinds, m: Msg) { MessagesOf(k, LayoutOf(m)).whole(m) }

  /** What is read from these bytes, if anything, has no NULL where the reader expects something, and no NULL name. */
  ghost predicate ReadsOnlyWhole(k: Kinds, l: Layout, bs: seq<Octet>) {
    var m := ReadMsg(k, l, bs);
    m.Some? ==> MessagesOf(k, l).whole(m.value) && MessagesOf(k, l).ranged(m.value) && NoNullName(m.value)
  }

  lemma SoundReads(k: Kinds, l: Layout, bs: seq<Octet>)
    requires Sound(k)
    ensures ReadsOnlyWhole(k, l, bs)
  {
    MessagesLawful(k, l);
    if ReadMsg(k, l, bs).Some? {
      var m := ReadMsg(k, l, bs).value;
      ReadsWhole(MessagesOf(k, l), bs);
      WholeParts(k, l, m);
      WholeLists(k, l, m);
    }
  }

  lemma ReadsWhole(c: Codec<Msg>, bs: seq<Octet>)
    requires Lawful(c) && c.read(bs).Done?
    ensures Good(c, c.read(bs).value)
  {
  }

  lemma SoundLength(k: Kinds, m: Msg)
    requires Sound(k)
    ensures |MsgBytes(k, m, [])| <= MsgLen(m) && (|MsgBytes(k, m, [])| == MsgLen(m) <==> NoNullName(m))
  {
    MessagesLawful(k, LayoutOf(m));
    MessageLaws(MessagesOf(k, LayoutOf(m)), m, []);
  }

  lemma SoundAnnounces(k: Kinds, m: Msg)
    requires Sound(k)
    ensures Announces(m, |MsgBytes(k, m, [])|)
  {
    SoundLength(k, m);
    RoomAnnounced(m, |MsgBytes(k, m, [])|);
  }

  lemma SoundRoundTrip(k: Kinds, m: Msg, tail: seq<Octet>)
    requires Sound(k)
    ensures ReadMsg(k, LayoutOf(m), MsgBytes(k, m, [])) == Some(MsgSeen(k, m)) <==> InRange(k, m) && Whole(k, m)
    ensures ReadMsg(k, LayoutOf(m), MsgBytes(k, m, [])) == Some(m) ==> InRange(k, m) && Whole(k, m)
    ensures InRange(k, m) && Whole(k, m) && tail != [] ==> ReadMsg(k, LayoutOf(m), MsgBytes(k, m, tail)) == None
  {
    MessagesLawful(k, LayoutOf(m));
    CompleteLaws(MessagesOf(k, LayoutOf(m)), m, tail);
  }

  lemma CompleteLaws(c: Codec<Msg>, m: Msg, tail: seq<Octet>)
    requires Lawful(c)
    ensures Complete(c.read(c.write(m, []))) == Some(c.seen(m)) <==> c.ranged(m) && c.whole(m)
    ensures Complete(c.read(c.write(m, []))) == Some(m) ==> c.ranged(m) && c.whole(m)
    ensures c.ranged(m) && c.whole(m) && tail != [] ==> Complete(c.read(c.write(m, tail))) == None
  {
    MessageLaws(c, m, tail);
  }

  lemma MessageLaws(c: Codec<Msg>, m: Msg, tail: seq<Octet>)
    requires Lawful(c)
    ensures |c.write(m, [])| <= c.len(m) && (|c.write(m, [])| == c.len(m) <==> c.exact(m))
    ensures c.read(c.write(m, [])) == Done(c.seen(m), []) <==> c.ranged(m) && c.whole(m)
    ensures c.read(c.write(m, [])) == Done(m, []) ==> c.ranged(m) && c.whole(m)
    ensures c.ranged(m) && c.whole(m) ==> c.read(c.write(m, tail)) == Done(c.seen(m), tail)
  {
    Law(c, m, []);
    Law(c, m, tail);
    RoundTripIff(c, m, []);
    if c.read(c.write(m, [])) == Done(m, []) {
      assert Good(c, m);
    }
  }

  // ---------------------------------------------------------------- the messages of the source

  ghost predicate SourceHead(k: Kinds) { k.names == Names() && k.strings == Str() }

  ghost predicate SourceConfigs(k: Kinds) {
    k.flowSpecs == FlowSpecs() && k.difs == Difs() && k.dtps == DtpConfigs() && k.dtcps == DtcpConfigs()
  }

  ghost predicate SourceTables(k: Kinds) {
    k.ribs == Ribs() && k.pffs == Pffs() && k.cryptos == Cryptos() && k.properties == PropertyLists()
  }

  ghost predicate SourceRest(k: Kinds) { k.neighbours == NeighbourLists() && k.reports == MediaReports() && k.buffers == Buffers() }

  /** The codecs are those of the source. */
  ghost predicate AsInSource(k: Kinds) { SourceHead(k) && SourceConfigs(k) && SourceTables(k) && SourceRest(k) }

  lemma HeadIsSound(k: Kinds)
    requires SourceHead(k)
    ensures SoundHead(k)
  {
    NamesLawful();
    StrLawful();
  }

  lemma DifsAreSound(k: Kinds)
    requires k.difs == Difs()
    ensures Measured(k.difs, DifLen)
  {
    DifsLawful();
  }

  lemma ConnectionsAreSound(k: Kinds)
    requires k.flowSpecs == FlowSpecs() && k.dtps == DtpConfigs() && k.dtcps == DtcpConfigs()
    ensures Measured(k.flowSpecs, FlowSpecLen) && Measured(k.dtps, DtpConfigLen) && Measured(k.dtcps, DtcpLen)
  {
    FlowSpecsPlain();
    DtpConfigsLawful();
    DtcpConfigsLawful();
  }

  lemma ConfigsAreSound(k: Kinds)
    requires SourceConfigs(k)
    ensures SoundConfigs(k)
  {
    DifsAreSound(k);
    ConnectionsAreSound(k);
  }

  lemma PropertiesExact(ps: seq<DifProperty>)
    ensures (PropertyLists().exact(ps) <==> AllHaveNames(ps)) && (PropertyLists().whole(ps) ==> AllHaveNames(ps))
  {
    forall p: DifProperty ensures (Properties().exact(p) <==> Present(p.difName)) && (Properties().whole(p) ==> Present(p.difName)) {
      StructIs(Two(Num(2), Names()), PropertyParts, BuildProperty, PropertyLen, p);
      TwoIs(Num(2), Names(), PropertyParts(p));
    }
    if PropertyLists().whole(ps) {
      forall i | 0 <= i < |ps| ensures Present(ps[i].difName) {
        assert Properties().whole(ps[i]);
      }
    }
  }

  lemma TablesAreSound(k: Kinds)
    requires SourceTables(k)
    ensures SoundTables(k)
  {
    RibsLawful();
    PffsLawful();
    CryptosLawful();
    PropertiesLawful();
    forall ps: seq<DifProperty>
      ensures (k.properties.exact(ps) <==> AllHaveNames(ps)) && (k.properties.whole(ps) ==> AllHaveNames(ps)) {
      PropertiesExact(ps);
    }
  }

  lemma RestIsSound(k: Kinds)
    requires SourceRest(k)
    ensures SoundRest(k)
  {
    NeighbourListRoundTrip();
    MediaReportRoundTrip();
    BuffersLawful();
  }

  lemma SourceIsSound(k: Kinds)
    requires AsInSource(k)
    ensures Sound(k)
  {
    HeadIsSound(k);
    ConfigsAreSound(k);
    TablesAreSound(k);
    RestIsSound(k);
  }

  /** The room a message takes is bounded also where none is announced, with four bytes for a NULL buffer. */
  lemma MsgRoom(k: Kinds, m: Msg)
    requires AsInSource(k)
    ensures |MsgBytes(k, m, [])| <= MsgLen(m)
    ensures |MsgBytes(k, m, [])| == MsgLen(m) <==> NoNullName(m)
  {
    SourceIsSound(k);
    SoundLength(k, m);
  }

  /**
   A message has an announced length exactly if none of its own buffers is NULL. It then never takes more room than
   announced, whatever it carries, and exactly that much if and only if no name in it is NULL: a NULL name is announced
   as four empty strings and written as nothing.
   */
  lemma MsgLength(k: Kinds, m: Msg)
    requires AsInSource(k)
    ensures Announces(m, |MsgBytes(k, m, [])|)
  {
    SourceIsSound(k);
    SoundAnnounces(k, m);
  }

  lemma SeenBuffers(k: Kinds, m: Msg)
    ensures |MsgSeen(k, m).buffers| == |m.buffers|
    ensures forall i :: 0 <= i < |m.buffers| ==> MsgSeen(k, m).buffers[i] == k.buffers.seen(m.buffers[i])
  {
    var l := LayoutOf(m);
    var a, b, c, d := HeadOfMsg(k, l), ConfigsOf(k, l), TablesOf(k, l), RestOf(k, l);
    StructIs(Four(a, b, c, d), MsgPartsOf, BuildMsg, MsgLen, m);
    FourIs(a, b, c, d, MsgPartsOf(m));
    ThreeIs(Pointers(k.neighbours, l.neighbours), Pointers(k.reports, l.reports), Many(k.buffers, l.buffers), MsgPartsOf(m).3);
  }

  /**
   What a message comes back as cannot always be announced again: it can exactly if every buffer of the message has
   data in it, since one without data comes back as NULL.
   */
  lemma AnnouncedAgain(k: Kinds, m: Msg)
    requires k.buffers == Buffers()
    ensures Announced(MsgSeen(k, m)).Some? <==> BuffersFilled(m)
  {
    SeenBuffers(k, m);
    SeenFilled(m, MsgSeen(k, m));
  }

  predicate BuffersFilled(m: Msg) { forall i :: 0 <= i < |m.buffers| ==> m.buffers[i].Some? && m.buffers[i].value != [] }

  lemma SeenFilled(m: Msg, seen: Msg)
    requires |seen.buffers| == |m.buffers| && forall i :: 0 <= i < |m.buffers| ==> seen.buffers[i] == BufferSeen(m.buffers[i])
    ensures Announced(seen).Some? <==> BuffersFilled(m)
  {
    AnnouncedIff(seen);
    forall i | 0 <= i < |m.buffers| ensures seen.buffers[i].Some? <==> m.buffers[i].Some? && m.buffers[i].value != [] {
    }
    assert BuffersThere(seen.buffers) <==> BuffersFilled(m);
  }

  /** A message with nothing in it but a NULL buffer. */
  function Hollow(): Msg { Msg([], [], [], [], [], [], [], [], [], [], [], [], [], [None]) }

  /** The value is one that comes back as it is. */
  ghost predicate Keeps<T>(c: Codec<T>, x: T) { c.ranged(x) && c.whole(x) && c.seen(x) == x }

  lemma KeepsNothing<T>(c: Codec<T>)
    ensures Keeps(Many(c, 0), [])
  {
  }

  lemma KeepsOne<T>(c: Codec<T>, x: T)
    requires Keeps(c, x)
    ensures Keeps(Many(c, 1), [x])
  {
    assert Seen(c.seen, [x]) == [x];
  }

  lemma KeepsThree<A, B, C>(a: Codec<A>, b: Codec<B>, c: Codec<C>, x: (A, B, C))
    requires Keeps(a, x.0) && Keeps(b, x.1) && Keeps(c, x.2)
    ensures Keeps(Three(a, b, c), x)
  {
    ThreeIs(a, b, c, x);
  }

  lemma KeepsFour<A, B, C, D>(a: Codec<A>, b: Codec<B>, c: Codec<C>, d: Codec<D>, x: (A, B, C, D))
    requires Keeps(a, x.0) && Keeps(b, x.1) && Keeps(c, x.2) && Keeps(d, x.3)
    ensures Keeps(Four(a, b, c, d), x)
  {
    FourIs(a, b, c, d, x);
  }

  lemma HollowHead(k: Kinds, l: Layout)
    requires l == LayoutOf(Hollow())
    ensures Keeps(HeadOfMsg(k, l), ([], [], []))
  {
    KeepsNothing(k.names);
    KeepsNothing(k.strings);
    KeepsThree(Copied(l.copylen), Many(k.names, l.names), Many(k.strings, l.strings), ([], [], []));
  }

  lemma HollowConfigs(k: Kinds, l: Layout)
    requires l == LayoutOf(Hollow())
    ensures Keeps(ConfigsOf(k, l), ([], [], [], []))
  {
    KeepsNothing(Ptr(k.flowSpecs));
    KeepsNothing(Ptr(k.difs));
    KeepsNothing(Ptr(k.dtps));
    KeepsNothing(Ptr(k.dtcps));
    KeepsFour(Pointers(k.flowSpecs, 0), Pointers(k.difs, 0), Pointers(k.dtps, 0), Pointers(k.dtcps, 0), ([], [], [], []));
  }

  lemma HollowTables(k: Kinds, l: Layout)
    requires l == LayoutOf(Hollow())
    ensures Keeps(TablesOf(k, l), ([], [], [], []))
  {
    KeepsNothing(Ptr(k.ribs));
    KeepsNothing(Ptr(k.pffs));
    KeepsNothing(Ptr(k.cryptos));
    KeepsNothing(Ptr(k.properties));
    KeepsFour(Pointers(k.ribs, 0), Pointers(k.pffs, 0), Pointers(k.cryptos, 0), Pointers(k.properties, 0), ([], [], [], []));
  }

  lemma HollowRest(k: Kinds, l: Layout)
    requires l == LayoutOf(Hollow()) && Keeps(k.buffers, None)
    ensures Keeps(RestOf(k, l), ([], [], [None]))
  {
    KeepsNothing(Ptr(k.neighbours));
    KeepsNothing(Ptr(k.reports));
    KeepsOne(k.buffers, None);
    KeepsThree(Pointers(k.neighbours, 0), Pointers(k.reports, 0), Many(k.buffers, 1), ([], [], [None]));
  }

  lemma HollowFrom(a: Codec<Head>, b: Codec<Configs>, c: Codec<Tables>, d: Codec<Rest>)
    requires Keeps(a, ([], [], [])) && Keeps(b, ([], [], [], [])) && Keeps(c, ([], [], [], [])) && Keeps(d, ([], [], [None]))
    ensures Keeps(Struct(Four(a, b, c, d), MsgPartsOf, BuildMsg, MsgLen), Hollow())
  {
    KeepsFour(a, b, c, d, MsgPartsOf(Hollow()));
    StructIs(Four(a, b, c, d), MsgPartsOf, BuildMsg, MsgLen, Hollow());
  }

  lemma HollowKept(k: Kinds, l: Layout)
    requires l == LayoutOf(Hollow()) && Keeps(k.buffers, None)
    ensures Keeps(MessagesOf(k, l), Hollow())
  {
    HollowHead(k, l);
    HollowConfigs(k, l);
    HollowTables(k, l);
    HollowRest(k, l);
    HollowFrom(HeadOfMsg(k, l), ConfigsOf(k, l), TablesOf(k, l), RestOf(k, l));
  }

  /** The message has no announced length, and no NULL name. */
  predicate Unannounced(m: Msg) { NoNullName(m) && Announced(m) == None }

  ghost predicate ComesBack(k: Kinds, m: Msg) { ReadMsg(k, LayoutOf(m), MsgBytes(k, m, [])) == Some(m) }

  lemma KeptComesBack(k: Kinds, m: Msg)
    requires Sound(k) && Keeps(MessagesOf(k, LayoutOf(m)), m)
    ensures ComesBack(k, m)
  {
    SoundRoundTrip(k, m, []);
  }

  lemma HollowComesBack(k: Kinds, m: Msg)
    requires Sound(k) && k.buffers == Buffers() && m == Hollow()
    ensures ComesBack(k, m)
  {
    assert Keeps(k.buffers, None);
    HollowKept(k, LayoutOf(m));
    KeptComesBack(k, m);
  }

  lemma HollowUnannounced()
    ensures Unannounced(Hollow())
  {
    AnnouncedIff(Hollow());
    assert Hollow().buffers[0].None?;
  }

  /**
   A message that comes back from its bytes, with no NULL name in it, need not have an announced length: one of nothing
   but a NULL buffer has none.
   */
  lemma NullBufferUnannounced(k: Kinds) returns (m: Msg)
    requires Sound(k) && k.buffers == Buffers()
    ensures Unannounced(m) && ComesBack(k, m)
  {
    m := Hollow();
    HollowUnannounced();
    HollowComesBack(k, m);
  }

  /**
   Message round trip: with NULL strings seen as empty ones, empty buffers as NULL and three policies of flow control in
   each other's places, a message comes back from its bytes exactly if its numbers and counts are in range and nothing
   in it is NULL that the reader expects; and with anything behind it, it is refused.
   */
  lemma MsgRoundTrip(k: Kinds, m: Msg, tail: seq<Octet>)
    requires AsInSource(k)
    ensures ReadMsg(k, LayoutOf(m), MsgBytes(k, m, [])) == Some(MsgSeen(k, m)) <==> InRange(k, m) && Whole(k, m)
    ensures InRange(k, m) && Whole(k, m) && tail != [] ==> ReadMsg(k, LayoutOf(m), MsgBytes(k, m, tail)) == None
  {
    SourceIsSound(k);
    SoundRoundTrip(k, m, tail);
  }

  /** From whatever bytes, the reader never makes a NULL, nor a number or a count out of range. */
  lemma ReadMsgGives(k: Kinds, l: Layout, bs: seq<Octet>)
    requires AsInSource(k)
    ensures ReadsOnlyWhole(k, l, bs)
  {
    SourceIsSound(k);
    SoundReads(k, l, bs);
  }
}
