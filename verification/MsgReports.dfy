/** Serialisation of the messages that carry names: neighbour lists; and of media reports, lists inside lists. */
module MsgReports {
  import opened EfcpTypes
  import opened PciAccess
  import opened MsgCodec
  import opened MsgCombine

  // ---------------------------------------------------------------- neighbours

  datatype Neighbour = Neighbour(
    address: nat, oldAddress: nat, averageRtt: nat, enrollAttempts: nat,
    enrolled: bool, underPortId: nat, internPortId: nat, lastHeard: nat,
    ipcpName: Option<Name>, supDifName: Option<Name>, supportingDifs: seq<Option<Name>>)

  type NeighbourNames = (Option<Name>, Option<Name>, seq<Option<Name>>)

  type NeighbourParts = ((nat, nat, nat, nat), (bool, nat, nat, nat), NeighbourNames)

  function NeighbourPartsOf(n: Neighbour): NeighbourParts {
    ((n.address, n.oldAddress, n.averageRtt, n.enrollAttempts), (n.enrolled, n.underPortId, n.internPortId, n.lastHeard),
     (n.ipcpName, n.supDifName, n.supportingDifs))
  }

  function BuildNeighbour(p: NeighbourParts): Neighbour {
    Neighbour(p.0.0, p.0.1, p.0.2, p.0.3, p.1.0, p.1.1, p.1.2, p.1.3, p.2.0, p.2.1, p.2.2)
  }

  function NeighbourLen(n: Neighbour): nat {
    4 * 4 + 1 + 3 * 4 + 2 + NameLen(n.ipcpName) + NameLen(n.supDifName) + Total(NameLen, n.supportingDifs)
  }

  function NamesLen(t: NeighbourNames): nat { NameLen(t.0) + NameLen(t.1) + ListLen(NameLen, t.2) }

  predicate AllPresent(ns: seq<Option<Name>>) { forall i :: 0 <= i < |ns| ==> Present(ns[i]) }

  /** No name of the neighbour is NULL. */
  predicate Named(n: Neighbour) { Present(n.ipcpName) && Present(n.supDifName) && AllPresent(n.supportingDifs) }

  function NeighbourTail(): Codec<NeighbourNames> { Three(Names(), Names(), ListOf(Names())) }

  function Neighbours(): Codec<Neighbour> {
    Struct(Three(Four(Num(4), Num(4), Num(4), Num(4)), Four(Flag(), Num(4), Num(4), Num(4)), NeighbourTail()),
           NeighbourPartsOf, BuildNeighbour, NeighbourLen)
  }

  /** Lengths, exactness and wholeness of the names of a neighbour. */
  ghost predicate TailOf(c: Codec<NeighbourNames>) {
    && Sized(c, NamesLen)
    && (forall t :: (c.exact(t) <==> Present(t.0) && Present(t.1) && AllPresent(t.2))
                    && (c.whole(t) <==> Present(t.0) && Present(t.1) && AllPresent(t.2)))
  }

  ghost predicate NamePtr(c: Codec<Option<Name>>) {
    Sized(c, NameLen) && forall n :: (c.exact(n) <==> Present(n)) && (c.whole(n) <==> Present(n))
  }

  lemma NameListIs(name: Codec<Option<Name>>, ns: seq<Option<Name>>)
    requires NamePtr(name)
    ensures var c := ListOf(name); (c.exact(ns) <==> AllPresent(ns)) && (c.whole(ns) <==> AllPresent(ns))
  {
    assert Each(name.exact, ns) <==> AllPresent(ns);
    assert Each(name.whole, ns) <==> AllPresent(ns);
  }

  lemma TailFrom(name: Codec<Option<Name>>)
    requires NamePtr(name)
    ensures TailOf(Three(name, name, ListOf(name)))
  {
    var list := ListOf(name);
    ListSized(name, NameLen);
    ThreeLawful(name, name, list);
    forall t: NeighbourNames
      ensures Three(name, name, list).len(t) == NamesLen(t)
      ensures Three(name, name, list).exact(t) <==> Present(t.0) && Present(t.1) && AllPresent(t.2)
      ensures Three(name, name, list).whole(t) <==> Present(t.0) && Present(t.1) && AllPresent(t.2)
    {
      ThreeIs(name, name, list, t);
      NameListIs(name, t.2);
    }
  }

  ghost predicate NeighbourLaws(c: Codec<Neighbour>) {
    Sized(c, NeighbourLen) && forall n :: (c.exact(n) <==> Named(n)) && (c.whole(n) <==> Named(n))
  }

  lemma NeighbourFrom(a: Codec<(nat, nat, nat, nat)>, b: Codec<(bool, nat, nat, nat)>, c: Codec<NeighbourNames>)
    requires Plain(a, 16) && Plain(b, 13) && TailOf(c)
    ensures NeighbourLaws(Struct(Three(a, b, c), NeighbourPartsOf, BuildNeighbour, NeighbourLen))
  {
    var e := Three(a, b, c);
    ThreeLawful(a, b, c);
    forall n: Neighbour ensures NeighbourLen(n) == e.len(NeighbourPartsOf(n)) { ThreeIs(a, b, c, NeighbourPartsOf(n)); }
    StructSized(e, NeighbourPartsOf, BuildNeighbour, NeighbourLen);
    forall n: Neighbour
      ensures var s := Struct(e, NeighbourPartsOf, BuildNeighbour, NeighbourLen); (s.exact(n) <==> Named(n)) && (s.whole(n) <==> Named(n))
    {
      StructIs(e, NeighbourPartsOf, BuildNeighbour, NeighbourLen, n);
      ThreeIs(a, b, c, NeighbourPartsOf(n));
    }
  }

  /** A neighbour comes back exactly if none of its names is NULL, and then takes exactly the announced room. */
  lemma NeighbourRoundTrip()
    ensures NeighbourLaws(Neighbours())
  {
    NumPlain(4);
    FlagPlain();
    FourPlain(Num(4), 4, Num(4), 4, Num(4), 4, Num(4), 4);
    FourPlain(Flag(), 1, Num(4), 4, Num(4), 4, Num(4), 4);
    NamesLawful();
    TailFrom(Names());
    NeighbourFrom(Four(Num(4), Num(4), Num(4), Num(4)), Four(Flag(), Num(4), Num(4), Num(4)), NeighbourTail());
  }

  /** An entry of the list may be NULL. */
  type NeighbourList = seq<Option<Neighbour>>

  function NeighbourPtrLen(n: Option<Neighbour>): nat { PtrLen(NeighbourLen, n) }

  function NeighbourListLen(l: NeighbourList): nat { 2 + Total(NeighbourPtrLen, l) }

  function NeighbourLists(): Codec<NeighbourList> { ListOf(Ptr(Neighbours())) }

  predicate AllNamed(l: NeighbourList) { forall i :: 0 <= i < |l| ==> l[i].Some? ==> Named(l[i].value) }

  predicate AllThere(l: NeighbourList) { forall i :: 0 <= i < |l| ==> l[i].Some? }

  ghost predicate NeighbourListLaws(c: Codec<NeighbourList>) {
    Sized(c, NeighbourListLen) && forall l :: (c.exact(l) <==> AllNamed(l)) && (c.whole(l) <==> AllThere(l) && AllNamed(l))
  }

  lemma NeighbourPtrIs(c: Codec<Neighbour>, x: Option<Neighbour>)
    requires NeighbourLaws(c)
    ensures Ptr(c).exact(x) <==> (x.Some? ==> Named(x.value))
    ensures Ptr(c).whole(x) <==> x.Some? && Named(x.value)
  {
    if x.Some? {
      assert Ptr(c).exact(x) == c.exact(x.value) && Ptr(c).whole(x) == c.whole(x.value);
    }
  }

  lemma NeighbourListIs(c: Codec<Neighbour>, l: NeighbourList)
    requires NeighbourLaws(c)
    ensures var e := ListOf(Ptr(c)); (e.exact(l) <==> AllNamed(l)) && (e.whole(l) <==> AllThere(l) && AllNamed(l))
  {
    forall i | 0 <= i < |l|
      ensures Ptr(c).exact(l[i]) <==> (l[i].Some? ==> Named(l[i].value))
      ensures Ptr(c).whole(l[i]) <==> l[i].Some? && Named(l[i].value)
    {
      NeighbourPtrIs(c, l[i]);
    }
    assert Each(Ptr(c).exact, l) <==> AllNamed(l);
    assert Each(Ptr(c).whole, l) <==> AllThere(l) && AllNamed(l);
  }

  lemma NeighbourListFrom(c: Codec<Neighbour>)
    requires NeighbourLaws(c)
    ensures NeighbourListLaws(ListOf(Ptr(c)))
  {
    PtrSized(c, NeighbourLen);
    assert Sized(Ptr(c), NeighbourPtrLen);
    ListSized(Ptr(c), NeighbourPtrLen);
    forall l: NeighbourList
      ensures var e := ListOf(Ptr(c)); (e.exact(l) <==> AllNamed(l)) && (e.whole(l) <==> AllThere(l) && AllNamed(l))
    {
      NeighbourListIs(c, l);
    }
  }

  /** A neighbour list comes back exactly if no entry and no name in it is NULL; the announced room is exact if no name is. */
  lemma NeighbourListRoundTrip()
    ensures NeighbourListLaws(NeighbourLists())
  {
    NeighbourRoundTrip();
    NeighbourListFrom(Neighbours());
  }

  // ---------------------------------------------------------------- media reports

  datatype BsInfo = BsInfo(signalStrength: nat, ipcpAddr: Text)

  function BsInfoParts(b: BsInfo): (nat, Text) { (b.signalStrength, b.ipcpAddr) }

  function BuildBsInfo(p: (nat, Text)): BsInfo { BsInfo(p.0, p.1) }

  function BsInfoLen(b: BsInfo): nat { 4 + 2 + StringLen(b.ipcpAddr) }

  function BsInfos(): Codec<BsInfo> { Struct(Two(Num(4), Str()), BsInfoParts, BuildBsInfo, BsInfoLen) }

  lemma BsInfoFrom(n4: Codec<nat>, text: Codec<Text>)
    requires Plain(n4, 4) && Measured(text, TextLen)
    ensures Measured(Struct(Two(n4, text), BsInfoParts, BuildBsInfo, BsInfoLen), BsInfoLen)
  {
    TwoLawful(n4, text);
    forall x: BsInfo ensures BsInfoLen(x) == Two(n4, text).len(BsInfoParts(x)) { TwoIs(n4, text, BsInfoParts(x)); }
    StructMeasured(Two(n4, text), BsInfoParts, BuildBsInfo, BsInfoLen);
  }

  /** What is known of a DIF. */
  datatype MediaInfo = MediaInfo(difName: Text, secPolicies: Text, stations: seq<BsInfo>)

  function MediaInfoParts(d: MediaInfo): (Text, Text, seq<BsInfo>) { (d.difName, d.secPolicies, d.stations) }

  function BuildMediaInfo(p: (Text, Text, seq<BsInfo>)): MediaInfo { MediaInfo(p.0, p.1, p.2) }

  function MediaInfoLen(d: MediaInfo): nat { 3 * 2 + StringLen(d.difName) + StringLen(d.secPolicies) + Total(BsInfoLen, d.stations) }

  function MediaInfos(): Codec<MediaInfo> { Struct(Three(Str(), Str(), ListOf(BsInfos())), MediaInfoParts, BuildMediaInfo, MediaInfoLen) }

  /** Nothing in the value can be NULL. */
  ghost predicate NeverNull<T(!new)>(c: Codec<T>) { forall x :: c.whole(x) }

  lemma BsInfoNeverNull(n4: Codec<nat>, text: Codec<Text>)
    requires NeverNull(n4) && NeverNull(text)
    ensures NeverNull(Struct(Two(n4, text), BsInfoParts, BuildBsInfo, BsInfoLen))
  {
    forall x: BsInfo ensures Struct(Two(n4, text), BsInfoParts, BuildBsInfo, BsInfoLen).whole(x) {
      StructIs(Two(n4, text), BsInfoParts, BuildBsInfo, BsInfoLen, x);
      TwoIs(n4, text, BsInfoParts(x));
    }
  }

  lemma MediaInfoFrom(text: Codec<Text>, list: Codec<seq<BsInfo>>)
    requires Measured(text, TextLen) && Measured(list, xs => ListLen(BsInfoLen, xs)) && NeverNull(text) && NeverNull(list)
    ensures var c := Struct(Three(text, text, list), MediaInfoParts, BuildMediaInfo, MediaInfoLen);
            Measured(c, MediaInfoLen) && NeverNull(c)
  {
    var e := Three(text, text, list);
    ThreeLawful(text, text, list);
    forall x: MediaInfo ensures MediaInfoLen(x) == e.len(MediaInfoParts(x)) && e.whole(MediaInfoParts(x)) {
      ThreeIs(text, text, list, MediaInfoParts(x));
    }
    StructMeasured(e, MediaInfoParts, BuildMediaInfo, MediaInfoLen);
    forall x: MediaInfo ensures Struct(e, MediaInfoParts, BuildMediaInfo, MediaInfoLen).whole(x) {
      StructIs(e, MediaInfoParts, BuildMediaInfo, MediaInfoLen, x);
    }
  }

  /** What is known of a DIF always comes back, in exactly the announced room. */
  lemma MediaInfoRoundTrip()
    ensures Measured(MediaInfos(), MediaInfoLen) && NeverNull(MediaInfos())
  {
    NumPlain(4);
    StrLawful();
    BsInfoFrom(Num(4), Str());
    BsInfoNeverNull(Num(4), Str());
    ListMeasured(BsInfos(), BsInfoLen);
    assert NeverNull(ListOf(BsInfos()));
    MediaInfoFrom(Str(), ListOf(BsInfos()));
  }

  /** An entry of a report: the name of a DIF, and what is known of it, which may be NULL. */
  datatype MediaDif = MediaDif(key: Text, info: Option<MediaInfo>)

  function MediaDifParts(d: MediaDif): (Text, Option<MediaInfo>) { (d.key, d.info) }

  function BuildMediaDif(p: (Text, Option<MediaInfo>)): MediaDif { MediaDif(p.0, p.1) }

  function MediaDifLen(d: MediaDif): nat { 2 + StringLen(d.key) + PtrLen(MediaInfoLen, d.info) }

  function MediaDifs(): Codec<MediaDif> { Struct(Two(Str(), Ptr(MediaInfos())), MediaDifParts, BuildMediaDif, MediaDifLen) }

  ghost predicate MediaDifLaws(c: Codec<MediaDif>) { Measured(c, MediaDifLen) && forall d :: c.whole(d) <==> d.info.Some? }

  lemma MediaDifFrom(text: Codec<Text>, info: Codec<Option<MediaInfo>>)
    requires Measured(text, TextLen) && NeverNull(text)
    requires Measured(info, x => PtrLen(MediaInfoLen, x)) && forall x :: info.whole(x) <==> x.Some?
    ensures MediaDifLaws(Struct(Two(text, info), MediaDifParts, BuildMediaDif, MediaDifLen))
  {
    var e := Two(text, info);
    TwoLawful(text, info);
    forall x: MediaDif ensures MediaDifLen(x) == e.len(MediaDifParts(x)) && (e.whole(MediaDifParts(x)) <==> x.info.Some?) {
      TwoIs(text, info, MediaDifParts(x));
    }
    StructMeasured(e, MediaDifParts, BuildMediaDif, MediaDifLen);
    forall x: MediaDif ensures Struct(e, MediaDifParts, BuildMediaDif, MediaDifLen).whole(x) <==> x.info.Some? {
      StructIs(e, MediaDifParts, BuildMediaDif, MediaDifLen, x);
    }
  }

  lemma InfoPtrIs(c: Codec<MediaInfo>, x: Option<MediaInfo>)
    requires NeverNull(c)
    ensures Ptr(c).whole(x) <==> x.Some?
  {
    if x.Some? {
      assert Ptr(c).whole(x) == c.whole(x.value);
    }
  }

  /** An entry comes back exactly if what is known of the DIF is there. */
  lemma MediaDifRoundTrip()
    ensures MediaDifLaws(MediaDifs())
  {
    StrLawful();
    MediaInfoRoundTrip();
    PtrMeasured(MediaInfos(), MediaInfoLen);
    forall x: Option<MediaInfo> ensures Ptr(MediaInfos()).whole(x) <==> x.Some? { InfoPtrIs(MediaInfos(), x); }
    MediaDifFrom(Str(), Ptr(MediaInfos()));
  }

  datatype MediaReport = MediaReport(ipcpId: nat, difName: Text, bsIpcpAddr: Text, difs: seq<MediaDif>)

  type ReportParts = (nat, Text, Text, seq<MediaDif>)

  function ReportPartsOf(m: MediaReport): ReportParts { (m.ipcpId, m.difName, m.bsIpcpAddr, m.difs) }

  function BuildReport(p: ReportParts): MediaReport { MediaReport(p.0, p.1, p.2, p.3) }

  function MediaReportLen(m: MediaReport): nat {
    3 * 2 + StringLen(m.difName) + StringLen(m.bsIpcpAddr) + 2 + Total(MediaDifLen, m.difs)
  }

  function MediaReports(): Codec<MediaReport> {
    Struct(Four(Num(2), Str(), Str(), ListOf(MediaDifs())), ReportPartsOf, BuildReport, MediaReportLen)
  }

  predicate AllKnown(ds: seq<MediaDif>) { forall i :: 0 <= i < |ds| ==> ds[i].info.Some? }

  ghost predicate MediaReportLaws(c: Codec<MediaReport>) { Measured(c, MediaReportLen) && forall m :: c.whole(m) <==> AllKnown(m.difs) }

  lemma MediaReportFrom(n2: Codec<nat>, text: Codec<Text>, list: Codec<seq<MediaDif>>)
    requires Plain(n2, 2) && NeverNull(n2) && Measured(text, TextLen) && NeverNull(text)
    requires Measured(list, xs => ListLen(MediaDifLen, xs)) && forall xs :: list.whole(xs) <==> AllKnown(xs)
    ensures MediaReportLaws(Struct(Four(n2, text, text, list), ReportPartsOf, BuildReport, MediaReportLen))
  {
    var c := Four(n2, text, text, list);
    FourLawful(n2, text, text, list);
    forall x: MediaReport ensures MediaReportLen(x) == c.len(ReportPartsOf(x)) && (c.whole(ReportPartsOf(x)) <==> AllKnown(x.difs)) {
      FourIs(n2, text, text, list, ReportPartsOf(x));
    }
    StructMeasured(c, ReportPartsOf, BuildReport, MediaReportLen);
    forall x: MediaReport ensures Struct(c, ReportPartsOf, BuildReport, MediaReportLen).whole(x) <==> AllKnown(x.difs) {
      StructIs(c, ReportPartsOf, BuildReport, MediaReportLen, x);
    }
  }

  lemma MediaListIs(c: Codec<MediaDif>, ds: seq<MediaDif>)
    requires MediaDifLaws(c)
    ensures ListOf(c).whole(ds) <==> AllKnown(ds)
  {
    assert Each(c.whole, ds) <==> AllKnown(ds);
  }

  /** A media report comes back exactly if every entry of it does, and always takes exactly the announced room. */
  lemma MediaReportRoundTrip()
    ensures MediaReportLaws(MediaReports())
  {
    NumPlain(2);
    StrLawful();
    MediaDifRoundTrip();
    ListMeasured(MediaDifs(), MediaDifLen);
    forall ds: seq<MediaDif> ensures ListOf(MediaDifs()).whole(ds) <==> AllKnown(ds) { MediaListIs(MediaDifs(), ds); }
    MediaReportFrom(Num(2), Str(), ListOf(MediaDifs()));
  }
}
