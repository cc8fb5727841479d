/**
 What a message should come back as, with every policy in its own place, and exactly when it does: the three policies
 of flow control that change places do so wherever a DTCP configuration is, inside a quality-of-service cube too.
 */
module MsgMeant {
  import opened EfcpTypes
  import opened PciAccess
  import opened MsgCodec
  import opened MsgCombine
  import opened MsgConfigs
  import opened MsgDifs
  import opened IratiMsg

  /** Flow control, where there is any, has the same policy in the three places. */
  ghost predicate StraightDtcp(c: DtcpConfig) { c.flowCtrl && c.fctrl.Some? ==> SamePolicies(c.fctrl.value) }

  ghost predicate StraightCube(q: QosCube) { q.dtcp.Some? ==> StraightDtcp(q.dtcp.value) }

  ghost predicate StraightCubes(qs: seq<Option<QosCube>>) {
    forall i :: 0 <= i < |qs| && qs[i].Some? ==> StraightCube(qs[i].value)
  }

  ghost predicate StraightEfcp(e: EfcpConfig) { StraightCubes(e.cubes) }

  ghost predicate StraightDif(d: DifConfig) { d.efcp.Some? ==> StraightEfcp(d.efcp.value) }

  ghost predicate StraightDtcps(xs: seq<Option<DtcpConfig>>) {
    forall i :: 0 <= i < |xs| && xs[i].Some? ==> StraightDtcp(xs[i].value)
  }

  ghost predicate StraightDifs(xs: seq<Option<DifConfig>>) {
    forall i :: 0 <= i < |xs| && xs[i].Some? ==> StraightDif(xs[i].value)
  }

  /** Every DTCP configuration of the message, at any depth, is straight. */
  ghost predicate StraightMsg(m: Msg) { StraightDtcps(m.dtcps) && StraightDifs(m.difs) }

  // ---------------------------------------------------------------- what was meant

  /** What came back put right, given what was sent: `put` does so for one value. */
  function PtrPut<T>(put: (T, T) -> T, back: Option<T>, sent: Option<T>): Option<T> {
    if back.Some? && sent.Some? then Some(put(back.value, sent.value)) else back
  }

  function ListPut<T>(put: (T, T) -> T, back: seq<Option<T>>, sent: seq<Option<T>>): seq<Option<T>> {
    seq(|back|, i requires 0 <= i < |back| => if i < |sent| then PtrPut(put, back[i], sent[i]) else back[i])
  }

  function DtcpPut(back: DtcpConfig, sent: DtcpConfig): DtcpConfig { DtcpMeant(sent) }

  function CubePut(back: QosCube, sent: QosCube): QosCube { back.(dtcp := PtrPut(DtcpPut, back.dtcp, sent.dtcp)) }

  function EfcpPut(back: EfcpConfig, sent: EfcpConfig): EfcpConfig { back.(cubes := ListPut(CubePut, back.cubes, sent.cubes)) }

  function DifPut(back: DifConfig, sent: DifConfig): DifConfig { back.(efcp := PtrPut(EfcpPut, back.efcp, sent.efcp)) }

  /** The message that came back, with every DTCP configuration in it as it was meant. */
  function MsgPut(back: Msg, sent: Msg): Msg {
    back.(dtcps := ListPut(DtcpPut, back.dtcps, sent.dtcps), difs := ListPut(DifPut, back.difs, sent.difs))
  }

  // ---------------------------------------------------------------- exactly when it comes back so

  ghost predicate DtcpsTurn(c: Codec<DtcpConfig>) { forall x: DtcpConfig :: c.seen(x) == DtcpMeant(x) <==> StraightDtcp(x) }

  ghost predicate CubesTurn(c: Codec<QosCube>) { forall x: QosCube :: c.seen(x) == CubePut(c.seen(x), x) <==> StraightCube(x) }

  ghost predicate EfcpsTurn(c: Codec<EfcpConfig>) { forall x: EfcpConfig :: c.seen(x) == EfcpPut(c.seen(x), x) <==> StraightEfcp(x) }

  ghost predicate DifsTurn(c: Codec<DifConfig>) { forall x: DifConfig :: c.seen(x) == DifPut(c.seen(x), x) <==> StraightDif(x) }

  lemma PtrTurns<T>(c: Codec<T>, put: (T, T) -> T, x: Option<T>)
    ensures Ptr(c).seen(x).Some? <==> x.Some?
    ensures Ptr(c).seen(x) == PtrPut(put, Ptr(c).seen(x), x) <==> (x.Some? ==> c.seen(x.value) == put(c.seen(x.value), x.value))
  {
    if x.Some? {
      assert Ptr(c).seen(x) == Some(c.seen(x.value));
    }
  }

  lemma ListTurns<T>(c: Codec<T>, put: (T, T) -> T, xs: seq<Option<T>>)
    ensures var back := Seen(Ptr(c).seen, xs);
            back == ListPut(put, back, xs)
            <==> forall i :: 0 <= i < |xs| && xs[i].Some? ==> c.seen(xs[i].value) == put(c.seen(xs[i].value), xs[i].value)
  {
    var back := Seen(Ptr(c).seen, xs);
    forall i | 0 <= i < |xs|
      ensures back[i] == PtrPut(put, back[i], xs[i]) <==> (xs[i].Some? ==> c.seen(xs[i].value) == put(c.seen(xs[i].value), xs[i].value))
    {
      PtrTurns(c, put, xs[i]);
    }
    if back == ListPut(put, back, xs) {
      forall i | 0 <= i < |xs| ensures back[i] == PtrPut(put, back[i], xs[i]) {
        assert ListPut(put, back, xs)[i] == PtrPut(put, back[i], xs[i]);
      }
    }
  }

  lemma CubeTurns(c: Codec<QosCube>, dtcp: Codec<DtcpConfig>, x: QosCube)
    requires DtcpsTurn(dtcp) && c.seen(x).dtcp == Ptr(dtcp).seen(x.dtcp)
    ensures c.seen(x) == CubePut(c.seen(x), x) <==> StraightCube(x)
  {
    PtrTurns(dtcp, DtcpPut, x.dtcp);
  }

  lemma CubesTurnFrom(nums: Codec<CubeNumbers>, text: Codec<Text>, dtp: Codec<Option<DtpConfig>>, dtcp: Codec<DtcpConfig>)
    requires DtcpsTurn(dtcp)
    ensures CubesTurn(Struct(Four(nums, text, dtp, Ptr(dtcp)), CubePartsOf, BuildCube, CubeLen))
  {
    var e := Four(nums, text, dtp, Ptr(dtcp));
    var c := Struct(e, CubePartsOf, BuildCube, CubeLen);
    forall x: QosCube ensures c.seen(x) == CubePut(c.seen(x), x) <==> StraightCube(x) {
      StructIs(e, CubePartsOf, BuildCube, CubeLen, x);
      FourIs(nums, text, dtp, Ptr(dtcp), CubePartsOf(x));
      CubeTurns(c, dtcp, x);
    }
  }

  lemma CubeListTurns(cube: Codec<QosCube>, xs: seq<Option<QosCube>>)
    requires CubesTurn(cube)
    ensures var back := Seen(Ptr(cube).seen, xs); back == ListPut(CubePut, back, xs) <==> StraightCubes(xs)
  {
    ListTurns(cube, CubePut, xs);
  }

  lemma EfcpTurns(c: Codec<EfcpConfig>, cube: Codec<QosCube>, x: EfcpConfig)
    requires CubesTurn(cube) && c.seen(x).cubes == Seen(Ptr(cube).seen, x.cubes)
    ensures c.seen(x) == EfcpPut(c.seen(x), x) <==> StraightEfcp(x)
  {
    CubeListTurns(cube, x.cubes);
  }

  lemma EfcpsTurnFrom(consts: Codec<Option<Constants>>, pol: Codec<Option<Policy>>, table: Codec<Option<nat>>, cube: Codec<QosCube>)
    requires CubesTurn(cube)
    ensures EfcpsTurn(Struct(Four(consts, pol, table, ListOf(Ptr(cube))), EfcpPartsOf, BuildEfcp, EfcpLen))
  {
    var e := Four(consts, pol, table, ListOf(Ptr(cube)));
    var c := Struct(e, EfcpPartsOf, BuildEfcp, EfcpLen);
    forall x: EfcpConfig ensures c.seen(x) == EfcpPut(c.seen(x), x) <==> StraightEfcp(x) {
      StructIs(e, EfcpPartsOf, BuildEfcp, EfcpLen, x);
      FourIs(consts, pol, table, ListOf(Ptr(cube)), EfcpPartsOf(x));
      EfcpTurns(c, cube, x);
    }
  }

  lemma DifTurns(c: Codec<DifConfig>, efcp: Codec<EfcpConfig>, x: DifConfig)
    requires EfcpsTurn(efcp) && c.seen(x).efcp == Ptr(efcp).seen(x.efcp)
    ensures c.seen(x) == DifPut(c.seen(x), x) <==> StraightDif(x)
  {
    PtrTurns(efcp, EfcpPut, x.efcp);
  }

  lemma DifEfcp(n4: Codec<nat>, entries: Codec<seq<Option<ConfigEntry>>>, upper: Codec<DifUpper>, lower: Codec<DifLower>, x: DifConfig)
    ensures Struct(Four(n4, entries, upper, lower), DifPartsOf, BuildDif, DifLen).seen(x).efcp == upper.seen(DifPartsOf(x).2).0
  {
    StructIs(Four(n4, entries, upper, lower), DifPartsOf, BuildDif, DifLen, x);
    FourIs(n4, entries, upper, lower, DifPartsOf(x));
  }

  lemma DifsTurnFrom(
      n4: Codec<nat>, entries: Codec<seq<Option<ConfigEntry>>>, efcp: Codec<EfcpConfig>, upper: Codec<DifUpper>, lower: Codec<DifLower>)
    requires EfcpsTurn(efcp) && forall u: DifUpper :: upper.seen(u).0 == Ptr(efcp).seen(u.0)
    ensures DifsTurn(Struct(Four(n4, entries, upper, lower), DifPartsOf, BuildDif, DifLen))
  {
    var c := Struct(Four(n4, entries, upper, lower), DifPartsOf, BuildDif, DifLen);
    forall x: DifConfig ensures c.seen(x) == DifPut(c.seen(x), x) <==> StraightDif(x) {
      DifEfcp(n4, entries, upper, lower, x);
      DifTurns(c, efcp, x);
    }
  }

  lemma UpperEfcp(efcp: Codec<EfcpConfig>, rmt: Codec<Option<RmtConfig>>, fa: Codec<Option<FaConfig>>, et: Codec<Option<OnePolicy>>)
    ensures forall u: DifUpper :: Four(Ptr(efcp), rmt, fa, et).seen(u).0 == Ptr(efcp).seen(u.0)
  {
    forall u: DifUpper ensures Four(Ptr(efcp), rmt, fa, et).seen(u).0 == Ptr(efcp).seen(u.0) {
      FourIs(Ptr(efcp), rmt, fa, et, u);
    }
  }

  // ---------------------------------------------------------------- messages

  lemma MsgSeenFrom(k: Kinds, m: Msg)
    ensures MsgSeen(k, m).dtcps == Seen(Ptr(k.dtcps).seen, m.dtcps) && MsgSeen(k, m).difs == Seen(Ptr(k.difs).seen, m.difs)
  {
    var l := LayoutOf(m);
    var a, b, c, d := HeadOfMsg(k, l), ConfigsOf(k, l), TablesOf(k, l), RestOf(k, l);
    StructIs(Four(a, b, c, d), MsgPartsOf, BuildMsg, MsgLen, m);
    FourIs(a, b, c, d, MsgPartsOf(m));
    FourIs(Pointers(k.flowSpecs, l.flowSpecs), Pointers(k.difs, l.difs), Pointers(k.dtps, l.dtps), Pointers(k.dtcps, l.dtcps),
           MsgPartsOf(m).1);
  }

  lemma DtcpListTurns(dtcp: Codec<DtcpConfig>, xs: seq<Option<DtcpConfig>>)
    requires DtcpsTurn(dtcp)
    ensures var back := Seen(Ptr(dtcp).seen, xs); back == ListPut(DtcpPut, back, xs) <==> StraightDtcps(xs)
  {
    ListTurns(dtcp, DtcpPut, xs);
  }

  lemma DifListTurns(dif: Codec<DifConfig>, xs: seq<Option<DifConfig>>)
    requires DifsTurn(dif)
    ensures var back := Seen(Ptr(dif).seen, xs); back == ListPut(DifPut, back, xs) <==> StraightDifs(xs)
  {
    ListTurns(dif, DifPut, xs);
  }

  ghost predicate Turning(k: Kinds) { DtcpsTurn(k.dtcps) && DifsTurn(k.difs) }

  lemma MsgTurns(k: Kinds, m: Msg)
    requires Turning(k)
    ensures MsgSeen(k, m) == MsgPut(MsgSeen(k, m), m) <==> StraightMsg(m)
  {
    MsgSeenFrom(k, m);
    DtcpListTurns(k.dtcps, m.dtcps);
    DifListTurns(k.difs, m.difs);
  }

  /** The message is read from its bytes, with every DTCP configuration in it as it was meant. */
  ghost predicate ComesBackAsMeant(k: Kinds, m: Msg) {
    ReadMsg(k, LayoutOf(m), MsgBytes(k, m, [])) == Some(MsgPut(MsgSeen(k, m), m))
  }

  lemma SoundComesBack(k: Kinds, m: Msg)
    requires Sound(k) && Turning(k) && InRange(k, m) && Whole(k, m)
    ensures ComesBackAsMeant(k, m) <==> StraightMsg(m)
  {
    SoundRoundTrip(k, m, []);
    MsgTurns(k, m);
  }

  // ---------------------------------------------------------------- the codecs of the source

  lemma SourceDtcps()
    ensures DtcpsTurn(DtcpConfigs())
  {
    forall c: DtcpConfig ensures DtcpConfigs().seen(c) == DtcpMeant(c) <==> StraightDtcp(c) {
      DtcpComesBack(c);
    }
  }

  /** A cube comes back as it was meant exactly if its DTCP configuration does. */
  lemma CubesComeBack()
    ensures CubesTurn(Cubes())
  {
    SourceDtcps();
    CubesTurnFrom(CubeNums(), Str(), Ptr(DtpConfigs()), DtcpConfigs());
  }

  lemma EfcpsComeBack()
    ensures EfcpsTurn(Efcps())
  {
    CubesComeBack();
    EfcpsTurnFrom(Ptr(AllConstants()), Pol(), Table(), Cubes());
  }

  /** The configuration of a DIF comes back as it was meant exactly if that of every cube in it does. */
  lemma DifsComeBack()
    ensures DifsTurn(Difs())
  {
    EfcpsComeBack();
    UpperEfcp(Efcps(), Ptr(Rmts()), Ptr(Fas()), Ptr(OnePolicies()));
    DifsTurnFrom(Num(4), ListOf(Ptr(ConfigEntries())), Efcps(), Upper(), Lower());
  }

  lemma SourceTurns(k: Kinds)
    requires k.dtcps == DtcpConfigs() && k.difs == Difs()
    ensures Turning(k)
  {
    SourceDtcps();
    DifsComeBack();
  }

  /**
   A message comes back from its bytes as it was meant exactly if every DTCP configuration in it, also those inside the
   cubes of a DIF, has no flow control or the same policy in the three places that are mixed up.
   */
  lemma MsgComesBack(k: Kinds, m: Msg)
    requires AsInSource(k) && InRange(k, m) && Whole(k, m)
    ensures ComesBackAsMeant(k, m) <==> StraightMsg(m)
  {
    SourceIsSound(k);
    SourceTurns(k);
    SoundComesBack(k, m);
  }
}
