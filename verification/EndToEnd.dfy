/**
 SDUs from end to end: fragmentation, the reliable protocol over a network that loses, duplicates and
 reorders, and reassembly, put together.
 */
module EndToEnd {
  import opened EfcpTypes
  import opened DtpSender
  import opened EfcpWorld
  import opened EfcpReliable
  import opened Delimiting

  function Wire(udfs: seq<Udf>): (payloads: seq<seq<Octet>>)
    ensures |payloads| == |udfs| && forall i :: 0 <= i < |udfs| ==> payloads[i] == Octets(udfs[i])
  {
    seq(|udfs|, i requires 0 <= i < |udfs| => Octets(udfs[i]))
  }

  ghost predicate AllUdfs(posted: seq<DataPdu>) { forall i :: 0 <= i < |posted| ==> posted[i].data != [] }

  function Udfs(posted: seq<DataPdu>): (udfs: seq<Udf>)
    requires AllUdfs(posted)
    ensures |udfs| == |posted| && forall i :: 0 <= i < |posted| ==> udfs[i] == OfOctets(posted[i].data)
  {
    seq(|posted|, i requires 0 <= i < |posted| => OfOctets(posted[i].data))
  }

  /** PDUs that carry a block of a stream of UDFs are that block again. */
  lemma BlockIsPart(posted: seq<DataPdu>, written: seq<seq<Octet>>, stream: seq<Udf>, k: nat)
    requires written <= Wire(stream) && Block(Payloads(posted), written, k)
    ensures AllUdfs(posted) && k + |posted| <= |stream| && Udfs(posted) == stream[k..k + |posted|]
  {
    forall i | 0 <= i < |posted| ensures posted[i].data == Octets(stream[k + i]) {
      assert posted[i].data == Payloads(posted)[i] == written[k + i];
    }
  }

  /**
   The PDUs carry positions `k` and on of the stream that `sdus` is cut into, and what they are put
   together to is SDUs `a` to `b`: exactly those of which every fragment is among them.
   */
  ghost predicate Reassembled(posted: seq<DataPdu>, sdus: seq<Sdu>, max: nat, k: nat, a: nat, b: nat)
    requires max >= 1
  {
    && AllUdfs(posted) && FirstFrom(sdus, max, k, a) && EndedBy(sdus, max, k + |posted|, b)
    && Feed(IDLE, Udfs(posted)).1 == Span(sdus, a, b)
  }

  lemma BlockReassembled(posted: seq<DataPdu>, written: seq<seq<Octet>>, sdus: seq<Sdu>, max: nat, k: nat)
      returns (a: nat, b: nat)
    requires max >= 1 && written <= Wire(FragmentAll(sdus, max)) && Block(Payloads(posted), written, k)
    ensures Reassembled(posted, sdus, max, k, a, b)
  {
    BlockIsPart(posted, written, FragmentAll(sdus, max), k);
    a, b := FeedBlock(sdus, max, k, k + |posted|);
  }

  /**
   The SDUs handed up by the receiver form a contiguous block of the SDUs written, each of them whole
   and in order: exactly those of which every fragment was posted. It holds after any run, wherever in the
   middle of an SDU the run of data started, and whatever part of the last SDU has been written.
   */
  lemma SdusEndToEnd(cfg: Config, n0: nat, tr: nat, es: seq<Event>, sdus: seq<Sdu>, max: nat)
      returns (a: nat, b: nat)
    requires cfg.rtxCtrl && cfg.maxSduGap == 0 && max >= 1
    requires Runs(cfg, Start(cfg, n0, tr), es) && NoRollover(cfg, Exec(cfg, Start(cfg, n0, tr), es))
    requires Exec(cfg, Start(cfg, n0, tr), es).written <= Wire(FragmentAll(sdus, max))
    ensures var w := Exec(cfg, Start(cfg, n0, tr), es);
            Reassembled(w.posted, sdus, max, RunStart(w), a, b) && (w.posted != [] ==> w.posted[0].sn == n0 + 1 + RunStart(w))
  {
    PostedIsBlock(cfg, n0, tr, es);
    var w := Exec(cfg, Start(cfg, n0, tr), es);
    a, b := BlockReassembled(w.posted, w.written, sdus, max, RunStart(w));
  }
}
