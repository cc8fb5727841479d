/**
 The retransmission queue: PDUs that were transmitted and not yet acknowledged, with the loops
 that push, acknowledge, look up a time stamp and retransmit, each proved against a function on
 the list of entries.
 */
module RtxQueue {
  import opened EfcpTypes
  import opened RateControl

  datatype RtxEntry = RtxEntry(pdu: DataPdu, timeStamp: nat, retries: nat)

  /** One minute, in clock ticks of one millisecond. */
  const MAX_RTX_WAIT_TIME: nat := 60_000

  // ---------------------------------------------------------------- push

  /** The list traversal of a push: insert after the first smaller entry. */
  function InsertFrom(q: seq<RtxEntry>, e: RtxEntry, i: nat): Option<seq<RtxEntry>>
    requires i <= |q|
    decreases |q| - i
  {
    if i == |q| || q[i].pdu.sn == e.pdu.sn then None
    else if q[i].pdu.sn < e.pdu.sn then Some(q[..i + 1] + [e] + q[i + 1..])
    else InsertFrom(q, e, i + 1)
  }

  function Push(q: seq<RtxEntry>, e: RtxEntry): Option<seq<RtxEntry>> {
    if q == [] then Some([e])
    else
      var last := q[|q| - 1].pdu.sn;
      if e.pdu.sn == last then None
      else if e.pdu.sn > last then Some(q + [e])
      else InsertFrom(q, e, 0)
  }

  ghost predicate Sorted(q: seq<RtxEntry>) {
    forall i, j :: 0 <= i < j < |q| ==> q[i].pdu.sn < q[j].pdu.sn
  }

  ghost predicate AllBelow(q: seq<RtxEntry>, sn: nat) {
    forall i :: 0 <= i < |q| ==> q[i].pdu.sn < sn
  }

  // ---------------------------------------------------------------- acknowledge

  function AckUpTo(q: seq<RtxEntry>, ack: nat): (r: seq<RtxEntry>)
    ensures |r| <= |q|
  {
    if q != [] && q[0].pdu.sn <= ack then AckUpTo(q[1..], ack) else q
  }

  /** Reference definition: drop every entry at or below the acknowledged number, wherever it is. */
  function Above(q: seq<RtxEntry>, ack: nat): seq<RtxEntry> {
    if q == [] then []
    else if q[0].pdu.sn > ack then [q[0]] + Above(q[1..], ack)
    else Above(q[1..], ack)
  }

  /** The early exit of the acknowledgement loop loses nothing on a sorted queue. */
  lemma {:induction false} AckIsFilter(q: seq<RtxEntry>, ack: nat)
    requires Sorted(q)
    ensures AckUpTo(q, ack) == Above(q, ack)
    ensures Sorted(AckUpTo(q, ack))
    ensures forall e :: e in AckUpTo(q, ack) <==> e in q && e.pdu.sn > ack
  {
    if q != [] {
      assert q == [q[0]] + q[1..];
      if q[0].pdu.sn <= ack {
        AckIsFilter(q[1..], ack);
      } else {
        AboveKeepsAll(q, ack);
      }
    }
  }

  lemma {:induction false} AboveKeepsAll(q: seq<RtxEntry>, ack: nat)
    requires forall i :: 0 <= i < |q| ==> q[i].pdu.sn > ack
    ensures Above(q, ack) == q
  {
    if q != [] {
      AboveKeepsAll(q[1..], ack);
      assert q == [q[0]] + q[1..];
    }
  }

  // ---------------------------------------------------------------- time stamps

  /** The sentinels -1 and 0 of the source, and a genuine time stamp. */
  datatype Stamp = Absent | Retransmitted | Stamp(time: nat)

  function StampOf(e: RtxEntry): Stamp {
    if e.retries != 0 then Retransmitted else Stamp(e.timeStamp)
  }

  function Lookup(q: seq<RtxEntry>, sn: nat): Stamp {
    if q == [] || q[0].pdu.sn > sn then Absent
    else if q[0].pdu.sn == sn then StampOf(q[0])
    else Lookup(q[1..], sn)
  }

  /** On a sorted queue the early-exit lookup is a full search, and only an untouched PDU yields a time stamp. */
  lemma {:induction false} LookupIsSearch(q: seq<RtxEntry>, sn: nat)
    requires Sorted(q)
    ensures Lookup(q, sn) == Absent <==> forall e :: e in q ==> e.pdu.sn != sn
    ensures forall e :: e in q && e.pdu.sn == sn ==> Lookup(q, sn) == StampOf(e)
    ensures Lookup(q, sn).Stamp? ==>
              exists e :: e in q && e.pdu.sn == sn && e.retries == 0 && e.timeStamp == Lookup(q, sn).time
  {
    if q != [] {
      assert q == [q[0]] + q[1..];
      if q[0].pdu.sn < sn {
        LookupIsSearch(q[1..], sn);
      } else if q[0].pdu.sn == sn {
        assert q[0] in q;
      }
    }
  }

  // ---------------------------------------------------------------- retransmit

  function TimeToRtx(e: RtxEntry, tr: nat): nat {
    e.timeStamp + Min((1 + e.retries * e.retries) * tr, MAX_RTX_WAIT_TIME)
  }

  /**
   The wait before a retransmission grows with the number of tries, from the timeout on, and never beyond a minute; as
   long as that does not matter each try adds an odd number of timeouts to it.
   */
  lemma BackOff(e: RtxEntry, tr: nat)
    ensures Min(tr, MAX_RTX_WAIT_TIME) <= TimeToRtx(e, tr) - e.timeStamp <= MAX_RTX_WAIT_TIME
    ensures e.retries == 0 ==> TimeToRtx(e, tr) == e.timeStamp + Min(tr, MAX_RTX_WAIT_TIME)
    ensures var again := e.(retries := e.retries + 1);
            TimeToRtx(again, tr) == Min(TimeToRtx(e, tr) + (2 * e.retries + 1) * tr, e.timeStamp + MAX_RTX_WAIT_TIME)
  {
    WaitGrows(e.retries, tr, 1 + e.retries * e.retries, 1 + (e.retries + 1) * (e.retries + 1));
  }

  lemma WaitGrows(r: nat, tr: nat, x: nat, y: nat)
    requires x == 1 + r * r && y == 1 + (r + 1) * (r + 1)
    ensures x * tr >= tr && y * tr == x * tr + (2 * r + 1) * tr
  {
    assert y == x + (2 * r + 1);
    assert x * tr == tr + (r * r) * tr;
    assert (r * r) * tr >= 0;
  }

  /** What one expiry of the retransmission timer does: what stays queued, is resent, and is given up on. */
  datatype Pass = Pass(queue: seq<RtxEntry>, resent: seq<DataPdu>, dropped: seq<DataPdu>, rate: Rate)

  function Tick(ticks: seq<bool>): bool { ticks != [] && ticks[0] }

  function Later(ticks: seq<bool>): seq<bool> { if ticks == [] then [] else ticks[1..] }

  function Retransmit(cfg: Config, q: seq<RtxEntry>, tr: nat, now: nat, rate: Rate, ticks: seq<bool>): Pass {
    if q == [] || TimeToRtx(q[0], tr) > now then Pass(q, [], [], rate)
    else
      var e := q[0].(retries := q[0].retries + 1);
      if e.retries >= cfg.dataRtxMax then
        var rest := Retransmit(cfg, q[1..], tr, now, rate, ticks);
        rest.(dropped := [e.pdu] + rest.dropped)
      else if cfg.rateBased then
        var charged := Elapse(Charge(rate, |e.pdu.data|), Tick(ticks));
        if Exceeded(charged, true) then
          Pass([e] + q[1..], [], [], charged.(fulfilled := true))
        else
          var rest := Retransmit(cfg, q[1..], tr, now, charged, Later(ticks));
          rest.(queue := [e] + rest.queue, resent := [e.pdu] + rest.resent)
      else
        var rest := Retransmit(cfg, q[1..], tr, now, rate, ticks);
        rest.(queue := [e] + rest.queue, resent := [e.pdu] + rest.resent)
  }

  /** What a pass has done so far, followed by what it still does. */
  ghost function Extend(kept: seq<RtxEntry>, resent: seq<DataPdu>, dropped: seq<DataPdu>, rest: Pass): Pass {
    Pass(kept + rest.queue, resent + rest.resent, dropped + rest.dropped, rest.rate)
  }

  lemma ExtendDropped(kept: seq<RtxEntry>, resent: seq<DataPdu>, dropped: seq<DataPdu>, pdu: DataPdu, rest: Pass)
    ensures Extend(kept, resent, dropped, rest.(dropped := [pdu] + rest.dropped)) == Extend(kept, resent, dropped + [pdu], rest)
  {
    assert dropped + ([pdu] + rest.dropped) == (dropped + [pdu]) + rest.dropped;
  }

  lemma ExtendResent(kept: seq<RtxEntry>, resent: seq<DataPdu>, dropped: seq<DataPdu>, e: RtxEntry, rest: Pass)
    ensures Extend(kept, resent, dropped, rest.(queue := [e] + rest.queue, resent := [e.pdu] + rest.resent))
         == Extend(kept + [e], resent + [e.pdu], dropped, rest)
  {
    assert kept + ([e] + rest.queue) == (kept + [e]) + rest.queue;
    assert resent + ([e.pdu] + rest.resent) == (resent + [e.pdu]) + rest.resent;
  }

  ghost predicate HasPdu(q: seq<RtxEntry>, pdu: DataPdu) {
    exists i :: 0 <= i < |q| && q[i].pdu == pdu
  }

  /** A retransmission pass keeps the order, invents nothing, and every PDU is either kept or dropped. */
  lemma {:induction false} RetransmitConserves(cfg: Config, q: seq<RtxEntry>, tr: nat, now: nat, rate: Rate, ticks: seq<bool>)
    requires Sorted(q)
    ensures var p := Retransmit(cfg, q, tr, now, rate, ticks);
            && Sorted(p.queue)
            && |p.queue| + |p.dropped| == |q|
            && (forall pdu :: HasPdu(q, pdu) <==> HasPdu(p.queue, pdu) || pdu in p.dropped)
            && (forall pdu :: pdu in p.resent ==> HasPdu(p.queue, pdu))
  {
    var p := Retransmit(cfg, q, tr, now, rate, ticks);
    if q != [] && TimeToRtx(q[0], tr) <= now {
      var e := q[0].(retries := q[0].retries + 1);
      var sent := e.retries < cfg.dataRtxMax && cfg.rateBased;
      var charged := Elapse(Charge(rate, |e.pdu.data|), Tick(ticks));
      HasHeadTail(q);
      if sent && Exceeded(charged, true) {
        HasHeadTail(p.queue);
      } else {
        var rate' := if sent then charged else rate;
        var ticks' := if sent then Later(ticks) else ticks;
        RetransmitConserves(cfg, q[1..], tr, now, rate', ticks');
        var rest := Retransmit(cfg, q[1..], tr, now, rate', ticks');
        QueueIsBounded(q[1..], rest.queue, rest.dropped, q[0].pdu.sn);
        if e.retries < cfg.dataRtxMax {
          HasHeadTail(p.queue);
          assert p.queue[1..] == rest.queue;
        }
      }
    }
  }

  lemma HasHeadTail(q: seq<RtxEntry>)
    requires q != []
    ensures forall pdu :: HasPdu(q, pdu) <==> pdu == q[0].pdu || HasPdu(q[1..], pdu)
  {
    forall pdu ensures HasPdu(q, pdu) <==> pdu == q[0].pdu || HasPdu(q[1..], pdu) {
      if HasPdu(q, pdu) && pdu != q[0].pdu {
        var i :| 0 <= i < |q| && q[i].pdu == pdu;
        assert q[1..][i - 1].pdu == pdu;
      }
      if HasPdu(q[1..], pdu) {
        var i :| 0 <= i < |q[1..]| && q[1..][i].pdu == pdu;
        assert q[i + 1].pdu == pdu;
      }
    }
  }

  lemma QueueIsBounded(q: seq<RtxEntry>, kept: seq<RtxEntry>, dropped: seq<DataPdu>, sn: nat)
    requires forall i :: 0 <= i < |q| ==> q[i].pdu.sn > sn
    requires forall pdu :: HasPdu(q, pdu) <==> HasPdu(kept, pdu) || pdu in dropped
    ensures forall i :: 0 <= i < |kept| ==> kept[i].pdu.sn > sn
  {
    forall i | 0 <= i < |kept| ensures kept[i].pdu.sn > sn {
      assert HasPdu(kept, kept[i].pdu);
    }
  }

  // ---------------------------------------------------------------- how often a PDU is resent

  /** How often a sequence number occurs in a log of transmissions. */
  function Times(log: seq<DataPdu>, sn: nat): nat {
    if log == [] then 0
    else (if log[0].sn == sn then 1 else 0) + Times(log[1..], sn)
  }

  lemma {:induction false} TimesConcat(a: seq<DataPdu>, b: seq<DataPdu>, sn: nat)
    ensures Times(a + b, sn) == Times(a, sn) + Times(b, sn)
  {
    if a == [] {
      assert a + b == b;
    } else {
      assert (a + b)[1..] == a[1..] + b;
      TimesConcat(a[1..], b, sn);
    }
  }

  ghost predicate HasSn(q: seq<RtxEntry>, sn: nat) {
    exists i :: 0 <= i < |q| && q[i].pdu.sn == sn
  }

  /** Entry `after` is what became of `before` when `resent` was transmitted; `exact` says that it counts nothing else. */
  ghost predicate Counted(before: RtxEntry, after: RtxEntry, resent: seq<DataPdu>, max: nat, exact: bool) {
    && before.pdu == after.pdu
    && before.timeStamp == after.timeStamp
    && before.retries + Times(resent, after.pdu.sn) <= after.retries
    && (exact ==> before.retries + Times(resent, after.pdu.sn) == after.retries)
    && (after.retries < max || after.retries == before.retries)
  }

  ghost predicate CountedIn(q: seq<RtxEntry>, after: RtxEntry, resent: seq<DataPdu>, max: nat, exact: bool) {
    exists j :: 0 <= j < |q| && Counted(q[j], after, resent, max, exact)
  }

  ghost predicate Quiet(q: seq<RtxEntry>, resent: seq<DataPdu>, sn: nat) {
    HasSn(q, sn) || Times(resent, sn) == 0
  }

  ghost predicate AllCounted(q: seq<RtxEntry>, p: Pass, max: nat, exact: bool) {
    && (forall i :: 0 <= i < |p.queue| ==> CountedIn(q, p.queue[i], p.resent, max, exact))
    && (forall sn :: Quiet(p.queue, p.resent, sn))
  }

  /**
   One pass counts every resend in its entry, and without rate control nothing else; it resends nothing it drops, and no
   entry that it counts reaches the maximum.
   */
  lemma {:induction false} RetransmitCounts(cfg: Config, q: seq<RtxEntry>, tr: nat, now: nat, rate: Rate, ticks: seq<bool>)
    requires Sorted(q)
    ensures AllCounted(q, Retransmit(cfg, q, tr, now, rate, ticks), cfg.dataRtxMax, !cfg.rateBased)
  {
    var p := Retransmit(cfg, q, tr, now, rate, ticks);
    if q == [] || TimeToRtx(q[0], tr) > now {
      NothingResent(q, p, cfg.dataRtxMax, !cfg.rateBased);
    } else {
      var e := q[0].(retries := q[0].retries + 1);
      var limited := e.retries < cfg.dataRtxMax && cfg.rateBased;
      var charged := Elapse(Charge(rate, |e.pdu.data|), Tick(ticks));
      if limited && Exceeded(charged, true) {
        NothingResent(q, p, cfg.dataRtxMax, !cfg.rateBased);
      } else {
        var rate' := if limited then charged else rate;
        var ticks' := if limited then Later(ticks) else ticks;
        var rest := Retransmit(cfg, q[1..], tr, now, rate', ticks');
        RetransmitCounts(cfg, q[1..], tr, now, rate', ticks');
        RetransmitConserves(cfg, q[1..], tr, now, rate', ticks');
        QueueIsBounded(q[1..], rest.queue, rest.dropped, q[0].pdu.sn);
        if e.retries < cfg.dataRtxMax {
          HeadResent(q, e, rest, p, cfg.dataRtxMax, !cfg.rateBased);
        } else {
          HeadDropped(q, rest, p, cfg.dataRtxMax, !cfg.rateBased);
        }
      }
    }
  }

  lemma NothingResent(q: seq<RtxEntry>, p: Pass, max: nat, exact: bool)
    requires p.resent == [] && |p.queue| == |q|
    requires forall i :: 0 <= i < |q| ==> Counted(q[i], p.queue[i], [], max, exact)
    ensures AllCounted(q, p, max, exact)
  {
  }

  lemma CountedInTail(q: seq<RtxEntry>, after: RtxEntry, resent: seq<DataPdu>, max: nat, exact: bool)
    requires q != [] && CountedIn(q[1..], after, resent, max, exact)
    ensures CountedIn(q, after, resent, max, exact)
  {
    var j :| 0 <= j < |q[1..]| && Counted(q[1..][j], after, resent, max, exact);
    assert Counted(q[j + 1], after, resent, max, exact);
  }

  lemma HeadDropped(q: seq<RtxEntry>, rest: Pass, p: Pass, max: nat, exact: bool)
    requires q != [] && AllCounted(q[1..], rest, max, exact)
    requires p.queue == rest.queue && p.resent == rest.resent
    ensures AllCounted(q, p, max, exact)
  {
    forall i | 0 <= i < |p.queue| ensures CountedIn(q, p.queue[i], p.resent, max, exact) {
      CountedInTail(q, p.queue[i], p.resent, max, exact);
    }
  }

  lemma HeadResent(q: seq<RtxEntry>, e: RtxEntry, rest: Pass, p: Pass, max: nat, exact: bool)
    requires q != [] && AllCounted(q[1..], rest, max, exact)
    requires forall i :: 0 <= i < |rest.queue| ==> rest.queue[i].pdu.sn > q[0].pdu.sn
    requires e == q[0].(retries := q[0].retries + 1) && e.retries < max
    requires p.queue == [e] + rest.queue && p.resent == [e.pdu] + rest.resent
    ensures AllCounted(q, p, max, exact)
  {
    assert p.resent[1..] == rest.resent;
    assert Times(rest.resent, e.pdu.sn) == 0 by {
      assert Quiet(rest.queue, rest.resent, e.pdu.sn);
    }
    forall i | 0 <= i < |p.queue| ensures CountedIn(q, p.queue[i], p.resent, max, exact) {
      if i == 0 {
        assert Counted(q[0], p.queue[0], p.resent, max, exact);
      } else {
        CountedInTail(q, rest.queue[i - 1], rest.resent, max, exact);
        var j :| 0 <= j < |q| && Counted(q[j], rest.queue[i - 1], rest.resent, max, exact);
        assert Counted(q[j], p.queue[i], p.resent, max, exact);
      }
    }
    forall sn ensures Quiet(p.queue, p.resent, sn) {
      assert Quiet(rest.queue, rest.resent, sn);
      if sn == e.pdu.sn {
        assert p.queue[0].pdu.sn == sn;
      } else if HasSn(rest.queue, sn) {
        var i :| 0 <= i < |rest.queue| && rest.queue[i].pdu.sn == sn;
        assert p.queue[i + 1].pdu.sn == sn;
      }
    }
  }

  // ---------------------------------------------------------------- exactly what a pass does

  predicate Due(e: RtxEntry, tr: nat, now: nat) { TimeToRtx(e, tr) <= now }

  /** `k` is the length of the longest prefix of the queue whose entries are all due. */
  ghost predicate DueUpTo(q: seq<RtxEntry>, tr: nat, now: nat, k: nat) {
    k <= |q| && (forall i :: 0 <= i < k ==> Due(q[i], tr, now)) && (k < |q| ==> !Due(q[k], tr, now))
  }

  /** The PDUs of the entries that may be tried once more, or of those that may not. */
  function PdusOf(q: seq<RtxEntry>, max: nat, again: bool): seq<DataPdu> {
    if q == [] then []
    else (if (q[0].retries + 1 < max) == again then [q[0].pdu] else []) + PdusOf(q[1..], max, again)
  }

  /** The entries that may be tried once more, with the try counted. */
  function Recounted(q: seq<RtxEntry>, max: nat): seq<RtxEntry> {
    if q == [] then []
    else (if q[0].retries + 1 < max then [q[0].(retries := q[0].retries + 1)] else []) + Recounted(q[1..], max)
  }

  /** The counter after these PDUs were charged, with a reading of the clock after each. */
  function Spend(rate: Rate, pdus: seq<DataPdu>, ticks: seq<bool>): Rate
    decreases |pdus|
  {
    if pdus == [] then rate else Spend(Elapse(Charge(rate, |pdus[0].data|), Tick(ticks)), pdus[1..], Later(ticks))
  }

  /** The rate is not reached by any of these PDUs. */
  ghost predicate Affords(rate: Rate, pdus: seq<DataPdu>, ticks: seq<bool>) {
    forall i :: 1 <= i <= |pdus| ==> !Exceeded(Spend(rate, pdus[..i], ticks), true)
  }

  function Payload(pdus: seq<DataPdu>): nat { if pdus == [] then 0 else |pdus[0].data| + Payload(pdus[1..]) }

  /** While no time unit ends, what is charged is the payload, up to the rate; so the rate is reached exactly by that much. */
  lemma {:induction false} SpendTotal(rate: Rate, pdus: seq<DataPdu>, ticks: seq<bool>)
    requires rate.sent <= rate.sndrRate && forall i :: 0 <= i < |ticks| ==> !ticks[i]
    ensures Spend(rate, pdus, ticks) == rate.(sent := Min(rate.sent + Payload(pdus), rate.sndrRate))
    ensures Exceeded(Spend(rate, pdus, ticks), true) <==> rate.sent + Payload(pdus) >= rate.sndrRate
    decreases |pdus|
  {
    if pdus != [] {
      SpendTotal(Elapse(Charge(rate, |pdus[0].data|), Tick(ticks)), pdus[1..], Later(ticks));
    }
  }

  /** The pass went through the first `p` entries, and stopped there. */
  ghost predicate PassedOver(cfg: Config, q: seq<RtxEntry>, p: nat, rate: Rate, ticks: seq<bool>, d: Pass)
    requires p <= |q|
  {
    && d.resent == PdusOf(q[..p], cfg.dataRtxMax, true) && d.dropped == PdusOf(q[..p], cfg.dataRtxMax, false)
    && (cfg.rateBased ==> Affords(rate, d.resent, ticks))
  }

  /** The PDU of entry `p` uses up the rate: it is counted as tried, but not sent, and nothing behind it is touched. */
  ghost predicate UsedUp(cfg: Config, q: seq<RtxEntry>, p: nat, rate: Rate, ticks: seq<bool>, d: Pass)
    requires p < |q|
  {
    && cfg.rateBased && q[p].retries + 1 < cfg.dataRtxMax
    && d.queue == Recounted(q[..p + 1], cfg.dataRtxMax) + q[p + 1..]
    && Exceeded(Spend(rate, d.resent + [q[p].pdu], ticks), true)
    && d.rate == Spend(rate, d.resent + [q[p].pdu], ticks).(fulfilled := true)
  }

  /** Everything that was due was dealt with. */
  ghost predicate Completed(cfg: Config, q: seq<RtxEntry>, k: nat, rate: Rate, ticks: seq<bool>, d: Pass)
    requires k <= |q|
  {
    && d.queue == Recounted(q[..k], cfg.dataRtxMax) + q[k..]
    && d.rate == if cfg.rateBased then Spend(rate, d.resent, ticks) else rate
  }

  lemma PassHead(cfg: Config, q: seq<RtxEntry>, p: nat)
    requires 0 < p <= |q|
    ensures q[..p][1..] == q[1..][..p - 1] && q[..p][0] == q[0] && q[1..][p - 1..] == q[p..]
    ensures Recounted(q[..p], cfg.dataRtxMax)
         == (if q[0].retries + 1 < cfg.dataRtxMax then [q[0].(retries := q[0].retries + 1)] else []) + Recounted(q[1..][..p - 1], cfg.dataRtxMax)
    ensures forall again :: PdusOf(q[..p], cfg.dataRtxMax, again) ==
                            (if (q[0].retries + 1 < cfg.dataRtxMax) == again then [q[0].pdu] else []) + PdusOf(q[1..][..p - 1], cfg.dataRtxMax, again)
  {
    assert q[..p][1..] == q[1..][..p - 1];
  }

  lemma AffordsMore(rate: Rate, pdu: DataPdu, pdus: seq<DataPdu>, ticks: seq<bool>)
    requires var r := Elapse(Charge(rate, |pdu.data|), Tick(ticks)); !Exceeded(r, true) && Affords(r, pdus, Later(ticks))
    ensures Affords(rate, [pdu] + pdus, ticks)
  {
    forall i | 1 <= i <= |[pdu] + pdus| ensures !Exceeded(Spend(rate, ([pdu] + pdus)[..i], ticks), true) {
      assert ([pdu] + pdus)[..i][1..] == pdus[..i - 1];
      if i == 1 {
        assert pdus[..0] == [];
      }
    }
  }

  /**
   What a pass does: of the longest prefix of the queue that is due it resends the PDUs that may be tried once more, in
   order, each counted once in its entry, and drops the others; the rest of the queue is left alone. With rate control it
   stops at the PDU that uses up the rate.
   */
  lemma {:induction false} RetransmitExactly(cfg: Config, q: seq<RtxEntry>, tr: nat, now: nat, rate: Rate, ticks: seq<bool>, k: nat)
      returns (p: nat)
    requires DueUpTo(q, tr, now, k)
    ensures var d := Retransmit(cfg, q, tr, now, rate, ticks);
            && p <= k && PassedOver(cfg, q, p, rate, ticks, d)
            && (if p < k then UsedUp(cfg, q, p, rate, ticks, d) else Completed(cfg, q, k, rate, ticks, d))
  {
    var d := Retransmit(cfg, q, tr, now, rate, ticks);
    p := 0;
    if k == 0 {
      assert q[..0] == [] && q[0..] == q;
    } else {
      var e := q[0].(retries := q[0].retries + 1);
      var limited := e.retries < cfg.dataRtxMax && cfg.rateBased;
      var charged := Elapse(Charge(rate, |e.pdu.data|), Tick(ticks));
      if limited && Exceeded(charged, true) {
        StopsAtHead(cfg, q, rate, ticks, d);
      } else {
        var rate', ticks' := RateLeft(cfg, q[0], rate, ticks), TicksLeft(cfg, q[0], ticks);
        var rest := Retransmit(cfg, q[1..], tr, now, rate', ticks');
        p := RetransmitExactly(cfg, q[1..], tr, now, rate', ticks', k - 1);
        assert HeadThenRest(cfg, q, rest, d);
        PassedMore(cfg, q, p, rate, ticks, rest, d);
        if p < k - 1 {
          UsedUpMore(cfg, q, p, rate, ticks, rest, d);
        } else {
          CompletedMore(cfg, q, k, rate, ticks, rest, d);
        }
        p := p + 1;
      }
    }
  }

  lemma StopsAtHead(cfg: Config, q: seq<RtxEntry>, rate: Rate, ticks: seq<bool>, d: Pass)
    requires q != [] && cfg.rateBased && q[0].retries + 1 < cfg.dataRtxMax
    requires var r := Elapse(Charge(rate, |q[0].pdu.data|), Tick(ticks));
             Exceeded(r, true) && d == Pass([q[0].(retries := q[0].retries + 1)] + q[1..], [], [], r.(fulfilled := true))
    ensures PassedOver(cfg, q, 0, rate, ticks, d) && UsedUp(cfg, q, 0, rate, ticks, d)
  {
    assert q[..0] == [] && q[..1] == [q[0]] && [q[0]][1..] == [];
    assert [] + [q[0].pdu] == [q[0].pdu] && [q[0].pdu][1..] == [];
  }

  /** The head was resent or dropped, and `rest` is the pass over what is behind it. */
  ghost predicate HeadThenRest(cfg: Config, q: seq<RtxEntry>, rest: Pass, d: Pass)
    requires q != []
  {
    var again := q[0].retries + 1 < cfg.dataRtxMax;
    && d.rate == rest.rate && d.resent == (if again then [q[0].pdu] else []) + rest.resent
    && d.dropped == (if again then [] else [q[0].pdu]) + rest.dropped
    && d.queue == (if again then [q[0].(retries := q[0].retries + 1)] else []) + rest.queue
  }

  /** The counter and the clock that are left for the rest. */
  function RateLeft(cfg: Config, e: RtxEntry, rate: Rate, ticks: seq<bool>): Rate {
    if e.retries + 1 < cfg.dataRtxMax && cfg.rateBased then Elapse(Charge(rate, |e.pdu.data|), Tick(ticks)) else rate
  }

  function TicksLeft(cfg: Config, e: RtxEntry, ticks: seq<bool>): seq<bool> {
    if e.retries + 1 < cfg.dataRtxMax && cfg.rateBased then Later(ticks) else ticks
  }

  lemma PassedMore(cfg: Config, q: seq<RtxEntry>, p: nat, rate: Rate, ticks: seq<bool>, rest: Pass, d: Pass)
    requires p < |q| && HeadThenRest(cfg, q, rest, d)
    requires q[0].retries + 1 < cfg.dataRtxMax && cfg.rateBased ==> !Exceeded(RateLeft(cfg, q[0], rate, ticks), true)
    requires PassedOver(cfg, q[1..], p, RateLeft(cfg, q[0], rate, ticks), TicksLeft(cfg, q[0], ticks), rest)
    ensures PassedOver(cfg, q, p + 1, rate, ticks, d)
  {
    PassHead(cfg, q, p + 1);
    if q[0].retries + 1 < cfg.dataRtxMax && cfg.rateBased {
      AffordsMore(rate, q[0].pdu, rest.resent, ticks);
    } else if cfg.rateBased {
      assert d.resent == rest.resent;
    }
  }

  lemma SpentMore(cfg: Config, q: seq<RtxEntry>, rate: Rate, ticks: seq<bool>, pdus: seq<DataPdu>)
    requires q != [] && cfg.rateBased
    ensures Spend(rate, (if q[0].retries + 1 < cfg.dataRtxMax then [q[0].pdu] else []) + pdus, ticks)
         == Spend(RateLeft(cfg, q[0], rate, ticks), pdus, TicksLeft(cfg, q[0], ticks))
  {
    if q[0].retries + 1 < cfg.dataRtxMax {
      assert ([q[0].pdu] + pdus)[1..] == pdus;
    } else {
      assert [] + pdus == pdus;
    }
  }

  lemma UsedUpMore(cfg: Config, q: seq<RtxEntry>, p: nat, rate: Rate, ticks: seq<bool>, rest: Pass, d: Pass)
    requires p + 1 < |q| && HeadThenRest(cfg, q, rest, d)
    requires UsedUp(cfg, q[1..], p, RateLeft(cfg, q[0], rate, ticks), TicksLeft(cfg, q[0], ticks), rest)
    ensures UsedUp(cfg, q, p + 1, rate, ticks, d)
  {
    PassHead(cfg, q, p + 2);
    assert q[1..][p + 1..] == q[p + 2..];
    SpentMore(cfg, q, rate, ticks, rest.resent + [q[p + 1].pdu]);
    assert d.resent + [q[p + 1].pdu] == (if q[0].retries + 1 < cfg.dataRtxMax then [q[0].pdu] else []) + (rest.resent + [q[p + 1].pdu]);
  }

  lemma CompletedMore(cfg: Config, q: seq<RtxEntry>, k: nat, rate: Rate, ticks: seq<bool>, rest: Pass, d: Pass)
    requires 0 < k <= |q| && HeadThenRest(cfg, q, rest, d)
    requires Completed(cfg, q[1..], k - 1, RateLeft(cfg, q[0], rate, ticks), TicksLeft(cfg, q[0], ticks), rest)
    ensures Completed(cfg, q, k, rate, ticks, d)
  {
    PassHead(cfg, q, k);
    if cfg.rateBased {
      SpentMore(cfg, q, rate, ticks, rest.resent);
    }
  }

  // ---------------------------------------------------------------- whole runs of the queue

  datatype Op =
    | OpPush(pdu: DataPdu, now: nat)
    | OpAck(ack: nat)
    | OpRtx(tr: nat, now: nat, rate: Rate, ticks: seq<bool>)
    | OpFlush

  /** The queue together with what has happened to it so far. */
  datatype History = History(
    queue: seq<RtxEntry>, lastPushed: nat, resent: seq<DataPdu>,
    pushed: nat, acked: nat, dropped: nat, flushed: nat)

  const EMPTY: History := History([], 0, [], 0, 0, 0, 0)

  /** A push is in order if its number is above every number pushed before it. */
  ghost predicate Fed(h: History, op: Op) {
    op.OpPush? ==> op.pdu.sn > h.lastPushed
  }

  function Apply(cfg: Config, h: History, op: Op): History {
    match op
    case OpPush(pdu, now) =>
      (match Push(h.queue, RtxEntry(pdu, now, 0))
       case None => h
       case Some(q) => h.(queue := q, lastPushed := pdu.sn, pushed := h.pushed + 1))
    case OpAck(ack) =>
      var q := AckUpTo(h.queue, ack);
      h.(queue := q, acked := h.acked + |h.queue| - |q|)
    case OpRtx(tr, now, rate, ticks) =>
      var p := Retransmit(cfg, h.queue, tr, now, rate, ticks);
      h.(queue := p.queue, resent := h.resent + p.resent, dropped := h.dropped + |p.dropped|)
    case OpFlush =>
      h.(queue := [], flushed := h.flushed + |h.queue|)
  }

  ghost predicate FedRun(cfg: Config, h: History, ops: seq<Op>)
    decreases |ops|
  {
    ops == [] || (Fed(h, ops[0]) && FedRun(cfg, Apply(cfg, h, ops[0]), ops[1..]))
  }

  function Run(cfg: Config, h: History, ops: seq<Op>): History
    decreases |ops|
  {
    if ops == [] then h else Run(cfg, Apply(cfg, h, ops[0]), ops[1..])
  }

  /** The resends of one number stay below the limit, and below what its queue entry has counted. */
  ghost predicate Limited(h: History, max: nat, sn: nat) {
    Times(h.resent, sn) < max && (sn > h.lastPushed ==> Times(h.resent, sn) == 0)
  }

  ghost predicate EntryOk(h: History, max: nat, e: RtxEntry) {
    Times(h.resent, e.pdu.sn) <= e.retries < max
  }

  ghost predicate QueueInv(cfg: Config, h: History) {
    && Sorted(h.queue)
    && AllBelow(h.queue, h.lastPushed + 1)
    && h.pushed == |h.queue| + h.acked + h.dropped + h.flushed
    && (forall i :: 0 <= i < |h.queue| ==> EntryOk(h, cfg.dataRtxMax, h.queue[i]))
    && (forall sn :: Limited(h, cfg.dataRtxMax, sn))
  }

  lemma PushAtTail(q: seq<RtxEntry>, e: RtxEntry)
    requires AllBelow(q, e.pdu.sn)
    ensures Push(q, e) == Some(q + [e])
  {
    if q == [] {
      assert q + [e] == [e];
    }
  }

  lemma {:induction false} InsertExactly(q: seq<RtxEntry>, e: RtxEntry, i: nat, f: nat)
    requires i <= f <= |q| && (forall j :: i <= j < f ==> q[j].pdu.sn > e.pdu.sn) && (f < |q| ==> q[f].pdu.sn <= e.pdu.sn)
    ensures InsertFrom(q, e, i) == if f == |q| || q[f].pdu.sn == e.pdu.sn then None else Some(q[..f + 1] + [e] + q[f + 1..])
    decreases f - i
  {
    if i < f {
      InsertExactly(q, e, i + 1, f);
    }
  }

  /**
   A PDU beyond the last one goes behind it, and a repetition of the last one is refused. Any other goes right behind the
   first entry that does not exceed it, and is refused if that one has its number or there is none.
   */
  lemma PushExactly(q: seq<RtxEntry>, e: RtxEntry, f: nat)
    requires f <= |q| && (forall j :: 0 <= j < f ==> q[j].pdu.sn > e.pdu.sn) && (f < |q| ==> q[f].pdu.sn <= e.pdu.sn)
    ensures Push(q, e) ==
            if q == [] || e.pdu.sn > q[|q| - 1].pdu.sn then Some(q + [e])
            else if e.pdu.sn == q[|q| - 1].pdu.sn || f == |q| || q[f].pdu.sn == e.pdu.sn then None
            else Some(q[..f + 1] + [e] + q[f + 1..])
  {
    InsertExactly(q, e, 0, f);
    if q == [] {
      assert q + [e] == [e];
    }
  }

  lemma {:induction false} AckShrinks(q: seq<RtxEntry>, ack: nat)
    ensures exists k :: 0 <= k <= |q| && AckUpTo(q, ack) == q[k..]
  {
    if q != [] && q[0].pdu.sn <= ack {
      AckShrinks(q[1..], ack);
      var k :| 0 <= k <= |q[1..]| && AckUpTo(q[1..], ack) == q[1..][k..];
      assert AckUpTo(q, ack) == q[k + 1..];
    } else {
      assert AckUpTo(q, ack) == q[0..];
    }
  }

  lemma RtxKeepsInv(cfg: Config, h: History, op: Op)
    requires QueueInv(cfg, h) && op.OpRtx?
    ensures QueueInv(cfg, Apply(cfg, h, op))
  {
    var p := Retransmit(cfg, h.queue, op.tr, op.now, op.rate, op.ticks);
    var h' := Apply(cfg, h, op);
    RetransmitConserves(cfg, h.queue, op.tr, op.now, op.rate, op.ticks);
    RetransmitCounts(cfg, h.queue, op.tr, op.now, op.rate, op.ticks);
    forall i | 0 <= i < |p.queue|
      ensures p.queue[i].pdu.sn < h.lastPushed + 1 && EntryOk(h', cfg.dataRtxMax, p.queue[i])
    {
      assert CountedIn(h.queue, p.queue[i], p.resent, cfg.dataRtxMax, !cfg.rateBased);
      var j :| 0 <= j < |h.queue| && Counted(h.queue[j], p.queue[i], p.resent, cfg.dataRtxMax, !cfg.rateBased);
      assert EntryOk(h, cfg.dataRtxMax, h.queue[j]);
      TimesConcat(h.resent, p.resent, p.queue[i].pdu.sn);
    }
    forall sn ensures Limited(h', cfg.dataRtxMax, sn) {
      ResendsStayLimited(cfg, h, h', p, sn);
    }
  }

  lemma ResendsStayLimited(cfg: Config, h: History, h': History, p: Pass, sn: nat)
    requires Limited(h, cfg.dataRtxMax, sn) && Quiet(p.queue, p.resent, sn)
    requires h'.resent == h.resent + p.resent && h'.lastPushed == h.lastPushed
    requires forall i :: 0 <= i < |p.queue| ==> p.queue[i].pdu.sn < h.lastPushed + 1 && EntryOk(h', cfg.dataRtxMax, p.queue[i])
    ensures Limited(h', cfg.dataRtxMax, sn)
  {
    TimesConcat(h.resent, p.resent, sn);
    if HasSn(p.queue, sn) {
      var i :| 0 <= i < |p.queue| && p.queue[i].pdu.sn == sn;
      assert EntryOk(h', cfg.dataRtxMax, p.queue[i]);
    }
  }

  lemma PushKeepsInv(cfg: Config, h: History, op: Op)
    requires cfg.dataRtxMax >= 1
    requires QueueInv(cfg, h) && op.OpPush? && Fed(h, op)
    ensures QueueInv(cfg, Apply(cfg, h, op))
  {
    var h' := Apply(cfg, h, op);
    PushAtTail(h.queue, RtxEntry(op.pdu, op.now, 0));
    assert Limited(h, cfg.dataRtxMax, op.pdu.sn);
    forall sn ensures Limited(h', cfg.dataRtxMax, sn) {
      assert Limited(h, cfg.dataRtxMax, sn);
    }
    forall i | 0 <= i < |h'.queue| ensures EntryOk(h', cfg.dataRtxMax, h'.queue[i]) {
      if i < |h.queue| {
        assert EntryOk(h, cfg.dataRtxMax, h.queue[i]);
      }
    }
  }

  /** Acknowledging and flushing leave a suffix of the queue. */
  lemma SuffixKeepsInv(cfg: Config, h: History, h': History, k: nat)
    requires QueueInv(cfg, h) && k <= |h.queue|
    requires h'.queue == h.queue[k..] && h'.resent == h.resent && h'.lastPushed == h.lastPushed
    requires h'.pushed == |h'.queue| + h'.acked + h'.dropped + h'.flushed
    ensures QueueInv(cfg, h')
  {
    forall sn ensures Limited(h', cfg.dataRtxMax, sn) {
      assert Limited(h, cfg.dataRtxMax, sn);
    }
    forall i | 0 <= i < |h'.queue| ensures EntryOk(h', cfg.dataRtxMax, h'.queue[i]) {
      assert EntryOk(h, cfg.dataRtxMax, h.queue[k + i]);
    }
  }

  lemma RemovalKeepsInv(cfg: Config, h: History, op: Op)
    requires QueueInv(cfg, h) && (op.OpAck? || op.OpFlush?)
    ensures QueueInv(cfg, Apply(cfg, h, op))
  {
    if op.OpAck? {
      AckShrinks(h.queue, op.ack);
      var k :| 0 <= k <= |h.queue| && AckUpTo(h.queue, op.ack) == h.queue[k..];
      SuffixKeepsInv(cfg, h, Apply(cfg, h, op), k);
    } else {
      SuffixKeepsInv(cfg, h, Apply(cfg, h, op), |h.queue|);
    }
  }

  /**
   Over every run of operations whose pushes are in order, the queue stays strictly sorted, every pushed PDU is
   queued, acknowledged, dropped or flushed, and no PDU is resent `dataRtxMax` times or more.
   */
  lemma {:induction false} QueueRun(cfg: Config, h: History, ops: seq<Op>)
    requires cfg.dataRtxMax >= 1
    requires QueueInv(cfg, h) && FedRun(cfg, h, ops)
    ensures QueueInv(cfg, Run(cfg, h, ops))
    decreases |ops|
  {
    if ops != [] {
      if ops[0].OpRtx? {
        RtxKeepsInv(cfg, h, ops[0]);
      } else if ops[0].OpPush? {
        PushKeepsInv(cfg, h, ops[0]);
      } else {
        RemovalKeepsInv(cfg, h, ops[0]);
      }
      QueueRun(cfg, Apply(cfg, h, ops[0]), ops[1..]);
    }
  }

  lemma QueueRunFromEmpty(cfg: Config, ops: seq<Op>)
    requires cfg.dataRtxMax >= 1 && FedRun(cfg, EMPTY, ops)
    ensures QueueInv(cfg, Run(cfg, EMPTY, ops))
  {
    QueueRun(cfg, EMPTY, ops);
  }

  // ---------------------------------------------------------------- the queue object

  class Queue {
    var entries: seq<RtxEntry>
    var len: int
    var dropPdus: nat

    ghost predicate Valid()
      reads this
    {
      len == |entries|
    }

    constructor ()
      ensures Valid() && entries == [] && dropPdus == 0
    {
      entries, len, dropPdus := [], 0, 0;
    }

    method PushNi(pdu: DataPdu, now: nat) returns (ok: bool)
      requires Valid()
      modifies this
      ensures Valid() && dropPdus == old(dropPdus)
      ensures var p := Push(old(entries), RtxEntry(pdu, now, 0));
              ok == p.Some? && entries == if ok then p.value else old(entries)
    {
      var e := RtxEntry(pdu, now, 0);
      if |entries| == 0 {
        entries, len := [e], len + 1;
        return true;
      }
      var last := entries[|entries| - 1].pdu.sn;
      if pdu.sn == last {
        return false;
      }
      if pdu.sn > last {
        entries, len := entries + [e], len + 1;
        return true;
      }
      var i := 0;
      while i < |entries|
        invariant i <= |entries| && entries == old(entries) && Valid() && dropPdus == old(dropPdus)
        invariant InsertFrom(entries, e, 0) == InsertFrom(entries, e, i)
      {
        if entries[i].pdu.sn == pdu.sn {
          return false;
        }
        if pdu.sn > entries[i].pdu.sn {
          entries, len := entries[..i + 1] + [e] + entries[i + 1..], len + 1;
          return true;
        }
        i := i + 1;
      }
      return false;
    }

    method EntriesAck(ack: nat)
      requires Valid()
      modifies this
      ensures Valid() && dropPdus == old(dropPdus)
      ensures entries == AckUpTo(old(entries), ack)
    {
      while |entries| != 0
        invariant Valid() && dropPdus == old(dropPdus)
        invariant AckUpTo(entries, ack) == AckUpTo(old(entries), ack)
        decreases |entries|
      {
        if entries[0].pdu.sn > ack {
          return;
        }
        entries, len := entries[1..], len - 1;
      }
    }

    method EntryTimestamp(sn: nat) returns (stamp: Stamp)
      requires Valid()
      ensures stamp == Lookup(entries, sn)
    {
      var i := 0;
      while i < |entries|
        invariant i <= |entries|
        invariant Lookup(entries, sn) == Lookup(entries[i..], sn)
      {
        assert entries[i..][1..] == entries[i + 1..];
        if entries[i].pdu.sn > sn {
          return Absent;
        }
        if entries[i].pdu.sn == sn {
          return StampOf(entries[i]);
        }
        i := i + 1;
      }
      return Absent;
    }

    /** The body of the retransmission timer; `rate` is the shared byte counter. */
    method Rtx(cfg: Config, tr: nat, now: nat, rate: Rate, ticks: seq<bool>)
      returns (resent: seq<DataPdu>, dropped: seq<DataPdu>, rate': Rate)
      requires Valid()
      modifies this
      ensures Valid()
      ensures Pass(entries, resent, dropped, rate') == Retransmit(cfg, old(entries), tr, now, rate, ticks)
      ensures dropPdus == old(dropPdus) + |dropped|
    {
      resent, dropped, rate' := [], [], rate;
      ghost var pass := Retransmit(cfg, entries, tr, now, rate, ticks);
      var clock, kept, left := ticks, [], entries;
      while |left| != 0
        invariant entries == kept + left && Valid() && dropPdus == old(dropPdus) + |dropped|
        invariant pass == Extend(kept, resent, dropped, Retransmit(cfg, left, tr, now, rate', clock))
        decreases |left|
      {
        if TimeToRtx(left[0], tr) > now {
          return;
        }
        var e := left[0].(retries := left[0].retries + 1);
        if e.retries >= cfg.dataRtxMax {
          ExtendDropped(kept, resent, dropped, e.pdu, Retransmit(cfg, left[1..], tr, now, rate', clock));
          dropPdus, dropped := dropPdus + 1, dropped + [e.pdu];
          entries, len, left := kept + left[1..], len - 1, left[1..];
          continue;
        }
        entries := kept + ([e] + left[1..]);
        if cfg.rateBased {
          rate' := Elapse(Charge(rate', |e.pdu.data|), Tick(clock));
          if Exceeded(rate', true) {
            rate' := rate'.(fulfilled := true);
            return;
          }
          clock := Later(clock);
        }
        ExtendResent(kept, resent, dropped, e, Retransmit(cfg, left[1..], tr, now, rate', clock));
        resent := resent + [e.pdu];
        kept, left := kept + [e], left[1..];
      }
    }

    method Flush()
      requires Valid()
      modifies this
      ensures Valid() && entries == [] && dropPdus == old(dropPdus)
    {
      while |entries| != 0
        invariant Valid() && dropPdus == old(dropPdus)
        decreases |entries|
      {
        entries, len := entries[1..], len - 1;
      }
    }
  }
}
