/** The values that the Error and Flow Control Protocol (EFCP) exchanges and is configured with. */
module EfcpTypes {

  type Octet = n: int | 0 <= n < 256

  const TWO32: nat := 0x1_0000_0000

  datatype Option<+T> = None | Some(value: T)

  /** A data-transfer PDU: sequence number, Data Run Flag and user data field. */
  datatype DataPdu = DataPdu(sn: nat, drf: bool, data: seq<Octet>)

  datatype CtrlKind = Ack | FlowCtl | AckAndFlowCtl | Rendezvous

  /** A control PDU; a handler reads only the fields that its kind carries. */
  datatype CtrlPdu = CtrlPdu(
    kind: CtrlKind, csn: nat, ackSn: nat,
    newLwe: nat, newRwe: nat, myLwe: nat, myRwe: nat,
    sndrRate: nat, timeFrame: nat)

  /** What a connection is created with; retransmission, window and rate control are independent. */
  datatype Config = Config(
    rtxCtrl: bool, flowCtrl: bool, windowBased: bool, rateBased: bool,
    initialCredit: nat, closedWinqLength: nat, sendingRate: nat, timePeriod: nat,
    dataRtxMax: nat, a: nat, maxSduGap: nat)
  {
    /** A window-based flow always gets a closed-window queue of length one. */
    function MaxClosedWinqLength(): nat {
      if flowCtrl && windowBased then 1 else closedWinqLength
    }

    ghost predicate WindowOnly() {
      flowCtrl && windowBased && !rateBased
    }
  }

  function Max(a: nat, b: nat): nat { if a < b then b else a }

  function Min(a: nat, b: nat): nat { if a < b then a else b }
}
