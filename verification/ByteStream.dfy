/**
 Byte streams over a port: a write is cut into data units (DUs) that fit the IPC process below, and
 reads of any size consume the DUs that were posted, a DU at a time.
 */
module ByteStream {
  import opened EfcpTypes

  type Du = seq<Octet>
  type Errno = n: int | n < 0 witness -1

  const EAGAIN: Errno := -11
  const EMSGSIZE: Errno := -90

  function Concat(dus: seq<Du>): seq<Octet> {
    if dus == [] then [] else Concat(dus[..|dus| - 1]) + dus[|dus| - 1]
  }

  lemma ConcatOne(dus: seq<Du>, du: Du)
    ensures Concat(dus + [du]) == Concat(dus) + du
  {
    assert (dus + [du])[..|dus|] == dus;
  }

  lemma Associative(a: Du, b: Du, c: Du)
    ensures (a + b) + c == a + (b + c)
  {
  }

  lemma {:induction false} ConcatBoth(a: seq<Du>, b: seq<Du>)
    ensures Concat(a + b) == Concat(a) + Concat(b)
    decreases |b|
  {
    if b == [] {
      assert a + b == a;
    } else {
      var b0, last := b[..|b| - 1], b[|b| - 1];
      assert a + b == (a + b0) + [last];
      calc {
        Concat(a + b);
      == { ConcatOne(a + b0, last); }
        Concat(a + b0) + last;
      == { ConcatBoth(a, b0); }
        (Concat(a) + Concat(b0)) + last;
      == { Associative(Concat(a), Concat(b0), last); }
        Concat(a) + (Concat(b0) + last);
      }
    }
  }

  // ---------------------------------------------------------------- writing

  /** What became of one chunk: accepted by the IPC process, or an error before or in the hand-over. */
  datatype Outcome = Accepted | Refused(error: Errno)

  /** The chunks that were accepted are the first bytes of `data`; all but the last are of full size. */
  ghost predicate Chunked(chunks: seq<Du>, data: seq<Octet>, n: nat, max: nat) {
    && n <= |data| && Concat(chunks) == data[..n]
    && (forall i :: 0 <= i < |chunks| ==> 1 <= |chunks[i]| <= max)
    && (forall i :: 0 <= i < |chunks| - 1 ==> |chunks[i]| == max)
  }

  ghost predicate AllFull(chunks: seq<Du>, max: nat) { forall i :: 0 <= i < |chunks| ==> |chunks[i]| == max }

  lemma ChunkMore(chunks: seq<Du>, data: seq<Octet>, n: nat, more: nat, max: nat)
    requires Chunked(chunks, data, n, max) && AllFull(chunks, max) && 1 <= more <= max && n + more <= |data|
    ensures var chunks' := chunks + [data[n..n + more]];
            Chunked(chunks', data, n + more, max) && (more == max ==> AllFull(chunks', max))
  {
    ConcatOne(chunks, data[n..n + more]);
    assert data[..n] + data[n..n + more] == data[..n + more];
  }

  function FirstError(outcomes: seq<Outcome>): int { if outcomes != [] && outcomes[0].Refused? then outcomes[0].error else 0 }

  /**
   Writes a user buffer. The n-th hand-over ends as `outcomes` says; beyond its end it is accepted. A
   count is returned if anything was written, and then it is the number of bytes handed down, whatever
   error stopped the loop.
   */
  method WriteBuffer(data: seq<Octet>, max: nat, msgBoundaries: bool, outcomes: seq<Outcome>)
      returns (ret: int, chunks: seq<Du>)
    requires max >= 1
    ensures ret >= 0 ==> Chunked(chunks, data, ret, max)
    ensures ret < 0 ==> chunks == []
    ensures ret == 0 <==> data == []
    ensures msgBoundaries ==> |chunks| <= 1
    ensures msgBoundaries && |data| > max ==> ret == EMSGSIZE
    ensures 0 <= ret < |data| ==> |chunks| < |outcomes| && outcomes[|chunks|].Refused?
    ensures forall i :: 0 <= i < |chunks| && i < |outcomes| ==> outcomes[i].Accepted?
    ensures ret < 0 ==> ret == if msgBoundaries && |data| > max then EMSGSIZE else FirstError(outcomes)
    ensures ret < 0 <==> data != [] && ((msgBoundaries && |data| > max) || (outcomes != [] && outcomes[0].Refused?))
  {
    chunks := [];
    if msgBoundaries && |data| > max {
      return EMSGSIZE, [];
    }
    var left, written := |data|, 0;
    ret := 0;
    while left > 0
      invariant 0 <= left && written + left == |data|
      invariant written == 0 <==> chunks == []
      invariant msgBoundaries ==> |data| <= max && (chunks == [] || (left == 0 && |chunks| == 1))
      invariant Chunked(chunks, data, written, max)
      invariant left > 0 ==> AllFull(chunks, max)
      invariant forall i :: 0 <= i < |chunks| && i < |outcomes| ==> outcomes[i].Accepted?
    {
      var copylen := Min(left, max);
      if |chunks| < |outcomes| && outcomes[|chunks|].Refused? {
        return if written == 0 then outcomes[|chunks|].error else written, chunks;
      }
      ChunkMore(chunks, data, written, copylen, max);
      chunks := chunks + [data[written..written + copylen]];
      left, written := left - copylen, written + copylen;
    }
    ret := written;
  }

  // ---------------------------------------------------------------- reading

  /** The queue after a read, the value returned and the bytes copied to the user. */
  datatype ReadResult = ReadResult(queue: seq<Du>, ret: int, bytes: seq<Octet>)

  /** A DU that fits is taken out; of a longer one `size` bytes are consumed in place. */
  function ReadFrom(queue: seq<Du>, size: nat): ReadResult {
    if queue == [] then ReadResult([], EAGAIN, [])
    else if size >= |queue[0]| then ReadResult(queue[1..], |queue[0]|, queue[0])
    else ReadResult([queue[0][size..]] + queue[1..], size, queue[0][..size])
  }

  class FlowQueue {
    var sduReady: seq<Du>

    constructor ()
      ensures sduReady == []
    {
      sduReady := [];
    }

    method Post(du: Du)
      modifies this
      ensures sduReady == old(sduReady) + [du]
    {
      sduReady := sduReady + [du];
    }

    /** Peeks at the head, and takes it out only if the caller has room for all of it. */
    method DuToRead(size: nat) returns (du: Du)
      requires sduReady != []
      modifies this
      ensures du == old(sduReady[0])
      ensures sduReady == if size >= |du| then old(sduReady[1..]) else old(sduReady)
    {
      du := sduReady[0];
      if size >= |du| {
        sduReady := sduReady[1..];
      }
    }

    /** A non-blocking read; a DU without data is taken out and reads as 0. */
    method Read(size: nat) returns (ret: int, bytes: seq<Octet>)
      modifies this
      ensures ReadResult(sduReady, ret, bytes) == ReadFrom(old(sduReady), size)
    {
      if sduReady == [] {
        return EAGAIN, [];
      }
      var du := DuToRead(size);
      if |du| == 0 {
        return 0, [];
      }
      var partial := |du| > size;
      ret := if partial then size else |du|;
      bytes := du[..ret];
      if partial {
        sduReady := [du[size..]] + sduReady[1..];
      }
    }
  }

  // ---------------------------------------------------------------- every series of posts and reads

  datatype Event = EvPost(du: Du) | EvRead(size: nat)

  /** `returned` and `values` are the bytes and the values that the reads returned. */
  datatype History = History(queue: seq<Du>, posted: seq<Du>, returned: seq<Du>, values: seq<int>)

  function Next(h: History, e: Event): History {
    match e
    case EvPost(du) => h.(queue := h.queue + [du], posted := h.posted + [du])
    case EvRead(size) =>
      var r := ReadFrom(h.queue, size);
      h.(queue := r.queue, returned := h.returned + [r.bytes], values := h.values + [r.ret])
  }

  function Exec(es: seq<Event>): History {
    if es == [] then History([], [], [], []) else Next(Exec(es[..|es| - 1]), es[|es| - 1])
  }

  /** The position of DU number `d` in the stream of bytes. */
  function StartOf(dus: seq<Du>, d: nat): nat
    requires d <= |dus|
  {
    |Concat(dus[..d])|
  }

  /** Bytes `pos` to `pos + n` of the stream belong to one DU. */
  ghost predicate InOneDu(dus: seq<Du>, pos: nat, n: nat) {
    n == 0 || exists d :: 0 <= d < |dus| && Covers(dus, d, pos, n)
  }

  ghost predicate Covers(dus: seq<Du>, d: nat, pos: nat, n: nat)
    requires d < |dus|
  {
    StartOf(dus, d) <= pos && pos + n <= StartOf(dus, d + 1)
  }

  /** What is queued is what is left of the last DUs posted: all but the first of them are untouched. */
  ghost predicate Tail(queue: seq<Du>, posted: seq<Du>) {
    |queue| <= |posted| && (queue != [] ==>
      var gone := |posted| - |queue|;
      |queue[0]| <= |posted[gone]| && queue[1..] == posted[gone + 1..])
  }

  ghost predicate Sound(h: History) {
    && Concat(h.returned) + Concat(h.queue) == Concat(h.posted)
    && Tail(h.queue, h.posted)
    && (forall i :: 0 <= i < |h.returned| ==> InOneDu(h.posted, StartOf(h.returned, i), |h.returned[i]|))
  }

  lemma MorePosted(dus: seq<Du>, du: Du, pos: nat, n: nat)
    requires InOneDu(dus, pos, n)
    ensures InOneDu(dus + [du], pos, n)
  {
    if n > 0 {
      var d :| 0 <= d < |dus| && Covers(dus, d, pos, n);
      assert (dus + [du])[..d] == dus[..d] && (dus + [du])[..d + 1] == dus[..d + 1];
      assert Covers(dus + [du], d, pos, n);
    }
  }

  lemma PostConserves(h: History, du: Du)
    requires Concat(h.returned) + Concat(h.queue) == Concat(h.posted)
    ensures Concat(h.returned) + Concat(h.queue + [du]) == Concat(h.posted + [du])
  {
    ConcatOne(h.queue, du);
    ConcatOne(h.posted, du);
    Associative(Concat(h.returned), Concat(h.queue), du);
  }

  lemma TailMore(queue: seq<Du>, posted: seq<Du>, du: Du)
    requires Tail(queue, posted)
    ensures Tail(queue + [du], posted + [du])
  {
    if queue != [] {
      var gone := |posted| - |queue|;
      assert (queue + [du])[1..] == queue[1..] + [du];
      assert (posted + [du])[gone + 1..] == posted[gone + 1..] + [du];
    }
  }

  lemma PostKeepsSound(h: History, du: Du)
    requires Sound(h)
    ensures Sound(Next(h, EvPost(du)))
  {
    PostConserves(h, du);
    forall i | 0 <= i < |h.returned| ensures InOneDu(h.posted + [du], StartOf(h.returned, i), |h.returned[i]|) {
      MorePosted(h.posted, du, StartOf(h.returned, i), |h.returned[i]|);
    }
    TailMore(h.queue, h.posted, du);
  }

  /** A read splits the queued bytes. */
  lemma ReadSplits(queue: seq<Du>, size: nat)
    ensures var r := ReadFrom(queue, size); r.bytes + Concat(r.queue) == Concat(queue)
  {
    if queue != [] {
      assert queue == [queue[0]] + queue[1..];
      ConcatBoth([queue[0]], queue[1..]);
      ConcatOne([], queue[0]);
      if size < |queue[0]| {
        ConcatBoth([queue[0][size..]], queue[1..]);
        ConcatOne([], queue[0][size..]);
        assert queue[0] == queue[0][..size] + queue[0][size..];
      }
    }
  }

  /**
   A read of an empty queue returns EAGAIN and no bytes. Any other returns the number of the bytes that it copies, which
   are the first ones of the head, as many as there are and as were asked for; the head leaves the queue exactly if it was
   read to its end, and nothing behind it is touched.
   */
  lemma ReadExactly(queue: seq<Du>, size: nat)
    ensures var r := ReadFrom(queue, size);
            if queue == [] then r.ret == -11 && r.bytes == [] && r.queue == []
            else
              && r.ret == |r.bytes| == Min(size, |queue[0]|) && r.bytes <= queue[0]
              && (|r.queue| == |queue| - 1 <==> size >= |queue[0]|)
              && (if |r.queue| == |queue| - 1 then r.queue == queue[1..]
                  else |r.queue| == |queue| && r.bytes + r.queue[0] == queue[0] && r.queue[1..] == queue[1..])
  {
    if queue != [] && size < |queue[0]| {
      assert queue[0] == queue[0][..size] + queue[0][size..];
    }
  }

  /** The bytes that the reads say they returned. */
  function Told(values: seq<int>): nat {
    if values == [] then 0 else Told(values[..|values| - 1]) + if values[|values| - 1] > 0 then values[|values| - 1] else 0
  }

  /** Every read returned what it copied, or EAGAIN; and all of them together the number of bytes that were copied. */
  ghost predicate Truthful(h: History) {
    && |h.values| == |h.returned| && Told(h.values) == |Concat(h.returned)|
    && (forall i :: 0 <= i < |h.values| ==> h.values[i] == |h.returned[i]| || (h.values[i] == EAGAIN && h.returned[i] == []))
  }

  lemma ReadKeepsTruthful(h: History, size: nat)
    requires Truthful(h)
    ensures Truthful(Next(h, EvRead(size)))
  {
    var r := ReadFrom(h.queue, size);
    ReadExactly(h.queue, size);
    ConcatOne(h.returned, r.bytes);
    assert (h.values + [r.ret])[..|h.values|] == h.values;
  }

  lemma ReadConserves(h: History, size: nat)
    requires Concat(h.returned) + Concat(h.queue) == Concat(h.posted)
    ensures var r := ReadFrom(h.queue, size); Concat(h.returned + [r.bytes]) + Concat(r.queue) == Concat(h.posted)
  {
    var r := ReadFrom(h.queue, size);
    ReadSplits(h.queue, size);
    ConcatOne(h.returned, r.bytes);
    Associative(Concat(h.returned), r.bytes, Concat(r.queue));
  }

  /** The next byte to be read is in the DU that the head of the queue is left of. */
  lemma HeadPosition(h: History)
    requires Sound(h) && h.queue != []
    ensures var gone := |h.posted| - |h.queue|;
            && StartOf(h.posted, gone) <= |Concat(h.returned)|
            && |Concat(h.returned)| + |h.queue[0]| == StartOf(h.posted, gone + 1)
  {
    var gone := |h.posted| - |h.queue|;
    var front, rest := h.posted[..gone + 1], h.posted[gone + 1..];
    assert h.posted == front + rest && front[..gone] == h.posted[..gone];
    ConcatBoth(front, rest);
    assert h.queue == [h.queue[0]] + rest;
    ConcatBoth([h.queue[0]], rest);
    ConcatOne([], h.queue[0]);
  }

  lemma ReadKeepsSound(h: History, size: nat)
    requires Sound(h)
    ensures Sound(Next(h, EvRead(size)))
  {
    var r := ReadFrom(h.queue, size);
    var returned' := h.returned + [r.bytes];
    ReadConserves(h, size);
    if h.queue != [] {
      HeadPosition(h);
      var gone := |h.posted| - |h.queue|;
      assert r.bytes == [] || Covers(h.posted, gone, |Concat(h.returned)|, |r.bytes|);
      assert r.queue != [] && size >= |h.queue[0]| ==> r.queue[0] == h.posted[gone + 1..][0] && r.queue[1..] == h.posted[gone + 1..][1..];
    }
    forall i | 0 <= i < |returned'| ensures InOneDu(h.posted, StartOf(returned', i), |returned'[i]|) {
      assert returned'[..i] == if i < |h.returned| then h.returned[..i] else h.returned;
    }
  }

  /**
   Byte-stream conservation for a single reader: after any series of posts and reads of any sizes, the
   bytes returned followed by the bytes still queued are the bytes posted, in order, no read returned bytes
   of two DUs, and the values returned are the numbers of bytes returned.
   */
  lemma {:induction false} StreamConserved(es: seq<Event>)
    ensures var h := Exec(es);
            && Concat(h.returned) + Concat(h.queue) == Concat(h.posted)
            && (forall i :: 0 <= i < |h.returned| ==> InOneDu(h.posted, StartOf(h.returned, i), |h.returned[i]|))
            && Truthful(h)
    ensures Sound(Exec(es))
  {
    if es != [] {
      StreamConserved(es[..|es| - 1]);
      var h, e := Exec(es[..|es| - 1]), es[|es| - 1];
      match e
      case EvPost(du) => PostKeepsSound(h, du);
      case EvRead(size) =>
        ReadKeepsSound(h, size);
        ReadKeepsTruthful(h, size);
    }
  }

  /**
   When what is posted is what accepted writes handed down, the reader sees the bytes written: a prefix of
   each buffer of the length that its write returned, one after the other.
   */
  lemma ReadsSeeWrites(es: seq<Event>, chunks: seq<Du>, data: seq<Octet>, n: nat, max: nat, before: seq<Du>)
    requires Chunked(chunks, data, n, max) && Exec(es).posted == before + chunks
    ensures Concat(Exec(es).returned) + Concat(Exec(es).queue) == Concat(before) + data[..n]
  {
    StreamConserved(es);
    ConcatBoth(before, chunks);
  }
}
