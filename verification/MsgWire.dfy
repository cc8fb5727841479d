/**
 What a codec writes and what values come back as, said outright: for the combinations of codecs, and for the basic
 values.
 */
module MsgWire {
  import opened EfcpTypes
  import opened PciAccess
  import opened MsgCodec
  import opened MsgCombine
  import opened MsgConfigs

  /** What a value is written as in front of what follows it, and what it comes back as. */
  datatype Wire<!T> = Wire(out: (T, seq<Octet>) -> seq<Octet>, back: T -> T)

  ghost predicate As<T(!new)>(c: Codec<T>, w: Wire<T>) {
    && (forall x :: c.seen(x) == w.back(x)) && (forall x, k :: c.write(x, k) == w.out(x, k))
  }

  // ---------------------------------------------------------------- one after the other

  function TwoW<A, B>(a: Wire<A>, b: Wire<B>): Wire<(A, B)> {
    Wire((t: (A, B), k: seq<Octet>) => a.out(t.0, b.out(t.1, k)), (t: (A, B)) => (a.back(t.0), b.back(t.1)))
  }

  function ThreeW<A, B, C>(a: Wire<A>, b: Wire<B>, c: Wire<C>): Wire<(A, B, C)> {
    Wire((t: (A, B, C), k: seq<Octet>) => a.out(t.0, b.out(t.1, c.out(t.2, k))),
         (t: (A, B, C)) => (a.back(t.0), b.back(t.1), c.back(t.2)))
  }

  function FourW<A, B, C, D>(a: Wire<A>, b: Wire<B>, c: Wire<C>, d: Wire<D>): Wire<(A, B, C, D)> {
    Wire((t: (A, B, C, D), k: seq<Octet>) => a.out(t.0, b.out(t.1, c.out(t.2, d.out(t.3, k)))),
         (t: (A, B, C, D)) => (a.back(t.0), b.back(t.1), c.back(t.2), d.back(t.3)))
  }

  function ThenW<A, B>(a: Wire<A>, b: A -> Wire<B>): Wire<(A, B)> {
    Wire((t: (A, B), k: seq<Octet>) => a.out(t.0, b(t.0).out(t.1, k)), (t: (A, B)) => (a.back(t.0), b(t.0).back(t.1)))
  }

  lemma TwoAs<A(!new), B(!new)>(a: Codec<A>, wa: Wire<A>, b: Codec<B>, wb: Wire<B>)
    requires As(a, wa) && As(b, wb)
    ensures As(Two(a, b), TwoW(wa, wb))
  {
    var e, w := Two(a, b), TwoW(wa, wb);
    forall x ensures e.seen(x) == w.back(x) { TwoIs(a, b, x); }
    forall x, k ensures e.write(x, k) == w.out(x, k) {
      assert e.write(x, k) == a.write(x.0, b.write(x.1, k));
    }
  }

  lemma ThreeAs<A(!new), B(!new), C(!new)>(a: Codec<A>, wa: Wire<A>, b: Codec<B>, wb: Wire<B>, c: Codec<C>, wc: Wire<C>)
    requires As(a, wa) && As(b, wb) && As(c, wc)
    ensures As(Three(a, b, c), ThreeW(wa, wb, wc))
  {
    var e, w := Three(a, b, c), ThreeW(wa, wb, wc);
    forall x ensures e.seen(x) == w.back(x) { ThreeIs(a, b, c, x); }
    forall x, k ensures e.write(x, k) == w.out(x, k) {
      assert e.write(x, k) == a.write(x.0, b.write(x.1, c.write(x.2, k)));
    }
  }

  lemma FourAs<A(!new), B(!new), C(!new), D(!new)>(
      a: Codec<A>, wa: Wire<A>, b: Codec<B>, wb: Wire<B>, c: Codec<C>, wc: Wire<C>, d: Codec<D>, wd: Wire<D>)
    requires As(a, wa) && As(b, wb) && As(c, wc) && As(d, wd)
    ensures As(Four(a, b, c, d), FourW(wa, wb, wc, wd))
  {
    var e, w := Four(a, b, c, d), FourW(wa, wb, wc, wd);
    forall x ensures e.seen(x) == w.back(x) { FourIs(a, b, c, d, x); }
    forall x, k ensures e.write(x, k) == w.out(x, k) {
      assert e.write(x, k) == a.write(x.0, b.write(x.1, c.write(x.2, d.write(x.3, k))));
    }
  }

  lemma ThenAs<A(!new), B(!new)>(a: Codec<A>, wa: Wire<A>, b: A -> Codec<B>, wb: A -> Wire<B>)
    requires As(a, wa) && forall x :: As(b(x), wb(x))
    ensures As(Then(a, b), ThenW(wa, wb))
  {
    var e, w := Then(a, b), ThenW(wa, wb);
    forall x ensures e.seen(x) == w.back(x) {
      ThenIs(a, b, x);
      assert As(b(x.0), wb(x.0));
    }
    forall x, k ensures e.write(x, k) == w.out(x, k) {
      assert As(b(x.0), wb(x.0));
      assert e.write(x, k) == a.write(x.0, b(x.0).write(x.1, k));
    }
  }

  /** A structure, given by its own fields: `v` is what its parts say. */
  lemma StructAs<A(!new), B(!new)>(c: Codec<B>, w: Wire<B>, parts: A -> B, build: B -> A, len: A -> nat, v: Wire<A>)
    requires As(c, w) && (forall x, k :: v.out(x, k) == w.out(parts(x), k)) && (forall x :: v.back(x) == build(w.back(parts(x))))
    ensures As(Struct(c, parts, build, len), v)
  {
    var e := Struct(c, parts, build, len);
    forall x ensures e.seen(x) == v.back(x) { StructIs(c, parts, build, len, x); }
    forall x, k ensures e.write(x, k) == v.out(x, k) {
      assert e.write(x, k) == c.write(parts(x), k);
    }
  }

  // ---------------------------------------------------------------- pointers and lists

  /** NULL is written as nothing. */
  function PtrOut<T>(out: (T, seq<Octet>) -> seq<Octet>, x: Option<T>, k: seq<Octet>): seq<Octet> {
    if x.Some? then out(x.value, k) else k
  }

  function PtrBack<T>(back: T -> T, x: Option<T>): Option<T> { if x.Some? then Some(back(x.value)) else None }

  function WhenW<T>(w: Wire<T>, on: bool): Wire<Option<T>> {
    Wire((x: Option<T>, k: seq<Octet>) => if on then PtrOut(w.out, x, k) else k,
         (x: Option<T>) => if on then PtrBack(w.back, x) else None)
  }

  function PtrW<T>(w: Wire<T>): Wire<Option<T>> {
    Wire((x: Option<T>, k: seq<Octet>) => PtrOut(w.out, x, k), (x: Option<T>) => PtrBack(w.back, x))
  }

  function ListW<T>(w: Wire<T>): Wire<seq<T>> {
    Wire((xs: seq<T>, k: seq<Octet>) => ListBytes(w.out, xs, k), (xs: seq<T>) => Seen(w.back, xs))
  }

  function ManyW<T>(w: Wire<T>): Wire<seq<T>> {
    Wire((xs: seq<T>, k: seq<Octet>) => AllBytes(w.out, xs, k), (xs: seq<T>) => Seen(w.back, xs))
  }

  lemma WhenAs<T(!new)>(c: Codec<T>, w: Wire<T>, on: bool)
    requires As(c, w)
    ensures As(When(c, on), WhenW(w, on))
  {
    var e, v := When(c, on), WhenW(w, on);
    forall x ensures e.seen(x) == v.back(x) {
      if on && x.Some? { assert e.seen(x) == Some(c.seen(x.value)); }
    }
    forall x, k ensures e.write(x, k) == v.out(x, k) {
      assert e.write(x, k) == if on && x.Some? then c.write(x.value, k) else k;
    }
  }

  lemma PtrAs<T(!new)>(c: Codec<T>, w: Wire<T>)
    requires As(c, w)
    ensures As(Ptr(c), PtrW(w))
  {
    WhenAs(c, w, true);
  }

  lemma {:induction false} AllAs<T(!new)>(c: Codec<T>, w: Wire<T>, xs: seq<T>, k: seq<Octet>)
    requires As(c, w)
    ensures AllBytes(c.write, xs, k) == AllBytes(w.out, xs, k) && Seen(c.seen, xs) == Seen(w.back, xs)
  {
    if xs != [] {
      AllAs(c, w, xs[1..], k);
    }
  }

  lemma ListAs<T(!new)>(c: Codec<T>, w: Wire<T>)
    requires As(c, w)
    ensures As(ListOf(c), ListW(w))
  {
    var e, v := ListOf(c), ListW(w);
    forall xs ensures e.seen(xs) == v.back(xs) { AllAs(c, w, xs, []); }
    forall xs, k ensures e.write(xs, k) == v.out(xs, k) { AllAs(c, w, xs, k); }
  }

  lemma ManyAs<T(!new)>(c: Codec<T>, w: Wire<T>, n: nat)
    requires As(c, w)
    ensures As(Many(c, n), ManyW(w))
  {
    var e, v := Many(c, n), ManyW(w);
    forall xs ensures e.seen(xs) == v.back(xs) { AllAs(c, w, xs, []); }
    forall xs, k ensures e.write(xs, k) == v.out(xs, k) { AllAs(c, w, xs, k); }
  }

  // ---------------------------------------------------------------- basic values

  function N2(v: nat, k: seq<Octet>): seq<Octet> { NumBytes(v, 2, k) }

  function N4(v: nat, k: seq<Octet>): seq<Octet> { NumBytes(v, 4, k) }

  function Bit(b: bool, k: seq<Octet>): seq<Octet> { NumBytes(if b then 1 else 0, 1, k) }

  function Pol1(p: Option<Policy>, k: seq<Octet>): seq<Octet> { PtrOut(PolicyBytes, p, k) }

  const W2 := Wire(N2, Same)
  const W4 := Wire(N4, Same)
  const WBit := Wire(Bit, Same)
  const WText := Wire(TextBytes, TextSeen)
  const WName := Wire(NameBytes, NameSeen)
  const WPol := Wire(Pol1, PolSeen)

  lemma BasicAs()
    ensures As(Num(2), W2) && As(Num(4), W4) && As(Str(), WText) && As(Names(), WName)
  {
  }

  lemma FlagAs()
    ensures As(Flag(), WBit)
  {
    StructAs(Num(1), Wire((v: nat, k: seq<Octet>) => NumBytes(v, 1, k), Same), (b: bool) => if b then 1 else 0, (v: nat) => v != 0,
             (b: bool) => 1, WBit);
  }

  lemma PolAs()
    ensures As(Pol(), WPol)
  {
    var c, w := Policies(), Wire(PolicyBytes, PolicySeen);
    assert As(c, w);
    PtrAs(c, w);
  }
}
