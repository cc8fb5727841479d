/**
 Codecs as values. A codec gathers what the serialiser does with one type: what is written, what is read, what a
 value comes back as, and the length that is announced for it. The combinators build the codec of a structure from
 those of its parts, and each keeps the laws: the announced length is an upper bound, and values without NULL
 pointers come back.
 */
module MsgCombine {
  import opened EfcpTypes
  import opened PciAccess
  import opened MsgCodec

  /**
   What there is to say about a value: what it comes back as and the length that is announced for it; whether that
   length is exact; whether the value is within the range of its C types and counts; and whether it is whole, that
   is, has no NULL pointer that the reader does not expect.
   */
  datatype About<+T> = About(seen: T, len: nat, exact: bool, ranged: bool, whole: bool)

  datatype Codec<!T> = Codec(write: (T, seq<Octet>) -> seq<Octet>, read: seq<Octet> -> Parsed<T>, about: T -> About<T>)
  {
    function seen(x: T): T { about(x).seen }

    function len(x: T): nat { about(x).len }

    predicate exact(x: T) { about(x).exact }

    predicate ranged(x: T) { about(x).ranged }

    predicate whole(x: T) { about(x).whole }
  }

  ghost predicate Lengths<T(!new)>(c: Codec<T>) {
    forall x :: Measures(c.write, c.len, c.exact(x), x)
  }

  ghost predicate Returns<T(!new)>(c: Codec<T>) {
    forall x :: c.ranged(x) && c.whole(x) ==> Agrees(c.write, c.read, c.seen, x)
  }

  /**
   The reader makes only values that are whole and within range, and what a value comes back as is so only if the value
   was.
   */
  ghost predicate Wholes<T(!new)>(c: Codec<T>) {
    && (forall bs :: c.read(bs).Done? ==> Good(c, c.read(bs).value))
    && (forall x :: (c.whole(c.seen(x)) ==> c.whole(x)) && (c.ranged(c.seen(x)) ==> c.ranged(x)))
  }

  predicate Good<T>(c: Codec<T>, x: T) { c.whole(x) && c.ranged(x) }

  ghost predicate Lawful<T(!new)>(c: Codec<T>) { Lengths(c) && Returns(c) && Wholes(c) }

  /** The announced length is exact for every value. */
  ghost predicate AlwaysExact<T(!new)>(c: Codec<T>) { forall x :: c.exact(x) }

  /** The laws in the terms of one value. */
  lemma Law<T(!new)>(c: Codec<T>, x: T, k: seq<Octet>)
    requires Lawful(c)
    ensures |c.write(x, k)| <= c.len(x) + |k| && (|c.write(x, k)| == c.len(x) + |k| <==> c.exact(x))
    ensures c.ranged(x) && c.whole(x) ==> c.read(c.write(x, k)) == Done(c.seen(x), k)
  {
    assert Measures(c.write, c.len, c.exact(x), x);
    if c.ranged(x) && c.whole(x) {
      assert Agrees(c.write, c.read, c.seen, x);
    }
  }

  /** A value comes back exactly if it is whole and within range. */
  lemma RoundTripIff<T(!new)>(c: Codec<T>, x: T, k: seq<Octet>)
    requires Lawful(c)
    ensures c.read(c.write(x, k)) == Done(c.seen(x), k) <==> c.ranged(x) && c.whole(x)
  {
    Law(c, x, k);
    if c.read(c.write(x, k)) == Done(c.seen(x), k) {
      assert Good(c, c.seen(x));
    }
  }

  // ---------------------------------------------------------------- one after the other

  function WriteTwo<A, B>(c: Codec<A>, d: Codec<B>): ((A, B), seq<Octet>) -> seq<Octet> {
    (p: (A, B), k) => c.write(p.0, d.write(p.1, k))
  }

  function ReadTwo<A, B>(c: Codec<A>, d: Codec<B>): seq<Octet> -> Parsed<(A, B)> {
    bs => match c.read(bs)
          case Cut => Cut
          case Done(a, r) => (match d.read(r) case Cut => Cut case Done(b, r2) => Done((a, b), r2))
  }

  function Two<A, B>(c: Codec<A>, d: Codec<B>): Codec<(A, B)> {
    Codec(WriteTwo(c, d), ReadTwo(c, d),
          (p: (A, B)) => (var x, y := c.about(p.0), d.about(p.1);
                          About((x.seen, y.seen), x.len + y.len, x.exact && y.exact, x.ranged && y.ranged, x.whole && y.whole)))
  }

  lemma TwoLaw<A(!new), B(!new)>(c: Codec<A>, d: Codec<B>, p: (A, B), k: seq<Octet>)
    requires Lawful(c) && Lawful(d)
    ensures var e := Two(c, d);
            && |e.write(p, k)| <= e.len(p) + |k| && (|e.write(p, k)| == e.len(p) + |k| <==> e.exact(p))
            && (e.ranged(p) && e.whole(p) ==> e.read(e.write(p, k)) == Done(e.seen(p), k))
  {
    Law(d, p.1, k);
    Law(c, p.0, d.write(p.1, k));
  }

  lemma TwoIs<A, B>(c: Codec<A>, d: Codec<B>, p: (A, B))
    ensures var e := Two(c, d);
            && e.len(p) == c.len(p.0) + d.len(p.1) && e.seen(p) == (c.seen(p.0), d.seen(p.1))
            && (e.whole(p) <==> c.whole(p.0) && d.whole(p.1)) && (e.exact(p) <==> c.exact(p.0) && d.exact(p.1))
            && (e.ranged(p) <==> c.ranged(p.0) && d.ranged(p.1))
  {
  }

  lemma TwoWholes<A(!new), B(!new)>(c: Codec<A>, d: Codec<B>)
    requires Wholes(c) && Wholes(d)
    ensures Wholes(Two(c, d))
  {
    var e := Two(c, d);
    forall bs ensures e.read(bs).Done? ==> Good(e, e.read(bs).value) {
      if e.read(bs).Done? {
        var r := c.read(bs);
        assert Good(c, r.value) && Good(d, d.read(r.rest).value);
        TwoIs(c, d, (r.value, d.read(r.rest).value));
      }
    }
    forall p ensures (e.whole(e.seen(p)) ==> e.whole(p)) && (e.ranged(e.seen(p)) ==> e.ranged(p)) {
      TwoIs(c, d, p);
      TwoIs(c, d, e.seen(p));
    }
  }

  /** The laws hold of a codec if they hold of each value and what follows it. */
  lemma LawfulFrom<T(!new)>(c: Codec<T>)
    requires Wholes(c)
    requires forall x, k :: |c.write(x, k)| <= c.len(x) + |k| && (|c.write(x, k)| == c.len(x) + |k| <==> c.exact(x))
    requires forall x, k :: c.ranged(x) && c.whole(x) ==> c.read(c.write(x, k)) == Done(c.seen(x), k)
    ensures Lawful(c)
  {
  }

  lemma TwoLawful<A(!new), B(!new)>(c: Codec<A>, d: Codec<B>)
    requires Lawful(c) && Lawful(d)
    ensures Lawful(Two(c, d)) && (AlwaysExact(c) && AlwaysExact(d) ==> AlwaysExact(Two(c, d)))
  {
    var e := Two(c, d);
    TwoWholes(c, d);
    forall p, k ensures |e.write(p, k)| <= e.len(p) + |k| && (|e.write(p, k)| == e.len(p) + |k| <==> e.exact(p))
                ensures e.ranged(p) && e.whole(p) ==> e.read(e.write(p, k)) == Done(e.seen(p), k) {
      TwoLaw(c, d, p, k);
    }
    LawfulFrom(e);
    forall p ensures AlwaysExact(c) && AlwaysExact(d) ==> e.exact(p) { TwoIs(c, d, p); }
  }

  // ---------------------------------------------------------------- structures

  /**
   A structure with its parts in the order in which they are written, put together again in the order in which they
   are read, and with its own length function.
   */
  function Struct<A, B>(c: Codec<B>, parts: A -> B, build: B -> A, len: A -> nat): Codec<A> {
    Codec((x: A, k: seq<Octet>) => c.write(parts(x), k),
          bs => (match c.read(bs) case Cut => Cut case Done(y, r) => Done(build(y), r)),
          (x: A) => (var y := c.about(parts(x)); About(build(y.seen), len(x), y.exact, y.ranged, y.whole)))
  }

  lemma StructIs<A, B>(c: Codec<B>, parts: A -> B, build: B -> A, len: A -> nat, x: A)
    ensures var e := Struct(c, parts, build, len);
            && e.len(x) == len(x) && e.seen(x) == build(c.seen(parts(x))) && e.exact(x) == c.exact(parts(x))
            && e.ranged(x) == c.ranged(parts(x)) && e.whole(x) == c.whole(parts(x))
  {
  }

  lemma StructLaw<A(!new), B(!new)>(c: Codec<B>, parts: A -> B, build: B -> A, len: A -> nat, x: A, k: seq<Octet>)
    requires Lawful(c) && len(x) == c.len(parts(x))
    ensures var e := Struct(c, parts, build, len);
            && |e.write(x, k)| <= e.len(x) + |k| && (|e.write(x, k)| == e.len(x) + |k| <==> e.exact(x))
            && (e.ranged(x) && e.whole(x) ==> e.read(e.write(x, k)) == Done(e.seen(x), k))
  {
    Law(c, parts(x), k);
  }

  /** Being written again changes neither whether what was read is whole nor whether it is within range. */
  ghost predicate Rewritable<A(!new), B(!new)>(c: Codec<B>, parts: A -> B, build: B -> A) {
    && (forall y :: c.whole(parts(build(y))) == c.whole(y)) && (forall y :: c.ranged(y) ==> c.ranged(parts(build(y))))
    && (forall x :: c.ranged(parts(build(c.seen(parts(x))))) ==> c.ranged(parts(x)))
  }

  lemma StructWholes<A(!new), B(!new)>(c: Codec<B>, parts: A -> B, build: B -> A, len: A -> nat)
    requires Wholes(c) && Rewritable(c, parts, build)
    ensures Wholes(Struct(c, parts, build, len))
  {
    var e := Struct(c, parts, build, len);
    forall bs ensures e.read(bs).Done? ==> Good(e, e.read(bs).value) {
      if c.read(bs).Done? {
        assert Good(c, c.read(bs).value);
        StructIs(c, parts, build, len, build(c.read(bs).value));
      }
    }
    forall x ensures (e.whole(e.seen(x)) ==> e.whole(x)) && (e.ranged(e.seen(x)) ==> e.ranged(x)) {
      StructIs(c, parts, build, len, x);
      StructIs(c, parts, build, len, e.seen(x));
      assert c.whole(parts(build(c.seen(parts(x))))) == c.whole(c.seen(parts(x)));
    }
  }

  lemma StructLawful<A(!new), B(!new)>(c: Codec<B>, parts: A -> B, build: B -> A, len: A -> nat)
    requires Lawful(c) && (forall x :: len(x) == c.len(parts(x))) && Rewritable(c, parts, build)
    ensures Lawful(Struct(c, parts, build, len)) && (AlwaysExact(c) ==> AlwaysExact(Struct(c, parts, build, len)))
  {
    var e := Struct(c, parts, build, len);
    StructWholes(c, parts, build, len);
    forall x, k ensures |e.write(x, k)| <= e.len(x) + |k| && (|e.write(x, k)| == e.len(x) + |k| <==> e.exact(x))
                ensures e.ranged(x) && e.whole(x) ==> e.read(e.write(x, k)) == Done(e.seen(x), k) {
      StructLaw(c, parts, build, len, x, k);
    }
    LawfulFrom(e);
    forall x ensures AlwaysExact(c) ==> e.exact(x) { StructIs(c, parts, build, len, x); }
  }

  function ReadThree<A, B, C>(a: Codec<A>, b: Codec<B>, c: Codec<C>, bs: seq<Octet>): Parsed<(A, B, C)> {
    match a.read(bs)
    case Cut => Cut
    case Done(x, r) =>
      match b.read(r)
      case Cut => Cut
      case Done(y, r2) =>
        match c.read(r2)
        case Cut => Cut
        case Done(z, r3) => Done((x, y, z), r3)
  }

  function Three<A, B, C>(a: Codec<A>, b: Codec<B>, c: Codec<C>): Codec<(A, B, C)> {
    Codec((t: (A, B, C), k: seq<Octet>) => a.write(t.0, b.write(t.1, c.write(t.2, k))), bs => ReadThree(a, b, c, bs),
          (t: (A, B, C)) => (var x, y, z := a.about(t.0), b.about(t.1), c.about(t.2);
                             About((x.seen, y.seen, z.seen), x.len + y.len + z.len, x.exact && y.exact && z.exact,
                                   x.ranged && y.ranged && z.ranged, x.whole && y.whole && z.whole)))
  }

  lemma ThreeLaw<A(!new), B(!new), C(!new)>(a: Codec<A>, b: Codec<B>, c: Codec<C>, t: (A, B, C), k: seq<Octet>)
    requires Lawful(a) && Lawful(b) && Lawful(c)
    ensures var e := Three(a, b, c);
            && |e.write(t, k)| <= e.len(t) + |k| && (|e.write(t, k)| == e.len(t) + |k| <==> e.exact(t))
            && (e.ranged(t) && e.whole(t) ==> e.read(e.write(t, k)) == Done(e.seen(t), k))
  {
    Law(c, t.2, k);
    Law(b, t.1, c.write(t.2, k));
    Law(a, t.0, b.write(t.1, c.write(t.2, k)));
  }

  lemma ThreeWholes<A(!new), B(!new), C(!new)>(a: Codec<A>, b: Codec<B>, c: Codec<C>)
    requires Wholes(a) && Wholes(b) && Wholes(c)
    ensures Wholes(Three(a, b, c))
  {
    var e := Three(a, b, c);
    forall bs ensures e.read(bs).Done? ==> Good(e, e.read(bs).value) {
      assert e.read(bs) == ReadThree(a, b, c, bs);
      if e.read(bs).Done? {
        ThreeIs(a, b, c, e.read(bs).value);
        ReadThreeGood(a, b, c, bs);
      }
    }
    forall t ensures (e.whole(e.seen(t)) ==> e.whole(t)) && (e.ranged(e.seen(t)) ==> e.ranged(t)) {
      ThreeIs(a, b, c, t);
      ThreeIs(a, b, c, e.seen(t));
    }
  }

  lemma ReadThreeGood<A(!new), B(!new), C(!new)>(a: Codec<A>, b: Codec<B>, c: Codec<C>, bs: seq<Octet>)
    requires Wholes(a) && Wholes(b) && Wholes(c) && ReadThree(a, b, c, bs).Done?
    ensures var t := ReadThree(a, b, c, bs).value; Good(a, t.0) && Good(b, t.1) && Good(c, t.2)
  {
  }

  lemma ThreeLawful<A(!new), B(!new), C(!new)>(a: Codec<A>, b: Codec<B>, c: Codec<C>)
    requires Lawful(a) && Lawful(b) && Lawful(c)
    ensures Lawful(Three(a, b, c)) && (AlwaysExact(a) && AlwaysExact(b) && AlwaysExact(c) ==> AlwaysExact(Three(a, b, c)))
  {
    var e := Three(a, b, c);
    ThreeWholes(a, b, c);
    forall t, k ensures |e.write(t, k)| <= e.len(t) + |k| && (|e.write(t, k)| == e.len(t) + |k| <==> e.exact(t))
                ensures e.ranged(t) && e.whole(t) ==> e.read(e.write(t, k)) == Done(e.seen(t), k) {
      ThreeLaw(a, b, c, t, k);
    }
    LawfulFrom(e);
    forall t ensures AlwaysExact(a) && AlwaysExact(b) && AlwaysExact(c) ==> e.exact(t) { ThreeIs(a, b, c, t); }
  }

  function ReadFour<A, B, C, D>(a: Codec<A>, b: Codec<B>, c: Codec<C>, d: Codec<D>, bs: seq<Octet>): Parsed<(A, B, C, D)> {
    match ReadThree(a, b, c, bs)
    case Cut => Cut
    case Done(t, r) =>
      match d.read(r)
      case Cut => Cut
      case Done(w, r2) => Done((t.0, t.1, t.2, w), r2)
  }

  function Four<A, B, C, D>(a: Codec<A>, b: Codec<B>, c: Codec<C>, d: Codec<D>): Codec<(A, B, C, D)> {
    Codec((t: (A, B, C, D), k: seq<Octet>) => a.write(t.0, b.write(t.1, c.write(t.2, d.write(t.3, k)))), bs => ReadFour(a, b, c, d, bs),
          (t: (A, B, C, D)) => (var x, y, z, w := a.about(t.0), b.about(t.1), c.about(t.2), d.about(t.3);
                                About((x.seen, y.seen, z.seen, w.seen), x.len + y.len + z.len + w.len,
                                      x.exact && y.exact && z.exact && w.exact, x.ranged && y.ranged && z.ranged && w.ranged,
                                      x.whole && y.whole && z.whole && w.whole)))
  }

  lemma FourLaw<A(!new), B(!new), C(!new), D(!new)>(a: Codec<A>, b: Codec<B>, c: Codec<C>, d: Codec<D>, t: (A, B, C, D), k: seq<Octet>)
    requires Lawful(a) && Lawful(b) && Lawful(c) && Lawful(d)
    ensures var e := Four(a, b, c, d);
            && |e.write(t, k)| <= e.len(t) + |k| && (|e.write(t, k)| == e.len(t) + |k| <==> e.exact(t))
            && (e.ranged(t) && e.whole(t) ==> e.read(e.write(t, k)) == Done(e.seen(t), k))
  {
    Law(d, t.3, k);
    ThreeLaw(a, b, c, (t.0, t.1, t.2), d.write(t.3, k));
  }

  lemma FourWholes<A(!new), B(!new), C(!new), D(!new)>(a: Codec<A>, b: Codec<B>, c: Codec<C>, d: Codec<D>)
    requires Wholes(a) && Wholes(b) && Wholes(c) && Wholes(d)
    ensures Wholes(Four(a, b, c, d))
  {
    var e := Four(a, b, c, d);
    forall bs ensures e.read(bs).Done? ==> Good(e, e.read(bs).value) {
      assert e.read(bs) == ReadFour(a, b, c, d, bs);
      if e.read(bs).Done? {
        FourIs(a, b, c, d, e.read(bs).value);
        ReadThreeGood(a, b, c, bs);
        assert Good(d, d.read(ReadThree(a, b, c, bs).rest).value);
      }
    }
    forall t ensures (e.whole(e.seen(t)) ==> e.whole(t)) && (e.ranged(e.seen(t)) ==> e.ranged(t)) {
      FourIs(a, b, c, d, t);
      FourIs(a, b, c, d, e.seen(t));
    }
  }

  lemma FourLawful<A(!new), B(!new), C(!new), D(!new)>(a: Codec<A>, b: Codec<B>, c: Codec<C>, d: Codec<D>)
    requires Lawful(a) && Lawful(b) && Lawful(c) && Lawful(d)
    ensures Lawful(Four(a, b, c, d))
    ensures AlwaysExact(a) && AlwaysExact(b) && AlwaysExact(c) && AlwaysExact(d) ==> AlwaysExact(Four(a, b, c, d))
  {
    var e := Four(a, b, c, d);
    FourWholes(a, b, c, d);
    forall t, k ensures |e.write(t, k)| <= e.len(t) + |k| && (|e.write(t, k)| == e.len(t) + |k| <==> e.exact(t))
                ensures e.ranged(t) && e.whole(t) ==> e.read(e.write(t, k)) == Done(e.seen(t), k) {
      FourLaw(a, b, c, d, t, k);
    }
    LawfulFrom(e);
    forall t ensures AlwaysExact(a) && AlwaysExact(b) && AlwaysExact(c) && AlwaysExact(d) ==> e.exact(t) {
      FourIs(a, b, c, d, t);
    }
  }

  lemma ThreeIs<A, B, C>(a: Codec<A>, b: Codec<B>, c: Codec<C>, t: (A, B, C))
    ensures var e := Three(a, b, c);
            && e.len(t) == a.len(t.0) + b.len(t.1) + c.len(t.2)
            && e.seen(t) == (a.seen(t.0), b.seen(t.1), c.seen(t.2))
            && (e.whole(t) <==> a.whole(t.0) && b.whole(t.1) && c.whole(t.2))
            && (e.exact(t) <==> a.exact(t.0) && b.exact(t.1) && c.exact(t.2))
            && (e.ranged(t) <==> a.ranged(t.0) && b.ranged(t.1) && c.ranged(t.2))
  {
  }

  lemma FourIs<A, B, C, D>(a: Codec<A>, b: Codec<B>, c: Codec<C>, d: Codec<D>, t: (A, B, C, D))
    ensures var e := Four(a, b, c, d);
            && e.len(t) == a.len(t.0) + b.len(t.1) + c.len(t.2) + d.len(t.3)
            && e.seen(t) == (a.seen(t.0), b.seen(t.1), c.seen(t.2), d.seen(t.3))
            && (e.whole(t) <==> a.whole(t.0) && b.whole(t.1) && c.whole(t.2) && d.whole(t.3))
            && (e.exact(t) <==> a.exact(t.0) && b.exact(t.1) && c.exact(t.2) && d.exact(t.3))
            && (e.ranged(t) <==> a.ranged(t.0) && b.ranged(t.1) && c.ranged(t.2) && d.ranged(t.3))
  {
  }

  // ---------------------------------------------------------------- basic values

  function Num(w: nat): Codec<nat> {
    Codec((v: nat, k: seq<Octet>) => NumBytes(v, w, k), bs => ReadNum(w, bs), (v: nat) => About(v, w, true, v < Pow256(w), true))
  }

  lemma NumLawful(w: nat)
    ensures Lawful(Num(w)) && AlwaysExact(Num(w))
  {
    var c := Num(w);
    forall v: nat, k ensures |c.write(v, k)| == c.len(v) + |k| && (c.ranged(v) ==> c.read(c.write(v, k)) == Done(v, k)) {
      if v < Pow256(w) {
        NumRoundTrip(v, w, k);
      }
    }
    forall bs ensures c.read(bs).Done? ==> Good(c, c.read(bs).value) {
      if |bs| >= w { ValueBound(bs[..w]); }
    }
    LawfulFrom(c);
  }

  /** A C `bool` is one byte, and anything but zero reads as true. */
  function Flag(): Codec<bool> {
    Struct(Num(1), (b: bool) => if b then 1 else 0, (v: nat) => v != 0, (b: bool) => 1)
  }

  lemma FlagLawful()
    ensures Lawful(Flag()) && AlwaysExact(Flag()) && forall b: bool :: Flag().seen(b) == b
  {
    NumLawful(1);
    StructLawful(Num(1), (b: bool) => if b then 1 else 0, (v: nat) => v != 0, (b: bool) => 1);
  }

  function TextLen(s: Text): nat { 2 + StringLen(s) }

  /** A NULL string comes back as an empty one. */
  function Str(): Codec<Text> {
    Codec(TextBytes, ReadText, (s: Text) => About(TextSeen(s), TextLen(s), true, true, true))
  }

  lemma StrLawful()
    ensures Measured(Str(), TextLen)
  {
    forall s, k ensures |TextBytes(s, k)| == TextLen(s) + |k| && ReadText(TextBytes(s, k)) == Done(TextSeen(s), k) {
      TextRoundTrip(s, k);
    }
    LawfulFrom(Str());
  }

  /** A NULL name is written as nothing, although room is announced for it. */
  function Names(): Codec<Option<Name>> {
    Codec(NameBytes, ReadName, (n: Option<Name>) => About(NameSeen(n), NameLen(n), Present(n), true, Present(n)))
  }

  lemma NamesLawful()
    ensures Sized(Names(), NameLen) && forall n :: (Names().exact(n) <==> Present(n)) && (Names().whole(n) <==> Present(n))
  {
    forall n, k ensures Present(n) ==> ReadName(NameBytes(n, k)) == Done(NameSeen(n), k)
                ensures |NameBytes(n, k)| <= NameLen(n) + |k| && (|NameBytes(n, k)| == NameLen(n) + |k| <==> Present(n)) {
      NameRoundTrip(n, k);
    }
    LawfulFrom(Names());
  }

  // ---------------------------------------------------------------- pointers

  /** A pointer that is followed only if `on`: NULL is then written as nothing, and read as something all the same. */
  function When<T>(c: Codec<T>, on: bool): Codec<Option<T>> {
    Codec((x: Option<T>, k: seq<Octet>) => if on && x.Some? then c.write(x.value, k) else k,
          bs => if !on then Done(None, bs) else (match c.read(bs) case Cut => Cut case Done(y, r) => Done(Some(y), r)),
          (x: Option<T>) => if on && x.Some? then (var y := c.about(x.value); About(Some(y.seen), y.len, y.exact, y.ranged, y.whole))
                            else About(None, 0, true, true, !on))
  }

  lemma WhenLawful<T(!new)>(c: Codec<T>, on: bool)
    requires Lawful(c)
    ensures Lawful(When(c, on)) && (AlwaysExact(c) ==> AlwaysExact(When(c, on)))
  {
    var e := When(c, on);
    forall x, k ensures |e.write(x, k)| <= e.len(x) + |k| && (|e.write(x, k)| == e.len(x) + |k| <==> e.exact(x))
                ensures e.ranged(x) && e.whole(x) ==> e.read(e.write(x, k)) == Done(e.seen(x), k) {
      if on && x.Some? {
        Law(c, x.value, k);
      }
    }
    forall x ensures (e.whole(e.seen(x)) ==> e.whole(x)) && (e.ranged(e.seen(x)) ==> e.ranged(x)) {
      if on && x.Some? {
        assert e.seen(x) == Some(c.seen(x.value)) && e.whole(x) == c.whole(x.value) && e.ranged(x) == c.ranged(x.value);
        assert e.whole(e.seen(x)) == c.whole(c.seen(x.value)) && e.ranged(e.seen(x)) == c.ranged(c.seen(x.value));
      }
    }
    forall bs ensures e.read(bs).Done? ==> Good(e, e.read(bs).value) {
      if on && c.read(bs).Done? {
        var y := c.read(bs).value;
        assert Good(c, y) && e.whole(Some(y)) == c.whole(y) && e.ranged(Some(y)) == c.ranged(y);
      }
    }
    LawfulFrom(e);
    forall x ensures AlwaysExact(c) ==> e.exact(x) {
      if on && x.Some? { assert e.exact(x) == c.exact(x.value); }
    }
  }

  function Ptr<T>(c: Codec<T>): Codec<Option<T>> { When(c, true) }

  // ---------------------------------------------------------------- lists

  predicate Each<T>(good: T -> bool, xs: seq<T>) { forall i :: 0 <= i < |xs| ==> good(xs[i]) }

  /** A 16-bit count and that many elements. */
  function ListOf<T>(c: Codec<T>): Codec<seq<T>> {
    Codec((xs: seq<T>, k: seq<Octet>) => ListBytes(c.write, xs, k), bs => ReadList(c.read, bs),
          (xs: seq<T>) => About(Seen(c.seen, xs), 2 + Total(c.len, xs), Each(c.exact, xs),
                                |xs| < 0x1_0000 && Each(c.ranged, xs), Each(c.whole, xs)))
  }

  /** As many elements as the layout of the message says, without a count. */
  function Many<T>(c: Codec<T>, n: nat): Codec<seq<T>> {
    Codec((xs: seq<T>, k: seq<Octet>) => AllBytes(c.write, xs, k), bs => ReadAll(c.read, n, bs),
          (xs: seq<T>) => About(Seen(c.seen, xs), Total(c.len, xs), Each(c.exact, xs),
                                |xs| == n && Each(c.ranged, xs), Each(c.whole, xs)))
  }

  lemma {:induction false} ReadAllGives<T(!new)>(c: Codec<T>, n: nat, bs: seq<Octet>)
    requires Wholes(c)
    ensures var p := ReadAll(c.read, n, bs); p.Done? ==> |p.value| == n && Each(c.whole, p.value) && Each(c.ranged, p.value)
    decreases n
  {
    if n > 0 && c.read(bs).Done? {
      ReadAllGives(c, n - 1, c.read(bs).rest);
    }
  }

  lemma SeenWhole<T(!new)>(c: Codec<T>, xs: seq<T>)
    requires Wholes(c)
    ensures Each(c.whole, Seen(c.seen, xs)) ==> Each(c.whole, xs)
    ensures Each(c.ranged, Seen(c.seen, xs)) ==> Each(c.ranged, xs)
  {
    forall i | 0 <= i < |xs|
      ensures Each(c.whole, Seen(c.seen, xs)) ==> c.whole(xs[i])
      ensures Each(c.ranged, Seen(c.seen, xs)) ==> c.ranged(xs[i])
    {
      assert Seen(c.seen, xs)[i] == c.seen(xs[i]);
    }
  }

  lemma EachLaw<T(!new)>(c: Codec<T>, xs: seq<T>, k: seq<Octet>)
    requires Lawful(c)
    ensures |AllBytes(c.write, xs, k)| <= Total(c.len, xs) + |k|
    ensures |AllBytes(c.write, xs, k)| == Total(c.len, xs) + |k| <==> Each(c.exact, xs)
    ensures Each(c.ranged, xs) && Each(c.whole, xs) ==> ReadAll(c.read, |xs|, AllBytes(c.write, xs, k)) == Done(Seen(c.seen, xs), k)
  {
    ListLength(c.write, c.len, c.exact, xs, k);
    if Each(c.ranged, xs) && Each(c.whole, xs) {
      ListRoundTrip(c.write, c.read, c.seen, xs, k);
    }
  }

  lemma ManyLawful<T(!new)>(c: Codec<T>, n: nat)
    requires Lawful(c)
    ensures Lawful(Many(c, n)) && (AlwaysExact(c) ==> AlwaysExact(Many(c, n)))
  {
    var e := Many(c, n);
    forall xs, k ensures |e.write(xs, k)| <= e.len(xs) + |k| && (|e.write(xs, k)| == e.len(xs) + |k| <==> e.exact(xs))
                 ensures e.ranged(xs) && e.whole(xs) ==> e.read(e.write(xs, k)) == Done(e.seen(xs), k) {
      EachLaw(c, xs, k);
    }
    forall bs ensures e.read(bs).Done? ==> Good(e, e.read(bs).value) { ReadAllGives(c, n, bs); }
    forall xs ensures (e.whole(e.seen(xs)) ==> e.whole(xs)) && (e.ranged(e.seen(xs)) ==> e.ranged(xs)) {
      SeenWhole(c, xs);
    }
    LawfulFrom(e);
  }

  lemma ListLaw<T(!new)>(c: Codec<T>, xs: seq<T>, k: seq<Octet>)
    requires Lawful(c)
    ensures var n := |ListBytes(c.write, xs, k)|;
            n <= 2 + Total(c.len, xs) + |k| && (n == 2 + Total(c.len, xs) + |k| <==> Each(c.exact, xs))
    ensures |xs| < 0x1_0000 && Each(c.ranged, xs) && Each(c.whole, xs) ==>
              ReadList(c.read, ListBytes(c.write, xs, k)) == Done(Seen(c.seen, xs), k)
  {
    EachLaw(c, xs, k);
    Widths();
    if |xs| < 0x1_0000 {
      NumRoundTrip(|xs|, 2, AllBytes(c.write, xs, k));
    }
  }

  lemma ListOfLawful<T(!new)>(c: Codec<T>)
    requires Lawful(c)
    ensures Lawful(ListOf(c)) && (AlwaysExact(c) ==> AlwaysExact(ListOf(c)))
  {
    var e := ListOf(c);
    forall xs, k ensures |e.write(xs, k)| <= e.len(xs) + |k| && (|e.write(xs, k)| == e.len(xs) + |k| <==> e.exact(xs))
                 ensures e.ranged(xs) && e.whole(xs) ==> e.read(e.write(xs, k)) == Done(e.seen(xs), k) {
      ListLaw(c, xs, k);
    }
    forall bs ensures e.read(bs).Done? ==> Good(e, e.read(bs).value) {
      if ReadNum(2, bs).Done? {
        ReadAllGives(c, ReadNum(2, bs).value, ReadNum(2, bs).rest);
        ValueBound(bs[..2]);
        Widths();
      }
    }
    forall xs ensures (e.whole(e.seen(xs)) ==> e.whole(xs)) && (e.ranged(e.seen(xs)) ==> e.ranged(xs)) {
      SeenWhole(c, xs);
    }
    LawfulFrom(e);
  }

  // ---------------------------------------------------------------- parts that depend on what came before

  function ReadThen<A, B>(c: Codec<A>, d: A -> Codec<B>): seq<Octet> -> Parsed<(A, B)> {
    bs => match c.read(bs)
          case Cut => Cut
          case Done(a, r) => (match d(a).read(r) case Cut => Cut case Done(b, r2) => Done((a, b), r2))
  }

  function Then<A, B>(c: Codec<A>, d: A -> Codec<B>): Codec<(A, B)> {
    Codec((p: (A, B), k: seq<Octet>) => c.write(p.0, d(p.0).write(p.1, k)), ReadThen(c, d),
          (p: (A, B)) => (var x, y := c.about(p.0), d(p.0).about(p.1);
                          About((x.seen, y.seen), x.len + y.len, x.exact && y.exact, x.ranged && y.ranged, x.whole && y.whole)))
  }

  lemma ThenIs<A, B>(c: Codec<A>, d: A -> Codec<B>, p: (A, B))
    ensures var e := Then(c, d);
            && e.len(p) == c.len(p.0) + d(p.0).len(p.1) && e.seen(p) == (c.seen(p.0), d(p.0).seen(p.1))
            && (e.whole(p) <==> c.whole(p.0) && d(p.0).whole(p.1)) && (e.exact(p) <==> c.exact(p.0) && d(p.0).exact(p.1))
            && (e.ranged(p) <==> c.ranged(p.0) && d(p.0).ranged(p.1))
  {
  }

  lemma ThenSameWhole<A, B>(c: Codec<A>, d: A -> Codec<B>, p: (A, B), p': (A, B))
    requires c.whole(p.0) == c.whole(p'.0) && c.ranged(p.0) == c.ranged(p'.0) && d(p.0) == d(p'.0) && p.1 == p'.1
    ensures Then(c, d).whole(p) == Then(c, d).whole(p') && Then(c, d).ranged(p) == Then(c, d).ranged(p')
  {
    ThenIs(c, d, p);
    ThenIs(c, d, p');
  }

  lemma ThenLaw<A(!new), B(!new)>(c: Codec<A>, d: A -> Codec<B>, p: (A, B), k: seq<Octet>)
    requires Lawful(c) && Lawful(d(p.0)) && d(c.seen(p.0)) == d(p.0)
    ensures var e := Then(c, d);
            && |e.write(p, k)| <= e.len(p) + |k| && (|e.write(p, k)| == e.len(p) + |k| <==> e.exact(p))
            && (e.ranged(p) && e.whole(p) ==> e.read(e.write(p, k)) == Done(e.seen(p), k))
  {
    Law(d(p.0), p.1, k);
    Law(c, p.0, d(p.0).write(p.1, k));
  }

  /** The part that follows may depend only on what survives being written and read. */
  lemma ThenLawful<A(!new), B(!new)>(c: Codec<A>, d: A -> Codec<B>)
    requires Lawful(c) && (forall a :: Lawful(d(a))) && (forall a :: d(c.seen(a)) == d(a))
    ensures Lawful(Then(c, d)) && (AlwaysExact(c) && (forall a :: AlwaysExact(d(a))) ==> AlwaysExact(Then(c, d)))
  {
    var e := Then(c, d);
    forall p, k ensures |e.write(p, k)| <= e.len(p) + |k| && (|e.write(p, k)| == e.len(p) + |k| <==> e.exact(p))
                ensures e.ranged(p) && e.whole(p) ==> e.read(e.write(p, k)) == Done(e.seen(p), k) {
      ThenLaw(c, d, p, k);
    }
    forall bs ensures e.read(bs).Done? ==> Good(e, e.read(bs).value) {
      if c.read(bs).Done? {
        var a := c.read(bs).value;
        assert Lawful(d(a)) && Good(c, a);
        if e.read(bs).Done? {
          assert Good(d(a), d(a).read(c.read(bs).rest).value);
          ThenIs(c, d, e.read(bs).value);
        }
      }
    }
    forall p ensures (e.whole(e.seen(p)) ==> e.whole(p)) && (e.ranged(e.seen(p)) ==> e.ranged(p)) {
      ThenIs(c, d, p);
      ThenIs(c, d, e.seen(p));
      assert Lawful(d(p.0));
    }
    LawfulFrom(e);
    forall p ensures AlwaysExact(c) && (forall a :: AlwaysExact(d(a))) ==> e.exact(p) { ThenIs(c, d, p); }
  }

  // ---------------------------------------------------------------- plain data

  /** Data of a fixed size that comes back as it is and holds no pointer. */
  ghost predicate Plain<T(!new)>(c: Codec<T>, n: nat) {
    Lawful(c) && AlwaysExact(c) && forall x :: c.len(x) == n && c.seen(x) == x && c.whole(x)
  }

  lemma NumPlain(w: nat)
    ensures Plain(Num(w), w)
  {
    NumLawful(w);
  }

  lemma FlagPlain()
    ensures Plain(Flag(), 1)
  {
    FlagLawful();
  }

  lemma TwoPlain<A(!new), B(!new)>(a: Codec<A>, n: nat, b: Codec<B>, m: nat)
    requires Plain(a, n) && Plain(b, m)
    ensures Plain(Two(a, b), n + m)
  {
    TwoLawful(a, b);
    forall p ensures Two(a, b).len(p) == n + m && Two(a, b).seen(p) == p && Two(a, b).whole(p) {
      TwoIs(a, b, p);
    }
  }

  lemma ThreePlain<A(!new), B(!new), C(!new)>(a: Codec<A>, n: nat, b: Codec<B>, m: nat, c: Codec<C>, l: nat)
    requires Plain(a, n) && Plain(b, m) && Plain(c, l)
    ensures Plain(Three(a, b, c), n + m + l)
  {
    ThreeLawful(a, b, c);
    forall t ensures Three(a, b, c).len(t) == n + m + l && Three(a, b, c).seen(t) == t && Three(a, b, c).whole(t) {
      ThreeIs(a, b, c, t);
    }
  }

  lemma FourPlain<A(!new), B(!new), C(!new), D(!new)>(a: Codec<A>, n: nat, b: Codec<B>, m: nat, c: Codec<C>, l: nat, d: Codec<D>, o: nat)
    requires Plain(a, n) && Plain(b, m) && Plain(c, l) && Plain(d, o)
    ensures Plain(Four(a, b, c, d), n + m + l + o)
  {
    FourLawful(a, b, c, d);
    forall t ensures Four(a, b, c, d).len(t) == n + m + l + o && Four(a, b, c, d).seen(t) == t && Four(a, b, c, d).whole(t) {
      FourIs(a, b, c, d, t);
    }
  }

  /** A structure of plain data only. */
  lemma StructPlain<A(!new), B(!new)>(c: Codec<B>, parts: A -> B, build: B -> A, len: A -> nat, n: nat)
    requires Plain(c, n) && (forall x :: len(x) == n) && (forall x :: build(parts(x)) == x) && (forall y :: parts(build(y)) == y)
    ensures Plain(Struct(c, parts, build, len), n)
  {
    StructLawful(c, parts, build, len);
  }

  /** A lawful codec whose announced length is given by `len`. */
  ghost predicate Sized<T(!new)>(c: Codec<T>, len: T -> nat) {
    Lawful(c) && forall x :: c.len(x) == len(x)
  }

  /** The same, with a length that is always exact. */
  ghost predicate Measured<T(!new)>(c: Codec<T>, len: T -> nat) { Sized(c, len) && AlwaysExact(c) }

  function PtrLen<T>(len: T -> nat, x: Option<T>): nat { if x.Some? then len(x.value) else 0 }

  lemma PtrMeasured<T(!new)>(c: Codec<T>, len: T -> nat)
    requires Measured(c, len)
    ensures Measured(Ptr(c), x => PtrLen(len, x))
  {
    PtrSized(c, len);
    WhenLawful(c, true);
  }

  lemma PtrSized<T(!new)>(c: Codec<T>, len: T -> nat)
    requires Sized(c, len)
    ensures Sized(Ptr(c), x => PtrLen(len, x))
  {
    WhenLawful(c, true);
  }

  /** A structure that is put together in the order in which it is written. */
  lemma StructMeasured<A(!new), B(!new)>(c: Codec<B>, parts: A -> B, build: B -> A, len: A -> nat)
    requires Lawful(c) && AlwaysExact(c) && (forall x :: len(x) == c.len(parts(x))) && (forall y :: parts(build(y)) == y)
    ensures Measured(Struct(c, parts, build, len), len)
  {
    StructLawful(c, parts, build, len);
    StructSized(c, parts, build, len);
  }

  lemma StructSized<A(!new), B(!new)>(c: Codec<B>, parts: A -> B, build: B -> A, len: A -> nat)
    requires Lawful(c) && (forall x :: len(x) == c.len(parts(x))) && (forall y :: parts(build(y)) == y)
    ensures Sized(Struct(c, parts, build, len), len)
  {
    StructLawful(c, parts, build, len);
    forall x ensures Struct(c, parts, build, len).len(x) == len(x) { StructIs(c, parts, build, len, x); }
  }

  function ListLen<T>(len: T -> nat, xs: seq<T>): nat { 2 + Total(len, xs) }

  lemma {:induction false} SameTotal<T(!new)>(f: T -> nat, g: T -> nat, xs: seq<T>)
    requires forall x :: f(x) == g(x)
    ensures Total(f, xs) == Total(g, xs)
  {
    if xs != [] {
      SameTotal(f, g, xs[1..]);
    }
  }

  lemma ListSized<T(!new)>(c: Codec<T>, len: T -> nat)
    requires Sized(c, len)
    ensures Sized(ListOf(c), xs => ListLen(len, xs))
  {
    ListOfLawful(c);
    forall xs ensures ListOf(c).len(xs) == ListLen(len, xs) {
      SameTotal(c.len, len, xs);
    }
  }

  lemma ListMeasured<T(!new)>(c: Codec<T>, len: T -> nat)
    requires Measured(c, len)
    ensures Measured(ListOf(c), xs => ListLen(len, xs))
  {
    ListOfLawful(c);
    ListSized(c, len);
  }

  lemma ManySized<T(!new)>(c: Codec<T>, len: T -> nat, n: nat)
    requires Sized(c, len)
    ensures Sized(Many(c, n), xs => Total(len, xs))
    ensures forall xs :: Many(c, n).exact(xs) <==> Each(c.exact, xs)
  {
    ManyLawful(c, n);
    forall xs ensures Many(c, n).len(xs) == Total(len, xs) {
      SameTotal(c.len, len, xs);
    }
  }

  /** Pointers to structures of one kind, as many as the layout says. */
  function Pointers<T>(c: Codec<T>, n: nat): Codec<seq<Option<T>>> { Many(Ptr(c), n) }

  function PointersLen<T>(len: T -> nat, xs: seq<Option<T>>): nat { Total(x => PtrLen(len, x), xs) }

  lemma PointersSized<T(!new)>(c: Codec<T>, len: T -> nat, n: nat)
    requires Sized(c, len)
    ensures Sized(Pointers(c, n), xs => PointersLen(len, xs))
    ensures forall xs: seq<Option<T>> :: Pointers(c, n).exact(xs) <==> forall i :: 0 <= i < |xs| ==> xs[i].Some? ==> c.exact(xs[i].value)
  {
    PtrSized(c, len);
    ManySized(Ptr(c), x => PtrLen(len, x), n);
    forall xs: seq<Option<T>> ensures Pointers(c, n).exact(xs) <==> forall i :: 0 <= i < |xs| ==> xs[i].Some? ==> c.exact(xs[i].value) {
      assert forall x: Option<T> :: Ptr(c).exact(x) == (x.Some? ==> c.exact(x.value));
    }
  }

  lemma PointersMeasured<T(!new)>(c: Codec<T>, len: T -> nat, n: nat)
    requires Measured(c, len)
    ensures Measured(Pointers(c, n), xs => PointersLen(len, xs))
  {
    PointersSized(c, len, n);
  }
}
