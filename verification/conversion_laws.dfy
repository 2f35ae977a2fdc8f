/**
 * What the conversions guarantee: the check comes first and decides alone
 * when it fails, the unchecked path never probes, a checked success is of
 * the announced kind, and with a faithful engine every sound native value
 * survives a marshall followed by an unmarshall.
 */
module ConversionLaws {
  import opened Errors
  import Tags
  import opened Values
  import opened Engines
  import opened Registry
  import opened Conversion

  /**
   * A checked `unmarshall` runs its probe first: the probe's error is
   * returned unchanged, a mismatch throws the type's label and returns
   * `js_pending_exception`, and only a match goes on to read the value.
   */
  lemma CheckedUnmarshallOutcomes(e: Engine, t: NativeType, v: Value)
    requires CanUnmarshall(t) && GuardOf(t).Checked?
    ensures e.probe(GuardOf(t).probe, v).Failed? ==>
              Unmarshall(e, true, t, v) == Err(e.probe(GuardOf(t).probe, v).code)
    ensures e.probe(GuardOf(t).probe, v) == Done(false) ==>
              Unmarshall(e, true, t, v) == Thrown(GuardOf(t).expected)
              && Unmarshall(e, true, t, v).Status() == PendingException
    ensures e.probe(GuardOf(t).probe, v) == Done(true) ==>
              Unmarshall(e, true, t, v) == Read(e, true, t, v)
  {
  }

  /** After a failed check, the getters are never reached: the outcome is the same whatever they would do. */
  lemma FailedCheckSkipsRead(e: Engine, ops: Ops, t: NativeType, v: Value)
    requires CanUnmarshall(t) && !Check(e, GuardOf(t), v).Ok?
    ensures Unmarshall(e.(ops := ops), true, t, v) == Unmarshall(e, true, t, v)
    ensures Unmarshall(e, true, t, v).Drop() == Check(e, GuardOf(t), v)
  {
  }

  /** The receiver is never checked: checked and unchecked unmarshalling agree on it. */
  lemma ReceiverNeverChecked(e: Engine, v: Value)
    ensures Unmarshall(e, true, ReceiverT, v) == Unmarshall(e, false, ReceiverT, v) == Ok(Handle(v))
  {
  }

  /** Two element loops whose conversions agree on every element have the same outcome. */
  lemma {:induction false} ConvertAllAgree<X, Y>(f: X --> Outcome<Y>, g: X --> Outcome<Y>, xs: seq<X>)
    requires forall j :: 0 <= j < |xs| ==> f.requires(xs[j]) && g.requires(xs[j]) && f(xs[j]) == g(xs[j])
    ensures ConvertAll(f, xs) == ConvertAll(g, xs)
    decreases |xs|
  {
    if xs != [] {
      ConvertAllAgree(f, g, xs[1..]);
    }
  }

  /** The fetch-and-convert of a container reads nothing but its engine calls and the element conversion. */
  lemma FetchAgree<Y>(ops: Ops, f: Value --> Outcome<Y>, g: Value --> Outcome<Y>, n: nat, v: Value)
    requires forall w :: f.requires(w) && g.requires(w) && f(w) == g(w)
    ensures FetchFixed(ops, f, n, v) == FetchFixed(ops, g, n, v)
    ensures FetchVector(ops, f, v) == FetchVector(ops, g, v)
  {
    match ops.getArrayElements(v, n) {
      case Failed(_) =>
      case Done(vs) => ConvertAllAgree(f, g, vs);
    }
    match ops.getArrayLength(v)
    case Failed(_) =>
    case Done(len) =>
      match ops.getArrayElements(v, len)
      case Failed(_) =>
      case Done(vs) => ConvertAllAgree(f, g, vs);
  }

  /** A property every successful element conversion has holds of every element a container fetch yields. */
  lemma FetchKeeps<Y>(ops: Ops, read: Value --> Outcome<Y>, good: Y -> bool, n: nat, v: Value)
    requires forall w :: read.requires(w) && (read(w).Ok? ==> good(read(w).value))
    ensures FetchFixed(ops, read, n, v).Ok? ==>
              forall j :: 0 <= j < |FetchFixed(ops, read, n, v).value| ==> good(FetchFixed(ops, read, n, v).value[j])
    ensures FetchVector(ops, read, v).Ok? ==>
              forall j :: 0 <= j < |FetchVector(ops, read, v).value| ==> good(FetchVector(ops, read, v).value[j])
  {
  }

  /** An unchecked `unmarshall` never calls a probe, not even for the elements of a container. */
  lemma {:induction false} UncheckedIgnoresProbe(e: Engine, probe: (Tags.Probe, Value) -> Reply<bool>, t: NativeType, v: Value)
    requires CanUnmarshall(t)
    ensures Unmarshall(e.(probe := probe), false, t, v) == Unmarshall(e, false, t, v)
    decreases t
  {
    if t.CArrayT? || t.StdArrayT? || t.VectorT? {
      var e' := e.(probe := probe);
      forall w
        ensures Unmarshall(e', false, t.elem, w) == Unmarshall(e, false, t.elem, w)
      {
        UncheckedIgnoresProbe(e, probe, t.elem, w);
      }
      FetchAgree(e.ops, ElementReader(e', false, t.elem), ElementReader(e, false, t.elem), if t.VectorT? then 0 else t.n, v);
    } else {
      LeafIgnoresProbe(e, probe, t, v);
    }
  }

  /** `UncheckedIgnoresProbe` for the handle, scalar and string types. */
  lemma LeafIgnoresProbe(e: Engine, probe: (Tags.Probe, Value) -> Reply<bool>, t: NativeType, v: Value)
    requires CanUnmarshall(t) && !t.CArrayT? && !t.StdArrayT? && !t.VectorT?
    ensures Unmarshall(e.(probe := probe), false, t, v) == Unmarshall(e, false, t, v)
  {
    assert e.(probe := probe).ops == e.ops;
  }

  /** Whatever `unmarshall` yields is a value of the type, elements of containers included. */
  lemma {:induction false} UnmarshallRepresents(e: Engine, checked: bool, t: NativeType, v: Value)
    requires CanUnmarshall(t)
    ensures Unmarshall(e, checked, t, v).Ok? ==> Represents(t, Unmarshall(e, checked, t, v).value)
    decreases t
  {
    if t.CArrayT? || t.StdArrayT? || t.VectorT? {
      forall w
        ensures Unmarshall(e, checked, t.elem, w).Ok? ==> Represents(t.elem, Unmarshall(e, checked, t.elem, w).value)
      {
        UnmarshallRepresents(e, checked, t.elem, w);
      }
      FetchKeeps(e.ops, ElementReader(e, checked, t.elem), x => Represents(t.elem, x), if t.VectorT? then 0 else t.n, v);
    } else {
      LeafRepresents(e, checked, t, v);
    }
  }

  /** `UnmarshallRepresents` for the handle, scalar and string types. */
  lemma LeafRepresents(e: Engine, checked: bool, t: NativeType, v: Value)
    requires CanUnmarshall(t) && !t.CArrayT? && !t.StdArrayT? && !t.VectorT?
    ensures Unmarshall(e, checked, t, v).Ok? ==> Represents(t, Unmarshall(e, checked, t, v).value)
  {
  }

  /** With probes that answer truthfully, a value of the wrong kind is rejected with the type's label. */
  lemma CheckedRejectsMismatch(e: Engine, t: NativeType, v: Value)
    requires ProbesFaithful(e) && CanUnmarshall(t)
    requires GuardOf(t).Checked? && !Matches(GuardOf(t).probe, v)
    ensures Unmarshall(e, true, t, v) == Thrown(GuardOf(t).expected)
  {
  }

  /**
   * With probes that answer truthfully, whatever a checked `unmarshall`
   * accepts is of the kind the descriptor announces for its type; the
   * receiver, which is never checked, is the only exception.
   */
  lemma CheckedAcceptsOnlyConforming(e: Engine, t: NativeType, v: Value)
    requires ProbesFaithful(e) && CanUnmarshall(t) && t != ReceiverT
    requires Unmarshall(e, true, t, v).Ok?
    ensures Conforms(Signature(t), v)
  {
    OnlyReceiverUnchecked(t);
    GuardImpliesSignature(t, v);
  }

  /** A `char[N]` is read from a string of at least `N` bytes as its first `N` bytes; a shorter one fails the length assertion. */
  lemma CharArrayReadsExactly(e: Engine, checked: bool, n: nat, s: seq<byte>)
    requires ProbesFaithful(e) && ScalarsFaithful(e.ops)
    ensures Unmarshall(e, checked, CharArrayT(n), String(s)) == if |s| < n then Abort else Ok(Bytes(s[..n]))
  {
    CheckPasses(e, GuardOf(CharArrayT(n)), String(s));
    PassedCheck(e, checked, CharArrayT(n), String(s));
  }

  /**
   * The native values a faithful engine carries over unchanged: of the type,
   * with a 64-bit integer a double holds exactly, and with a handle that
   * passes its type's check.
   */
  predicate Sound(t: NativeType, x: Native)
    ensures Sound(t, x) ==> Represents(t, x)
  {
    && Represents(t, x)
    && (t.Int64T? ==> -SafeInteger <= x.i <= SafeInteger)
    && (IsHandle(t) && t != ReceiverT ==> Matches(GuardOf(t).probe, x.v))
    && (t.CArrayT? || t.StdArrayT? || t.VectorT? ==> forall j :: 0 <= j < |x.elements| ==> Sound(t.elem, x.elements[j]))
  }

  /** With probes that answer truthfully, a value that matches the guard's probe passes the check. */
  lemma CheckPasses(e: Engine, g: Guard, v: Value)
    requires ProbesFaithful(e) && (g.Checked? ==> Matches(g.probe, v))
    ensures Check(e, g, v) == Ok(())
  {
  }

  /** Once the check has passed, or when there is none, `unmarshall` is the read alone. */
  lemma PassedCheck(e: Engine, checked: bool, t: NativeType, v: Value)
    requires CanUnmarshall(t) && (checked ==> Check(e, GuardOf(t), v) == Ok(()))
    ensures Unmarshall(e, checked, t, v) == Read(e, checked, t, v)
  {
  }

  /** A sound handle wrapper holds a boxed value that passes its type's check. */
  lemma HandleSound(t: NativeType, x: Native)
    requires IsHandle(t) && Sound(t, x)
    ensures x.Handle? && (GuardOf(t).Checked? ==> Matches(GuardOf(t).probe, x.v))
  {
  }

  /**
   * With a faithful engine, marshalling a sound value succeeds, and the boxed
   * value is of the kind the descriptor announces (the receiver, which may
   * be any value, aside).
   */
  lemma {:induction false} MarshallConforms(e: Engine, t: NativeType, x: Native)
    requires Faithful(e) && CanMarshall(t) && Sound(t, x)
    ensures Marshall(e, t, x).Ok?
    ensures t != ReceiverT ==> Conforms(Signature(t), Marshall(e, t, x).value)
    decreases t, 1
  {
    if t.CArrayT? || t.StdArrayT? || t.VectorT? {
      MarshallContainerConforms(e, t, x);
    } else if IsHandle(t) {
      HandleSound(t, x);
      if t != ReceiverT {
        GuardImpliesSignature(t, x.v);
      }
    } else {
      MarshallLeafConforms(e, t, x);
    }
  }

  /** `MarshallConforms` for the three containers: an engine array of the converted elements. */
  lemma {:induction false} MarshallContainerConforms(e: Engine, t: NativeType, x: Native)
    requires Faithful(e) && CanMarshall(t) && Sound(t, x)
    requires t.CArrayT? || t.StdArrayT? || t.VectorT?
    ensures Marshall(e, t, x).Ok? && Conforms(Signature(t), Marshall(e, t, x).value)
    decreases t, 0
  {
    MarshallAllSucceeds(e, t.elem, x.elements);
    MarshallContainer(e, t, x);
  }

  /** `MarshallConforms` for the scalar and string types. */
  lemma MarshallLeafConforms(e: Engine, t: NativeType, x: Native)
    requires ScalarsFaithful(e.ops) && CanMarshall(t) && Sound(t, x)
    requires !t.CArrayT? && !t.StdArrayT? && !t.VectorT? && !IsHandle(t)
    ensures Marshall(e, t, x).Ok?
    ensures Conforms(Signature(t), Marshall(e, t, x).value)
  {
  }

  /** With a faithful engine, the element loop of `marshall` succeeds on sound elements. */
  lemma {:induction false} MarshallAllSucceeds(e: Engine, el: NativeType, xs: seq<Native>)
    requires Faithful(e) && CanMarshall(el) && forall j :: 0 <= j < |xs| ==> Sound(el, xs[j])
    ensures forall j :: 0 <= j < |xs| ==> Represents(el, xs[j])
    ensures MarshallAll(e, el, xs).Ok?
    decreases el, 2
  {
    forall j | 0 <= j < |xs|
      ensures Represents(el, xs[j]) && Marshall(e, el, xs[j]).Ok?
    {
      MarshallConforms(e, el, xs[j]);
    }
  }

  /**
   * Round trip: with a faithful engine, unmarshalling what `marshall` made of
   * a sound value gives that value back, checked or not.
   */
  lemma {:induction false} RoundTrip(e: Engine, checked: bool, t: NativeType, x: Native)
    requires Faithful(e) && CanMarshall(t) && CanUnmarshall(t) && Sound(t, x)
    ensures Marshall(e, t, x).Ok?
    ensures Unmarshall(e, checked, t, Marshall(e, t, x).value) == Ok(x)
    decreases t, 1
  {
    if t.CArrayT? || t.StdArrayT? || t.VectorT? {
      RoundTripContainer(e, checked, t, x);
    } else if IsHandle(t) {
      RoundTripHandle(e, checked, t, x);
    } else {
      RoundTripLeaf(e, checked, t, x);
    }
  }

  /** Round trip of the handle types: the boxed value is passed through both ways. */
  lemma RoundTripHandle(e: Engine, checked: bool, t: NativeType, x: Native)
    requires ProbesFaithful(e) && CanMarshall(t) && CanUnmarshall(t) && Sound(t, x) && IsHandle(t)
    ensures Marshall(e, t, x) == Ok(x.v)
    ensures Unmarshall(e, checked, t, x.v) == Ok(x)
  {
    HandleSound(t, x);
    MarshallHandle(e, t, x);
    UnmarshallHandle(e, checked, t, x.v);
  }

  /** A handle wrapper is marshalled to the boxed value it holds. */
  lemma MarshallHandle(e: Engine, t: NativeType, x: Native)
    requires CanMarshall(t) && Represents(t, x) && IsHandle(t)
    ensures Marshall(e, t, x) == Ok(x.v)
  {
  }

  /** A value that passes a handle type's check is unmarshalled to the wrapper holding it. */
  lemma UnmarshallHandle(e: Engine, checked: bool, t: NativeType, v: Value)
    requires ProbesFaithful(e) && CanUnmarshall(t) && IsHandle(t)
    requires GuardOf(t).Checked? ==> Matches(GuardOf(t).probe, v)
    ensures Unmarshall(e, checked, t, v) == Ok(Handle(v))
  {
    CheckPasses(e, GuardOf(t), v);
    PassedCheck(e, checked, t, v);
    ReadHandle(e, checked, t, v);
  }

  /** The read of a handle type wraps the boxed value. */
  lemma ReadHandle(e: Engine, checked: bool, t: NativeType, v: Value)
    requires CanUnmarshall(t) && IsHandle(t)
    ensures Read(e, checked, t, v) == Ok(Handle(v))
  {
  }

  /** Round trip of the scalar and string types. */
  lemma RoundTripLeaf(e: Engine, checked: bool, t: NativeType, x: Native)
    requires ProbesFaithful(e) && ScalarsFaithful(e.ops) && CanMarshall(t) && CanUnmarshall(t) && Sound(t, x)
    requires !t.CArrayT? && !t.StdArrayT? && !t.VectorT? && !IsHandle(t)
    ensures Marshall(e, t, x).Ok?
    ensures Unmarshall(e, checked, t, Marshall(e, t, x).value) == Ok(x)
  {
    LeafPassesCheck(e, t, x);
    CheckPasses(e, GuardOf(t), Marshall(e, t, x).value);
    PassedCheck(e, checked, t, Marshall(e, t, x).value);
    LeafReadsBack(e, checked, t, x);
  }

  /** A marshalled scalar or string passes the check of its own type. */
  lemma LeafPassesCheck(e: Engine, t: NativeType, x: Native)
    requires ScalarsFaithful(e.ops) && CanMarshall(t) && CanUnmarshall(t) && Sound(t, x)
    requires !t.CArrayT? && !t.StdArrayT? && !t.VectorT? && !IsHandle(t)
    ensures Marshall(e, t, x).Ok?
    ensures GuardOf(t).Checked? && Matches(GuardOf(t).probe, Marshall(e, t, x).value)
  {
  }

  /** The getter of a scalar or string type inverts its constructor. */
  lemma LeafReadsBack(e: Engine, checked: bool, t: NativeType, x: Native)
    requires ScalarsFaithful(e.ops) && CanMarshall(t) && CanUnmarshall(t) && Sound(t, x)
    requires !t.CArrayT? && !t.StdArrayT? && !t.VectorT? && !IsHandle(t)
    ensures Marshall(e, t, x).Ok?
    ensures Read(e, checked, t, Marshall(e, t, x).value) == Ok(x)
  {
    if t.CharArrayT? {
      assert x.s[..t.n] == x.s;
    }
  }

  /** A container `marshall` whose elements all convert yields the engine array of the converted elements. */
  lemma MarshallContainer(e: Engine, t: NativeType, x: Native)
    requires ArraysFaithful(e.ops) && CanMarshall(t) && Represents(t, x)
    requires t.CArrayT? || t.StdArrayT? || t.VectorT?
    requires MarshallAll(e, t.elem, x.elements).Ok?
    ensures Marshall(e, t, x) == Ok(Array(MarshallAll(e, t.elem, x.elements).value))
  {
    var vs := MarshallAll(e, t.elem, x.elements).value;
    assert Overwrite(Holes(|vs|), vs, 0) == vs;
  }

  /** A container `unmarshall` of an engine array of the right length whose elements all convert yields them. */
  lemma UnmarshallContainer(e: Engine, checked: bool, t: NativeType, vs: seq<Value>)
    requires ProbesFaithful(e) && ArraysFaithful(e.ops) && CanUnmarshall(t)
    requires t.CArrayT? || t.StdArrayT? || t.VectorT?
    requires t.VectorT? || |vs| == t.n
    requires UnmarshallAll(e, checked, t.elem, vs).Ok?
    ensures Unmarshall(e, checked, t, Array(vs)) == Ok(List(UnmarshallAll(e, checked, t.elem, vs).value))
  {
    CheckPasses(e, GuardOf(t), Array(vs));
    PassedCheck(e, checked, t, Array(vs));
    FetchArray(e.ops, ElementReader(e, checked, t.elem), if t.VectorT? then |vs| else t.n, vs);
  }

  /** Fetching from an engine array of the expected length converts exactly its elements. */
  lemma FetchArray<Y>(ops: Ops, read: Value --> Outcome<Y>, n: nat, vs: seq<Value>)
    requires ArraysFaithful(ops) && (forall w :: read.requires(w)) && n == |vs|
    ensures FetchFixed(ops, read, n, Array(vs)) == ConvertAll(read, vs)
    ensures FetchVector(ops, read, Array(vs)) == ConvertAll(read, vs)
  {
    assert ops.getArrayElements(Array(vs), n) == Done(vs);
    assert ops.getArrayLength(Array(vs)) == Done(n);
  }

  /** Round trip of the three containers. */
  lemma {:induction false} RoundTripContainer(e: Engine, checked: bool, t: NativeType, x: Native)
    requires Faithful(e) && CanMarshall(t) && CanUnmarshall(t) && Sound(t, x)
    requires t.CArrayT? || t.StdArrayT? || t.VectorT?
    ensures Marshall(e, t, x).Ok?
    ensures Unmarshall(e, checked, t, Marshall(e, t, x).value) == Ok(x)
    decreases t, 0
  {
    RoundTripAll(e, checked, t.elem, x.elements);
    MarshallContainer(e, t, x);
    UnmarshallContainer(e, checked, t, MarshallAll(e, t.elem, x.elements).value);
  }

  /** Two element loops, the second undoing the first element by element, give back what the first was given. */
  lemma ConvertAllUndone<X, Y>(write: X --> Outcome<Y>, read: Y --> Outcome<X>, xs: seq<X>)
    requires forall j :: 0 <= j < |xs| ==> write.requires(xs[j]) && write(xs[j]).Ok?
    requires forall j :: 0 <= j < |xs| ==> read.requires(write(xs[j]).value) && read(write(xs[j]).value) == Ok(xs[j])
    ensures ConvertAll(write, xs).Ok?
    ensures forall j :: 0 <= j < |xs| ==> read.requires(ConvertAll(write, xs).value[j])
    ensures ConvertAll(read, ConvertAll(write, xs).value) == Ok(xs)
  {
    var ys := ConvertAll(write, xs).value;
    ConvertAllPointwise(read, ys, xs);
  }

  /** Round trip of the element loops. */
  lemma {:induction false} RoundTripAll(e: Engine, checked: bool, el: NativeType, xs: seq<Native>)
    requires Faithful(e) && CanMarshall(el) && CanUnmarshall(el) && forall j :: 0 <= j < |xs| ==> Sound(el, xs[j])
    ensures forall j :: 0 <= j < |xs| ==> Represents(el, xs[j])
    ensures MarshallAll(e, el, xs).Ok?
    ensures UnmarshallAll(e, checked, el, MarshallAll(e, el, xs).value) == Ok(xs)
    decreases el, 3
  {
    ElementsRoundTrip(e, checked, el, xs);
    ConvertAllUndone(ElementWriter(e, el), ElementReader(e, checked, el), xs);
  }

  /** Round trip of each element, stated for the element conversions the container loops call. */
  lemma {:induction false} ElementsRoundTrip(e: Engine, checked: bool, el: NativeType, xs: seq<Native>)
    requires Faithful(e) && CanMarshall(el) && CanUnmarshall(el) && forall j :: 0 <= j < |xs| ==> Sound(el, xs[j])
    ensures forall j :: 0 <= j < |xs| ==> Represents(el, xs[j])
    ensures forall j :: 0 <= j < |xs| ==>
              && ElementWriter(e, el)(xs[j]).Ok?
              && ElementReader(e, checked, el)(ElementWriter(e, el)(xs[j]).value) == Ok(xs[j])
    decreases el, 2
  {
    forall j | 0 <= j < |xs|
      ensures Represents(el, xs[j]) && Marshall(e, el, xs[j]).Ok?
      ensures Unmarshall(e, checked, el, Marshall(e, el, xs[j]).value) == Ok(xs[j])
    {
      RoundTrip(e, checked, el, xs[j]);
    }
  }

  /** An `int32_t` becomes the engine number of the same value and is read back unchanged. */
  lemma Int32RoundTrip(e: Engine, i: Tags.int32)
    requires ProbesFaithful(e) && ScalarsFaithful(e.ops)
    ensures Marshall(e, Int32T, Int(i)) == Ok(Number(Integral(i)))
    ensures Unmarshall(e, true, Int32T, Number(Integral(i))) == Ok(Int(i))
  {
  }

  /** The native vector of the `int32_t` values `xs`. */
  function Int32s(xs: seq<Tags.int32>): (r: seq<Native>)
    ensures |r| == |xs| && forall j :: 0 <= j < |xs| ==> r[j] == Int(xs[j])
  {
    seq(|xs|, j requires 0 <= j < |xs| => Int(xs[j]))
  }

  /** The engine numbers of the `int32_t` values `xs`. */
  function Numbers(xs: seq<Tags.int32>): (r: seq<Value>)
    ensures |r| == |xs| && forall j :: 0 <= j < |xs| ==> r[j] == Number(Integral(xs[j]))
  {
    seq(|xs|, j requires 0 <= j < |xs| => Number(Integral(xs[j])))
  }

  /**
   * A `std::vector<int32_t>` becomes the engine array of the same numbers in
   * the same order, which a checked `unmarshall` reads back as the same
   * vector.
   */
  lemma Int32VectorRoundTrip(e: Engine, xs: seq<Tags.int32>)
    requires Faithful(e)
    ensures Marshall(e, VectorT(Int32T), List(Int32s(xs))) == Ok(Array(Numbers(xs)))
    ensures Unmarshall(e, true, VectorT(Int32T), Array(Numbers(xs))) == Ok(List(Int32s(xs)))
  {
    forall j | 0 <= j < |xs|
      ensures Marshall(e, Int32T, Int32s(xs)[j]) == Ok(Numbers(xs)[j])
      ensures Unmarshall(e, true, Int32T, Numbers(xs)[j]) == Ok(Int32s(xs)[j])
    {
      Int32RoundTrip(e, xs[j]);
    }
    Int32VectorMarshall(e, xs);
    Int32VectorUnmarshall(e, xs);
  }

  /** The marshalling half of `Int32VectorRoundTrip`, given that of each element. */
  lemma Int32VectorMarshall(e: Engine, xs: seq<Tags.int32>)
    requires ArraysFaithful(e.ops)
    requires forall j :: 0 <= j < |xs| ==> Marshall(e, Int32T, Int32s(xs)[j]) == Ok(Numbers(xs)[j])
    ensures Marshall(e, VectorT(Int32T), List(Int32s(xs))) == Ok(Array(Numbers(xs)))
  {
    ConvertAllPointwise(ElementWriter(e, Int32T), Int32s(xs), Numbers(xs));
    MarshallContainer(e, VectorT(Int32T), List(Int32s(xs)));
  }

  /** The unmarshalling half of `Int32VectorRoundTrip`, given that of each element. */
  lemma Int32VectorUnmarshall(e: Engine, xs: seq<Tags.int32>)
    requires ProbesFaithful(e) && ArraysFaithful(e.ops)
    requires forall j :: 0 <= j < |xs| ==> Unmarshall(e, true, Int32T, Numbers(xs)[j]) == Ok(Int32s(xs)[j])
    ensures Unmarshall(e, true, VectorT(Int32T), Array(Numbers(xs))) == Ok(List(Int32s(xs)))
  {
    ConvertAllPointwise(ElementReader(e, true, Int32T), Numbers(xs), Int32s(xs));
    UnmarshallContainer(e, true, VectorT(Int32T), Numbers(xs));
  }
}
