/**
 * The element loops of the containers, written as the library writes them:
 * a native buffer filled slot by slot, stopping at the first element that
 * fails.  Each loop is proved against the element-wise conversion of
 * `Conversion`, and the partial state it leaves behind on failure is stated.
 * Covers the container `marshall`/`unmarshall` of `js_type_info_t` and the
 * free functions `js_get_array_elements` and `js_set_array_elements`.
 */
module Composite {
  import opened Errors
  import opened Values
  import opened Engines
  import opened Registry
  import opened Conversion
  import opened ConversionLaws

  /** `std::vector::resize(len)`: truncate, or grow with copies of `d`. */
  function Resize<Y>(prior: seq<Y>, len: nat, d: Y): (r: seq<Y>)
    ensures |r| == len
    ensures forall j :: 0 <= j < len ==> r[j] == if j < |prior| then prior[j] else d
  {
    if len <= |prior| then prior[..len] else prior + seq(len - |prior|, _ => d)
  }

  /** Slots `0 .. k` of `r` hold the results of converting `xs[0 .. k]`, all of which succeeded. */
  ghost predicate Converted<X, Y>(convert: X --> Outcome<Y>, xs: seq<X>, r: seq<Y>, k: nat)
    requires k <= |xs| && k <= |r| && forall j :: 0 <= j < |xs| ==> convert.requires(xs[j])
  {
    forall j :: 0 <= j < k ==> convert(xs[j]).Ok? && r[j] == convert(xs[j]).value
  }

  /**
   * The element loop of the container `unmarshall`s: `xs[i]` converted into
   * `result[i]` for `i = 0, 1, ...`, returning at the first failure.  The
   * outcome is that of `ConvertAll`; the slots before the failing element
   * hold their conversions and the others are untouched.
   */
  method ConvertInto<X, Y>(convert: X --> Outcome<Y>, xs: seq<X>, result: array<Y>) returns (o: Outcome<()>)
    requires forall j :: 0 <= j < |xs| ==> convert.requires(xs[j])
    requires result.Length == |xs|
    modifies result
    ensures o == ConvertAll(convert, xs).Drop()
    ensures o.Ok? ==> result[..] == ConvertAll(convert, xs).value
    ensures exists k :: 0 <= k <= |xs| && (o.Ok? <==> k == |xs|)
                        && Converted(convert, xs, result[..], k) && result[k..] == old(result[k..])
  {
    var i := 0;
    while i < |xs|
      invariant 0 <= i <= |xs|
      invariant Converted(convert, xs, result[..], i)
      invariant result[i..] == old(result[i..])
    {
      var r := convert(xs[i]);
      if !r.Ok? {
        ConvertAllFirstFailure(convert, xs, i);
        return r.Drop();
      }
      result[i] := r.value;
      assert result[i + 1..] == old(result[i + 1..]);
      i := i + 1;
    }
    assert result[..] == ConvertAll(convert, xs).value;
    return Ok(());
  }

  /**
   * The element loop of the container `marshall`s and of
   * `js_set_array_elements`: `xs[i]` converted into a local buffer for
   * `i = 0, 1, ...`, returning at the first failure.
   */
  method ConvertToBuffer<X, Y(0)>(convert: X --> Outcome<Y>, xs: seq<X>) returns (o: Outcome<seq<Y>>)
    requires forall j :: 0 <= j < |xs| ==> convert.requires(xs[j])
    ensures o == ConvertAll(convert, xs)
  {
    var buffer := new Y[|xs|];
    var i := 0;
    while i < |xs|
      invariant 0 <= i <= |xs|
      invariant Converted(convert, xs, buffer[..], i)
    {
      var r := convert(xs[i]);
      if !r.Ok? {
        ConvertAllFirstFailure(convert, xs, i);
        return r.Cast();
      }
      buffer[i] := r.value;
      i := i + 1;
    }
    assert buffer[..] == ConvertAll(convert, xs).value;
    return Ok(buffer[..]);
  }

  /**
   * `js_get_array_elements` into `T[N]` or `std::array<T, N>`: fetch up to
   * `N` elements, assert there were `N`, convert them into `result` with
   * `read`.  An engine failure or a short array leaves `result` untouched.
   */
  method GetArrayElementsFixed<Y>(ops: Ops, read: Value --> Outcome<Y>, n: nat, arr: Value, result: array<Y>)
    returns (o: Outcome<()>)
    requires (forall w :: read.requires(w)) && result.Length == n
    modifies result
    ensures o == FetchFixed(ops, read, n, arr).Drop()
    ensures o.Ok? ==> result[..] == FetchFixed(ops, read, n, arr).value
    ensures match ops.getArrayElements(arr, n)
            case Done(vs) =>
              if |vs| != n then result[..] == old(result[..])
              else exists k :: 0 <= k <= n && Converted(read, vs, result[..], k) && result[k..] == old(result[k..])
            case Failed(_) => result[..] == old(result[..])
  {
    match ops.getArrayElements(arr, n)
    case Failed(c) =>
      return Err(c);
    case Done(vs) =>
      if |vs| != n {
        return Abort;
      }
      o := ConvertInto(read, vs, result);
  }

  /**
   * The `unmarshall` of `T[N]` and `std::array<T, N>`: the array check when
   * `checked`, then `GetArrayElementsFixed` with the element type's
   * `unmarshall`.  Its outcome and contents are those of `Unmarshall`; a
   * failed check leaves `result` untouched.
   */
  method UnmarshallFixedInto(e: Engine, checked: bool, t: NativeType, v: Value, result: array<Native>)
    returns (o: Outcome<()>)
    requires (t.CArrayT? || t.StdArrayT?) && CanUnmarshall(t) && result.Length == t.n
    modifies result
    ensures o == Unmarshall(e, checked, t, v).Drop()
    ensures o.Ok? ==> Unmarshall(e, checked, t, v) == Ok(List(result[..]))
    ensures checked && !Check(e, GuardOf(t), v).Ok? ==> result[..] == old(result[..])
  {
    if checked {
      var guard := Check(e, GuardOf(t), v);
      if !guard.Ok? {
        return guard;
      }
    }
    o := GetArrayElementsFixed(e.ops, ElementReader(e, checked, t.elem), t.n, v, result);
  }

  /**
   * `js_get_array_elements` into `std::vector<T>`: ask for the length, fetch
   * that many elements, resize the vector to the number fetched (growing
   * with `d`), convert them in place with `read`.  `prior` is the vector
   * passed in and `result` the vector afterwards: its size is the number
   * fetched, slots before the failing element hold their conversions, and
   * the rest is what `resize` left.
   */
  method GetArrayElementsVector<Y>(ops: Ops, read: Value --> Outcome<Y>, d: Y, arr: Value, prior: seq<Y>)
    returns (o: Outcome<()>, result: seq<Y>)
    requires forall w :: read.requires(w)
    ensures o == FetchVector(ops, read, arr).Drop()
    ensures o.Ok? ==> result == FetchVector(ops, read, arr).value
    ensures match ops.getArrayLength(arr)
            case Failed(_) => result == prior
            case Done(len) =>
              match ops.getArrayElements(arr, len)
              case Failed(_) => result == prior
              case Done(vs) =>
                |result| == |vs|
                && exists k :: 0 <= k <= |vs| && Converted(read, vs, result, k)
                               && result[k..] == Resize(prior, |vs|, d)[k..]
  {
    result := prior;
    match ops.getArrayLength(arr)
    case Failed(c) =>
      return Err(c), result;
    case Done(len) =>
      match ops.getArrayElements(arr, len)
      case Failed(c) =>
        return Err(c), result;
      case Done(vs) =>
        var grown := Resize(prior, |vs|, d);
        var buffer := new Y[|vs|](j => if 0 <= j < |grown| then grown[j] else d);
        assert buffer[..] == grown;
        o := ConvertInto(read, vs, buffer);
        result := buffer[..];
  }

  /**
   * The `unmarshall` of `std::vector<T>`: the array check when `checked`,
   * then `GetArrayElementsVector` with the element type's `unmarshall`.
   * A failed check leaves the vector as it was.
   */
  method UnmarshallVectorInto(e: Engine, checked: bool, el: NativeType, v: Value, prior: seq<Native>)
    returns (o: Outcome<()>, result: seq<Native>)
    requires CanUnmarshall(el)
    ensures o == Unmarshall(e, checked, VectorT(el), v).Drop()
    ensures o.Ok? ==> Unmarshall(e, checked, VectorT(el), v) == Ok(List(result))
    ensures checked && !Check(e, GuardOf(VectorT(el)), v).Ok? ==> result == prior
  {
    if checked {
      var guard := Check(e, GuardOf(VectorT(el)), v);
      if !guard.Ok? {
        return guard, prior;
      }
    }
    o, result := GetArrayElementsVector(e.ops, ElementReader(e, checked, el), Default(el), v, prior);
  }

  /**
   * `js_set_array_elements` from `T[N]`, `std::array<T, N>` or
   * `std::vector<T>`: convert every element into a buffer with `write`,
   * returning at the first failure, then store the buffer from `offset`.
   */
  method SetArrayElements<X>(ops: Ops, write: X --> Outcome<Value>, arr: Value, xs: seq<X>, offset: nat)
    returns (o: Outcome<Value>)
    requires forall j :: 0 <= j < |xs| ==> write.requires(xs[j])
    ensures o == StoreAt(ops, write, arr, xs, offset)
  {
    var values := ConvertToBuffer(write, xs);
    if !values.Ok? {
      return values.Cast();
    }
    o := FromReply(ops.setArrayElements(arr, values.value, offset));
  }

  /**
   * The container `marshall` of `T[N]`, `std::array<T, N>` and
   * `std::vector<T>`: create an engine array of the container's length,
   * convert the elements with the element type's `marshall`, store them
   * from index 0.
   */
  method MarshallArray(e: Engine, t: NativeType, x: Native) returns (o: Outcome<Value>)
    requires (t.CArrayT? || t.StdArrayT? || t.VectorT?) && CanMarshall(t) && Represents(t, x)
    ensures o == Marshall(e, t, x)
  {
    var created := e.ops.createArray(|x.elements|);
    o := SetArrayElements(e.ops, ElementWriter(e, t.elem), created, x.elements, 0);
  }

  /** `a` is `es` with a range of `n` elements from `offset` replaced, grown where needed. */
  ghost predicate Stored(es: seq<Value>, a: Value, offset: nat, n: nat) {
    && a.Array? && |a.elements| >= offset + n && offset <= |es|
    && a.elements[..offset] == es[..offset]
    && (offset + n <= |es| ==> a.elements[offset + n..] == es[offset + n..])
  }

  /**
   * With arrays that store what is set, storing elements that `read` undoes
   * from `offset` succeeds, keeps the elements outside the stored range, and
   * converting the stored range back with `read` yields the elements.
   */
  lemma StoreThenFetch<X>(ops: Ops, write: X --> Outcome<Value>, read: Value --> Outcome<X>, es: seq<Value>, xs: seq<X>, offset: nat)
    requires ArraysFaithful(ops) && offset <= |es|
    requires forall j :: 0 <= j < |xs| ==> write.requires(xs[j]) && write(xs[j]).Ok?
    requires forall j :: 0 <= j < |xs| ==> read.requires(write(xs[j]).value) && read(write(xs[j]).value) == Ok(xs[j])
    ensures StoreAt(ops, write, Array(es), xs, offset).Ok?
    ensures Stored(es, StoreAt(ops, write, Array(es), xs, offset).value, offset, |xs|)
    ensures forall j :: offset <= j < offset + |xs| ==> read.requires(StoreAt(ops, write, Array(es), xs, offset).value.elements[j])
    ensures ConvertAll(read, StoreAt(ops, write, Array(es), xs, offset).value.elements[offset..offset + |xs|]) == Ok(xs)
  {
    ConvertAllUndone(write, read, xs);
    var vs := ConvertAll(write, xs).value;
    assert StoreAt(ops, write, Array(es), xs, offset) == Ok(Array(Overwrite(es, vs, offset)));
    OverwriteSlice(es, vs, offset);
  }

  /**
   * `js_set_array_elements` with the element `marshall`, then the element
   * `unmarshall` over the stored slice: with a faithful engine, storing
   * sound values succeeds, keeps the elements outside the range, and the
   * stored slice reads back as the values stored, checked or not.
   */
  lemma SetThenGet(e: Engine, checked: bool, el: NativeType, es: seq<Value>, xs: seq<Native>, offset: nat)
    requires Faithful(e) && CanMarshall(el) && CanUnmarshall(el) && forall j :: 0 <= j < |xs| ==> Sound(el, xs[j])
    requires offset <= |es|
    ensures forall j :: 0 <= j < |xs| ==> Represents(el, xs[j])
    ensures StoreAt(e.ops, ElementWriter(e, el), Array(es), xs, offset).Ok?
    ensures Stored(es, StoreAt(e.ops, ElementWriter(e, el), Array(es), xs, offset).value, offset, |xs|)
    ensures UnmarshallAll(e, checked, el, StoreAt(e.ops, ElementWriter(e, el), Array(es), xs, offset).value.elements[offset..offset + |xs|]) == Ok(xs)
  {
    ElementsRoundTrip(e, checked, el, xs);
    StoreThenFetch(e.ops, ElementWriter(e, el), ElementReader(e, checked, el), es, xs, offset);
  }

  /**
   * With arrays that store what is set, storing elements that `read` undoes
   * from index 0 and then fetching as many elements as were stored, as a
   * `T[N]` or `std::array<T, N>` does, yields the elements.
   */
  lemma StoreThenFetchFixed<X>(ops: Ops, write: X --> Outcome<Value>, read: Value --> Outcome<X>, es: seq<Value>, xs: seq<X>)
    requires ArraysFaithful(ops) && forall w :: read.requires(w)
    requires forall j :: 0 <= j < |xs| ==> write.requires(xs[j]) && write(xs[j]).Ok?
    requires forall j :: 0 <= j < |xs| ==> read(write(xs[j]).value) == Ok(xs[j])
    ensures StoreAt(ops, write, Array(es), xs, 0).Ok?
    ensures FetchFixed(ops, read, |xs|, StoreAt(ops, write, Array(es), xs, 0).value) == Ok(xs)
  {
    StoreThenFetch(ops, write, read, es, xs, 0);
    var a := StoreAt(ops, write, Array(es), xs, 0).value;
    var fetched := a.elements[..|xs|];
    assert a.elements[0..|xs|] == fetched;
    if |xs| == |a.elements| {
      assert fetched == a.elements;
    }
    assert ops.getArrayElements(a, |xs|) == Done(fetched);
    assert ConvertAll(read, fetched) == Ok(xs);
  }

  /**
   * With arrays that store what is set, storing elements that `read` undoes
   * from index 0 over the whole array and then fetching the array's length,
   * as a `std::vector<T>` does, yields the elements.
   */
  lemma StoreThenFetchVector<X>(ops: Ops, write: X --> Outcome<Value>, read: Value --> Outcome<X>, es: seq<Value>, xs: seq<X>)
    requires ArraysFaithful(ops) && forall w :: read.requires(w)
    requires |es| <= |xs|
    requires forall j :: 0 <= j < |xs| ==> write.requires(xs[j]) && write(xs[j]).Ok?
    requires forall j :: 0 <= j < |xs| ==> read(write(xs[j]).value) == Ok(xs[j])
    ensures StoreAt(ops, write, Array(es), xs, 0).Ok?
    ensures FetchVector(ops, read, StoreAt(ops, write, Array(es), xs, 0).value) == Ok(xs)
  {
    StoreThenFetch(ops, write, read, es, xs, 0);
    var a := StoreAt(ops, write, Array(es), xs, 0).value;
    assert |a.elements| == |xs|;
    assert a.elements[0..|xs|] == a.elements;
    assert ops.getArrayElements(a, |xs|) == Done(a.elements);
  }

  /**
   * `js_set_array_elements` from index 0 followed by `js_get_array_elements`
   * into a `T[N]` or `std::array<T, N>` with `N` the number stored: the
   * fetch reads from index 0, finds `N` elements and yields the values
   * stored, checked or not, whatever the array held before.
   */
  lemma SetThenGetFixed(e: Engine, checked: bool, el: NativeType, es: seq<Value>, xs: seq<Native>)
    requires Faithful(e) && CanMarshall(el) && CanUnmarshall(el) && forall j :: 0 <= j < |xs| ==> Sound(el, xs[j])
    ensures forall j :: 0 <= j < |xs| ==> Represents(el, xs[j])
    ensures StoreAt(e.ops, ElementWriter(e, el), Array(es), xs, 0).Ok?
    ensures FetchFixed(e.ops, ElementReader(e, checked, el), |xs|, StoreAt(e.ops, ElementWriter(e, el), Array(es), xs, 0).value) == Ok(xs)
  {
    ElementsRoundTrip(e, checked, el, xs);
    StoreThenFetchFixed(e.ops, ElementWriter(e, el), ElementReader(e, checked, el), es, xs);
  }

  /**
   * `js_set_array_elements` from index 0 over the whole array followed by
   * `js_get_array_elements` into a `std::vector<T>`: the vector gets the
   * array's length, which is the number stored, and yields the values
   * stored, checked or not.
   */
  lemma SetThenGetVector(e: Engine, checked: bool, el: NativeType, es: seq<Value>, xs: seq<Native>)
    requires Faithful(e) && CanMarshall(el) && CanUnmarshall(el) && forall j :: 0 <= j < |xs| ==> Sound(el, xs[j])
    requires |es| <= |xs|
    ensures forall j :: 0 <= j < |xs| ==> Represents(el, xs[j])
    ensures StoreAt(e.ops, ElementWriter(e, el), Array(es), xs, 0).Ok?
    ensures FetchVector(e.ops, ElementReader(e, checked, el), StoreAt(e.ops, ElementWriter(e, el), Array(es), xs, 0).value) == Ok(xs)
  {
    ElementsRoundTrip(e, checked, el, xs);
    StoreThenFetchVector(e.ops, ElementWriter(e, el), ElementReader(e, checked, el), es, xs);
  }

  /** The parts of an overwritten sequence. */
  lemma OverwriteSlice(es: seq<Value>, vs: seq<Value>, offset: nat)
    requires offset <= |es|
    ensures var r := Overwrite(es, vs, offset);
            && |r| >= offset + |vs| && r[..offset] == es[..offset] && r[offset..offset + |vs|] == vs
            && (offset + |vs| <= |es| ==> r[offset + |vs|..] == es[offset + |vs|..])
  {
  }
}
