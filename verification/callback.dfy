/**
 * Callback synthesis: the call-signature descriptor `js_create_function`
 * hands to the engine, receiver detection, the argument layout of the
 * untyped trampolines and its inverse in `js_call_function`, and the
 * open-scope / try / catch / close-scope discipline of the four trampolines.
 * The wrapped native function is a parameter `fn`; the engine's own calls
 * (`js_get_callback_info`, `js_call_function`, `js_get_global`) are modelled
 * by their documented behaviour or passed in as functions.
 */
module Callbacks {
  import opened Errors
  import Tags
  import opened Values
  import opened Engines
  import opened Registry
  import opened Conversion
  import opened ConversionLaws

  /** `js_callback_signature_t`: `version`, the `result` tag and the `args` tags (`args_len` is their number). */
  datatype Descriptor = Descriptor(version: nat, result: Tags.Tag, args: seq<Tags.Tag>)

  /** The descriptor `js_create_function` builds for a native function `R fn(js_env_t *, A...)`. */
  function Describe(r: NativeType, params: seq<NativeType>): (d: Descriptor)
    ensures d.version == 0 && d.result == Signature(r)
    ensures |d.args| == |params| && forall i :: 0 <= i < |params| ==> d.args[i] == Signature(params[i])
  {
    Descriptor(0, Signature(r), seq(|params|, i requires 0 <= i < |params| => Signature(params[i])))
  }

  /**
   * `js_create_function`: hand the engine the name, the descriptor and the
   * trampolines, and pass its status up.  `create` is the engine's
   * `js_create_typed_function`; the overload without a name passes an
   * empty one.
   */
  function CreateFunction(create: (seq<byte>, Descriptor) -> Reply<Value>, name: seq<byte>,
                          r: NativeType, params: seq<NativeType>): (o: Outcome<Value>)
    ensures o.Ok? || o.Err?
    ensures o.Ok? <==> create(name, Describe(r, params)).Done?
    ensures o.Ok? ==> o.value == create(name, Describe(r, params)).value
    ensures o.Err? ==> o.code == create(name, Describe(r, params)).code
  {
    FromReply(create(name, Describe(r, params)))
  }

  /** `js_argument_info_t<A...>::has_receiver`: the first declared parameter is `js_receiver_t`. */
  predicate HasReceiver(params: seq<NativeType>) {
    |params| > 0 && params[0] == ReceiverT
  }

  /** What the engine knows about a call of a function: the receiver `this` and the positional arguments. */
  datatype CallInfo = CallInfo(self: Value, args: seq<Value>)

  /** Whether a call passes exactly the positional arguments the parameters other than the receiver ask for. */
  predicate Fits(params: seq<NativeType>, call: CallInfo) {
    |call.args| + (if HasReceiver(params) then 1 else 0) == |params|
  }

  /** The `argv` of an untyped trampoline: the receiver first when one is declared, then the positional arguments. */
  function Layout(params: seq<NativeType>, call: CallInfo): (argv: seq<Value>)
    ensures |argv| == |call.args| + (if HasReceiver(params) then 1 else 0)
  {
    if HasReceiver(params) then [call.self] + call.args else call.args
  }

  /**
   * `js_call_function`'s choice of receiver and arguments from the
   * marshalled `argv`: `argv[0]` and the rest when a receiver is declared,
   * otherwise the global object and all of them.
   */
  function Split(params: seq<NativeType>, argv: seq<Value>, global: Value): CallInfo
    requires HasReceiver(params) ==> |argv| > 0
  {
    if HasReceiver(params) then CallInfo(argv[0], argv[1..]) else CallInfo(global, argv)
  }

  /** `js_call_function` passes the receiver and arguments a trampoline lays out again as the same `argv`. */
  lemma LayoutUndoesSplit(params: seq<NativeType>, argv: seq<Value>, global: Value)
    requires |argv| == |params|
    ensures Fits(params, Split(params, argv, global))
    ensures Layout(params, Split(params, argv, global)) == argv
  {
  }

  /** Laying out a call and splitting it again gives back its arguments, and its receiver when one is declared. */
  lemma SplitUndoesLayout(params: seq<NativeType>, call: CallInfo, global: Value)
    ensures Split(params, Layout(params, call), global) == if HasReceiver(params) then call else CallInfo(global, call.args)
  {
    if HasReceiver(params) {
      assert Layout(params, call)[1..] == call.args;
    }
  }

  /**
   * `js_get_callback_info(env, info, &argc, argv + start, receiver, nullptr)`
   * as documented: up to `capacity` positional arguments are written from
   * `argv[start]` on, the receiver into `argv[0]` when asked for, and the
   * number of arguments the call actually passed is returned.
   */
  method GetCallbackInfo(call: CallInfo, argv: array<Value>, start: nat, capacity: nat, withReceiver: bool)
    returns (argc: nat)
    requires start + capacity <= argv.Length && (withReceiver ==> start >= 1)
    modifies argv
    ensures argc == |call.args|
    ensures forall i :: start <= i < start + capacity && i - start < |call.args| ==> argv[i] == call.args[i - start]
    ensures withReceiver ==> argv[0] == call.self
    ensures forall i :: 0 <= i < argv.Length && !(start <= i < start + capacity && i - start < |call.args|) && !(withReceiver && i == 0)
                        ==> argv[i] == old(argv[i])
  {
    var i := 0;
    while i < capacity && i < |call.args|
      invariant 0 <= i <= capacity && i <= |call.args|
      invariant forall k :: start <= k < start + i ==> argv[k] == call.args[k - start]
      invariant forall k :: 0 <= k < argv.Length && !(start <= k < start + i) ==> argv[k] == old(argv[k])
    {
      argv[start + i] := call.args[i];
      i := i + 1;
    }
    if withReceiver {
      argv[0] := call.self;
    }
    argc := |call.args|;
  }

  /**
   * The argument handling of the untyped trampolines: a buffer of one slot
   * per declared parameter, filled by `js_get_callback_info` after the
   * receiver slot when a receiver is declared (asking for one argument
   * fewer, then counting the receiver back in), and the assertion that the
   * count equals the number of declared parameters.
   */
  method GatherArguments(params: seq<NativeType>, call: CallInfo) returns (o: Outcome<seq<Value>>)
    ensures o.Ok? <==> Fits(params, call)
    ensures !o.Ok? ==> o == Abort
    ensures o.Ok? ==> o.value == Layout(params, call)
  {
    var argv := new Value[|params|](_ => Undefined);
    var argc: nat := |params|;
    if HasReceiver(params) {
      argc := argc - 1;
      argc := GetCallbackInfo(call, argv, 1, argc, true);
      argc := argc + 1;
    } else {
      argc := GetCallbackInfo(call, argv, 0, argc, false);
    }
    if argc != |params| {
      return Abort;
    }
    assert argv[..] == Layout(params, call);
    return Ok(argv[..]);
  }

  /** How the body of a `try` ends: with a value, by throwing an `int`, or by a failed assertion. */
  datatype Attempt<+T> = Completed(value: T) | Threw(code: int) | Aborts

  /** `if (err < 0) throw err;` after a conversion. */
  function Throwing<T>(o: Outcome<T>): (a: Attempt<T>)
    ensures a.Completed? <==> o.Ok?
    ensures a.Aborts? <==> o.Abort?
    ensures a.Threw? ==> a.code == o.Status() && a.code < 0
  {
    match o
    case Ok(v) => Completed(v)
    case Abort => Aborts
    case _ => Threw(o.Status())
  }

  /**
   * How a trampoline ends: it returns `result` to the engine, an error
   * escapes it (only the void untyped one can), or the process terminates
   * on a failed assertion.
   */
  datatype Exit<+T> = Return(result: T) | Escape(code: int) | Terminate

  /**
   * The `catch (int err) { assert(err != 0); }` of every trampoline: a
   * completed body returns its value; on a caught error `result` was never
   * assigned and is returned holding whatever it held, here `garbage`.
   */
  function Catch<T>(a: Attempt<T>, garbage: T): (x: Exit<T>)
    ensures !x.Escape?
    ensures x.Terminate? <==> a.Aborts? || a == Threw(0)
    ensures a.Completed? ==> x == Return(a.value)
    ensures a.Threw? && a.code != 0 ==> x == Return(garbage)
  {
    match a
    case Completed(v) => Return(v)
    case Threw(c) => if c == 0 then Terminate else Return(garbage)
    case Aborts => Terminate
  }

  /** The pairs `(xs[i], ys[i])`. */
  function Zip<A, B>(xs: seq<A>, ys: seq<B>): (r: seq<(A, B)>)
    requires |xs| == |ys|
    ensures |r| == |xs| && forall i :: 0 <= i < |xs| ==> r[i] == (xs[i], ys[i])
  {
    seq(|xs|, i requires 0 <= i < |xs| => (xs[i], ys[i]))
  }

  /** Whether a native function with these parameters can be wrapped: each parameter has an `unmarshall`. */
  predicate Wrappable(params: seq<NativeType>) {
    forall i :: 0 <= i < |params| ==> CanUnmarshall(params[i])
  }

  /** `js_unmarshall_untyped_value<checked, A>` for a parameter type and a boxed argument. */
  function ArgumentReader(e: Engine, checked: bool): (r: ((NativeType, Value)) --> Outcome<Native>)
    ensures forall p: (NativeType, Value) :: CanUnmarshall(p.0) ==> r.requires(p) && r(p) == Unmarshall(e, checked, p.0, p.1)
  {
    (p: (NativeType, Value)) requires CanUnmarshall(p.0) => Unmarshall(e, checked, p.0, p.1)
  }

  /** The untyped trampolines' unmarshalling of `argv[I]` to `A_I`, in index order. */
  function UnmarshallArguments(e: Engine, checked: bool, params: seq<NativeType>, argv: seq<Value>): Outcome<seq<Native>>
    requires Wrappable(params) && |argv| == |params|
  {
    ConvertAll(ArgumentReader(e, checked), Zip(params, argv))
  }

  /** Whether `fn` only ever returns values of its declared result type. */
  ghost predicate Yields(r: NativeType, fn: seq<Native> -> Attempt<Native>) {
    forall args :: fn(args).Completed? ==> Represents(r, fn(args).value)
  }

  /**
   * The `try` block of the untyped trampoline of a non-void function:
   * unmarshall the arguments, call `fn`, marshall its result (escaping the
   * handle from the scope, which leaves the value as it is).
   */
  function UntypedAttempt(e: Engine, checked: bool, r: NativeType, params: seq<NativeType>,
                          fn: seq<Native> -> Attempt<Native>, argv: seq<Value>): Attempt<Value>
    requires CanMarshall(r) && Yields(r, fn) && Wrappable(params) && |argv| == |params|
  {
    var args := UnmarshallArguments(e, checked, params, argv);
    if !args.Ok? then Throwing(args.Cast())
    else match fn(args.value)
      case Completed(x) => Throwing(Marshall(e, r, x))
      case Threw(c) => Threw(c)
      case Aborts => Aborts
  }

  /** Whether `body` is defined on every `argv` with one value per declared parameter. */
  ghost predicate Total<T>(params: seq<NativeType>, body: seq<Value> --> Attempt<T>) {
    forall argv: seq<Value> | |argv| == |params| :: body.requires(argv)
  }

  /**
   * An untyped trampoline running the `try` block `body` for a call: the
   * process terminates when the call does not fit the parameters, otherwise
   * the block runs on the laid-out `argv` and its errors are caught.
   */
  function Dispatch<T>(params: seq<NativeType>, body: seq<Value> --> Attempt<T>, call: CallInfo, garbage: T): Exit<T>
    requires Total(params, body)
  {
    if !Fits(params, call) then Terminate else Catch(body(Layout(params, call)), garbage)
  }

  /** The untyped trampoline of a non-void function, called by the engine with `call`. */
  function UntypedCall(e: Engine, checked: bool, r: NativeType, params: seq<NativeType>,
                       fn: seq<Native> -> Attempt<Native>, call: CallInfo, garbage: Value): Exit<Value>
    requires CanMarshall(r) && Yields(r, fn) && Wrappable(params)
  {
    Dispatch(params, argv requires |argv| == |params| => UntypedAttempt(e, checked, r, params, fn, argv), call, garbage)
  }

  /** The `try` block of the untyped trampoline of a void function: unmarshall the arguments and call `fn`. */
  function VoidAttempt(e: Engine, checked: bool, params: seq<NativeType>,
                       fn: seq<Native> -> Attempt<Native>, argv: seq<Value>): Attempt<()>
    requires Wrappable(params) && |argv| == |params|
  {
    var args := UnmarshallArguments(e, checked, params, argv);
    if !args.Ok? then Throwing(args.Cast())
    else match fn(args.value)
      case Completed(_) => Completed(())
      case Threw(c) => Threw(c)
      case Aborts => Aborts
  }

  /**
   * The untyped trampoline of a void function running `body`: once the
   * scope is closed, `js_get_undefined` outside the `try`, whose error
   * escapes.
   */
  function VoidDispatch(ops: Ops, params: seq<NativeType>, body: seq<Value> --> Attempt<()>, call: CallInfo): Exit<Value>
    requires Total(params, body)
  {
    if Dispatch(params, body, call, ()).Terminate? then Terminate
    else match ops.getUndefined
      case Done(u) => Return(u)
      case Failed(c) => Escape(c)
  }

  /** The untyped trampoline of a void function, called by the engine with `call`. */
  function VoidUntypedCall(e: Engine, checked: bool, params: seq<NativeType>,
                           fn: seq<Native> -> Attempt<Native>, call: CallInfo): Exit<Value>
    requires Wrappable(params)
  {
    VoidDispatch(e.ops, params, argv requires |argv| == |params| => VoidAttempt(e, checked, params, fn, argv), call)
  }

  /**
   * The handle scopes of an engine environment: how deep they are nested,
   * and how many have been opened and closed.
   */
  class HandleScopes {
    var depth: nat
    var opens: nat
    var closes: nat

    /** Every scope opened and not yet closed is still open. */
    predicate Balanced()
      reads this
    {
      opens == closes + depth
    }

    constructor ()
      ensures depth == 0 && opens == 0 && closes == 0
      ensures Balanced()
    {
      depth, opens, closes := 0, 0, 0;
    }

    /** `js_open_handle_scope` / `js_open_escapable_handle_scope`. */
    method Open()
      modifies this
      ensures depth == old(depth) + 1 && opens == old(opens) + 1 && closes == old(closes)
      ensures old(Balanced()) ==> Balanced()
    {
      depth, opens := depth + 1, opens + 1;
    }

    /** `js_close_handle_scope` / `js_close_escapable_handle_scope` of the innermost scope. */
    method Close()
      requires depth > 0
      modifies this
      ensures depth == old(depth) - 1 && closes == old(closes) + 1 && opens == old(opens)
      ensures old(Balanced()) ==> Balanced()
    {
      depth, closes := depth - 1, closes + 1;
    }
  }

  /**
   * The untyped trampoline of `R fn(js_env_t *, A...)` for non-void `R`,
   * whose `try` block is `body`: open a scope when `scoped`, gather and
   * check the arguments, run the block, catch any `int`, close the scope,
   * return `result`.  Unless the process terminates, exactly one scope is
   * opened and closed when `scoped` and none otherwise.
   */
  method UntypedTrampoline<T>(scoped: bool, params: seq<NativeType>, body: seq<Value> --> Attempt<T>,
                              scopes: HandleScopes, call: CallInfo, garbage: T)
    returns (x: Exit<T>)
    requires Total(params, body)
    modifies scopes
    ensures x == Dispatch(params, body, call, garbage)
    ensures !x.Terminate? ==> scopes.depth == old(scopes.depth)
    ensures !x.Terminate? ==> scopes.opens == old(scopes.opens) + (if scoped then 1 else 0)
    ensures !x.Terminate? ==> scopes.closes == old(scopes.closes) + (if scoped then 1 else 0)
  {
    if scoped {
      scopes.Open();
    }
    var argv := GatherArguments(params, call);
    if !argv.Ok? {
      return Terminate;
    }
    x := Catch(body(argv.value), garbage);
    if x.Terminate? {
      return;
    }
    if scoped {
      scopes.Close();
    }
  }

  /**
   * The untyped trampoline of a void function, whose `try` block is `body`:
   * as `UntypedTrampoline`, then `undefined` from `js_get_undefined` once
   * the scope is closed.
   */
  method VoidUntypedTrampoline(ops: Ops, scoped: bool, params: seq<NativeType>, body: seq<Value> --> Attempt<()>,
                               scopes: HandleScopes, call: CallInfo)
    returns (x: Exit<Value>)
    requires Total(params, body)
    modifies scopes
    ensures x == VoidDispatch(ops, params, body, call)
    ensures !x.Terminate? ==> scopes.depth == old(scopes.depth)
    ensures !x.Terminate? ==> scopes.opens == old(scopes.opens) + (if scoped then 1 else 0)
    ensures !x.Terminate? ==> scopes.closes == old(scopes.closes) + (if scoped then 1 else 0)
  {
    var caught := UntypedTrampoline(scoped, params, body, scopes, call, ());
    if caught.Terminate? {
      return Terminate;
    }
    match ops.getUndefined
    case Done(u) =>
      return Return(u);
    case Failed(c) =>
      return Escape(c);
  }

  /**
   * An argument of a typed trampoline: the native value itself for a type
   * passed directly, the boxed value otherwise.
   */
  datatype TypedArg = Plain(x: Native) | Boxed(v: Value)

  /** Whether a typed argument has the form its parameter type calls for. */
  predicate Shaped(t: NativeType, a: TypedArg) {
    Direct(t) <==> a.Plain?
  }

  /** `js_unmarshall_typed_value<checked, A>`: a direct type is taken as it is, unchecked. */
  function UnmarshallTyped(e: Engine, checked: bool, t: NativeType, a: TypedArg): (o: Outcome<Native>)
    requires CanUnmarshall(t) && Shaped(t, a)
    ensures Direct(t) ==> o == Ok(a.x)
  {
    if Direct(t) then Ok(a.x) else Unmarshall(e, checked, t, a.v)
  }

  /** `js_unmarshall_typed_value<checked, A>` as a function of the parameter type and the argument. */
  function TypedReader(e: Engine, checked: bool): (r: ((NativeType, TypedArg)) --> Outcome<Native>)
    ensures forall p: (NativeType, TypedArg) :: CanUnmarshall(p.0) && Shaped(p.0, p.1) ==> r.requires(p) && r(p) == UnmarshallTyped(e, checked, p.0, p.1)
  {
    (p: (NativeType, TypedArg)) requires CanUnmarshall(p.0) && Shaped(p.0, p.1) => UnmarshallTyped(e, checked, p.0, p.1)
  }

  /** Whether each typed argument has the form of its parameter. */
  predicate AllShaped(params: seq<NativeType>, args: seq<TypedArg>) {
    |args| == |params| && forall i :: 0 <= i < |params| ==> Shaped(params[i], args[i])
  }

  /** The typed trampolines' unmarshalling of `args` to `A...`, in index order. */
  function UnmarshallTypedArguments(e: Engine, checked: bool, params: seq<NativeType>, args: seq<TypedArg>): Outcome<seq<Native>>
    requires Wrappable(params) && AllShaped(params, args)
  {
    ConvertAll(TypedReader(e, checked), Zip(params, args))
  }

  /** `js_marshall_typed_value<checked, R>`: a direct type is passed back as it is. */
  function MarshallTyped(e: Engine, r: NativeType, x: Native): (o: Outcome<TypedArg>)
    requires CanMarshall(r) && Represents(r, x)
    ensures Direct(r) ==> o == Ok(Plain(x))
    ensures o.Ok? ==> Shaped(r, o.value)
  {
    if Direct(r) then Ok(Plain(x))
    else
      var m := Marshall(e, r, x);
      if m.Ok? then Ok(Boxed(m.value)) else m.Cast()
  }

  /** The `try` block of the typed trampoline of a non-void function. */
  function TypedAttempt(e: Engine, checked: bool, r: NativeType, params: seq<NativeType>,
                        fn: seq<Native> -> Attempt<Native>, args: seq<TypedArg>): Attempt<TypedArg>
    requires CanMarshall(r) && Yields(r, fn) && Wrappable(params) && AllShaped(params, args)
  {
    var natives := UnmarshallTypedArguments(e, checked, params, args);
    if !natives.Ok? then Throwing(natives.Cast())
    else match fn(natives.value)
      case Completed(x) => Throwing(MarshallTyped(e, r, x))
      case Threw(c) => Threw(c)
      case Aborts => Aborts
  }

  /** The `try` block of the typed trampoline of a void function. */
  function TypedVoidAttempt(e: Engine, checked: bool, params: seq<NativeType>,
                            fn: seq<Native> -> Attempt<Native>, args: seq<TypedArg>): Attempt<()>
    requires Wrappable(params) && AllShaped(params, args)
  {
    var natives := UnmarshallTypedArguments(e, checked, params, args);
    if !natives.Ok? then Throwing(natives.Cast())
    else match fn(natives.value)
      case Completed(_) => Completed(())
      case Threw(c) => Threw(c)
      case Aborts => Aborts
  }

  /**
   * The typed trampoline of a non-void function.  A boxed result must be
   * escaped, so a result type that is not passed directly needs `scoped`.
   */
  method TypedTrampoline(e: Engine, checked: bool, scoped: bool, r: NativeType, params: seq<NativeType>,
                         fn: seq<Native> -> Attempt<Native>, scopes: HandleScopes, args: seq<TypedArg>, garbage: TypedArg)
    returns (x: Exit<TypedArg>)
    requires CanMarshall(r) && Yields(r, fn) && Wrappable(params) && AllShaped(params, args)
    requires scoped || Direct(r)
    modifies scopes
    ensures x == Catch(TypedAttempt(e, checked, r, params, fn, args), garbage)
    ensures !x.Terminate? ==> scopes.depth == old(scopes.depth)
    ensures !x.Terminate? ==> scopes.opens == old(scopes.opens) + (if scoped then 1 else 0)
    ensures !x.Terminate? ==> scopes.closes == old(scopes.closes) + (if scoped then 1 else 0)
  {
    if scoped {
      scopes.Open();
    }
    x := Catch(TypedAttempt(e, checked, r, params, fn, args), garbage);
    if x.Terminate? {
      return;
    }
    if scoped {
      scopes.Close();
    }
  }

  /** The typed trampoline of a void function. */
  method TypedVoidTrampoline(e: Engine, checked: bool, scoped: bool, params: seq<NativeType>,
                             fn: seq<Native> -> Attempt<Native>, scopes: HandleScopes, args: seq<TypedArg>)
    returns (x: Exit<()>)
    requires Wrappable(params) && AllShaped(params, args)
    modifies scopes
    ensures x == Catch(TypedVoidAttempt(e, checked, params, fn, args), ())
    ensures !x.Terminate? ==> scopes.depth == old(scopes.depth)
    ensures !x.Terminate? ==> scopes.opens == old(scopes.opens) + (if scoped then 1 else 0)
    ensures !x.Terminate? ==> scopes.closes == old(scopes.closes) + (if scoped then 1 else 0)
  {
    if scoped {
      scopes.Open();
    }
    x := Catch(TypedVoidAttempt(e, checked, params, fn, args), ());
    if x.Terminate? {
      return;
    }
    if scoped {
      scopes.Close();
    }
  }

  /**
   * The typed and untyped paths agree: with a faithful engine, when the
   * untyped trampoline receives the marshalled sound arguments and the typed
   * one receives them as its signature passes them (direct types as they
   * are, others boxed), both unmarshall the same native arguments. Both then
   * end as `fn` does: the same thrown code, the same abort, or its result,
   * boxed by `marshall` on the untyped path and in the typed result's form
   * on the typed one.
   */
  lemma TypedAgreesWithUntyped(e: Engine, checked: bool, r: NativeType, params: seq<NativeType>,
                               fn: seq<Native> -> Attempt<Native>, xs: seq<Native>, argv: seq<Value>, args: seq<TypedArg>)
    requires Faithful(e) && Wrappable(params) && CanMarshall(r) && Yields(r, fn)
    requires |xs| == |params| && |argv| == |params| && |args| == |params|
    requires forall i :: 0 <= i < |params| ==> CanMarshall(params[i]) && Represents(params[i], xs[i]) && Sound(params[i], xs[i])
    requires forall i :: 0 <= i < |params| ==> Marshall(e, params[i], xs[i]) == Ok(argv[i])
    requires forall i :: 0 <= i < |params| ==> args[i] == if Direct(params[i]) then Plain(xs[i]) else Boxed(argv[i])
    ensures AllShaped(params, args)
    ensures UnmarshallArguments(e, checked, params, argv) == Ok(xs)
    ensures UnmarshallTypedArguments(e, checked, params, args) == Ok(xs)
    ensures fn(xs).Threw? ==> UntypedAttempt(e, checked, r, params, fn, argv) == Threw(fn(xs).code)
                              && TypedAttempt(e, checked, r, params, fn, args) == Threw(fn(xs).code)
    ensures fn(xs).Aborts? ==> UntypedAttempt(e, checked, r, params, fn, argv) == Aborts
                               && TypedAttempt(e, checked, r, params, fn, args) == Aborts
    ensures fn(xs).Completed? && Sound(r, fn(xs).value) ==>
              && Marshall(e, r, fn(xs).value).Ok?
              && UntypedAttempt(e, checked, r, params, fn, argv) == Completed(Marshall(e, r, fn(xs).value).value)
              && TypedAttempt(e, checked, r, params, fn, args)
                 == Completed(if Direct(r) then Plain(fn(xs).value) else Boxed(Marshall(e, r, fn(xs).value).value))
  {
    TypedArgumentsAgree(e, checked, params, xs, argv, args);
    match fn(xs)
    case Completed(y) =>
      if Sound(r, y) {
        MarshallConforms(e, r, y);
      }
    case Threw(_) =>
    case Aborts =>
  }

  /** Both paths unmarshall the arguments of `TypedAgreesWithUntyped` to the same native values. */
  lemma TypedArgumentsAgree(e: Engine, checked: bool, params: seq<NativeType>, xs: seq<Native>, argv: seq<Value>, args: seq<TypedArg>)
    requires Faithful(e) && Wrappable(params)
    requires |xs| == |params| && |argv| == |params| && |args| == |params|
    requires forall i :: 0 <= i < |params| ==> CanMarshall(params[i]) && Represents(params[i], xs[i]) && Sound(params[i], xs[i])
    requires forall i :: 0 <= i < |params| ==> Marshall(e, params[i], xs[i]) == Ok(argv[i])
    requires forall i :: 0 <= i < |params| ==> args[i] == if Direct(params[i]) then Plain(xs[i]) else Boxed(argv[i])
    ensures AllShaped(params, args)
    ensures UnmarshallArguments(e, checked, params, argv) == Ok(xs)
    ensures UnmarshallTypedArguments(e, checked, params, args) == Ok(xs)
  {
    EachArgumentRoundTrip(e, checked, params, xs);
    UnmarshallArgumentsPointwise(e, checked, params, argv, xs);
    assert AllShaped(params, args);
    var pairs := Zip(params, args);
    forall i | 0 <= i < |params|
      ensures TypedReader(e, checked)(pairs[i]) == Ok(xs[i])
    {
      assert UnmarshallTyped(e, checked, params[i], args[i]) == Ok(xs[i]);
    }
    ConvertAllPointwise(TypedReader(e, checked), pairs, xs);
  }

  /**
   * With a faithful engine the void untyped trampoline never lets an error
   * escape: unless the process terminates, it returns `undefined`.
   */
  lemma VoidUntypedReturnsUndefined(e: Engine, checked: bool, params: seq<NativeType>,
                                    fn: seq<Native> -> Attempt<Native>, call: CallInfo)
    requires ScalarsFaithful(e.ops) && Wrappable(params)
    ensures VoidUntypedCall(e, checked, params, fn, call) in {Return(Undefined), Terminate}
  {
  }

  /**
   * A trampoline whose arguments all convert and whose function returns
   * hands back the converted result; an error thrown anywhere in the `try`
   * returns the unassigned `result` instead.
   */
  lemma UntypedCallOutcomes(e: Engine, checked: bool, r: NativeType, params: seq<NativeType>,
                            fn: seq<Native> -> Attempt<Native>, call: CallInfo, garbage: Value)
    requires CanMarshall(r) && Yields(r, fn) && Wrappable(params) && Fits(params, call)
    ensures var args := UnmarshallArguments(e, checked, params, Layout(params, call));
            && (!args.Ok? && !args.Abort? ==> UntypedCall(e, checked, r, params, fn, call, garbage) == Return(garbage))
            && (args.Ok? && fn(args.value).Completed? && Marshall(e, r, fn(args.value).value).Ok? ==>
                  UntypedCall(e, checked, r, params, fn, call, garbage) == Return(Marshall(e, r, fn(args.value).value).value))
            && (args.Ok? && fn(args.value).Threw? && fn(args.value).code != 0 ==>
                  UntypedCall(e, checked, r, params, fn, call, garbage) == Return(garbage))
  {
    assert UntypedCall(e, checked, r, params, fn, call, garbage)
        == Catch(UntypedAttempt(e, checked, r, params, fn, Layout(params, call)), garbage);
  }

  /** `js_marshall_untyped_value<checked, A>` as a function of the parameter type and the native argument. */
  function ArgumentWriter(e: Engine): (w: ((NativeType, Native)) --> Outcome<Value>)
    ensures forall p: (NativeType, Native) :: CanMarshall(p.0) && Represents(p.0, p.1) ==> w.requires(p) && w(p) == Marshall(e, p.0, p.1)
  {
    (p: (NativeType, Native)) requires CanMarshall(p.0) && Represents(p.0, p.1) => Marshall(e, p.0, p.1)
  }

  /** Whether `args` are values of the parameter types, each of which has a `marshall`. */
  predicate Passable(params: seq<NativeType>, args: seq<Native>) {
    |args| == |params| && forall i :: 0 <= i < |params| ==> CanMarshall(params[i]) && Represents(params[i], args[i])
  }

  /** `js_call_function`'s marshalling of its arguments into `argv`, in index order. */
  function MarshallArguments(e: Engine, params: seq<NativeType>, args: seq<Native>): Outcome<seq<Value>>
    requires Passable(params, args)
  {
    ConvertAll(ArgumentWriter(e), Zip(params, args))
  }

  /**
   * `js_call_function` of a void function: marshall the arguments, split
   * off the receiver (or take the global object), and call; a conversion
   * error is caught and returned.  `invoke` is the engine's call.
   */
  function CallFunction(e: Engine, params: seq<NativeType>, args: seq<Native>, global: Value,
                        invoke: (Value, seq<Value>) -> Reply<Value>): Outcome<()>
    requires Passable(params, args)
  {
    var argv := MarshallArguments(e, params, args);
    if !argv.Ok? then argv.Cast()
    else
      var c := Split(params, argv.value, global);
      FromReply(invoke(c.self, c.args)).Drop()
  }

  /** `js_call_function` of a function returning `R`: as `CallFunction`, then the result unmarshalled to `R`. */
  function CallFunctionFor(e: Engine, checked: bool, r: NativeType, params: seq<NativeType>, args: seq<Native>, global: Value,
                           invoke: (Value, seq<Value>) -> Reply<Value>): Outcome<Native>
    requires CanUnmarshall(r) && Passable(params, args)
  {
    var argv := MarshallArguments(e, params, args);
    if !argv.Ok? then argv.Cast()
    else
      var c := Split(params, argv.value, global);
      match invoke(c.self, c.args)
      case Failed(code) => Err(code)
      case Done(v) => Unmarshall(e, checked, r, v)
  }

  /**
   * Argument conversion round trip: with a faithful engine, sound arguments
   * are all marshalled, and unmarshalling what they became gives them back,
   * checked or not.
   */
  lemma ArgumentsRoundTrip(e: Engine, checked: bool, params: seq<NativeType>, args: seq<Native>) returns (argv: seq<Value>)
    requires Faithful(e) && Wrappable(params) && |args| == |params|
    requires forall i :: 0 <= i < |params| ==> CanMarshall(params[i]) && Sound(params[i], args[i])
    ensures Passable(params, args) && MarshallArguments(e, params, args) == Ok(argv)
    ensures |argv| == |params| && UnmarshallArguments(e, checked, params, argv) == Ok(args)
  {
    EachArgumentRoundTrip(e, checked, params, args);
    argv := seq(|params|, i requires 0 <= i < |params| => Marshall(e, params[i], args[i]).value);
    MarshallArgumentsPointwise(e, params, args, argv);
    UnmarshallArgumentsPointwise(e, checked, params, argv, args);
  }

  /** `RoundTrip` for every argument. */
  lemma EachArgumentRoundTrip(e: Engine, checked: bool, params: seq<NativeType>, args: seq<Native>)
    requires Faithful(e) && Wrappable(params) && |args| == |params|
    requires forall i :: 0 <= i < |params| ==> CanMarshall(params[i]) && Sound(params[i], args[i])
    ensures forall i :: 0 <= i < |params| ==> Represents(params[i], args[i]) && Marshall(e, params[i], args[i]).Ok?
    ensures forall i :: 0 <= i < |params| ==> Unmarshall(e, checked, params[i], Marshall(e, params[i], args[i]).value) == Ok(args[i])
  {
    forall i | 0 <= i < |params|
      ensures Represents(params[i], args[i]) && Marshall(e, params[i], args[i]).Ok?
      ensures Unmarshall(e, checked, params[i], Marshall(e, params[i], args[i]).value) == Ok(args[i])
    {
      RoundTrip(e, checked, params[i], args[i]);
    }
  }

  /** Arguments that each marshall marshall together, into the sequence of their results. */
  lemma MarshallArgumentsPointwise(e: Engine, params: seq<NativeType>, args: seq<Native>, argv: seq<Value>)
    requires Passable(params, args) && |argv| == |params|
    requires forall i :: 0 <= i < |argv| ==> Marshall(e, params[i], args[i]) == Ok(argv[i])
    ensures MarshallArguments(e, params, args) == Ok(argv)
  {
    ConvertAllPointwise(ArgumentWriter(e), Zip(params, args), argv);
  }

  /** Arguments that each unmarshall unmarshall together, into the sequence of their results. */
  lemma UnmarshallArgumentsPointwise(e: Engine, checked: bool, params: seq<NativeType>, argv: seq<Value>, args: seq<Native>)
    requires Wrappable(params) && |argv| == |params| && |args| == |params|
    requires forall i :: 0 <= i < |argv| ==> Unmarshall(e, checked, params[i], argv[i]) == Ok(args[i])
    ensures UnmarshallArguments(e, checked, params, argv) == Ok(args)
  {
    ConvertAllPointwise(ArgumentReader(e, checked), Zip(params, argv), args);
  }

  /**
   * What `js_call_function` sends is what the callee's untyped trampoline
   * receives: with a faithful engine, sound arguments are marshalled, laid
   * out with the receiver first when one is declared, and unmarshalled back
   * unchanged, checked or not.
   */
  lemma CallDeliversArguments(e: Engine, checked: bool, params: seq<NativeType>, args: seq<Native>, global: Value)
    requires Faithful(e) && Wrappable(params) && |args| == |params|
    requires forall i :: 0 <= i < |params| ==> CanMarshall(params[i]) && Sound(params[i], args[i])
    ensures Passable(params, args) && MarshallArguments(e, params, args).Ok?
    ensures var call := Split(params, MarshallArguments(e, params, args).value, global);
            Fits(params, call) && UnmarshallArguments(e, checked, params, Layout(params, call)) == Ok(args)
  {
    var argv := ArgumentsRoundTrip(e, checked, params, args);
    LayoutUndoesSplit(params, argv, global);
  }

  /**
   * With a faithful engine, `js_call_function` calls the engine with the
   * receiver and arguments `Split` takes from the marshalled `argv`, which
   * the callee's trampoline unmarshalls back unchanged; the void form
   * reports the engine call's status.
   */
  lemma CallFunctionInvokes(e: Engine, checked: bool, params: seq<NativeType>, args: seq<Native>, global: Value,
                            invoke: (Value, seq<Value>) -> Reply<Value>) returns (call: CallInfo)
    requires Faithful(e) && Wrappable(params) && |args| == |params|
    requires forall i :: 0 <= i < |params| ==> CanMarshall(params[i]) && Sound(params[i], args[i])
    ensures Passable(params, args) && MarshallArguments(e, params, args).Ok?
    ensures call == Split(params, MarshallArguments(e, params, args).value, global)
    ensures Fits(params, call) && |Layout(params, call)| == |params|
    ensures UnmarshallArguments(e, checked, params, Layout(params, call)) == Ok(args)
    ensures CallFunction(e, params, args, global, invoke)
            == if invoke(call.self, call.args).Done? then Ok(()) else Err(invoke(call.self, call.args).code)
  {
    CallDeliversArguments(e, checked, params, args, global);
    call := Split(params, MarshallArguments(e, params, args).value, global);
  }

  /**
   * `js_call_function` for `R` makes the same engine call as the void form,
   * passes its failure up, and otherwise unmarshalls its result to `R`.
   */
  lemma CallFunctionForInvokes(e: Engine, checked: bool, r: NativeType, params: seq<NativeType>, args: seq<Native>, global: Value,
                               invoke: (Value, seq<Value>) -> Reply<Value>)
    requires Faithful(e) && Wrappable(params) && CanUnmarshall(r) && |args| == |params|
    requires forall i :: 0 <= i < |params| ==> CanMarshall(params[i]) && Sound(params[i], args[i])
    ensures Passable(params, args) && MarshallArguments(e, params, args).Ok?
    ensures var reply := invoke(Split(params, MarshallArguments(e, params, args).value, global).self,
                                Split(params, MarshallArguments(e, params, args).value, global).args);
            CallFunctionFor(e, checked, r, params, args, global, invoke)
            == if reply.Done? then Unmarshall(e, checked, r, reply.value) else Err(reply.code)
  {
    var _ := ArgumentsRoundTrip(e, checked, params, args);
  }

  /**
   * Result round trip: when the called function returns what `marshall`
   * made of a sound `y`, `js_call_function` for `R` yields `y`, checked or not.
   */
  lemma CallFunctionReturns(e: Engine, checked: bool, r: NativeType, params: seq<NativeType>, args: seq<Native>, global: Value,
                            invoke: (Value, seq<Value>) -> Reply<Value>, y: Native)
    requires Faithful(e) && CanMarshall(r) && CanUnmarshall(r) && Sound(r, y)
    requires Passable(params, args) && MarshallArguments(e, params, args).Ok?
    requires var call := Split(params, MarshallArguments(e, params, args).value, global);
             Marshall(e, r, y).Ok? && invoke(call.self, call.args) == Done(Marshall(e, r, y).value)
    ensures CallFunctionFor(e, checked, r, params, args, global, invoke) == Ok(y)
    ensures CallFunction(e, params, args, global, invoke) == Ok(())
  {
    RoundTrip(e, checked, r, y);
  }
}
