# libjstl, modelled in Dafny

libjstl is a header-only C++ layer over the `js.h` embedding API. It does four things:

- It converts between native C++ values and boxed engine values (`js_value_t *`). Each native type has a `js_type_info_t<T>` with a `marshall`, an `unmarshall` and the tag it announces in a call signature. A checked `unmarshall` first runs `js_check_value`, which throws a type error when the value is of the wrong kind.
- It wraps a C++ function as an engine function. It builds a call-signature descriptor and two trampolines. The untyped trampoline gathers the arguments with `js_get_callback_info`. The typed trampoline receives them already converted. Both convert the arguments and the result, and catch the `int` that a failed conversion throws.
- It calls engine functions (`js_call_function`), reads and writes engine arrays element by element, and creates array buffers and typed arrays sized by the element type.
- It holds references in `js_persistent_t`. Its diagnostics header `jstl::diag` keeps per-function counters and names; the library never updates them itself, and they count the calls of `increase_untyped`, `increase_typed` and `name` made by the code that includes it.

The engine itself is not modelled. It is a record of total functions (`Engines.Engine`): type probes kept apart from getters, constructors and array calls. Every call yields its out-parameter or fails with a negative status. Lemmas that need the engine to behave as documented ask for `Faithful` or one of its parts. `Engines.Reference()` is a concrete engine that satisfies it.

Outcomes of the library are `Errors.Outcome`:

- `Ok` is success.
- `Err(code)` passes an engine status up.
- `Thrown(label)` is a type error thrown by `js_check_value`; the function then returns `js_pending_exception`.
- `Abort` is a failed `assert`, which terminates the process. Assertions are modelled as enabled, that is, a build without `NDEBUG`; "## Left out" says what a build with `NDEBUG` does instead.

The files:

- `errors.dfy`, `tags.dfy`, `values.dfy`: status codes, outcomes, signature tags and value shapes.
- `engine.dfy`: the engine oracle.
- `registry.dfy`: the per-type tables of `js_type_info_t` and `js_typedarray_info_t`.
- `conversion.dfy`, `conversion_laws.dfy`: `marshall`, `unmarshall` and their laws.
- `composite.dfy`: the in-place array loops (`unmarshall` into `T[N]` and `std::vector`, `js_get_array_elements`, `js_set_array_elements`).
- `callback.dfy`: descriptors, the trampolines and `js_call_function`.
- `buffers.dfy`: array-buffer and typed-array length arithmetic.
- `persistent.dfy`: `js_persistent_t` over a reference table.
- `diagnostics.dfy`: the counters of `jstl::diag`.

## Model

| member | source | states |
|---|---|---|
| Registry.SignatureClasses | include/jstl.h:329-1071 | The signature table read backwards. Each tag is announced by exactly the native types listed (strings, externals and objects by a family, every other tag by one type). |
| Registry.TypedArrayInfoInjective | include/jstl.h:197-318 | No two element types share an array kind or a label; every element size is 1, 2, 4 or 8. |
| Registry.OnlyReceiverUnchecked | include/jstl.h:751-771 | Among the types with an `unmarshall`, only `js_receiver_t` has no check. |
| Registry.GuardImpliesSignature | include/jstl.h:329-1071 | A value that passes a type's probe is of the kind that type's signature tag announces. |
| Registry.CString | include/jstl.h:910-934 | The bytes a `char *` stands for contain no NUL, are a prefix of the buffer, and stop at its first NUL. |
| Registry.DefaultRepresents | include/jstl.h:1095-1117 | An element added by `std::vector::resize` is a value of its type unless it is a handle wrapper; a handle is left null, which no handle type represents. |
| Conversion.CheckValue | include/jstl.h:163-195 | The status is the probe's error, 0 on a match, or `js_pending_exception` on a mismatch. A type error is thrown exactly on a mismatch and carries the expected label. It never aborts. |
| Conversion.ReadScalar | include/jstl.h:343-964 | Each scalar and string type reads through its own engine getter. A getter's failure is passed up with its status, and its success yields the getter's value as a value of the requested native type. `char[N]` takes the first `N` bytes of a string and fails the length assertion on a shorter one. |
| Conversion.FetchFixed | include/jstl.h:993-1014 | The fixed-size fetch asks for `N` elements. A failed fetch passes its status up. A fetch of any other number of elements fails the `len == N` assertion (1006). Otherwise the result is the element loop over the `N` fetched values, so a success has exactly `N` elements. |
| Conversion.FetchVector | include/jstl.h:1093-1117 | The vector fetch passes up a failed length query or a failed fetch with its status, and otherwise is the element loop over the elements fetched for the reported length. |
| Conversion.ConvertAll | include/jstl.h:982-987 | The element loop succeeds exactly when every element converts; it then yields every element's result in order. |
| Conversion.ConvertAllFirstFailure | include/jstl.h:1007-1012 | A failed element loop fails as its first failing element does. |
| ConversionLaws.CheckedUnmarshallOutcomes | include/jstl.h:163-195 | A checked `unmarshall` runs the probe first. A probe error is returned unchanged. A mismatch throws the type's label. Only a match goes on to read. |
| ConversionLaws.FailedCheckSkipsRead | include/jstl.h:372-379 | After a failed check, the outcome does not depend on the getters and equals the check's own outcome. |
| ConversionLaws.ReceiverNeverChecked | include/jstl.h:751-771 | Checked and unchecked `unmarshall` of the receiver agree and wrap the value as given. |
| ConversionLaws.UncheckedIgnoresProbe | include/jstl.h:329-1119 | An unchecked `unmarshall`, containers included, gives the same outcome whatever the probes answer. |
| ConversionLaws.UnmarshallRepresents | include/jstl.h:329-1119 | Whatever `unmarshall` yields is a value of its type, down to the elements of containers. |
| ConversionLaws.CheckedRejectsMismatch | include/jstl.h:163-195 | With truthful probes, a value of the wrong kind is rejected with a type error carrying the type's label. |
| ConversionLaws.CheckedAcceptsOnlyConforming | include/jstl.h:329-1119 | With truthful probes, whatever a checked `unmarshall` accepts (the receiver aside) is of the kind the descriptor announces. |
| ConversionLaws.CharArrayReadsExactly | include/jstl.h:865-895 | A `char[N]` is read as the first `N` bytes of a string of at least `N` bytes. A shorter string fails the length assertion. |
| ConversionLaws.MarshallConforms | include/jstl.h:329-1119 | With a faithful engine, marshalling a sound value succeeds. The boxed value is of the announced kind. |
| ConversionLaws.RoundTrip | include/jstl.h:329-1119 | With a faithful engine, `unmarshall` after `marshall` gives back every sound value, checked or not. |
| ConversionLaws.RoundTripHandle | include/jstl.h:635-822 | A handle wrapper is marshalled to the boxed value it holds and unmarshalled back to the same wrapper. |
| ConversionLaws.RoundTripLeaf | include/jstl.h:343-964 | The round trip holds for every scalar and string type. |
| ConversionLaws.RoundTripContainer | include/jstl.h:968-1119 | The round trip holds for `T[N]`, `std::array` and `std::vector`. |
| ConversionLaws.RoundTripAll | include/jstl.h:982-1114 | Marshalling then unmarshalling the element loop gives back the elements. |
| ConversionLaws.MarshallContainer | include/jstl.h:975-988 | A container whose elements all convert becomes the engine array of the converted elements, in order. |
| ConversionLaws.UnmarshallContainer | include/jstl.h:993-1014 | An engine array of the right length whose elements all convert is read back as the container of those elements. |
| ConversionLaws.Int32RoundTrip | include/jstl.h:384-423 | An `int32_t` becomes the engine number of the same value and is read back unchanged. |
| ConversionLaws.Int32VectorRoundTrip | test/create-function-return-vector-int32.cc:8-43 | A `std::vector<int32_t>` becomes the engine array of the same numbers in the same order, and a checked `unmarshall` reads that array back as the same vector. |
| Composite.Resize | include/jstl.h:1111 | `std::vector::resize` keeps the prefix that fits and fills the rest with the default value. |
| Composite.ConvertInto | include/jstl.h:1007-1012 | The in-place element loop has the outcome of `ConvertAll`. On success the array holds the converted elements. |
| Composite.ConvertToBuffer | include/jstl.h:980-987 | Converting into a local buffer has exactly the outcome of `ConvertAll`. |
| Composite.GetArrayElementsFixed | include/jstl.h:2119-2157 | `js_get_array_elements` into `T[N]` or `std::array` has the outcome of `FetchFixed`. On success the array holds its result. An engine failure or a short array leaves the array untouched. |
| Composite.UnmarshallFixedInto | include/jstl.h:993-1064 | Filling `T[N]` in place has the outcome of `Unmarshall`, and on success holds its value. A failed check leaves the array untouched. |
| Composite.GetArrayElementsVector | include/jstl.h:2159-2180 | `js_get_array_elements` into a vector has the outcome of `FetchVector`. On success the vector is its result. |
| Composite.UnmarshallVectorInto | include/jstl.h:1093-1117 | Filling a vector in place has the outcome of `Unmarshall`, and on success is its value. A failed check leaves the vector as it was. |
| Composite.SetArrayElements | include/jstl.h:2182-2227 | Storing elements from a container has the outcome of converting them all and storing from the offset. |
| Composite.MarshallArray | include/jstl.h:975-988 | The container `marshall` written as a loop has the outcome of `Marshall`. |
| Composite.StoreThenFetch | include/jstl.h:2119-2227 | With arrays that store what is set, storing elements that the reader undoes succeeds. It keeps the elements outside the range, and reading the range back yields the elements. |
| Composite.SetThenGet | include/jstl.h:2182-2227 | After `js_set_array_elements` from any offset with a faithful engine, the stored slice reads back under the element `unmarshall` as the native values stored, and the rest of the array is kept. |
| Composite.StoreThenFetchFixed | include/jstl.h:2119-2157 | With arrays that store what is set, elements stored from index 0 are fetched back by the fixed-size fetch of as many elements. |
| Composite.StoreThenFetchVector | include/jstl.h:2159-2180 | With arrays that store what is set, elements stored from index 0 over the whole array are fetched back by the vector fetch, which reads the array's length first. |
| Composite.SetThenGetFixed | include/jstl.h:2119-2227 | `js_set_array_elements` from index 0, then `js_get_array_elements` into a `T[N]` or `std::array` of the number stored, gives back the native values stored, whatever the array held before. |
| Composite.SetThenGetVector | include/jstl.h:2159-2227 | `js_set_array_elements` from index 0 over at least the whole array, then `js_get_array_elements` into a `std::vector`, gives back the native values stored. |
| Callbacks.Describe | include/jstl.h:1464-1473 | The descriptor has version 0, the result's tag and one tag per parameter, in order. |
| Callbacks.CreateFunction | include/jstl.h:1458-1488 | Creating a function succeeds exactly when the engine accepts the name and the descriptor, and then yields the engine's function. Otherwise it passes the status up. |
| Callbacks.Layout | include/jstl.h:1355-1368 | The trampoline's argument vector has one slot per argument, plus one for the receiver when the first parameter is `js_receiver_t`. |
| Callbacks.LayoutUndoesSplit | include/jstl.h:1524-1533 | Splitting an argument vector into receiver and arguments, as `js_call_function` does, and laying it out again as the trampoline does gives back the vector. |
| Callbacks.SplitUndoesLayout | include/jstl.h:1355-1368 | Laying out a call and splitting it again gives back the call; without a receiver parameter, the receiver becomes the global object. |
| Callbacks.GetCallbackInfo | include/jstl.h:1355-1368 | The engine writes the arguments from the start slot up to the capacity and the receiver into slot 0, and reports the argument count. Every other slot is unchanged. |
| Callbacks.GatherArguments | include/jstl.h:1352-1370 | Gathering succeeds exactly when the call has as many arguments as parameters, and then yields the layout. Otherwise the count assertion aborts. |
| Callbacks.Throwing | include/jstl.h:1201-1259 | A conversion's success completes the attempt, an abort aborts it, and a failure throws its negative status. |
| Callbacks.Catch | include/jstl.h:1370-1381 | Nothing escapes the `try`. A completed attempt returns its value. A thrown nonzero status returns the uninitialised result. A thrown 0 or an abort terminates. |
| Callbacks.HandleScopes.Open | include/jstl.h:1346-1349 | Opening a scope deepens the nesting by one and keeps the scope balance. |
| Callbacks.HandleScopes.Close | include/jstl.h:1381-1384 | Closing a scope undoes one level of nesting and keeps the scope balance. |
| Callbacks.UntypedTrampoline | include/jstl.h:1337-1390 | The untyped trampoline's result is that of gathering the arguments and catching the body. Unless it terminates, it closes every scope it opens, one when scoped. |
| Callbacks.VoidUntypedTrampoline | include/jstl.h:1392-1438 | The same for a `void` function, which then returns `undefined`. An error of `js_get_undefined` escapes the trampoline. |
| Callbacks.UnmarshallTyped | include/jstl.h:1237-1247 | A typed argument whose type is passed directly is received as is, with no engine call. |
| Callbacks.MarshallTyped | include/jstl.h:1201-1211 | A directly passed result is returned as is; any result is of the shape the typed signature expects. |
| Callbacks.TypedTrampoline | include/jstl.h:1260-1302 | The typed trampoline catches the attempt to convert, call and convert back. Unless it terminates, its scopes balance. What the attempt yields is stated by `Callbacks.TypedAgreesWithUntyped`. |
| Callbacks.TypedVoidTrampoline | include/jstl.h:1304-1335 | The same for a typed `void` function. |
| Callbacks.TypedAgreesWithUntyped | include/jstl.h:1260-1390 | With a faithful engine and sound arguments, given to the untyped trampoline as their marshalled values and to the typed one as its signature passes them: both unmarshall the same native arguments, both throw the code `fn` throws or abort when it aborts, and for a sound result the untyped path yields its `marshall` and the typed path the result itself for a direct type, its `marshall` otherwise. |
| Callbacks.TypedArgumentsAgree | include/jstl.h:1237-1247 | The typed arguments have their parameters' shapes, and the typed and untyped argument conversions both yield the native arguments they were made from. |
| Callbacks.VoidUntypedReturnsUndefined | include/jstl.h:1392-1438 | With a faithful engine, a `void` untyped trampoline returns `undefined` or terminates. |
| Callbacks.UntypedCallOutcomes | include/jstl.h:1370-1379 | When the arguments fit: an argument conversion that throws makes the trampoline return the uninitialised result. A body that completes returns its marshalled result. Aborts terminate. |
| Callbacks.ArgumentsRoundTrip | include/jstl.h:1516-1518 | With a faithful engine, sound arguments marshall successfully and the argument vector unmarshalls back to them. |
| Callbacks.CallDeliversArguments | include/jstl.h:1509-1572 | With a faithful engine, the arguments `js_call_function` passes reach the callee's untyped trampoline as the same native values, receiver included. |
| Callbacks.CallFunctionInvokes | include/jstl.h:1509-1538 | With a faithful engine and sound arguments, the void `js_call_function` calls the engine with the receiver and arguments split from the marshalled `argv` (`argv[0]` when a receiver is declared, else the global object), which the callee's trampoline unmarshalls back unchanged. It returns 0 exactly when that call succeeds, and otherwise the call's status. |
| Callbacks.CallFunctionForInvokes | include/jstl.h:1540-1573 | `js_call_function` for `R` makes the same engine call. A failed call's status is passed up; otherwise the result is the `unmarshall` to `R` of what the call returned. |
| Callbacks.CallFunctionReturns | include/jstl.h:1540-1573 | With a faithful engine, when the called function returns what `marshall` made of a sound value `y`, `js_call_function` for `R` yields `y`, checked or not; the void form returns 0. |
| Buffers.WrappedBytes | include/jstl.h:1659 | The byte count is a `size_t`. It equals the true product whenever that fits. |
| Buffers.CreateArrayBufferAsWritten | include/jstl.h:1656-1691 | The engine is asked for the wrapped byte count. Its failure is passed up with its status; on success the view is over the engine's buffer and claims `len` elements, whatever byte count was requested. |
| Buffers.CreateArrayBuffer | include/jstl.h:1656-1691 | A byte count that does not fit in `size_t` is refused with an error. Otherwise the request is the one as written. |
| Buffers.ArrayBufferCount | include/jstl.h:1865-1903 | The read-back fails exactly when the engine does, with the engine's status. It aborts on a byte length that is not a whole number of elements, and otherwise reports the count that the byte length holds. |
| Buffers.ArrayBufferObject | include/jstl.h:1879-1892 | Reading one object succeeds exactly when the buffer holds exactly its size, and aborts on any other length. An engine failure is passed up with its status. |
| Buffers.TypedArrayObject | include/jstl.h:1914-1926 | Reading one object from a `uint8array` succeeds exactly when it holds exactly its size, and aborts on any other length. An engine failure is passed up with its status. |
| Buffers.CreateThenCount | include/jstl.h:1656-1903 | A buffer created for `len` elements whose byte count fits is read back as `len` elements, as many as its view claims. |
| Buffers.CreateThenCheckObject | include/jstl.h:1662-1926 | A buffer and a `uint8array` created for one object pass the single-object checks. |
| Buffers.CreateTypedArrayAsWritten | include/jstl.h:1761-1795 | Creating a typed array as written never aborts or throws. A failed buffer request is passed up with its status. Otherwise the outcome is the engine's typed array over that buffer, or the engine's status when it refuses. |
| Buffers.CreateTypedArray | include/jstl.h:1761-1795 | Over the corrected buffer request, a byte count that does not fit in `size_t` is refused. Otherwise the creation is the one as written. |
| Buffers.CreateTypedArrayLength | include/jstl.h:1785-1795 | A typed array created for `len` elements whose byte count fits reports length `len`. |
| Buffers.TypedArrayAsWrittenSucceeds | include/jstl.h:1785-1795 | With a faithful engine, the as-written typed-array creation succeeds exactly when `len * sizeof(T)` fits in `size_t`. A wrapped request yields a buffer too small for the typed array, which the engine's range check refuses. A created typed array has length `len`. |
| Buffers.WrappedTypedArrayRefused | include/jstl.h:1785-1795 | For 2^61 eight-byte elements, as written, the engine is asked for a typed array of 2^61 elements over a 0-byte buffer and refuses it. The corrected request refuses the byte count. |
| Buffers.ElementSizeFits | include/jstl.h:197-318 | Every typed-array element size is positive and fits in `size_t`. |
| Buffers.WrappedRequestLosesLength | include/jstl.h:1656-1660 | As written, 2^61 eight-byte elements request 0 bytes. The view then claims 2^61 elements of a buffer read back as holding none. |
| Persistents.ReferenceTable.Create | include/jstl.h:2293-2306 | A new reference gets an identifier never used before and the given count. The rest of the table is unchanged. |
| Persistents.ReferenceTable.Delete | include/jstl.h:151-157 | Deleting a live reference removes it and records the deletion. Any other reference gets an invalid-argument status and the table is unchanged. |
| Persistents.ReferenceTable.Lookup | include/jstl.h:2311-2335 | A lookup succeeds exactly for a live reference and yields its target. |
| Persistents.ReferenceTable.Collect | include/jstl.h:2300-2306 | Collection clears the target of a weak (count 0) reference and leaves strong ones alone. |
| Persistents.Persistent.constructor | include/jstl.h:145 | A new holder has no engine and no reference. |
| Persistents.Persistent.Move | include/jstl.h:147 | The moved-to holder takes the engine and reference. The moved-from holder keeps its engine and loses its reference. |
| Persistents.Persistent.Destroy | include/jstl.h:151-157 | The destructor does nothing without a reference. Otherwise it deletes the reference exactly once and aborts only if it was no longer live. |
| Persistents.CreateReference | include/jstl.h:2293-2298 | The holder gets the engine and a fresh strong reference to the value; nothing is deleted. |
| Persistents.CreateWeakReference | include/jstl.h:2300-2306 | The holder gets the engine and a fresh weak reference to the value; nothing is deleted. |
| Persistents.Bind | include/jstl.h:2293-2306 | Creating a reference into a holder returns 0. The holder records the environment and a reference under an identifier not live before, which the table maps to the value with the given count. Nothing is deleted and the table stays valid. |
| Persistents.GetReferenceValue | include/jstl.h:2309-2323 | The engine's error is passed up. A cleared weak reference fails the non-null assertion. A live target yields its value. |
| Persistents.GetOptionalReferenceValue | include/jstl.h:2325-2335 | A live reference yields its target, present or cleared. Anything else yields the engine's invalid-argument status. |
| Persistents.ResetReference | include/jstl.h:2337-2352 | An empty holder is left alone with status 0. A live reference is deleted once and the holder emptied. A failed deletion keeps the holder and returns the status. |
| Persistents.CreateCollectGet | test/create-reference-get-value.cc:25-38 | A strong reference survives collection and yields the value it was created with. |
| Persistents.WeakCollectGet | include/jstl.h:2300-2335 | After collection a weak reference reads as cleared through the optional form, and the plain form aborts. |
| Persistents.MoveThenDestroy | include/jstl.h:147-157 | Moving a reference and destroying both holders deletes it once; neither destructor aborts. |
| Persistents.ResetTwiceThenDestroy | include/jstl.h:2337-2352 | Resetting twice and destroying deletes the reference once; both resets return 0. |
| Persistents.CreateTwice | include/jstl.h:2293-2298 | Creating a second reference into a holder overwrites its first one without deleting it; the first stays live in the table. |
| Diagnostics.Increment | include/jstl/diagnostics.h:36-43 | Incrementing a counter adds its key, adds one below `SIZE_MAX`, wraps to 0 at it, and leaves other keys unchanged. |
| Diagnostics.CountersCount | include/jstl/diagnostics.h:31-43 | Short of wrapping, each counter of a function grows by exactly the number of calls of `increase_untyped` or `increase_typed` for it. |
| Diagnostics.CountersNeverDecrease | include/jstl/diagnostics.h:31-49 | Short of wrapping, no event lowers a counter or drops a key. |
| Diagnostics.LastNameWins | include/jstl/diagnostics.h:45-49 | A function's name is the first `len` bytes of the last name given to it. |
| Diagnostics.NamesKept | include/jstl/diagnostics.h:45-49 | Events that do not name a function leave its name alone. |
| Diagnostics.Counters.constructor | include/jstl/diagnostics.h:31-33 | The three tables start empty. |
| Diagnostics.Counters.IncreaseUntyped | include/jstl/diagnostics.h:36-38 | The tables become those after one `increase_untyped` call for the function; only the untyped table changes. |
| Diagnostics.Counters.IncreaseTyped | include/jstl/diagnostics.h:41-43 | The tables become those after one `increase_typed` call for the function; only the typed table changes. |
| Diagnostics.Counters.Name | include/jstl/diagnostics.h:46-49 | The function's name becomes the first `len` bytes given; the counters are unchanged. |

## Left out

- The engine (`js.h`) is a parameter. Its calls are modelled by their documented results: `js_get_callback_info`, the reference table, array length and elements, buffer creation and lengths. It is not part of this model.
- Floating-point numbers are opaque values (`Values.Num`). No rounding is modelled. A 64-bit integer counts as sound only when its magnitude is at most 2^53, the bound below which a double holds every integer exactly; larger integers that a double happens to hold exactly (2^60, say) are not covered.
- Boxed values have value semantics. The engine heap, handle identity and aliasing between boxed values are not modelled. An escaped handle is the same value.
- The bytes inside array buffers and typed arrays, and `memcpy`-style raw copies of them, are not modelled; only lengths are.
- The string getters call the engine twice, once for the length and once for the bytes. They are modelled as one call that yields the bytes.
- Marshalling a null handle wrapper is not modelled; handles are assumed non-null when marshalled.
- A container `marshall` assigns its result array before an element fails. The model reports only the failure.
- C++ leaves the evaluation order of function arguments unspecified. The model converts arguments left to right.
- Template metaprogramming is folded into the `NativeType` datatype: `static_assert`s, `index_sequence` and overload resolution. A type without a conversion is excluded by a precondition.
- The result returned after a thrown conversion is an uninitialised pointer. It is modelled as a parameter (`garbage`).
- The typed-callback test hooks, the property helpers and the thin pass-through overloads of `js.h` functions are not modelled. These overloads only unwrap a handle and forward.
- The printing and export of the diagnostics tables are I/O and are not modelled: `print_counters`, `on_print`, the exports function.
- `js_create_reference` is modelled as always succeeding, since the engine's table always has room.
- The handle wrapper class hierarchy (`js_handle_t` and its subclasses) is a single `Handle` value.
- Conversion.Unmarshall: no ensures of its own; its properties are the lemmas of `ConversionLaws`.
- Conversion.StoreAt: no ensures of its own; its properties are `Composite.StoreThenFetch` and `Composite.SetThenGet`.
- Conversion.Marshall: no ensures of its own (include/jstl.h:329-1119); its properties are `ConversionLaws.MarshallConforms`, `ConversionLaws.MarshallContainer`, `ConversionLaws.RoundTrip` and `Composite.MarshallArray`.
- Conversion.MarshallScalar: no ensures of its own (the scalar and string `marshall`s of include/jstl.h:343-964); its properties are `ConversionLaws.MarshallConforms` and `ConversionLaws.RoundTripLeaf`.
- Conversion.Read: no ensures of its own (the reads after the check, include/jstl.h:343-1119); its properties are `ConversionLaws.UnmarshallRepresents`, `ConversionLaws.CharArrayReadsExactly` and `ConversionLaws.RoundTrip`.
- Registry.Signature: no ensures of its own (the `signature` constants of include/jstl.h:329-1071); its properties are `Registry.SignatureClasses` and `Registry.GuardImpliesSignature`.
- Registry.GuardOf: no ensures of its own (the checks of the checked `unmarshall`s, include/jstl.h:329-1071); its properties are `Registry.GuardImpliesSignature`, `Registry.OnlyReceiverUnchecked` and `ConversionLaws.CheckedRejectsMismatch`.
- Registry.ArrayKind, Registry.ArrayLabel, Registry.ElementSize: no ensures of their own (`js_typedarray_info_t`, include/jstl.h:197-318); their properties are `Registry.TypedArrayInfoInjective` and `Buffers.ElementSizeFits`.
- Callbacks.HasReceiver: no ensures of its own (include/jstl.h:1182-1185); its properties are `Callbacks.Layout`, `Callbacks.LayoutUndoesSplit` and `Callbacks.SplitUndoesLayout`.
- Callbacks.Split: no ensures of its own (include/jstl.h:1521-1533); its properties are `Callbacks.LayoutUndoesSplit`, `Callbacks.SplitUndoesLayout` and `Callbacks.CallFunctionInvokes`.
- Callbacks.Dispatch, Callbacks.VoidDispatch, Callbacks.UntypedCall, Callbacks.VoidUntypedCall: no ensures of their own (include/jstl.h:1337-1438); their properties are `Callbacks.UntypedTrampoline`, `Callbacks.VoidUntypedTrampoline`, `Callbacks.UntypedCallOutcomes` and `Callbacks.VoidUntypedReturnsUndefined`.
- Callbacks.CallFunction, Callbacks.CallFunctionFor: no ensures of their own (include/jstl.h:1509-1573); their properties are `Callbacks.CallFunctionInvokes`, `Callbacks.CallFunctionForInvokes` and `Callbacks.CallFunctionReturns`.
- Buffers.CreateArrayBufferObject, Buffers.CreateTypedArrayObject: no ensures of their own (include/jstl.h:1662-1666 and 1797-1807); their property is `Buffers.CreateThenCheckObject`.
- ConversionLaws.Int32VectorRoundTrip: generalises the literal vector `{1, 2, 3}` of the test to any vector of `int32_t`.
- Diagnostics.CountersCount: holds only while no counter reaches `SIZE_MAX`; the wrap itself is stated by `Diagnostics.Increment`.
- Callbacks.MarshallArguments: converts the arguments of `js_call_function` one by one, for any number of arguments. As written, `js_marshall_untyped_value<checked, A>(env, args...)...` (include/jstl.h:1517-1519 and 1547-1549) passes every argument to each conversion. So it compiles only for exactly one argument, and with none it declares a zero-length array. `Callbacks.ArgumentsRoundTrip` and `Callbacks.CallDeliversArguments` are stated for the evidently intended element-wise expansion at every arity.
- Composite.SetArrayElements: the `std::vector` form of `js_set_array_elements` (include/jstl.h:2212-2227) counts with a `uint32_t` against the `size_t` size. For 2^32 or more elements the counter wraps and the loop never ends. The model, and `Composite.ConvertToBuffer` which it uses, converts every element of a sequence of any length and does not capture that non-termination.
- Diagnostics.CountersNeverDecrease: holds only while no counter reaches `SIZE_MAX`.
- Composite.MarshallArray: the container `marshall`s (include/jstl.h:975-988 for `T[N]` and `std::array`, 1072-1090 for `std::vector`) count with a `uint32_t` against `N` or the `size_t` size. For 2^32 or more elements the counter wraps and the loop never ends, unless `js_create_array_with_length`, whose success is only asserted, has already refused the length. The model, and `Conversion.Marshall` with it, converts every element of a container of any length and does not capture that non-termination.
- Every `assert` is modelled as enabled (a build without `NDEBUG`), where a failed one terminates the process (`Abort`). In a build with `NDEBUG`, which include/jstl.h:16-20 also ties to the default `checked = false`, the assertions are compiled out and the library goes on instead. `js_get_arraybuffer_info` for `T` (1872) then truncates the count with `len /= sizeof(T)`. The single-object forms (1888, 1923) return 0 for any length. `char[N]` (890) returns 0 with fewer than `N` bytes written. The fixed-size `unmarshall` and `js_get_array_elements` (1006, 1056, 2129, 2149) convert the unset `values[i]` past a short array. The untyped trampolines (1367, 1422) go on into the conversions with a wrong argument count. A caught status of 0 (1291, 1326, 1379, 1427) returns the uninitialised result. `js_get_reference_value` (2318) returns 0 with a null handle. A failed engine call checked by `assert(err == 0)`, the destructor's deletion (156) among them, is ignored. `Buffers.ArrayBufferCount`, `Buffers.ArrayBufferObject`, `Buffers.TypedArrayObject`, `ConversionLaws.CharArrayReadsExactly`, `Conversion.FetchFixed`, `Callbacks.GatherArguments`, `Callbacks.Catch`, `Persistents.GetReferenceValue` and `Persistents.Persistent.Destroy` state the build with assertions.

## Findings

| source | as written | input that shows it | evidently intended | confidence | as-written member | corrected member |
|---|---|---|---|---|---|---|
| include/jstl.h:1656-1660 | `len * sizeof(T)` is computed in `size_t` and wraps. The view still claims `len` elements. The typed-array forms (1767, 1779, 1791) inherit the wrapped request, but the engine's range check then refuses the typed array (`Buffers.TypedArrayAsWrittenSucceeds`, `Buffers.WrappedTypedArrayRefused`). | `len = 2^61` with an 8-byte `T`: 0 bytes are requested, the view claims 2^61 elements, and the buffer reads back as holding 0. | Refuse a byte count that overflows `size_t`. | medium, not executed | Buffers.CreateArrayBufferAsWritten, Buffers.WrappedRequestLosesLength | Buffers.CreateArrayBuffer, Buffers.CreateThenCount |
