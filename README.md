# jlrs call bridge and value access, modelled in Dafny

This project models the part of jlrs, the Rust bindings to the Julia runtime,
that crosses into Julia. It covers these entry points:

- calling a Julia value with zero to three arguments or with a slice of arguments, rooted or unrooted;
- evaluating a command string;
- calling a function together with a NamedTuple of keyword arguments;
- the borrow-checked `call_tracked`;
- building NamedTuples, with the `count!` and `named_tuple!` macros;
- reading and writing the fields of a value by index or by name;
- `cast` and `unbox`.

The Julia runtime is an object, `Foreign.Julia`. It holds three oracles, for
`jl_call`, `jl_eval_string` and the keyword sorter of a type. It also holds a
pending-exception slot and a trace of every runtime entry point that was
invoked. Because of the trace, the proofs can say both the order of events
and whether the runtime was entered at all. Every call invokes the runtime,
then reads the exception slot, and only then hands the outcome to a
`Memory.Target`. The exception slot is left holding what the call raised,
or null. A target either roots the result or returns it unrooted. The
scope-based calls of `value.rs` root into a frame of fixed capacity and can
fail when it is full. The target-based calls of `call.rs` hand back the
outcome itself and cannot fail.

A heap value is a `Heap.Value` object. Its type, a `Heap.DataType`, carries
the field names, the field types, the pointer flags and mutability. The value
holds its fields in an array that `set_nth_field` and `set_field` update in
place.

Files:

- `wrappers.dfy`: the `Result` type.
- `errors.dfy`: the jlrs error kinds.
- `heap.dfy`: values and types.
- `memory.dfy`: targets and rooting.
- `foreign.dfy`: the runtime.
- `values.dfy`: field access, `cast` and `unbox`.
- `named_tuple.dfy`: NamedTuple construction and the macros.
- `value_call.dfy`: calls and evaluation.
- `keywords.dfy`: `WithKeywords`.
- `tracked.dfy`: `call_tracked`.

## Model

| member | source | states |
|---|---|---|
| Heap.FieldIndex | jlrs/src/wrappers/ptr/value.rs:557-576 | the position of the first field with the given name, or -1 exactly when no field has that name |
| Memory.Payload | jlrs/src/wrappers/ptr/value.rs:1054-1069 | the handle a call outcome roots is the returned value or the exception |
| Memory.Target.Root | jlrs/src/wrappers/ptr/value.rs:608-629 | rooting a handle succeeds exactly when the frame has room, and on success appends exactly that handle to the roots. Otherwise it fails with the capacity and changes nothing. An unrooted target never records anything |
| Memory.Target.Place | jlrs/src/wrappers/ptr/value.rs:1064-1068 | handing a call outcome to a scope roots its payload under the same room rule and returns the outcome unchanged |
| Memory.Target.Deliver | jlrs/src/call.rs:227-235 | handing a call outcome to a target gives the outcome back unchanged. A rooting target roots its payload, and nothing can fail |
| Foreign.Julia.Call | jlrs/src/wrappers/ptr/value.rs:1150-1155 | `jl_call` sees exactly the first `n` handles of the buffer, sets the exception slot from the reply, and adds one `Invoked` event |
| Foreign.Julia.EvalString | jlrs/src/wrappers/ptr/value.rs:886 | `jl_eval_string` sets the exception slot from the reply and adds one `Evaluated` event |
| Foreign.Julia.ExceptionOccurred | jlrs/src/wrappers/ptr/value.rs:1156 | reading the exception slot returns it without changing it and logs the query |
| ValueCalls.Outcome | jlrs/src/wrappers/ptr/value.rs:1158-1162 | a call is `Err` with the exception exactly when the exception slot is set, and otherwise `Ok` with the returned value |
| ValueCalls.CallAndCatch | jlrs/src/wrappers/ptr/value.rs:1148-1162 | the runtime is invoked once with `f` and the first `n` arguments, then the exception is read immediately. The slot is left holding what the call raised, and the result is that call's outcome |
| ValueCalls.Call0 | jlrs/src/wrappers/ptr/value.rs:1054-1069 | one call with no arguments, then the exception query, with the slot left holding what the call raised. The outcome of that call is handed to the scope's frame, which fails only when it is full |
| ValueCalls.Call1 | jlrs/src/wrappers/ptr/value.rs:1071-1086 | as `Call0` with exactly `[arg0]` |
| ValueCalls.Call2 | jlrs/src/wrappers/ptr/value.rs:1088-1112 | as `Call0` with exactly `[arg0, arg1]`, in order |
| ValueCalls.Call3 | jlrs/src/wrappers/ptr/value.rs:1114-1140 | as `Call0` with exactly `[arg0, arg1, arg2]`, in order |
| ValueCalls.Call | jlrs/src/wrappers/ptr/value.rs:1142-1164 | as `Call0` with the whole argument slice and its length |
| ValueCalls.Call0Unrooted | jlrs/src/wrappers/ptr/value.rs:1166-1177 | one call with no arguments, then the exception query, with the slot left holding what the call raised. The result is that call's outcome, unrooted |
| ValueCalls.Call1Unrooted | jlrs/src/wrappers/ptr/value.rs:1179-1194 | as `Call0Unrooted` with exactly `[arg0]` |
| ValueCalls.Call2Unrooted | jlrs/src/wrappers/ptr/value.rs:1196-1216 | as `Call0Unrooted` with exactly `[arg0, arg1]`, in order |
| ValueCalls.Call3Unrooted | jlrs/src/wrappers/ptr/value.rs:1218-1240 | as `Call0Unrooted` with exactly `[arg0, arg1, arg2]`, in order |
| ValueCalls.CallUnrooted | jlrs/src/wrappers/ptr/value.rs:1242-1266 | as `Call0Unrooted` with the whole slice and its length |
| ValueCalls.EvalString | jlrs/src/wrappers/ptr/value.rs:876-895 | a command holding a NUL character fails before the runtime is entered, with the runtime and the target unchanged. Any other command is evaluated once, then its exception is read, with the slot left holding what was raised. Its outcome is handed to the frame |
| ValueCalls.EvalCString | jlrs/src/wrappers/ptr/value.rs:899-917 | evaluate once and read the exception, with the slot left holding what was raised. The outcome is handed to the frame |
| NamedTuples.TypesOf | jlrs/src/wrappers/ptr/value.rs:268-272 | the field types of a NamedTuple are the types of its values, position by position |
| NamedTuples.NewNamedTuple | jlrs/src/wrappers/ptr/value.rs:230-286 | fails with `NamedTupleSizeMismatch` carrying both lengths exactly when the numbers of names and values differ. Otherwise it keeps names and values in order |
| NamedTuples.CountFromAdds | jlrs/src/wrappers/ptr/value.rs:27-40 | the accumulating arm of `count!` adds one per remaining pair |
| NamedTuples.CountIsTotal | jlrs/src/wrappers/ptr/value.rs:27-40 | `count!` counts every name/value pair passed to `named_tuple!` |
| NamedTuples.NamedTupleMacro | jlrs/src/wrappers/ptr/value.rs:67-96 | `named_tuple!` reserves room for exactly the number of pairs and pushes names and values in order. The tuple it builds never fails the size check |
| Values.DerefField | jlrs/src/wrappers/ptr/value.rs:818-865 | the field is read exactly when its declared type has a valid layout for the output; otherwise `InvalidLayout` |
| Values.UnboxNthField | jlrs/src/wrappers/ptr/value.rs:524-535 | out of bounds exactly when the index is not below the field count. Otherwise `InvalidLayout` exactly when the field type has no valid layout for the output, and success yields that field |
| Values.UnboxField | jlrs/src/wrappers/ptr/value.rs:557-576 | `NoSuchField` exactly when no field has the name. For a known name, `InvalidLayout` exactly when the named field's type has no valid layout. Success yields a field with that name |
| Values.NthFieldToRoot | jlrs/src/wrappers/ptr/value.rs:608-629 | out of bounds, undefined reference, or the field, each exactly in its own case |
| Values.GetNthFieldRef | jlrs/src/wrappers/ptr/value.rs:635-650 | out of bounds, not a pointer field, or the field, each exactly in its own case |
| Values.GetNthFieldUnrooted | jlrs/src/wrappers/ptr/value.rs:656-662 | fails only when out of bounds, and otherwise yields the field, possibly undefined |
| Values.FieldToRoot | jlrs/src/wrappers/ptr/value.rs:666-696 | `NoSuchField` exactly when the name is unknown, `UndefRef` exactly when the named field is undefined; success yields that field |
| Values.GetFieldRef | jlrs/src/wrappers/ptr/value.rs:702-728 | `NoSuchField` exactly when the name is unknown, `NotAPointerField` exactly when the named field is inline; success yields a pointer field with that name |
| Values.GetFieldUnrooted | jlrs/src/wrappers/ptr/value.rs:734-753 | fails only when the name is unknown; success yields a field with that name |
| Values.NamedAccessAtFieldIndex | jlrs/src/wrappers/ptr/value.rs:557-576 | each by-name accessor equals its by-index counterpart at the first field carrying the name |
| Values.GetNthField | jlrs/src/wrappers/ptr/value.rs:608-629 | a failed lookup returns its error and roots nothing; a found field is rooted in the target |
| Values.GetField | jlrs/src/wrappers/ptr/value.rs:666-696 | as `GetNthField`, for the field found by name |
| Values.SetNthFieldCheck | jlrs/src/wrappers/ptr/value.rs:757-779 | immutability is checked first, then bounds, then whether the new value's type is a subtype of the field type |
| Values.SetFieldCheck | jlrs/src/wrappers/ptr/value.rs:783-816 | immutability first, then the name, then the subtype check |
| Values.SetFieldAtFieldIndex | jlrs/src/wrappers/ptr/value.rs:783-816 | setting by name decides exactly as setting by index at the named field's position |
| Values.SetNthField | jlrs/src/wrappers/ptr/value.rs:757-779 | on success only field `idx` changes, to the new value; on failure the fields are unchanged |
| Values.SetField | jlrs/src/wrappers/ptr/value.rs:783-816 | on success only the named field changes; on failure nothing changes |
| Values.Cast | jlrs/src/wrappers/ptr/value.rs:442-448 | succeeds with the same handle exactly when the typecheck holds, else `WrongType` |
| Values.Unbox | jlrs/src/wrappers/ptr/value.rs:461-467 | yields the payload exactly when the typecheck holds, else `WrongType` |
| Keywords.New | jlrs/src/call.rs:33-45 | `function()` and `keywords()` give back what `new` was passed |
| Keywords.ProvideKeywords | jlrs/src/wrappers/ptr/value.rs:1536-1544 | a value's `with_keywords` succeeds exactly when the keywords are a NamedTuple, and then pairs them with the function. Otherwise it fails with `NotANamedTuple` |
| Keywords.ArgumentBuffer | jlrs/src/call.rs:325-328 | the buffer is the keywords, then the function, then the arguments in order |
| Keywords.Call0 | jlrs/src/call.rs:216-236 | the keyword sorter of the function's type is called once with `[keywords, function]`, then the exception is read, with the slot left holding what was raised. The outcome is handed back, and a rooting target roots it |
| Keywords.Call1 | jlrs/src/call.rs:238-258 | as `Call0` with `[keywords, function, arg0]` |
| Keywords.Call2 | jlrs/src/call.rs:260-285 | as `Call0` with `[keywords, function, arg0, arg1]` |
| Keywords.Call3 | jlrs/src/call.rs:287-313 | as `Call0` with `[keywords, function, arg0, arg1, arg2]` |
| Keywords.Call | jlrs/src/call.rs:315-341 | as `Call0` with the keywords, the function and then every argument |
| Tracked.Buffer | jlrs/src/call.rs:159-161 | the runtime receives the arguments as given for a plain value, and keywords and function first for a function with keywords |
| Tracked.CallCallable | jlrs/src/call.rs:159-161 | an untracked call of either callable kind. The runtime is entered once, then the exception is read, with the slot left holding what was raised. The outcome is handed back through the target |
| Tracked.Ledger.TrackMut | jlrs/src/call.rs:158 | tracking fails exactly when the array is already borrowed; every attempt is logged, and the borrow set is unchanged because the guard is dropped at once |
| Tracked.ArrayArgs | jlrs/src/call.rs:152-157 | the arguments kept for tracking are exactly those that are arrays |
| Tracked.ArrayArgsConcat | jlrs/src/call.rs:152-157 | filtering a concatenation filters each part |
| Tracked.AttemptedStopsAtFirstFailure | jlrs/src/call.rs:158-159 | the arrays tried form a prefix of all the arrays. All but the last one tried are trackable. The last one failed exactly when some array is borrowed. With none borrowed, every array is tried |
| Tracked.AttemptedAtConflict | jlrs/src/call.rs:158-159 | nothing after the first borrowed array is tried |
| Tracked.ConflictAtArgument | jlrs/src/call.rs:152-163 | a borrowed array after trackable ones ends the search there and means a conflict |
| Tracked.NoConflictTriesAll | jlrs/src/call.rs:152-163 | with no borrowed array, every array is tried and there is no conflict |
| Tracked.SearchFinished | jlrs/src/call.rs:152-159 | a search that looked at every argument without meeting a borrowed array tried every array and found no conflict |
| Tracked.FindBorrowed | jlrs/src/call.rs:152-159 | tracks the array arguments in order and stops at the first borrowed one. It reports a borrowed array exactly when there is a conflict, logs exactly the arrays tried, and leaves the borrow set unchanged |
| Tracked.CallTracked | jlrs/src/call.rs:142-166 | fails with `BorrowError` exactly when some array argument is borrowed. In that case the runtime and the target are untouched. The arrays tried are those up to and including the first borrowed one. Otherwise it is an ordinary call, with the slot and the outcome as in `CallCallable` |

## Left out

- The layout of inline fields: every field is a boxed handle, possibly
  undefined, and inline structs are not decoded.
- Values.DerefField: the model decides layout validity on the declared field
  type alone. The code refines that type in two cases. For a bits-union
  field it uses the active variant, read from the union's selector byte
  (value.rs:828-842). For a UnionAll field it uses the type of the value
  stored in the field (value.rs:843-851). The UnionAll branch reads the
  stored pointer without checking for null, so on an undefined field it
  asks a null pointer for its type. The model does not capture that
  dependence on the field's contents, nor that null read.
- `Values.Unbox`: the host representation of the unboxed value, including
  floats and the conversion through `convert/unbox.rs`, is abstracted to an
  integer payload.
- Subtyping (`jl_subtype`), keyword sorters and the runtime's replies are
  oracles. Julia semantics are not modelled.
- Garbage collection, GC write barriers on `set_nth_field`, finalizers and
  object identity (`egal`) are left out. They are runtime internals.
- Scope and frame internals are abstracted as a target with a fixed number of
  root slots. The frame and memory modules are not part of this model.
- The internals of `track_mut` are reduced to membership in a set of borrowed
  arrays. `array.rs` is not part of this model.
- `NamedTuples.NewNamedTuple`: failures of `apply_type` and `instantiate`
  after the size check are not modelled, because they are runtime calls.
- The `CallAsync` implementations, `tracing_call` and `attach_stacktrace` are
  not modelled. They live outside the calling core and need an async
  executor and Julia-side stack traces.
- Callables other than values and functions with keywords are not modelled.
  `Function` and opaque closures share the value path.
- The keyword call path for newer Julia versions (`jl_kwcall_func`) is not
  modelled. The path that uses the keyword sorter of the function's type is.
- Rust lifetimes (`'scope`, `'data`) and the `unsafe_*` variants are not
  modelled separately. The variants have the same bodies with looser
  lifetimes and are covered by the same members.
- Constants and `LeakedValue` wrap global pointers and are not modelled.
- The other inspection helpers of `Value` are single runtime queries and are
  treated as oracles or left out. `is` is modelled as a typecheck on the
  value's type. `subtype` (`jl_subtype`) is the subtyping oracle of the
  setters. `isa` (`jl_isa`), `is_kind` (`jl_is_kind`) and `datatype_name`
  (`jl_typeof_str`, which can fail with `NotUnicode`) are not modelled.
- ValueCalls.EvalString: a command holding a NUL character is reported as
  `InteriorNul`. The code wraps the `NulError` of `CString::new` in
  `JlrsError::other` (value.rs:884), and the model does not carry that
  wrapped error.
- The fixed-arity entry points `jl_call0` to `jl_call3` used by `call0` to
  `call3` and their unrooted variants are modelled as the one entry point
  `Foreign.Julia.Call`, with an argument buffer of that length.
- NamedTuples.NamedTupleMacro: the tuple it builds can still fail at runtime
  after the size check, in `apply_type` or `instantiate`. The model promises
  only that the size check passes.
- The `Call` implementation of `Value` for the target interface of `call.rs`
  lives in a file this model does not cover. `Tracked.CallCallable` calls a
  plain value with the arguments as given, through the same entry point and
  exception protocol as the keyword calls.
- Inline storage of the small argument buffers (`MAX_SIZE`, 8 handles) versus
  heap storage is not modelled. It affects where the buffer lives, not what
  the runtime receives.
