# piccolo native-call layer and coroutine library, modelled in Dafny

This project models two pieces of the piccolo Lua runtime:

- **The native-call layer** (`src/callback.rs`). A native call reports one of four outcomes
  (`CallbackReturn`: `Return`, `Yield`, `TailCall`, `Sequence`). `AnyCallback` is a garbage-collected,
  type-erased handle to a native function whose identity is its allocation. `AnyContinuation` holds
  separate success and failure resumption paths. `AnySequence` is a boxed multi-step operation that the
  VM polls until it reports a terminal outcome.
- **The coroutine library** (`src/stdlib/coroutine.rs`). `create`, `resume`, `status` and `yield` act on
  the operand stack and on a coroutine (thread). `resume` returns a thread poller
  (`ThreadSequence`). Each poll advances a thread in Normal mode exactly once, or rewrites the stack to
  `(true, results...)` / `(false, error)` once the thread has returned.

Files:

- `wrappers.dfy`: `Option` and `Result`.
- `runtime.dfy` (module `Runtime`): the collaborators the core uses but does not define. These are
  script values with their type names, the error type, the operand stack (a class whose `values` the
  library methods reassign) and a stand-in coroutine. The stand-in keeps the real thread's mode
  contract: `resume` fails unless Suspended; `step` fails unless Normal; `take_return` yields a
  result exactly in Return mode. Which mode the bytecode engine reaches after a step is chosen
  nondeterministically.
- `callback.dfy` (module `Callback`): `callback.rs`, plus `ThreadSequence::step` from
  `coroutine.rs`. The poller sits here because the boxed-sequence dispatch must reach it, and Dafny
  modules cannot import each other in a cycle.
- `coroutine.dfy` (module `Coroutine`): the four library functions and scenarios that chain them.

Type erasure is modelled without trait objects. A handle stores the erased behaviour in a constant
field: the implementation's interface method, applied to the implementation's own state. The
generic constructors `New<C>` take the implementation value together with the functions that
implement the interface for it. `from_fn_with` / `from_fns_with` build a context record
(`ContextCallback`, `ContextContinuation`) and pass it with its interface functions, as the source
does. Reference equality of Dafny objects stands for `Gc::as_ptr` equality.

`coroutine.rs` is written against an older API than `callback.rs` (`CallbackMode::Sequence`,
`MutationContext`, a `Vec<Value>` stack). The model uses one signature: the stack is a sequence of
values and every outcome is a `CallbackReturn`.

What a failed `resume` leaves on the stack is not documented. The code drains `stack[1..]`
(src/stdlib/coroutine.rs:53) before it calls `thread.resume`, and a drained range is removed even
if nothing consumes it, so the model leaves `[thread]` on the stack on the "cannot resume thread"
path too.

## Model

| member | source | states |
|---|---|---|
| `Callback.AnyCallback.New` | src/callback.rs:75-113 | a fresh handle is allocated, and calling it on any stack gives exactly what the implementation's `call` gives on its own state |
| `Callback.AnyCallback.FromFnWith` | src/callback.rs:122-152 | a fresh handle whose call on any stack is the behaviour applied to the stored context first, then the stack |
| `Callback.AnyCallback.FromFn` | src/callback.rs:115-120 | a fresh handle whose call on any stack is the plain behaviour on that stack; the unit context is ignored |
| `Callback.ContextCallbackCall` | src/callback.rs:136-149 | a context callback's call runs its behaviour with the stored context as first argument and the stack as second |
| `Callback.AnyCallback.Call` | src/callback.rs:158-164 | the result and the stack afterwards are exactly those the wrapped implementation produces from the stack before |
| `Callback.AnyCallback.AsPtr` | src/callback.rs:154-156 | the pointer a handle reports is its own allocation, so it identifies the handle |
| `Callback.AnyCallback.Eq` | src/callback.rs:173-179 | two handles are equal if and only if they are the same allocation (`as_ptr` equality) |
| `Callback.EqIsEquivalence` | src/callback.rs:173-179 | handle equality is reflexive, symmetric and transitive |
| `Callback.AnyCallback.Hash` | src/callback.rs:181-185 | the hasher is fed the handle's address and nothing else |
| `Callback.EqualHandlesHashEqually` | src/callback.rs:181-185 | equal handles hash equally under every hasher |
| `Callback.HashDeterminesIdentity` | src/callback.rs:181-185 | the hash reads the address (`as_ptr`, src/callback.rs:154-156) and nothing else: two handles that every hasher hashes equally are equal |
| `Callback.SeparateHandlesDiffer` | src/callback.rs:99-112 | for every implementation and its call function, two handles allocated from that same state have identical behaviour and are still unequal |
| `Callback.CallCB` | src/callback.rs:366-375 | the test callback `CB(n)` returns `Return` with `n` put in front of the stack and the rest of the stack unchanged behind it |
| `Callback.DynCallbackExample` | src/callback.rs:359-383 | the source's test: a handle around `CB(17)`, called on an empty stack, succeeds with `Return` and leaves 17 at the front |
| `Callback.AnyContinuation.New` | src/callback.rs:206-209 | a fresh continuation whose success path and failure path each run the implementation's corresponding method on its own state |
| `Callback.AnyContinuation.FromFnsWith` | src/callback.rs:234-301 | both paths call the supplied behaviours with the stored context first; the failure path also receives the error |
| `Callback.AnyContinuation.FromFns` | src/callback.rs:211-232 | both paths call the supplied behaviours without a context (the unit context is ignored) |
| `Callback.AnyContinuation.FromOkFn` | src/callback.rs:303-313 | the success path runs the behaviour; the failure path returns `Err` with the very same error and leaves the stack untouched |
| `Callback.AnyContinuation.FromOkFnWith` | src/callback.rs:315-331 | the success path runs the behaviour with the context; the failure path re-raises the error unchanged with the stack untouched |
| `Callback.ContextContinueOk` | src/callback.rs:275-281 | a context continuation's success path runs its success behaviour with the stored context first, then the stack |
| `Callback.ContextContinueErr` | src/callback.rs:283-290 | a context continuation's failure path runs its failure behaviour with the stored context first, then the stack and the error |
| `Callback.AnyContinuation.ContinueOk` | src/callback.rs:333-339 | delegates to the underlying success path: its result and stack effects are passed through unchanged |
| `Callback.AnyContinuation.ContinueErr` | src/callback.rs:341-348 | delegates to the underlying failure path with the given error: its result and stack effects are passed through unchanged |
| `Callback.Reraise` | src/callback.rs:311 | the failure behaviour of success-only continuations yields `Err` with the same error and the same stack |
| `Callback.AnySequence.New` | src/callback.rs:31-43 | boxing keeps the implementation as it is |
| `Callback.AnySequence.Step` | src/callback.rs:45-51 | forwards to the boxed implementation and returns its `Option` result unchanged (`None`: poll again, `Some`: terminal). The implementation's new state is kept for the next step, and a stateful sequence leaves threads alone |
| `Callback.ResumeStack` | src/stdlib/coroutine.rs:74-85 | the stack handed back after a return starts with `true` and continues with the results, or is exactly `false` and the error as a value |
| `Callback.ResumeStackDistinguishes` | src/stdlib/coroutine.rs:77-83 | a caller can tell success from failure, and on success recovers exactly the results |
| `Callback.PollOutcome` | src/stdlib/coroutine.rs:73-96 | a poll reports "not done" if and only if the mode is Normal, and then leaves the stack alone. It finishes with `Return` if and only if the mode is Return, and then rewrites the stack. It fails with `BadThreadMode{expected: Normal, found: mode}` if and only if the mode is Running, Suspended or Stopped |
| `Callback.ThreadSequenceStep` | src/stdlib/coroutine.rs:62-97 | the result and stack are `PollOutcome` of the thread's mode and pending result. In Normal mode the thread is advanced exactly once. In Return mode its result is taken, leaving it Suspended or Stopped and still bound to its function. In any other mode it is untouched. The `step` and `take_return` unwraps never fail |
| `Coroutine.FirstArg` | src/stdlib/coroutine.rs:16 | the first argument is the bottom stack value, or nil when the stack is empty (the same lookup is repeated at lines 42 and 111) |
| `Coroutine.ExpectFunction` | src/stdlib/coroutine.rs:16-25 | succeeds with the function if and only if the first argument is a function. Otherwise it gives `TypeError{expected: "function", found}`, where `found` is the argument's type name, or `"nil"` on an empty stack |
| `Coroutine.ExpectThread` | src/stdlib/coroutine.rs:42-51 | succeeds with the thread if and only if the first argument is a thread. Otherwise it gives `TypeError{expected: "thread", found}`, where `found` is the argument's type name, or `"nil"` on an empty stack |
| `Coroutine.StatusName` | src/stdlib/coroutine.rs:126-131 | `"dead"` exactly for Stopped and Return; `"running"`, `"normal"` and `"suspended"` exactly for Running, Normal and Suspended |
| `Coroutine.Create` | src/stdlib/coroutine.rs:15-32 | if the first argument is not a function: the type error, with the stack untouched. Otherwise: `Return`, with the stack exactly one fresh thread that is Suspended, bound to that function, and has no arguments, no pending result and no steps taken |
| `Coroutine.Resume` | src/stdlib/coroutine.rs:41-101 | if the first argument is not a thread: the type error, with the stack untouched. Otherwise the stack becomes `[thread]`. A thread that is not Suspended gives "cannot resume thread" and is untouched. A Suspended one becomes Normal with `stack[1..]` as its arguments, and the result is a `Sequence` holding a fresh thread poller |
| `Coroutine.Status` | src/stdlib/coroutine.rs:110-136 | if the first argument is not a thread: the type error, with the stack untouched. Otherwise: `Return`, with the stack exactly the mode's status name |
| `Coroutine.Yield` | src/stdlib/coroutine.rs:141-147 | always `Yield` with no continuation |
| `Coroutine.CreateThenStatus` | src/stdlib/coroutine.rs:27-31 | creating a coroutine from a function and asking its status gives `"suspended"` |
| `Coroutine.ResumeThenPoll` | src/stdlib/coroutine.rs:53-100 | resuming a new coroutine gives a `Sequence`, and resuming it again at once fails with "cannot resume thread". The first poll reports "not done" and leaves only the thread on the stack |
| `Coroutine.ReturnedThreadScenarios` | src/stdlib/coroutine.rs:74-85 | a thread that returned 1 and 2 gives the caller `(true, 1, 2)`; one that raised an error gives `(false, error)` rather than raising it |

## Left out

- Garbage collection: the `Collect` derivations and impls, `needs_trace`/`trace`, `require_static` and `Gc::new`. Allocation is Dafny's `new`, and the `Mutation` context parameter is dropped.
- The single-pointer vtable: the `Header` function pointer, the raw-pointer cast and `Gc::cast`. The erased behaviour is a constant field of the handle; only reference identity is kept.
- The `Callback`, `Sequence` and `Continuation` traits: trait objects are not used. An implementation is passed with the functions that implement the interface for it. Boxed sequences are a closed choice: the thread poller, or a sequence whose state is a list of values with a pure step function. Sequence state of any other type is not represented.
- Callback and continuation behaviours are pure functions of the stack. Implementations that change other heap objects through the mutation context are not captured. For that reason the four library functions are methods, not behaviours wrapped in `AnyCallback`.
- `Debug` formatting and the concrete hash function: the hasher is a parameter, and only "the hash is a function of the address" is kept.
- `load_coroutine`'s table building, `env.set` and `String::from_static` interning: strings are Dafny strings and the library is four methods.
- The thread's internals (how `resume`, `step` and `take_return` run bytecode): the stand-in thread chooses the engine's next mode and result nondeterministically. End-to-end scenarios with concrete script bodies are therefore stated only from the point where the thread has returned (`ReturnedThreadScenarios`). The same goes for which status a thread shows after its result is taken ("suspended" after a yield, "dead" after it finished).
- The "thread lost from stack" panic: a thread at the bottom of the stack is a precondition of `ThreadSequenceStep` and `AnySequence.Step`.
- Termination of the VM's poll loop and "a sequence is never stepped after a terminal outcome": both belong to the VM driver and the unseen engine, which are not part of this model.
- Function values are opaque handles (`Function(id)`): a closure and a native callback are not told apart, and an `AnyCallback` is not itself a script value here.
- `Error::to_value` (called at src/stdlib/coroutine.rs:82) is defined outside the modelled files; `Runtime.ToValue` stands in for it. The model assumes that a value the script raises (`ScriptError`, e.g. `error({})`) comes back as itself, and that an error the host raises (`TypeError`, `BadThreadMode`, `RuntimeError`) comes back wrapped in userdata (`UserData(error)`). `ScriptError` exists only to express that assumption: in the modelled code, `RuntimeError` also carries an ordinary script value (src/stdlib/coroutine.rs:54), and how the real conversion treats it is not captured.
- Floating-point numbers: `Number` carries a real. Only its type name is ever observed.
