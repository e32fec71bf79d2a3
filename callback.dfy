/**
 * The native-call layer: the outcome a native call reports to the VM, type-erased callbacks,
 * continuations with separate success and failure paths, and boxed multi-step sequences.
 *
 * Dafny has no trait objects here, so type erasure is expressed the other way round: a handle
 * stores the erased behaviour (the implementation's method applied to its own state) in a
 * constant field, and a generic constructor takes the implementation together with the
 * function that implements the interface for it. Reference equality of the handle is the
 * allocation address of the source.
 */
module Callback {
  import opened Wrappers
  import opened Runtime

  /** What the VM must do once a native call (or a step of one) completes. */
  datatype CallbackReturn =
    | Return
    | Yield(continuation: Option<AnyContinuation>)
    | TailCall(callee: Function, continuation: Option<AnyContinuation>)
    | Sequence(sequence: AnySequence)

  /** The result of a native operation together with the operand stack it leaves behind. */
  datatype Outcome<+T> = Outcome(result: Result<T, Error>, stack: seq<Value>)

  // ---------------------------------------------------------------------------------------------
  // Callbacks

  /** The state a behaviour built by `FromFnWith` closes over, next to the behaviour itself. */
  datatype ContextCallback<!C> = ContextCallback(context: C, call: (C, seq<Value>) -> Outcome<CallbackReturn>)

  /** How a `ContextCallback` implements the callback interface: the context goes first. */
  function ContextCallbackCall<C>(cb: ContextCallback<C>, stack: seq<Value>): (o: Outcome<CallbackReturn>)
    ensures o == cb.call(cb.context, stack)
  {
    cb.call(cb.context, stack)
  }

  /** A garbage-collected handle to a native function; its identity is its allocation. */
  class AnyCallback {
    /** The erased call, fixed when the handle is allocated. */
    const dispatch: seq<Value> -> Outcome<CallbackReturn>

    constructor Erase(dispatch: seq<Value> -> Outcome<CallbackReturn>)
      ensures this.dispatch == dispatch
    {
      this.dispatch := dispatch;
    }

    /** `AnyCallback::new`: allocates a handle whose calls run exactly `call` on `callback`. */
    static method New<C>(callback: C, call: (C, seq<Value>) -> Outcome<CallbackReturn>) returns (handle: AnyCallback)
      ensures fresh(handle)
      ensures forall stack :: handle.dispatch(stack) == call(callback, stack)
      ensures handle.dispatch == (stack => call(callback, stack))
    {
      handle := new AnyCallback.Erase(stack => call(callback, stack));
    }

    /** `AnyCallback::from_fn_with`: the stored context is passed as the behaviour's first argument. */
    static method FromFnWith<C>(context: C, call: (C, seq<Value>) -> Outcome<CallbackReturn>) returns (handle: AnyCallback)
      ensures fresh(handle)
      ensures forall stack :: handle.dispatch(stack) == call(context, stack)
    {
      handle := New(ContextCallback(context, call), ContextCallbackCall);
    }

    /** `AnyCallback::from_fn`: `FromFnWith` with a unit context that the behaviour ignores. */
    static method FromFn(call: seq<Value> -> Outcome<CallbackReturn>) returns (handle: AnyCallback)
      ensures fresh(handle)
      ensures forall stack :: handle.dispatch(stack) == call(stack)
    {
      handle := FromFnWith((), (_: (), stack: seq<Value>) => call(stack));
    }

    /** `as_ptr`: the address of the allocation, which is the handle itself. */
    function AsPtr(): (p: object)
      ensures p == this
    {
      this
    }

    /** `eq`: two handles are equal exactly when they are the same allocation. */
    function Eq(other: AnyCallback): (r: bool)
      ensures r <==> this == other
    {
      AsPtr() == other.AsPtr()
    }

    /** `hash`: feeds the address, and nothing else, to the hasher. */
    function Hash(hasher: object -> int): (h: int)
      ensures h == hasher(this)
    {
      hasher(AsPtr())
    }

    /** `call`: runs the wrapped implementation on the stack; its result and stack effects are passed through. */
    method Call(stack: Stack) returns (r: Result<CallbackReturn, Error>)
      modifies stack
      ensures Outcome(r, stack.values) == dispatch(old(stack.values))
    {
      var o := dispatch(stack.values);
      stack.values := o.stack;
      r := o.result;
    }
  }

  /** Handle equality is an equivalence relation. */
  lemma EqIsEquivalence(a: AnyCallback, b: AnyCallback, c: AnyCallback)
    ensures a.Eq(a)
    ensures a.Eq(b) ==> b.Eq(a)
    ensures a.Eq(b) && b.Eq(c) ==> a.Eq(c)
  {
  }

  /** Equal handles hash equally under every hasher. */
  lemma EqualHandlesHashEqually(a: AnyCallback, b: AnyCallback, hasher: object -> int)
    requires a.Eq(b)
    ensures a.Hash(hasher) == b.Hash(hasher)
  {
  }

  /** The hash sees the identity and nothing else: handles that no hasher tells apart are equal. */
  lemma HashDeterminesIdentity(a: AnyCallback, b: AnyCallback)
    requires forall hasher: object -> int :: a.Hash(hasher) == b.Hash(hasher)
    ensures a.Eq(b)
  {
    var separating := (o: object) => if o == a then 1 else 0;
    assert a.Hash(separating) == b.Hash(separating);
  }

  /** Two handles built from the same implementation state behave identically and are still unequal. */
  method SeparateHandlesDiffer<C>(callback: C, call: (C, seq<Value>) -> Outcome<CallbackReturn>)
    returns (a: AnyCallback, b: AnyCallback)
    ensures a.dispatch == b.dispatch
    ensures !a.Eq(b)
  {
    a := AnyCallback.New(callback, call);
    b := AnyCallback.New(callback, call);
  }

  // ---------------------------------------------------------------------------------------------
  // Continuations

  /** The state a continuation built by `FromFnsWith` closes over, next to its two behaviours. */
  datatype ContextContinuation<!C> = ContextContinuation(
    context: C,
    continueOk: (C, seq<Value>) -> Outcome<CallbackReturn>,
    continueErr: (C, seq<Value>, Error) -> Outcome<CallbackReturn>)

  /** How a `ContextContinuation` continues after success: the context goes first. */
  function ContextContinueOk<C>(k: ContextContinuation<C>, stack: seq<Value>): (o: Outcome<CallbackReturn>)
    ensures o == k.continueOk(k.context, stack)
  {
    k.continueOk(k.context, stack)
  }

  /** How a `ContextContinuation` continues after failure: the context goes first, the error last. */
  function ContextContinueErr<C>(k: ContextContinuation<C>, stack: seq<Value>, error: Error): (o: Outcome<CallbackReturn>)
    ensures o == k.continueErr(k.context, stack, error)
  {
    k.continueErr(k.context, stack, error)
  }

  /** The failure behaviour of success-only continuations: re-raise the error, leave the stack. */
  function Reraise(stack: seq<Value>, error: Error): (o: Outcome<CallbackReturn>)
    ensures o.result == Err(error) && o.stack == stack
  {
    Outcome(Err(error), stack)
  }

  /** A garbage-collected handle to "what happens next" once a suspended computation completes. */
  class AnyContinuation {
    const onOk: seq<Value> -> Outcome<CallbackReturn>
    const onErr: (seq<Value>, Error) -> Outcome<CallbackReturn>

    constructor Erase(onOk: seq<Value> -> Outcome<CallbackReturn>, onErr: (seq<Value>, Error) -> Outcome<CallbackReturn>)
      ensures this.onOk == onOk && this.onErr == onErr
    {
      this.onOk := onOk;
      this.onErr := onErr;
    }

    /** `AnyContinuation::new`: allocates a handle whose two paths run the implementation's. */
    static method New<C>(
      continuation: C,
      continueOk: (C, seq<Value>) -> Outcome<CallbackReturn>,
      continueErr: (C, seq<Value>, Error) -> Outcome<CallbackReturn>)
      returns (k: AnyContinuation)
      ensures fresh(k)
      ensures forall stack :: k.onOk(stack) == continueOk(continuation, stack)
      ensures forall stack, error :: k.onErr(stack, error) == continueErr(continuation, stack, error)
    {
      k := new AnyContinuation.Erase(
        stack => continueOk(continuation, stack),
        (stack, error) => continueErr(continuation, stack, error));
    }

    /** `from_fns_with`: both behaviours receive the stored context first. */
    static method FromFnsWith<C>(
      context: C,
      continueOk: (C, seq<Value>) -> Outcome<CallbackReturn>,
      continueErr: (C, seq<Value>, Error) -> Outcome<CallbackReturn>)
      returns (k: AnyContinuation)
      ensures fresh(k)
      ensures forall stack :: k.onOk(stack) == continueOk(context, stack)
      ensures forall stack, error :: k.onErr(stack, error) == continueErr(context, stack, error)
    {
      k := New(ContextContinuation(context, continueOk, continueErr), ContextContinueOk, ContextContinueErr);
    }

    /** `from_fns`: `FromFnsWith` with a unit context that both behaviours ignore. */
    static method FromFns(
      continueOk: seq<Value> -> Outcome<CallbackReturn>,
      continueErr: (seq<Value>, Error) -> Outcome<CallbackReturn>)
      returns (k: AnyContinuation)
      ensures fresh(k)
      ensures forall stack :: k.onOk(stack) == continueOk(stack)
      ensures forall stack, error :: k.onErr(stack, error) == continueErr(stack, error)
    {
      k := FromFnsWith((),
        (_: (), stack: seq<Value>) => continueOk(stack),
        (_: (), stack: seq<Value>, error: Error) => continueErr(stack, error));
    }

    /** `from_ok_fn`: the success path runs `continueOk`; the failure path re-raises unchanged. */
    static method FromOkFn(continueOk: seq<Value> -> Outcome<CallbackReturn>) returns (k: AnyContinuation)
      ensures fresh(k)
      ensures forall stack :: k.onOk(stack) == continueOk(stack)
      ensures forall stack, error :: k.onErr(stack, error) == Outcome(Err(error), stack)
    {
      k := FromFnsWith((),
        (_: (), stack: seq<Value>) => continueOk(stack),
        (_: (), stack: seq<Value>, error: Error) => Reraise(stack, error));
    }

    /** `from_ok_fn_with`: the success path gets the context; the failure path re-raises unchanged. */
    static method FromOkFnWith<C>(context: C, continueOk: (C, seq<Value>) -> Outcome<CallbackReturn>)
      returns (k: AnyContinuation)
      ensures fresh(k)
      ensures forall stack :: k.onOk(stack) == continueOk(context, stack)
      ensures forall stack, error :: k.onErr(stack, error) == Outcome(Err(error), stack)
    {
      k := FromFnsWith(context,
        (c: C, stack: seq<Value>) => continueOk(c, stack),
        (_: C, stack: seq<Value>, error: Error) => Reraise(stack, error));
    }

    /** `continue_ok`: delegates to the wrapped success path. */
    method ContinueOk(stack: Stack) returns (r: Result<CallbackReturn, Error>)
      modifies stack
      ensures Outcome(r, stack.values) == onOk(old(stack.values))
    {
      var o := onOk(stack.values);
      stack.values := o.stack;
      r := o.result;
    }

    /** `continue_err`: delegates to the wrapped failure path with the error it is given. */
    method ContinueErr(stack: Stack, error: Error) returns (r: Result<CallbackReturn, Error>)
      modifies stack
      ensures Outcome(r, stack.values) == onErr(old(stack.values), error)
    {
      var o := onErr(stack.values, error);
      stack.values := o.stack;
      r := o.result;
    }
  }

  // ---------------------------------------------------------------------------------------------
  // Sequences

  /** What one step of a state-carrying sequence produces: its result, its new state, the stack. */
  datatype Stepped = Stepped(result: Result<Option<CallbackReturn>, Error>, state: seq<Value>, stack: seq<Value>)

  /**
   * The sequence implementations a boxed sequence can hold: the coroutine library's thread poller
   * (which has no state of its own: the thread is at the bottom of the stack), or a sequence whose
   * state is a list of values and whose step is a pure function of that state and the stack.
   */
  datatype SequenceImpl =
    | ThreadSequence
    | StateSequence(state: seq<Value>, step: (seq<Value>, seq<Value>) -> Stepped)

  /** The thread at the bottom of the stack, if any. */
  function BottomThread(stack: seq<Value>): set<Thread>
  {
    if |stack| > 0 && stack[0].Thread? then {stack[0].thread} else {}
  }

  /** The thread poller's requirement: the resumed thread is still at the bottom of the stack. */
  ghost predicate ThreadAtBottom(stack: seq<Value>)
    reads BottomThread(stack)
  {
    |stack| > 0 && stack[0].Thread? && stack[0].thread.Valid()
  }

  /**
   * The stack a resume call leaves for its caller once the thread has returned:
   * `true` followed by the results, or `false` followed by the error as a value.
   */
  function ResumeStack(returned: Result<seq<Value>, Error>): (stack: seq<Value>)
    ensures |stack| >= 1 && stack[0] == Boolean(returned.Ok?)
    ensures returned.Ok? ==> stack[1..] == returned.value
    ensures returned.Err? ==> |stack| == 2 && stack[1] == ToValue(returned.error)
  {
    match returned
    case Ok(results) => [Boolean(true)] + results
    case Err(err) => [Boolean(false), ToValue(err)]
  }

  /** A caller can tell success from failure, and recovers the results exactly on success. */
  lemma ResumeStackDistinguishes(a: Result<seq<Value>, Error>, b: Result<seq<Value>, Error>)
    requires ResumeStack(a) == ResumeStack(b)
    ensures a.Ok? <==> b.Ok?
    ensures a.Ok? ==> a == b
  {
  }

  /**
   * One poll of the thread poller, as a function of the thread's mode and pending result and
   * of the stack: not done while the thread runs (Normal), done with the rewritten stack once it
   * has returned, and a bad-mode error in every other mode.
   */
  function PollOutcome(mode: ThreadMode, returned: Option<Result<seq<Value>, Error>>, stack: seq<Value>)
    : (o: Outcome<Option<CallbackReturn>>)
    requires mode == ThreadMode.Return ==> returned.Some?
    ensures o.result == Ok(None) <==> mode == Normal
    ensures o.result == Ok(Some(CallbackReturn.Return)) <==> mode == ThreadMode.Return
    ensures o.result.Err? <==> mode in {Stopped, Suspended, Running}
    ensures o.result.Err? ==> o.result.error == BadThreadMode(Normal, mode)
    ensures mode != ThreadMode.Return ==> o.stack == stack
    ensures mode == ThreadMode.Return ==> o.stack == ResumeStack(returned.value)
  {
    match mode
    case Return => Outcome(Ok(Some(CallbackReturn.Return)), ResumeStack(returned.value))
    case Normal => Outcome(Ok(None), stack)
    case _ => Outcome(Err(BadThreadMode(Normal, mode)), stack)
  }

  /** What a poll does: its result and stack are `PollOutcome`, and the thread is advanced or emptied. */
  twostate predicate ThreadPolled(stack: Stack, t: Thread, new r: Result<Option<CallbackReturn>, Error>)
    reads stack, t
  {
    && old(t.Valid())
    && t.Valid()
    && Outcome(r, stack.values) == PollOutcome(old(t.mode), old(t.returned), old(stack.values))
    && (old(t.mode) == Normal ==> t.steps == old(t.steps) + 1 && t.body == old(t.body))
    && (old(t.mode) == ThreadMode.Return ==>
          && (t.mode == Suspended || t.mode == Stopped) && t.returned == None
          && t.body == old(t.body) && t.steps == old(t.steps))
    && (old(t.mode) != Normal && old(t.mode) != ThreadMode.Return ==> unchanged(t))
  }

  /**
   * `ThreadSequence::step` (from the coroutine library): polls the thread at the bottom of the
   * stack once. The thread's own step and result hand-over cannot fail here: each is called
   * only in the one mode where it succeeds.
   */
  method ThreadSequenceStep(stack: Stack) returns (r: Result<Option<CallbackReturn>, Error>)
    requires ThreadAtBottom(stack.values)
    modifies stack, stack.values[0].thread
    ensures ThreadPolled(stack, old(stack.values[0].thread), r)
  {
    var thread := stack.values[0].thread;
    match thread.mode
    case Return =>
      stack.Clear();
      var taken := thread.TakeReturn();
      match taken.value {
        case Ok(results) =>
          stack.Push(Boolean(true));
          stack.Extend(results);
        case Err(err) =>
          stack.Extend([Boolean(false), ToValue(err)]);
      }
      r := Ok(Some(CallbackReturn.Return));
    case Normal =>
      var stepped := thread.Step();
      assert stepped.Ok?;
      r := Ok(None);
    case _ =>
      r := Err(BadThreadMode(Normal, thread.mode));
  }

  /** A boxed sequence, exclusively owned by the VM while it steps it. */
  class AnySequence {
    var impl: SequenceImpl

    /** `AnySequence::new` / `From`: boxes an implementation. */
    constructor New(impl: SequenceImpl)
      ensures this.impl == impl
    {
      this.impl := impl;
    }

    /**
     * `step`: forwards to the boxed implementation and returns its result unchanged:
     * `None` means "step me again", `Some` carries the terminal outcome.
     */
    method Step(stack: Stack) returns (r: Result<Option<CallbackReturn>, Error>)
      requires impl.ThreadSequence? ==> ThreadAtBottom(stack.values)
      modifies this, stack, BottomThread(stack.values)
      ensures old(impl).ThreadSequence? ==>
                impl.ThreadSequence? && ThreadPolled(stack, old(stack.values[0].thread), r)
      ensures old(impl).StateSequence? ==>
                var o := old(impl).step(old(impl).state, old(stack.values));
                && r == o.result && stack.values == o.stack
                && impl.StateSequence? && impl.state == o.state && impl.step == old(impl).step
                && unchanged(BottomThread(old(stack.values)))
    {
      match impl
      case ThreadSequence =>
        r := ThreadSequenceStep(stack);
      case StateSequence(state, step) =>
        var o := step(state, stack.values);
        impl := StateSequence(o.state, step);
        stack.values := o.stack;
        r := o.result;
    }
  }

  // ---------------------------------------------------------------------------------------------
  // The source's test of type-erased callbacks

  /** The callback of the source's own test: it puts its number in front of the stack and returns. */
  datatype CB = CB(n: int)

  /** `CB`'s `call`: the number goes in front of the stack, the rest stays, and the call returns. */
  function CallCB(cb: CB, stack: seq<Value>): (o: Outcome<CallbackReturn>)
    ensures o.result == Ok(CallbackReturn.Return)
    ensures |o.stack| == |stack| + 1 && o.stack[0] == Integer(cb.n) && o.stack[1..] == stack
  {
    Outcome(Ok(CallbackReturn.Return), [Integer(cb.n)] + stack)
  }

  /** The source's test: calling a handle around `CB(17)` on an empty stack succeeds and leaves 17 in front. */
  method DynCallbackExample() returns (r: Result<CallbackReturn, Error>, front: Option<Value>)
    ensures r == Ok(CallbackReturn.Return)
    ensures front == Some(Integer(17))
  {
    var handle := AnyCallback.New(CB(17), CallCB);
    var stack := new Stack();
    r := handle.Call(stack);
    front := stack.Get(0);
  }
}
