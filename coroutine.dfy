/**
 * The coroutine library: `create`, `resume`, `status` and `yield`, each a native function that
 * works on the operand stack and on the thread it finds there. `resume` does not run the thread
 * itself: it returns a boxed thread poller (`Callback.ThreadSequence`) for the VM to step.
 */
module Coroutine {
  import opened Wrappers
  import opened Runtime
  import opened Callback

  /** `stack.get(0).copied().unwrap_or(Value::Nil)`: the first argument, nil when there is none. */
  function FirstArg(args: seq<Value>): (v: Value)
    ensures |args| == 0 ==> v == Nil
    ensures |args| > 0 ==> v == args[0]
  {
    if |args| == 0 then Nil else args[0]
  }

  /** The argument check of `create`: the first argument must be a function. */
  function ExpectFunction(args: seq<Value>): (r: Result<Function, Error>)
    ensures r.Ok? <==> |args| > 0 && args[0].Function?
    ensures r.Ok? ==> r.value == args[0].fn
    ensures r.Err? ==> r.error.TypeError? && r.error.expected == "function"
    ensures r.Err? && |args| == 0 ==> r.error.found == "nil"
    ensures r.Err? && |args| > 0 ==> r.error.found == TypeName(args[0])
  {
    match FirstArg(args)
    case Function(f) => Ok(f)
    case v => Err(TypeError("function", TypeName(v)))
  }

  /** The argument check of `resume` and `status`: the first argument must be a thread. */
  function ExpectThread(args: seq<Value>): (r: Result<Thread, Error>)
    ensures r.Ok? <==> |args| > 0 && args[0].Thread?
    ensures r.Ok? ==> r.value == args[0].thread
    ensures r.Err? ==> r.error.TypeError? && r.error.expected == "thread"
    ensures r.Err? && |args| == 0 ==> r.error.found == "nil"
    ensures r.Err? && |args| > 0 ==> r.error.found == TypeName(args[0])
  {
    match FirstArg(args)
    case Thread(t) => Ok(t)
    case v => Err(TypeError("thread", TypeName(v)))
  }

  /** The name `status` reports for a mode: finished and returning threads are both "dead". */
  function StatusName(mode: ThreadMode): (name: string)
    ensures name == "dead" <==> mode == Stopped || mode == ThreadMode.Return
    ensures name == "running" <==> mode == Running
    ensures name == "normal" <==> mode == Normal
    ensures name == "suspended" <==> mode == Suspended
  {
    match mode
    case Stopped | Return => "dead"
    case Running => "running"
    case Normal => "normal"
    case Suspended => "suspended"
  }

  /** The error `resume` raises when the thread refuses to be resumed. */
  const CannotResume: Error := RuntimeError(Str("cannot resume thread"))

  /** The argument threads a call may touch: the thread at the bottom of the stack, if any. */
  ghost predicate ArgThreadValid(args: seq<Value>)
    reads BottomThread(args)
  {
    |args| > 0 && args[0].Thread? ==> args[0].thread.Valid()
  }

  /**
   * `coroutine.create(f)`: a type error (stack untouched) unless the first argument is a function;
   * otherwise the stack becomes exactly one new thread, Suspended and bound to `f`.
   */
  method Create(stack: Stack) returns (r: Result<CallbackReturn, Error>)
    modifies stack
    ensures ExpectFunction(old(stack.values)).Err? ==>
              r == Err(ExpectFunction(old(stack.values)).error) && stack.values == old(stack.values)
    ensures ExpectFunction(old(stack.values)).Ok? ==>
              && r == Ok(CallbackReturn.Return)
              && |stack.values| == 1 && stack.values[0].Thread?
              && fresh(stack.values[0].thread)
              && stack.values[0].thread.Valid()
              && stack.values[0].thread.mode == Suspended
              && stack.values[0].thread.body == Some(old(stack.values[0]).fn)
              && stack.values[0].thread.arguments == [] && stack.values[0].thread.returned == None
              && stack.values[0].thread.steps == 0
  {
    var checked := ExpectFunction(stack.values);
    if checked.Err? {
      return Err(checked.error);
    }
    var thread := new Thread();
    var started := thread.StartSuspended(checked.value);
    assert started.Ok?;
    stack.Clear();
    stack.Push(Value.Thread(thread));
    r := Ok(CallbackReturn.Return);
  }

  /**
   * `coroutine.resume(co, args...)`: a type error (stack untouched) unless the first argument is a
   * thread. Otherwise the remaining arguments are drained off the stack, leaving `[co]`, and
   * handed to the thread; if the thread is not Suspended the call fails with "cannot resume
   * thread", else it returns a fresh thread poller and the thread is Normal with those arguments.
   */
  method Resume(stack: Stack) returns (r: Result<CallbackReturn, Error>)
    requires ArgThreadValid(stack.values)
    modifies stack, BottomThread(stack.values)
    ensures ExpectThread(old(stack.values)).Err? ==>
              && r == Err(ExpectThread(old(stack.values)).error)
              && stack.values == old(stack.values)
              && unchanged(BottomThread(old(stack.values)))
    ensures ExpectThread(old(stack.values)).Ok? ==>
              var t := old(stack.values[0].thread);
              && stack.values == [Value.Thread(t)]
              && t.Valid()
              && (old(t.mode) != Suspended ==> r == Err(CannotResume) && unchanged(t))
              && (old(t.mode) == Suspended ==>
                    && r.Ok? && r.value.Sequence?
                    && fresh(r.value.sequence) && r.value.sequence.impl == ThreadSequence
                    && t.mode == Normal && t.arguments == old(stack.values[1..])
                    && t.body == old(t.body) && t.steps == old(t.steps))
  {
    var checked := ExpectThread(stack.values);
    if checked.Err? {
      return Err(checked.error);
    }
    var thread := checked.value;
    var args := stack.Drain(1);
    var resumed := thread.Resume(args);
    if resumed.Err? {
      return Err(CannotResume);
    }
    var poller := new AnySequence.New(ThreadSequence);
    r := Ok(Sequence(poller));
  }

  /**
   * `coroutine.status(co)`: a type error (stack untouched) unless the first argument is a thread;
   * otherwise the stack becomes exactly the name of the thread's mode.
   */
  method Status(stack: Stack) returns (r: Result<CallbackReturn, Error>)
    modifies stack
    ensures ExpectThread(old(stack.values)).Err? ==>
              r == Err(ExpectThread(old(stack.values)).error) && stack.values == old(stack.values)
    ensures ExpectThread(old(stack.values)).Ok? ==>
              && r == Ok(CallbackReturn.Return)
              && stack.values == [Str(StatusName(old(stack.values[0].thread.mode)))]
  {
    var checked := ExpectThread(stack.values);
    if checked.Err? {
      return Err(checked.error);
    }
    var thread := checked.value;
    stack.Clear();
    stack.Push(Str(StatusName(thread.mode)));
    r := Ok(CallbackReturn.Return);
  }

  /** `coroutine.yield(...)`: always asks the VM to suspend the calling chain, with no continuation. */
  method Yield(stack: Stack) returns (r: Result<CallbackReturn, Error>)
    ensures r == Ok(CallbackReturn.Yield(None))
  {
    r := Ok(CallbackReturn.Yield(None));
  }

  // ---------------------------------------------------------------------------------------------
  // Scenarios through several library calls

  /** A freshly created coroutine reports "suspended". */
  method CreateThenStatus(f: Function) returns (created: Result<CallbackReturn, Error>, status: seq<Value>)
    ensures created == Ok(CallbackReturn.Return)
    ensures status == [Str("suspended")]
  {
    var stack := new Stack.Of([Value.Function(f)]);
    created := Create(stack);
    var reported := Status(stack);
    status := stack.values;
  }

  /**
   * Resuming a created coroutine yields a thread poller; resuming it again while it is active
   * fails with "cannot resume thread"; the poller's first poll finds the thread Normal, advances it
   * and reports "not done", with the stack still holding only the thread.
   */
  method ResumeThenPoll(f: Function, args: seq<Value>)
    returns (resumed: Result<CallbackReturn, Error>, again: Result<CallbackReturn, Error>,
             polled: Result<Option<CallbackReturn>, Error>, afterPoll: seq<Value>)
    ensures resumed.Ok? && resumed.value.Sequence?
    ensures again == Err(CannotResume)
    ensures polled == Ok(None)
    ensures |afterPoll| == 1 && afterPoll[0].Thread?
  {
    var stack := new Stack.Of([Value.Function(f)]);
    var created := Create(stack);
    stack.Extend(args);
    resumed := Resume(stack);
    stack.Extend(args);
    again := Resume(stack);
    var poller := resumed.value.sequence;
    polled := poller.Step(stack);
    afterPoll := stack.values;
  }

  /**
   * Once the thread has returned, the poll hands the caller `(true, results...)`, e.g. `(true, 1, 2)`
   * for a body that returns 1 and 2, or `(false, error)` for a body that raised `error`: the
   * script error is delivered as a value and not raised to the caller.
   */
  lemma ReturnedThreadScenarios(stack: seq<Value>, error: Value)
    ensures PollOutcome(ThreadMode.Return, Some(Ok([Integer(1), Integer(2)])), stack)
            == Outcome(Ok(Some(CallbackReturn.Return)), [Boolean(true), Integer(1), Integer(2)])
    ensures PollOutcome(ThreadMode.Return, Some(Err(ScriptError(error))), stack)
            == Outcome(Ok(Some(CallbackReturn.Return)), [Boolean(false), error])
  {
  }
}
