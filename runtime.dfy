/**
 * The collaborators that the native-call layer and the coroutine library use but do not define:
 * script values, the error type, the operand stack and the coroutine (thread) object.
 * Only what the core relies on is modelled; the thread is a stand-in that keeps the mode
 * contract of the real one and leaves its bytecode engine unspecified.
 */
module Runtime {
  import opened Wrappers

  /** The modes a coroutine can be in. */
  datatype ThreadMode = Stopped | Suspended | Running | Normal | Return

  /** A function value (a Lua closure or a native callback); only its identity matters here. */
  datatype Function = Function(id: nat)

  /**
   * Script values. Numbers are kept as reals: only their type tag is observed in this model.
   * `UserData` stands for the userdata object that, by the assumption `ToValue` records, a host
   * error is wrapped in when it is handed to a script; other kinds of userdata play no part here.
   */
  datatype Value =
    | Nil
    | Boolean(b: bool)
    | Integer(i: int)
    | Number(n: real)
    | Str(s: string)
    | Table(table: nat)
    | Function(fn: Function)
    | Thread(thread: Thread)
    | UserData(error: Error)

  /** The type name a script sees for a value, as used in type-error reports. */
  function TypeName(v: Value): string
  {
    match v
    case Nil => "nil"
    case Boolean(_) => "boolean"
    case Integer(_) => "integer"
    case Number(_) => "number"
    case Str(_) => "string"
    case Table(_) => "table"
    case Function(_) => "function"
    case Thread(_) => "thread"
    case UserData(_) => "userdata"
  }

  /**
   * Errors surfaced by native calls. The first three are raised by the host (`RuntimeError`
   * carries its message as a value). `ScriptError` is a value a script raised; it is kept apart
   * only so that `ToValue` can state how such a value is handed back.
   */
  datatype Error =
    | TypeError(expected: string, found: string)
    | BadThreadMode(expectedMode: ThreadMode, foundMode: ThreadMode)
    | RuntimeError(message: Value)
    | ScriptError(value: Value)

  /**
   * Stands in for `Error::to_value`, which is not part of this model. Assumed behaviour: a value
   * the script raised comes back as itself, and an error the host raised comes back wrapped in
   * userdata.
   */
  function ToValue(e: Error): (v: Value)
    ensures e.ScriptError? ==> v == e.value
    ensures !e.ScriptError? ==> v == UserData(e)
  {
    match e
    case ScriptError(v) => v
    case _ => UserData(e)
  }

  /** The operand stack, passed by exclusive reference to every native operation. */
  class Stack {
    var values: seq<Value>

    constructor ()
      ensures values == []
    {
      values := [];
    }

    constructor Of(values: seq<Value>)
      ensures this.values == values
    {
      this.values := values;
    }

    /** `stack.get(i)` */
    function Get(i: nat): (v: Option<Value>)
      reads this
      ensures v.Some? <==> i < |values|
      ensures v.Some? ==> v.value == values[i]
    {
      if i < |values| then Some(values[i]) else None
    }

    method Clear()
      modifies this
      ensures values == []
    {
      values := [];
    }

    method Push(v: Value)
      modifies this
      ensures values == old(values) + [v]
    {
      values := values + [v];
    }

    method Extend(vs: seq<Value>)
      modifies this
      ensures values == old(values) + vs
    {
      values := values + vs;
    }

    /** `stack.drain(from..)`: removes and returns the values from index `from` on. */
    method Drain(from: nat) returns (drained: seq<Value>)
      requires from <= |values|
      modifies this
      ensures drained == old(values)[from..]
      ensures values == old(values)[..from]
    {
      drained := values[from..];
      values := values[..from];
    }
  }

  /**
   * A coroutine. The real thread runs bytecode; this stand-in keeps only the mode contract the
   * coroutine library depends on. `returned` holds the pending result exactly while the mode is
   * Return, and `steps` counts how often the engine has been advanced (bookkeeping of the stand-in).
   */
  class Thread {
    var mode: ThreadMode
    var body: Option<Function>
    var arguments: seq<Value>
    var returned: Option<Result<seq<Value>, Error>>
    var steps: nat

    ghost predicate Valid()
      reads this
    {
      (mode == Return) == returned.Some?
    }

    /** `Thread::new`: a fresh thread is Stopped and bound to nothing. */
    constructor ()
      ensures Valid() && mode == Stopped
      ensures body == None && arguments == [] && returned == None && steps == 0
    {
      mode := Stopped;
      body := None;
      arguments := [];
      returned := None;
      steps := 0;
    }

    /** `start_suspended`: binds a function to a Stopped thread and suspends it before its first instruction. */
    method StartSuspended(f: Function) returns (r: Result<(), Error>)
      requires Valid()
      modifies this
      ensures Valid()
      ensures r.Ok? <==> old(mode) == Stopped
      ensures r.Ok? ==> mode == Suspended && body == Some(f) && arguments == old(arguments)
      ensures r.Ok? ==> returned == None && steps == old(steps)
      ensures r.Err? ==> r.error == BadThreadMode(Stopped, old(mode)) && unchanged(this)
    {
      if mode != Stopped {
        return Err(BadThreadMode(Stopped, mode));
      }
      mode := Suspended;
      body := Some(f);
      r := Ok(());
    }

    /** `resume`: hands arguments to a Suspended thread and makes it ready to be stepped; fails otherwise. */
    method Resume(args: seq<Value>) returns (r: Result<(), Error>)
      requires Valid()
      modifies this
      ensures Valid()
      ensures r.Ok? <==> old(mode) == Suspended
      ensures r.Ok? ==> mode == Normal && arguments == args && body == old(body)
      ensures r.Ok? ==> returned == None && steps == old(steps)
      ensures r.Err? ==> r.error == BadThreadMode(Suspended, old(mode)) && unchanged(this)
    {
      if mode != Suspended {
        return Err(BadThreadMode(Suspended, mode));
      }
      mode := Normal;
      arguments := args;
      r := Ok(());
    }

    /**
     * `step`: advances a Normal thread by one slice of execution and fails otherwise.
     * Which mode the engine reaches, and with what result, is not part of this model.
     */
    method Step() returns (r: Result<(), Error>)
      requires Valid()
      modifies this
      ensures Valid()
      ensures r.Ok? <==> old(mode) == Normal
      ensures r.Ok? ==> steps == old(steps) + 1 && body == old(body)
      ensures r.Err? ==> r.error == BadThreadMode(Normal, old(mode)) && unchanged(this)
    {
      if mode != Normal {
        return Err(BadThreadMode(Normal, mode));
      }
      var next: ThreadMode :| true;
      var finished: Result<seq<Value>, Error> :| true;
      mode := next;
      returned := if next == Return then Some(finished) else None;
      steps := steps + 1;
      r := Ok(());
    }

    /**
     * `take_return`: hands out the pending result once, and only in Return mode; the thread is then
     * Suspended again (it yielded) or Stopped (it finished), as the engine decides.
     */
    method TakeReturn() returns (r: Option<Result<seq<Value>, Error>>)
      requires Valid()
      modifies this
      ensures Valid()
      ensures r == old(returned)
      ensures r.Some? <==> old(mode) == Return
      ensures old(mode) == Return ==> (mode == Suspended || mode == Stopped) && returned == None
      ensures old(mode) == Return ==> body == old(body) && steps == old(steps)
      ensures old(mode) != Return ==> unchanged(this)
    {
      r := returned;
      if mode == Return {
        var next: ThreadMode :| next == Suspended || next == Stopped;
        mode := next;
        returned := None;
      }
    }
  }
}
