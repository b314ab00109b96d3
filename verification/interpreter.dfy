/**
 * The run loop of the bytecode interpreter and the native interface it calls
 * back into: findClass, getMethodID and callStaticMethod.
 *
 * The loop executes one instruction at a time with Semantics.Step on a
 * snapshot of the current frame, then writes the new operand stack, locals,
 * cursor and array heap back into the objects. RETURN pops the thread's frame
 * stack; INVOKESTATIC of a class the interpreter loads itself finds the class
 * (loading it if needed), looks the method up, resets its cursor and runs it
 * in a new frame. Every fault is a Java exception the interpreter does not
 * catch, so it ends the whole run.
 */
module Interpreter {
  import opened Wrappers
  import opened Bytes
  import opened StackValues
  import opened Bytecodes
  import opened Oops
  import opened Frames
  import opened Classfile
  import opened Semantics
  import InstructionFacts

  /* ----------------------------------------------------------------- */
  /* Class names                                                       */
  /* ----------------------------------------------------------------- */

  /**
   * A class named by a constant-pool entry (with slashes) is read from the
   * file its own name denotes: the loader turns the dots back into slashes.
   */
  lemma SlashesToDotsReadsSameFile(name: string)
    ensures ClassFilePath(Replace(name, '/', '.')) == ClassFilePath(name)
  {
    var dotted := Replace(name, '/', '.');
    assert Replace(dotted, '.', '/') == Replace(name, '.', '/') by {
      forall i | 0 <= i < |name|
        ensures Replace(dotted, '.', '/')[i] == Replace(name, '.', '/')[i]
      {
      }
    }
  }

  /* ----------------------------------------------------------------- */
  /* getMethodID                                                       */
  /* ----------------------------------------------------------------- */

  /**
   * The body of getMethodID's loop for one slot of the method array: the
   * name and the descriptor are both cast to String before either is
   * compared, so a non-String entry throws ClassCastException; a null name
   * throws NullPointerException, and so does a null descriptor once the name
   * has matched (the && stops at a name that differs).
   */
  function SlotMatch(slot: Option<MethodInfo>, data: map<int, PoolData>, name: string, descriptor: string): (r: Result<bool>)
    ensures r == Ok(true) <==>
      slot.Some? && CastString(data, slot.value.nameIndex) == Ok(Some(name)) && CastString(data, slot.value.descriptorIndex) == Ok(Some(descriptor))
    ensures slot.None? ==> r == Err(NullPointer)
    ensures r.Err? ==> r.fault in {NullPointer, ClassCast}
  {
    if slot.None? then Err(NullPointer)
    else
      var tmpName :- CastString(data, slot.value.nameIndex);
      var tmpDescriptor :- CastString(data, slot.value.descriptorIndex);
      if tmpName.None? then Err(NullPointer)
      else if tmpName.value != name then Ok(false)
      else if tmpDescriptor.None? then Err(NullPointer)
      else Ok(tmpDescriptor.value == descriptor)
  }

  /** getMethodID's loop from slot `from` on: the slot of the first match, nothing, or the first exception. */
  function LookupFrom(methods: seq<Option<MethodInfo>>, data: map<int, PoolData>, name: string, descriptor: string, from: nat): (r: Result<Option<nat>>)
    requires from <= |methods|
    ensures r.Ok? && r.value.Some? ==> from <= r.value.value < |methods| && SlotMatch(methods[r.value.value], data, name, descriptor) == Ok(true)
    decreases |methods| - from
  {
    if from == |methods| then Ok(None)
    else
      var found :- SlotMatch(methods[from], data, name, descriptor);
      if found then Ok(Some(from)) else LookupFrom(methods, data, name, descriptor, from + 1)
  }

  /** The lookup finds slot k exactly when slot k matches and every slot before it was compared without a match. */
  lemma {:induction false} LookupFindsFirst(methods: seq<Option<MethodInfo>>, data: map<int, PoolData>, name: string, descriptor: string, from: nat, k: nat)
    requires from <= |methods|
    ensures LookupFrom(methods, data, name, descriptor, from) == Ok(Some(k)) <==>
      && from <= k < |methods| && SlotMatch(methods[k], data, name, descriptor) == Ok(true)
      && forall j :: from <= j < k ==> SlotMatch(methods[j], data, name, descriptor) == Ok(false)
    decreases |methods| - from
  {
    if from < |methods| && SlotMatch(methods[from], data, name, descriptor) == Ok(false) {
      LookupFindsFirst(methods, data, name, descriptor, from + 1, k);
    }
  }

  /** The lookup finds nothing exactly when every slot was compared without a match. */
  lemma {:induction false} LookupFindsNothing(methods: seq<Option<MethodInfo>>, data: map<int, PoolData>, name: string, descriptor: string, from: nat)
    requires from <= |methods|
    ensures LookupFrom(methods, data, name, descriptor, from) == Ok(None) <==>
      forall j :: from <= j < |methods| ==> SlotMatch(methods[j], data, name, descriptor) == Ok(false)
    decreases |methods| - from
  {
    if from < |methods| && SlotMatch(methods[from], data, name, descriptor) == Ok(false) {
      LookupFindsNothing(methods, data, name, descriptor, from + 1);
    }
  }

  /**
   * getMethodID: the first method of the class whose name and descriptor are
   * the ones asked for; a class without a method array throws.
   */
  method GetMethodID(klass: InstanceKlass, name: string, descriptor: string) returns (r: Result<Option<MethodInfo>>)
    ensures klass.methods == null ==> r == Err(NullPointer)
    ensures klass.methods != null ==>
      var spec := LookupFrom(klass.methods[..], klass.constantPool.dataMap, name, descriptor, 0);
      && (spec.Err? ==> r == Err(spec.fault))
      && (spec.Ok? ==> r.Ok? && (r.value.None? <==> spec.value.None?))
      && (spec.Ok? && spec.value.Some? ==> r.value == klass.methods[spec.value.value])
  {
    var methods := klass.methods;
    if methods == null {
      return Err(NullPointer);
    }
    var data := klass.constantPool.dataMap;
    var i := 0;
    while i < methods.Length
      invariant 0 <= i <= methods.Length
      invariant LookupFrom(methods[..], data, name, descriptor, 0) == LookupFrom(methods[..], data, name, descriptor, i)
    {
      var found := SlotMatch(methods[i], data, name, descriptor);
      if found.Err? {
        return Err(found.fault);
      }
      if found.value {
        return Ok(methods[i]);
      }
      i := i + 1;
    }
    return Ok(None);
  }

  /** findClass always answers null. */
  method FindClass(name: string) returns (r: Option<InstanceKlass>)
    ensures r == None
  {
    return None;
  }

  /* ----------------------------------------------------------------- */
  /* The run loop, as a function                                       */
  /* ----------------------------------------------------------------- */

  /**
   * Where a run of one method's loop stops: at the end of the code with the
   * frame stack `depth` frames deep, at an exception, at the first
   * INVOKESTATIC into a class the interpreter loads itself, or when the step
   * bound runs out.
   */
  datatype Outcome =
    | Finished(m: Machine, depth: nat)
    | Faulted(fault: Fault)
    | Calls(at: Machine, calleeDepth: nat, target: MemberRef)
    | Exhausted

  /** The effect of one instruction: Semantics.Step, or a function standing for it. */
  type StepFn = (Context, Machine) --> Result<(Machine, Effect)>

  /** A step function that, like Step, takes every well-formed machine to one it evolves into. */
  ghost predicate Sound(step: StepFn)
  {
    forall ctx, m :: MachineWellFormed(m) ==>
      step.requires(ctx, m) && (step(ctx, m).Ok? ==> Evolves(m, step(ctx, m).value.0))
  }

  /** Step itself is sound. */
  lemma StepSound()
    ensures Sound(Step)
  {
  }

  /**
   * The loop `while (!code.end())` over one frame, at most `fuel` steps.
   * Each step is `step`, which the interpreter sets to Semantics.Step.
   * RETURN pops a frame of the thread's stack (there are `depth` of them)
   * and the loop goes on until the code ends.
   */
  function Exec(step: StepFn, ctx: Context, m: Machine, depth: nat, fuel: nat): (r: Outcome)
    requires Sound(step) && MachineWellFormed(m)
    ensures r.Finished? ==> Evolves(m, r.m) && r.m.pc >= |ctx.codes| && r.depth <= depth
    ensures r.Calls? ==> Evolves(m, r.at) && r.calleeDepth <= depth
    decreases fuel, 0
  {
    if m.pc >= |ctx.codes| then Finished(m, depth)
    else if fuel == 0 then Exhausted
    else Advance(step, ctx, m, depth, fuel - 1)
  }

  /** One pass of the loop's body: the instruction at `m`, then what the loop does after it. */
  function Advance(step: StepFn, ctx: Context, m: Machine, depth: nat, fuel: nat): (r: Outcome)
    requires Sound(step) && MachineWellFormed(m)
    ensures r.Finished? ==> Evolves(m, r.m) && r.m.pc >= |ctx.codes| && r.depth <= depth
    ensures r.Calls? ==> Evolves(m, r.at) && r.calleeDepth <= depth
    decreases fuel, 1
  {
    match step(ctx, m)
    case Err(f) => Faulted(f)
    case Ok((m', effect)) =>
      match effect
      case Next => Exec(step, ctx, m', depth, fuel)
      case PopFrame => if depth == 0 then Faulted(EmptyStack) else Exec(step, ctx, m', depth - 1, fuel)
      case CallStatic(target) => Calls(m', depth, target)
  }

  /** More steps do not change where a run stops once it stops within the bound. */
  lemma {:induction false} ExecFuelIndependent(step: StepFn, ctx: Context, m: Machine, depth: nat, fuel: nat, more: nat)
    requires Sound(step) && MachineWellFormed(m) && !Exec(step, ctx, m, depth, fuel).Exhausted?
    ensures Exec(step, ctx, m, depth, fuel + more) == Exec(step, ctx, m, depth, fuel)
    decreases fuel, 0
  {
    if m.pc < |ctx.codes| && fuel > 0 {
      AdvanceFuelIndependent(step, ctx, m, depth, fuel - 1, more);
    }
  }

  lemma {:induction false} AdvanceFuelIndependent(step: StepFn, ctx: Context, m: Machine, depth: nat, fuel: nat, more: nat)
    requires Sound(step) && MachineWellFormed(m) && !Advance(step, ctx, m, depth, fuel).Exhausted?
    ensures Advance(step, ctx, m, depth, fuel + more) == Advance(step, ctx, m, depth, fuel)
    decreases fuel, 1
  {
    var s := step(ctx, m);
    if s.Ok? {
      var m' := s.value.0;
      match s.value.1
      case Next => ExecFuelIndependent(step, ctx, m', depth, fuel, more);
      case PopFrame =>
        if depth > 0 {
          ExecFuelIndependent(step, ctx, m', depth - 1, fuel, more);
        }
      case CallStatic(_) =>
    }
  }

  /**
   * The body of the loop: the switch over the opcode at the cursor, as one
   * step of Exec with `fuel + 1` steps left.
   */
  method Execute(step: StepFn, ctx: Context, m: Machine, ghost depth: nat, ghost fuel: nat) returns (r: Result<(Machine, Effect)>)
    requires Sound(step) && MachineWellFormed(m) && m.pc < |ctx.codes|
    ensures r.Ok? ==> Evolves(m, r.value.0)
    ensures r.Err? ==> Exec(step, ctx, m, depth, fuel + 1) == Faulted(r.fault)
    ensures r.Ok? && r.value.1.Next? ==> Exec(step, ctx, m, depth, fuel + 1) == Exec(step, ctx, r.value.0, depth, fuel)
    ensures r.Ok? && r.value.1.PopFrame? ==>
      Exec(step, ctx, m, depth, fuel + 1) == if depth == 0 then Faulted(EmptyStack) else Exec(step, ctx, r.value.0, depth - 1, fuel)
    ensures r.Ok? && r.value.1.CallStatic? ==> Exec(step, ctx, m, depth, fuel + 1) == Calls(r.value.0, depth, r.value.1.target)
  {
    r := step(ctx, m);
  }

  /**
   * RETURN does not leave the loop: it pops a frame and the loop goes on
   * while code remains. A void method whose code is RETURN, RETURN pops its
   * own frame and then its caller's, and throws when no caller is left.
   */
  lemma ReturnDoesNotLeaveTheLoop(ctx: Context, m: Machine, depth: nat, fuel: nat)
    requires MachineWellFormed(m) && m.pc == 0 && fuel >= 2
    requires ctx.codes == [Code(Control(RETURN)), Code(Control(RETURN))]
    ensures depth >= 2 ==> Exec(Step, ctx, m, depth, fuel) == Finished(m.(pc := 2), depth - 2)
    ensures depth < 2 ==> Exec(Step, ctx, m, depth, fuel) == Faulted(EmptyStack)
  {
    StepSound();
    var m1, m2 := m.(pc := 1), m.(pc := 2);
    InstructionFacts.ReturnPopsFrame(ctx, m);
    InstructionFacts.ReturnPopsFrame(ctx, m1);
    assert Exec(Step, ctx, m, depth, fuel) == Advance(Step, ctx, m, depth, fuel - 1);
    if depth > 0 {
      assert Advance(Step, ctx, m, depth, fuel - 1) == Exec(Step, ctx, m1, depth - 1, fuel - 1);
      assert Exec(Step, ctx, m1, depth - 1, fuel - 1) == Advance(Step, ctx, m1, depth - 1, fuel - 2);
      if depth > 1 {
        assert Advance(Step, ctx, m1, depth - 1, fuel - 2) == Exec(Step, ctx, m2, depth - 2, fuel - 2);
      }
    }
  }

  /**
   * A machine stays well formed when the heap grows under it and the cursor
   * moves: what a call does to the caller's frame.
   */
  lemma HeapGrowthKeepsMachine(m: Machine, m': Machine)
    requires MachineWellFormed(m) && HeapWellFormed(m'.arrays) && |m.arrays| <= |m'.arrays|
    requires m'.stack == m.stack && m'.locals == m.locals
    ensures MachineWellFormed(m')
  {
  }

  /** The machine a call starts its callee on: an empty operand stack, max_locals null locals, the cursor at pc. */
  function EntryMachine(callee: MethodInfo, pc: int, arrays: seq<ArrayOop>): (m: Machine)
    requires |callee.attributes| == 1 && callee.attributes[0].maxLocals >= 0
    ensures HeapWellFormed(arrays) ==> MachineWellFormed(m)
  {
    Machine([], seq(callee.attributes[0].maxLocals, _ => None), pc, arrays)
  }

  /** Caching a class under a new name adds it to the classes the loader holds, and nothing else. */
  lemma ValuesOfUpdate(before: map<string, InstanceKlass>, name: string, klass: InstanceKlass)
    requires name !in before
    ensures before[name := klass].Values == before.Values + {klass}
  {
    var after := before[name := klass];
    forall k | k in before.Values
      ensures k in after.Values
    {
      var n :| n in before && before[n] == k;
      assert after[n] == k;
    }
    assert after[name] == klass;
  }

  /* ----------------------------------------------------------------- */
  /* The virtual machine                                               */
  /* ----------------------------------------------------------------- */

  /** The current frame's objects are in place and hold well-formed slots. */
  ghost predicate FrameReady(f: JavaVFrame, heapSize: nat)
    reads f, f.locals, f.stack, f.locals.locals
  {
    && f.Valid()
    && AllWellFormed(f.stack.container) && SlotsInHeap(f.stack.container, heapSize)
    && AllWellFormed(f.locals.locals[..]) && SlotsInHeap(f.locals.locals[..], heapSize)
  }

  /**
   * The interpreter's state: the thread, the boot class loader, the Java
   * runtime of the host, and the arrays NEWARRAY created.
   */
  class Vm {
    const thread: JavaThread
    const loader: BootClassLoader
    const host: Host
    /** The instruction semantics the loop applies: Semantics.Step. */
    const step: StepFn
    var arrays: seq<ArrayOop>
    /** Every class the loader has cached, with its constant pool and its method array. */
    ghost var klasses: set<InstanceKlass>
    ghost var pools: set<ConstantPool>
    ghost var methodArrays: set<array?<Option<MethodInfo>>>

    /** A machine whose loader has not loaded anything yet. */
    constructor (thread: JavaThread, loader: BootClassLoader, host: Host)
      requires loader.classLoaderData == map[]
      ensures this.thread == thread && this.loader == loader && this.host == host && arrays == []
      ensures step == Step && Valid()
    {
      step := Step;
      StepSound();
      this.thread := thread;
      this.loader := loader;
      this.host := host;
      arrays := [];
      klasses := {};
      pools := {};
      methodArrays := {};
    }

    /** The classes the loader holds. */
    ghost function Klasses(): set<InstanceKlass>
      reads loader
    {
      loader.classLoaderData.Values
    }

    /**
     * The step is sound, every array is well formed, and every class the
     * loader holds has the shape the parser gives it.
     */
    ghost predicate Valid()
      reads this, loader, klasses, pools, methodArrays
    {
      && Sound(step) && HeapWellFormed(arrays)
      && forall k :: k in Klasses() ==>
           k in klasses && k.constantPool in pools && k.methods in methodArrays && k.Valid()
    }

    /** A method of a loaded class, in the shape the parser gives every method. */
    ghost predicate Runnable(callee: MethodInfo)
      reads this, loader
    {
      && callee.belongKlass in Klasses()
      && callee.belongKlass.MethodValid(callee)
    }

    /** The frames run reads from and writes to. */
    ghost function TopObjects(): set<object>
      reads thread
    {
      if thread.stack == [] then {}
      else
        var f := thread.stack[|thread.stack| - 1];
        if f.locals.locals == null then {f.stack} else {f.stack, f.locals.locals}
    }

    /** What the loop reads from the code attribute and the class's constant pool. */
    function ContextOf(callee: MethodInfo): Context
      requires |callee.attributes| == 1 && callee.belongKlass.constantPool.tag != null
      reads callee.attributes[0].code.codes, callee.belongKlass.constantPool, callee.belongKlass.constantPool.tag
    {
      var pool := callee.belongKlass.constantPool;
      Context(callee.attributes[0].code.codes[..], pool.tag[..], pool.dataMap, host)
    }

    /** The frame, the method's cursor and the heap, as the machine Step runs on. */
    ghost function Snapshot(f: JavaVFrame, code: BytecodeStream): Machine
      requires f.locals.locals != null
      reads this, f, f.locals, f.stack, f.locals.locals, code
    {
      Machine(f.stack.container, f.locals.locals[..], code.index, arrays)
    }

    /**
     * The loop is where Exec says: until the first call, `spec` is what Exec
     * gives from the current frame with `budget` steps and the thread holds
     * the first `depth` frames of `base`; after it, `spec` is that call.
     */
    ghost predicate Follows(spec: Outcome, ctx: Context, frame: JavaVFrame, code: BytecodeStream,
                            base: seq<JavaVFrame>, depth: nat, budget: nat, called: bool)
      reads this, thread, frame, frame.locals, frame.stack, frame.locals.locals, code
    {
      && Sound(step) && frame.locals.locals != null && MachineWellFormed(Snapshot(frame, code))
      && (!called ==> depth <= |base| && thread.stack == base[..depth])
      && (!called ==> spec == Exec(step, ctx, Snapshot(frame, code), depth, budget))
      && (called ==> spec.Calls?)
    }

    /**
     * What run returns agrees with `spec`: Exec's exception, the step
     * bound's, or normal completion with the frame, the cursor and the heap
     * Exec ends with and the thread holding the first frames of `base`.
     */
    ghost predicate Answers(spec: Outcome, r: Result<()>, frame: JavaVFrame, code: BytecodeStream, base: seq<JavaVFrame>)
      reads this, thread, frame, frame.locals, frame.stack, frame.locals.locals, code
    {
      && (spec.Faulted? ==> r == Err(spec.fault))
      && (spec.Exhausted? ==> r == Err(OutOfFuel))
      && (spec.Finished? ==>
            && r == Ok(()) && frame.locals.locals != null && Snapshot(frame, code) == spec.m
            && spec.depth <= |base| && thread.stack == base[..spec.depth])
    }

    /** Writes an instruction's new operand stack, locals, cursor and heap back into the objects. */
    method Commit(frame: JavaVFrame, code: BytecodeStream, next: Machine)
      requires frame.locals.locals != null && |next.locals| == frame.locals.locals.Length
      requires Valid() && HeapWellFormed(next.arrays)
      modifies this`arrays, frame.stack`container, frame.locals.locals, code`index
      ensures Snapshot(frame, code) == next && Valid()
    {
      var locals := frame.locals.locals;
      frame.stack.container := next.stack;
      forall i | 0 <= i < locals.Length {
        locals[i] := next.locals[i];
      }
      code.index := next.pc;
      arrays := next.arrays;
      assert locals[..] == next.locals;
    }

    /**
     * BytecodeInterpreter.run: the loop over the current frame. Until it
     * reaches an INVOKESTATIC into a loaded class, it does exactly what Exec
     * says: it stops where Exec stops, with the frame, the cursor and the
     * heap Exec ends with and one frame popped per RETURN. It may move any
     * code cursor (the callee's, or another method's through a call) and
     * writes only the current frame's operand stack and locals.
     */
    method Run(callee: MethodInfo, fuel: nat) returns (r: Result<()>)
      requires Valid() && Runnable(callee)
      requires thread.stack != [] ==> FrameReady(thread.stack[|thread.stack| - 1], |arrays|)
      modifies this, thread, loader, (iset s: BytecodeStream | s.codes.Length == s.length), TopObjects()
      ensures Valid() && |old(arrays)| <= |arrays|
      ensures old(thread.stack) == [] ==> r == Err(EmptyStack)
      ensures old(thread.stack) != [] ==>
        Answers(old(Exec(step, ContextOf(callee), Snapshot(thread.stack[|thread.stack| - 1], callee.attributes[0].code), |thread.stack|, fuel)),
                r, old(thread.stack[|thread.stack| - 1]), callee.attributes[0].code, old(thread.stack))
      decreases fuel, 1
    {
      var code := callee.attributes[0].code;
      if thread.stack == [] {
        return Err(EmptyStack);
      }
      var frame := thread.stack[|thread.stack| - 1];
      var ctx := ContextOf(callee);
      ghost var start := Snapshot(frame, code);
      ghost var depth: nat := |thread.stack|;
      ghost var called := false;
      ghost var spec := Exec(step, ctx, start, depth, fuel);
      var budget: nat := fuel;
      var stop: Option<Result<()>> := None;
      while stop.None? && !code.End()
        invariant Valid() && |old(arrays)| <= |arrays|
        invariant ctx.codes == code.codes[..]
        invariant frame.Valid() && budget <= fuel
        invariant stop.None? ==> Follows(spec, ctx, frame, code, old(thread.stack), depth, budget, called)
        invariant stop.Some? ==> Answers(spec, stop.value, frame, code, old(thread.stack))
        decreases budget, if stop.None? then 1 else 0
      {
        if budget == 0 {
          stop := Some(Err(OutOfFuel));
        } else {
          stop, depth, called := Tick(ctx, frame, code, budget, old(thread.stack), depth, called, spec);
          assert stop.None? ==> Follows(spec, ctx, frame, code, old(thread.stack), depth, budget - 1, called);
          budget := budget - 1;
        }
      }
      r := if stop.Some? then stop.value else Ok(());
    }

    /**
     * One turn of run's loop: the instruction at the cursor, written back
     * into the frame and the heap, then the frame popped on RETURN or the
     * callee run on INVOKESTATIC. While no call has been made, Exec with
     * one unit of fuel less describes what is left, or the fault is Exec's.
     */
    method Tick(ctx: Context, frame: JavaVFrame, code: BytecodeStream, budget: nat,
                ghost base: seq<JavaVFrame>, ghost depth: nat, ghost called: bool, ghost spec: Outcome)
      returns (stop: Option<Result<()>>, ghost depth': nat, ghost called': bool)
      requires Valid() && frame.Valid() && Follows(spec, ctx, frame, code, base, depth, budget, called)
      requires ctx.codes == code.codes[..] && code.codes.Length == code.length && !code.End()
      requires 0 < budget
      modifies this, thread, loader, (iset s: BytecodeStream | s.codes.Length == s.length), frame.stack, frame.locals.locals
      ensures Valid() && |old(arrays)| <= |arrays|
      ensures frame.Valid() && (stop.None? ==> Follows(spec, ctx, frame, code, base, depth', budget - 1, called'))
      ensures stop.Some? ==> stop.value.Err? && Answers(spec, stop.value, frame, code, base)
      decreases budget, 0
    {
      depth', called' := depth, called;
      var locals := frame.locals.locals;
      var m := Machine(frame.stack.container, locals[..], code.index, arrays);
      var result := Execute(step, ctx, m, depth, budget - 1);
      if result.Err? {
        return Some(Err(result.fault)), depth', called';
      }
      var next := result.value.0;
      Commit(frame, code, next);
      match result.value.1
      case Next =>
        stop := None;
      case PopFrame =>
        var popped := thread.PopFrame();
        if popped.Err? {
          return Some(Err(EmptyStack)), depth', called';
        }
        if !called {
          depth' := depth - 1;
        }
        stop := None;
      case CallStatic(target) =>
        called' := true;
        var invoked := Call(target, budget - 1, frame, code);
        stop := if invoked.Err? then Some(invoked) else None;
    }

    /** INVOKESTATIC from a frame of `code`: the call leaves the frame's stack and locals as they are. */
    method Call(target: MemberRef, fuel: nat, frame: JavaVFrame, code: BytecodeStream) returns (r: Result<()>)
      requires Valid() && frame.Valid() && MachineWellFormed(Snapshot(frame, code))
      modifies this, thread, loader, (iset s: BytecodeStream | s.codes.Length == s.length)
      ensures Valid() && |old(arrays)| <= |arrays|
      ensures MachineWellFormed(Snapshot(frame, code))
      decreases fuel, 4
    {
      ghost var before := Snapshot(frame, code);
      var callee, pushed;
      r, callee, pushed := InvokeStatic(target, fuel);
      HeapGrowthKeepsMachine(before, Snapshot(frame, code));
    }

    /** loadKlass(name) for a name the loader has not cached. */
    method LoadNew(name: string) returns (r: Result<InstanceKlass>)
      requires name !in loader.classLoaderData
      modifies loader
      ensures r.Err? ==> loader.classLoaderData == old(loader.classLoaderData)
      ensures r.Ok? ==>
        && fresh(r.value) && r.value.Valid()
        && loader.classLoaderData == old(loader.classLoaderData)[name := r.value]
    {
      r := loader.LoadKlass(name, true);
    }

    /**
     * The class INVOKESTATIC calls into: the one cached under the name, or
     * else the one loadKlass(name) reads and caches.
     */
    method FindOrLoad(name: string) returns (r: Result<InstanceKlass>)
      requires Valid()
      modifies loader, this`klasses, this`pools, this`methodArrays
      ensures Valid()
      ensures name in old(loader.classLoaderData) ==> r == Ok(old(loader.classLoaderData[name])) && loader.classLoaderData == old(loader.classLoaderData)
      ensures name !in old(loader.classLoaderData) && r.Err? ==> loader.classLoaderData == old(loader.classLoaderData)
      ensures name !in old(loader.classLoaderData) && r.Ok? ==>
        fresh(r.value) && loader.classLoaderData == old(loader.classLoaderData)[name := r.value]
      ensures r.Ok? ==> r.value in Klasses() && r.value.Valid()
    {
      var found := loader.FindLoadedKlass(name);
      if found.Some? {
        assert loader.classLoaderData[name] == found.value;
        return Ok(found.value);
      }
      ghost var before := loader.classLoaderData;
      r := LoadNew(name);
      if r.Ok? {
        ValuesOfUpdate(before, name, r.value);
        klasses := klasses + {r.value};
        pools := pools + {r.value.constantPool};
        methodArrays := methodArrays + {r.value.methods};
        forall k | k in Klasses()
          ensures k in klasses && k.constantPool in pools && k.methods in methodArrays && k.Valid()
        {
          if k != r.value {
            assert k in old(Klasses());
          }
        }
      }
    }

    /**
     * getMethodID on a loaded class, where INVOKESTATIC treats a method it
     * does not find as an error.
     */
    method ResolveMethod(klass: InstanceKlass, name: string, descriptor: string) returns (r: Result<MethodInfo>)
      requires Valid() && klass in Klasses()
      ensures r.Ok? ==> Runnable(r.value) && r.value.belongKlass == klass
      ensures
        var spec := LookupFrom(klass.methods[..], klass.constantPool.dataMap, name, descriptor, 0);
        && (spec.Err? ==> r == Err(spec.fault))
        && (spec == Ok(None) ==> r == Err(NoSuchMethod))
        && (spec.Ok? && spec.value.Some? ==> r.Ok? && klass.methods[spec.value.value] == Some(r.value))
    {
      var methodID := GetMethodID(klass, name, descriptor);
      if methodID.Err? {
        return Err(methodID.fault);
      }
      if methodID.value.None? {
        return Err(NoSuchMethod);
      }
      var callee := methodID.value.value;
      ghost var spec := LookupFrom(klass.methods[..], klass.constantPool.dataMap, name, descriptor, 0);
      ghost var slot := spec.value.value;
      assert klass.methods[slot] == Some(callee) && klass.MethodValid(callee);
      return Ok(callee);
    }

    /**
     * The method INVOKESTATIC names, in the class cached or loaded under its
     * dotted name: a class that cannot be loaded, a method that is not there
     * and the lookup's exceptions all fail.
     */
    method FindStatic(target: MemberRef) returns (r: Result<MethodInfo>)
      requires Valid()
      modifies loader, this`klasses, this`pools, this`methodArrays
      ensures Valid()
      ensures r.Ok? ==> Runnable(r.value)
      ensures var name := Replace(target.className, '/', '.');
        && (name in old(loader.classLoaderData) ==> loader.classLoaderData == old(loader.classLoaderData))
        && (name !in old(loader.classLoaderData) ==>
              || loader.classLoaderData == old(loader.classLoaderData)
              || (name in loader.classLoaderData && fresh(loader.classLoaderData[name])
                  && loader.classLoaderData == old(loader.classLoaderData)[name := loader.classLoaderData[name]]))
        && (name !in loader.classLoaderData ==> r.Err?)
      ensures var name := Replace(target.className, '/', '.');
        name in loader.classLoaderData ==>
          var k := loader.classLoaderData[name];
          var spec := LookupFrom(k.methods[..], k.constantPool.dataMap, target.name, target.descriptor, 0);
          && (spec.Err? ==> r == Err(spec.fault))
          && (spec == Ok(None) ==> r == Err(NoSuchMethod))
          && (spec.Ok? && spec.value.Some? ==> r.Ok? && k.methods[spec.value.value] == Some(r.value))
    {
      var name := Replace(target.className, '/', '.');
      var found := FindOrLoad(name);
      if found.Err? {
        return Err(found.fault);
      }
      r := ResolveMethod(found.value, target.name, target.descriptor);
    }

    /**
     * The INVOKESTATIC case for a class the interpreter loads itself: find
     * the class by its dotted name, loading it if it is not cached; look the
     * method up; reset its cursor; call it. The run of a static callee starts
     * at the first instruction, in a new frame of max_locals null locals and
     * an empty operand stack on top of the caller's frames.
     */
    method InvokeStatic(target: MemberRef, fuel: nat) returns (r: Result<()>, callee: Option<MethodInfo>, frame: JavaVFrame?)
      requires Valid()
      modifies this, thread, loader, (iset s: BytecodeStream | s.codes.Length == s.length)
      ensures Valid() && |old(arrays)| <= |arrays|
      ensures callee.None? ==> r.Err? && frame == null && thread.stack == old(thread.stack)
      ensures callee.Some? ==>
        && |callee.value.attributes| == 1 && callee.value.attributes[0].maxLocals >= 0
        && callee.value.belongKlass.constantPool.tag != null
      ensures callee.Some? && !callee.value.IsStatic() ==> r == Err(NotStatic) && frame == null && thread.stack == old(thread.stack)
      ensures callee.Some? && callee.value.IsStatic() ==>
        && frame != null && fresh(frame) && frame.ownerMethod == callee
        && Answers(Exec(step, ContextOf(callee.value), EntryMachine(callee.value, 0, old(arrays)), |old(thread.stack)| + 1, fuel),
                   r, frame, callee.value.attributes[0].code, old(thread.stack) + [frame])
      decreases fuel, 3
    {
      var found := FindStatic(target);
      if found.Err? {
        return Err(found.fault), None, null;
      }
      callee := Some(found.value);
      found.value.attributes[0].code.Reset();
      r, frame := CallStaticMethod(found.value, fuel);
    }

    /**
     * callStaticMethod: a method without ACC_STATIC throws; otherwise a new
     * frame with the method's max_locals null locals and an empty operand
     * stack is pushed and the method is run from where its cursor stands.
     */
    method CallStaticMethod(callee: MethodInfo, fuel: nat) returns (r: Result<()>, frame: JavaVFrame?)
      requires Valid() && Runnable(callee)
      modifies this, thread, loader, (iset s: BytecodeStream | s.codes.Length == s.length)
      ensures Valid() && |old(arrays)| <= |arrays|
      ensures callee.belongKlass.constantPool.tag != null
      ensures !callee.IsStatic() ==> r == Err(NotStatic) && frame == null && thread.stack == old(thread.stack)
      ensures callee.IsStatic() ==>
        && frame != null && fresh(frame) && frame.ownerMethod == Some(callee)
        && Answers(Exec(step, ContextOf(callee), EntryMachine(callee, old(callee.attributes[0].code.index), old(arrays)), |old(thread.stack)| + 1, fuel),
                   r, frame, callee.attributes[0].code, old(thread.stack) + [frame])
      decreases fuel, 2
    {
      if !callee.IsStatic() {
        return Err(NotStatic), null;
      }
      var attribute := callee.attributes[0];
      var pushed := new JavaVFrame.WithOwner(attribute.maxLocals, callee);
      ghost var ctx := ContextOf(callee);
      ghost var entry := EntryMachine(callee, attribute.code.index, arrays);
      assert pushed.locals.locals[..] == entry.locals;
      assert Snapshot(pushed, attribute.code) == entry;
      thread.PushFrame(pushed);
      r := Run(callee, fuel);
      assert ContextOf(callee) == ctx;
      frame := pushed;
    }
  }
}
