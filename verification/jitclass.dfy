/**
 * Populating the virtual method table of a `@jit` extension class, the
 * attribute descriptors over its native attribute record, and the phase
 * sequence that builds the extension type.
 *
 * The compilation pipeline, the parent class's method table and the
 * phases run by `create_extension` are not visible here: they enter as
 * parameters (an oracle per call) or as opaque values.
 */
module JitClass {
  import opened Wrappers

  /** An address in the virtual method table. */
  type Pointer = nat

  /** Opaque results of compiling a method. */
  datatype LFunc = LFunc(id: nat)
  datatype WrapperFunc = WrapperFunc(id: nat)
  /** The (opaque) function environment a method is compiled in. */
  datatype FuncEnv = FuncEnv(id: nat)

  /** What the compilation pipeline leaves in a function environment. */
  datatype Compiled = Compiled(lfunc: LFunc, lfuncPointer: Pointer, wrapperFunc: WrapperFunc)

  /** One vtable slot: a method name and the pointer to its code. */
  datatype Slot = Slot(name: string, pointer: Pointer)

  /** The ways populating the vtable can fail (Python exceptions). */
  datatype JitError =
    | NoParentPointers
    | SlotOutOfRange(slot: nat)
    | SlotNameMismatch(slot: nat, expected: string, found: string)
    | UndefinedName(name: string)
    | NotAMethod(name: string)
    | NoFuncEnv(name: string)
    | CompilationFailed(name: string)

  // ------------------------------------------------------------------
  // inherit_method
  // ------------------------------------------------------------------

  /**
   * The pointer the parent class stores in slot `slotIdx` of its method
   * table, which must be recorded under `methodName`.
   */
  function InheritMethod(parentPointers: Option<seq<Slot>>, methodName: string, slotIdx: nat): (r: Result<Pointer, JitError>)
    ensures parentPointers.None? ==> r == Err(NoParentPointers)
    ensures parentPointers.Some? && slotIdx >= |parentPointers.value| ==> r == Err(SlotOutOfRange(slotIdx))
    ensures r.Ok? <==> parentPointers.Some? && slotIdx < |parentPointers.value| && parentPointers.value[slotIdx].name == methodName
    ensures r.Ok? ==> r.value == parentPointers.value[slotIdx].pointer
  {
    match parentPointers
    case None => Err(NoParentPointers)
    case Some(slots) =>
      if slotIdx >= |slots| then Err(SlotOutOfRange(slotIdx))
      else if slots[slotIdx].name != methodName then Err(SlotNameMismatch(slotIdx, methodName, slots[slotIdx].name))
      else Ok(slots[slotIdx].pointer)
  }

  /** Inheriting succeeds with `ptr` exactly when the parent's slot is `(methodName, ptr)`. */
  lemma InheritMethodFindsSlot(parentPointers: Option<seq<Slot>>, methodName: string, slotIdx: nat, ptr: Pointer)
    ensures InheritMethod(parentPointers, methodName, slotIdx) == Ok(ptr) <==>
      parentPointers.Some? && slotIdx < |parentPointers.value| && parentPointers.value[slotIdx] == Slot(methodName, ptr)
  {
  }

  /**
   * The inherited branch of `compile_methods` as written: once the pointer
   * is found, it is appended to a name that is not defined in the method,
   * so the branch always raises.
   */
  function InheritSlotAsWritten(parentPointers: Option<seq<Slot>>, methodName: string, slotIdx: nat): Result<seq<Slot>, JitError>
  {
    match InheritMethod(parentPointers, methodName, slotIdx)
    case Err(e) => Err(e)
    case Ok(_) => Err(UndefinedName("method_pointers"))
  }

  /** The inherited branch as intended: the found `(name, pointer)` pair is recorded. */
  function InheritSlot(pointers: seq<Slot>, parentPointers: Option<seq<Slot>>, methodName: string, slotIdx: nat): Result<seq<Slot>, JitError>
  {
    match InheritMethod(parentPointers, methodName, slotIdx)
    case Err(e) => Err(e)
    case Ok(ptr) => Ok(pointers + [Slot(methodName, ptr)])
  }

  /** As written, no method is ever inherited successfully. */
  lemma InheritSlotAsWrittenNeverSucceeds(parentPointers: Option<seq<Slot>>, methodName: string, slotIdx: nat)
    ensures InheritSlotAsWritten(parentPointers, methodName, slotIdx).Err?
    ensures InheritMethod(parentPointers, methodName, slotIdx).Ok? ==>
      InheritSlotAsWritten(parentPointers, methodName, slotIdx) == Err(UndefinedName("method_pointers"))
  {
  }

  /** A parent with `area` in slot 0: inheriting `area` at slot 0 still raises. */
  lemma InheritSlotAsWrittenCounterexample()
    ensures InheritMethod(Some([Slot("area", 7)]), "area", 0) == Ok(7)
    ensures InheritSlotAsWritten(Some([Slot("area", 7)]), "area", 0) == Err(UndefinedName("method_pointers"))
  {
  }

  /**
   * The corrected branch succeeds exactly when the parent's slot carries
   * the method's name, and then appends that slot to the table.
   */
  lemma InheritSlotRecordsParentSlot(pointers: seq<Slot>, parentPointers: Option<seq<Slot>>, methodName: string, slotIdx: nat)
    ensures var r := InheritSlot(pointers, parentPointers, methodName, slotIdx);
      r.Ok? <==> parentPointers.Some? && slotIdx < |parentPointers.value| && parentPointers.value[slotIdx].name == methodName
    ensures var r := InheritSlot(pointers, parentPointers, methodName, slotIdx);
      r.Ok? ==> r.value == pointers + [parentPointers.value[slotIdx]]
    ensures var r := InheritSlot(pointers, parentPointers, methodName, slotIdx);
      r.Err? ==> r == Err(InheritMethod(parentPointers, methodName, slotIdx).error)
  {
  }

  // ------------------------------------------------------------------
  // compile_methods, as a function of the state it starts from
  // ------------------------------------------------------------------

  /** A method of the extension class; compiling it fills in its `lfunc` fields. */
  class Method {
    const name: string
    var lfunc: Option<LFunc>
    var lfuncPointer: Option<Pointer>

    constructor (name: string)
      ensures this.name == name && lfunc == None && lfuncPointer == None
    {
      this.name := name;
      lfunc := None;
      lfuncPointer := None;
    }
  }

  /** A `class_dict` value: a method still to compile, its compiled result, or another attribute. */
  datatype ClassEntry =
    | MethodDef(def: Method)
    | MethodResult(def: Method, wrapper: WrapperFunc)
    | Attribute(value: nat)

  /** The `class_dict` entry of every method is stored under the method's own name. */
  predicate WellKeyed(classDict: map<string, ClassEntry>)
  {
    forall k :: k in classDict && !classDict[k].Attribute? ==> classDict[k].def.name == k
  }

  /**
   * The state `compile_methods` works on: the class dictionary, the
   * inherited vtable slots, the outputs recorded on the compiled methods and
   * the exception raised, if any.
   */
  datatype Progress = Progress(
    classDict: map<string, ClassEntry>,
    pointers: seq<Slot>,
    compiled: map<Method, Compiled>,
    error: Option<JitError>)

  /** One iteration of `compile_methods`: slot `i`, holding method `m`. */
  function CompileSlot(m: Method, i: nat, parentPointers: Option<seq<Slot>>, funcEnvs: map<Method, FuncEnv>,
                       run: FuncEnv -> Option<Compiled>, st: Progress): Progress
  {
    if st.error.Some? then st
    else if m.name !in st.classDict then
      match InheritSlot(st.pointers, parentPointers, m.name, i)
      case Ok(pointers) => st.(pointers := pointers)
      case Err(e) => st.(error := Some(e))
    else
      match st.classDict[m.name]
      case MethodDef(def) =>
        if def !in funcEnvs then st.(error := Some(NoFuncEnv(m.name)))
        else (
          match run(funcEnvs[def])
          case None => st.(error := Some(CompilationFailed(m.name)))
          case Some(out) =>
            st.(classDict := st.classDict[def.name := MethodResult(def, out.wrapperFunc)],
                compiled := st.compiled[def := out]))
      case _ => st.(error := Some(NotAMethod(m.name)))
  }

  /** The first `n` iterations of `compile_methods`, started from `init`. */
  function CompileSlots(methods: seq<Method>, n: nat, parentPointers: Option<seq<Slot>>, funcEnvs: map<Method, FuncEnv>,
                        run: FuncEnv -> Option<Compiled>, init: Progress): Progress
    requires n <= |methods|
  {
    if n == 0 then init
    else CompileSlot(methods[n - 1], n - 1, parentPointers, funcEnvs, run,
                     CompileSlots(methods, n - 1, parentPointers, funcEnvs, run, init))
  }

  /** Once an iteration raises, later ones change nothing. */
  lemma {:induction false} CompileSlotsErrorSticks(methods: seq<Method>, k: nat, n: nat, parentPointers: Option<seq<Slot>>,
                                                  funcEnvs: map<Method, FuncEnv>, run: FuncEnv -> Option<Compiled>, init: Progress)
    requires k <= n <= |methods|
    requires CompileSlots(methods, k, parentPointers, funcEnvs, run, init).error.Some?
    ensures CompileSlots(methods, n, parentPointers, funcEnvs, run, init) == CompileSlots(methods, k, parentPointers, funcEnvs, run, init)
  {
    if n > k {
      CompileSlotsErrorSticks(methods, k, n - 1, parentPointers, funcEnvs, run, init);
    }
  }

  /**
   * Every recorded compilation is the pipeline's output for that method's
   * own function environment.
   */
  predicate CompiledByRun(compiled: map<Method, Compiled>, funcEnvs: map<Method, FuncEnv>, run: FuncEnv -> Option<Compiled>)
  {
    forall d :: d in compiled ==> d in funcEnvs && run(funcEnvs[d]) == Some(compiled[d])
  }

  /**
   * Each `class_dict` entry of `after` is the one in `before`, or the
   * compiled result of the same method, whose wrapper is the recorded one.
   */
  predicate EntriesReplacedByResults(before: map<string, ClassEntry>, after: map<string, ClassEntry>, compiled: map<Method, Compiled>)
  {
    after.Keys == before.Keys &&
    forall k :: k in before ==>
      after[k] == before[k] ||
      (before[k].MethodDef? && after[k].MethodResult? && after[k].def == before[k].def &&
       before[k].def in compiled && after[k].wrapper == compiled[before[k].def].wrapperFunc)
  }

  /**
   * Only methods whose own name holds them as a method to compile, in the
   * class dictionary the walk started from, are ever compiled.
   */
  predicate CompiledOnlyDefined(init: map<string, ClassEntry>, compiled: map<Method, Compiled>)
  {
    forall d :: d in compiled ==> d.name in init && init[d.name] == MethodDef(d)
  }

  /**
   * What holds of every state the walk reaches from `init`: entries are keyed
   * by their method's name, only defined methods are compiled, each with the
   * pipeline's output for its own function environment, and an entry is
   * either the initial one or that compiled result.
   */
  predicate Reachable(init: Progress, st: Progress, funcEnvs: map<Method, FuncEnv>, run: FuncEnv -> Option<Compiled>)
  {
    WellKeyed(init.classDict) && WellKeyed(st.classDict) && CompiledByRun(st.compiled, funcEnvs, run) &&
    CompiledOnlyDefined(init.classDict, st.compiled) &&
    EntriesReplacedByResults(init.classDict, st.classDict, st.compiled) &&
    forall k :: k in init.classDict && st.classDict[k].MethodDef? ==> st.classDict[k] == init.classDict[k]
  }

  /**
   * One iteration keeps `Reachable`. The case analysis in the body is not
   * needed for soundness, but without it the proof costs about three times
   * as much.
   */
  lemma CompileSlotKeepsInvariants(m: Method, i: nat, parentPointers: Option<seq<Slot>>, funcEnvs: map<Method, FuncEnv>,
                                   run: FuncEnv -> Option<Compiled>, init: Progress, st: Progress)
    requires Reachable(init, st, funcEnvs, run)
    ensures Reachable(init, CompileSlot(m, i, parentPointers, funcEnvs, run, st), funcEnvs, run)
  {
    var next := CompileSlot(m, i, parentPointers, funcEnvs, run, st);
    if st.error.None? && m.name in st.classDict && st.classDict[m.name].MethodDef? {
      var def := st.classDict[m.name].def;
      if def in funcEnvs && run(funcEnvs[def]).Some? {
        var out := run(funcEnvs[def]).value;
        assert def.name == m.name;
        assert next.classDict == st.classDict[m.name := MethodResult(def, out.wrapperFunc)];
        assert next.compiled == st.compiled[def := out];
        forall k | k in init.classDict
          ensures next.classDict[k] == init.classDict[k] ||
            (init.classDict[k].MethodDef? && next.classDict[k].MethodResult? && next.classDict[k].def == init.classDict[k].def &&
             init.classDict[k].def in next.compiled && next.classDict[k].wrapper == next.compiled[init.classDict[k].def].wrapperFunc)
        {
          if k != m.name && st.classDict[k] != init.classDict[k] {
            var d := init.classDict[k].def;
            assert d.name == k;
            assert d != def;
          }
        }
      }
    }
  }

  /**
   * After any number of iterations from a well-keyed dictionary, the keys
   * are unchanged, entries are only replaced by the compiled result of the
   * method they held, only methods defined in the class are compiled (an
   * inherited one never is), and every recorded compilation comes from the
   * pipeline run on that method's own function environment.
   */
  lemma {:induction false} CompileSlotsReplaceOnlyDefinedEntries(methods: seq<Method>, n: nat, parentPointers: Option<seq<Slot>>,
                                                                 funcEnvs: map<Method, FuncEnv>, run: FuncEnv -> Option<Compiled>, init: Progress)
    requires n <= |methods|
    requires WellKeyed(init.classDict) && init.compiled == map[]
    ensures Reachable(init, CompileSlots(methods, n, parentPointers, funcEnvs, run, init), funcEnvs, run)
  {
    if n > 0 {
      CompileSlotsReplaceOnlyDefinedEntries(methods, n - 1, parentPointers, funcEnvs, run, init);
      CompileSlotKeepsInvariants(methods[n - 1], n - 1, parentPointers, funcEnvs, run, init,
                                 CompileSlots(methods, n - 1, parentPointers, funcEnvs, run, init));
    }
  }

  /**
   * The walk over the first `n` slots compiles only methods some walked slot
   * names, and a class dictionary entry under a name no walked slot carries
   * is left as it was.
   */
  lemma {:induction false} CompileSlotsTouchOnlyWalkedNames(methods: seq<Method>, n: nat, parentPointers: Option<seq<Slot>>,
                                                            funcEnvs: map<Method, FuncEnv>, run: FuncEnv -> Option<Compiled>, init: Progress)
    requires n <= |methods|
    requires WellKeyed(init.classDict) && init.compiled == map[]
    ensures var st := CompileSlots(methods, n, parentPointers, funcEnvs, run, init);
      forall d :: d in st.compiled ==> exists j :: 0 <= j < n && methods[j].name == d.name
    ensures var st := CompileSlots(methods, n, parentPointers, funcEnvs, run, init);
      forall k :: k in init.classDict && (forall j :: 0 <= j < n ==> methods[j].name != k) ==>
        k in st.classDict && st.classDict[k] == init.classDict[k]
  {
    if n > 0 {
      var st := CompileSlots(methods, n - 1, parentPointers, funcEnvs, run, init);
      var next := CompileSlots(methods, n, parentPointers, funcEnvs, run, init);
      var m := methods[n - 1];
      assert next == CompileSlot(m, n - 1, parentPointers, funcEnvs, run, st);
      CompileSlotsTouchOnlyWalkedNames(methods, n - 1, parentPointers, funcEnvs, run, init);
      CompileSlotsReplaceOnlyDefinedEntries(methods, n - 1, parentPointers, funcEnvs, run, init);
      forall d | d in next.compiled
        ensures exists j :: 0 <= j < n && methods[j].name == d.name
      {
        if d in st.compiled {
          var j :| 0 <= j < n - 1 && methods[j].name == d.name;
        } else {
          assert st.classDict[m.name].def.name == m.name;
          assert methods[n - 1].name == d.name;
        }
      }
      forall k | k in init.classDict && (forall j :: 0 <= j < n ==> methods[j].name != k)
        ensures k in next.classDict && next.classDict[k] == init.classDict[k]
      {
        assert methods[n - 1].name != k;
        if m.name in st.classDict && st.classDict[m.name].MethodDef? {
          assert st.classDict[m.name].def.name == m.name;
        }
      }
    }
  }

  /**
   * What a completed walk has done for slot `j`, holding `m`: a method
   * missing from the class dictionary was found under its own name in the
   * parent's slot `j`, that slot was recorded and the method was not
   * compiled; a defined method was compiled and its entry holds the
   * compiled result.
   */
  predicate SlotHandled(m: Method, j: nat, parentPointers: Option<seq<Slot>>, init: map<string, ClassEntry>, st: Progress)
  {
    if m.name !in init then
      parentPointers.Some? && j < |parentPointers.value| && parentPointers.value[j].name == m.name &&
      parentPointers.value[j] in st.pointers && m !in st.compiled
    else
      init[m.name].MethodDef? && init[m.name].def in st.compiled && m.name in st.classDict &&
      st.classDict[m.name] == MethodResult(init[m.name].def, st.compiled[init[m.name].def].wrapperFunc)
  }

  /** An iteration that does not raise keeps what earlier iterations did for their slots. */
  lemma StepKeepsSlotHandled(mj: Method, j: nat, m: Method, i: nat, parentPointers: Option<seq<Slot>>,
                             funcEnvs: map<Method, FuncEnv>, run: FuncEnv -> Option<Compiled>, init: Progress, st: Progress)
    requires Reachable(init, st, funcEnvs, run)
    requires SlotHandled(mj, j, parentPointers, init.classDict, st)
    requires CompileSlot(m, i, parentPointers, funcEnvs, run, st).error.None?
    ensures SlotHandled(mj, j, parentPointers, init.classDict, CompileSlot(m, i, parentPointers, funcEnvs, run, st))
  {
  }

  /** An iteration that does not raise handles its own slot. */
  lemma StepHandlesSlot(m: Method, i: nat, parentPointers: Option<seq<Slot>>,
                        funcEnvs: map<Method, FuncEnv>, run: FuncEnv -> Option<Compiled>, init: Progress, st: Progress)
    requires Reachable(init, st, funcEnvs, run)
    requires CompileSlot(m, i, parentPointers, funcEnvs, run, st).error.None?
    ensures SlotHandled(m, i, parentPointers, init.classDict, CompileSlot(m, i, parentPointers, funcEnvs, run, st))
  {
  }

  /**
   * A walk over the first `n` slots that raised nothing has inherited every
   * method missing from the class dictionary from the parent's slot of the
   * same index, and compiled every defined one, replacing its entry by the
   * compiled result.
   */
  lemma {:induction false} CompletedWalkHandlesEverySlot(methods: seq<Method>, n: nat, parentPointers: Option<seq<Slot>>,
                                                         funcEnvs: map<Method, FuncEnv>, run: FuncEnv -> Option<Compiled>, init: Progress)
    requires n <= |methods|
    requires WellKeyed(init.classDict) && init.compiled == map[]
    requires CompileSlots(methods, n, parentPointers, funcEnvs, run, init).error.None?
    ensures forall j :: 0 <= j < n ==>
      SlotHandled(methods[j], j, parentPointers, init.classDict, CompileSlots(methods, n, parentPointers, funcEnvs, run, init))
  {
    if n > 0 {
      var st := CompileSlots(methods, n - 1, parentPointers, funcEnvs, run, init);
      var next := CompileSlots(methods, n, parentPointers, funcEnvs, run, init);
      assert next == CompileSlot(methods[n - 1], n - 1, parentPointers, funcEnvs, run, st);
      CompletedWalkHandlesEverySlot(methods, n - 1, parentPointers, funcEnvs, run, init);
      CompileSlotsReplaceOnlyDefinedEntries(methods, n - 1, parentPointers, funcEnvs, run, init);
      forall j | 0 <= j < n
        ensures SlotHandled(methods[j], j, parentPointers, init.classDict, next)
      {
        if j < n - 1 {
          StepKeepsSlotHandled(methods[j], j, methods[n - 1], n - 1, parentPointers, funcEnvs, run, init, st);
        } else {
          StepHandlesSlot(methods[n - 1], n - 1, parentPointers, funcEnvs, run, init, st);
        }
      }
    }
  }

  // ------------------------------------------------------------------
  // The vtable populator
  // ------------------------------------------------------------------

  /** The part of the extension compiler that populates the method table. */
  class JitExtensionCompiler {
    /** The method table, in slot order. */
    const methods: seq<Method>
    const funcEnvs: map<Method, FuncEnv>
    /** What the parent class's method table holds, if it has one. */
    const parentPointers: Option<seq<Slot>>
    var classDict: map<string, ClassEntry>
    /** The inherited slots recorded so far. */
    var methodPointers: seq<Slot>

    constructor (methods: seq<Method>, funcEnvs: map<Method, FuncEnv>, parentPointers: Option<seq<Slot>>,
                 classDict: map<string, ClassEntry>)
      ensures this.methods == methods && this.funcEnvs == funcEnvs && this.parentPointers == parentPointers
      ensures this.classDict == classDict && methodPointers == []
    {
      this.methods := methods;
      this.funcEnvs := funcEnvs;
      this.parentPointers := parentPointers;
      this.classDict := classDict;
      methodPointers := [];
    }

    /** What running `compile_methods` from the current state produces. */
    function Outcome(run: FuncEnv -> Option<Compiled>): Progress
      reads this
    {
      CompileSlots(methods, |methods|, parentPointers, funcEnvs, run, Progress(classDict, methodPointers, map[], None))
    }

    /**
     * Walks the method table in slot order: a method missing from
     * `classDict` is inherited from the parent's slot of the same index; a
     * present one is compiled in its own function environment, gets its
     * `lfunc` fields set and its entry replaced by the compiled result. The
     * first failure ends the walk and is returned.
     */
    method CompileMethods(run: FuncEnv -> Option<Compiled>) returns (r: Option<JitError>)
      modifies this`classDict, this`methodPointers, funcEnvs.Keys
      ensures var st := old(Outcome(run));
        classDict == st.classDict && methodPointers == st.pointers && r == st.error
      ensures var st := old(Outcome(run));
        forall d :: d in funcEnvs ==>
          if d in st.compiled then d.lfunc == Some(st.compiled[d].lfunc) && d.lfuncPointer == Some(st.compiled[d].lfuncPointer)
          else d.lfunc == old(d.lfunc) && d.lfuncPointer == old(d.lfuncPointer)
    {
      ghost var init := Progress(classDict, methodPointers, map[], None);
      ghost var compiled: map<Method, Compiled> := map[];
      r := None;
      var i := 0;
      while i < |methods| && r.None?
        invariant 0 <= i <= |methods|
        invariant Progress(classDict, methodPointers, compiled, r) == CompileSlots(methods, i, parentPointers, funcEnvs, run, init)
        invariant forall d :: d in compiled ==> d in funcEnvs
        invariant forall d :: d in funcEnvs ==>
          if d in compiled then d.lfunc == Some(compiled[d].lfunc) && d.lfuncPointer == Some(compiled[d].lfuncPointer)
          else d.lfunc == old(d.lfunc) && d.lfuncPointer == old(d.lfuncPointer)
      {
        r, compiled := CompileSlotAt(methods[i], i, run, compiled);
        i := i + 1;
      }
      if r.Some? {
        CompileSlotsErrorSticks(methods, i, |methods|, parentPointers, funcEnvs, run, init);
      }
    }

    /**
     * One iteration of `CompileMethods`, for method `m` in slot `i`:
     * `compiled` records the compilations done so far. A method compiled
     * now gets its `lfunc` fields set to the pipeline's output; every other
     * method keeps its fields and its record.
     */
    method CompileSlotAt(m: Method, i: nat, run: FuncEnv -> Option<Compiled>, ghost compiled: map<Method, Compiled>)
      returns (r: Option<JitError>, ghost compiled': map<Method, Compiled>)
      requires forall d :: d in compiled ==> d in funcEnvs
      modifies this`classDict, this`methodPointers, funcEnvs.Keys
      ensures Progress(classDict, methodPointers, compiled', r) ==
        CompileSlot(m, i, parentPointers, funcEnvs, run, Progress(old(classDict), old(methodPointers), compiled, None))
      ensures forall d :: d in compiled' ==> d in funcEnvs
      ensures forall d :: d in funcEnvs ==>
        (d in compiled' && d.lfunc == Some(compiled'[d].lfunc) && d.lfuncPointer == Some(compiled'[d].lfuncPointer)) ||
        (d.lfunc == old(d.lfunc) && d.lfuncPointer == old(d.lfuncPointer) &&
         (d in compiled' <==> d in compiled) && (d in compiled ==> compiled'[d] == compiled[d]))
    {
      r := None;
      compiled' := compiled;
      if m.name !in classDict {
        var inherited := InheritMethod(parentPointers, m.name, i);
        match inherited
        case Ok(pointer) =>
          methodPointers := methodPointers + [Slot(m.name, pointer)];
        case Err(e) =>
          r := Some(e);
      } else {
        match classDict[m.name]
        case MethodDef(def) =>
          if def !in funcEnvs {
            r := Some(NoFuncEnv(m.name));
          } else {
            var out := run(funcEnvs[def]);
            match out
            case None =>
              r := Some(CompilationFailed(m.name));
            case Some(env) =>
              def.lfunc := Some(env.lfunc);
              def.lfuncPointer := Some(env.lfuncPointer);
              classDict := classDict[def.name := MethodResult(def, env.wrapperFunc)];
              compiled' := compiled[def := env];
          }
        case MethodResult(_, _) =>
          r := Some(NotAMethod(m.name));
        case Attribute(_) =>
          r := Some(NotAMethod(m.name));
      }
    }
  }

  // ------------------------------------------------------------------
  // create_descr
  // ------------------------------------------------------------------

  /** The native attribute record of an extension object. */
  class NativeAttributes<V> {
    var fields: map<string, V>

    constructor (fields: map<string, V>)
      ensures this.fields == fields
    {
      this.fields := fields;
    }
  }

  /** Reading a field; a missing one raises (`None` here). */
  function GetField<V>(fields: map<string, V>, name: string): Option<V>
  {
    if name in fields then Some(fields[name]) else None
  }

  /** A property whose getter and setter go to field `attrName` of the native record. */
  datatype Descriptor = Descriptor(attrName: string)
  {
    method Get<V>(attrs: NativeAttributes<V>) returns (r: Option<V>)
      ensures r == GetField(attrs.fields, attrName)
    {
      r := GetField(attrs.fields, attrName);
    }

    method Set<V>(attrs: NativeAttributes<V>, value: V)
      modifies attrs
      ensures attrs.fields == old(attrs.fields)[attrName := value]
    {
      attrs.fields := attrs.fields[attrName := value];
    }
  }

  /** Setting through a descriptor and then getting through it yields the value set; other fields stay. */
  lemma SetThenGet<V>(d: Descriptor, fields: map<string, V>, value: V)
    ensures GetField(fields[d.attrName := value], d.attrName) == Some(value)
    ensures forall other :: other != d.attrName ==> GetField(fields[d.attrName := value], other) == GetField(fields, other)
  {
  }

  // ------------------------------------------------------------------
  // create_extension
  // ------------------------------------------------------------------

  datatype Phase = Infer | FinalizeTables | Validate | Compile

  /** The order in which `create_extension` runs the compiler's phases. */
  const PhaseOrder: seq<Phase> := [Infer, FinalizeTables, Validate, Compile]

  /** The phases attempted, in order, and the exception that ended the run, if any. */
  datatype PhaseRun<E> = PhaseRun(attempted: seq<Phase>, error: Option<E>)

  /** Runs `phases` in order; `raises` says which exception, if any, a phase raises. */
  function RunPhases<E>(phases: seq<Phase>, raises: Phase -> Option<E>): PhaseRun<E>
  {
    if phases == [] then PhaseRun([], None)
    else match raises(phases[0])
      case Some(e) => PhaseRun([phases[0]], Some(e))
      case None =>
        var rest := RunPhases(phases[1..], raises);
        PhaseRun([phases[0]] + rest.attempted, rest.error)
  }

  /**
   * The phases are attempted as a prefix of `phases`: each one is attempted
   * only when all before it succeeded, and the run either completes or stops
   * at the first phase that raises, with that phase's exception.
   */
  lemma {:induction false} RunPhasesInOrder<E>(phases: seq<Phase>, raises: Phase -> Option<E>)
    ensures var r := RunPhases(phases, raises);
      |r.attempted| <= |phases| && r.attempted == phases[..|r.attempted|]
    ensures var r := RunPhases(phases, raises);
      forall k :: 0 <= k < |r.attempted| - 1 ==> raises(r.attempted[k]).None?
    ensures var r := RunPhases(phases, raises);
      r.error.None? <==> r.attempted == phases && forall k :: 0 <= k < |phases| ==> raises(phases[k]).None?
    ensures var r := RunPhases(phases, raises);
      r.error.Some? ==> r.attempted != [] && r.error == raises(r.attempted[|r.attempted| - 1])
  {
    if phases != [] && raises(phases[0]).None? {
      RunPhasesInOrder(phases[1..], raises);
      var rest := RunPhases(phases[1..], raises);
      assert phases == [phases[0]] + phases[1..];
      forall k | 0 <= k < |phases| - 1
        ensures phases[1..][k] == phases[k + 1]
      {
      }
    }
  }

  /** The extension type `create_extension` returns, and the flags it leaves behind. */
  datatype Extension<F, T, E> = Extension(flags: map<string, F>, phases: PhaseRun<E>, result: Result<T, E>)

  /**
   * Drops any `llvm_module` flag, runs infer, finalize_tables, validate and
   * compile in that order, and returns what compile returns.
   */
  function CreateExtension<F, T, E>(flags: map<string, F>, raises: Phase -> Option<E>, extensionType: T): (r: Extension<F, T, E>)
    ensures r.flags == flags - {"llvm_module"}
    ensures r.result.Ok? <==> forall k :: 0 <= k < |PhaseOrder| ==> raises(PhaseOrder[k]).None?
    ensures r.result.Ok? ==> r.result.value == extensionType && r.phases.attempted == PhaseOrder
    ensures |r.phases.attempted| <= |PhaseOrder| && r.phases.attempted == PhaseOrder[..|r.phases.attempted|]
    ensures forall k :: 0 <= k < |r.phases.attempted| - 1 ==> raises(r.phases.attempted[k]).None?
    ensures r.result.Err? ==>
      r.phases.attempted != [] && raises(r.phases.attempted[|r.phases.attempted| - 1]) == Some(r.result.error)
  {
    RunPhasesInOrder(PhaseOrder, raises);
    var run := RunPhases(PhaseOrder, raises);
    Extension(flags - {"llvm_module"}, run, if run.error.Some? then Err(run.error.value) else Ok(extensionType))
  }
}
