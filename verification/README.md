# IR capture and jit extension class vtables, modelled in Dafny

This project models two small pieces of Numba's old extension-type compiler and
proves properties of them.

- `ir_capture.dfy` (module `IrCapture`) covers `numba/annotate/ir_capture.py`.
  - `LlvmIrBuilder` is a class wrapping an IR builder. Each result of a
    forwarded builder call is appended to `captured[pos]`: a map from source
    position to the sequence of captured instructions. `pos` is the position
    last set by `UpdatePos`.
  - `GetAnnotations` walks the positions in ascending order with two nested
    loops and an IR line counter. It fills `linenomap` (position to IR line
    numbers) and `linemap` (IR line number to instruction text).
  - `GetAnnotations` is proved equal to the specification function
    `Annotations`. That function is built from `SortedPositions`, `Flatten`,
    `LineNumbers` and `LineMap`.
  - Lemmas about `Annotations` state what the numbering promises:
    - lines 1..N are numbered consecutively;
    - one list per position with captures, as long as its capture list and
      increasing;
    - capture order is followed;
    - smaller positions get smaller numbers;
    - every line belongs to exactly one position.
- `jitclass.dfy` (module `JitClass`) covers `numba/exttypes/jitclass.py`.
  - `InheritMethod` looks up a slot of the parent's method-pointer list.
  - `CompileSlot` and `CompileSlots` give the meaning of `compile_methods` as
    a fold over the method table. `JitExtensionCompiler.CompileMethods` is the
    loop that mutates the class dictionary and the `lfunc` fields of the
    `Method` objects, proved against that fold.
  - `Descriptor` is the getter/setter pair built by `create_descr`, over a
    `NativeAttributes` record.
  - `CreateExtension` is the flag clean-up plus the four phases, run in order.
- `wrappers.dfy` holds the `Option` and `Result` types the two modules share.

The compilation pipeline, the parent class's method table and the compiler
phases are foreign to this code. They enter as parameters:
- `run` maps a function environment to its compiled output, or to `None` when
  the pipeline raises;
- `parentPointers` is the parent's `(name, pointer)` list;
- `raises` says which exception, if any, each phase raises.

## Model

| member | source | states |
|---|---|---|
| IrCapture.LlvmIrBuilder.constructor | numba/annotate/ir_capture.py:15-17 | The wrapper holds the given builder, no position is set yet and nothing is captured. |
| IrCapture.LlvmIrBuilder.UpdatePos | numba/annotate/ir_capture.py:19-20 | The position becomes `p`; together with `Emit` every later capture is recorded under `p`. |
| IrCapture.LlvmIrBuilder.Lookup | numba/annotate/ir_capture.py:22-25 | A name the wrapped builder lacks raises. A non-callable builder attribute is returned unchanged and a callable one becomes an emitter. Nothing is captured (no state may change). |
| IrCapture.LlvmIrBuilder.Emit | numba/annotate/ir_capture.py:27-30 | A forwarded call returns exactly the builder's result. That result is appended to the end of the current position's list, every other position's list is unchanged, no list is ever empty, and an unset position raises without capturing. |
| IrCapture.SortedPositionsSorted | numba/annotate/ir_capture.py:42 | The positions are walked in strictly ascending order, each captured position exactly once. |
| IrCapture.SortedPositionsUnique | numba/annotate/ir_capture.py:42 | Any strictly ascending listing of the captured positions is the order used, so the walk order is fully determined. |
| IrCapture.GetAnnotations | numba/annotate/ir_capture.py:36-49 | The loop over sorted positions and their instructions, with its running line counter, produces exactly `Annotations(captured, toText)`. |
| IrCapture.LinemapNumbersInstructions | numba/annotate/ir_capture.py:40-48 | The keys of `linemap` are exactly 1..N, N being the number of captured instructions. Line k holds the text of the k-th instruction of the position-sorted flattening, and the `Source` carries no annotations. |
| IrCapture.LinenomapShape | numba/annotate/ir_capture.py:43-44 | Exactly the positions with captured instructions have a list of line numbers. Each list has one number per captured instruction and is strictly increasing. |
| IrCapture.LinenomapFollowsCaptureOrder | numba/annotate/ir_capture.py:43-45 | The j-th line number of a position is the line holding the text of the j-th instruction captured there. |
| IrCapture.LinenomapOrderedByPosition | numba/annotate/ir_capture.py:42-46 | Every line number given to a smaller position is below every line number given to a larger one. |
| IrCapture.LinenomapPartitionsLines | numba/annotate/ir_capture.py:43-46 | Every IR line number appears in the list of some position, and in the list of only one. |
| JitClass.InheritMethod | numba/exttypes/jitclass.py:75-87 | Inheriting succeeds exactly when the parent has a pointer list, the slot exists and its name is the requested one; it then returns that slot's pointer. No list and a missing slot each raise their own error. |
| JitClass.InheritMethodFindsSlot | numba/exttypes/jitclass.py:84-87 | Inheriting returns `ptr` if and only if the parent's slot at that index is `(method_name, ptr)`. |
| JitClass.InheritSlotAsWrittenNeverSucceeds | numba/exttypes/jitclass.py:91-94 | As written, the inherited branch of `compile_methods` raises on every input, and after a successful lookup it raises for the undefined `method_pointers`. |
| JitClass.InheritSlotAsWrittenCounterexample | numba/exttypes/jitclass.py:92-93 | A parent holding `("area", 7)` in slot 0 lets `area` be inherited at slot 0, yet the branch as written raises. |
| JitClass.InheritSlotRecordsParentSlot | numba/exttypes/jitclass.py:91-94 | The corrected branch succeeds exactly when inheriting does and appends the parent's slot itself to the recorded list; otherwise it raises the lookup's error. |
| JitClass.CompileSlotsErrorSticks | numba/exttypes/jitclass.py:89-109 | Once a slot raises, the walk stops: later slots change nothing. |
| JitClass.CompileSlotsReplaceOnlyDefinedEntries | numba/exttypes/jitclass.py:90-109 | The class dictionary keeps its keys. An entry only changes from a method still to compile into that same method's compiled result, carrying the recorded wrapper. Only methods the class dictionary holds under their own name are compiled, so an inherited method never is. Every recorded compilation is the pipeline's output for that method's own function environment. |
| JitClass.CompileSlotsTouchOnlyWalkedNames | numba/exttypes/jitclass.py:89-108 | The walk compiles only methods whose name some walked slot of the method table carries. A class dictionary entry under a name that no walked slot carries keeps its initial value, so by `CompileMethods` such a method's `lfunc` fields are unchanged too. |
| JitClass.CompletedWalkHandlesEverySlot | numba/exttypes/jitclass.py:90-109 | After a walk that raised nothing, a method missing from the class dictionary was found under its name in the parent's slot of the same index, and that slot was recorded. Such a method was not compiled, so by `CompileMethods` its `lfunc` fields are unchanged. A defined method was compiled and its entry now holds its compiled result. |
| JitClass.JitExtensionCompiler.CompileMethods | numba/exttypes/jitclass.py:89-109 | The class dictionary, the recorded slots and the raised error are those of the walk `CompileSlots`. A compiled method's `lfunc` and `lfunc_pointer` are the pipeline's output, and every other method's fields are unchanged. |
| JitClass.JitExtensionCompiler.CompileSlotAt | numba/exttypes/jitclass.py:90-109 | One iteration of the loop for the method in slot `i` is exactly `CompileSlot`. A method compiled now gets its `lfunc` and `lfunc_pointer` set to the pipeline's output, and every other method keeps its fields. |
| JitClass.Descriptor.Get | numba/exttypes/jitclass.py:124-125 | The getter reads the descriptor's own field of the native record, raising when it is missing. |
| JitClass.Descriptor.Set | numba/exttypes/jitclass.py:126-127 | The setter writes the value into the descriptor's own field and changes no other field. |
| JitClass.SetThenGet | numba/exttypes/jitclass.py:120-128 | Getting after setting through the same descriptor returns the value set, and every other field reads as before. |
| JitClass.RunPhasesInOrder | numba/exttypes/jitclass.py:150-153 | Phases are attempted as a prefix of the given order. A phase is attempted only after all earlier ones succeeded. The run completes exactly when no phase raises, and otherwise stops with the exception of the last phase attempted. |
| JitClass.CreateExtension | numba/exttypes/jitclass.py:134-155 | Any `llvm_module` flag is removed. Infer, finalize_tables, validate and compile are attempted in that order, and no phase runs after one raises. The result is compile's extension type exactly when no phase raises, and otherwise the exception of the first phase that raised. |

## Left out

- Source positions are integers here. The Python code accepts any sortable key, and the order on keys is all that matters.
- The wrapped builder's attributes are a map from name to a plain value or an operation. Python consults `__getattr__` only for names the wrapper itself lacks, and that resolution order is not modelled.
- The arguments of a forwarded builder call are not modelled. `Emit` receives the builder's result, because the call has already run when the capture happens.
- `IrCapture.LlvmIrBuilder.Emit`: with no position set, Python looks `pos` up through `__getattr__` on the wrapped builder. That usually raises `AttributeError`. It is modelled as the error `PositionUnset`, and the case of a builder that has a `pos` attribute is not modelled.
- `str(instr)` is the parameter `toText`. `Source` and `SourceIntermediate` are plain constructors, and their other behaviour is not part of this model.
- `pipeline.run_env` is the oracle `run`. The func_env's `lfunc`, `translator.lfunc_pointer` and `numba_wrapper_func` are the fields of `Compiled`.
- `utils.get_method_pointers` is the parameter `parentPointers`. The other parts of the extension compiler are not part of this model: the JitExtensionCompiler constructor from `compileclass`, `typesystem.JitExtensionType`, `signatures.JitMethodMaker`, `compileclass.AttributesInheriter`, `virtual.StaticVTabBuilder` and the validators.
- The bodies of `infer`, `finalize_tables`, `validate` and `compile` are foreign. Each phase's effect is only whether it raises (the oracle `raises`), and compile's result is the opaque `extensionType`.
- `JitAttributeBuilder.finalize` (the `ordering.extending` attribute order), struct offsets, alignment and the vtable's memory shape are computed outside the shown code and are not modelled.
- `logger.debug` output is not modelled.
- `create_extension` pops `llvm_module` from the caller's flag dictionary in place. The model returns the new dictionary instead.
- `create_descr` builds a Python `property`. The model is a `Descriptor` value with `Get` and `Set` methods over a `NativeAttributes` record of named fields. The ctypes type conversion performed by `setattr` on the struct is not modelled.
- A `class_dict` entry under a table method's name that is not a method still to compile makes `compile_methods` fail on `method.py_func`. This covers a plain attribute or an already compiled result. It is modelled as the error `NotAMethod`, and whether a compiled result object happens to have `py_func` is not modelled.
- Python `assert` statements are modelled as always checked, that is, not run under `-O`.
- `JitClass.CompileSlotsReplaceOnlyDefinedEntries` requires that every method entry of the class dictionary is stored under the method's own name, because the source writes the result under `method.name`. The code that builds the class dictionary guarantees this, but that code is not part of this model.
- `JitClass.CompileSlotsTouchOnlyWalkedNames` and `JitClass.CompletedWalkHandlesEverySlot` have the same requirement, and the latter speaks only about walks that raised nothing.
- `JitClass.JitExtensionCompiler.CompileMethods` records inherited slots in the compiler's `methodPointers` list, following the corrected branch (see Findings). It does not reproduce the `NameError` of the code as written.

## Findings

| source | as written | input that shows it | evidently intended | confidence | as-written member | corrected member |
|---|---|---|---|---|---|---|
| numba/exttypes/jitclass.py:93 | The inherited branch appends to `method_pointers`, a name defined neither in `compile_methods` nor in the module, so it raises `NameError` right after a successful lookup. | Parent method pointers `[("area", 7)]`; method `area` at slot 0, absent from `class_dict`. | Record `("area", 7)` in the compiler's list of method pointers and continue with the next slot. | high; not executed | JitClass.InheritSlotAsWrittenCounterexample | JitClass.InheritSlotRecordsParentSlot |
