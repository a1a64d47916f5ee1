# Verified models of 3-MOVE

3-MOVE is a compiler, a bytecode machine, a garbage collector, a checkpointer
and a green-thread scheduler in C, with an object database on top. This project
models the parts in which something can go subtly wrong and proves what they
are for.

Each imperative component appears twice: as functions that say what it
computes, and as methods that compute it the way the C code does, on arrays,
maps and sequences that are changed step by step. The methods are proved equal
to the functions; the theorems are about the functions, and so hold of the
methods.

**Compiler and machine.** `Syntax`, `Scoping` and `Emission` describe
expressions, names in parse order and the code they become; `Compiler` emits
that code in one pass into a growing buffer, with forward jumps, block sizes and
argument counts patched in afterwards. `Machine` is the instruction set, as a
function on registers, stack and heap; `Interpreter` is `run_vm` on a register
record and a stack array. `Semantics` evaluates expressions directly, with
scopes as maps from names to values. `Agreement`, `Execution`, `Returns` and
`Correctness` prove that emitted code does what direct evaluation says, through
calls, loops, closures and assignments to captured variables; `Programs` states
it for whole programs. `Operators` says what the operators compute in terms of
integers, bits and relations, and `Activations` what calls, messages, accesses to
objects and exceptions do to every register, both without the machine's own
functions. For forms that stand for calls of library functions, slot accesses and
messages, `Requests` proves what is asked for, with which arguments in which order,
whatever the parts are, and `Library`, with `Keeping`, that these are the values
of direct evaluation. `Heights`, `Discipline`, `Blocks`, `Compiled` and `Safety`
prove that jumps land on instructions, that the stack is level at every jump
target, and that runs of compiled code keep to that; `Exceptions` follows runs
through exceptions, and `Launches` starts them from compiled programs. `Calls` is
about frames and continuations, `Quota` about the CPU quota. `Oddities` holds
behaviour one might not expect, each with its exact condition and an input.

**Checkpoints.** `Graphs` is the byte format; `RoundTrip` and `Checkpoints`
prove that loading what was saved gives an isomorphic graph; `Persist` is the
writer and the reader with their hash tables. `Closing` says what that means for
single objects, connections above all, with reachability by `Paths`. `Reading`,
`Restarting` and `ThreadFiles` add the thread records that follow the database in
the same stream.

**Collector.** `Marking`, `Sweeping` and `Collecting`: recursive marking, the
weak symbol table emptied and rebuilt during the sweep, the chain of objects to
be finalized, and the heap size, with allocation, new symbols and writes between
collections. `Survival` reads it off by paths and object by object.

**Scheduler.** `Queues` and `Scheduling`: three doubly linked queues changed while
they are walked, the thread table and the counts. `Locks`: recursive object locks
with the scheduler's retry and the release at exit; `Holds` is about who gets a
lock and what unlocking gives back. `Barriers`: the barrier over a mutex and one
condition variable, one step for each time a participant holds the mutex.

**Objects.** `Chains` and `Tables`: hash tables with chains spliced in place.
`Slots`: inherited slots over the chained tables, assignment with copy-down.
`Contents`: locations and contents lists made of cells.

## What turned out otherwise than one might think

- Negation and complement also demand a number on the stack
  (`Oddities.UnaryLooksAtStack`), so that `-5` on its own reads below it
  (`Oddities.MinusFive`). Division by zero starts the handler one byte late
  (`Oddities.HandlerEntry`, `Oddities.HandlerMisread`), which is harmless exactly
  if its first instruction has one byte (`Oddities.ZeroDivisionPlaced`). Direct
  evaluation gives neither a value, so the correctness theorem does not speak of
  them.
- A `define` that is itself a function's body writes past the argument vector
  unless it names a parameter (`Oddities.BareDefine`, `Oddities.DefineBeyond`).
- The lock accounting survives a thread's exit exactly if the thread is not
  waiting for a held lock, never survives the killing of a waiter, and comes back
  from a checkpoint with a lock nobody can take (`Locks.ExitKeepsExactly`,
  `Locks.KillKeepsExactly`, `Locks.KilledWaiter`, `Locks.RestoredLocks`).
- A dead object that waits for finalization may point to freed memory
  (`Collecting.SentMayDangle`, `Collecting.SentDangles`); memory is sound again after it is taken back
  exactly if it does not (`Collecting.Collector.NextToFinalize`).
- The count in a hash table never goes down, so enumerating its keys leaves as
  many elements unset as there were removals (`Tables.HashTable.EnumerateKeys`).
- A number survives a checkpoint exactly if it fits thirty-two bits
  (`Checkpoints.NumbersKept`).

## Model

| member | source | states |
|---|---|---|
| Bytes.Be16Decodes | move/parser.c:214-222 | A displacement emitted as two bytes, high byte first, reads back as itself when it fits sixteen signed bits |
| Bytes.Be32Decodes | move/persist.c:157-160 | Four bytes written high byte first read back as the number modulo 2^32, and as its signed thirty-two bit value |
| Emission.GetLit | move/parser.c:186-209 | The index is one where the literal stands in the new pool, and the old pool is a prefix of the new one |
| Emission.Emit | move/parser.c:856-1228 | Compiling an expression only ever appends to the literal pool |
| Compiler.Buffer.Append | move/buffer.c:44-60 | The byte is added at the end and nothing else changes, also when the buffer has to grow by 128 bytes |
| Compiler.Buffer.Patch | move/parser.c:212-212 | One byte already emitted is replaced, the others stay |
| Compiler.Code.Resolve | move/parser.c:159-184 | The frame and offset found are those of the innermost scope that binds the name, at its first occurrence; none if no scope does |
| Compiler.Code.Bind | move/parser.c:142-157 | The name gets the offset behind the names the innermost scope has already |
| Compiler.Code.LitIndex | move/parser.c:186-209 | The walk along the literal list returns the place and pool that `GetLit` specifies |
| Compiler.Code.JumpHereFrom | move/parser.c:219-224 | Back-patching fills in the distance from behind the displacement to the current end, and touches no other byte |
| Compiler.Code.GenJumpTo | move/parser.c:225-226 | A backward jump is emitted with the negative distance from behind it to its target |
| Compiler.Code.Expr | move/parser.c:856-1228 | The one-pass emitter with its forward patches appends exactly the code, literals and scopes that `Emit` and `After` define, or fails exactly when some scope has more than 255 names |
| Compiler.Code.ShortCircuit | move/parser.c:746-792 | The code for short-circuit "and" and "or", with both jumps patched, is the specified one |
| Compiler.Code.Loop | move/parser.c:1111-1137 | The code for `while`, with one patched and one backward jump, is the specified one |
| Compiler.Code.Conditional | move/parser.c:1065-1109 | The code for `if`, with or without `else`, is the specified one |
| Compiler.Code.ElementSet | move/parser.c:434-468 | The argument vector first emitted for a reference is lengthened by patching when an assignment follows |
| Compiler.Code.AccessParts | move/parser.c:393-405 | Slot assignment, indexing and slot definition emit the specified code |
| Compiler.Code.Arguments | move/parser.c:348-377 | The vector length of a call is patched in once the arguments have been counted |
| Compiler.Code.Braces | move/parser.c:1139-1178 | A block's scope size is patched in from the names it has bound; more than 255 names fail |
| Compiler.Code.VectorLiteral | move/parser.c:549-584 | Vector literals push their elements and collect them, or load the one empty vector |
| Compiler.Code.MethodDefinition | move/parser.c:864-911 | `define method` emits the specified call of add-method |
| Compiler.Code.BindContinuation | move/parser.c:1194-1225 | `bind-cc` emits the specified call of call/cc |
| Compiler.Code.Body | move/parser.c:826-854 | A function body is compiled into a buffer and pool of its own, ended by OP_RET, and the outer ones are back afterwards |
| Compiler.Parse | move/parser.c:1231-1261 | The template of a top-level expression is the specified program; none exactly when compilation fails |
| Compiler.FitsCompiles | move/parser.c:1167-1169 | Whatever is within the limits is compiled successfully and within sixteen-bit positions |
| Correctness.CompilerCorrect | move/parser.c:638-792 | Whenever direct evaluation of an expression gives a value, running the emitted bytes from the first one reaches the byte just past the last with that value in the accumulator, every other register and the stack as they were, and the heap, globals and locals of direct evaluation |
| Correctness.CallCorrect | move/vm.c:753-756 | A function value applied to an argument vector comes back behind OP_APPLY with the value direct evaluation gives, the caller's registers restored, to any depth of calls |
| Keeping.EvalKeeps | move/parser.c:283-316 | Evaluating an expression leaves every vector that was there as it was, argument vectors under construction among them: a call fills and enters only the vector it has made |
| Library.RequestCorrect | move/parser.c:437-475 | For a[b], a[b] = c, define (a) x = b, define method, bind-cc and top-level define: where direct evaluation gives the parts values, the emitted bytes lead to OP_APPLY with the value of element-ref, element-set, add-slot, add-method, call/cc or define-global in the accumulator and exactly those values (and the name or the closure) in order in the vector on top of the stack, heap and globals agreeing |
| Library.LibraryCorrect | move/parser.c:437-475 | If that global is a function whose call has a value, the form's bytes reach the byte past the last with that value, stack and registers as they were |
| Library.MemberCorrect | move/parser.c:426-433 | For a.x and a:x the instruction for the name x is reached with the value of a in the accumulator |
| Library.SlotSetCorrect | move/parser.c:401-409 | For a.x = b the instruction that sets x is reached with the value of a on top of the stack and that of b in the accumulator |
| Library.SendCorrect | move/parser.c:283-322 | For a:x(es) and as(a):x(es) the send of x, of the right kind, is reached with the value of a in the accumulator and on the stack the vector that direct evaluation fills with the arguments |
| Requests.IndexAsks | move/parser.c:437-474 | Whatever the parts are and call: once the vector and, beyond the vector of arguments, the index have been computed, element-ref is applied to the two in this order |
| Requests.IndexSetAsks | move/parser.c:437-468 | The same for element-set with vector, index and new element |
| Requests.DefSlotAsks | move/parser.c:918-955 | add-slot is applied to the object, the slot's name and the value |
| Requests.DefMethodAsks | move/parser.c:863-916 | add-method is applied to the object, the method's name and a closure of the body over the current environment, `this` and effective user |
| Requests.DefineAsks | move/parser.c:1018-1029 | Outside all scopes, define-global is applied to the name and the value |
| Requests.BindCCAsks | move/parser.c:1197-1225 | call/cc is applied to a closure of the body, whose parameter is the name |
| Requests.SlotWritten | move/parser.c:401-409 | The slot instruction is reached with the first part's value on the stack and the second's in the accumulator |
| Requests.MemberRead | move/parser.c:324-345 | The slot or method instruction with the right name follows the object |
| Requests.UnaryNext | move/parser.c:582-604 | The operator follows its operand |
| Requests.ArgsStored | move/parser.c:295-316 | However many arguments, each is stored at its place: the vector ends up with their values in order |
| Requests.SendAsks | move/parser.c:283-322 | A message is sent to the value in front with the arguments in order, as OP_CALL or, for as(...), OP_CALL_AS |
| Requests.ApplyAsks | move/parser.c:350-388 | The value in front is applied to the arguments in order |
| Requests.CallAsks | move/parser.c:337-388 | A name bound in no scope: its global is applied to the arguments in order |
| Operators.Sums | move/vm.c:800-817 | Sum, difference (first minus second) and product leave the number with the low sixty-two bits of the integer result, which is the result itself where it fits |
| Operators.Concatenates | move/vm.c:805-808 | Plus on two strings or two vectors makes a new one with the elements of the first and then the second; two empty vectors give the shared one |
| Operators.Compares | move/vm.c:785-788 | A comparison gives `true` if and only if the relation holds between the two, first and second in this order |
| Operators.Equals | move/vm.c:775-783 | Equality and its negation compare any two values |
| Operators.Negates | move/vm.c:770-773 | `!` gives `true` for `false` and `false` for everything else |
| Operators.Quotient | move/vm.c:818-822 | The quotient is the q of x == q*y + r with r smaller than the divisor and zero or of the dividend's sign |
| Operators.Remainder | move/vm.c:823-827 | The remainder is that r, exactly |
| Operators.BitsCombined | move/vm.c:792-793 | And and or combine the two numbers bit by bit, for every bit, and stay within sixty-two |
| Operators.Unary | move/vm.c:790-791 | Negation and complement, number by number and bit by bit |
| Activations.MessageSent | move/vm.c:653-751 | A message is sent if and only if the receiver is an object with a method of that name that may be run and takes as many arguments as there are; it runs with the receiver as `this`, or with the sender's for as(...), its own code, literals and environment link, the arguments untouched, and the method's owner as effective user if and only if it is setuid |
| Activations.MessageRefused | move/vm.c:657-684 | Otherwise the handler is told why, the first reason that applies, with the message's name or the value at fault |
| Activations.FunctionApplied | move/vm.c:119-143 | A closure is entered if and only if it may be run and the count of arguments fits, with the object it was made in as `this` |
| Activations.PrimitiveApplied | move/vm.c:107-118 | A primitive runs if and only if its count of arguments fits, and takes them off the stack |
| Activations.HandlerCalled | move/vm.c:299-316 | The handler gets exception, argument, continuation and accumulator in this order, an empty stack and no frame to return to |
| Activations.SlotFetched | move/vm.c:458-487 | A slot is read if and only if the accumulator is an object and the effective user may |
| Activations.SlotAssigned | move/vm.c:514-552 | A slot of the pushed object is set to the accumulator, which stays, if and only if it may be |
| Activations.MethodBound | move/vm.c:614-641 | A method becomes a closure bound to its object if and only if it is found and may be captured |
| Activations.GlobalSet | move/vm.c:505-513 | Globals are set by privileged users only |
| Activations.ValuePushed | move/vm.c:52-60 | A push onto a full stack leaves one value and kills the thread |
| Activations.ElementFetched | move/vm.c:405-421 | An element is read if and only if the accumulator is a vector that has one there |
| Activations.FrameReplaced | move/vm.c:553-565 | Only privileged users put another frame in place, and only a frame |
| Scoping.LookupInnermost | move/parser.c:159-184 | A name resolves to the innermost scope that has it and its first place there, and to none if and only if no scope has it |
| Scoping.BoundExactly | move/parser.c:996-1005 | Behind an expression its scope has the names from before and those it defines itself, not those of inner blocks and bodies, none of them twice |
| Programs.ProgramCorrect | move/parser.c:1231-1261 | The template of a whole program, run on its own, stops with the value of direct evaluation, by falling off the end or by `return` |
| Returns.NoReturnNoRet | move/parser.c:1180-1192 | An expression without `return` outside its nested functions never returns from its function |
| Discipline.EmittedLevel | move/parser.c:856-1228 | For every expression form and every starting height: all jumps land on instruction starts of equal height, nothing below that height is popped, the code falls through at it, and every return stands at it if and only if no `return` is inside an operand or argument |
| Heights.Compose | move/parser.c:746-792 | Two pieces of code with level stacks, put one behind the other, are one such piece, their jumps into each other resolved |
| Compiled.BodyIsGood | move/parser.c:826-854 | Every compiled function body is a finished block: jumps inside it, heights agreeing, returns at height zero |
| Compiled.TemplateGood | move/parser.c:826-854 | So are the functions in its literal pool, to any depth |
| Compiled.LiteralsGood | move/parser.c:186-209 | Compiling adds only such functions to the pool |
| Blocks.Fetchable | move/vm.c:402-402 | At any reachable position of a finished block a whole, known instruction stands and its operands are on the stack |
| Blocks.JumpsInside | move/vm.c:758-768 | Every jump of a finished block, decoded from its two bytes, leads to an instruction start of the block at the same height |
| Blocks.FallsThrough | move/vm.c:382-838 | Every other instruction but the last is followed by one inside the block, at the height it leaves |
| Blocks.ReturnsLevel | move/vm.c:643-651 | Every OP_RET of a finished block, not only its last, stands at height zero |
| Safety.RunsSafely | move/vm.c:382-838 | From any safe state, in every state a run reaches until it raises or its thread dies of stack overflow, the instruction pointer is at an instruction start of a finished block and the stack is exactly as high as the block and the pending frames say |
| Safety.SafeFetches | move/vm.c:62-70 | In such a state a whole instruction is next and the stack holds every operand it pops |
| Safety.InstrKeeps | move/vm.c:382-838 | One instruction leads from such a state to such a state |
| Exceptions.RunsInPlace | move/vm.c:299-329 | Over any number of exceptions, quota expiry among them, the instruction pointer, in the registers and in every frame and continuation, stays at an instruction start of a finished block, as long as nothing is divided by zero |
| Exceptions.RaiseSurvives | move/vm.c:299-329 | Raising leads from such a state to such a state, with a closure or a primitive as handler, or the thread dies |
| Launches.ProgramIsGood | move/parser.c:1231-1261 | The template of a whole program within the limits is a finished block, and so are all functions in it |
| Launches.EnteredSafely | move/thread.c:218-218 | Applying a good function on an empty thread gives a safe state |
| Launches.ProgramsRunSafely | move/main.c:98-116 | A program compiled, closed over and applied on an empty thread keeps to the whole stack discipline until an exception is raised, and to its instructions beyond, short of a division by zero |
| Calls.FrameStays | move/vm.c:76-102 | Over any run without exceptions, continuations or frame-register writes, a frame stays on the chain until the return that restores exactly the registers it saved |
| Calls.CallsNest | move/vm.c:643-756 | Whatever a callee runs, to any depth: either it is still running or, the moment it returned, the caller had its code, next instruction, self, literals, environment, frame, method and effective uid back |
| Calls.CallSaves | move/vm.c:653-756 | A call, `as` call or application of a closure, setuid or not, saves those registers with the next instruction and pops one operand |
| Calls.CallCCCaptures | move/PRIM.system.c:184-197 | call/cc enters the closure with a continuation that holds the caller's frame and a copy of the live stack |
| Calls.ContinuationReturns | move/vm.c:144-153 | Applying a continuation to a value gives the registers, live stack and accumulator of a return of that value into its frame |
| Calls.ContinuationsLast | move/vm.c:840-854 | No series of turns, of whatever threads and with whatever exceptions, changes a continuation |
| Calls.ContinuationResumes | move/PRIM.system.c:184-197 | Once call/cc has entered its closure, then after any series of turns of any threads, exceptions and earlier applications included, applying the continuation to a value leads where the closure's return of that value with its entry stack height leads |
| Quota.QuotaBound | move/vm.c:386-396 | A thread that starts with quota q and renews neither handler nor quota gets at most q + 15000 turns of the loop, q without a handler, whatever its code, its exceptions and its scheduling |
| Quota.TurnCosts | move/vm.c:386-396 | Each turn uses up some of what is left, or the thread is dying |
| Quota.ExpiryWarnsOnce | move/vm.c:387-395 | With an executable four-argument closure as handler, expiry enters it on an empty stack with a fresh quota and no handler of its own |
| Quota.TurnTakesOne | move/vm.c:387-396 | A turn takes exactly one off a quota that is left, and nothing from a thread without limit |
| Quota.QuotaLasts | move/vm.c:386-396 | After n turns without an exception a thread that can go on has used exactly n of its quota |
| Quota.SliceEnds | move/vm.c:386-386 | A slice ends before its time exactly when the thread is dying or says `yield` |
| Interpreter.VmState.PushValue | move/vm.c:52-60 | Pushing on the array is pushing on the live stack; a full stack is cut to the new element and the thread dies |
| Interpreter.VmState.PopValue | move/vm.c:62-70 | Popping takes the last element of the live stack off; from an empty stack it takes what stands in the first place, and the thread dies |
| Interpreter.VmState.RestoreFrame | move/vm.c:87-96 | Every register the frame holds comes back, the others stay |
| Interpreter.VmState.VmRaise | move/vm.c:299-329 | The handler is entered with exception, argument, continuation and accumulator on an empty stack and without a frame, or the thread dies if there is none |
| Interpreter.VmState.GetCont | move/vm.c:840-854 | The new continuation holds the frame and a copy of the live stack, element by element |
| Interpreter.VmState.ApplyClosure | move/vm.c:104-157 | Primitives, closures and continuations are applied, and everything else is refused, as `Machine.Apply` specifies |
| Interpreter.VmState.CallWithCC | move/PRIM.system.c:184-197 | The closure is entered before the continuation is taken, which becomes its argument |
| Interpreter.VmState.Dispatch | move/vm.c:402-833 | Every instruction changes registers, stack array and heap as `Machine.Exec` specifies |
| Interpreter.VmState.ChargeQuota | move/vm.c:387-396 | The quota is charged before each instruction, and on expiry the handler is warned and removed |
| Interpreter.VmState.RunVm | move/vm.c:382-838 | One timeslice of the loop on registers and stack array is the specified number of turns, ends at a yield or death, and reports exactly whether the thread died |
| Interpreter.SlicesAreTurns | move/vm.c:382-838 | As long as nothing is raised, a timeslice is a run as the safety theorem speaks of it |
| Oddities.UnaryLooksAtStack | move/vm.c:790-791 | The emitted code of a negation or complement, once the operand has its value, gives the result if and only if the value is a number and some number happens to be pending on the stack; on an empty stack it reads below it |
| Oddities.MinusFive | move/vm.c:370-378 | The program `-5` reads below its empty stack |
| Oddities.HandlerEntry | move/vm.c:818-827 | An exception raised by an operator starts the handler at its second byte if and only if it is a division by zero, else at its first |
| Oddities.ZeroDivisionPlaced | move/vm.c:818-827 | After a division by zero a closure handler is at an instruction if and only if its first one is a single byte and not its last |
| Oddities.HandlerMisread | move/vm.c:818-827 | A handler that begins with a literal is entered at the literal's index, which reads as an element access |
| Oddities.BareDefine | move/parser.c:1000-1005 | A `define` that is itself a function's body gets a place inside the argument vector if and only if its name is a parameter |
| Oddities.DefineBeyond | move/parser.c:1000-1005 | The body `define x = 1` of a function without parameters writes beyond the argument vector |
| RoundTrip.SavedLoads | move/persist.c:145-237 | A value saved at any point of a stream loads back as its image, consumes exactly its bytes, and restores every object numbered meanwhile |
| RoundTrip.AllSavedLoad | move/persist.c:383-507 | The same for any list of roots through one handle |
| Checkpoints.AllFaithful | move/persist.c:107-125 | Numbers and addresses stay in one-to-one correspondence, and nothing is allocated that was not saved |
| Checkpoints.CheckpointRoundTrip | move/persist.c:145-237 | For every finite heap, cyclic and shared, and every list of roots: loading as many roots gives a graph isomorphic to everything reachable and nothing more, with the same kinds, flags, bytes and sharing, and leaves exactly what followed |
| Checkpoints.NumbersKept | move/persist.c:155-160 | A number comes back as it was if and only if it fits thirty-two bits |
| Closing.ConnectionsClosed | move/persist.c:195-236 | Every saved object comes back with its flags and bytes and each field in its place, pointers following the correspondence and numbers kept to thirty-two bits; every connection comes back with four empty slots |
| Closing.SavedIsReachable | move/persist.c:145-237 | Saved is exactly what a path of pointers leads to from a root, where no path goes on through a connection |
| Closing.LeftBehind | move/persist.c:219-221 | An object to which at most connections point is not saved |
| Persist.HashTable.Find | move/persist.c:79-105 | The chain walk finds the latest binding of the key, and nothing if there is none |
| Persist.Writer.constructor | move/persist.c:129-139 | A stream begins with signature and version, and numbering is empty |
| Persist.Writer.Save | move/persist.c:145-237 | The recursive writer appends exactly the bytes the specification gives, numbering objects in first-visit order |
| Persist.Reader.constructor | move/persist.c:253-270 | With the signature, version and data are told apart; without it the stream is rewound and taken for the old format |
| Persist.Reader.Load | move/persist.c:383-507 | The recursive reader reads what the specification reads, fails where it fails, and binds objects before their pointers are read |
| Persist.WriteFile | move/persist.c:129-145 | The file is signature, version and what saving the roots one after another writes |
| Persist.ReadFile | move/persist.c:253-275 | The roots and what follows them are what the specification reads from the file; the old format, another version and a stream that ends too soon give none |
| Persist.FilesRoundTrip | move/persist.c:129-270 | A file written for some roots, whatever follows it, reads back as an isomorphic graph and leaves what followed |
| Reading.LoadElsewhere | move/persist.c:383-507 | What loading gives depends neither on what follows in the stream nor on what earlier objects have become since |
| Restarting.ThreadCheckpoint | move/thread.c:445-518 | For every heap and thread list: what is read back is exactly the threads neither dying nor free of quota, in order, with numbers, ip, stack top, state and lock count, over one graph isomorphic to what symbol table and registers reach, in which only accumulators that said `yield` now say `undefined` |
| Restarting.KeptExactly | move/thread.c:454-455 | A thread is written as often as it is in the table if its state is neither dying nor free of quota, and never otherwise |
| Restarting.SettledExactly | move/thread.c:513-514 | In the register vectors of restarted threads whose first element says `yield` that element becomes `undefined`; no other element of any object changes |
| Restarting.ThreadsLoad | move/thread.c:481-518 | Reading the threads is reading their register vectors as further roots of the same handle |
| ThreadFiles.WriteThreads | move/thread.c:445-479 | The walk over the table writes the restartable threads in order and the end mark |
| ThreadFiles.ReadThreads | move/thread.c:485-517 | The loop reads what the specification reads, up to the end mark, and fails where it fails |
| ThreadFiles.RestartThreads | move/thread.c:186-233 | All threads read are registered and runnable, the last one first |
| ThreadFiles.NextNumberAbove | move/thread.c:492-493 | The next thread number exceeds every restored one and never falls |
| ThreadFiles.SavedCanStart | move/thread.c:449-475 | What a checkpoint of a scheduler holds is each thread in a queue that is restartable, once, under a number a new scheduler can use |
| Marking.MarkCloses | move/gc.c:155-206 | What marking reaches is closed under every field but a symbol's link |
| Marking.MarkLeast | move/gc.c:155-206 | Marking reaches nothing outside any closed set that holds the value |
| Collecting.CollectorExact | move/gc.c:155-206 | The survivors are the least set that holds what the roots and the symbols with a value reach, and the symbol table itself |
| Collecting.Collector.Protect | move/gc.c:76-89 | The variable is protected once more |
| Collecting.Collector.Unprotect | move/gc.c:91-113 | The latest protection of the variable is undone, others stay in order |
| Collecting.Collector.GetMem | move/gc.c:295-313 | A new object is listed first, unmarked, and counted; memory stays sound if the object points to listed objects |
| Collecting.Collector.NewSymbol | move/object.c:197-206 | A new symbol and its name are listed and counted, and the symbol becomes the first of the bucket its hash leads to |
| Collecting.Collector.Store | move/object.c:197-206 | Writing a field of a listed object keeps memory valid, and sound if and only if the value does not point to what is freed or waiting |
| Collecting.Collector.Assign | move/gc.c:76-89 | Writing a variable keeps memory valid, and sound if and only if it is not protected or the value does not point there |
| Collecting.Collector.NextToFinalize | move/gc.c:133-145 | The next dead object goes back to the object list and is counted; memory is sound again if and only if it does not point to what has been freed |
| Collecting.Collector.MarkObject | move/gc.c:155-206 | The recursive marking sets exactly the bits of the specification |
| Collecting.Collector.MarkTable | move/gc.c:226-243 | Symbols with a value are marked along the bucket chains, and every bucket is emptied |
| Collecting.Collector.SweepAll | move/gc.c:249-278 | The sweep over the object list leaves list, chain, bits, size and buckets of the specification |
| Collecting.Collector.Gc | move/gc.c:208-289 | After a collection the list holds exactly the survivors, all bits of listed objects are clear, no survivor or root points to a freed or waiting object, the recorded size is the sum of the listed sizes, and the thresholds double exactly when they should |
| Collecting.Conserved | move/gc.c:249-278 | Each object of the old list is in exactly one place: kept, freed, or waiting to be finalized with its flag cleared |
| Collecting.SymbolsRehashed | move/gc.c:263-268 | A bucket of the rebuilt table holds exactly the surviving symbols that hash to it, each once |
| Collecting.SentMayDangle | move/gc.c:252-259 | An object that waits to be finalized has a dangling pointer if and only if, before the collection, it pointed to an unreachable object without a finalizer |
| Collecting.SentDangles | move/conn.c:64-75 | A memory in which that happens: a dropped string connection, to be finalized, points to its dead string |
| Collecting.KeptIsReached | move/gc.c:208-278 | What a collection keeps is what every set closed under roots, live symbols and followed fields holds |
| Survival.KeptExactly | move/gc.c:155-243 | What a collection keeps is exactly what a path of pointers leads to from a protected variable, a symbol with a value or the symbol table, where a symbol's link to the next does not count and the table's own pointers count only if a variable leads to the table |
| Survival.FateOf | move/gc.c:249-278 | An object that is kept has its contents, all but a symbol's link; a dead one that wants finalizing is on the chain with its flag cleared and its contents as they were; any other is gone |
| Survival.SymbolFound | move/gc.c:263-268 | A kept symbol is in the bucket its hash leads to and in no other |
| Sweeping.SweepLists | move/gc.c:249-278 | Survivors and objects to finalize come out in the reverse of the old order, and the bits of all swept objects are clear |
| Sweeping.SweepSize | move/gc.c:247-277 | The size is rebuilt as the sum over the survivors |
| Sweeping.SweepBuckets | move/gc.c:263-268 | The bucket chains are rebuilt in place from the survivors |
| Queues.EnqKeeps | move/thread.c:60-74 | Pushing a thread that waits nowhere keeps all three doubly linked queues well formed and puts it at the front of its own |
| Queues.DeqKeeps | move/thread.c:76-91 | Taking a thread out, from any place, keeps all three queues well formed and the order of the others |
| Scheduling.InOneQueue | move/thread.c:93-132 | In every state a registered thread is in exactly one queue, once, and its queue field names that queue; no other thread is in any |
| Scheduling.Population | move/thread.c:520-541 | Going through the whole table meets exactly as many threads as the queues hold, which is the recorded count |
| Scheduling.Scheduler.Register | move/thread.c:93-104 | The thread is in its bucket, counted and first in the run queue; everything else stays |
| Scheduling.Scheduler.Deregister | move/thread.c:106-132 | The thread is out of its bucket, the count and its queue, whichever it was |
| Scheduling.Scheduler.Begin | move/thread.c:186-237 | A new thread gets the next number and is runnable |
| Scheduling.Scheduler.Restore | move/thread.c:186-233 | A restored thread keeps its number and the next number exceeds it |
| Scheduling.Scheduler.BlockThread | move/thread.c:403-413 | The current thread moves to the front of the block queue and says why; without one nothing happens |
| Scheduling.Scheduler.SleepThread | move/thread.c:415-426 | The current thread moves to the sleep queue with its wakeup time |
| Scheduling.Scheduler.Unblock | move/thread.c:428-439 | The thread is runnable and no longer yields |
| Scheduling.Scheduler.RunRunQueue | move/thread.c:239-275 | One pass gives a slice to exactly the threads that were runnable when it began, each once, in order, whatever they fork, wake, block or kill meanwhile; of the threads there were, exactly those found finished are out of table and queues when it ends |
| Scheduling.Scheduler.RunOne | move/thread.c:247-270 | One thread gets a slice; if it has finished, it is deregistered, and no other thread is lost |
| Scheduling.Scheduler.RunBlockedQueue | move/thread.c:277-325 | One pass wakes exactly the sleepers whose time has come, in front of what was runnable, and tries exactly the threads that were blocked, each once, in order, although they block again or leave; the branch for an invalid reason is never reached |
| Scheduling.WokenExactly | move/thread.c:281-290 | A sleeper is woken if and only if its time is not later than now; nobody else moves |
| Scheduling.Scheduler.TryOne | move/thread.c:297-322 | A lock waiter, successful or not, keeps its accumulator and reason; reads and accepts block again in front or are woken |
| Locks.MutualExclusion | move/PRIM.object.c:217-260 | After any run of start, lock, unlock, retry and exit in which nobody dies waiting for a held lock, an object's counter is the recursive count of its one holder and zero exactly if there is none |
| Locks.LockKeeps | move/PRIM.object.c:217-238 | Locking keeps that, although the count goes up before the lock is tried |
| Locks.UnlockKeeps | move/PRIM.object.c:240-260 | So does unlocking |
| Locks.RetryKeeps | move/thread.c:307-312 | So does a retry from the block queue |
| Holds.LockingHolds | move/PRIM.object.c:217-238 | From a state in which the accounting holds, a thread that holds no other object gets the lock if and only if no other thread holds it; its hold goes up by one, or it waits with its claim counted, and no other hold changes |
| Holds.UnlockingHolds | move/PRIM.object.c:240-260 | Unlocking a held object lowers that hold by exactly one and changes no other; anything else is refused and changes nothing |
| Holds.UnlockedOften | move/PRIM.object.c:240-260 | After as many unlocks as locks the counter is zero, no other hold has changed, and any running thread that holds nothing gets the object |
| Holds.RetryingHolds | move/thread.c:307-312 | A waiting thread gets the lock on a retry if and only if no other thread holds it, and waits on otherwise |
| Locks.ExitKeepsExactly | move/thread.c:256-259 | A thread's exit keeps it if and only if the thread is not waiting for a lock that is held |
| Locks.KillKeepsExactly | move/PRIM.misc.c:93-115 | Killing keeps it if and only if the killed thread does not wait for a lock |
| Locks.KilledWaiter | move/thread.c:256-259 | A run in which a killed waiter's exit lets two threads hold one lock |
| Locks.RestoredLocks | move/thread.c:224-226 | Re-locking after a restore restores the count, but leaves a lock that no thread, not even its holder, can take again |
| Locks.LockTable.LockMutex | move/recmutex.c:32-41 | The mutex is taken if it is free or one's own, and left alone otherwise |
| Locks.LockTable.UnlockMutex | move/recmutex.c:43-49 | The counter goes down to no less than zero, where the owner is forgotten |
| Locks.LockTable.UnlockObject | move/PRIM.object.c:240-260 | The primitive makes the specified step: another object than the one held is refused, and the hold ends with the last unlock |
| Locks.LockTable.RetryLock | move/thread.c:307-312 | The scheduler's retry for a waiting thread makes the specified step: the thread becomes runnable exactly if it gets the lock |
| Locks.LockTable.LockObject | move/PRIM.object.c:217-238 | The primitive makes the specified step: a second object is refused, a busy one blocks |
| Locks.LockTable.ExitThread | move/thread.c:256-259 | The loop releases as often as the thread has counted |
| Barriers.RoundsSeparated | move/barrier.c:57-89 | With as many participants as the threshold and no spurious wakeups, over every interleaving no participant has finished a hit that another has not started |
| Barriers.BetweenRounds | move/barrier.c:42-55 | When all are outside they have hit equally often and both counters are zero |
| Barriers.NeverStuck | move/barrier.c:57-89 | In every reachable state somebody can go on: no wakeup is lost |
| Barriers.Barrier.Hit | move/barrier.c:57-82 | Arriving either waits or, as the last one, wakes everybody and goes to sleep or ends the round |
| Barriers.Barrier.Resume | move/barrier.c:71-82 | The test after a wakeup leads back to waiting or on to sleep |
| Chains.SkipChain | move/hashtable.c:72-93 | Splicing a link out of a chain leaves the other links in order |
| Tables.HashTable.Get | move/hashtable.c:31-43 | The link found is the one filed under the key, null if there is none |
| Tables.HashTable.Put | move/hashtable.c:45-70 | The key leads to the new link, other keys are untouched, and the count goes up exactly for a new key |
| Tables.HashTable.Remove | move/hashtable.c:72-93 | The key is gone, other keys are untouched, and the count stays as it was |
| Tables.HashTable.EnumerateKeys | move/hashtable.c:95-111 | The vector is as long as the count; it begins with every key once, and exactly as many elements as there were removals are left unset |
| Tables.OverlaidHolds | move/hashtable.c:52-63 | A link that takes another's place keeps every chain whole |
| Slots.AssignmentSeen | move/PRIM.object.c:287-322 | After a permitted assignment on x, every object whose search comes to x before it finds the slot elsewhere sees the new value there with the old owner and flags, x among them, and no other lookup of any name from any object changes |
| Slots.Inherits | move/slot.c:42-76 | An object's own slot comes first, then what the first of its parents has or inherits, left to right, and none if none has it |
| Slots.RefusalChangesNothing | move/PRIM.object.c:301-314 | An assignment happens if and only if it is permitted and the slot is found; otherwise nothing changes |
| Slots.ObjectStore.FindSlot | move/slot.c:42-76 | On an acyclic parent graph the search through the chained tables ends with the first hit in depth-first, left-to-right order and its holder |
| Slots.ObjectStore.AddObject | move/object.c:50-61 | A new object gets its parents and a table of its own that holds nothing; no other table changes |
| Slots.ObjectStore.NewSlot | move/slot.c:28-40 | A new slot is filed in the object's chained table under its name with default flags, the given owner and no value, and every table stays whole |
| Slots.ObjectStore.DelSlot | move/slot.c:78-80 | The name is gone from the object's own table and nothing else changes |
| Slots.ObjectStore.SetSlot | move/PRIM.object.c:287-322 | Search, permission tests, assignment in place and copy-down are as specified |
| Contents.Containment | move/PRIM.object.c:482-528 | After any run of creations and moves, an object is in the contents of its location exactly once and in no other contents |
| Contents.ComesFirst | move/object.c:62-72 | A new object is at its owner and a moved one at its destination, first in the contents there; no other object's location changes |
| Contents.OthersKeepOrder | move/PRIM.object.c:482-500 | Moving an object disturbs the order of nothing else, in any list |
| Contents.ObjectTree.ContentsRemove | move/PRIM.object.c:482-500 | The first cell that holds the object is spliced out in place, and no other list is touched or shared |
| Contents.ObjectTree.MoveTo | move/PRIM.object.c:502-528 | The object leaves its old location's list and is first in the new one |
| Contents.ObjectTree.NewObject | move/object.c:50-78 | A new object is empty, at its owner, and first in the owner's contents |

## Left out

- The scanner and the grammar: expressions are trees, with tokens, precedence, semicolons and syntax errors already dealt with; the empty expression `;` is not among them.
- Symbols are taken as given: `newsym` compares only as many characters as the stored name has, so names and symbols are not one-to-one in the original.
- Sockets, file reading and writing, select and newline translation: resuming a read or accept in the scheduler is a nondeterministic outcome.
- Primitives, permission bits, method lookup and, inside the machine, slot access are parameters (`Machine.World`); where a theorem needs something of them it says so (`Safety.GoodWorld`, `Quota.Modest`, `Calls.Gentle`).
- Method lookup with a vector of parents, which does not end on a miss in the original (move/method.c:65-87).
- Collections during a run of the machine: the machine's heap only grows, and `gc_reach_safepoint` is not a step of it.
- The old machine-specific database format, which nothing writes: `Persist.Reader` recognises it and stops.
- String, time and random primitives, the main loop, the `.move` scripts and debug printing.
- Correctness.CompilerCorrect: slots, method references, sends, indexing, top-level `define`, `bind-cc`, unary minus and complement have no value in direct evaluation, because they go through primitives or lookup that are parameters, or behave as `Oddities` says; of these, `Library` and `Requests` say what is asked for with which values, and `Operators` what the two operators compute. The limits of `Limits` (code below 32768 bytes, 256 literals a block, operands that fit a byte, no local outside braces) are not checked by the original compiler either. It speaks of evaluations that give a value within the given fuel, and holds for every fuel.
- Library.RequestCorrect: ends where the library function is applied; what a primitive then does is a parameter. The closures that bind-cc and `define method` make are those of `Semantics`.
- Requests.IndexAsks: the index must leave the vector of arguments alone, as every expression does that direct evaluation covers (`Keeping.EvalKeeps`) and any program does that has no access to it; likewise for the other forms.
- Emission.Emit: its contract only says that the pool grows; that what it emits is what the compiler emits, and right, is in `Compiler.Code.Expr`, `Discipline.EmittedLevel` and `Correctness.CompilerCorrect`.
- Safety.RunsSafely: stack heights are followed up to the first exception; the continuation an exception handler gets stands at the raising instruction, whose operands may have been popped already, so that beyond it only positions are claimed (`Exceptions.RunsInPlace`).
- Exceptions.RunsInPlace: divisions by zero are outside the runs, because the handler may then start inside an instruction (`Oddities.ZeroDivisionPlaced`).
- Interpreter.VmState.RunVm: where the C code reads memory it does not own, stops the process or raises without end, the model stops with `Lost` and says nothing further; instructions that find the stack empty are counted among these, although a pop alone would only make the thread die (`Interpreter.VmState.PopValue`), and compiled code does not meet that before an exception (`Safety.SafeFetches`).
- Compiler.Code.Expr: scopes of more than 65535 names, whose sixteen-bit offsets wrap in the C code, are not told apart; a scope of more than 255 fails at its closing brace.
- Persist.Reader.Load: fields of an object are filled in after all have been read, not one by one; negative object numbers, which index out of bounds in C, are looked up like others. Connections must have their four slots.
- ThreadFiles.ReadThreads: the threads are registered after all have been read; a register record that is not a vector is left as it is.
- ThreadFiles.RestartThreads: numbers must be positive and not in use, as in any checkpoint that was written; the original files duplicates side by side. Taking the restored locks is in `Locks.RestoredLocks`.
- Collecting.Collector.Gc: needs that no listed object and no root points to a freed or waiting object, which holds as long as finalized objects that come back do not point there (`Collecting.Collector.NextToFinalize`). Sizes are those of a machine with eight-byte pointers, and the C counters do not overflow.
- Collecting.Collector.NewSymbol: the search for a symbol of that name, which comes first in the original, is not part of it.
- Scheduling.Scheduler.RunRunQueue: what a thread does in its slice is any sequence of forks, blocks, sleeps and wakeups; how it computes is the machine's business. Links and queue fields are maps from thread numbers.
- Locks.MutualExclusion: kills of waiting threads and restores are outside the runs, because they break the accounting as stated beside it. A woken waiter is not claimed to make progress, since its accumulator still says `yield_thread`.
- Barriers.RoundsSeparated: the threshold does not change; `barrier_inc_threshold` and `barrier_dec_threshold` are not part of this model.
- Tables.HashTable.Put: the link must not be in the table already, as new slots and methods never are; links and heads are maps and sequences, not memory.
- Slots.ObjectStore.SetSlot: permission tests come as their outcomes; slots are values in a map by number.
- Contents.ObjectTree.MoveTo: the privilege test, without which the primitive does nothing, has been passed.
