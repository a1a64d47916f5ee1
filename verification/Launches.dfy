// Compiled programs started on a new thread run safely from their first
// instruction on.
module Launches {
  import opened Bytes
  import opened Values
  import opened Machine
  import opened Syntax
  import opened Scoping
  import opened Emission
  import opened Limits
  import opened Discipline
  import opened Blocks
  import opened Safety
  import opened Compiled
  import Compiler
  import Programs
  import Exceptions

  // A program within the limits is a finished block, through all functions in
  // it, whoever owns it.
  lemma ProgramIsGood(e: Expr, owner: Value)
    requires Programs.ProgramFits(e) && PlainLiterals(e)
    ensures GoodMethod(Compiler.Program(e).(owner := owner))
  {
    FitsVectors(e, []);
    EmittedLevel(e, [], [], 0);
    LiteralsGood(e, [], []);
    LevelBlock(Emit(e, [], []).code, NoReturn(e));
  }

  // A thread with nothing to run yet.
  predicate Empty(vm: Vm) {
    vm.code == [] && vm.lits == [] && vm.stack == [] && vm.frame.NoFrame?
  }

  // apply_closure on an empty thread: a safe machine, or no machine at all.
  lemma EnteredSafely(w: World, vm: Vm, m: Method, self: Value, argv: Value, exact: bool)
    requires Empty(vm) && GoodRegisters(vm, exact) && GoodMethod(m) && GoodValue(self)
    ensures var o := ApplyMethod(w, vm, m, self, argv); o.Run? ==> Safe(o.vm, exact)
  {
    if ApplyMethod(w, vm, m, self, argv).Run? {
      Entry(m.code);
      assert GoodCell(vm.heap[argv.a], exact);
    }
  }

  // A program compiled, closed over and applied on an empty thread: until an
  // exception is raised it keeps to the whole of the stack discipline, and
  // beyond, short of divisions by zero, to its instructions.
  lemma ProgramsRunSafely(w: World, tick: Vm -> Out, n: nat, e: Expr, owner: Value, vm: Vm, argv: Value)
    requires Programs.ProgramFits(e) && PlainLiterals(e) && Ticks(w, tick) && Empty(vm)
    requires ApplyMethod(w, vm, Compiler.Program(e).(owner := owner), Null, argv).Run?
    ensures var v := ApplyMethod(w, vm, Compiler.Program(e).(owner := owner), Null, argv).vm;
            && (GoodWorld(w, true) && GoodRegisters(vm, true) ==>
                  var o := Turns(tick, n, v); o.Run? && o.vm.state != DYING ==> Safe(o.vm, true))
            && (GoodWorld(w, false) && GoodRegisters(vm, false) && Exceptions.NeverDivides(tick, n, v) ==>
                  var o := Exceptions.Onward(tick, n, v); o.Run? && o.vm.state != DYING ==> Safe(o.vm, false))
  {
    var m := Compiler.Program(e).(owner := owner);
    ProgramIsGood(e, owner);
    var v := ApplyMethod(w, vm, m, Null, argv).vm;
    if GoodWorld(w, true) && GoodRegisters(vm, true) {
      EnteredSafely(w, vm, m, Null, argv, true);
      var o := RunsSafely(w, tick, n, v, true);
    }
    if GoodWorld(w, false) && GoodRegisters(vm, false) && Exceptions.NeverDivides(tick, n, v) {
      EnteredSafely(w, vm, m, Null, argv, false);
      var o := Exceptions.RunsInPlace(w, tick, n, v);
    }
  }
}
