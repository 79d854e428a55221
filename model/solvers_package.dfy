/**
 * Importing the solvers package: the module imports run the `register`
 * decorators of `euler`, `rk2`, `rk3`, `rk4` and `rk5`, in that order.
 * `stormer_verlet` is not among them, so its registration never runs.
 */
module SolversPackage {
  import opened Errors
  import opened Registration
  import opened TypeDefs
  import SolverRegistry
  import Euler
  import Rk2
  import Rk3
  import Rk4
  import Rk5
  import StormerVerlet

  /** The solver names the package import registers, in import order. */
  const Imported: seq<string> := [Euler.Name, Rk2.Name, Rk3.Name, Rk4.Name, Rk5.Name]

  /** The six solver names are pairwise different. */
  lemma NamesDistinct()
    ensures Euler.Name !in {Rk2.Name, Rk3.Name, Rk4.Name, Rk5.Name, StormerVerlet.Name}
    ensures Rk2.Name !in {Rk3.Name, Rk4.Name, Rk5.Name, StormerVerlet.Name}
    ensures Rk3.Name !in {Rk4.Name, Rk5.Name, StormerVerlet.Name}
    ensures Rk4.Name !in {Rk5.Name, StormerVerlet.Name}
    ensures Rk5.Name != StormerVerlet.Name
  {
    assert Euler.Name[0] == 'e' && StormerVerlet.Name[0] == 's';
    assert Rk2.Name[2] == '2' && Rk3.Name[2] == '3' && Rk4.Name[2] == '4' && Rk5.Name[2] == '5';
  }

  /** One module's `@SolverRegistry.register(name)` on a name not yet taken. */
  method ImportOne(reg: SolverRegistry.Registry, name: string, f: SolverCallable)
    requires reg.Valid() && name !in reg.solvers
    modifies reg
    ensures reg.Valid() && reg.order == old(reg.order) + [name]
    ensures reg.solvers == old(reg.solvers)[name := SolverRegistry.Solver(f, f, name)]
  {
    var _ := reg.Decorate(SolverRegistry.Register(Str(name)), Callable(f));
  }

  /** Runs the five decorators against the (initially empty) class-level table. */
  method ImportSolvers(reg: SolverRegistry.Registry) returns (r: Result<()>)
    requires reg.Valid() && reg.solvers == map[] && reg.order == []
    modifies reg
    ensures r == Ok(()) && reg.Valid()
    ensures reg.order == Imported
    ensures reg.solvers == map[
      Euler.Name := SolverRegistry.Solver(Euler.Step, Euler.Step, Euler.Name),
      Rk2.Name := SolverRegistry.Solver(Rk2.Step, Rk2.Step, Rk2.Name),
      Rk3.Name := SolverRegistry.Solver(Rk3.Step, Rk3.Step, Rk3.Name),
      Rk4.Name := SolverRegistry.Solver(Rk4.Step, Rk4.Step, Rk4.Name),
      Rk5.Name := SolverRegistry.Solver(Rk5.Step, Rk5.Step, Rk5.Name)]
    ensures reg.Get(StormerVerlet.Name) == Err(NotFound("Solver", StormerVerlet.Name))
  {
    NamesDistinct();
    ImportOne(reg, Euler.Name, Euler.Step);
    ImportOne(reg, Rk2.Name, Rk2.Step);
    ImportOne(reg, Rk3.Name, Rk3.Step);
    ImportOne(reg, Rk4.Name, Rk4.Step);
    ImportOne(reg, Rk5.Name, Rk5.Step);
    r := Ok(());
  }
}
