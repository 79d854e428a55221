/** The solver table: a `Solver` record per registered step function. */
module SolverRegistry {
  import opened Errors
  import opened TypeDefs
  import opened Seqs
  import opened Registration

  /** A registered solver; nothing updates it after registration. */
  datatype Solver = Solver(func: SolverCallable, jittedFunc: SolverCallable, name: string) {
    /** The compiled function when `jitted`, the plain one otherwise. */
    function GetFunc(jitted: bool): (g: SolverCallable)
      ensures jitted ==> g == jittedFunc
      ensures !jitted ==> g == func
    {
      if jitted then jittedFunc else func
    }
  }

  /** The decorator `register(name)` returns; it only remembers the name. */
  datatype Decorator = Decorator(name: NameArg)

  /** Calling `register(name)` never fails: every check is deferred to the decorator. */
  function Register(name: NameArg): (d: Decorator)
    ensures d.name == name
  {
    Decorator(name)
  }

  /** The class-level table `_solvers`; `order` is its key order. */
  class Registry {
    var solvers: map<string, Solver>
    var order: seq<string>

    ghost predicate Valid()
      reads this
    {
      Distinct(order) && Elems(order) == solvers.Keys
    }

    constructor()
      ensures Valid() && solvers == map[] && order == []
    {
      solvers := map[];
      order := [];
    }

    /**
     * Applying a decorator to `f`: on a failed guard the table is untouched;
     * otherwise `Solver(f, jit(f), name)` is added under the name and `f` returned.
     */
    method Decorate(d: Decorator, f: Decorated<SolverCallable>) returns (r: Result<SolverCallable>)
      requires Valid()
      modifies this
      ensures Valid()
      ensures var a := Admission("Solver", old(solvers).Keys, d.name, f);
        a.Err? ==> r == Err(a.error) && solvers == old(solvers) && order == old(order)
      ensures var a := Admission("Solver", old(solvers).Keys, d.name, f);
        a.Ok? ==>
          && r == Ok(f.f) && order == old(order) + [a.value]
          && solvers == old(solvers)[a.value := Solver(f.f, f.f, a.value)]
    {
      var a := Admission("Solver", solvers.Keys, d.name, f);
      if a.Err? {
        return Err(a.error);
      }
      var jitted := f.f;
      solvers := solvers[a.value := Solver(f.f, jitted, a.value)];
      order := order + [a.value];
      return Ok(f.f);
    }

    /** The entry under `name`, or KeyError. */
    function Get(name: string): (r: Result<Solver>)
      reads this
      ensures r.Ok? <==> name in solvers
      ensures r.Ok? ==> r.value == solvers[name]
      ensures r.Err? ==> r.error == NotFound("Solver", name)
    {
      if name !in solvers then Err(NotFound("Solver", name)) else Ok(solvers[name])
    }

    /** The registered names in insertion order: each once, each retrievable. */
    function ListSolvers(): (r: seq<string>)
      requires Valid()
      reads this
      ensures r == order
      ensures Distinct(r) && |r| == |solvers|
      ensures forall n :: n in r <==> Get(n).Ok?
    {
      DistinctCard(order);
      order
    }
  }
}
