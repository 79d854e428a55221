/**
 * The system table: a `System` record per registered derivative function,
 * kept in a name-keyed table that remembers registration order.
 */
module SystemRegistry {
  import opened Errors
  import opened TypeDefs
  import opened Seqs
  import opened Registration

  /** A registered system; `set_params` and `set_init_coord` update it in place. */
  class System {
    var func: SystemCallable
    var jittedFunc: SystemCallable
    var name: string
    var params: seq<real>
    var paramNames: seq<string>
    var reference: string
    var initCoord: seq<real>
    var plotLims: Option<PlotLims>

    constructor(func: SystemCallable, jittedFunc: SystemCallable, name: string, params: seq<real>,
                paramNames: seq<string>, reference: string, initCoord: seq<real>,
                plotLims: Option<PlotLims>)
      ensures this.func == func && this.jittedFunc == jittedFunc && this.name == name
      ensures this.params == params && this.paramNames == paramNames
      ensures this.reference == reference && this.initCoord == initCoord
      ensures this.plotLims == plotLims
    {
      this.func := func;
      this.jittedFunc := jittedFunc;
      this.name := name;
      this.params := params;
      this.paramNames := paramNames;
      this.reference := reference;
      this.initCoord := initCoord;
      this.plotLims := plotLims;
    }

    /** One parameter value per parameter name, and a three-component start. */
    predicate Consistent()
      reads this
    {
      |params| == |paramNames| && |initCoord| == 3
    }

    /** Replaces the parameters when there is one per name; otherwise ValueError, nothing changed. */
    method SetParams(p: seq<real>) returns (r: Result<()>)
      modifies this`params
      ensures r.Ok? <==> |p| == |paramNames|
      ensures r.Ok? ==> params == p
      ensures r.Err? ==> params == old(params)
      ensures r.Err? ==> r.error == ValueError("Expected " + NatToString(|paramNames|) + " parameters")
      ensures old(|initCoord| == 3) && r.Ok? ==> Consistent()
    {
      if |p| != |paramNames| {
        return Err(ValueError("Expected " + NatToString(|paramNames|) + " parameters"));
      }
      params := p;
      return Ok(());
    }

    /** Replaces the initial coordinate when it has three components; otherwise ValueError, nothing changed. */
    method SetInitCoord(c: seq<real>) returns (r: Result<()>)
      modifies this`initCoord
      ensures r.Ok? <==> |c| == 3
      ensures r.Ok? ==> initCoord == c
      ensures r.Err? ==> initCoord == old(initCoord)
      ensures r.Err? ==> r.error == ValueError("State vector must have length 3")
      ensures old(|params| == |paramNames|) ==> (Consistent() <==> r.Ok? || old(Consistent()))
    {
      if |c| != 3 {
        return Err(ValueError("State vector must have length 3"));
      }
      initCoord := c;
      return Ok(());
    }

    /** The compiled function when `jitted`, the plain one otherwise. */
    function GetFunc(jitted: bool): (g: SystemCallable)
      reads this
      ensures jitted ==> g == jittedFunc
      ensures !jitted ==> g == func
    {
      if jitted then jittedFunc else func
    }

    /** The record the decorator builds for `f` from the metadata `d`. */
    ghost predicate Describes(f: SystemCallable, d: Decorator)
      reads this
    {
      d.name.Str? && func == f && jittedFunc == f && name == d.name.s
      && params == d.defaultParams && paramNames == d.paramNames
      && reference == d.reference && initCoord == d.initCoord && plotLims == d.plotLims
    }
  }

  /** The arguments of `register(name, *, default_params, param_names, reference="", init_coord, plot_lims=None)`. */
  datatype RegisterArgs = RegisterArgs(
    name: NameArg,
    defaultParams: Option<seq<real>>,
    paramNames: Option<seq<string>>,
    reference: string,
    initCoord: Option<seq<real>>,
    plotLims: Option<PlotLims>)

  /** The decorator `register` returns, holding the metadata it closes over. */
  datatype Decorator = Decorator(
    name: NameArg,
    defaultParams: seq<real>,
    paramNames: seq<string>,
    reference: string,
    initCoord: seq<real>,
    plotLims: Option<PlotLims>)

  /** The names of the required keyword-only arguments a call leaves out. */
  function MissingKeywords(a: RegisterArgs): (m: seq<string>)
    ensures m == [] <==> a.defaultParams.Some? && a.paramNames.Some? && a.initCoord.Some?
  {
    (if a.defaultParams.None? then ["'default_params'"] else [])
    + (if a.paramNames.None? then ["'param_names'"] else [])
    + (if a.initCoord.None? then ["'init_coord'"] else [])
  }

  /** CPython's listing of missing argument names: `'a'`, `'a' and 'b'`, `'a', 'b', and 'c'`. */
  function JoinNames(m: seq<string>): string {
    if |m| == 0 then ""
    else if |m| == 1 then m[0]
    else if |m| == 2 then m[0] + " and " + m[1]
    else m[0] + ", " + m[1] + ", and " + m[2]
  }

  /**
   * Calling `register`: Python's call binding raises TypeError when a required
   * keyword-only argument is missing; otherwise the decorator, which checks nothing yet.
   */
  function Register(a: RegisterArgs): (r: Result<Decorator>)
    ensures r.Ok? <==> a.defaultParams.Some? && a.paramNames.Some? && a.initCoord.Some?
    ensures r.Ok? ==> r.value.name == a.name && r.value.reference == a.reference
                      && r.value.plotLims == a.plotLims
                      && Some(r.value.defaultParams) == a.defaultParams
                      && Some(r.value.paramNames) == a.paramNames
                      && Some(r.value.initCoord) == a.initCoord
    ensures r.Err? ==> r.error.TypeError?
  {
    var m := MissingKeywords(a);
    if m != [] then
      Err(TypeError("SystemRegistry.register() missing " + NatToString(|m|) + " required keyword-only "
                    + (if |m| == 1 then "argument: " else "arguments: ") + JoinNames(m)))
    else
      Ok(Decorator(a.name, a.defaultParams.value, a.paramNames.value, a.reference,
                   a.initCoord.value, a.plotLims))
  }

  /**
   * What a shipped system's registration supplies: the call binds, the name is
   * a string, there are `n` defaults and `n` names, a three-component start and
   * ordered plot limits on every axis.
   */
  predicate Shipped(a: RegisterArgs, n: nat) {
    && Register(a).Ok? && a.name.Str?
    && |a.defaultParams.value| == n && |a.paramNames.value| == n
    && |a.initCoord.value| == 3
    && a.plotLims.Some? && a.plotLims.value.Ordered()
  }

  /**
   * `register` checks neither the number of defaults against the names nor the
   * length of the initial coordinate: such metadata binds, and the entry the
   * decorator builds from it is not `Consistent`.
   */
  lemma MetadataUnchecked()
    ensures var a := RegisterArgs(Str("odd"), Some([1.0]), Some([]), "", Some([]), None);
      && Register(a).Ok?
      && var d := Register(a).value;
      |d.defaultParams| != |d.paramNames| && |d.initCoord| != 3
  {
  }

  /** The class-level table `_systems`; `order` is its key order. */
  class Registry {
    var systems: map<string, System>
    var order: seq<string>

    ghost predicate Valid()
      reads this
    {
      Distinct(order) && Elems(order) == systems.Keys
    }

    constructor()
      ensures Valid() && systems == map[] && order == []
    {
      systems := map[];
      order := [];
    }

    /**
     * Applying a decorator to `f`: on a failed guard the table is untouched;
     * otherwise exactly one new entry built from `d` is added under the name,
     * and `f` itself is returned.
     */
    method Decorate(d: Decorator, f: Decorated<SystemCallable>) returns (r: Result<SystemCallable>)
      requires Valid()
      modifies this
      ensures Valid()
      ensures var a := Admission("System", old(systems).Keys, d.name, f);
        a.Err? ==> r == Err(a.error) && systems == old(systems) && order == old(order)
      ensures var a := Admission("System", old(systems).Keys, d.name, f);
        a.Ok? ==>
          && r == Ok(f.f) && order == old(order) + [a.value]
          && a.value in systems && fresh(systems[a.value])
          && systems == old(systems)[a.value := systems[a.value]]
          && systems[a.value].Describes(f.f, d)
    {
      var a := Admission("System", systems.Keys, d.name, f);
      if a.Err? {
        return Err(a.error);
      }
      var jitted := f.f;
      var s := new System(f.f, jitted, a.value, d.defaultParams, d.paramNames, d.reference,
                          d.initCoord, d.plotLims);
      systems := systems[a.value := s];
      order := order + [a.value];
      return Ok(f.f);
    }

    /** The entry under `name`, or KeyError. */
    function Get(name: string): (r: Result<System>)
      reads this
      ensures r.Ok? <==> name in systems
      ensures r.Ok? ==> r.value == systems[name]
      ensures r.Err? ==> r.error == NotFound("System", name)
    {
      if name !in systems then Err(NotFound("System", name)) else Ok(systems[name])
    }

    /** The registered names in registration order: each once, each retrievable. */
    function ListSystems(): (r: seq<string>)
      requires Valid()
      reads this
      ensures r == order
      ensures Distinct(r) && |r| == |systems|
      ensures forall n :: n in r <==> Get(n).Ok?
    {
      DistinctCard(order);
      assert Elems(order) == systems.Keys;
      order
    }
  }
}
