/**
 * The Lorenz system. Its registration call passes only the name, so the
 * registry's call binding rejects it and the function is never registered.
 */
module Lorenz {
  import opened Errors
  import opened Vectors
  import opened TypeDefs
  import opened Registration
  import SystemRegistry

  /** The arguments of the registration call: the name alone. */
  const Args := SystemRegistry.RegisterArgs(Str("lorenz"), None, None, "", None, None)

  /** The call raises TypeError naming the three missing keyword-only arguments. */
  lemma RegistrationRejected()
    ensures SystemRegistry.Register(Args)
         == Err(TypeError("SystemRegistry.register() missing " + "3" + " required keyword-only "
                          + "arguments: " + "'default_params', 'param_names', and 'init_coord'"))
  {
    var m := SystemRegistry.MissingKeywords(Args);
    assert m == ["'default_params'", "'param_names'", "'init_coord'"];
    assert NatToString(|m|) == "3";
    assert SystemRegistry.JoinNames(m) == "'default_params', 'param_names', and 'init_coord'";
  }

  /**
   * The registration the system's users expect: the name with the three
   * keyword-only arguments, three defaults for `sigma, rho, beta`, three names
   * and a three-component start.
   */
  function IntendedArgs(defaults: seq<real>, names: seq<string>, start: seq<real>): SystemRegistry.RegisterArgs {
    SystemRegistry.RegisterArgs(Str("lorenz"), Some(defaults), Some(names), "", Some(start), None)
  }

  /**
   * With its metadata passed, the call binds, the decorator carries that
   * metadata, and a table without "lorenz" admits `lorenz` under its name,
   * so that `SystemRegistry.get("lorenz")` can find it.
   */
  lemma IntendedRegistrationAdmitted(defaults: seq<real>, names: seq<string>, start: seq<real>, keys: set<string>)
    requires |defaults| == 3 && |names| == 3 && |start| == 3 && "lorenz" !in keys
    ensures var r := SystemRegistry.Register(IntendedArgs(defaults, names, start));
      && r.Ok? && r.value.defaultParams == defaults && r.value.paramNames == names && r.value.initCoord == start
      && Admission("System", keys, r.value.name, Callable(Derivative)) == Ok("lorenz")
  {
  }

  /** The rates `(dx, dy, dz)` at `(x, y, z)`. */
  function Rates(x: real, y: real, z: real, sigma: real, rho: real, beta: real): Vec3 {
    Vec3(sigma * (y - x), x * (rho - z) - y, x * y - beta * z)
  }

  /**
   * `lorenz` on the arrays it receives: a state or parameter vector whose
   * length is not 3 is rejected before any arithmetic.
   */
  function Lorenz(state: seq<real>, params: seq<real>): (r: Result<seq<real>>)
    ensures r.Ok? <==> |state| == 3 && |params| == 3
    ensures r.Ok? ==> |r.value| == 3
    ensures r.Err? ==>
      r.error == ValueError("Expected 3 components, got " + NatToString(|state|) + "/" + NatToString(|params|))
  {
    if |state| != 3 || |params| != 3 then
      Err(ValueError("Expected 3 components, got " + NatToString(|state|) + "/" + NatToString(|params|)))
    else
      Ok(ToSeq(Rates(state[0], state[1], state[2], params[0], params[1], params[2])))
  }

  /** `lorenz` as a system callable on three-component states. */
  function Derivative(state: Vec3, p: seq<real>): (r: Result<Vec3>)
    ensures r.Ok? <==> |p| == 3
    ensures r.Ok? ==> Lorenz(ToSeq(state), p) == Ok(ToSeq(r.value))
    ensures r.Err? ==> Lorenz(ToSeq(state), p) == Err(r.error)
  {
    var d :- Lorenz(ToSeq(state), p);
    FromSeq(d)
  }

  lemma OriginIsEquilibrium(p: seq<real>)
    requires |p| == 3
    ensures Derivative(Zero, p) == Ok(Zero)
  {
  }

  /** The rates at `(-x, -y, z)` are `(-dx, -dy, dz)`. */
  lemma RatesFlip(x: real, y: real, z: real, sigma: real, rho: real, beta: real)
    ensures Rates(-x, -y, z, sigma, rho, beta) == FlipXY(Rates(x, y, z, sigma, rho, beta))
  {
    var d, e := Rates(x, y, z, sigma, rho, beta), Rates(-x, -y, z, sigma, rho, beta);
    assert e.x == -d.x;
    assert e.y == -d.y;
    assert e.z == d.z;
  }

  /** Reflecting the state about the z-axis negates `dx` and `dy` and keeps `dz`. */
  lemma FlipSymmetry(s: Vec3, p: seq<real>)
    requires |p| == 3
    ensures Derivative(FlipXY(s), p) == Ok(FlipXY(Derivative(s, p).value))
  {
    RatesFlip(s.x, s.y, s.z, p[0], p[1], p[2]);
  }
}
