/**
 * The second root prototype, `attractors2.Attractors`: a parameter
 * template for `lorenz` and `dadras`, `func_params` copying the template's
 * parameters into attributes, and one derivative method per attractor.
 * Most methods are those of `BaseAttractors`; `duffing`, `aizawa` and
 * `ikeda` are its own. `np.sin` and `np.cos` are parameters.
 */
module Attractors2 {
  import opened Errors
  import opened Vectors
  import opened LegacyBase
  import LorenzSystem = Lorenz
  import DadrasSystem = Dadras
  import LangfordSystem = Langford

  /** `param_template`: the attractors the constructor accepts and the parameters each needs. */
  const Template: map<string, seq<string>> :=
    map["lorenz" := ["sigma", "beta", "rho"], "dadras" := ["a", "b", "c", "d", "h"]]

  /** What `func_params` raises for an attractor outside the template or a missing parameter. */
  const TemplateError: Error := Exception("Parameter argument error")

  /** A derivative method of the class: one it shares with `BaseAttractors`, or one of its own. */
  datatype Method = Shared(k: Kind) | Duffing | Aizawa | Ikeda

  /** The `BaseAttractors` methods this class also defines, with the same bodies. */
  predicate Defines(k: Kind) {
    k in {Kind.Lorenz, RabinovichFabrikant, LotkaVolterra, Rossler, WangSun, Rikitake, NoseHoover, ThreeCellCnn,
          BoualiType1, BoualiType2, BoualiType3, Finance, BurkeShaw, MooreSpiegel, Sakarya, Kind.Dadras}
  }

  /** The attributes each method of its own reads, in the order it reads them. */
  function OwnReads(m: Method): seq<string>
    requires !m.Shared?
  {
    match m
    case Duffing => ["alpha", "beta"]
    case Aizawa => ["b", "d", "c", "a", "e", "f"]
    case Ikeda => ["a", "b", "c", "d"]
  }

  /** `duffing`: a forced oscillator in `(x, y)` whose `z` is the clock, advancing at rate 0.5. */
  function DuffingRates(cos: real -> real, x: real, y: real, z: real, alpha: real, beta: real): Vec3 {
    Vec3(y, x - alpha * y - x * x * x + beta * cos(z), 0.5)
  }

  /** `aizawa`. */
  function AizawaRates(x: real, y: real, z: real, a: real, b: real, c: real, d: real, e: real, f: real): Vec3 {
    Vec3((z - b) * x - d * y,
         d * x + (z - b) * y,
         c + a * z - z * z * z / 3.0 - (x * x + y * y) * (1.0 + e * z) + f * z * x * x * x)
  }

  /** `ikeda`: the divisor `1 + x*x + y*y` is at least 1, so it never divides by zero. */
  function IkedaRates(sin: real -> real, cos: real -> real, x: real, y: real, z: real, a: real, b: real, c: real,
                      d: real): Vec3
  {
    Vec3(a + b * (x * cos(z) - y * sin(z)),
         b * (x * sin(z) + y * cos(z)),
         c - d / (1.0 + x * x + y * y))
  }

  /** The rates of an own method once the attributes it reads, in that order, are `v`. */
  function OwnFormula(m: Method, v: seq<real>, np: Numpy, cos: real -> real, c: Vec3): Vec3
    requires !m.Shared? && |v| == |OwnReads(m)|
  {
    match m
    case Duffing => DuffingRates(cos, c.x, c.y, c.z, v[0], v[1])
    case Aizawa => AizawaRates(c.x, c.y, c.z, v[3], v[0], v[2], v[1], v[4], v[5])
    case Ikeda => IkedaRates(np.sin, cos, c.x, c.y, c.z, v[0], v[1], v[2], v[3])
  }

  /**
   * `obj.<method>(coord)` on an object with attributes `attrs`: a shared
   * method runs as in `BaseAttractors` (the class name in its errors is
   * `Attractors`); a `BaseAttractors` method this class lacks raises; an
   * own method reads its attributes, the first missing one raising.
   */
  function Derivative(m: Method, attrs: map<string, real>, np: Numpy, cos: real -> real, c: Vec3): (r: Result<Vec3>)
    ensures m.Shared? && !Defines(m.k) ==> r == Err(NoAttribute("Attractors", MethodName(m.k)))
    ensures m.Shared? && Defines(m.k) ==> r == Derive("Attractors", m.k, attrs, np, c)
    ensures !m.Shared? ==> (r.Ok? <==> forall i :: 0 <= i < |OwnReads(m)| ==> OwnReads(m)[i] in attrs)
    ensures !m.Shared? && r.Err? ==> r == Err(Lookup("Attractors", attrs, OwnReads(m)).error)
  {
    match m
    case Shared(k) =>
      if Defines(k) then Derive("Attractors", k, attrs, np, c) else Err(NoAttribute("Attractors", MethodName(k)))
    case _ =>
      var _ :- Lookup("Attractors", attrs, OwnReads(m));
      Ok(OwnFormula(m, Values(attrs, OwnReads(m)), np, cos, c))
  }

  /**
   * A shared method other than `lorenz` computes what the current system
   * computes on the attributes its parameters name (`finance` wherever `b`
   * is not zero); `lorenz`, with `dy` ending in `- z`, agrees exactly on the
   * plane `y == z`.
   */
  lemma SharedIsCurrentSystem(k: Kind, attrs: map<string, real>, np: Numpy, cos: real -> real, c: Vec3)
    requires Defines(k)
    requires forall i :: 0 <= i < |ParamNames(k)| ==> ParamNames(k)[i] in attrs
    requires k == Finance ==> "b" !in attrs || attrs["b"] != 0.0
    ensures k != Kind.Lorenz ==>
      Derivative(Shared(k), attrs, np, cos, c) == Registered(k, np)(c, Values(attrs, ParamNames(k)))
    ensures k == Kind.Lorenz ==>
      (Derivative(Shared(k), attrs, np, cos, c) == Registered(k, np)(c, Values(attrs, ParamNames(k))) <==> c.y == c.z)
  {
    AgreesWithCurrentSystem("Attractors", k, attrs, np, c);
  }

  /** `duffing`'s `z` is time: its rate is 0.5 at every state, and `dx` is `y`. */
  lemma DuffingClock(attrs: map<string, real>, np: Numpy, cos: real -> real, c: Vec3)
    requires "alpha" in attrs && "beta" in attrs
    ensures Derivative(Duffing, attrs, np, cos, c).Ok?
    ensures Derivative(Duffing, attrs, np, cos, c).value.z == 0.5
    ensures Derivative(Duffing, attrs, np, cos, c).value.x == c.y
  {
    assert OwnReads(Duffing) == ["alpha", "beta"];
  }

  /** `aizawa` once its six attributes are set. */
  lemma AizawaValue(attrs: map<string, real>, np: Numpy, cos: real -> real, s: Vec3)
    requires forall n :: n in ["a", "b", "c", "d", "e", "f"] ==> n in attrs
    ensures Derivative(Aizawa, attrs, np, cos, s)
         == Ok(AizawaRates(s.x, s.y, s.z, attrs["a"], attrs["b"], attrs["c"], attrs["d"], attrs["e"], attrs["f"]))
  {
    var names := OwnReads(Aizawa);
    assert forall i :: 0 <= i < |names| ==> names[i] in ["a", "b", "c", "d", "e", "f"];
    assert Values(attrs, names) == [attrs["b"], attrs["d"], attrs["c"], attrs["a"], attrs["e"], attrs["f"]];
  }

  /** `aizawa` is the Langford system with `alpha, beta, lmbda, omega, rho, epsilon` named `a, b, c, d, e, f`. */
  lemma AizawaIsLangford(attrs: map<string, real>, np: Numpy, cos: real -> real, s: Vec3)
    requires forall n :: n in ["a", "b", "c", "d", "e", "f"] ==> n in attrs
    ensures Derivative(Aizawa, attrs, np, cos, s)
         == Ok(LangfordSystem.Rates(s.x, s.y, s.z, attrs["a"], attrs["b"], attrs["c"], attrs["d"], attrs["e"], attrs["f"]))
  {
    AizawaValue(attrs, np, cos, s);
  }

  /** The rotation by `d` cancels: `x*dx + y*dy == (z - b)*(x² + y²)`. */
  lemma AizawaRadial(x: real, y: real, z: real, a: real, b: real, c: real, d: real, e: real, f: real)
    ensures var r := AizawaRates(x, y, z, a, b, c, d, e, f);
      x * r.x + y * r.y == (z - b) * (x * x + y * y)
  {
    var r := AizawaRates(x, y, z, a, b, c, d, e, f);
    calc {
      x * r.x + y * r.y;
      x * ((z - b) * x - d * y) + y * (d * x + (z - b) * y);
      (z - b) * (x * x) - d * (x * y) + d * (x * y) + (z - b) * (y * y);
      (z - b) * (x * x + y * y);
    }
  }

  lemma RotationNorm(x: real, y: real, sn: real, cs: real, b: real)
    requires sn * sn + cs * cs == 1.0
    ensures (b * (x * cs - y * sn)) * (b * (x * cs - y * sn)) + (b * (x * sn + y * cs)) * (b * (x * sn + y * cs))
         == b * b * (x * x + y * y)
  {
    var p, q := x * cs - y * sn, x * sn + y * cs;
    assert p * p + q * q == (x * x + y * y) * (sn * sn + cs * cs);
  }

  lemma QuotientBelow(d: real, w: real)
    requires d >= 0.0 && w >= 1.0
    ensures 0.0 <= d / w <= d
  {
  }

  /**
   * `ikeda` never fails once its attributes are set. With `sin² + cos² == 1`
   * its `(dx - a, dy)` is `(x, y)` rotated by `z` and scaled by `b`, and for
   * `d >= 0` its `dz` lies in `[c - d, c]`.
   */
  lemma IkedaShape(attrs: map<string, real>, np: Numpy, cos: real -> real, s: Vec3)
    requires forall n :: n in ["a", "b", "c", "d"] ==> n in attrs
    requires forall t :: np.sin(t) * np.sin(t) + cos(t) * cos(t) == 1.0
    ensures Derivative(Ikeda, attrs, np, cos, s).Ok?
    ensures var d := Derivative(Ikeda, attrs, np, cos, s).value;
      var (a, b) := (attrs["a"], attrs["b"]);
      (d.x - a) * (d.x - a) + d.y * d.y == b * b * (s.x * s.x + s.y * s.y)
    ensures attrs["d"] >= 0.0 ==>
      attrs["c"] - attrs["d"] <= Derivative(Ikeda, attrs, np, cos, s).value.z <= attrs["c"]
  {
    var names := OwnReads(Ikeda);
    assert forall i :: 0 <= i < |names| ==> names[i] in ["a", "b", "c", "d"];
    assert Values(attrs, names) == [attrs["a"], attrs["b"], attrs["c"], attrs["d"]];
    RotationNorm(s.x, s.y, np.sin(s.z), cos(s.z), attrs["b"]);
    if attrs["d"] >= 0.0 {
      QuotientBelow(attrs["d"], 1.0 + s.x * s.x + s.y * s.y);
    }
  }

  /** The attributes of a `lorenz` object: its three parameters, with the values given. */
  lemma LorenzAttributes(params: map<string, real>)
    requires "sigma" in params && "beta" in params && "rho" in params
    ensures Assign(map[], Template["lorenz"], params)
         == map["sigma" := params["sigma"], "beta" := params["beta"], "rho" := params["rho"]]
  {
    var names := Template["lorenz"];
    assert names[1..] == ["beta", "rho"] && names[1..][1..] == ["rho"] && names[1..][1..][1..] == [];
  }

  /** The attributes of a `dadras` object: its five parameters, with the values given. */
  lemma DadrasAttributes(params: map<string, real>)
    requires forall n :: n in ["a", "b", "c", "d", "h"] ==> n in params
    ensures Assign(map[], Template["dadras"], params)
         == map["a" := params["a"], "b" := params["b"], "c" := params["c"], "d" := params["d"], "h" := params["h"]]
  {
    var names := Template["dadras"];
    assert "a" in params && "b" in params && "c" in params && "d" in params && "h" in params;
    assert names[1..] == ["b", "c", "d", "h"] && names[2..] == ["c", "d", "h"] && names[3..] == ["d", "h"];
    assert names[4..] == ["h"] && names[5..] == [];
    assert names[1..][1..] == names[2..] && names[2..][1..] == names[3..];
    assert names[3..][1..] == names[4..] && names[4..][1..] == names[5..];
  }

  /**
   * A `lorenz` object runs `lorenz` with the written rates on its `sigma`,
   * `rho` and `beta`: the Lorenz equations exactly when `y == z`.
   */
  lemma LorenzObject(params: map<string, real>, np: Numpy, cos: real -> real, c: Vec3)
    requires "sigma" in params && "beta" in params && "rho" in params
    ensures Derivative(Shared(Kind.Lorenz), Assign(map[], Template["lorenz"], params), np, cos, c)
         == Ok(WrittenLorenzRates(c.x, c.y, c.z, params["sigma"], params["rho"], params["beta"]))
    ensures (Derivative(Shared(Kind.Lorenz), Assign(map[], Template["lorenz"], params), np, cos, c)
             == Ok(LorenzSystem.Rates(c.x, c.y, c.z, params["sigma"], params["rho"], params["beta"]))) <==> c.y == c.z
  {
    WrittenLorenzDiffers(params["sigma"], params["rho"], params["beta"]);
    LorenzAttributes(params);
    var attrs := Assign(map[], Template["lorenz"], params);
    assert Values(attrs, Reads(Kind.Lorenz)) == [params["sigma"], params["rho"], params["beta"]];
  }

  /** A `lorenz` object lacks the attributes `dadras` reads: the first, `a`, raises. */
  lemma LorenzObjectLacksDadras(params: map<string, real>, np: Numpy, cos: real -> real, c: Vec3)
    requires "sigma" in params && "beta" in params && "rho" in params
    ensures Derivative(Shared(Kind.Dadras), Assign(map[], Template["lorenz"], params), np, cos, c)
         == Err(NoAttribute("Attractors", "a"))
  {
    LorenzAttributes(params);
    var attrs := Assign(map[], Template["lorenz"], params);
    assert Lookup("Attractors", attrs, Reads(Kind.Dadras)) == Err(NoAttribute("Attractors", "a"));
  }

  /** A `dadras` object runs `dadras` as the Dadras equations on its `a, b, c, d, h`. */
  lemma DadrasObject(params: map<string, real>, np: Numpy, cos: real -> real, s: Vec3)
    requires forall n :: n in ["a", "b", "c", "d", "h"] ==> n in params
    ensures Derivative(Shared(Kind.Dadras), Assign(map[], Template["dadras"], params), np, cos, s)
         == Ok(DadrasSystem.Rates(s.x, s.y, s.z, params["a"], params["b"], params["c"], params["d"], params["h"]))
  {
    DadrasAttributes(params);
    var attrs := Assign(map[], Template["dadras"], params);
    assert Values(attrs, Reads(Kind.Dadras)) == [params["a"], params["b"], params["c"], params["d"], params["h"]];
  }

  /** A `dadras` object lacks the attributes `lorenz` reads: the first, `sigma`, raises. */
  lemma DadrasObjectLacksLorenz(params: map<string, real>, np: Numpy, cos: real -> real, s: Vec3)
    requires forall n :: n in ["a", "b", "c", "d", "h"] ==> n in params
    ensures Derivative(Shared(Kind.Lorenz), Assign(map[], Template["dadras"], params), np, cos, s)
         == Err(NoAttribute("Attractors", "sigma"))
  {
    DadrasAttributes(params);
    var attrs := Assign(map[], Template["dadras"], params);
    assert Lookup("Attractors", attrs, Reads(Kind.Lorenz)) == Err(NoAttribute("Attractors", "sigma"));
  }

  /** An `Attractors` object: its attractor name, its keyword arguments and the attributes `func_params` has set. */
  class Attractors {
    const attractor: string
    const params: map<string, real>
    var attrs: map<string, real>

    /** The object before `func_params` has run. */
    constructor(attractor: string, params: map<string, real>)
      ensures this.attractor == attractor && this.params == params && attrs == map[]
    {
      this.attractor := attractor;
      this.params := params;
      attrs := map[];
    }

    /**
     * `func_params()`: for each name the template lists for the attractor,
     * in order, sets the attribute to `params[name]`. An attractor outside
     * the template, or a name missing from `params`, raises; the names
     * assigned before that stay assigned.
     */
    method FuncParams() returns (r: Result<()>)
      modifies this
      ensures r.Ok? <==> attractor in Template && AllPresent(Template[attractor], params)
      ensures r.Err? ==> r.error == TemplateError
      ensures attractor !in Template ==> attrs == old(attrs)
      ensures attractor in Template ==> attrs == Assign(old(attrs), Template[attractor], params)
    {
      if attractor !in Template {
        return Err(TemplateError);
      }
      var names := Template[attractor];
      var i := 0;
      while i < |names|
        invariant 0 <= i <= |names|
        invariant forall j :: 0 <= j < i ==> names[j] in params
        invariant Assign(old(attrs), names, params) == Assign(attrs, names[i..], params)
      {
        if names[i] !in params {
          return Err(TemplateError);
        }
        assert names[i..][1..] == names[i + 1..];
        attrs := attrs[names[i] := params[names[i]]];
        i := i + 1;
      }
      return Ok(());
    }
  }

  /**
   * `Attractors(attractor, **kwargs)`: succeeds only for `lorenz` or
   * `dadras` with every template parameter given.
   */
  method NewAttractors(attractor: string, params: map<string, real>) returns (r: Result<Attractors>)
    ensures r.Ok? <==>
      || (attractor == "lorenz" && "sigma" in params && "beta" in params && "rho" in params)
      || (attractor == "dadras" && "a" in params && "b" in params && "c" in params && "d" in params && "h" in params)
    ensures r.Err? ==> r.error == TemplateError
    ensures r.Ok? ==> fresh(r.value) && r.value.attractor == attractor && r.value.params == params
                      && r.value.attrs == Assign(map[], Template[attractor], params)
  {
    var obj := new Attractors(attractor, params);
    var res := obj.FuncParams();
    if res.Err? {
      return Err(res.error);
    }
    return Ok(obj);
  }
}
