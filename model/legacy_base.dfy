/**
 * The first-generation `BaseAttractors`. The constructor turns the entries
 * of a parameter dictionary into attributes of the object, one for each
 * name the parameter table lists for the attractor; each attractor is a
 * method, found by name, that reads its attributes and returns
 * `[dx, dy, dz]`.
 *
 * The parameter table is loaded from a data file that is not part of this
 * model, so it is a parameter here (`map` from attractor name to its
 * parameter names). Attribute values are reals; `exec` of an arbitrary
 * expression is not modelled.
 */
module LegacyBase {
  import opened Errors
  import opened Vectors
  import opened TypeDefs
  import SystemRegistry
  import LorenzSystem = Lorenz
  import RabinovichFabrikantSystem = RabinovichFabrikant
  import LotkaVolterraSystem = LotkaVolterra
  import RosslerSystem = Rossler
  import WangSunSystem = WangSun
  import RikitakeSystem = Rikitake
  import NoseHooverSystem = NoseHoover
  import LangfordSystem = Langford
  import ThreeCellCnnSystem = ThreeCellCnn
  import BoualiSystem = Bouali
  import FinanceSystem = Finance
  import BurkeShawSystem = BurkeShaw
  import MooreSpiegelSystem = MooreSpiegel
  import SakaryaSystem = Sakarya
  import DadrasSystem = Dadras
  import HalvorsenSystem = Halvorsen
  import HadleySystem = Hadley
  import ChenSystem = Chen
  import ChenLeeSystem = ChenLee
  import ChenLuSystem = ChenLu
  import ThomasSystem = Thomas
  import DequanLiSystem = DequanLi
  import YuWangSystem = YuWang
  import NewtonLeipnikSystem = NewtonLeipnik
  import RucklidgeSystem = Rucklidge
  import ShimizuMoriokaSystem = ShimizuMorioka

  /** The numpy functions the formulas call. */
  datatype Numpy = Numpy(sin: real -> real, exp: real -> real)

  /** The derivative methods of the class. */
  datatype Kind =
    | Lorenz | RabinovichFabrikant | LotkaVolterra | Rossler | WangSun | Rikitake | NoseHoover
    | Langford | ThreeCellCnn | BoualiType1 | BoualiType2 | BoualiType3 | Finance | BurkeShaw
    | MooreSpiegel | Sakarya | Dadras | Halvorsen | Hadley | Chen | ChenLee | ChenLu | Thomas
    | DequanLi | YuWang | NewtonLeipnik | Rucklidge | ShimizuMorioka

  /** The Python name of each method. */
  function MethodName(k: Kind): string {
    match k
    case Lorenz => "lorenz"
    case RabinovichFabrikant => "rabinovich_fabrikant"
    case LotkaVolterra => "lotka_volterra"
    case Rossler => "rossler"
    case WangSun => "wang_sun"
    case Rikitake => "rikitake"
    case NoseHoover => "nose_hoover"
    case Langford => "langford"
    case ThreeCellCnn => "three_cell_cnn"
    case BoualiType1 => "bouali_type_1"
    case BoualiType2 => "bouali_type_2"
    case BoualiType3 => "bouali_type_3"
    case Finance => "finance"
    case BurkeShaw => "burke_shaw"
    case MooreSpiegel => "moore_spiegel"
    case Sakarya => "sakarya"
    case Dadras => "dadras"
    case Halvorsen => "halvorsen"
    case Hadley => "hadley"
    case Chen => "chen"
    case ChenLee => "chen_lee"
    case ChenLu => "chen_lu"
    case Thomas => "thomas"
    case DequanLi => "dequan_li"
    case YuWang => "yu_wang"
    case NewtonLeipnik => "newton_leipnik"
    case Rucklidge => "rucklidge"
    case ShimizuMorioka => "shimizu_morioka"
  }

  /** `getattr(cls, name)`: the method with that name, if the class has one. */
  function KindOf(name: string): (r: Option<Kind>)
    ensures r.Some? ==> MethodName(r.value) == name
  {
    match name
    case "lorenz" => Some(Lorenz)
    case "rabinovich_fabrikant" => Some(RabinovichFabrikant)
    case "lotka_volterra" => Some(LotkaVolterra)
    case "rossler" => Some(Rossler)
    case "wang_sun" => Some(WangSun)
    case "rikitake" => Some(Rikitake)
    case "nose_hoover" => Some(NoseHoover)
    case _ => KindOf2(name)
  }

  /** The second group of the class's methods, in definition order. */
  function KindOf2(name: string): (r: Option<Kind>)
    ensures r.Some? ==> MethodName(r.value) == name
  {
    match name
    case "langford" => Some(Langford)
    case "three_cell_cnn" => Some(ThreeCellCnn)
    case "bouali_type_1" => Some(BoualiType1)
    case "bouali_type_2" => Some(BoualiType2)
    case "bouali_type_3" => Some(BoualiType3)
    case "finance" => Some(Finance)
    case "burke_shaw" => Some(BurkeShaw)
    case _ => KindOf3(name)
  }

  /** The third group. */
  function KindOf3(name: string): (r: Option<Kind>)
    ensures r.Some? ==> MethodName(r.value) == name
  {
    match name
    case "moore_spiegel" => Some(MooreSpiegel)
    case "sakarya" => Some(Sakarya)
    case "dadras" => Some(Dadras)
    case "halvorsen" => Some(Halvorsen)
    case "hadley" => Some(Hadley)
    case "chen" => Some(Chen)
    case "chen_lee" => Some(ChenLee)
    case _ => KindOf4(name)
  }

  /** The last group. */
  function KindOf4(name: string): (r: Option<Kind>)
    ensures r.Some? ==> MethodName(r.value) == name
  {
    match name
    case "chen_lu" => Some(ChenLu)
    case "thomas" => Some(Thomas)
    case "dequan_li" => Some(DequanLi)
    case "yu_wang" => Some(YuWang)
    case "newton_leipnik" => Some(NewtonLeipnik)
    case "rucklidge" => Some(Rucklidge)
    case "shimizu_morioka" => Some(ShimizuMorioka)
    case _ => None
  }

  /** Every method is found under its own name. */
  lemma KindOfName(k: Kind)
    ensures KindOf(MethodName(k)) == Some(k)
  {
  }

  /** The attributes each method reads, in the order it first reads them. */
  function Reads(k: Kind): seq<string> {
    match k
    case Lorenz => ["sigma", "rho", "beta"]
    case RabinovichFabrikant => ["gamma", "alpha"]
    case LotkaVolterra => ["c", "a", "b"]
    case Rossler => ["a", "b", "c"]
    case WangSun => ["a", "c", "b", "d", "e", "f"]
    case Rikitake => ["mu", "a"]
    case NoseHoover => ["a"]
    case Langford => ["beta", "omega", "lmbda", "alpha", "rho", "epsilon"]
    case ThreeCellCnn => ["p1", "s", "p2", "r"]
    case BoualiType1 => ["k", "mu", "b", "s", "p", "q"]
    case BoualiType2 => ["a", "alpha", "b", "c", "s", "beta"]
    case BoualiType3 => ["alpha", "beta", "gamma", "mu"]
    case Finance => ["b", "a", "c"]
    case BurkeShaw => ["s", "v"]
    case MooreSpiegel => ["t", "r"]
    case Sakarya => ["a", "b"]
    case Dadras => ["a", "b", "c", "d", "h"]
    case Halvorsen => ["a"]
    case Hadley => ["a", "f", "b", "g"]
    case Chen => ["a", "c", "b"]
    case ChenLee => ["a", "b", "c"]
    case ChenLu => ["a", "c", "b"]
    case Thomas => ["b"]
    case DequanLi => ["a", "d", "k", "f", "c", "e"]
    case YuWang => ["a", "b", "c", "d"]
    case NewtonLeipnik => ["alpha", "beta"]
    case Rucklidge => ["k", "alpha"]
    case ShimizuMorioka => ["B", "a"]
  }

  /** Reading a missing attribute of an instance of the class named `cls`. */
  function NoAttribute(cls: string, name: string): Error {
    AttributeError("'" + cls + "' object has no attribute '" + name + "'")
  }

  /** Reads `names` in order; the first one missing raises. */
  function Lookup(cls: string, attrs: map<string, real>, names: seq<string>): (r: Result<()>)
    ensures r.Ok? <==> forall i :: 0 <= i < |names| ==> names[i] in attrs
    ensures r.Err? ==> exists i :: 0 <= i < |names| && names[i] !in attrs && r.error == NoAttribute(cls, names[i])
                         && forall j :: 0 <= j < i ==> names[j] in attrs
  {
    if names == [] then Ok(())
    else if names[0] !in attrs then Err(NoAttribute(cls, names[0]))
    else
      var rest := Lookup(cls, attrs, names[1..]);
      assert forall i :: 1 <= i < |names| ==> names[i] == names[1..][i - 1];
      if rest.Err? then
        var i :| 0 <= i < |names[1..]| && names[1..][i] !in attrs && rest.error == NoAttribute(cls, names[1..][i])
                 && forall j :: 0 <= j < i ==> names[1..][j] in attrs;
        assert names[i + 1] == names[1..][i];
        rest
      else rest
  }

  /** The rates once every attribute the method reads is present. */
  function Formula(k: Kind, v: seq<real>, np: Numpy, c: Vec3): (r: Result<Vec3>)
    requires |v| == |Reads(k)|
    ensures r.Err? <==> k == Finance && v[0] == 0.0
  {
    var x, y, z := c.x, c.y, c.z;
    match k
    case Lorenz => Ok(WrittenLorenzRates(x, y, z, v[0], v[1], v[2]))
    case RabinovichFabrikant => Ok(RabinovichFabrikantSystem.Rates(x, y, z, v[1], v[0]))
    case LotkaVolterra => Ok(LotkaVolterraSystem.Rates(x, y, z, v[1], v[2], v[0]))
    case Rossler => Ok(RosslerSystem.Rates(x, y, z, v[0], v[1], v[2]))
    case WangSun => Ok(WangSunSystem.Rates(x, y, z, v[0], v[2], v[1], v[3], v[4], v[5]))
    case Rikitake => Ok(RikitakeSystem.Rates(x, y, z, v[1], v[0]))
    case NoseHoover => Ok(NoseHooverSystem.Rates(x, y, z, v[0]))
    case Langford => Ok(LangfordSystem.Rates(x, y, z, v[3], v[0], v[2], v[1], v[4], v[5]))
    case ThreeCellCnn => Ok(ThreeCellCnnSystem.Rates(x, y, z, v[0], v[2], v[3], v[1]))
    case BoualiType1 => Ok(BoualiSystem.Type1Rates(x, y, z, v[0], v[2], v[1], v[4], v[5], v[3]))
    case BoualiType2 => Ok(BoualiSystem.Type2Rates(x, y, z, v[0], v[2], v[3], v[4], v[1], v[5]))
    case BoualiType3 => Ok(BoualiSystem.Type3Rates(x, y, z, v[2], v[3], v[0], v[1]))
    case Finance => if v[0] == 0.0 then Err(ZeroDivisionError("float division by zero"))
      else Ok(FinanceSystem.Rates(x, y, z, v[1], v[0], v[2]))
    case BurkeShaw => Ok(BurkeShawSystem.Rates(x, y, z, v[0], v[1]))
    case MooreSpiegel => Ok(MooreSpiegelSystem.Rates(x, y, z, v[0], v[1]))
    case Sakarya => Ok(SakaryaSystem.Rates(x, y, z, v[0], v[1]))
    case Dadras => Ok(DadrasSystem.Rates(x, y, z, v[0], v[1], v[2], v[3], v[4]))
    case Halvorsen => Ok(HalvorsenSystem.Rates(x, y, z, v[0]))
    case Hadley => Ok(HadleySystem.Rates(x, y, z, v[0], v[2], v[1], v[3]))
    case Chen => Ok(ChenSystem.Rates(x, y, z, v[0], v[2], v[1]))
    case ChenLee => Ok(ChenLeeSystem.Rates(x, y, z, v[0], v[1], v[2]))
    case ChenLu => Ok(ChenLuSystem.Rates(x, y, z, v[0], v[2], v[1]))
    case Thomas => Ok(ThomasSystem.Rates(np.sin, x, y, z, v[0]))
    case DequanLi => Ok(DequanLiSystem.Rates(x, y, z, v[0], v[4], v[1], v[5], v[2], v[3]))
    case YuWang => Ok(YuWangSystem.Rates(np.exp, x, y, z, v[0], v[1], v[2], v[3]))
    case NewtonLeipnik => Ok(NewtonLeipnikSystem.Rates(x, y, z, v[0], v[1]))
    case Rucklidge => Ok(RucklidgeSystem.Rates(x, y, z, v[0], v[1]))
    case ShimizuMorioka => Ok(ShimizuMoriokaSystem.Rates(x, y, z, v[1], v[0]))
  }

  /**
   * `afunc(self, coord)`: the method reads its attributes, the first missing
   * one raising; `finance` divides by `b` as soon as it has read it, before
   * it reads `a`.
   */
  function Derive(cls: string, k: Kind, attrs: map<string, real>, np: Numpy, c: Vec3): (r: Result<Vec3>)
    ensures r.Ok? <==> (forall i :: 0 <= i < |Reads(k)| ==> Reads(k)[i] in attrs)
                       && !(k == Finance && "b" in attrs && attrs["b"] == 0.0)
    ensures k == Finance && "b" in attrs && attrs["b"] == 0.0 ==> r == Err(ZeroDivisionError("float division by zero"))
    ensures r.Err? && !(k == Finance && "b" in attrs && attrs["b"] == 0.0) ==> r == Err(Lookup(cls, attrs, Reads(k)).error)
    ensures r.Ok? ==> r == Formula(k, Values(attrs, Reads(k)), np, c)
  {
    if k == Finance && "b" in attrs && attrs["b"] == 0.0 then Err(ZeroDivisionError("float division by zero"))
    else
      var _ :- Lookup(cls, attrs, Reads(k));
      Formula(k, Values(attrs, Reads(k)), np, c)
  }

  /** Whether a method succeeds, and the error it raises, do not depend on the point. */
  lemma FailureIgnoresPoint(cls: string, k: Kind, attrs: map<string, real>, np: Numpy, c: Vec3, c': Vec3)
    requires Derive(cls, k, attrs, np, c).Err?
    ensures Derive(cls, k, attrs, np, c') == Derive(cls, k, attrs, np, c)
  {
  }

  /** The current system each method corresponds to, as a callable on a parameter vector. */
  function Registered(k: Kind, np: Numpy): SystemCallable {
    match k
    case Lorenz => LorenzSystem.Derivative
    case RabinovichFabrikant => RabinovichFabrikantSystem.Derivative
    case LotkaVolterra => LotkaVolterraSystem.Derivative
    case Rossler => RosslerSystem.Derivative
    case WangSun => WangSunSystem.Derivative
    case Rikitake => RikitakeSystem.Derivative
    case NoseHoover => NoseHooverSystem.Derivative
    case Langford => LangfordSystem.Derivative
    case ThreeCellCnn => ThreeCellCnnSystem.Derivative
    case BoualiType1 => BoualiSystem.Type1
    case BoualiType2 => BoualiSystem.Type2
    case BoualiType3 => BoualiSystem.Type3
    case Finance => FinanceSystem.Derivative
    case BurkeShaw => BurkeShawSystem.Derivative
    case MooreSpiegel => MooreSpiegelSystem.Derivative
    case Sakarya => SakaryaSystem.Derivative
    case Dadras => DadrasSystem.Derivative
    case Halvorsen => HalvorsenSystem.Derivative
    case Hadley => HadleySystem.Derivative
    case Chen => ChenSystem.Derivative
    case ChenLee => ChenLeeSystem.Derivative
    case ChenLu => ChenLuSystem.Derivative
    case Thomas => ThomasSystem.Callable(np.sin)
    case DequanLi => DequanLiSystem.Derivative
    case YuWang => YuWangSystem.Callable(np.exp)
    case NewtonLeipnik => NewtonLeipnikSystem.Derivative
    case Rucklidge => RucklidgeSystem.Derivative
    case ShimizuMorioka => ShimizuMoriokaSystem.Derivative
  }

  /** The parameter names, in order, that the current system unpacks (`lorenz` is never registered; its unpacking order). */
  function ParamNames(k: Kind): seq<string> {
    match k
    case Lorenz => ["sigma", "rho", "beta"]
    case RabinovichFabrikant => ["alpha", "gamma"]
    case LotkaVolterra => ["a", "b", "c"]
    case Rossler => ["a", "b", "c"]
    case WangSun => ["a", "b", "c", "d", "e", "f"]
    case Rikitake => ["a", "mu"]
    case NoseHoover => ["a"]
    case Langford => ["alpha", "beta", "lmbda", "omega", "rho", "epsilon"]
    case ThreeCellCnn => ["p1", "p2", "r", "s"]
    case BoualiType1 => ["k", "b", "mu", "p", "q", "s"]
    case BoualiType2 => ["a", "b", "c", "s", "alpha", "beta"]
    case BoualiType3 => ["gamma", "mu", "alpha", "beta"]
    case Finance => ["a", "b", "c"]
    case BurkeShaw => ["s", "v"]
    case MooreSpiegel => ["t", "r"]
    case Sakarya => ["a", "b"]
    case Dadras => ["a", "b", "c", "d", "h"]
    case Halvorsen => ["a"]
    case Hadley => ["a", "b", "f", "g"]
    case Chen => ["a", "b", "c"]
    case ChenLee => ["a", "b", "c"]
    case ChenLu => ["a", "b", "c"]
    case Thomas => ["b"]
    case DequanLi => ["a", "c", "d", "e", "k", "f"]
    case YuWang => ["a", "b", "c", "d"]
    case NewtonLeipnik => ["alpha", "beta"]
    case Rucklidge => ["k", "alpha"]
    case ShimizuMorioka => ["a", "B"]
  }

  /** The arguments each current system is registered with. */
  function CurrentArgs(k: Kind): SystemRegistry.RegisterArgs {
    match k
    case Lorenz => LorenzSystem.Args
    case RabinovichFabrikant => RabinovichFabrikantSystem.Args
    case LotkaVolterra => LotkaVolterraSystem.Args
    case Rossler => RosslerSystem.Args
    case WangSun => WangSunSystem.Args
    case Rikitake => RikitakeSystem.Args
    case NoseHoover => NoseHooverSystem.Args
    case Langford => LangfordSystem.Args
    case ThreeCellCnn => ThreeCellCnnSystem.Args
    case BoualiType1 => BoualiSystem.Type1Args
    case BoualiType2 => BoualiSystem.Type2Args
    case BoualiType3 => BoualiSystem.Type3Args
    case Finance => FinanceSystem.Args
    case BurkeShaw => BurkeShawSystem.Args
    case MooreSpiegel => MooreSpiegelSystem.Args
    case Sakarya => SakaryaSystem.Args
    case Dadras => DadrasSystem.Args
    case Halvorsen => HalvorsenSystem.Args
    case Hadley => HadleySystem.Args
    case Chen => ChenSystem.Args
    case ChenLee => ChenLeeSystem.Args
    case ChenLu => ChenLuSystem.Args
    case Thomas => ThomasSystem.Args
    case DequanLi => DequanLiSystem.Args
    case YuWang => YuWangSystem.Args
    case NewtonLeipnik => NewtonLeipnikSystem.Args
    case Rucklidge => RucklidgeSystem.Args
    case ShimizuMorioka => ShimizuMoriokaSystem.Args
  }

  /**
   * The parameter names are the ones the current systems are registered
   * with; `lorenz` registers no names at all.
   */
  lemma ParamNamesRegistered(k: Kind)
    ensures k == Lorenz <==> CurrentArgs(k).paramNames.None?
    ensures k != Lorenz ==> CurrentArgs(k).paramNames == Some(ParamNames(k))
  {
  }

  /** The attribute values of `names`, in order. */
  function Values(attrs: map<string, real>, names: seq<string>): (r: seq<real>)
    requires forall i :: 0 <= i < |names| ==> names[i] in attrs
    ensures |r| == |names| && forall i :: 0 <= i < |names| ==> r[i] == attrs[names[i]]
  {
    seq(|names|, i requires 0 <= i < |names| => attrs[names[i]])
  }

  /** A method reads exactly the parameters its current system takes. */
  lemma ReadsAreParams(k: Kind)
    ensures forall n :: n in Reads(k) <==> n in ParamNames(k)
  {
  }

  /**
   * Given the attributes named by the current system's parameters, each
   * method other than `lorenz` computes what the current system computes on
   * those values in its own order; `finance` agrees wherever `b` is not
   * zero. `lorenz`, whose `dy` ends in `- z`, agrees exactly on the plane
   * `y == z`.
   */
  lemma AgreesWithCurrentSystem(cls: string, k: Kind, attrs: map<string, real>, np: Numpy, c: Vec3)
    requires forall i :: 0 <= i < |ParamNames(k)| ==> ParamNames(k)[i] in attrs
    requires k == Finance ==> "b" !in attrs || attrs["b"] != 0.0
    ensures k != Lorenz ==> Derive(cls, k, attrs, np, c) == Registered(k, np)(c, Values(attrs, ParamNames(k)))
    ensures k == Lorenz ==>
      (Derive(cls, k, attrs, np, c) == Registered(k, np)(c, Values(attrs, ParamNames(k))) <==> c.y == c.z)
  {
    match k
    case Lorenz => AgreesLorenz(cls, attrs, np, c);
    case RabinovichFabrikant => AgreesRabinovichFabrikant(cls, attrs, np, c);
    case LotkaVolterra => AgreesLotkaVolterra(cls, attrs, np, c);
    case Rossler => AgreesRossler(cls, attrs, np, c);
    case WangSun => AgreesWangSun(cls, attrs, np, c);
    case Rikitake => AgreesRikitake(cls, attrs, np, c);
    case NoseHoover => AgreesNoseHoover(cls, attrs, np, c);
    case Langford => AgreesLangford(cls, attrs, np, c);
    case ThreeCellCnn => AgreesThreeCellCnn(cls, attrs, np, c);
    case BoualiType1 => AgreesBoualiType1(cls, attrs, np, c);
    case BoualiType2 => AgreesBoualiType2(cls, attrs, np, c);
    case BoualiType3 => AgreesBoualiType3(cls, attrs, np, c);
    case Finance => AgreesFinance(cls, attrs, np, c);
    case BurkeShaw => AgreesBurkeShaw(cls, attrs, np, c);
    case MooreSpiegel => AgreesMooreSpiegel(cls, attrs, np, c);
    case Sakarya => AgreesSakarya(cls, attrs, np, c);
    case Dadras => AgreesDadras(cls, attrs, np, c);
    case Halvorsen => AgreesHalvorsen(cls, attrs, np, c);
    case Hadley => AgreesHadley(cls, attrs, np, c);
    case Chen => AgreesChen(cls, attrs, np, c);
    case ChenLee => AgreesChenLee(cls, attrs, np, c);
    case ChenLu => AgreesChenLu(cls, attrs, np, c);
    case Thomas => AgreesThomas(cls, attrs, np, c);
    case DequanLi => AgreesDequanLi(cls, attrs, np, c);
    case YuWang => AgreesYuWang(cls, attrs, np, c);
    case NewtonLeipnik => AgreesNewtonLeipnik(cls, attrs, np, c);
    case Rucklidge => AgreesRucklidge(cls, attrs, np, c);
    case ShimizuMorioka => AgreesShimizuMorioka(cls, attrs, np, c);
  }

  /**
   * `lorenz` runs the rates as written, and they are the current system's
   * exactly when `y == z`.
   */
  lemma AgreesLorenz(cls: string, attrs: map<string, real>, np: Numpy, c: Vec3)
    requires forall i :: 0 <= i < |ParamNames(Lorenz)| ==> ParamNames(Lorenz)[i] in attrs
    ensures "sigma" in attrs && "rho" in attrs && "beta" in attrs
    ensures Derive(cls, Lorenz, attrs, np, c)
         == Ok(WrittenLorenzRates(c.x, c.y, c.z, attrs["sigma"], attrs["rho"], attrs["beta"]))
    ensures Derive(cls, Lorenz, attrs, np, c) == Registered(Lorenz, np)(c, Values(attrs, ParamNames(Lorenz)))
            <==> c.y == c.z
  {
    assert ParamNames(Lorenz)[0] == "sigma" && ParamNames(Lorenz)[1] == "rho" && ParamNames(Lorenz)[2] == "beta";
    var sigma, rho, beta := attrs["sigma"], attrs["rho"], attrs["beta"];
    var v := Values(attrs, ParamNames(Lorenz));
    assert v == [sigma, rho, beta];
    var current := LorenzSystem.Derivative(c, v);
    assert current == Ok(LorenzSystem.Rates(c.x, c.y, c.z, sigma, rho, beta));
    WrittenLorenzDiffers(sigma, rho, beta);
  }

  lemma AgreesRabinovichFabrikant(cls: string, attrs: map<string, real>, np: Numpy, c: Vec3)
    requires forall i :: 0 <= i < |ParamNames(RabinovichFabrikant)| ==> ParamNames(RabinovichFabrikant)[i] in attrs
    ensures Derive(cls, RabinovichFabrikant, attrs, np, c) == Registered(RabinovichFabrikant, np)(c, Values(attrs, ParamNames(RabinovichFabrikant)))
  {
  }

  lemma AgreesLotkaVolterra(cls: string, attrs: map<string, real>, np: Numpy, c: Vec3)
    requires forall i :: 0 <= i < |ParamNames(LotkaVolterra)| ==> ParamNames(LotkaVolterra)[i] in attrs
    ensures Derive(cls, LotkaVolterra, attrs, np, c) == Registered(LotkaVolterra, np)(c, Values(attrs, ParamNames(LotkaVolterra)))
  {
  }

  lemma AgreesRossler(cls: string, attrs: map<string, real>, np: Numpy, c: Vec3)
    requires forall i :: 0 <= i < |ParamNames(Rossler)| ==> ParamNames(Rossler)[i] in attrs
    ensures Derive(cls, Rossler, attrs, np, c) == Registered(Rossler, np)(c, Values(attrs, ParamNames(Rossler)))
  {
  }

  lemma AgreesWangSun(cls: string, attrs: map<string, real>, np: Numpy, c: Vec3)
    requires forall i :: 0 <= i < |ParamNames(WangSun)| ==> ParamNames(WangSun)[i] in attrs
    ensures Derive(cls, WangSun, attrs, np, c) == Registered(WangSun, np)(c, Values(attrs, ParamNames(WangSun)))
  {
  }

  lemma AgreesRikitake(cls: string, attrs: map<string, real>, np: Numpy, c: Vec3)
    requires forall i :: 0 <= i < |ParamNames(Rikitake)| ==> ParamNames(Rikitake)[i] in attrs
    ensures Derive(cls, Rikitake, attrs, np, c) == Registered(Rikitake, np)(c, Values(attrs, ParamNames(Rikitake)))
  {
  }

  lemma AgreesNoseHoover(cls: string, attrs: map<string, real>, np: Numpy, c: Vec3)
    requires forall i :: 0 <= i < |ParamNames(NoseHoover)| ==> ParamNames(NoseHoover)[i] in attrs
    ensures Derive(cls, NoseHoover, attrs, np, c) == Registered(NoseHoover, np)(c, Values(attrs, ParamNames(NoseHoover)))
  {
  }

  lemma AgreesLangford(cls: string, attrs: map<string, real>, np: Numpy, c: Vec3)
    requires forall i :: 0 <= i < |ParamNames(Langford)| ==> ParamNames(Langford)[i] in attrs
    ensures Derive(cls, Langford, attrs, np, c) == Registered(Langford, np)(c, Values(attrs, ParamNames(Langford)))
  {
  }

  lemma AgreesThreeCellCnn(cls: string, attrs: map<string, real>, np: Numpy, c: Vec3)
    requires forall i :: 0 <= i < |ParamNames(ThreeCellCnn)| ==> ParamNames(ThreeCellCnn)[i] in attrs
    ensures Derive(cls, ThreeCellCnn, attrs, np, c) == Registered(ThreeCellCnn, np)(c, Values(attrs, ParamNames(ThreeCellCnn)))
  {
  }

  lemma AgreesBoualiType1(cls: string, attrs: map<string, real>, np: Numpy, c: Vec3)
    requires forall i :: 0 <= i < |ParamNames(BoualiType1)| ==> ParamNames(BoualiType1)[i] in attrs
    ensures Derive(cls, BoualiType1, attrs, np, c) == Registered(BoualiType1, np)(c, Values(attrs, ParamNames(BoualiType1)))
  {
  }

  lemma AgreesBoualiType2(cls: string, attrs: map<string, real>, np: Numpy, c: Vec3)
    requires forall i :: 0 <= i < |ParamNames(BoualiType2)| ==> ParamNames(BoualiType2)[i] in attrs
    ensures Derive(cls, BoualiType2, attrs, np, c) == Registered(BoualiType2, np)(c, Values(attrs, ParamNames(BoualiType2)))
  {
  }

  lemma AgreesBoualiType3(cls: string, attrs: map<string, real>, np: Numpy, c: Vec3)
    requires forall i :: 0 <= i < |ParamNames(BoualiType3)| ==> ParamNames(BoualiType3)[i] in attrs
    ensures Derive(cls, BoualiType3, attrs, np, c) == Registered(BoualiType3, np)(c, Values(attrs, ParamNames(BoualiType3)))
  {
  }

  lemma AgreesFinance(cls: string, attrs: map<string, real>, np: Numpy, c: Vec3)
    requires forall i :: 0 <= i < |ParamNames(Finance)| ==> ParamNames(Finance)[i] in attrs
    requires "b" !in attrs || attrs["b"] != 0.0
    ensures Derive(cls, Finance, attrs, np, c) == Registered(Finance, np)(c, Values(attrs, ParamNames(Finance)))
  {
  }

  lemma AgreesBurkeShaw(cls: string, attrs: map<string, real>, np: Numpy, c: Vec3)
    requires forall i :: 0 <= i < |ParamNames(BurkeShaw)| ==> ParamNames(BurkeShaw)[i] in attrs
    ensures Derive(cls, BurkeShaw, attrs, np, c) == Registered(BurkeShaw, np)(c, Values(attrs, ParamNames(BurkeShaw)))
  {
  }

  lemma AgreesMooreSpiegel(cls: string, attrs: map<string, real>, np: Numpy, c: Vec3)
    requires forall i :: 0 <= i < |ParamNames(MooreSpiegel)| ==> ParamNames(MooreSpiegel)[i] in attrs
    ensures Derive(cls, MooreSpiegel, attrs, np, c) == Registered(MooreSpiegel, np)(c, Values(attrs, ParamNames(MooreSpiegel)))
  {
  }

  lemma AgreesSakarya(cls: string, attrs: map<string, real>, np: Numpy, c: Vec3)
    requires forall i :: 0 <= i < |ParamNames(Sakarya)| ==> ParamNames(Sakarya)[i] in attrs
    ensures Derive(cls, Sakarya, attrs, np, c) == Registered(Sakarya, np)(c, Values(attrs, ParamNames(Sakarya)))
  {
  }

  lemma AgreesDadras(cls: string, attrs: map<string, real>, np: Numpy, c: Vec3)
    requires forall i :: 0 <= i < |ParamNames(Dadras)| ==> ParamNames(Dadras)[i] in attrs
    ensures Derive(cls, Dadras, attrs, np, c) == Registered(Dadras, np)(c, Values(attrs, ParamNames(Dadras)))
  {
  }

  lemma AgreesHalvorsen(cls: string, attrs: map<string, real>, np: Numpy, c: Vec3)
    requires forall i :: 0 <= i < |ParamNames(Halvorsen)| ==> ParamNames(Halvorsen)[i] in attrs
    ensures Derive(cls, Halvorsen, attrs, np, c) == Registered(Halvorsen, np)(c, Values(attrs, ParamNames(Halvorsen)))
  {
  }

  lemma AgreesHadley(cls: string, attrs: map<string, real>, np: Numpy, c: Vec3)
    requires forall i :: 0 <= i < |ParamNames(Hadley)| ==> ParamNames(Hadley)[i] in attrs
    ensures Derive(cls, Hadley, attrs, np, c) == Registered(Hadley, np)(c, Values(attrs, ParamNames(Hadley)))
  {
  }

  lemma AgreesChen(cls: string, attrs: map<string, real>, np: Numpy, c: Vec3)
    requires forall i :: 0 <= i < |ParamNames(Chen)| ==> ParamNames(Chen)[i] in attrs
    ensures Derive(cls, Chen, attrs, np, c) == Registered(Chen, np)(c, Values(attrs, ParamNames(Chen)))
  {
  }

  lemma AgreesChenLee(cls: string, attrs: map<string, real>, np: Numpy, c: Vec3)
    requires forall i :: 0 <= i < |ParamNames(ChenLee)| ==> ParamNames(ChenLee)[i] in attrs
    ensures Derive(cls, ChenLee, attrs, np, c) == Registered(ChenLee, np)(c, Values(attrs, ParamNames(ChenLee)))
  {
  }

  lemma AgreesChenLu(cls: string, attrs: map<string, real>, np: Numpy, c: Vec3)
    requires forall i :: 0 <= i < |ParamNames(ChenLu)| ==> ParamNames(ChenLu)[i] in attrs
    ensures Derive(cls, ChenLu, attrs, np, c) == Registered(ChenLu, np)(c, Values(attrs, ParamNames(ChenLu)))
  {
  }

  lemma AgreesThomas(cls: string, attrs: map<string, real>, np: Numpy, c: Vec3)
    requires forall i :: 0 <= i < |ParamNames(Thomas)| ==> ParamNames(Thomas)[i] in attrs
    ensures Derive(cls, Thomas, attrs, np, c) == Registered(Thomas, np)(c, Values(attrs, ParamNames(Thomas)))
  {
  }

  lemma AgreesDequanLi(cls: string, attrs: map<string, real>, np: Numpy, c: Vec3)
    requires forall i :: 0 <= i < |ParamNames(DequanLi)| ==> ParamNames(DequanLi)[i] in attrs
    ensures Derive(cls, DequanLi, attrs, np, c) == Registered(DequanLi, np)(c, Values(attrs, ParamNames(DequanLi)))
  {
  }

  lemma AgreesYuWang(cls: string, attrs: map<string, real>, np: Numpy, c: Vec3)
    requires forall i :: 0 <= i < |ParamNames(YuWang)| ==> ParamNames(YuWang)[i] in attrs
    ensures Derive(cls, YuWang, attrs, np, c) == Registered(YuWang, np)(c, Values(attrs, ParamNames(YuWang)))
  {
  }

  lemma AgreesNewtonLeipnik(cls: string, attrs: map<string, real>, np: Numpy, c: Vec3)
    requires forall i :: 0 <= i < |ParamNames(NewtonLeipnik)| ==> ParamNames(NewtonLeipnik)[i] in attrs
    ensures Derive(cls, NewtonLeipnik, attrs, np, c) == Registered(NewtonLeipnik, np)(c, Values(attrs, ParamNames(NewtonLeipnik)))
  {
  }

  lemma AgreesRucklidge(cls: string, attrs: map<string, real>, np: Numpy, c: Vec3)
    requires forall i :: 0 <= i < |ParamNames(Rucklidge)| ==> ParamNames(Rucklidge)[i] in attrs
    ensures Derive(cls, Rucklidge, attrs, np, c) == Registered(Rucklidge, np)(c, Values(attrs, ParamNames(Rucklidge)))
  {
  }

  lemma AgreesShimizuMorioka(cls: string, attrs: map<string, real>, np: Numpy, c: Vec3)
    requires forall i :: 0 <= i < |ParamNames(ShimizuMorioka)| ==> ParamNames(ShimizuMorioka)[i] in attrs
    ensures Derive(cls, ShimizuMorioka, attrs, np, c) == Registered(ShimizuMorioka, np)(c, Values(attrs, ParamNames(ShimizuMorioka)))
  {
  }

  /**
   * The legacy `lorenz` rates as the method writes them: `dy` subtracts
   * `z` where the Lorenz equations subtract `y`. `Formula` runs these.
   */
  function WrittenLorenzRates(x: real, y: real, z: real, sigma: real, rho: real, beta: real): (r: Vec3)
    ensures r.x == LorenzSystem.Rates(x, y, z, sigma, rho, beta).x
    ensures r.z == LorenzSystem.Rates(x, y, z, sigma, rho, beta).z
    ensures r.y - LorenzSystem.Rates(x, y, z, sigma, rho, beta).y == y - z
  {
    Vec3(sigma * (y - x), x * (rho - z) - z, x * y - beta * z)
  }

  /**
   * The written rates differ from the Lorenz equations exactly off the
   * plane `y == z`: at `(0, 0, 1)` they give `dy == -1` where the equations
   * give 0, and there they break the Lorenz system's symmetry under
   * `(x, y, z) -> (-x, -y, z)`, which the corrected rates keep.
   */
  lemma WrittenLorenzDiffers(sigma: real, rho: real, beta: real)
    ensures forall x, y, z :: WrittenLorenzRates(x, y, z, sigma, rho, beta) == LorenzSystem.Rates(x, y, z, sigma, rho, beta) <==> y == z
    ensures WrittenLorenzRates(0.0, 0.0, 1.0, sigma, rho, beta).y == -1.0
    ensures LorenzSystem.Rates(0.0, 0.0, 1.0, sigma, rho, beta).y == 0.0
    ensures WrittenLorenzRates(-1.0, 0.0, 1.0, sigma, rho, beta) != FlipXY(WrittenLorenzRates(1.0, 0.0, 1.0, sigma, rho, beta))
    ensures LorenzSystem.Rates(-1.0, 0.0, 1.0, sigma, rho, beta) == FlipXY(LorenzSystem.Rates(1.0, 0.0, 1.0, sigma, rho, beta))
  {
    LorenzSystem.RatesFlip(1.0, 0.0, 1.0, sigma, rho, beta);
  }

  /** `params[prm]` for every listed name up to the first one missing, as `_func_params` assigns them. */
  function Assign(attrs: map<string, real>, names: seq<string>, params: map<string, real>): map<string, real>
    decreases |names|
  {
    if names == [] || names[0] !in params then attrs
    else Assign(attrs[names[0] := params[names[0]]], names[1..], params)
  }

  /** The index of the first listed name missing from `params`, or `|names|` when none is. */
  function FirstMissing(names: seq<string>, params: map<string, real>): (i: nat)
    ensures i <= |names|
    ensures forall j :: 0 <= j < i ==> names[j] in params
    ensures i < |names| ==> names[i] !in params
    decreases |names|
  {
    if names == [] || names[0] !in params then 0
    else
      var i := FirstMissing(names[1..], params);
      assert forall j :: 1 <= j < |names| ==> names[j] == names[1..][j - 1];
      i + 1
  }

  /**
   * The attributes after `_func_params`: the names before the first missing
   * one take their `params` value (a later duplicate wins), every other
   * attribute keeps its value, and nothing else is added.
   */
  lemma {:induction false} AssignContents(attrs: map<string, real>, names: seq<string>, params: map<string, real>)
    ensures var m := FirstMissing(names, params);
      && (forall n :: n in Assign(attrs, names, params) <==> n in attrs || n in names[..m])
      && (forall n :: n in names[..m] ==> Assign(attrs, names, params)[n] == params[n])
      && (forall n :: n in attrs && n !in names[..m] ==> Assign(attrs, names, params)[n] == attrs[n])
    decreases |names|
  {
    if names != [] && names[0] in params {
      var m := FirstMissing(names, params);
      var a' := attrs[names[0] := params[names[0]]];
      AssignContents(a', names[1..], params);
      assert names[..m] == [names[0]] + names[1..][..m - 1];
    }
  }

  /** Whether the assignment completes: every listed name is a key of `params`. */
  predicate AllPresent(names: seq<string>, params: map<string, real>) {
    forall j :: 0 <= j < |names| ==> names[j] in params
  }

  lemma AllPresentFirstMissing(names: seq<string>, params: map<string, real>)
    ensures AllPresent(names, params) <==> FirstMissing(names, params) == |names|
  {
  }

  /** Keys of `params` that are not listed play no part: two dictionaries agreeing on the listed names assign the same. */
  lemma {:induction false} AssignIgnoresExtra(attrs: map<string, real>, names: seq<string>, params: map<string, real>,
                                              params': map<string, real>)
    requires forall n :: n in names ==> (n in params <==> n in params') && (n in params ==> params[n] == params'[n])
    ensures Assign(attrs, names, params) == Assign(attrs, names, params')
    decreases |names|
  {
    if names != [] && names[0] in params {
      AssignIgnoresExtra(attrs[names[0] := params[names[0]]], names[1..], params, params');
    }
  }

  /** The error `_func_params` raises for an unknown attractor or a missing parameter. */
  function ParamError(attractor: string): Error {
    Exception("Parameter argument error. Invalid parameter for " + attractor + " attractor.")
  }

  /**
   * A `BaseAttractors` object: its attractor name and the parameter
   * attributes `_func_params` has set on it.
   */
  class BaseAttractors {
    const attractor: string
    var attrs: map<string, real>

    /** The object before `_func_params` has run. */
    constructor(attractor: string)
      ensures this.attractor == attractor && attrs == map[]
    {
      this.attractor := attractor;
      attrs := map[];
    }

    /**
     * `_func_params(params)`: for each name the parameter table lists for
     * the attractor, in order, sets the attribute to `params[name]`. An
     * attractor missing from the table, or a name missing from `params`,
     * raises; the names assigned before that stay assigned.
     */
    method FuncParams(table: map<string, seq<string>>, params: map<string, real>) returns (r: Result<()>)
      modifies this
      ensures r.Ok? <==> attractor in table && AllPresent(table[attractor], params)
      ensures r.Err? ==> r.error == ParamError(attractor)
      ensures attractor !in table ==> attrs == old(attrs)
      ensures attractor in table ==> attrs == Assign(old(attrs), table[attractor], params)
    {
      if attractor !in table {
        return Err(ParamError(attractor));
      }
      var names := table[attractor];
      var i := 0;
      while i < |names|
        invariant 0 <= i <= |names|
        invariant forall j :: 0 <= j < i ==> names[j] in params
        invariant Assign(old(attrs), names, params) == Assign(attrs, names[i..], params)
      {
        if names[i] !in params {
          return Err(ParamError(attractor));
        }
        assert names[i..][1..] == names[i + 1..];
        attrs := attrs[names[i] := params[names[i]]];
        i := i + 1;
      }
      return Ok(());
    }
  }

  /** `BaseAttractors(attractor, params)`: the object, or the error `_func_params` raised. */
  method NewBase(attractor: string, table: map<string, seq<string>>, params: map<string, real>)
    returns (r: Result<BaseAttractors>)
    ensures r.Ok? <==> attractor in table && AllPresent(table[attractor], params)
    ensures r.Err? ==> r.error == ParamError(attractor)
    ensures r.Ok? ==> fresh(r.value) && r.value.attractor == attractor
                      && r.value.attrs == Assign(map[], table[attractor], params)
  {
    var obj := new BaseAttractors(attractor);
    var res := obj.FuncParams(table, params);
    if res.Err? {
      return Err(res.error);
    }
    return Ok(obj);
  }
}
