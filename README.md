# attractors — a Dafny model of the integration core

`attractors` simulates chaotic attractors. Each dynamical system is a
derivative function `(state, params) -> [dx, dy, dz]`. It is registered
under a name, together with its parameter names, defaults, initial
coordinate and plot limits. Each fixed-step solver (`euler`, `rk2`, `rk3`,
`rk4`, `rk5`, `stormer_verlet`) is registered in the same way.
`integrate_system` runs a solver over a system for a number of steps and
returns the trajectory and its time axis. Around that core sit a theme
table, hex-colour parsing, colour mappers and a trajectory downsampler
used by the visualisers. The repository also keeps its first-generation
package (`attractors/utils`) and two root prototypes (`lorenz.py`,
`attractors2.py`). These integrate the same equations with generators and
classes that mutate their state.

The files under `model/` model all of these:

- **Numbers and errors.** Float64 values are Dafny `real`, and a state is
  a `Vec3`. Every Python exception the code can raise is an `Err` of a
  `Result`, so error paths are modelled rather than excluded.
- **Systems** (`system_*.dfy`). One module per file of
  `src/attractors/systems`. Each module holds:
  - the registration metadata;
  - the derivative, including the tuple-unpacking and indexing errors;
  - lemmas for the symmetries and equilibria the equations have.
- **Solvers** (`euler.dfy` … `stormer_verlet.dfy`, `tableau.dfy`). Each
  step is written as in the source. A lemma proves it equal to a generic
  explicit Runge–Kutta step over its Butcher tableau. The tableau lemmas
  give equilibrium preservation and exactness on constant fields.
- **Engine** (`core.dfy`). `_integrate_trajectory_impl` is a method
  filling fresh arrays. Its loop is proved against the iteration function
  `Iter`.
- **Registries and theme table** (`system_registry.dfy`,
  `solver_registry.dfy`, `theme_manager.dfy`). Each class-level table is a
  Dafny `class`. Its methods are proved to follow specification functions
  on an abstract `Table`, and the lemmas are stated on those functions.
- **Small transforms** (`hex.dfy`, `linspace.dfy`, `colortable.dfy`,
  `theme.dfy`, `downsampler.dfy`, `color_mapper.dfy`). Pure functions
  with their properties, plus a method for the one loop that fills the
  colormap's segment data.
- **First-generation code** (`legacy_*.dfy`, `attractors2.dfy`):
  - the stage arithmetic is proved equal to the current solvers;
  - the attribute-setting constructors become methods over a `map`;
  - the generator of `DES` and the sampling loops of `RK` and the `Lorenz`
    prototype become methods. Their results are tied to the iteration and
    to the path of states.

A note on `rk5`. The current solver (`src/attractors/solvers/rk5.py:12-13`)
and both legacy copies use two coefficients that differ from Butcher's
fifth-order tableau:
- the `k4` stage point is `s + dt*(k3 - k2/2 + k3)`, where Butcher has
  `k3 - k2/2`;
- the `k5` point starts with `-3*k1/16`, where Butcher has `+3*k1/16`.

The weights still sum to one, so equilibria and constant fields are
handled exactly, and the model keeps the coefficients as written. The
lemmas `Rk5.WrittenOnRamp` and `Rk5.ReferenceOnRamp` use the field
`(1, x, y)`. From the origin with `dt = 1`, the exact flow ends at
`(1, 1/2, 1/6)`. The written step ends at `(1, 1/2, 7/30)`, and Butcher's
tableau ends at `(1, 1/2, 1/6)`.

## Model

| member | source | states |
|---|---|---|
| `Registration.Admission` | src/attractors/solvers/registry.py:99-106 | Ok with the name exactly when the name is a string, the object callable and the name new; otherwise, in the source's order, TypeError "Name must be string", TypeError "Must register callable", ValueError "<Kind> <name> already registered" |
| `SolverRegistry.Solver.GetFunc` | src/attractors/solvers/registry.py:31-41 | The compiled function when asked for it, the original one otherwise |
| `SolverRegistry.Register` | src/attractors/solvers/registry.py:74-113 | Calling `register(name)` never raises: every check is deferred to the decorator, which remembers the name |
| `SolverRegistry.Registry.constructor` | src/attractors/solvers/registry.py:72 | The class-level table starts empty, with an empty key order |
| `SolverRegistry.Registry.Decorate` | src/attractors/solvers/registry.py:99-110 | A failed guard returns its error and leaves the table untouched; otherwise `Solver(f, jit(f), name)` is stored under the name, the name goes to the end of the key order, `f` is returned, and the key order stays duplicate-free and equal to the table's keys |
| `SolverRegistry.Registry.Get` | src/attractors/solvers/registry.py:116-133 | The stored entry exactly when the name is registered; KeyError "Solver <name> not found" otherwise |
| `SolverRegistry.Registry.ListSolvers` | src/attractors/solvers/registry.py:136-143 | The registered names in insertion order, each once, and exactly the names `get` accepts |
| `SolversPackage.NamesDistinct` | src/attractors/solvers/__init__.py:3 | The names "euler", "rk2", "rk3", "rk4", "rk5" and "stormer_verlet" are pairwise different, so no import collides |
| `SolversPackage.ImportSolvers` | src/attractors/solvers/__init__.py:3 | Importing the package on an empty table succeeds and registers euler, rk2, rk3, rk4 and rk5 in that order with their step functions; "stormer_verlet" stays unregistered and `get` raises KeyError for it |
| `SystemRegistry.System.constructor` | src/attractors/systems/registry.py:11-20 | The record holds exactly the eight fields it is built from |
| `SystemRegistry.System.SetParams` | src/attractors/systems/registry.py:22-26 | The parameters are replaced exactly when there is one per parameter name; otherwise ValueError "Expected <n> parameters" and they are unchanged; a record with a three-component start becomes consistent |
| `SystemRegistry.System.SetInitCoord` | src/attractors/systems/registry.py:28-31 | The initial coordinate is replaced exactly when it has three components; otherwise ValueError "State vector must have length 3" and it is unchanged; consistency then holds exactly when the call succeeded or held before |
| `SystemRegistry.System.GetFunc` | src/attractors/systems/registry.py:33-34 | The compiled function when asked for it, the original one otherwise |
| `SystemRegistry.MissingKeywords` | src/attractors/systems/registry.py:44-53 | The list of missing required keyword-only arguments is empty exactly when `default_params`, `param_names` and `init_coord` are all given |
| `SystemRegistry.Register` | src/attractors/systems/registry.py:44-77 | The call binds exactly when the three required keyword-only arguments are given, and the decorator then carries every argument unchanged; otherwise a TypeError |
| `SystemRegistry.MetadataUnchecked` | src/attractors/systems/registry.py:54-75 | `register` checks neither the number of defaults against the names nor the length of the start: such metadata binds and yields an inconsistent record |
| `SystemRegistry.Registry.constructor` | src/attractors/systems/registry.py:41 | The class-level table starts empty, with an empty key order |
| `SystemRegistry.Registry.Decorate` | src/attractors/systems/registry.py:54-75 | A failed guard returns its error and leaves the table untouched; otherwise one fresh record built from the decorator's metadata is stored under the name, the name goes to the end of the key order, `f` is returned, and every other entry is unchanged |
| `SystemRegistry.Registry.Get` | src/attractors/systems/registry.py:79-84 | The stored record exactly when the name is registered; KeyError "System <name> not found" otherwise |
| `SystemRegistry.Registry.ListSystems` | src/attractors/systems/registry.py:86-88 | The registered names in registration order, each once, and exactly the names `get` accepts |
| `Core.IntegrateTrajectoryImpl` | src/attractors/solvers/core.py:17-34 | Succeeds exactly when all `steps` solver steps do, else returns the first step's error; on success fresh `steps x 3` and `steps` arrays where row `j` is the state after `j + 1` steps from the start and `time[j] == j * dt` |
| `Core.IntegrateSystem` | src/attractors/solvers/core.py:41-82 | `steps <= 0` and then `dt <= 0` raise their ValueErrors first; otherwise, with JIT the default, the result is the trajectory of the chosen system and solver functions from the system's initial coordinate and parameters, rows and times as above, or the error that computation raises |
| `Core.ErrorPersists` | src/attractors/solvers/core.py:29-30 | Once a step raises, every longer run raises the same error |
| `Core.IterAdd` | src/attractors/solvers/core.py:29-30 | Running `m` steps and then `n` more from where they ended is running `m + n` steps |
| `Core.FixedPointRepeats` | src/attractors/solvers/core.py:29-31 | A state the solver step maps to itself is every state of the trajectory |
| `Euler.Step` | src/attractors/solvers/euler.py:5-9 | Fails exactly when the derivative does, with its error; a zero derivative or a zero `dt` leaves the state unchanged |
| `Euler.WeightsSumToOne` | src/attractors/solvers/euler.py:9 | The one-stage tableau is well formed and its weight is 1 |
| `Euler.IsExplicitRk` | src/attractors/solvers/euler.py:5-9 | The step is the explicit Runge-Kutta method of the one-stage tableau, results and errors alike |
| `Euler.ConstantDerivative` | src/attractors/solvers/euler.py:9 | Under a derivative that is `c` everywhere the step moves the state by exactly `dt * c` |
| `Rk2.Step` | src/attractors/solvers/rk2.py:5-11 | A failing first derivative evaluation fails the step with its error |
| `Rk2.WeightsSumToOne` | src/attractors/solvers/rk2.py:11 | Heun's tableau is well formed and its weights 1/2, 1/2 sum to 1 |
| `Rk2.IsExplicitRk` | src/attractors/solvers/rk2.py:9-11 | The step is the explicit Runge-Kutta method of Heun's tableau (stage at the full step, weights 1/2, 1/2), results and errors alike |
| `Rk2.EquilibriumKept` | src/attractors/solvers/rk2.py:9-11 | An equilibrium of the system is a fixed point of the step |
| `Rk2.ConstantDerivative` | src/attractors/solvers/rk2.py:9-11 | Under a derivative that is `c` everywhere the step moves the state by exactly `dt * c` |
| `Rk3.Step` | src/attractors/solvers/rk3.py:5-10 | A failing first derivative evaluation fails the step with its error |
| `Rk3.WeightsSumToOne` | src/attractors/solvers/rk3.py:10 | Kutta's third-order tableau is well formed and its weights 1/6, 4/6, 1/6 sum to 1 |
| `Rk3.IsExplicitRk` | src/attractors/solvers/rk3.py:7-10 | The step is the explicit Runge-Kutta method with nodes 0, 1/2, 1, stage rows `[1/2]`, `[-1, 2]` and weights 1/6, 4/6, 1/6, results and errors alike |
| `Rk3.EquilibriumKept` | src/attractors/solvers/rk3.py:7-10 | An equilibrium of the system is a fixed point of the step |
| `Rk3.ConstantDerivative` | src/attractors/solvers/rk3.py:7-10 | Under a derivative that is `c` everywhere the step moves the state by exactly `dt * c` |
| `Rk4.Step` | src/attractors/solvers/rk4.py:5-13 | A failing first derivative evaluation fails the step with its error |
| `Rk4.WeightsSumToOne` | src/attractors/solvers/rk4.py:13 | The classical tableau is well formed and its weights 1/6, 1/3, 1/3, 1/6 sum to 1 |
| `Rk4.IsExplicitRk` | src/attractors/solvers/rk4.py:9-13 | The step is the classical fourth-order Runge-Kutta method (nodes 0, 1/2, 1/2, 1), results and errors alike |
| `Rk4.EquilibriumKept` | src/attractors/solvers/rk4.py:9-13 | An equilibrium of the system is a fixed point of the step |
| `Rk4.ConstantDerivative` | src/attractors/solvers/rk4.py:9-13 | Under a derivative that is `c` everywhere the step moves the state by exactly `dt * c` |
| `Rk5.Step` | src/attractors/solvers/rk5.py:5-19 | A failing first derivative evaluation fails the step with its error |
| `Rk5.WeightsSumToOne` | src/attractors/solvers/rk5.py:19 | The written tableau is well formed, its weights 7, 0, 32, 12, 32, 7 over 90 sum to 1 and `k2` has weight 0 |
| `Rk5.IsExplicitRk` | src/attractors/solvers/rk5.py:9-19 | The step is the explicit Runge-Kutta method of the tableau with the coefficients as written (the `k4` row is `0, -1/2, 2`, the `k5` row `-3/16, 0, 0, 9/16`), results and errors alike |
| `Rk5.EquilibriumKept` | src/attractors/solvers/rk5.py:9-19 | An equilibrium of the system is a fixed point of the step |
| `Rk5.ConstantDerivative` | src/attractors/solvers/rk5.py:9-19 | Under a derivative that is `c` everywhere the step moves the state by exactly `dt * c` |
| `Rk5.StepOfStages` | src/attractors/solvers/rk5.py:9-19 | Given the six stage derivatives at the written stage points, the step is `s + dt * (7 k1 + 32 k3 + 12 k4 + 32 k5 + 7 k6) / 90` |
| `Rk5.WrittenOnRamp` | src/attractors/solvers/rk5.py:12-13 | On the field `(1, x, y)` from the origin with `dt = 1` the written step ends at `(1, 1/2, 7/30)`, while the exact flow reaches `(1, 1/2, 1/6)` |
| `Rk5.ReferenceOnRamp` | src/attractors/solvers/rk5.py:9-19 | Butcher's fifth-order tableau (`k4` row `0, -1/2, 1`, `k5` row `3/16, 0, 0, 9/16`, same weights) takes the same step exactly to `(1, 1/2, 1/6)` |
| `StormerVerlet.Step` | src/attractors/solvers/stormer_verlet.py:5-13 | A failing first derivative evaluation fails the step with its error |
| `StormerVerlet.WeightsSumToOne` | src/attractors/solvers/stormer_verlet.py:13 | The tableau is well formed and its weights 0, 1 sum to 1 |
| `StormerVerlet.IsExplicitRk` | src/attractors/solvers/stormer_verlet.py:9-13 | The step is the explicit midpoint method on the whole state (stage at the half step, all weight on it), not a position/velocity split, results and errors alike |
| `StormerVerlet.EquilibriumKept` | src/attractors/solvers/stormer_verlet.py:9-13 | An equilibrium of the system is a fixed point of the step |
| `StormerVerlet.ConstantDerivative` | src/attractors/solvers/stormer_verlet.py:9-13 | Under a derivative that is `c` everywhere the step moves the state by exactly `dt * c` |
| `Core.RowsOk` | src/attractors/solvers/core.py:29-31 | The trajectory of `n` rows exists exactly when `n` steps succeed, and otherwise fails with the same error |
| `Core.RowsAgree` | src/attractors/solvers/core.py:29-31 | Row `j` of the trajectory is the state after `j + 1` steps |
| `Bouali.Metadata` | src/attractors/systems/bouali.py:7-57 | All three registrations bind, with string names, 6, 6 and 4 defaults matching as many parameter names, a three-component start and ordered plot limits on every axis |
| `Bouali.Type1` | src/attractors/systems/bouali.py:18-27 | `bouali_type_1`: Ok exactly when `k, b, mu, p, q, s = params` gets six values; the unpack ValueError otherwise |
| `Bouali.Type2` | src/attractors/systems/bouali.py:38-47 | `bouali_type_2`: Ok exactly when `a, b, c, s, alpha, beta = params` gets six values; the unpack ValueError otherwise |
| `Bouali.Type3` | src/attractors/systems/bouali.py:58-67 | `bouali_type_3`: Ok exactly when `gamma, mu, alpha, beta = params` gets four values; the unpack ValueError otherwise |
| `Bouali.OriginIsEquilibrium` | src/attractors/systems/bouali.py:18-67 | For all three types and any parameters the origin is an equilibrium |
| `Bouali.InvariantPlane` | src/attractors/systems/bouali.py:38-67 | For types 2 and 3 the plane `y == 0` is invariant |
| `BurkeShaw.Metadata` | src/attractors/systems/burke_shaw.py:7-17 | The registration binds: a string name, two default values and as many parameter names, a three-component initial coordinate and ordered plot limits on every axis |
| `BurkeShaw.Derivative` | src/attractors/systems/burke_shaw.py:18-25 | Ok exactly when `s, v = params` gets two values; the unpack ValueError otherwise |
| `BurkeShaw.RatesFlip` | src/attractors/systems/burke_shaw.py:18-25 | For all parameters, the rates at `(-x, -y, z)` are `(-dx, -dy, dz)` |
| `BurkeShaw.FlipSymmetry` | src/attractors/systems/burke_shaw.py:18-25 | The callable commutes with the reflection `(x, y, z) -> (-x, -y, z)`, so mirrored states have mirrored derivatives |
| `BurkeShaw.AtOrigin` | src/attractors/systems/burke_shaw.py:18-25 | At the origin the rates are `(0, 0, v)`: the origin is an equilibrium exactly when `v == 0` |
| `Chen.Metadata` | src/attractors/systems/chen.py:7-17 | The registration binds: a string name, three default values and as many parameter names, a three-component initial coordinate and ordered plot limits on every axis |
| `Chen.Derivative` | src/attractors/systems/chen.py:18-25 | Ok exactly when `a, b, c = params` gets three values; the unpack ValueError otherwise |
| `Chen.OriginIsEquilibrium` | src/attractors/systems/chen.py:18-25 | For any parameter vector of the accepted length, the rates at the origin are zero |
| `Chen.RatesFlip` | src/attractors/systems/chen.py:18-25 | For all parameters, the rates at `(-x, -y, z)` are `(-dx, -dy, dz)` |
| `Chen.FlipSymmetry` | src/attractors/systems/chen.py:18-25 | The callable commutes with the reflection `(x, y, z) -> (-x, -y, z)`, so mirrored states have mirrored derivatives |
| `ChenLee.Metadata` | src/attractors/systems/chen_lee.py:7-17 | The registration binds: a string name, three default values and as many parameter names, a three-component initial coordinate and ordered plot limits on every axis |
| `ChenLee.Derivative` | src/attractors/systems/chen_lee.py:18-25 | Ok exactly when `a, b, c = params` gets three values; the unpack ValueError otherwise |
| `ChenLee.OriginIsEquilibrium` | src/attractors/systems/chen_lee.py:18-25 | For any parameter vector of the accepted length, the rates at the origin are zero |
| `ChenLee.RatesFlip` | src/attractors/systems/chen_lee.py:18-25 | For all parameters, the rates at `(-x, -y, z)` are `(-dx, -dy, dz)` |
| `ChenLee.FlipSymmetry` | src/attractors/systems/chen_lee.py:18-25 | The callable commutes with the reflection `(x, y, z) -> (-x, -y, z)`, so mirrored states have mirrored derivatives |
| `ChenLu.Metadata` | src/attractors/systems/chen_lu.py:7-17 | The registration binds: a string name, three default values and as many parameter names, a three-component initial coordinate and ordered plot limits on every axis |
| `ChenLu.Derivative` | src/attractors/systems/chen_lu.py:18-25 | Ok exactly when `a, b, c = params` gets three values; the unpack ValueError otherwise |
| `ChenLu.OriginIsEquilibrium` | src/attractors/systems/chen_lu.py:18-25 | For any parameter vector of the accepted length, the rates at the origin are zero |
| `ChenLu.RatesFlip` | src/attractors/systems/chen_lu.py:18-25 | For all parameters, the rates at `(-x, -y, z)` are `(-dx, -dy, dz)` |
| `ChenLu.FlipSymmetry` | src/attractors/systems/chen_lu.py:18-25 | The callable commutes with the reflection `(x, y, z) -> (-x, -y, z)`, so mirrored states have mirrored derivatives |
| `Dadras.Metadata` | src/attractors/systems/dadras.py:7-17 | The registration binds: a string name, five default values and as many parameter names, a three-component initial coordinate and ordered plot limits on every axis |
| `Dadras.Derivative` | src/attractors/systems/dadras.py:18-25 | Ok exactly when `a, b, c, d, h = params` gets five values; the unpack ValueError otherwise |
| `Dadras.OriginIsEquilibrium` | src/attractors/systems/dadras.py:18-25 | For any parameter vector of the accepted length, the rates at the origin are zero |
| `DequanLi.Metadata` | src/attractors/systems/dequan_li.py:7-20 | The registration binds: a string name, six default values and as many parameter names, a three-component initial coordinate and ordered plot limits on every axis |
| `DequanLi.Derivative` | src/attractors/systems/dequan_li.py:21-28 | Ok exactly when `a, c, d, e, k, f = params` gets six values; the unpack ValueError otherwise |
| `DequanLi.OriginIsEquilibrium` | src/attractors/systems/dequan_li.py:21-28 | For any parameter vector of the accepted length, the rates at the origin are zero |
| `DequanLi.RatesFlip` | src/attractors/systems/dequan_li.py:21-28 | For all parameters, the rates at `(-x, -y, z)` are `(-dx, -dy, dz)` |
| `DequanLi.FlipSymmetry` | src/attractors/systems/dequan_li.py:21-28 | The callable commutes with the reflection `(x, y, z) -> (-x, -y, z)`, so mirrored states have mirrored derivatives |
| `Finance.Metadata` | src/attractors/systems/finance.py:7-17 | The registration binds: a string name, three default values and as many parameter names, a three-component initial coordinate and ordered plot limits on every axis |
| `Finance.Derivative` | src/attractors/systems/finance.py:18-25 | Ok exactly when `a, b, c = params` gets three values and `b != 0`; the unpack error otherwise, and a non-finite result for `b == 0` (the `1 / b` term) |
| `Finance.OriginIsEquilibrium` | src/attractors/systems/finance.py:18-25 | For three parameters with `b != 0`, the rates at the origin are zero |
| `Hadley.Metadata` | src/attractors/systems/hadley.py:7-16 | The registration binds: a string name, four default values and as many parameter names, a three-component initial coordinate and ordered plot limits on every axis |
| `Hadley.Derivative` | src/attractors/systems/hadley.py:17-24 | Ok exactly when `a, b, f, g = params` gets four values; the unpack ValueError otherwise |
| `Hadley.RelaxationBound` | src/attractors/systems/hadley.py:17-24 | The squared terms only pull `x` down: `dx <= -a * (x - f)` everywhere |
| `Halvorsen.Metadata` | src/attractors/systems/halvorsen.py:7-16 | The registration binds: a string name, one default value and as many parameter names, a three-component initial coordinate and ordered plot limits on every axis |
| `Halvorsen.Derivative` | src/attractors/systems/halvorsen.py:17-24 | Only `params[0]` is read: Ok exactly when there is at least one parameter, extra ones ignored; IndexError when there is none |
| `Halvorsen.OriginIsEquilibrium` | src/attractors/systems/halvorsen.py:17-24 | For any parameter vector of the accepted length, the rates at the origin are zero |
| `Halvorsen.CyclicSymmetry` | src/attractors/systems/halvorsen.py:17-24 | Cyclic symmetry: the derivative at `(y, z, x)` is `(dy, dz, dx)` |
| `Langford.Metadata` | src/attractors/systems/langford.py:7-18 | The registration binds: a string name, six default values and as many parameter names, a three-component initial coordinate and ordered plot limits on every axis |
| `Langford.Derivative` | src/attractors/systems/langford.py:19-26 | Ok exactly when `alpha, beta, lmbda, omega, rho, epsilon = params` gets six values; the unpack ValueError otherwise |
| `Langford.RatesRadial` | src/attractors/systems/langford.py:19-26 | The rotation by `omega` cancels in the radial rate: `x*dx + y*dy == (z - beta)(x² + y²)` |
| `Langford.RadialRate` | src/attractors/systems/langford.py:19-26 | On the callable: the radial rate in the `(x, y)` plane depends only on `z - beta` |
| `Langford.OnAxis` | src/attractors/systems/langford.py:19-26 | On the z-axis `dx == dy == 0`: the axis is invariant |
| `Lorenz.RegistrationRejected` | src/attractors/systems/lorenz.py:7 | The registration passes the name alone, so the call raises TypeError naming the three missing keyword-only arguments and `lorenz` is never registered |
| `Lorenz.IntendedRegistrationAdmitted` | src/attractors/systems/lorenz.py:7 | with three defaults, three names and a three-component start passed, the call binds, the decorator carries them, and a table without `lorenz` admits it under that name |
| `Lorenz.Lorenz` | src/attractors/systems/lorenz.py:8-16 | Ok exactly when state and parameters both have three components, with three rates; otherwise the ValueError "Expected 3 components, got m/n" |
| `Lorenz.Derivative` | src/attractors/systems/lorenz.py:8-16 | On three-component states: Ok exactly when there are three parameters, agreeing with `lorenz` on the arrays |
| `Lorenz.OriginIsEquilibrium` | src/attractors/systems/lorenz.py:14-16 | For any parameter vector of the accepted length, the rates at the origin are zero |
| `Lorenz.RatesFlip` | src/attractors/systems/lorenz.py:14-16 | For all parameters, the rates at `(-x, -y, z)` are `(-dx, -dy, dz)` |
| `Lorenz.FlipSymmetry` | src/attractors/systems/lorenz.py:14-16 | The callable commutes with the reflection `(x, y, z) -> (-x, -y, z)`, so mirrored states have mirrored derivatives |
| `LotkaVolterra.Metadata` | src/attractors/systems/lotka_volterra.py:7-17 | The registration binds: a string name, three default values and as many parameter names, a three-component initial coordinate and ordered plot limits on every axis |
| `LotkaVolterra.Derivative` | src/attractors/systems/lotka_volterra.py:18-25 | Ok exactly when `a, b, c = params` gets three values; the unpack ValueError otherwise |
| `LotkaVolterra.OriginIsEquilibrium` | src/attractors/systems/lotka_volterra.py:18-25 | For any parameter vector of the accepted length, the rates at the origin are zero |
| `LotkaVolterra.InvariantPlanes` | src/attractors/systems/lotka_volterra.py:18-25 | Each coordinate plane is invariant: a zero coordinate has a zero rate |
| `MooreSpiegel.Metadata` | src/attractors/systems/moore_spiegel.py:7-17 | The registration binds: a string name, two default values and as many parameter names, a three-component initial coordinate and ordered plot limits on every axis |
| `MooreSpiegel.Derivative` | src/attractors/systems/moore_spiegel.py:18-25 | Ok exactly when `t, r = params` gets two values; the unpack ValueError otherwise |
| `MooreSpiegel.OriginIsEquilibrium` | src/attractors/systems/moore_spiegel.py:18-25 | For any parameter vector of the accepted length, the rates at the origin are zero |
| `MooreSpiegel.RatesOdd` | src/attractors/systems/moore_spiegel.py:18-25 | The rates at `(-x, -y, -z)` are `(-dx, -dy, -dz)` |
| `MooreSpiegel.OddSymmetry` | src/attractors/systems/moore_spiegel.py:18-25 | The callable is odd: `F(-s) == -F(s)` |
| `NewtonLeipnik.Metadata` | src/attractors/systems/newton_leipnik.py:7-17 | The registration binds: a string name, two default values and as many parameter names, a three-component initial coordinate and ordered plot limits on every axis |
| `NewtonLeipnik.Derivative` | src/attractors/systems/newton_leipnik.py:18-25 | Ok exactly when `alpha, beta = params` gets two values; the unpack ValueError otherwise |
| `NewtonLeipnik.OriginIsEquilibrium` | src/attractors/systems/newton_leipnik.py:18-25 | For any parameter vector of the accepted length, the rates at the origin are zero |
| `NewtonLeipnik.RatesFlip` | src/attractors/systems/newton_leipnik.py:18-25 | For all parameters, the rates at `(-x, -y, z)` are `(-dx, -dy, dz)` |
| `NewtonLeipnik.FlipSymmetry` | src/attractors/systems/newton_leipnik.py:18-25 | The callable commutes with the reflection `(x, y, z) -> (-x, -y, z)`, so mirrored states have mirrored derivatives |
| `NoseHoover.Metadata` | src/attractors/systems/nose_hoover.py:7-17 | The registration binds: a string name, one default value and as many parameter names, a three-component initial coordinate and ordered plot limits on every axis |
| `NoseHoover.Derivative` | src/attractors/systems/nose_hoover.py:18-25 | Only `params[0]` is read: Ok exactly when there is at least one parameter, extra ones ignored; IndexError when there is none |
| `NoseHoover.ThermostatBound` | src/attractors/systems/nose_hoover.py:18-25 | `dz = 1 - y²` never exceeds 1, and at the origin the rates are `(0, 0, 1)`, so the origin is no equilibrium |
| `RabinovichFabrikant.Metadata` | src/attractors/systems/rabinovich_fabrikant.py:7-18 | The registration binds: a string name, two default values and as many parameter names, a three-component initial coordinate and ordered plot limits on every axis |
| `RabinovichFabrikant.Derivative` | src/attractors/systems/rabinovich_fabrikant.py:19-26 | Ok exactly when `alpha, gamma = params` gets two values; the unpack ValueError otherwise |
| `RabinovichFabrikant.OriginIsEquilibrium` | src/attractors/systems/rabinovich_fabrikant.py:19-26 | For any parameter vector of the accepted length, the rates at the origin are zero |
| `RabinovichFabrikant.RatesFlip` | src/attractors/systems/rabinovich_fabrikant.py:19-26 | For all parameters, the rates at `(-x, -y, z)` are `(-dx, -dy, dz)` |
| `RabinovichFabrikant.FlipSymmetry` | src/attractors/systems/rabinovich_fabrikant.py:19-26 | The callable commutes with the reflection `(x, y, z) -> (-x, -y, z)`, so mirrored states have mirrored derivatives |
| `RabinovichFabrikant.InvariantPlane` | src/attractors/systems/rabinovich_fabrikant.py:19-26 | The plane `z == 0` is invariant |
| `Rikitake.Metadata` | src/attractors/systems/rikitake.py:7-18 | The registration binds: a string name, two default values and as many parameter names, a three-component initial coordinate and ordered plot limits on every axis |
| `Rikitake.Derivative` | src/attractors/systems/rikitake.py:19-26 | Ok exactly when `a, mu = params` gets two values; the unpack ValueError otherwise |
| `Rikitake.RatesFlip` | src/attractors/systems/rikitake.py:19-26 | For all parameters, the rates at `(-x, -y, z)` are `(-dx, -dy, dz)` |
| `Rikitake.FlipSymmetry` | src/attractors/systems/rikitake.py:19-26 | The callable commutes with the reflection `(x, y, z) -> (-x, -y, z)`, so mirrored states have mirrored derivatives |
| `Rikitake.AtOrigin` | src/attractors/systems/rikitake.py:19-26 | At the origin the rates are `(0, 0, 1)`: the origin is no equilibrium |
| `Rossler.Metadata` | src/attractors/systems/rossler.py:7-17 | The registration binds: a string name, three default values and as many parameter names, a three-component initial coordinate and ordered plot limits on every axis |
| `Rossler.Derivative` | src/attractors/systems/rossler.py:18-25 | Ok exactly when `a, b, c = params` gets three values; the unpack ValueError otherwise |
| `Rossler.OnZeroPlane` | src/attractors/systems/rossler.py:18-25 | On the plane `z == 0` the rate `dz` is the constant `b` |
| `Rossler.RateOfXIndependent` | src/attractors/systems/rossler.py:18-25 | `dx = -y - z` depends neither on `x` nor on the parameters |
| `Rucklidge.Metadata` | src/attractors/systems/rucklidge.py:7-14 | The registration binds: a string name, two default values and as many parameter names, a three-component initial coordinate and ordered plot limits on every axis |
| `Rucklidge.Derivative` | src/attractors/systems/rucklidge.py:15-22 | Ok exactly when `k, alpha = params` gets two values; the unpack ValueError otherwise |
| `Rucklidge.OriginIsEquilibrium` | src/attractors/systems/rucklidge.py:15-22 | For any parameter vector of the accepted length, the rates at the origin are zero |
| `Rucklidge.RatesFlip` | src/attractors/systems/rucklidge.py:15-22 | For all parameters, the rates at `(-x, -y, z)` are `(-dx, -dy, dz)` |
| `Rucklidge.FlipSymmetry` | src/attractors/systems/rucklidge.py:15-22 | The callable commutes with the reflection `(x, y, z) -> (-x, -y, z)`, so mirrored states have mirrored derivatives |
| `Rucklidge.ForcingBound` | src/attractors/systems/rucklidge.py:15-22 | `dz >= -z`: the forcing `y²` never pulls `z` down |
| `Sakarya.Metadata` | src/attractors/systems/sakarya.py:7-14 | The registration binds: a string name, two default values and as many parameter names, a three-component initial coordinate and ordered plot limits on every axis |
| `Sakarya.Derivative` | src/attractors/systems/sakarya.py:15-22 | Ok exactly when `a, b = params` gets two values; the unpack ValueError otherwise |
| `Sakarya.OriginIsEquilibrium` | src/attractors/systems/sakarya.py:15-22 | For any parameter vector of the accepted length, the rates at the origin are zero |
| `Sakarya.RatesFlip` | src/attractors/systems/sakarya.py:15-22 | For all parameters, the rates at `(-x, -y, z)` are `(-dx, -dy, dz)` |
| `Sakarya.FlipSymmetry` | src/attractors/systems/sakarya.py:15-22 | The callable commutes with the reflection `(x, y, z) -> (-x, -y, z)`, so mirrored states have mirrored derivatives |
| `ShimizuMorioka.Metadata` | src/attractors/systems/shimizu_morioka.py:7-17 | The registration binds: a string name, two default values and as many parameter names, a three-component initial coordinate and ordered plot limits on every axis |
| `ShimizuMorioka.Derivative` | src/attractors/systems/shimizu_morioka.py:18-25 | Ok exactly when `a, B = params` gets two values; the unpack ValueError otherwise |
| `ShimizuMorioka.OriginIsEquilibrium` | src/attractors/systems/shimizu_morioka.py:18-25 | For any parameter vector of the accepted length, the rates at the origin are zero |
| `ShimizuMorioka.RatesFlip` | src/attractors/systems/shimizu_morioka.py:18-25 | For all parameters, the rates at `(-x, -y, z)` are `(-dx, -dy, dz)` |
| `ShimizuMorioka.FlipSymmetry` | src/attractors/systems/shimizu_morioka.py:18-25 | The callable commutes with the reflection `(x, y, z) -> (-x, -y, z)`, so mirrored states have mirrored derivatives |
| `Thomas.Metadata` | src/attractors/systems/thomas.py:7-18 | The registration binds: a string name, one default value and as many parameter names, a three-component initial coordinate and ordered plot limits on every axis |
| `Thomas.Derivative` | src/attractors/systems/thomas.py:19-26 | Only `params[0]` is read: Ok exactly when there is at least one parameter, extra ones ignored; IndexError when there is none |
| `Thomas.CyclicSymmetry` | src/attractors/systems/thomas.py:19-26 | Cyclic symmetry: the derivative at `(y, z, x)` is `(dy, dz, dx)`, for any `sin` |
| `Thomas.Bounded` | src/attractors/systems/thomas.py:19-26 | Given `|sin| <= 1`, each rate is within 1 of its damping term: `|dx + b*x| <= 1` and likewise for y, z |
| `Thomas.OriginIsEquilibrium` | src/attractors/systems/thomas.py:19-26 | Given `sin 0 == 0`, the origin is an equilibrium |
| `ThreeCellCnn.Metadata` | src/attractors/systems/three_cell_cnn.py:7-17 | The registration binds: a string name, four default values and as many parameter names, a three-component initial coordinate and ordered plot limits on every axis |
| `ThreeCellCnn.Clamp` | src/attractors/systems/three_cell_cnn.py:18-31 | The clamp lies in `[-1, 1]` and equals its input exactly when the input lies there |
| `ThreeCellCnn.SatIsClamp` | src/attractors/systems/three_cell_cnn.py:18-31 | The saturation `0.5 * (|v + 1| - |v - 1|)` is the clamp of `v` to `[-1, 1]` |
| `ThreeCellCnn.Derivative` | src/attractors/systems/three_cell_cnn.py:18-31 | Ok exactly when `p1, p2, r, s = params` gets four values; the unpack ValueError otherwise |
| `ThreeCellCnn.OriginIsEquilibrium` | src/attractors/systems/three_cell_cnn.py:18-31 | For any parameter vector of the accepted length, the rates at the origin are zero |
| `ThreeCellCnn.RatesOfClamped` | src/attractors/systems/three_cell_cnn.py:18-31 | The rates are linear in the state and in its clamped coordinates, with the coupling matrix of `p1, p2, r, s` |
| `WangSun.Metadata` | src/attractors/systems/wang_sun.py:7-17 | The registration binds: a string name, six default values and as many parameter names, a three-component initial coordinate and ordered plot limits on every axis |
| `WangSun.Derivative` | src/attractors/systems/wang_sun.py:18-25 | Ok exactly when `a, b, c, d, e, f = params` gets six values; the unpack ValueError otherwise |
| `WangSun.OriginIsEquilibrium` | src/attractors/systems/wang_sun.py:18-25 | For any parameter vector of the accepted length, the rates at the origin are zero |
| `WangSun.RatesFlip` | src/attractors/systems/wang_sun.py:18-25 | For all parameters, the rates at `(-x, -y, z)` are `(-dx, -dy, dz)` |
| `WangSun.FlipSymmetry` | src/attractors/systems/wang_sun.py:18-25 | The callable commutes with the reflection `(x, y, z) -> (-x, -y, z)`, so mirrored states have mirrored derivatives |
| `YuWang.Metadata` | src/attractors/systems/yu_wang.py:7-17 | The registration binds: a string name, four default values and as many parameter names, a three-component initial coordinate and ordered plot limits on every axis |
| `YuWang.Derivative` | src/attractors/systems/yu_wang.py:18-25 | Ok exactly when `a, b, c, d = params` gets four values; the unpack ValueError otherwise |
| `YuWang.GrowthPositive` | src/attractors/systems/yu_wang.py:18-25 | Given `exp > 0`, `dz + d*z = exp(x*y)` is positive everywhere |
| `YuWang.RatesFlip` | src/attractors/systems/yu_wang.py:18-25 | For all parameters, the rates at `(-x, -y, z)` are `(-dx, -dy, dz)` |
| `YuWang.FlipSymmetry` | src/attractors/systems/yu_wang.py:18-25 | The callable commutes with the reflection `(x, y, z) -> (-x, -y, z)`, so mirrored states have mirrored derivatives |
| `Hex.ParseInt16` | src/attractors/utils/colortable.py:11 | `int(s, 16)`: Ok exactly for a non-empty string of hex digits, and then below `16^len(s)`; ValueError otherwise |
| `Hex.ValueBound` | src/attractors/themes/theme.py:34 | `k` hex digits denote a number below `16^k` |
| `Hex.TwoDigitsAtMost255` | src/attractors/themes/theme.py:34 | a slice of at most two hex digits parses to at most 255, so dividing by 255 stays within `[0, 1]` |
| `Hex.LStrip` | src/attractors/themes/theme.py:34 | `lstrip("#")`: a suffix of the input, not starting with `#`, and everything removed was `#` |
| `Hex.RStrip` | src/attractors/utils/colortable.py:8 | right half of `strip("#")`: a prefix of the input, not ending with `#`, and everything removed was `#` |
| `Hex.Strip` | src/attractors/utils/colortable.py:8 | `strip("#")`: no longer than the input and neither starts nor ends with `#` |
| `Hex.Slice` | src/attractors/utils/colortable.py:11 | Python's `s[i:j]`: the bounds are clamped to the length, and a start past the end gives the empty string |
| `Linspace.Ramp` | src/attractors/utils/colortable.py:21 | `n` values (with `RampAt`: entry `i` is `start + i * step`) |
| `Linspace.RampAt` | src/attractors/utils/colortable.py:21 | entry `i` of the ramp is `start + i * step` |
| `Linspace.Linspace` | src/attractors/utils/colortable.py:21 | `np.linspace(start, stop, n)` has exactly `n` values |
| `Linspace.Endpoints` | src/attractors/utils/colortable.py:21 | the first value is `start`; with two or more values the last is exactly `stop` |
| `Linspace.LinspaceAt` | src/attractors/utils/colortable.py:21 | entry `i` is `start + i * (stop - start) / (n - 1)` |
| `Linspace.Gap` | src/attractors/utils/colortable.py:21 | neighbouring values are `(stop - start) / (n - 1)` apart |
| `Linspace.Bounded` | src/attractors/utils/colortable.py:21 | for `start <= stop` every value lies in `[start, stop]` and the values never decrease |
| `Colortable.Chunks` | src/attractors/utils/colortable.py:11 | the slices `v[i:i+c]` for `i` in `range(0, len(v), c)`: empty exactly for the empty string, each run non-empty and at most `c` long |
| `Colortable.ChunksOfHex` | src/attractors/utils/colortable.py:11 | cutting a string of hex digits into runs gives runs of hex digits |
| `Colortable.HexOfChunks` | src/attractors/utils/colortable.py:11 | conversely, if every run is hex digits the whole string is |
| `Colortable.ChunksCount` | src/attractors/utils/colortable.py:11 | there are `ceil(len(v) / c)` runs |
| `Colortable.ParseAll` | src/attractors/utils/colortable.py:10-12 | the tuple of `int(run, 16)`: Ok exactly when every run parses, one value per run in order; ValueError otherwise |
| `Colortable.FromStripped` | src/attractors/utils/colortable.py:9-13 | fewer than three characters give the `range()` step-zero ValueError; a result has at least three non-negative values |
| `Colortable.HexToRgb` | src/attractors/utils/colortable.py:7-13 | after `strip("#")`, fewer than three characters is the `range()` ValueError; a result has at least three non-negative values; every failure is a ValueError |
| `Colortable.HexToRgbOk` | src/attractors/utils/colortable.py:7-13 | `hex_to_rgb` succeeds exactly when three or more characters remain after stripping `#` and all are hex digits |
| `Colortable.HexToRgbLength` | src/attractors/utils/colortable.py:9-13 | one value per run: `ceil(lv / (lv // 3))` values for stripped length `lv` |
| `Colortable.ThreeRuns` | src/attractors/utils/colortable.py:9-11 | a stripped length divisible by three gives exactly three values |
| `Colortable.AtLeastThreeRuns` | src/attractors/utils/colortable.py:9-11 | every stripped length of three or more gives at least three values, so `rgb_list[i][2]` exists |
| `Colortable.SevenDigitsGiveFour` | src/attractors/utils/colortable.py:9-11 | seven digits give four values, the last from a one-digit run |
| `Colortable.SixDigits` | src/attractors/utils/colortable.py:7-13 | six hex digits give exactly the three digit pairs over 256, each below 1 |
| `Colortable.RgbList` | src/attractors/utils/colortable.py:17 | `[hex_to_rgb(i) for i in hex_list]`: Ok exactly when every colour converts, one entry per colour in order, each of at least three values |
| `Colortable.Positions` | src/attractors/utils/colortable.py:18-21 | a non-empty `float_list` is used as given; an absent or empty one becomes `linspace(0, 1, n)` |
| `Colortable.Segment` | src/attractors/utils/colortable.py:25-28 | one anchor per position: `[float_list[i], rgb[i][ch], rgb[i][ch]]` |
| `Colortable.SegmentData` | src/attractors/utils/colortable.py:23-29 | `cdict` has exactly the keys red, green and blue, channel `k` holding the anchors of channel `k` |
| `Colortable.ContinuousCmap` | src/attractors/utils/colortable.py:16-31 | fails with the first colour `hex_to_rgb` rejects, then with IndexError when positions outnumber colours; otherwise the colormap `my_cmp` with `N=256` and that segment data |
| `Colortable.CmapAnchors` | src/attractors/utils/colortable.py:23-30 | channel `ch` anchors colour `i` at position `i`, with the colour's channel value on both sides |
| `Colortable.DefaultAnchorsSpanUnit` | src/attractors/utils/colortable.py:18-30 | with default positions and two or more colours, each channel's anchors start at 0, end at 1 and never decrease, as a segmented colormap needs |
| `Colortable.SingleColourStopsAtZero` | src/attractors/utils/colortable.py:18-30 | one colour with default positions gives the single anchor at 0, which never reaches 1 |
| `Colortable.ShortPositionsDropColours` | src/attractors/utils/colortable.py:25-28 | with fewer positions than colours, only the first `len(float_list)` colours are anchored |
| `Colortable.GetContinuousCmap` | src/attractors/utils/colortable.py:16-31 | the method (colour list, positions, loop over the channels) returns exactly `ContinuousCmap` |
| `Colortable.FillChannels` | src/attractors/utils/colortable.py:23-29 | the loop over the three channels: IndexError when positions outnumber colours, otherwise exactly `SegmentData` |
| `LegacyColortable.GetContinuousCmap` | attractors/utils/colortable.py:37-56 | the first-generation function is the newer one with no positions given |
| `LegacyColortable.FailsOnlyOnBadColour` | attractors/utils/colortable.py:46-56 | with one position per colour the IndexError path cannot occur: it fails exactly when some colour fails `hex_to_rgb` |
| `Downsampler.Target` | src/attractors/visualizers/utils/downsampler.py:53 | `int(n * (1 - compression))` lies in `[0, n]`, and is below `n` for a positive compression of a non-empty input |
| `Downsampler.UniformIndices` | src/attractors/visualizers/utils/downsampler.py:85 | `np.linspace(0, n - 1, k, dtype=int)` has `k` entries (with the two lemmas below: in range and strictly increasing) |
| `Downsampler.Take` | src/attractors/visualizers/utils/downsampler.py:86 | `trajectory[indices]`: row `i` of the result is row `indices[i]` of the input |
| `Downsampler.Decide` | src/attractors/visualizers/utils/downsampler.py:42-85 | errors are ValueErrors; a selection keeps `Target(n, compression) < n` rows; the weighted branch needs VELOCITY or CURVATURE and three or more rows; the spaced branch needs UNIFORM |
| `Downsampler.Downsample` | src/attractors/visualizers/utils/downsampler.py:25-86 | fails exactly when the checks fail or `np.random.choice` refuses the weighted draw, always with a ValueError; a result is always an `N x 3` array |
| `Downsampler.PadSource` | src/attractors/visualizers/utils/downsampler.py:70 | `np.pad(..., (1, 1), mode="edge")`: entry `i` of the padded importance is speed change `i - 1` inside, and the first or last speed change at the two ends |
| `Downsampler.ChoiceRefusal` | src/attractors/visualizers/utils/downsampler.py:69-82 | only VELOCITY is ever refused: an all-zero importance makes NaN probabilities (a ValueError whatever the size), and fewer non-zero probabilities than `target` is a ValueError |
| `Downsampler.NonZeroCountPadded` | src/attractors/visualizers/utils/downsampler.py:63-70 | the non-zero probabilities are the non-zero speed changes, with the first and the last counted twice |
| `Downsampler.ConstantVelocityRefused` | src/attractors/visualizers/utils/downsampler.py:63-82 | VELOCITY on a straight line at constant velocity is refused with the NaN-probabilities error |
| `Downsampler.FewBendsRefused` | src/attractors/visualizers/utils/downsampler.py:63-82 | VELOCITY on a trajectory that bends at fewer than `target - 2` steps (at least one) is refused for too few non-zero probabilities |
| `Downsampler.ShapeCheckedFirst` | src/attractors/visualizers/utils/downsampler.py:42-43 | an input that is not `N x 3` is refused with the shape message, whatever the compression |
| `Downsampler.CompressionOutOfRange` | src/attractors/visualizers/utils/downsampler.py:45-46 | a compression outside `[0, 1]` is refused with the compression message |
| `Downsampler.NoCompressionIsIdentity` | src/attractors/visualizers/utils/downsampler.py:48-51 | zero compression or method NONE returns the input unchanged |
| `Downsampler.WeightedKeepsShortInput` | src/attractors/visualizers/utils/downsampler.py:58-60 | VELOCITY and CURVATURE return inputs of fewer than three rows unchanged |
| `Downsampler.UniformSelection` | src/attractors/visualizers/utils/downsampler.py:53-86 | UNIFORM keeps `target` rows at strictly increasing positions, the first row first and, from two kept rows on, the last row last |
| `Downsampler.WeightedSelection` | src/attractors/visualizers/utils/downsampler.py:58-83 | the weighted methods succeed exactly when numpy does not refuse; then they keep `target < n` rows of the input, in their original order, and for VELOCITY only rows with a non-zero probability |
| `Downsampler.RowsOfThree` | src/attractors/visualizers/utils/downsampler.py:42-86 | every row of any result has three entries |
| `Downsampler.UniformInRange` | src/attractors/visualizers/utils/downsampler.py:85 | the rounded-down linspace positions lie in `[0, n)` |
| `Downsampler.UniformIncreasing` | src/attractors/visualizers/utils/downsampler.py:85 | keeping fewer rows than there are makes the spacing exceed 1, so the rounded positions strictly increase (no row is repeated) |
| `Themes.Channel` | src/attractors/themes/theme.py:34 | `int(t[i:i+2], 16) / 255`: Ok exactly when that slice parses, and then in `[0, 1]` |
| `Themes.FromDigits` | src/attractors/themes/theme.py:34 | Ok exactly when the channels at 0, 2 and 4 all parse; each channel in `[0, 1]` |
| `Themes.ParseColor` | src/attractors/themes/theme.py:34 | a parsed colour has its three channels in `[0, 1]` |
| `Themes.ParseColorDomain` | src/attractors/themes/theme.py:34 | six or more hex digits after the `#`s always parse; four or fewer always raise ValueError |
| `Themes.TailIgnored` | src/attractors/themes/theme.py:34 | characters after the sixth digit do not change the colour |
| `Themes.PureRed` | src/attractors/themes/theme.py:34 | `"#FF0000"` is `(1, 0, 0)` |
| `Themes.ParseColors` | src/attractors/themes/theme.py:33-35 | the comprehension: Ok exactly when every colour parses, one triple per colour in order |
| `Themes.Colormap` | src/attractors/themes/theme.py:23-36 | a name selects the registered colormap when one of that name is registered and is a KeyError otherwise; a non-empty hex list gives a map named after the theme with one RGB triple per colour, failing exactly when some colour fails and then with that colour's error; an empty list is `from_list`'s IndexError |
| `ThemeManagement.Initial` | src/attractors/themes/manager.py:23-24 | the table starts empty with default `"ayu"` |
| `ThemeManagement.GetSpec` | src/attractors/themes/manager.py:46-63 | `name or default` is resolved; Ok exactly when it is stored, giving its theme; KeyError `Theme '<name>' not found` otherwise |
| `ThemeManagement.SetDefaultSpec` | src/attractors/themes/manager.py:76-89 | Ok exactly when the name is stored, changing only the default; KeyError otherwise |
| `ThemeManagement.Put` | src/attractors/themes/manager.py:99 | `dict` assignment: the key maps to the theme; a new key goes to the end of the key order, an existing key keeps its place |
| `ThemeManagement.PutValid` | src/attractors/themes/manager.py:99 | storing keeps the key order duplicate-free and equal to the key set |
| `ThemeManagement.AddSpec` | src/attractors/themes/manager.py:92-99 | the theme is stored under its own name, replacing any other, default unchanged |
| `ThemeManagement.RemoveSpec` | src/attractors/themes/manager.py:102-114 | the default is refused with ValueError first; an absent name is `pop`'s KeyError; otherwise exactly that name leaves the table and the key order |
| `ThemeManagement.LoadEntry` | src/attractors/themes/manager.py:38-43 | KeyError for a missing `background`, then for missing `colors`; otherwise the theme with foreground defaulting to `#FFFFFF` |
| `ThemeManagement.LoadStep` | src/attractors/themes/manager.py:37-43 | after a failure nothing more happens; otherwise the entry is stored or its error recorded |
| `ThemeManagement.LoadSpec` | src/attractors/themes/manager.py:37-43 | a load never changes the default and never removes a theme |
| `ThemeManagement.LoadNext` | src/attractors/themes/manager.py:37-43 | a well-formed entry after a successful prefix is stored |
| `ThemeManagement.LoadValid` | src/attractors/themes/manager.py:37-43 | a load keeps the key order in step with the keys |
| `ThemeManagement.LoadOkIff` | src/attractors/themes/manager.py:37-43 | a load succeeds exactly when every entry has a background and colours |
| `ThemeManagement.LoadContents` | src/attractors/themes/manager.py:37-43 | after a successful load every name in the file is present, holding the theme of its last entry |
| `ThemeManagement.LoadStopsAtFirstError` | src/attractors/themes/manager.py:37-43 | a failed load keeps exactly the entries before the first bad one and reports that entry's error |
| `ThemeManagement.LoadPrefixStops` | src/attractors/themes/manager.py:37-43 | once a prefix of the file fails, the rest of the file changes nothing |
| `ThemeManagement.AddThenGet` | src/attractors/themes/manager.py:46-99 | an added theme is retrieved by its name; other names keep their themes |
| `ThemeManagement.EmptyNameIsDefault` | src/attractors/themes/manager.py:59 | asking for `""` gives the default theme, even when a theme named `""` was added |
| `ThemeManagement.RemoveThenGet` | src/attractors/themes/manager.py:46-114 | a removed theme can no longer be retrieved |
| `ThemeManagement.DefaultStaysPresent` | src/attractors/themes/manager.py:27-114 | once the default is stored, `get()` keeps succeeding through add, remove, set_default and load |
| `ThemeManagement.InitialGetFails` | src/attractors/themes/manager.py:23-62 | before `"ayu"` is added, `get()` raises KeyError |
| `ThemeManagement.ThemeManager.constructor` | src/attractors/themes/manager.py:23-24 | the class state starts as the initial table |
| `ThemeManagement.ThemeManager.Load` | src/attractors/themes/manager.py:27-43 | the loop over the file's entries leaves exactly `LoadSpec`'s table and returns its status, keeping the table valid |
| `ThemeManagement.ThemeManager.Get` | src/attractors/themes/manager.py:46-63 | agrees with `GetSpec` on the stored state |
| `ThemeManagement.ThemeManager.ListThemes` | src/attractors/themes/manager.py:66-73 | the stored names, each once, in insertion order, and no other |
| `ThemeManagement.ThemeManager.SetDefault` | src/attractors/themes/manager.py:76-89 | follows `SetDefaultSpec`; on failure the state is unchanged |
| `ThemeManagement.ThemeManager.Add` | src/attractors/themes/manager.py:92-99 | the new state is `AddSpec` of the old |
| `ThemeManagement.ThemeManager.Remove` | src/attractors/themes/manager.py:102-114 | follows `RemoveSpec`; on failure the state is unchanged |
| `ThemeManagement.ThemeManager.Random` | src/attractors/themes/manager.py:117-124 | with the draw as a parameter: Ok exactly when the table is non-empty, giving a stored theme; IndexError for an empty table |
| `ColorMappers.Max` | src/attractors/visualizers/utils/color_mapper.py:17 | `values.max()`: an entry, and no entry is larger |
| `ColorMappers.Min` | src/attractors/visualizers/utils/color_mapper.py:17 | `values.min()`: an entry, and no entry is smaller |
| `ColorMappers.Normalize` | src/attractors/visualizers/utils/color_mapper.py:15-23 | Ok exactly for a non-empty array; numpy's empty-reduction ValueError otherwise |
| `ColorMappers.NormalizeWithAt` | src/attractors/visualizers/utils/color_mapper.py:17-23 | entry `i` is 0 when max equals min, else `(v[i] - min) / (max - min)` |
| `ColorMappers.NormalizeConstant` | src/attractors/visualizers/utils/color_mapper.py:17-18 | equal values normalise to all zeros |
| `ColorMappers.NormalizeUnit` | src/attractors/visualizers/utils/color_mapper.py:15-23 | every normalised value lies in `[0, 1]` |
| `ColorMappers.NormalizeMonotone` | src/attractors/visualizers/utils/color_mapper.py:19-23 | normalising keeps the order of the values |
| `ColorMappers.NormalizeExtremes` | src/attractors/visualizers/utils/color_mapper.py:19-23 | when the values differ, the minimum maps to 0 and the maximum to 1 |
| `ColorMappers.TimeMap` | src/attractors/visualizers/utils/color_mapper.py:29-30 | one value per point |
| `ColorMappers.TimeMapSpansUnit` | src/attractors/visualizers/utils/color_mapper.py:29-30 | the time colours start at 0, end at 1, stay in `[0, 1]` and never decrease |
| `ColorMappers.NewCoordinateMapper` | src/attractors/visualizers/utils/color_mapper.py:36-39 | Ok exactly for axis 0, 1 or 2, remembering it; the ValueError otherwise |
| `ColorMappers.Column` | src/attractors/visualizers/utils/color_mapper.py:42 | `trajectory[:, axis]`: entry `i` is that coordinate of point `i` |
| `ColorMappers.CoordinateMap` | src/attractors/visualizers/utils/color_mapper.py:41-42 | Ok exactly for a non-empty trajectory, one value per point |
| `ColorMappers.CoordinateMapOrder` | src/attractors/visualizers/utils/color_mapper.py:41-42 | colours lie in `[0, 1]` and a larger coordinate never gets a smaller colour |
| `ColorMappers.StepLengths` | src/attractors/visualizers/utils/color_mapper.py:49 | one length per step, entry `i` the norm of point `i+1` minus point `i` |
| `ColorMappers.VelocityMap` | src/attractors/visualizers/utils/color_mapper.py:48-50 | Ok exactly for two or more points, one value per point; ValueError otherwise |
| `ColorMappers.StationaryIsZero` | src/attractors/visualizers/utils/color_mapper.py:48-50 | a trajectory that never moves is coloured all zeros |
| `ColorMappers.VelocityMapShape` | src/attractors/visualizers/utils/color_mapper.py:48-50 | the last point takes the colour of the last step, and every colour is in `[0, 1]` |
| `LegacyBase.KindOf` | attractors/utils/des.py:31 | `getattr(cls, name)`: a method found is the one of that name |
| `LegacyBase.KindOf2` | attractors/utils/des.py:31 | the same for the second group of methods |
| `LegacyBase.KindOf3` | attractors/utils/des.py:31 | the same for the third group |
| `LegacyBase.KindOf4` | attractors/utils/des.py:31 | the same for the last group |
| `LegacyBase.KindOfName` | attractors/utils/des.py:31 | every derivative method is found under its own name |
| `LegacyBase.Lookup` | attractors/utils/base.py:66-83 | reading attributes in order: Ok exactly when all are present; otherwise the AttributeError of the first one missing |
| `LegacyBase.Formula` | attractors/utils/base.py:311-329 | with every attribute read, the only failure is `finance` with `b == 0`; `lorenz` gives the rates as written at line 81 |
| `LegacyBase.Derive` | attractors/utils/base.py:66-622 | a method succeeds exactly when every attribute it reads is set, except `finance` with `b == 0`, which is a ZeroDivisionError; any other failure is the missing attribute's; a success is `Formula` on the attributes read, so `lorenz` gives the rates as written (see Findings) |
| `LegacyBase.FailureIgnoresPoint` | attractors/utils/base.py:66-622 | whether a method fails, and with which error, does not depend on the point |
| `LegacyBase.ParamNamesRegistered` | attractors/utils/base.py:66-622 | each method's parameter names are those its current system is registered with; `lorenz` registers none |
| `LegacyBase.Values` | attractors/utils/base.py:66-622 | the attribute values of the named parameters, in order |
| `LegacyBase.ReadsAreParams` | attractors/utils/base.py:66-622 | a method reads exactly the parameters its current system takes |
| `LegacyBase.AgreesWithCurrentSystem` | attractors/utils/base.py:66-622 | with its parameters present, every method other than `lorenz` computes what its current system computes on them (`finance` wherever `b` is not zero); `lorenz` agrees exactly at the points with `y == z` |
| `LegacyBase.AgreesLorenz` | attractors/utils/base.py:66-83 | with its parameters present, `lorenz` gives the written rates (`dy` ending in `- z`, see Findings), which equal the current `lorenz` system's exactly when `y == z` |
| `LegacyBase.AgreesRabinovichFabrikant` | attractors/utils/base.py:85-103 | with its parameters present, `rabinovich_fabrikant` computes what the current `rabinovich_fabrikant` system computes on them |
| `LegacyBase.AgreesLotkaVolterra` | attractors/utils/base.py:105-123 | with its parameters present, `lotka_volterra` computes what the current `lotka_volterra` system computes on them |
| `LegacyBase.AgreesRossler` | attractors/utils/base.py:125-142 | with its parameters present, `rossler` computes what the current `rossler` system computes on them |
| `LegacyBase.AgreesWangSun` | attractors/utils/base.py:144-162 | with its parameters present, `wang_sun` computes what the current `wang_sun` system computes on them |
| `LegacyBase.AgreesRikitake` | attractors/utils/base.py:164-182 | with its parameters present, `rikitake` computes what the current `rikitake` system computes on them |
| `LegacyBase.AgreesNoseHoover` | attractors/utils/base.py:184-202 | with its parameters present, `nose_hoover` computes what the current `nose_hoover` system computes on them |
| `LegacyBase.AgreesLangford` | attractors/utils/base.py:204-228 | with its parameters present, `langford` computes what the current `langford` system computes on them |
| `LegacyBase.AgreesThreeCellCnn` | attractors/utils/base.py:230-251 | with its parameters present, `three_cell_cnn` computes what the current `three_cell_cnn` system computes on them |
| `LegacyBase.AgreesBoualiType1` | attractors/utils/base.py:253-271 | with its parameters present, `bouali_type_1` computes what the current `bouali_type_1` system computes on them |
| `LegacyBase.AgreesBoualiType2` | attractors/utils/base.py:273-290 | with its parameters present, `bouali_type_2` computes what the current `bouali_type_2` system computes on them |
| `LegacyBase.AgreesBoualiType3` | attractors/utils/base.py:292-309 | with its parameters present, `bouali_type_3` computes what the current `bouali_type_3` system computes on them |
| `LegacyBase.AgreesFinance` | attractors/utils/base.py:311-329 | with its parameters present, `finance` computes what the current `finance` system computes on them (wherever `b` is not zero) |
| `LegacyBase.AgreesBurkeShaw` | attractors/utils/base.py:331-349 | with its parameters present, `burke_shaw` computes what the current `burke_shaw` system computes on them |
| `LegacyBase.AgreesMooreSpiegel` | attractors/utils/base.py:351-370 | with its parameters present, `moore_spiegel` computes what the current `moore_spiegel` system computes on them |
| `LegacyBase.AgreesSakarya` | attractors/utils/base.py:372-389 | with its parameters present, `sakarya` computes what the current `sakarya` system computes on them |
| `LegacyBase.AgreesDadras` | attractors/utils/base.py:391-409 | with its parameters present, `dadras` computes what the current `dadras` system computes on them |
| `LegacyBase.AgreesHalvorsen` | attractors/utils/base.py:411-428 | with its parameters present, `halvorsen` computes what the current `halvorsen` system computes on them |
| `LegacyBase.AgreesHadley` | attractors/utils/base.py:430-447 | with its parameters present, `hadley` computes what the current `hadley` system computes on them |
| `LegacyBase.AgreesChen` | attractors/utils/base.py:449-467 | with its parameters present, `chen` computes what the current `chen` system computes on them |
| `LegacyBase.AgreesChenLee` | attractors/utils/base.py:469-487 | with its parameters present, `chen_lee` computes what the current `chen_lee` system computes on them |
| `LegacyBase.AgreesChenLu` | attractors/utils/base.py:489-507 | with its parameters present, `chen_lu` computes what the current `chen_lu` system computes on them |
| `LegacyBase.AgreesThomas` | attractors/utils/base.py:509-527 | with its parameters present, `thomas` computes what the current `thomas` system computes on them |
| `LegacyBase.AgreesDequanLi` | attractors/utils/base.py:529-546 | with its parameters present, `dequan_li` computes what the current `dequan_li` system computes on them |
| `LegacyBase.AgreesYuWang` | attractors/utils/base.py:548-566 | with its parameters present, `yu_wang` computes what the current `yu_wang` system computes on them |
| `LegacyBase.AgreesNewtonLeipnik` | attractors/utils/base.py:568-586 | with its parameters present, `newton_leipnik` computes what the current `newton_leipnik` system computes on them |
| `LegacyBase.AgreesRucklidge` | attractors/utils/base.py:588-604 | with its parameters present, `rucklidge` computes what the current `rucklidge` system computes on them |
| `LegacyBase.AgreesShimizuMorioka` | attractors/utils/base.py:606-622 | with its parameters present, `shimizu_morioka` computes what the current `shimizu_morioka` system computes on them |
| `LegacyBase.WrittenLorenzRates` | attractors/utils/base.py:81 | the rates as written: `dx` and `dz` are the Lorenz equations', `dy` is off by `y - z` |
| `LegacyBase.WrittenLorenzDiffers` | attractors/utils/base.py:81 | the written rates equal the Lorenz equations exactly on the plane `y == z`; at `(0, 0, 1)` they give `dy == -1` and break the `(x, y, z) -> (-x, -y, z)` symmetry the corrected rates keep |
| `LegacyBase.FirstMissing` | attractors/utils/base.py:57-59 | the position of the first listed parameter absent from `params`: all before it are present |
| `LegacyBase.AssignContents` | attractors/utils/base.py:57-59 | after `_func_params`, the names before the first missing one take their `params` value, other attributes keep theirs, and nothing else is added |
| `LegacyBase.AllPresentFirstMissing` | attractors/utils/base.py:57-59 | the assignment completes exactly when no listed name is missing |
| `LegacyBase.AssignIgnoresExtra` | attractors/utils/base.py:57-59 | keys of `params` that are not listed play no part |
| `LegacyBase.BaseAttractors.constructor` | attractors/utils/base.py:36-45 | the object before `_func_params` runs: the attractor name and no attributes |
| `LegacyBase.BaseAttractors.FuncParams` | attractors/utils/base.py:47-64 | Ok exactly when the attractor is in the table and every listed parameter is given; the one "Parameter argument error" otherwise; the attributes are the assignment up to the first missing name |
| `LegacyBase.NewBase` | attractors/utils/base.py:36-64 | construction succeeds exactly when `_func_params` does, and the new object holds exactly the assigned parameters |
| `LegacySteps.Rk2MethodOf` | attractors/utils/des.py:87 | `eval(method)` resolves `heun`, `imp_poly` and `ralston` to the three local step functions; every other name is modelled as undefined (a NameError; see Left out) |
| `LegacySteps.RalstonWellFormed` | attractors/utils/des.py:71-79 | Ralston's tableau is explicit and its weights sum to one |
| `LegacySteps.HeunIsRk2` | attractors/utils/des.py:51-59 | `heun` is the current `rk2` step |
| `LegacySteps.ImpPolyIsMidpoint` | attractors/utils/des.py:61-69 | `imp_poly` is the current `stormer_verlet` midpoint step |
| `LegacySteps.RalstonIsExplicitRk` | attractors/utils/des.py:71-79 | `ralston` is the explicit Runge-Kutta method of Ralston's tableau |
| `LegacySteps.Rk3IsCurrent` | attractors/utils/des.py:92-115 | the legacy `rk3` step is the current `rk3` step |
| `LegacySteps.Rk4IsCurrent` | attractors/utils/des.py:117-144 | the legacy `rk4` step is the current `rk4` step |
| `LegacySteps.Rk5IsCurrent` | attractors/utils/des.py:146-187 | the legacy `rk5` step is the current `rk5` step, stage for stage, with the same coefficients |
| `LegacySteps.StepIsReference` | attractors/utils/des.py:34-187 | every legacy step is the step of its reference solver with the field's parameters bound |
| `LegacySteps.OrbitIsIter` | attractors/utils/des.py:34-187 | `n` legacy steps reach the state of `n` steps of the current engine's loop |
| `LegacySteps.EquilibriumKept` | attractors/utils/des.py:34-187 | every legacy scheme leaves an equilibrium where it is |
| `LegacySteps.ConstantDerivative` | attractors/utils/des.py:34-187 | under a constant field every legacy scheme moves by exactly `h` times it |
| `LegacySteps.FirstStageFails` | attractors/utils/des.py:34-187 | a field failing at the point fails the step with the same error |
| `LegacySteps.StepNeverFails` | attractors/utils/des.py:34-187 | a field that never fails never fails a step |
| `LegacySteps.OrbitNeverFails` | attractors/utils/des.py:34-187 | nor a run of any length |
| `LegacySteps.SchemeOf` | attractors/utils/des.py:48-90 | the only call that fails before stepping is `rk2` with a method name other than the three step functions, with a NameError (see Left out for the names `eval` also resolves) |
| `LegacySteps.Next` | attractors/utils/runge_kutta.py:16-160 | under a field that never fails, a step always succeeds |
| `LegacySteps.IterateIsOrbit` | attractors/utils/runge_kutta.py:16-160 | under a field that never fails, the legacy run is the plain iteration of the step |
| `LegacySteps.Path` | attractors/utils/runge_kutta.py:21-24 | the states before each of `n` steps, state `i` being `i` steps on |
| `LegacySteps.PathSteps` | attractors/utils/runge_kutta.py:21-27 | a path starts at the initial state and each state is one step on from the one before |
| `LegacySteps.IterateAdd` | attractors/utils/runge_kutta.py:21-27 | `m` steps then `n` more is `m + n` steps |
| `LegacySteps.PathAdd` | attractors/utils/runge_kutta.py:21-27 | a second run continues the path of the first |
| `LegacySteps.Coords` | attractors/utils/runge_kutta.py:22-24 | one coordinate of each state, in order |
| `LegacySteps.CoordsAppend` | attractors/utils/runge_kutta.py:22-24 | taking coordinates distributes over concatenation |
| `LegacySteps.SampleStep` | attractors/utils/runge_kutta.py:21-27 | one more pass appends the current coordinates and moves one step on |
| `LegacySteps.SamplesAdd` | attractors/utils/runge_kutta.py:21-27 | sampling `m` then `n` states from where the first run stopped samples `m + n` states |
| `LegacyDes.Trace` | attractors/utils/des.py:39-46 | the object yielded after step `i`: `X, Y, Z` hold the state before the step, `coord` the state after, `ts == i` |
| `LegacyDes.Traces` | attractors/utils/des.py:37-46 | one yielded snapshot per step |
| `LegacyDes.TracesAt` | attractors/utils/des.py:37-46 | snapshot `j` is the one of step `j` |
| `LegacyDes.FieldFailsAtOnce` | attractors/utils/des.py:34-187 | a run either fails at the first stage of its first step, with the method's error, or never fails |
| `LegacyDes.Des.constructor` | attractors/utils/des.py:16-23 | the initial coordinate, `X = Y = Z = 0`, and no `ts` or `N` yet |
| `LegacyDes.Des.Len` | attractors/utils/des.py:25-26 | `len(des)` is `N` once a run has set it; before that (and for a negative `N`) it raises |
| `LegacyDes.Des.Run` | attractors/utils/des.py:37-46 | the loop: with no steps nothing changes; an undefined `rk2` name fails before the first step after setting `X, Y, Z`; otherwise the snapshots are those of the walk, and a failing step ends the run with the state where it was |
| `LegacyDes.Des.Generate` | attractors/utils/des.py:28-187 | `N` is set first; `N == 0` is a ZeroDivisionError, then an unknown attractor the `getattr` error; a negative `N` runs no step; otherwise the run fails before its first step or yields `N` snapshots of the legacy orbit |
| `LegacyDes.Des.Stepped` | attractors/utils/des.py:37-187 | with scheme and method found: a failing method fails the first step leaving the state; otherwise `n` snapshots of the walk, ending at the `n`-th state |
| `LegacyDes.NewDes` | attractors/utils/des.py:16-23 | construction succeeds exactly when `_func_params` does; the new object holds the initial coordinate and the assigned parameters |
| `LegacyDes.RunIsCurrentIteration` | attractors/utils/des.py:34-187 | the coordinate after `n` steps of a run is the current solver's iteration of the same step |
| `LegacyRungeKutta.RkIsCurrentIteration` | attractors/utils/runge_kutta.py:16-160 | under a method that never fails, the samples follow the current solver's iteration |
| `LegacyRungeKutta.Rk.constructor` | attractors/utils/runge_kutta.py:9-14 | the initial coordinate and empty sample lists |
| `LegacyRungeKutta.Rk.Sample` | attractors/utils/runge_kutta.py:21-27 | the loop: each pass appends the coordinates then steps; an undefined `rk2` name fails the first pass after one append |
| `LegacyRungeKutta.Rk.Integrate` | attractors/utils/runge_kutta.py:16-160 | `N == 0` is a ZeroDivisionError, and so is `a == b` (the zero step `np.arange` divides by), and an unknown attractor the `getattr` error, all changing nothing; otherwise `X, Y, Z` gain the path's coordinates and `coord` ends `count` steps on |
| `LegacyLorenz.DefaultIsHeun` | lorenz.py:37 | `RK2` with no method runs Heun's method |
| `LegacyLorenz.Prototype.constructor` | lorenz.py:7-14 | the parameters, the initial state and empty sample lists |
| `LegacyLorenz.Prototype.LorenzFunc` | lorenz.py:16-23 | the rates at `r` are the written rates (`dy` ending in `- z`, see Findings), which are what `BaseAttractors.lorenz` computes and equal the current `lorenz` system's exactly when `r.y == r.z` |
| `LegacyLorenz.Prototype.Sample` | lorenz.py:29-35 | the loop: each pass appends the components of `r` then steps; an undefined `RK2` name fails the first pass after one append |
| `LegacyLorenz.Prototype.Integrate` | lorenz.py:25-157 | `N == 0` is a ZeroDivisionError, and so is `a == b` (the zero step `np.arange` divides by), both changing nothing; otherwise `X, Y, Z` gain the path's coordinates and `r` ends `count` steps on |
| `Attractors2.Derivative` | attractors2.py:24-158 | a method it shares with `BaseAttractors` runs as there; one it lacks raises AttributeError; its own methods succeed exactly when the attributes they read are set |
| `Attractors2.SharedIsCurrentSystem` | attractors2.py:24-158 | a shared method other than `lorenz` computes what its current system computes on its parameters; `lorenz` does so exactly at the points with `y == z` |
| `Attractors2.DuffingClock` | attractors2.py:73-78 | `duffing` never fails once set up, its `z` advances at rate 0.5 and `dx == y` |
| `Attractors2.AizawaValue` | attractors2.py:80-85 | `aizawa` computes the Aizawa rates on its six attributes |
| `Attractors2.AizawaIsLangford` | attractors2.py:80-85 | `aizawa` is the current `langford` system with its parameters renamed |
| `Attractors2.AizawaRadial` | attractors2.py:80-85 | the rotation term cancels: `x*dx + y*dy == (z - b)(x² + y²)` |
| `Attractors2.IkedaShape` | attractors2.py:132-137 | `ikeda` never fails once set up; `(dx - a, dy)` is `(x, y)` rotated and scaled by `b`, and for `d >= 0`, `dz` lies in `[c - d, c]` |
| `Attractors2.LorenzAttributes` | attractors2.py:17-22 | a `lorenz` object gets exactly `sigma`, `beta` and `rho` |
| `Attractors2.DadrasAttributes` | attractors2.py:17-22 | a `dadras` object gets exactly `a, b, c, d, h` |
| `Attractors2.LorenzObject` | attractors2.py:24-29 | a `lorenz` object's `lorenz` gives the written rates (`dy` ending in `- z`, see Findings), which equal the Lorenz system's on its parameters exactly when `y == z` |
| `Attractors2.LorenzObjectLacksDadras` | attractors2.py:153-158 | a `lorenz` object's `dadras` raises for the missing `a` |
| `Attractors2.DadrasObject` | attractors2.py:153-158 | a `dadras` object's `dadras` is the Dadras system on its parameters |
| `Attractors2.DadrasObjectLacksLorenz` | attractors2.py:24-29 | a `dadras` object's `lorenz` raises for the missing `sigma` |
| `Attractors2.Attractors.constructor` | attractors2.py:6-14 | the attractor name, the keyword arguments and no attributes yet |
| `Attractors2.Attractors.FuncParams` | attractors2.py:17-22 | Ok exactly when the attractor is in the template and every parameter is given; the one "Parameter argument error" otherwise; attributes assigned up to the first missing name |
| `Attractors2.NewAttractors` | attractors2.py:6-22 | succeeds exactly for `lorenz` or `dadras` with all their template parameters, holding exactly those as attributes |

## Left out

- Floating point: values are exact reals. Rounding, overflow, NaN and infinities are not modelled. A division the source performs on numpy floats, such as `1 / b` in `finance` with `b == 0`, is an `Err(NonFinite)` where numpy returns `inf`.
- JIT compilation: `numba.njit` and `jit` are taken to return a function that computes what the original computes. The model stores the same callable in both slots, and `is_jitted` is not modelled. Logging is not modelled either.
- numpy's transcendental functions (`sin`, `cos`, `exp`, and the Euclidean norm in the velocity mapper) are parameters of the functions that call them. Lemmas that need their laws (`|sin| <= 1`, `sin 0 == 0`, `exp > 0`, `sin² + cos² == 1`) take them as preconditions.
- I/O: reading the theme JSON file is replaced by its parsed entries, in file order. Building matplotlib colormap objects is replaced by a datatype recording what they are built from. `random.choice` in `ThemeManager.random` and `np.random.choice` in the downsampler are replaced by the draw, given as a parameter.
- Downsampler: CURVATURE's importance values are not modelled, and VELOCITY's only as far as which of them are zero (which decides numpy's refusals). The random draw is a parameter: `target` distinct sorted indices, for VELOCITY of rows with a non-zero probability. Which of the possible draws numpy picks, and with what odds, is not modelled.
- `Hex.ParseInt16`: accepts only strings of hex digits, a narrowing its doc comment states. Python's `int(s, 16)` also accepts surrounding whitespace, a sign, a `0x` prefix and underscores between digits.
- Error messages are modelled by kind, with a simplified text where numpy's or Python's wording is long.
- `exec` in `_func_params` and `func_params`: each value is taken to be the real number it denotes. Executing an arbitrary expression is not modelled.
- `ATTRACTOR_PARAMS`, the parameter table the first-generation base class loads from a data file, is a parameter of `LegacyBase.BaseAttractors.FuncParams`.
- `attractors.utils.attr`, the base class of the legacy `RK`, is not part of this model. The attractor method it provides is a parameter of `LegacyRungeKutta.Rk.Integrate`.
- matplotlib's colormap registry is a parameter of `Themes.Colormap`: the set of names it holds.
- `LegacySteps.Rk2MethodOf`: only the three local step functions resolve. Every other name is treated as undefined, although `eval` also resolves the other names visible in `rk2`. `eval("print")()` would print an empty line and run the snapshot without a step. `eval("h")()` and `eval("self")()` would raise a TypeError, since a number and a `DES` object are not callable.
- `LegacySteps.SchemeOf`, `LegacyDes.Des.Generate`: inherit the `LegacySteps.Rk2MethodOf` simplification for the `method` argument of `rk2`.
- The iteration count of the legacy `RK` and `Lorenz` loops is the length of `np.arange(a, b, h)`, which depends on float rounding (`N` or `N + 1`). It is a parameter of their `Integrate` methods.
- Aliasing: the legacy integrators update the caller's initial coordinate array in place. `DES` yields the same object at every step. The model reports the values a consumer sees at each yield, as snapshots, and does not model shared references.
- Generator laziness: `DES` sets `N` only when its generator is first advanced. The model runs each generator to completion in one call, so it does not distinguish a generator that was created but never advanced from no call at all.
- The visualisers themselves (plotting and animation) and the package's command-line entry points are outside the integration core.

## Findings

| source | as written | input that shows it | evidently intended | confidence | as-written member | corrected member |
|---|---|---|---|---|---|---|
| attractors/utils/base.py:81 | `dy = x * (rho - z) - z` (the same line is at `attractors2.py:27` and `lorenz.py:21`) | `(x, y, z) = (0, 0, 1)`: `dy == -1`, where the Lorenz equations give `0`; the rates also lose the `(x, y, z) -> (-x, -y, z)` symmetry | `dy = x * (rho - z) - y`, as in `src/attractors/systems/lorenz.py:15` | high, not executed | `LegacyBase.WrittenLorenzDiffers` | `Lorenz.FlipSymmetry` |
| src/attractors/systems/lorenz.py:7 | `@SystemRegistry.register("lorenz")`, without the keyword-only `default_params`, `param_names` and `init_coord` | importing the module: the call raises TypeError, so `lorenz` is never registered and `SystemRegistry.get("lorenz")` (tests/systems/test_systems.py:55-56 and 64-65) raises KeyError | a registration passing lorenz's three defaults, three parameter names and start | high, not executed | `Lorenz.RegistrationRejected` | `Lorenz.IntendedRegistrationAdmitted` |
