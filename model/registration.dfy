/**
 * The checks shared by the decorators of the system and solver registries:
 * the name must be a string, the decorated object callable, and the name new.
 */
module Registration {
  import opened Errors

  /** The `name` argument as Python receives it: a `str` or anything else. */
  datatype NameArg = Str(s: string) | NotStr

  /** The object a decorator is applied to: a callable or anything else. */
  datatype Decorated<F> = Callable(f: F) | NotCallable

  /**
   * The decorator's three guards, in source order, against the names already
   * in the table; `kind` is "System" or "Solver". On success, the key.
   */
  function Admission<F>(kind: string, keys: set<string>, name: NameArg, f: Decorated<F>): (r: Result<string>)
    ensures r.Ok? <==> name.Str? && f.Callable? && name.s !in keys
    ensures r.Ok? ==> r.value == name.s
    ensures name.NotStr? ==> r == Err(TypeError("Name must be string"))
    ensures name.Str? && f.NotCallable? ==> r == Err(TypeError("Must register callable"))
    ensures name.Str? && f.Callable? && name.s in keys ==>
              r == Err(ValueError(kind + " " + name.s + " already registered"))
  {
    if name.NotStr? then Err(TypeError("Name must be string"))
    else if f.NotCallable? then Err(TypeError("Must register callable"))
    else if name.s in keys then Err(ValueError(kind + " " + name.s + " already registered"))
    else Ok(name.s)
  }

  /** The KeyError of a lookup of an unregistered name. */
  function NotFound(kind: string, name: string): Error {
    KeyError(kind + " " + name + " not found")
  }
}
