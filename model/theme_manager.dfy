/**
 * The theme table: named themes in insertion order plus the name of the
 * default theme. `Table` is the abstract state and the functions on it say
 * what each operation does; `ThemeManager` keeps that state in fields and
 * its methods are proved to follow the functions.
 */
module ThemeManagement {
  import opened Errors
  import opened Seqs
  import opened Themes

  /** The table `_themes` (key order = `order`) and `_default_theme`. */
  datatype Table = Table(themes: map<string, Theme>, order: seq<string>, default: string)

  predicate Valid(t: Table) {
    Distinct(t.order) && Elems(t.order) == t.themes.Keys
  }

  /** The class-level state before any theme is added: empty, default `"ayu"`. */
  function Initial(): (t: Table)
    ensures Valid(t) && t.themes == map[] && t.default == "ayu"
  {
    Table(map[], [], "ayu")
  }

  function NotFoundError(name: string): Error {
    KeyError("Theme '" + name + "' not found")
  }

  /**
   * `get(name)`: a missing or empty name means the default; the theme under
   * the resolved name, or KeyError.
   */
  function GetSpec(t: Table, name: Option<string>): (r: Result<Theme>)
    ensures var n := if name.None? || name.value == "" then t.default else name.value;
      && (r.Ok? <==> n in t.themes)
      && (r.Ok? ==> r.value == t.themes[n])
      && (r.Err? ==> r.error == NotFoundError(n))
  {
    var n := if name.None? || name.value == "" then t.default else name.value;
    if n !in t.themes then Err(NotFoundError(n)) else Ok(t.themes[n])
  }

  /** `set_default(name)`: only a present name can become the default. */
  function SetDefaultSpec(t: Table, name: string): (r: Result<Table>)
    ensures r.Ok? <==> name in t.themes
    ensures r.Ok? ==> r.value == t.(default := name)
    ensures r.Err? ==> r.error == NotFoundError(name)
  {
    if name !in t.themes then Err(NotFoundError(name)) else Ok(t.(default := name))
  }

  /** `_themes[name] = theme`: a new key goes to the end, an existing key keeps its place. */
  function Put(t: Table, name: string, theme: Theme): (r: Table)
    ensures r.themes == t.themes[name := theme] && r.default == t.default
    ensures name in t.themes ==> r.order == t.order
    ensures name !in t.themes ==> r.order == t.order + [name]
  {
    if name in t.themes then t.(themes := t.themes[name := theme])
    else Table(t.themes[name := theme], t.order + [name], t.default)
  }

  /** Storing a theme keeps the key order duplicate-free and in step with the keys. */
  lemma PutValid(t: Table, name: string, theme: Theme)
    requires Valid(t)
    ensures Valid(Put(t, name, theme))
  {
    if name !in t.themes {
      assert Elems(t.order + [name]) == Elems(t.order) + {name};
    }
  }

  /** `add(theme)`: stored under its own name, replacing any theme of that name. */
  function AddSpec(t: Table, theme: Theme): (r: Table)
    ensures r.themes == t.themes[theme.name := theme] && r.default == t.default
    ensures theme.name in t.themes ==> r.order == t.order
  {
    Put(t, theme.name, theme)
  }

  /**
   * `remove(name)`: removing the default is a ValueError, checked first; a
   * name not in the table is the KeyError of `dict.pop`.
   */
  function RemoveSpec(t: Table, name: string): (r: Result<Table>)
    requires Valid(t)
    ensures r.Ok? <==> name != t.default && name in t.themes
    ensures name == t.default ==> r == Err(ValueError("Cannot remove default theme"))
    ensures name != t.default && name !in t.themes ==> r == Err(KeyError(name))
    ensures r.Ok? ==> Valid(r.value) && r.value.themes == t.themes - {name}
                      && r.value.order == Without(t.order, name) && r.value.default == t.default
  {
    if name == t.default then Err(ValueError("Cannot remove default theme"))
    else if name !in t.themes then Err(KeyError(name))
    else
      WithoutDistinct(t.order, name);
      Ok(Table(t.themes - {name}, Without(t.order, name), t.default))
  }

  /** One object of the theme file; a key the object lacks is `None`. */
  datatype RawTheme = RawTheme(background: Option<string>, colors: Option<Colors>, foreground: Option<string>)

  /**
   * The `Theme(...)` built for one file entry: `background` and then `colors`
   * are required (KeyError naming the key), `foreground` defaults to white.
   */
  function LoadEntry(name: string, data: RawTheme): (r: Result<Theme>)
    ensures r.Ok? <==> data.background.Some? && data.colors.Some?
    ensures data.background.None? ==> r == Err(KeyError("background"))
    ensures data.background.Some? && data.colors.None? ==> r == Err(KeyError("colors"))
    ensures r.Ok? ==> r.value == Theme(name, data.background.value,
                                       if data.foreground.Some? then data.foreground.value else "#FFFFFF",
                                       data.colors.value)
  {
    if data.background.None? then Err(KeyError("background"))
    else if data.colors.None? then Err(KeyError("colors"))
    else
      var fg := if data.foreground.Some? then data.foreground.value else "#FFFFFF";
      Ok(Theme(name, data.background.value, fg, data.colors.value))
  }

  /** The table after a load together with how the load ended. */
  datatype LoadOutcome = LoadOutcome(table: Table, status: Result<()>)

  /** One entry of the load: skipped after a failure, otherwise stored or the failure recorded. */
  function LoadStep(before: LoadOutcome, name: string, data: RawTheme): (r: LoadOutcome)
    ensures r.table.default == before.table.default
    ensures before.table.themes.Keys <= r.table.themes.Keys
    ensures before.status.Err? ==> r == before
    ensures before.status.Ok? && LoadEntry(name, data).Err? ==>
      r == LoadOutcome(before.table, Err(LoadEntry(name, data).error))
    ensures before.status.Ok? && LoadEntry(name, data).Ok? ==>
      r == LoadOutcome(Put(before.table, name, LoadEntry(name, data).value), Ok(()))
  {
    if before.status.Err? then before
    else
      match LoadEntry(name, data)
      case Err(e) => LoadOutcome(before.table, Err(e))
      case Ok(theme) => LoadOutcome(Put(before.table, name, theme), Ok(()))
  }

  /**
   * `load`: the file's entries stored in file order; the first entry that
   * fails stops the load, and the entries stored before it stay.
   */
  function LoadSpec(t: Table, entries: seq<(string, RawTheme)>): (r: LoadOutcome)
    ensures r.table.default == t.default
    ensures t.themes.Keys <= r.table.themes.Keys
  {
    if entries == [] then LoadOutcome(t, Ok(()))
    else
      LoadStep(LoadSpec(t, entries[..|entries| - 1]), entries[|entries| - 1].0, entries[|entries| - 1].1)
  }
  /** A successful prefix followed by a well-formed entry stores that entry's theme. */
  lemma LoadNext(t: Table, entries: seq<(string, RawTheme)>, i: nat)
    requires i < |entries| && LoadSpec(t, entries[..i]).status.Ok?
    requires LoadEntry(entries[i].0, entries[i].1).Ok?
    ensures LoadSpec(t, entries[..i + 1]) ==
      LoadOutcome(Put(LoadSpec(t, entries[..i]).table, entries[i].0, LoadEntry(entries[i].0, entries[i].1).value), Ok(()))
  {
    assert entries[..i + 1][..i] == entries[..i];
  }


  /** A load, however it ends, leaves a well-formed table. */
  lemma {:induction false} LoadValid(t: Table, entries: seq<(string, RawTheme)>)
    requires Valid(t)
    ensures Valid(LoadSpec(t, entries).table)
  {
    if entries != [] {
      var front := entries[..|entries| - 1];
      LoadValid(t, front);
      var before := LoadSpec(t, front);
      var e := LoadEntry(entries[|entries| - 1].0, entries[|entries| - 1].1);
      if before.status.Ok? && e.Ok? {
        PutValid(before.table, entries[|entries| - 1].0, e.value);
      }
    }
  }

  /** A load succeeds exactly when every entry has a background and colours. */
  lemma {:induction false} LoadOkIff(t: Table, entries: seq<(string, RawTheme)>)
    ensures LoadSpec(t, entries).status.Ok? <==>
      forall i :: 0 <= i < |entries| ==> LoadEntry(entries[i].0, entries[i].1).Ok?
  {
    if entries != [] {
      var front := entries[..|entries| - 1];
      LoadOkIff(t, front);
      assert forall i :: 0 <= i < |front| ==> front[i] == entries[i];
    }
  }

  /**
   * After a successful load every name in the file is present, and a name
   * holds the theme built from its last entry.
   */
  lemma {:induction false} LoadContents(t: Table, entries: seq<(string, RawTheme)>)
    requires LoadSpec(t, entries).status.Ok?
    ensures forall i :: 0 <= i < |entries| ==> entries[i].0 in LoadSpec(t, entries).table.themes
    ensures forall i :: 0 <= i < |entries| && (forall j :: i < j < |entries| ==> entries[j].0 != entries[i].0) ==>
      LoadEntry(entries[i].0, entries[i].1).Ok?
      && LoadSpec(t, entries).table.themes[entries[i].0] == LoadEntry(entries[i].0, entries[i].1).value
  {
    if entries != [] {
      var front := entries[..|entries| - 1];
      var last := |entries| - 1;
      var before := LoadSpec(t, front);
      assert before.status.Ok?;
      LoadContents(t, front);
      var theme := LoadEntry(entries[last].0, entries[last].1).value;
      var after := LoadSpec(t, entries).table;
      assert after == Put(before.table, entries[last].0, theme);
      forall i | 0 <= i < |entries|
        ensures entries[i].0 in after.themes
      {
        if i < last {
          assert front[i] == entries[i];
        }
      }
      forall i | 0 <= i < |entries| && (forall j :: i < j < |entries| ==> entries[j].0 != entries[i].0)
        ensures LoadEntry(entries[i].0, entries[i].1).Ok?
        ensures after.themes[entries[i].0] == LoadEntry(entries[i].0, entries[i].1).value
      {
        if i < last {
          assert front[i] == entries[i];
          assert entries[last].0 != entries[i].0;
          assert forall j :: i < j < |front| ==> front[j] == entries[j];
        }
      }
    }
  }

  /**
   * A failed load keeps exactly the entries before the first bad one: the
   * table equals a successful load of that prefix, and the bad entry's error is reported.
   */
  lemma {:induction false} LoadStopsAtFirstError(t: Table, entries: seq<(string, RawTheme)>)
    requires LoadSpec(t, entries).status.Err?
    ensures exists k :: (0 <= k < |entries|
      && LoadSpec(t, entries[..k]) == LoadOutcome(LoadSpec(t, entries).table, Ok(()))
      && LoadEntry(entries[k].0, entries[k].1) == Err(LoadSpec(t, entries).status.error))
  {
    var front := entries[..|entries| - 1];
    if LoadSpec(t, front).status.Err? {
      LoadStopsAtFirstError(t, front);
      var k :| 0 <= k < |front|
        && LoadSpec(t, front[..k]) == LoadOutcome(LoadSpec(t, front).table, Ok(()))
        && LoadEntry(front[k].0, front[k].1) == Err(LoadSpec(t, front).status.error);
      assert front[..k] == entries[..k];
    } else {
      assert entries[..|entries| - 1] == front;
    }
  }

  /** Adding a theme makes it retrievable by its name, and other names keep their themes. */
  lemma AddThenGet(t: Table, theme: Theme, other: string)
    requires theme.name != ""
    ensures GetSpec(AddSpec(t, theme), Some(theme.name)) == Ok(theme)
    ensures other != theme.name && other != "" ==>
      GetSpec(AddSpec(t, theme), Some(other)) == GetSpec(t, Some(other))
  {
  }

  /** `name or default`: asking for the empty name yields the default theme, never a theme named `""`. */
  lemma EmptyNameIsDefault(t: Table, theme: Theme)
    requires theme.name == "" && t.default != ""
    ensures GetSpec(AddSpec(t, theme), Some("")) == GetSpec(t, None)
  {
  }

  /** A removed theme can no longer be retrieved. */
  lemma RemoveThenGet(t: Table, name: string)
    requires Valid(t) && RemoveSpec(t, name).Ok? && name != ""
    ensures GetSpec(RemoveSpec(t, name).value, Some(name)) == Err(NotFoundError(name))
  {
  }

  /**
   * Once the default names a stored theme, `get()` keeps succeeding through
   * every add, remove, set_default and load, successful or not.
   */
  lemma DefaultStaysPresent(t: Table, theme: Theme, name: string, entries: seq<(string, RawTheme)>)
    requires Valid(t) && t.default in t.themes
    ensures GetSpec(AddSpec(t, theme), None).Ok?
    ensures RemoveSpec(t, name).Ok? ==> GetSpec(RemoveSpec(t, name).value, None).Ok?
    ensures SetDefaultSpec(t, name).Ok? ==> GetSpec(SetDefaultSpec(t, name).value, None).Ok?
    ensures GetSpec(LoadSpec(t, entries).table, None).Ok?
  {
  }

  /** Before `"ayu"` is added, `get()` fails: the default is not guaranteed to be present. */
  lemma InitialGetFails()
    ensures GetSpec(Initial(), None) == Err(KeyError("Theme 'ayu' not found"))
  {
  }

  /** The manager's class-level state, updated in place by its class methods. */
  class ThemeManager {
    var themes: map<string, Theme>
    var order: seq<string>
    var defaultTheme: string

    function Abs(): Table
      reads this
    {
      Table(themes, order, defaultTheme)
    }

    ghost predicate Inv()
      reads this
    {
      Valid(Abs())
    }

    constructor()
      ensures Inv() && Abs() == Initial()
    {
      themes := map[];
      order := [];
      defaultTheme := "ayu";
    }

    /** Stores the file's entries in order; stops at the first entry lacking a required key. */
    method Load(entries: seq<(string, RawTheme)>) returns (r: Result<()>)
      requires Inv()
      modifies this
      ensures Inv()
      ensures Abs() == LoadSpec(old(Abs()), entries).table && r == LoadSpec(old(Abs()), entries).status
    {
      var i := 0;
      while i < |entries|
        invariant 0 <= i <= |entries| && Inv()
        invariant LoadSpec(old(Abs()), entries[..i]) == LoadOutcome(Abs(), Ok(()))
      {
        var (name, data) := entries[i];
        var e := LoadEntry(name, data);
        if e.Err? {
          assert entries[..i + 1] == entries[..i] + [entries[i]];
          LoadPrefixStops(old(Abs()), entries, i + 1);
          return Err(e.error);
        }
        LoadNext(old(Abs()), entries, i);
        PutValid(Abs(), name, e.value);
        var next := Put(Abs(), name, e.value);
        themes, order := next.themes, next.order;
        i := i + 1;
      }
      assert entries[..i] == entries;
      return Ok(());
    }

    /** The theme under `name`, or under the default when `name` is missing or empty. */
    function Get(name: Option<string>): (r: Result<Theme>)
      reads this
      ensures r == GetSpec(Abs(), name)
    {
      var n := if name.None? || name.value == "" then defaultTheme else name.value;
      if n !in themes then Err(NotFoundError(n)) else Ok(themes[n])
    }

    /** The stored names in insertion order, each once. */
    function ListThemes(): (r: seq<string>)
      requires Inv()
      reads this
      ensures r == order
      ensures Distinct(r) && |r| == |themes|
      ensures forall n :: n in r <==> n in themes
    {
      DistinctCard(order);
      assert Elems(order) == themes.Keys;
      order
    }

    method SetDefault(name: string) returns (r: Result<()>)
      requires Inv()
      modifies this`defaultTheme
      ensures Inv()
      ensures var s := SetDefaultSpec(old(Abs()), name);
        (s.Ok? ==> r == Ok(()) && Abs() == s.value)
        && (s.Err? ==> r == Err(s.error) && Abs() == old(Abs()))
    {
      if name !in themes {
        return Err(NotFoundError(name));
      }
      defaultTheme := name;
      return Ok(());
    }

    method Add(theme: Theme)
      requires Inv()
      modifies this
      ensures Inv() && Abs() == AddSpec(old(Abs()), theme)
    {
      PutValid(Abs(), theme.name, theme);
      var next := Put(Abs(), theme.name, theme);
      themes, order := next.themes, next.order;
    }

    method Remove(name: string) returns (r: Result<()>)
      requires Inv()
      modifies this
      ensures Inv()
      ensures var s := RemoveSpec(old(Abs()), name);
        (s.Ok? ==> r == Ok(()) && Abs() == s.value)
        && (s.Err? ==> r == Err(s.error) && Abs() == old(Abs()))
    {
      if name == defaultTheme {
        return Err(ValueError("Cannot remove default theme"));
      }
      if name !in themes {
        return Err(KeyError(name));
      }
      WithoutDistinct(order, name);
      themes, order := themes - {name}, Without(order, name);
      return Ok(());
    }

    /**
     * `random()`: the draw of `random.choice` is the parameter `pick`, an
     * index into the themes in insertion order; an empty table is IndexError.
     */
    method Random(pick: nat) returns (r: Result<Theme>)
      requires Inv()
      requires order != [] ==> pick < |order|
      ensures r.Ok? <==> themes != map[]
      ensures r.Ok? ==> r.value in themes.Values && r.value == themes[order[pick]]
      ensures r.Err? ==> r.error == IndexError("Cannot choose from an empty sequence")
    {
      if order == [] {
        assert themes.Keys == {};
        return Err(IndexError("Cannot choose from an empty sequence"));
      }
      assert order[pick] in Elems(order);
      return Ok(themes[order[pick]]);
    }
  }

  /** A load whose `k`-th prefix failed at its last entry ends the whole load there. */
  lemma {:induction false} LoadPrefixStops(t: Table, entries: seq<(string, RawTheme)>, k: nat)
    requires 1 <= k <= |entries|
    requires LoadSpec(t, entries[..k]).status.Err?
    ensures LoadSpec(t, entries) == LoadSpec(t, entries[..k])
  {
    if k < |entries| {
      assert entries[..|entries| - 1][..k] == entries[..k];
      LoadPrefixStops(t, entries[..|entries| - 1], k);
    } else {
      assert entries[..k] == entries;
    }
  }
}
