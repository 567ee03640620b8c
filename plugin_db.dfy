/**
 * PermissionsPluginDb: the plugin table (one row per plugin package) and the
 * encodings it uses for a plugin's fields: each list is stored as its
 * elements joined with "," and loaded by splitting on ",", and the active
 * flag is stored as 1 or 0.
 */
module PluginDatabase {
  import opened Wrappers
  import opened ItemParcel
  import opened PluginRecord

  const SEPARATOR: char := ','

  /** A list element the text encoding can carry. */
  predicate Storable(x: string) {
    SEPARATOR !in x
  }

  // ---------------------------------------------------------------------
  // String.join(",", list) and String.split(",")

  /** String.join(",", xs). */
  function Join(xs: seq<string>): string
    decreases |xs|
  {
    if xs == [] then ""
    else if |xs| == 1 then xs[0]
    else xs[0] + [SEPARATOR] + Join(xs[1..])
  }

  /** The pieces between separators, all of them, empty ones included. */
  function Pieces(s: string): (r: seq<string>)
    ensures |r| >= 1
    decreases |s|
  {
    if s == [] then [""]
    else
      var rest := Pieces(s[1..]);
      if s[0] == SEPARATOR then [""] + rest
      else [[s[0]] + rest[0]] + rest[1..]
  }

  /** Drops the empty strings at the end. */
  function DropTrailingEmpty(xs: seq<string>): (r: seq<string>)
    ensures |r| <= |xs| && r == xs[..|r|]
    ensures r == [] || r[|r| - 1] != ""
    ensures forall i :: |r| <= i < |xs| ==> xs[i] == ""
    decreases |xs|
  {
    if xs != [] && xs[|xs| - 1] == "" then DropTrailingEmpty(xs[..|xs| - 1]) else xs
  }

  /** String.split(",") as Java defines it: the whole string when it holds
   *  no separator, otherwise the pieces with the trailing empty ones
   *  removed. */
  function JavaSplit(s: string): seq<string> {
    if SEPARATOR !in s then [s] else DropTrailingEmpty(Pieces(s))
  }

  lemma {:induction false} PiecesOfStorable(a: string)
    requires Storable(a)
    ensures Pieces(a) == [a]
    decreases |a|
  {
    if a != [] {
      PiecesOfStorable(a[1..]);
      assert [a[0]] + a[1..] == a;
    }
  }

  lemma {:induction false} PiecesAfterFirst(a: string, b: string)
    requires Storable(a)
    ensures Pieces(a + [SEPARATOR] + b) == [a] + Pieces(b)
    decreases |a|
  {
    if a == [] {
      assert a + [SEPARATOR] + b == [SEPARATOR] + b;
      assert ([SEPARATOR] + b)[1..] == b;
    } else {
      PiecesAfterFirst(a[1..], b);
      assert (a + [SEPARATOR] + b)[1..] == a[1..] + [SEPARATOR] + b;
      assert [a[0]] + a[1..] == a;
    }
  }

  /** Splitting a joined non-empty list of storable elements gives back every
   *  piece, empty ones included. */
  lemma {:induction false} PiecesOfJoin(xs: seq<string>)
    requires xs != [] && forall i :: 0 <= i < |xs| ==> Storable(xs[i])
    ensures Pieces(Join(xs)) == xs
    decreases |xs|
  {
    if |xs| == 1 {
      PiecesOfStorable(xs[0]);
    } else {
      PiecesOfJoin(xs[1..]);
      PiecesAfterFirst(xs[0], Join(xs[1..]));
      assert [xs[0]] + xs[1..] == xs;
    }
  }

  /** A list round-trips through join and Java's split when it is non-empty
   *  and no element is empty or contains a comma. */
  lemma JoinSplitRoundTrip(xs: seq<string>)
    requires xs != []
    requires forall i :: 0 <= i < |xs| ==> xs[i] != "" && Storable(xs[i])
    ensures JavaSplit(Join(xs)) == xs
  {
    if |xs| > 1 {
      assert Join(xs) == xs[0] + [SEPARATOR] + Join(xs[1..]);
      assert Join(xs)[|xs[0]|] == SEPARATOR;
      PiecesOfJoin(xs);
    }
  }

  /** The stored form of an empty list is "", which Java's split turns into
   *  a one-element list holding the empty string: a new plugin's empty lists
   *  come back as [""]. */
  lemma EmptyListLoadsAsOneEmptyString()
    ensures Join([]) == ""
    ensures JavaSplit(Join([])) == [""]
    ensures JavaSplit(Join([])) != []
  {
  }

  /** The split the loader evidently intends: the empty string read as the
   *  empty list. */
  function SplitList(s: string): seq<string> {
    if s == "" then [] else JavaSplit(s)
  }

  /** Every list of non-empty comma-free elements round-trips, the empty
   *  list included. */
  lemma {:induction false} SplitListRoundTrip(xs: seq<string>)
    requires forall i :: 0 <= i < |xs| ==> xs[i] != "" && Storable(xs[i])
    ensures SplitList(Join(xs)) == xs
  {
    if xs != [] {
      JoinSplitRoundTrip(xs);
      assert |Join(xs)| >= |xs[0]| > 0 by {
        if |xs| > 1 {
          assert Join(xs) == xs[0] + [SEPARATOR] + Join(xs[1..]);
        }
      }
    }
  }

  // ---------------------------------------------------------------------
  // Rows

  /** A row of the plugin table: the package (NOT NULL UNIQUE), the four
   *  joined lists and is_active (NOT NULL, 1 or 0). */
  datatype Row = Row(
    packageName: string,
    supportedPackages: string,
    supportedAPIs: string,
    targetPackages: string,
    targetAPIs: string,
    isActive: int)

  /** The values insertPlugin and updatePlugin put: a null list makes the
   *  join throw NullPointerException; a null package name leaves the values
   *  without the NOT NULL column (None), which the database refuses. */
  function RowOf(d: PluginData): (r: Result<Option<Row>>)
    ensures r.Threw? <==> d.supportedPackages.None? || d.supportedAPIs.None? ||
                          d.targetPackages.None? || d.targetAPIs.None?
    ensures r.Threw? ==> r.error == NullPointer
    ensures r.Ok? ==> (r.value.Some? <==> d.packageName.Some?)
    ensures r.Ok? && r.value.Some? ==>
              r.value.value.packageName == d.packageName.value &&
              r.value.value.supportedPackages == Join(d.supportedPackages.value) &&
              r.value.value.supportedAPIs == Join(d.supportedAPIs.value) &&
              r.value.value.targetPackages == Join(d.targetPackages.value) &&
              r.value.value.targetAPIs == Join(d.targetAPIs.value) &&
              (r.value.value.isActive == 1 <==> d.isActive)
  {
    if d.supportedPackages.None? || d.supportedAPIs.None? || d.targetPackages.None? || d.targetAPIs.None? then
      Threw(NullPointer)
    else if d.packageName.None? then Ok(None)
    else Ok(Some(Row(d.packageName.value, Join(d.supportedPackages.value), Join(d.supportedAPIs.value),
                     Join(d.targetPackages.value), Join(d.targetAPIs.value), ActiveFlag(d.isActive))))
  }

  /** The plugin loadPlugins builds from a row, each list split with Java's
   *  split as the loader does. */
  function Loaded(id: int, row: Row): PluginData {
    PluginData(ToInt32(id), Some(row.packageName),
               Some(JavaSplit(row.supportedPackages)), Some(JavaSplit(row.supportedAPIs)),
               Some(JavaSplit(row.targetPackages)), Some(JavaSplit(row.targetAPIs)),
               row.isActive == 1)
  }

  /** A non-empty list of non-empty comma-free elements. */
  predicate StorableList(xs: Option<seq<string>>) {
    xs.Some? && xs.value != [] &&
    forall i :: 0 <= i < |xs.value| ==> xs.value[i] != "" && Storable(xs.value[i])
  }

  /** Storing a plugin whose lists are non-empty and hold only non-empty
   *  comma-free names, and loading it back, gives the same plugin under its
   *  row id. */
  lemma StoreLoadRoundTrip(d: PluginData, id: int)
    requires d.packageName.Some?
    requires StorableList(d.supportedPackages) && StorableList(d.supportedAPIs)
    requires StorableList(d.targetPackages) && StorableList(d.targetAPIs)
    requires -0x8000_0000 <= id < 0x8000_0000
    ensures RowOf(d).Ok? && RowOf(d).value.Some?
    ensures Loaded(id, RowOf(d).value.value) == d.(id := id)
  {
    JoinSplitRoundTrip(d.supportedPackages.value);
    JoinSplitRoundTrip(d.supportedAPIs.value);
    JoinSplitRoundTrip(d.targetPackages.value);
    JoinSplitRoundTrip(d.targetAPIs.value);
  }

  /** A stored plugin with an empty list loads back with [""] in its place. */
  lemma StoreLoadEmptyList(d: PluginData, id: int)
    requires d.packageName.Some? && d.supportedPackages == Some([])
    requires d.supportedAPIs.Some? && d.targetPackages.Some? && d.targetAPIs.Some?
    ensures RowOf(d).Ok? && RowOf(d).value.Some?
    ensures Loaded(id, RowOf(d).value.value).supportedPackages == Some([""])
    ensures Loaded(id, RowOf(d).value.value) != d.(id := ToInt32(id))
  {
    EmptyListLoadsAsOneEmptyString();
  }

  // ---------------------------------------------------------------------
  // The table

  lemma Element(s: set<int>) returns (x: int)
    requires s != {}
    ensures x in s
  {
    if forall y :: y !in s {
      assert false;
    }
    x :| x in s;
  }

  class PermissionsPluginDb {
    /** The plugin table by row id. */
    var table: map<int, Row>

    constructor ()
      ensures table == map[] && Valid()
    {
      table := map[];
    }

    /** Row ids are positive and package names unique. */
    ghost predicate Valid()
      reads this
    {
      (forall id :: id in table ==> id > 0) &&
      (forall i, j :: i in table && j in table && table[i].packageName == table[j].packageName ==> i == j)
    }

    /** The package names in the table. */
    ghost function Packages(): set<string>
      reads this
    {
      set id | id in table :: table[id].packageName
    }

    /** The row id SQLite assigns: one more than the largest, 1 for an empty
     *  table. */
    method NextRowId() returns (id: int)
      requires Valid()
      ensures id > 0 && id !in table
      ensures forall k :: k in table ==> k < id
      ensures id == 1 || id - 1 in table
    {
      var keys := table.Keys;
      var largest := 0;
      while keys != {}
        invariant keys <= table.Keys
        invariant forall k :: k in table && k !in keys ==> k <= largest
        invariant largest == 0 || largest in table
        invariant largest >= 0
        decreases |keys|
      {
        ghost var some := Element(keys);
        var k :| k in keys;
        if k > largest {
          largest := k;
        }
        keys := keys - {k};
      }
      id := largest + 1;
    }

    /** insertPlugin: -1 for a null plugin, when the database cannot be
     *  opened, or when the row is refused (null or duplicate package name);
     *  otherwise the new row's id. A null list throws. */
    method InsertPlugin(plugin: PermissionsPlugin?, opens: bool) returns (r: Result<int>)
      requires Valid()
      modifies this
      ensures Valid()
      ensures plugin == null || !opens ==> r == Ok(-1) && table == old(table)
      ensures plugin != null && opens ==>
                match RowOf(plugin.Data())
                case Threw(e) => r == Threw(e) && table == old(table)
                case Ok(None) => r == Ok(-1) && table == old(table)
                case Ok(Some(row)) =>
                  if row.packageName in old(Packages()) then r == Ok(-1) && table == old(table)
                  else r.Ok? && r.value > 0 && r.value !in old(table) && table == old(table)[r.value := row]
    {
      if plugin == null || !opens {
        return Ok(-1);
      }
      var values := RowOf(plugin.Data());
      if values.Threw? {
        return Threw(values.error);
      }
      if values.value.None? {
        return Ok(-1);
      }
      var row := values.value.value;
      if exists id :: id in table && table[id].packageName == row.packageName {
        return Ok(-1);
      }
      var id := NextRowId();
      table := table[id := row];
      return Ok(id);
    }

    /** deletePlugin: 0 for a null plugin, an unsaved one (id -1) or an
     *  unopenable database; otherwise the number of rows deleted. */
    method DeletePlugin(plugin: PermissionsPlugin?, opens: bool) returns (r: int)
      requires Valid()
      modifies this
      ensures Valid()
      ensures plugin == null || plugin.id == NO_ID || !opens ==> r == 0 && table == old(table)
      ensures plugin != null && plugin.id != NO_ID && opens ==>
                table == old(table) - {plugin.id} && (r == 1 <==> plugin.id in old(table)) && (r == 0 || r == 1)
    {
      if plugin == null || plugin.id == NO_ID || !opens {
        return 0;
      }
      r := if plugin.id in table then 1 else 0;
      table := table - {plugin.id};
    }

    /** updatePlugin: 0 for a null plugin, an unsaved one (id -1), an
     *  unopenable database or a refused row (null package name, or one
     *  another row holds); otherwise the number of rows updated. A null list
     *  throws. */
    method UpdatePlugin(plugin: PermissionsPlugin?, opens: bool) returns (r: Result<int>)
      requires Valid()
      modifies this
      ensures Valid()
      ensures plugin == null || plugin.id == NO_ID || !opens ==> r == Ok(0) && table == old(table)
      ensures plugin != null && plugin.id != NO_ID && opens ==>
                match RowOf(plugin.Data())
                case Threw(e) => r == Threw(e) && table == old(table)
                case Ok(None) => r == Ok(0) && table == old(table)
                case Ok(Some(row)) =>
                  if plugin.id !in old(table) then r == Ok(0) && table == old(table)
                  else if exists k :: k in old(table) && k != plugin.id && old(table)[k].packageName == row.packageName then
                    r == Ok(0) && table == old(table)
                  else r == Ok(1) && table == old(table)[plugin.id := row]
    {
      if plugin == null || plugin.id == NO_ID || !opens {
        return Ok(0);
      }
      var values := RowOf(plugin.Data());
      if values.Threw? {
        return Threw(values.error);
      }
      if values.value.None? || plugin.id !in table {
        return Ok(0);
      }
      var row := values.value.value;
      if exists k :: k in table && k != plugin.id && table[k].packageName == row.packageName {
        return Ok(0);
      }
      table := table[plugin.id := row];
      return Ok(1);
    }

    /** The plugins built so far hold the loaded form of each row of `done`
     *  under the row's package name. */
    ghost predicate LoadedRows(plugins: map<string, PermissionsPlugin>, done: set<int>)
      reads this, plugins.Values
    {
      forall id :: id in done && id in table ==>
        table[id].packageName in plugins && plugins[table[id].packageName].Data() == Loaded(id, table[id])
    }

    /** loadPlugins: every row becomes a plugin under its package name; an
     *  unopenable database gives the empty map. */
    method LoadPlugins(opens: bool) returns (plugins: map<string, PermissionsPlugin>)
      requires Valid()
      ensures !opens ==> plugins == map[]
      ensures opens ==> plugins.Keys == Packages() && LoadedRows(plugins, table.Keys)
      ensures forall name :: name in plugins ==> fresh(plugins[name])
    {
      plugins := map[];
      if !opens {
        return;
      }
      var ids := table.Keys;
      while ids != {}
        invariant ids <= table.Keys
        invariant plugins.Keys == set id | id in table && id !in ids :: table[id].packageName
        invariant LoadedRows(plugins, table.Keys - ids)
        invariant forall name :: name in plugins ==> fresh(plugins[name])
        decreases |ids|
      {
        ghost var some := Element(ids);
        var id :| id in ids;
        var plugin := PluginFromRow(id, table[id]);
        ghost var before := plugins;
        plugins := plugins[table[id].packageName := plugin];
        ids := ids - {id};
        forall k | k in table.Keys - ids
          ensures table[k].packageName in plugins && plugins[table[k].packageName].Data() == Loaded(k, table[k])
        {
          if k != id {
            assert table[k].packageName != table[id].packageName;
            assert plugins[table[k].packageName] == before[table[k].packageName];
          }
        }
      }
    }
  }

  /** One row of the cursor loop: a new plugin for the row's package, with
   *  the row id, the four split lists and the active flag. */
  method PluginFromRow(id: int, row: Row) returns (plugin: PermissionsPlugin)
    ensures fresh(plugin) && plugin.Data() == Loaded(id, row)
  {
    plugin := new PermissionsPlugin(Some(row.packageName));
    plugin.id := ToInt32(id);
    plugin.supportedPackages := Some(JavaSplit(row.supportedPackages));
    plugin.supportedAPIs := Some(JavaSplit(row.supportedAPIs));
    plugin.targetPackages := Some(JavaSplit(row.targetPackages));
    plugin.targetAPIs := Some(JavaSplit(row.targetAPIs));
    plugin.isActive := row.isActive == 1;
  }
}
