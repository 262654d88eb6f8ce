/** Which export plugins `main()` ends up with: the entries of the `exports`
    list, the dynamic import that turns a name into a plugin object, and the
    `configure` call made on each plugin once it is in the list. */
module Exports {
  import opened Values
  import opened Trace

  /** What `configure` does: return a truthy value, return a falsy one, or raise. */
  datatype ConfigureResult = Configured | Refused | Raises

  /** The names whose `exports.<name>` module imports, whose `export_<name>` class exists and
      whose constructor returns; each with what its `configure` will do. A name that is not a key
      stands for a lookup that raises. */
  type PluginTable = map<string, ConfigureResult>

  /** A plugin object in the `exports` list, built from the entry at `position` of the config list. */
  datatype ActiveExport = ActiveExport(position: nat, name: string)

  /** The `exports` list after loading, and whether loading ended the program with an uncaught exception. */
  datatype LoadResult = LoadResult(exports: seq<ActiveExport>, crashed: bool)

  /** `export.get('enabled', False)` is truthy. */
  predicate Enabled(entry: map<string, Value>) {
    Truthy(Get(entry, "enabled", VBool(false)))
  }

  /** The plugin name when `"exports." + export.get('name')` is a string the table resolves. */
  function Lookup(entry: map<string, Value>, table: PluginTable): (r: Option<string>) {
    var name := Get(entry, "name", VNone);
    if name.VStr? && name.s in table then Some(name.s) else None
  }

  /** The entry is a dict, is enabled, and its plugin resolves. */
  predicate Loads(entry: Value, table: PluginTable) {
    entry.VMap? && Enabled(entry.entries) && Lookup(entry.entries, table).Some?
  }

  /** Loading the entries from `start` on. An entry that is not a dict makes `.get` raise inside the
      `try`, and the error message in the `except` calls `.get` on it again, which ends the program. */
  function LoadFrom(entries: seq<Value>, start: nat, table: PluginTable): (r: LoadResult)
    requires start <= |entries|
    ensures |r.exports| <= |entries| - start
    decreases |entries| - start
  {
    if start == |entries| then LoadResult([], false)
    else if !entries[start].VMap? then LoadResult([], true)
    else
      var rest := LoadFrom(entries, start + 1, table);
      if Loads(entries[start], table) then
        LoadResult([ActiveExport(start, Lookup(entries[start].entries, table).value)] + rest.exports, rest.crashed)
      else rest
  }

  /** Loading from the `exports` value of the config file: nothing when it is falsy, each item of a list in turn;
      any other truthy value is iterated as something other than a list of dicts, which ends the program. */
  function LoadExports(exportsValue: Value, table: PluginTable): (r: LoadResult)
    ensures exportsValue.VList? ==> |r.exports| <= |exportsValue.items|
    ensures !exportsValue.VList? ==> r.exports == [] && (r.crashed <==> Truthy(exportsValue))
  {
    if !Truthy(exportsValue) then LoadResult([], false)
    else if exportsValue.VList? then LoadFrom(exportsValue.items, 0, table)
    else LoadResult([], true)
  }

  /** The `configure` calls loading makes: one per plugin appended, in list order. */
  function ConfigureEvents(exports: seq<ActiveExport>): (es: seq<Event>)
    ensures |es| == |exports|
    ensures forall i :: 0 <= i < |exports| ==> es[i] == Configure(exports[i].position)
  {
    seq(|exports|, i requires 0 <= i < |exports| => Configure(exports[i].position))
  }

  /** `loaded` are the plugins the entries before `i` contribute to loading from the start. */
  predicate LoadedUpTo(entries: seq<Value>, i: nat, table: PluginTable, loaded: seq<ActiveExport>)
    requires i <= |entries|
  {
    var rest := LoadFrom(entries, i, table);
    LoadFrom(entries, 0, table) == LoadResult(loaded + rest.exports, rest.crashed)
  }

  /** Handling the dict entry at `i` appends its plugin exactly when it loads, and makes one `configure`
      call on it. */
  lemma {:induction false} LoadAdvances(entries: seq<Value>, i: nat, table: PluginTable, loaded: seq<ActiveExport>)
    requires i < |entries| && entries[i].VMap?
    requires LoadedUpTo(entries, i, table, loaded)
    ensures Loads(entries[i], table) ==>
      var next := loaded + [ActiveExport(i, Lookup(entries[i].entries, table).value)];
      LoadedUpTo(entries, i + 1, table, next) && ConfigureEvents(next) == ConfigureEvents(loaded) + [Configure(i)]
    ensures !Loads(entries[i], table) ==> LoadedUpTo(entries, i + 1, table, loaded)
  {
    var rest := LoadFrom(entries, i + 1, table);
    if Loads(entries[i], table) {
      var next := loaded + [ActiveExport(i, Lookup(entries[i].entries, table).value)];
      assert loaded + ([next[|next| - 1]] + rest.exports) == next + rest.exports;
      assert ConfigureEvents(next) == ConfigureEvents(loaded) + [Configure(i)];
    }
  }

  /** Positions strictly increase along the list: the config order. */
  predicate InConfigOrder(exports: seq<ActiveExport>) {
    forall i, j :: 0 <= i < j < |exports| ==> exports[i].position < exports[j].position
  }

  /** Every plugin loaded comes from an enabled dict entry whose plugin resolves, under that entry's name;
      the list keeps config order, starting at `start`. */
  lemma {:induction false} LoadedAreEnabled(entries: seq<Value>, start: nat, table: PluginTable)
    requires start <= |entries|
    ensures var r := LoadFrom(entries, start, table);
      && InConfigOrder(r.exports)
      && forall e :: e in r.exports ==>
           start <= e.position < |entries| && Loads(entries[e.position], table)
           && Lookup(entries[e.position].entries, table) == Some(e.name)
    decreases |entries| - start
  {
    if start < |entries| && entries[start].VMap? {
      LoadedAreEnabled(entries, start + 1, table);
    }
  }

  /** Loading crashes exactly when some entry is not a dict; otherwise every enabled entry whose plugin
      resolves is in the list, whatever its `configure` does. */
  lemma {:induction false} LoadedAreAll(entries: seq<Value>, start: nat, table: PluginTable)
    requires start <= |entries|
    ensures var r := LoadFrom(entries, start, table);
      && (r.crashed <==> exists i :: start <= i < |entries| && !entries[i].VMap?)
      && (!r.crashed ==> forall i :: start <= i < |entries| && Loads(entries[i], table) ==>
            exists e :: e in r.exports && e.position == i)
    decreases |entries| - start
  {
    if start < |entries| && entries[start].VMap? {
      LoadedAreAll(entries, start + 1, table);
      var r := LoadFrom(entries, start, table);
      var rest := LoadFrom(entries, start + 1, table);
      if !r.crashed && Loads(entries[start], table) {
        assert r.exports[0].position == start;
      }
    }
  }

  /** What `configure` does never changes which plugins stay: a plugin whose `configure` fails or raises
      is still in the list, because it was appended before the call. */
  lemma {:induction false} ConfigureResultIgnored(entries: seq<Value>, start: nat, t1: PluginTable, t2: PluginTable)
    requires start <= |entries|
    requires t1.Keys == t2.Keys
    ensures LoadFrom(entries, start, t1) == LoadFrom(entries, start, t2)
    decreases |entries| - start
  {
    if start < |entries| && entries[start].VMap? {
      ConfigureResultIgnored(entries, start + 1, t1, t2);
      assert Lookup(entries[start].entries, t1) == Lookup(entries[start].entries, t2);
    }
  }
}
