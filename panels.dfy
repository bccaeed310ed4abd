/** The builders of the dashboard's four left-hand panels (main.py:29-137).

    Every builder starts an empty two-column table, walks a constant list of
    `(label, key)` pairs and adds the row `(label, str(stats[key]))` for each, in
    order. A missing key raises `KeyError` at the first pair that needs it; the
    table built so far is dropped and no panel is produced.

    For each builder there is a specification function (`LivePanel`), a method that
    builds the table row by row as the program does (`GenerateLivePanel`), and a
    lemma that spells out the result row by row (`LivePanelContents`). */
module Panels {
  import opened Stats
  import opened Render

  const LIVE_FIELDS: seq<Field> := [
    Field("# tubes", "current-tubes"),
    Field("# connections", "current-connections"),
    Field("# producers", "current-producers"),
    Field("# workers", "current-workers"),
    Field("# waiting", "current-waiting")
  ]

  const CMD_FIELDS: seq<Field> := [
    Field("# put", "cmd-put"),
    Field("# reserve", "cmd-reserve"),
    Field("# delete", "cmd-delete"),
    Field("# bury", "cmd-bury"),
    Field("# release", "cmd-release"),
    Field("# kick", "cmd-kick")
  ]

  const MISC_FIELDS: seq<Field> := [
    Field("# jobs", "total-jobs"),
    Field("# connections", "total-connections")
  ]

  /** The job-state rows; each label carries its colour tag in the library's markup. */
  const JOB_FIELDS: seq<Field> := [
    Field("[red]Urgent", "current-jobs-urgent"),
    Field("[green]Ready", "current-jobs-ready"),
    Field("[yellow]Reserved", "current-jobs-reserved"),
    Field("[magenta]Delayed", "current-jobs-delayed"),
    Field("[blue]Buried", "current-jobs-buried")
  ]

  const INFO_FIELDS: seq<Field> := [
    Field("[b]Version", "version"),
    Field("PID", "pid"),
    Field("Uptime", "uptime")
  ]

  /** A fresh table with the columns "Key" and "Value" and no header line. */
  function KeyValueTable(title: Option<string>): Table {
    Table(title, ["Key", "Value"], false, [])
  }

  /** What `for name, key in fields: table.add_row(name, str(stats[key]))` leaves:
      one row per field, in order, or the `KeyError` of the first absent key. */
  function Filled<V>(table: Table, fields: seq<Field>, stats: Stats<V>, str: V -> string): Result<Table> {
    var values :- LookupAll(stats, Keys(fields), str);
    Ok(table.(rows := table.rows + seq(|fields|, i requires 0 <= i < |fields| => [fields[i].name, values[i]])))
  }

  /** The loop every builder runs: add the row of each field in turn. */
  method AddRows<V>(table: Table, fields: seq<Field>, stats: Stats<V>, str: V -> string) returns (r: Result<Table>)
    ensures r == Filled(table, fields, stats, str)
  {
    var t := table;
    for j := 0 to |fields|
      invariant forall k | 0 <= k < j :: fields[k].key in stats
      invariant t == table.(rows := t.rows)
      invariant |t.rows| == |table.rows| + j
      invariant t.rows[..|table.rows|] == table.rows
      invariant forall k | 0 <= k < j :: t.rows[|table.rows| + k] == [fields[k].name, str(stats[fields[k].key])]
    {
      var field := fields[j];
      if field.key !in stats {
        assert forall k | 0 <= k < j :: Keys(fields)[..j][k] == fields[k].key;
        FirstMissingAt(stats, Keys(fields), j);
        return Err(KeyError(field.key));
      }
      t := t.AddRow([field.name, str(stats[field.key])]);
    }
    FilledRows(table, fields, stats, str, t.rows[|table.rows|..]);
    assert t.rows == table.rows + t.rows[|table.rows|..];
    return Ok(t);
  }

  /** When every key is present, filling appends exactly one row per field, in
      order: the field's label, then the text of its value. */
  lemma FilledRows<V>(table: Table, fields: seq<Field>, stats: Stats<V>, str: V -> string, rows: seq<seq<string>>)
    requires |rows| == |fields|
    requires forall i | 0 <= i < |fields| :: fields[i].key in stats && rows[i] == [fields[i].name, str(stats[fields[i].key])]
    ensures Filled(table, fields, stats, str) == Ok(table.(rows := table.rows + rows))
  {
    assert HasAll(stats, Keys(fields));
    var values := LookupAll(stats, Keys(fields), str).value;
    assert rows == seq(|fields|, i requires 0 <= i < |fields| => [fields[i].name, values[i]]);
  }

  // ----- generate_live_panel (main.py:29-45)

  function LivePanel<V>(stats: Stats<V>, str: V -> string): Result<Panel> {
    var table :- Filled(KeyValueTable(None), LIVE_FIELDS, stats, str);
    Ok(Panel("Current stats", [TableItem(table)]))
  }

  method GenerateLivePanel<V>(stats: Stats<V>, str: V -> string) returns (r: Result<Panel>)
    ensures r == LivePanel(stats, str)
  {
    var table :- AddRows(KeyValueTable(None), LIVE_FIELDS, stats, str);
    return Ok(Panel("Current stats", [TableItem(table)]));
  }

  /** The live panel: five rows, tubes to waiting, each the text of its stat; or
      the `KeyError` of the first of the five keys that is absent. */
  lemma LivePanelContents<V>(stats: Stats<V>, str: V -> string)
    ensures LivePanel(stats, str).Ok? <==>
      "current-tubes" in stats && "current-connections" in stats && "current-producers" in stats &&
      "current-workers" in stats && "current-waiting" in stats
    ensures LivePanel(stats, str).Ok? ==>
      LivePanel(stats, str).value == Panel("Current stats", [TableItem(Table(None, ["Key", "Value"], false, [
        ["# tubes", str(stats["current-tubes"])],
        ["# connections", str(stats["current-connections"])],
        ["# producers", str(stats["current-producers"])],
        ["# workers", str(stats["current-workers"])],
        ["# waiting", str(stats["current-waiting"])]]))])
    ensures LivePanel(stats, str).Err? ==>
      FirstKeyError(stats, ["current-tubes", "current-connections", "current-producers", "current-workers", "current-waiting"],
                    LivePanel(stats, str).error)
  {
    assert Keys(LIVE_FIELDS) == ["current-tubes", "current-connections", "current-producers", "current-workers", "current-waiting"];
    if LivePanel(stats, str).Ok? {
      var rows := [
        ["# tubes", str(stats["current-tubes"])],
        ["# connections", str(stats["current-connections"])],
        ["# producers", str(stats["current-producers"])],
        ["# workers", str(stats["current-workers"])],
        ["# waiting", str(stats["current-waiting"])]];
      FilledRows(KeyValueTable(None), LIVE_FIELDS, stats, str, rows);
      assert [] + rows == rows;
    }
  }

  // ----- generate_cmd_table (main.py:48-71)

  function CmdTable<V>(stats: Stats<V>, str: V -> string): Result<Table> {
    Filled(KeyValueTable(Some("Command")), CMD_FIELDS, stats, str)
  }

  method GenerateCmdTable<V>(stats: Stats<V>, str: V -> string) returns (r: Result<Table>)
    ensures r == CmdTable(stats, str)
  {
    r := AddRows(KeyValueTable(Some("Command")), CMD_FIELDS, stats, str);
  }

  /** The command table: six rows, put to kick; or the `KeyError` of the first of
      the six keys that is absent. */
  lemma CmdTableContents<V>(stats: Stats<V>, str: V -> string)
    ensures CmdTable(stats, str).Ok? <==>
      "cmd-put" in stats && "cmd-reserve" in stats && "cmd-delete" in stats &&
      "cmd-bury" in stats && "cmd-release" in stats && "cmd-kick" in stats
    ensures CmdTable(stats, str).Ok? ==>
      CmdTable(stats, str).value == Table(Some("Command"), ["Key", "Value"], false, [
        ["# put", str(stats["cmd-put"])],
        ["# reserve", str(stats["cmd-reserve"])],
        ["# delete", str(stats["cmd-delete"])],
        ["# bury", str(stats["cmd-bury"])],
        ["# release", str(stats["cmd-release"])],
        ["# kick", str(stats["cmd-kick"])]])
    ensures CmdTable(stats, str).Err? ==>
      FirstKeyError(stats, ["cmd-put", "cmd-reserve", "cmd-delete", "cmd-bury", "cmd-release", "cmd-kick"],
                    CmdTable(stats, str).error)
  {
    assert Keys(CMD_FIELDS) == ["cmd-put", "cmd-reserve", "cmd-delete", "cmd-bury", "cmd-release", "cmd-kick"];
    if CmdTable(stats, str).Ok? {
      var rows := [
        ["# put", str(stats["cmd-put"])],
        ["# reserve", str(stats["cmd-reserve"])],
        ["# delete", str(stats["cmd-delete"])],
        ["# bury", str(stats["cmd-bury"])],
        ["# release", str(stats["cmd-release"])],
        ["# kick", str(stats["cmd-kick"])]];
      FilledRows(KeyValueTable(Some("Command")), CMD_FIELDS, stats, str, rows);
      assert [] + rows == rows;
    }
  }

  // ----- generate_misc_table (main.py:74-89)

  function MiscTable<V>(stats: Stats<V>, str: V -> string): Result<Table> {
    Filled(KeyValueTable(Some("Misc")), MISC_FIELDS, stats, str)
  }

  method GenerateMiscTable<V>(stats: Stats<V>, str: V -> string) returns (r: Result<Table>)
    ensures r == MiscTable(stats, str)
  {
    r := AddRows(KeyValueTable(Some("Misc")), MISC_FIELDS, stats, str);
  }

  /** The misc table: two rows, total jobs then total connections; or the
      `KeyError` of the first of the two keys that is absent. */
  lemma MiscTableContents<V>(stats: Stats<V>, str: V -> string)
    ensures MiscTable(stats, str).Ok? <==> "total-jobs" in stats && "total-connections" in stats
    ensures MiscTable(stats, str).Ok? ==>
      MiscTable(stats, str).value == Table(Some("Misc"), ["Key", "Value"], false, [
        ["# jobs", str(stats["total-jobs"])],
        ["# connections", str(stats["total-connections"])]])
    ensures MiscTable(stats, str).Err? ==>
      FirstKeyError(stats, ["total-jobs", "total-connections"], MiscTable(stats, str).error)
  {
    assert Keys(MISC_FIELDS) == ["total-jobs", "total-connections"];
    if MiscTable(stats, str).Ok? {
      var rows := [
        ["# jobs", str(stats["total-jobs"])],
        ["# connections", str(stats["total-connections"])]];
      FilledRows(KeyValueTable(Some("Misc")), MISC_FIELDS, stats, str, rows);
      assert [] + rows == rows;
    }
  }

  // ----- generate_lifetime_panel (main.py:92-100)

  function LifetimePanel<V>(stats: Stats<V>, str: V -> string): Result<Panel> {
    var commands :- CmdTable(stats, str);
    var totals :- MiscTable(stats, str);
    Ok(Panel("Lifetime counts", [TableItem(commands), RuleItem, TableItem(totals)]))
  }

  method GenerateLifetimePanel<V>(stats: Stats<V>, str: V -> string) returns (r: Result<Panel>)
    ensures r == LifetimePanel(stats, str)
  {
    var table1 :- GenerateCmdTable(stats, str);
    var table2 :- GenerateMiscTable(stats, str);
    return Ok(Panel("Lifetime counts", [TableItem(table1), RuleItem, TableItem(table2)]));
  }

  /** The lifetime panel: the six command rows, a rule, then the two total rows,
      always in that order. The command keys are looked up first, so a missing key
      yields the `KeyError` of the first absent key of the eight, in that order. */
  lemma LifetimePanelContents<V>(stats: Stats<V>, str: V -> string)
    ensures LifetimePanel(stats, str).Ok? <==>
      "cmd-put" in stats && "cmd-reserve" in stats && "cmd-delete" in stats &&
      "cmd-bury" in stats && "cmd-release" in stats && "cmd-kick" in stats &&
      "total-jobs" in stats && "total-connections" in stats
    ensures LifetimePanel(stats, str).Ok? ==>
      LifetimePanel(stats, str).value == Panel("Lifetime counts", [
        TableItem(Table(Some("Command"), ["Key", "Value"], false, [
          ["# put", str(stats["cmd-put"])],
          ["# reserve", str(stats["cmd-reserve"])],
          ["# delete", str(stats["cmd-delete"])],
          ["# bury", str(stats["cmd-bury"])],
          ["# release", str(stats["cmd-release"])],
          ["# kick", str(stats["cmd-kick"])]])),
        RuleItem,
        TableItem(Table(Some("Misc"), ["Key", "Value"], false, [
          ["# jobs", str(stats["total-jobs"])],
          ["# connections", str(stats["total-connections"])]]))])
    ensures LifetimePanel(stats, str).Err? ==>
      FirstKeyError(stats, ["cmd-put", "cmd-reserve", "cmd-delete", "cmd-bury", "cmd-release", "cmd-kick",
                            "total-jobs", "total-connections"],
                    LifetimePanel(stats, str).error)
  {
    CmdTableContents(stats, str);
    MiscTableContents(stats, str);
    var commands := ["cmd-put", "cmd-reserve", "cmd-delete", "cmd-bury", "cmd-release", "cmd-kick"];
    var totals := ["total-jobs", "total-connections"];
    assert commands + totals == ["cmd-put", "cmd-reserve", "cmd-delete", "cmd-bury", "cmd-release", "cmd-kick",
                                 "total-jobs", "total-connections"];
    if CmdTable(stats, str).Err? {
      FirstKeyErrorConcat(stats, commands, totals, CmdTable(stats, str).error);
    } else if MiscTable(stats, str).Err? {
      FirstKeyErrorConcat(stats, commands, totals, MiscTable(stats, str).error);
    }
  }

  // ----- generate_job_panel (main.py:103-120)

  function JobPanel<V>(stats: Stats<V>, str: V -> string): Result<Panel> {
    var table :- Filled(KeyValueTable(None), JOB_FIELDS, stats, str);
    Ok(Panel("Current job counts", [TableItem(table)]))
  }

  method GenerateJobPanel<V>(stats: Stats<V>, str: V -> string) returns (r: Result<Panel>)
    ensures r == JobPanel(stats, str)
  {
    var table :- AddRows(KeyValueTable(None), JOB_FIELDS, stats, str);
    return Ok(Panel("Current job counts", [TableItem(table)]));
  }

  /** The job panel: five rows with fixed labels and colour tags, urgent (red),
      ready (green), reserved (yellow), delayed (magenta), buried (blue), whatever
      the counts are; or the `KeyError` of the first of the five keys that is absent. */
  lemma JobPanelContents<V>(stats: Stats<V>, str: V -> string)
    ensures JobPanel(stats, str).Ok? <==>
      "current-jobs-urgent" in stats && "current-jobs-ready" in stats && "current-jobs-reserved" in stats &&
      "current-jobs-delayed" in stats && "current-jobs-buried" in stats
    ensures JobPanel(stats, str).Ok? ==>
      JobPanel(stats, str).value == Panel("Current job counts", [TableItem(Table(None, ["Key", "Value"], false, [
        ["[red]Urgent", str(stats["current-jobs-urgent"])],
        ["[green]Ready", str(stats["current-jobs-ready"])],
        ["[yellow]Reserved", str(stats["current-jobs-reserved"])],
        ["[magenta]Delayed", str(stats["current-jobs-delayed"])],
        ["[blue]Buried", str(stats["current-jobs-buried"])]]))])
    ensures JobPanel(stats, str).Err? ==>
      FirstKeyError(stats, ["current-jobs-urgent", "current-jobs-ready", "current-jobs-reserved",
                            "current-jobs-delayed", "current-jobs-buried"],
                    JobPanel(stats, str).error)
  {
    assert Keys(JOB_FIELDS) == ["current-jobs-urgent", "current-jobs-ready", "current-jobs-reserved",
                                "current-jobs-delayed", "current-jobs-buried"];
    if JobPanel(stats, str).Ok? {
      var rows := [
        ["[red]Urgent", str(stats["current-jobs-urgent"])],
        ["[green]Ready", str(stats["current-jobs-ready"])],
        ["[yellow]Reserved", str(stats["current-jobs-reserved"])],
        ["[magenta]Delayed", str(stats["current-jobs-delayed"])],
        ["[blue]Buried", str(stats["current-jobs-buried"])]];
      FilledRows(KeyValueTable(None), JOB_FIELDS, stats, str, rows);
      assert [] + rows == rows;
    }
  }

  // ----- generate_beanstalkd_info (main.py:123-137)

  function InfoPanel<V>(stats: Stats<V>, str: V -> string): Result<Panel> {
    var table :- Filled(KeyValueTable(None), INFO_FIELDS, stats, str);
    Ok(Panel("beanstalkd info", [TableItem(table)]))
  }

  method GenerateInfoPanel<V>(stats: Stats<V>, str: V -> string) returns (r: Result<Panel>)
    ensures r == InfoPanel(stats, str)
  {
    var table :- AddRows(KeyValueTable(None), INFO_FIELDS, stats, str);
    return Ok(Panel("beanstalkd info", [TableItem(table)]));
  }

  /** The daemon info panel: three rows, version, pid, uptime; or the `KeyError`
      of the first of the three keys that is absent. */
  lemma InfoPanelContents<V>(stats: Stats<V>, str: V -> string)
    ensures InfoPanel(stats, str).Ok? <==> "version" in stats && "pid" in stats && "uptime" in stats
    ensures InfoPanel(stats, str).Ok? ==>
      InfoPanel(stats, str).value == Panel("beanstalkd info", [TableItem(Table(None, ["Key", "Value"], false, [
        ["[b]Version", str(stats["version"])],
        ["PID", str(stats["pid"])],
        ["Uptime", str(stats["uptime"])]]))])
    ensures InfoPanel(stats, str).Err? ==>
      FirstKeyError(stats, ["version", "pid", "uptime"], InfoPanel(stats, str).error)
  {
    assert Keys(INFO_FIELDS) == ["version", "pid", "uptime"];
    if InfoPanel(stats, str).Ok? {
      var rows := [
        ["[b]Version", str(stats["version"])],
        ["PID", str(stats["pid"])],
        ["Uptime", str(stats["uptime"])]];
      FilledRows(KeyValueTable(None), INFO_FIELDS, stats, str, rows);
      assert [] + rows == rows;
    }
  }
}
