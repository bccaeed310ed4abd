/** The per-tube table (main.py:140-180).

    The broker is asked for its tube names, then for the stats of each tube in
    turn, in the order the names came back. Each reply yields one row of twelve
    cells, the text of twelve keys in header order. The first cell is the reply's
    own "name" stat, not the name that was asked for. A tube whose stats request
    fails (the broker answers NOT_FOUND when a tube vanished in between) is not
    skipped: the exception ends the whole table. The same holds for a reply that
    lacks one of the twelve keys.

    The broker's replies are inputs: `tubes` is the answer to the list-tubes
    request, and `tubeStats` maps each tube the broker still knows to its stats
    reply; a name without an entry is a request that fails. */
module Tubes {
  import opened Stats
  import opened Render

  /** The column headers with their colour tags, and the key each column shows. */
  const TUBE_FIELDS: seq<Field> := [
    Field("Name", "name"),
    Field("[red]#U", "current-jobs-urgent"),
    Field("[green]#Y", "current-jobs-ready"),
    Field("[yellow]#R", "current-jobs-reserved"),
    Field("[magenta]#D", "current-jobs-delayed"),
    Field("[blue]#B", "current-jobs-buried"),
    Field("# using", "current-using"),
    Field("# waiting", "current-waiting"),
    Field("# watching", "current-watching"),
    Field("pause", "pause"),
    Field("Total jobs seen", "total-jobs"),
    Field("# del", "cmd-delete")
  ]

  /** The reply holds every key the tube table shows. */
  predicate HasTubeKeys<V>(s: Stats<V>) {
    "name" in s && "current-jobs-urgent" in s && "current-jobs-ready" in s && "current-jobs-reserved" in s &&
    "current-jobs-delayed" in s && "current-jobs-buried" in s && "current-using" in s && "current-waiting" in s &&
    "current-watching" in s && "pause" in s && "total-jobs" in s && "cmd-delete" in s
  }

  /** The twelve keys the tube table shows, in header order. */
  lemma TubeKeys()
    ensures Keys(TUBE_FIELDS) == [
      "name", "current-jobs-urgent", "current-jobs-ready", "current-jobs-reserved",
      "current-jobs-delayed", "current-jobs-buried", "current-using", "current-waiting",
      "current-watching", "pause", "total-jobs", "cmd-delete"]
  {
  }

  /** `HasTubeKeys` is the twelve lookups of a row succeeding. */
  lemma HasTubeKeysAll<V>(s: Stats<V>)
    ensures HasTubeKeys(s) <==> HasAll(s, Keys(TUBE_FIELDS))
  {
    TubeKeys();
  }

  /** The empty tube table: twelve headers, shown, no rows. */
  function EmptyTubeTable(): Table {
    Table(None, Labels(TUBE_FIELDS), true, [])
  }

  /** The row of one tube: fetch its stats, then `[str(tube_stats[key]) for each header]`. */
  function TubeRow<V>(name: string, tubeStats: map<string, Stats<V>>, str: V -> string): Result<seq<string>> {
    if name !in tubeStats then Err(NotFound(name))
    else LookupAll(tubeStats[name], Keys(TUBE_FIELDS), str)
  }

  /** The rows of `tubes`, one per name and in order, or the exception of the first
      tube whose row cannot be built. */
  function TubeRows<V>(tubes: seq<string>, tubeStats: map<string, Stats<V>>, str: V -> string): Result<seq<seq<string>>>
    decreases |tubes|
  {
    if tubes == [] then Ok([])
    else
      var rows :- TubeRows(tubes[..|tubes| - 1], tubeStats, str);
      var row :- TubeRow(tubes[|tubes| - 1], tubeStats, str);
      Ok(rows + [row])
  }

  function TubePanel<V>(tubes: seq<string>, tubeStats: map<string, Stats<V>>, str: V -> string): Result<Panel> {
    var rows :- TubeRows(tubes, tubeStats, str);
    Ok(Panel("Tube info", [TableItem(EmptyTubeTable().(rows := rows))]))
  }

  /** `generate_tube_table`: one stats request and one `add_row` per listed tube. */
  method GenerateTubeTable<V>(tubes: seq<string>, tubeStats: map<string, Stats<V>>, str: V -> string)
    returns (r: Result<Panel>)
    ensures r == TubePanel(tubes, tubeStats, str)
  {
    var table := EmptyTubeTable();
    for i := 0 to |tubes|
      invariant table == EmptyTubeTable().(rows := table.rows)
      invariant TubeRows(tubes[..i], tubeStats, str) == Ok(table.rows)
    {
      assert tubes[..i + 1][..i] == tubes[..i];
      var name := tubes[i];
      if name !in tubeStats {
        TubeRowsPrefixError(tubes, i + 1, tubeStats, str);
        return Err(NotFound(name));
      }
      var cells := LookupAll(tubeStats[name], Keys(TUBE_FIELDS), str);
      if cells.Err? {
        TubeRowsPrefixError(tubes, i + 1, tubeStats, str);
        return Err(cells.error);
      }
      table := table.AddRow(cells.value);
    }
    assert tubes[..|tubes|] == tubes;
    return Ok(Panel("Tube info", [TableItem(table)]));
  }

  /** Once a prefix of the tubes fails, the whole list fails with the same exception:
      no later tube is consulted and no row is skipped. */
  lemma {:induction false} TubeRowsPrefixError<V>(tubes: seq<string>, k: nat, tubeStats: map<string, Stats<V>>, str: V -> string)
    requires k <= |tubes| && TubeRows(tubes[..k], tubeStats, str).Err?
    ensures TubeRows(tubes, tubeStats, str) == TubeRows(tubes[..k], tubeStats, str)
    decreases |tubes|
  {
    if k < |tubes| {
      var front := tubes[..|tubes| - 1];
      assert front[..k] == tubes[..k];
      TubeRowsPrefixError(front, k, tubeStats, str);
    } else {
      assert tubes[..k] == tubes;
    }
  }

  /** One row per listed tube, in the order listed, each the row of that tube; the
      table is built exactly when every tube's row is. */
  lemma {:induction false} TubeRowsOk<V>(tubes: seq<string>, tubeStats: map<string, Stats<V>>, str: V -> string)
    ensures TubeRows(tubes, tubeStats, str).Ok? <==>
      forall i | 0 <= i < |tubes| :: TubeRow(tubes[i], tubeStats, str).Ok?
    ensures TubeRows(tubes, tubeStats, str).Ok? ==>
      |TubeRows(tubes, tubeStats, str).value| == |tubes| &&
      forall i | 0 <= i < |tubes| :: TubeRows(tubes, tubeStats, str).value[i] == TubeRow(tubes[i], tubeStats, str).value
    decreases |tubes|
  {
    if tubes != [] {
      var n := |tubes| - 1;
      var front := tubes[..n];
      TubeRowsOk(front, tubeStats, str);
      assert forall i | 0 <= i < n :: front[i] == tubes[i];
      var rowsFront := TubeRows(front, tubeStats, str);
      var last := TubeRow(tubes[n], tubeStats, str);
      if rowsFront.Ok? && last.Ok? {
        var rows := rowsFront.value + [last.value];
        assert TubeRows(tubes, tubeStats, str) == Ok(rows);
        forall i | 0 <= i < |tubes| ensures rows[i] == TubeRow(tubes[i], tubeStats, str).value {
          if i < n {
            assert rows[i] == rowsFront.value[i];
          }
        }
      } else if rowsFront.Err? {
        var i :| 0 <= i < n && TubeRow(front[i], tubeStats, str).Err?;
        assert TubeRow(tubes[i], tubeStats, str).Err?;
      }
    }
  }

  /** When the table cannot be built, its exception is that of the first tube whose
      row cannot be built; every tube before it was fetched and read. */
  lemma {:induction false} TubeRowsFirstError<V>(tubes: seq<string>, tubeStats: map<string, Stats<V>>, str: V -> string)
    ensures TubeRows(tubes, tubeStats, str).Err? ==>
      exists i | 0 <= i < |tubes| ::
        (forall j | 0 <= j < i :: TubeRow(tubes[j], tubeStats, str).Ok?) &&
        TubeRow(tubes[i], tubeStats, str).Err? &&
        TubeRows(tubes, tubeStats, str).error == TubeRow(tubes[i], tubeStats, str).error
    decreases |tubes|
  {
    if tubes != [] && TubeRows(tubes, tubeStats, str).Err? {
      var n := |tubes| - 1;
      var front := tubes[..n];
      if TubeRows(front, tubeStats, str).Err? {
        TubeRowsFirstError(front, tubeStats, str);
        var i :| 0 <= i < n &&
          (forall j | 0 <= j < i :: TubeRow(front[j], tubeStats, str).Ok?) &&
          TubeRow(front[i], tubeStats, str).Err? &&
          TubeRows(front, tubeStats, str).error == TubeRow(front[i], tubeStats, str).error;
        assert forall j | 0 <= j <= i :: front[j] == tubes[j];
      } else {
        TubeRowsOk(front, tubeStats, str);
        assert forall j | 0 <= j < n :: front[j] == tubes[j];
        assert TubeRow(tubes[n], tubeStats, str).Err?;
      }
    }
  }

  /** The row of one tube: twelve cells, the text of the reply's own "name" stat and
      then of the other eleven keys in header order; NotFound when the stats request
      fails; otherwise the `KeyError` of the first of the twelve keys that is absent. */
  lemma TubeRowContents<V>(name: string, tubeStats: map<string, Stats<V>>, str: V -> string)
    ensures TubeRow(name, tubeStats, str).Ok? <==> name in tubeStats && HasTubeKeys(tubeStats[name])
    ensures TubeRow(name, tubeStats, str).Ok? ==>
      var s := tubeStats[name];
      TubeRow(name, tubeStats, str).value == [
        str(s["name"]),
        str(s["current-jobs-urgent"]),
        str(s["current-jobs-ready"]),
        str(s["current-jobs-reserved"]),
        str(s["current-jobs-delayed"]),
        str(s["current-jobs-buried"]),
        str(s["current-using"]),
        str(s["current-waiting"]),
        str(s["current-watching"]),
        str(s["pause"]),
        str(s["total-jobs"]),
        str(s["cmd-delete"])]
    ensures name !in tubeStats ==> TubeRow(name, tubeStats, str) == Err(NotFound(name))
    ensures name in tubeStats && TubeRow(name, tubeStats, str).Err? ==>
      FirstKeyError(tubeStats[name], Keys(TUBE_FIELDS), TubeRow(name, tubeStats, str).error)
  {
    TubeKeys();
    if name in tubeStats {
      HasTubeKeysAll(tubeStats[name]);
    }
    if name in tubeStats && HasTubeKeys(tubeStats[name]) {
      var s := tubeStats[name];
      LookupAllValues(s, Keys(TUBE_FIELDS), str, [
        str(s["name"]),
        str(s["current-jobs-urgent"]),
        str(s["current-jobs-ready"]),
        str(s["current-jobs-reserved"]),
        str(s["current-jobs-delayed"]),
        str(s["current-jobs-buried"]),
        str(s["current-using"]),
        str(s["current-waiting"]),
        str(s["current-watching"]),
        str(s["pause"]),
        str(s["total-jobs"]),
        str(s["cmd-delete"])]);
    }
  }

  /** The tube panel: titled "Tube info", twelve headers in fixed order, and one row
      per listed tube in the order listed, with no sorting and no tube skipped; no
      tubes give no rows under the headers. The panel is built exactly when every
      listed tube is still known to the broker and its reply holds all twelve keys. */
  lemma TubePanelContents<V>(tubes: seq<string>, tubeStats: map<string, Stats<V>>, str: V -> string)
    ensures TubePanel([], tubeStats, str) ==
      Ok(Panel("Tube info", [TableItem(Table(None, [
        "Name", "[red]#U", "[green]#Y", "[yellow]#R", "[magenta]#D", "[blue]#B",
        "# using", "# waiting", "# watching", "pause", "Total jobs seen", "# del"], true, []))]))
    ensures TubePanel(tubes, tubeStats, str).Ok? <==>
      forall i | 0 <= i < |tubes| :: tubes[i] in tubeStats && HasTubeKeys(tubeStats[tubes[i]])
    ensures TubePanel(tubes, tubeStats, str).Ok? ==>
      TubePanel(tubes, tubeStats, str).value.title == "Tube info" &&
      TubePanel(tubes, tubeStats, str).value.body == [TableItem(EmptyTubeTable().(rows := TubeRows(tubes, tubeStats, str).value))] &&
      |TubeRows(tubes, tubeStats, str).value| == |tubes| &&
      forall i | 0 <= i < |tubes| ::
        TubeRows(tubes, tubeStats, str).value[i] ==
          var s := tubeStats[tubes[i]];
          [str(s["name"]), str(s["current-jobs-urgent"]), str(s["current-jobs-ready"]),
           str(s["current-jobs-reserved"]), str(s["current-jobs-delayed"]), str(s["current-jobs-buried"]),
           str(s["current-using"]), str(s["current-waiting"]), str(s["current-watching"]),
           str(s["pause"]), str(s["total-jobs"]), str(s["cmd-delete"])]
    ensures TubePanel(tubes, tubeStats, str).Err? ==>
      exists i | 0 <= i < |tubes| ::
        (forall j | 0 <= j < i :: tubes[j] in tubeStats && HasTubeKeys(tubeStats[tubes[j]])) &&
        if tubes[i] !in tubeStats then TubePanel(tubes, tubeStats, str).error == NotFound(tubes[i])
        else FirstKeyError(tubeStats[tubes[i]], Keys(TUBE_FIELDS), TubePanel(tubes, tubeStats, str).error)
  {
    assert Labels(TUBE_FIELDS) == [
      "Name", "[red]#U", "[green]#Y", "[yellow]#R", "[magenta]#D", "[blue]#B",
      "# using", "# waiting", "# watching", "pause", "Total jobs seen", "# del"];
    TubeRowsOk(tubes, tubeStats, str);
    TubeRowsFirstError(tubes, tubeStats, str);
    forall i | 0 <= i < |tubes|
      ensures TubeRow(tubes[i], tubeStats, str).Ok? <==> tubes[i] in tubeStats && HasTubeKeys(tubeStats[tubes[i]])
    {
      TubeRowContents(tubes[i], tubeStats, str);
    }
    if TubePanel(tubes, tubeStats, str).Ok? {
      forall i | 0 <= i < |tubes|
        ensures TubeRows(tubes, tubeStats, str).value[i] ==
          var s := tubeStats[tubes[i]];
          [str(s["name"]), str(s["current-jobs-urgent"]), str(s["current-jobs-ready"]),
           str(s["current-jobs-reserved"]), str(s["current-jobs-delayed"]), str(s["current-jobs-buried"]),
           str(s["current-using"]), str(s["current-waiting"]), str(s["current-watching"]),
           str(s["pause"]), str(s["total-jobs"]), str(s["cmd-delete"])]
      {
        TubeRowContents(tubes[i], tubeStats, str);
      }
    } else {
      var i :| 0 <= i < |tubes| &&
        (forall j | 0 <= j < i :: TubeRow(tubes[j], tubeStats, str).Ok?) &&
        TubeRow(tubes[i], tubeStats, str).Err? &&
        TubeRows(tubes, tubeStats, str).error == TubeRow(tubes[i], tubeStats, str).error;
      TubeRowContents(tubes[i], tubeStats, str);
    }
  }

  /** A tube that vanished between the listing and its stats request is not skipped:
      with "a", "b" and "c" listed and "b" gone, the panel fails with NotFound for "b",
      and "c" is never asked for. */
  lemma VanishedTubeFails<V>(tubeStats: map<string, Stats<V>>, str: V -> string)
    requires "a" in tubeStats && HasTubeKeys(tubeStats["a"]) && "b" !in tubeStats
    ensures TubePanel(["a", "b", "c"], tubeStats, str) == Err(NotFound("b"))
  {
    var tubes := ["a", "b", "c"];
    TubeRowContents("a", tubeStats, str);
    assert tubes[..2] == ["a", "b"] && tubes[..2][..1] == ["a"] && ["a"][..0] == [];
    TubeRowsPrefixError(tubes, 2, tubeStats, str);
  }
}
