/** The whole screen of one refresh (main.py:183-205).

    The global stats reply is read by the four left-hand builders, in the order
    live, lifetime, job, info; then the tube table is built; then the layout is
    assembled. The first exception from any of these ends the refresh and no
    layout is produced. The layout is split into two regions side by side:
    "overall-stats" on the left and "tube-info", with ratio 2, on the right. The
    left region is split into four regions stacked top to bottom: the job panel
    (minimum size 7), the live panel (minimum size 7), the lifetime panel (minimum
    size 12) and the info panel (fixed size 5). */
module Dashboard {
  import opened Stats
  import opened Render
  import opened Panels
  import opened Tubes

  /** Every field the four left-hand builders look up, in the order they do. */
  const SCREEN_FIELDS: seq<Field> := LIVE_FIELDS + CMD_FIELDS + MISC_FIELDS + JOB_FIELDS + INFO_FIELDS

  /** The layout of one refresh, as a finished tree. */
  function ScreenLayout(live: Panel, lifetime: Panel, job: Panel, info: Panel, tubeInfo: Panel): Layout {
    Layout(None, None, None, None, None, SplitRow, [
      Layout(Some("overall-stats"), None, None, None, None, SplitColumn, [
        NewLayout(Some(job), None, None, Some(7), None),
        NewLayout(Some(live), None, None, Some(7), None),
        NewLayout(Some(lifetime), None, None, Some(12), None),
        NewLayout(Some(info), None, Some(5), None, None)]),
      NewLayout(Some(tubeInfo), Some("tube-info"), None, None, Some(2))])
  }

  /** The result of `generate_screen` for the given broker replies. */
  function Screen<V>(stats: Stats<V>, tubes: seq<string>, tubeStats: map<string, Stats<V>>, str: V -> string): Result<Layout> {
    var live :- LivePanel(stats, str);
    var lifetime :- LifetimePanel(stats, str);
    var job :- JobPanel(stats, str);
    var info :- InfoPanel(stats, str);
    var tubeInfo :- TubePanel(tubes, tubeStats, str);
    Ok(ScreenLayout(live, lifetime, job, info, tubeInfo))
  }

  /** `generate_screen`: build the panels, then split a fresh layout into rows and
      split its "overall-stats" child into columns. */
  method GenerateScreen<V>(stats: Stats<V>, tubes: seq<string>, tubeStats: map<string, Stats<V>>, str: V -> string)
    returns (r: Result<Layout>)
    ensures r == Screen(stats, tubes, tubeStats, str)
  {
    var live :- GenerateLivePanel(stats, str);
    var lifetime :- GenerateLifetimePanel(stats, str);
    var job :- GenerateJobPanel(stats, str);
    var info :- GenerateInfoPanel(stats, str);
    var tubeInfo :- GenerateTubeTable(tubes, tubeStats, str);

    var layout := NewLayout(None, None, None, None, None);
    layout := layout.DivideRow([
      NewLayout(None, Some("overall-stats"), None, None, None),
      NewLayout(Some(tubeInfo), Some("tube-info"), None, None, Some(2))]);
    layout := layout.DivideChildColumn("overall-stats", [
      NewLayout(Some(job), None, None, Some(7), None),
      NewLayout(Some(live), None, None, Some(7), None),
      NewLayout(Some(lifetime), None, None, Some(12), None),
      NewLayout(Some(info), None, Some(5), None, None)]);
    ghost var expected := ScreenLayout(live, lifetime, job, info, tubeInfo);
    assert layout.children[0] == expected.children[0];
    assert layout.children[1] == expected.children[1];
    assert layout.children == expected.children;
    return Ok(layout);
  }

  /** A left-hand builder succeeds exactly when its keys are present, and otherwise
      raises the `KeyError` of its first absent key. */
  lemma FilledOutcome<V>(table: Table, fields: seq<Field>, stats: Stats<V>, str: V -> string)
    ensures Filled(table, fields, stats, str).Ok? <==> HasAll(stats, Keys(fields))
    ensures Filled(table, fields, stats, str).Err? ==> FirstKeyError(stats, Keys(fields), Filled(table, fields, stats, str).error)
  {
  }

  /** The screen is produced exactly when the global reply holds every key the four
      left-hand panels need and the tube table can be built. Otherwise the refresh
      fails with the first exception in program order: the `KeyError` of the first
      absent global key in the order the builders look them up, or else the tube
      table's exception. */
  lemma ScreenOutcome<V>(stats: Stats<V>, tubes: seq<string>, tubeStats: map<string, Stats<V>>, str: V -> string)
    ensures Screen(stats, tubes, tubeStats, str).Ok? <==>
      HasAll(stats, Keys(SCREEN_FIELDS)) && TubePanel(tubes, tubeStats, str).Ok?
    ensures Screen(stats, tubes, tubeStats, str).Err? && !HasAll(stats, Keys(SCREEN_FIELDS)) ==>
      FirstKeyError(stats, Keys(SCREEN_FIELDS), Screen(stats, tubes, tubeStats, str).error)
    ensures Screen(stats, tubes, tubeStats, str).Err? && HasAll(stats, Keys(SCREEN_FIELDS)) ==>
      Screen(stats, tubes, tubeStats, str).error == TubePanel(tubes, tubeStats, str).error
  {
    var a, b, c, d, e := Keys(LIVE_FIELDS), Keys(CMD_FIELDS), Keys(MISC_FIELDS), Keys(JOB_FIELDS), Keys(INFO_FIELDS);
    KeysConcat(LIVE_FIELDS, CMD_FIELDS);
    KeysConcat(LIVE_FIELDS + CMD_FIELDS, MISC_FIELDS);
    KeysConcat(LIVE_FIELDS + CMD_FIELDS + MISC_FIELDS, JOB_FIELDS);
    KeysConcat(LIVE_FIELDS + CMD_FIELDS + MISC_FIELDS + JOB_FIELDS, INFO_FIELDS);
    assert Keys(SCREEN_FIELDS) == a + b + c + d + e;
    HasAllConcat(stats, a, b);
    HasAllConcat(stats, a + b, c);
    HasAllConcat(stats, a + b + c, d);
    HasAllConcat(stats, a + b + c + d, e);
    FilledOutcome(KeyValueTable(None), LIVE_FIELDS, stats, str);
    FilledOutcome(KeyValueTable(Some("Command")), CMD_FIELDS, stats, str);
    FilledOutcome(KeyValueTable(Some("Misc")), MISC_FIELDS, stats, str);
    FilledOutcome(KeyValueTable(None), JOB_FIELDS, stats, str);
    FilledOutcome(KeyValueTable(None), INFO_FIELDS, stats, str);
    var err := if Screen(stats, tubes, tubeStats, str).Err? then Screen(stats, tubes, tubeStats, str).error else KeyError("");
    if LivePanel(stats, str).Err? {
      FirstKeyErrorConcat(stats, a, b, err);
      FirstKeyErrorConcat(stats, a + b, c, err);
      FirstKeyErrorConcat(stats, a + b + c, d, err);
      FirstKeyErrorConcat(stats, a + b + c + d, e, err);
    } else if CmdTable(stats, str).Err? {
      FirstKeyErrorConcat(stats, a, b, err);
      FirstKeyErrorConcat(stats, a + b, c, err);
      FirstKeyErrorConcat(stats, a + b + c, d, err);
      FirstKeyErrorConcat(stats, a + b + c + d, e, err);
    } else if MiscTable(stats, str).Err? {
      FirstKeyErrorConcat(stats, a + b, c, err);
      FirstKeyErrorConcat(stats, a + b + c, d, err);
      FirstKeyErrorConcat(stats, a + b + c + d, e, err);
    } else if JobPanel(stats, str).Err? {
      FirstKeyErrorConcat(stats, a + b + c, d, err);
      FirstKeyErrorConcat(stats, a + b + c + d, e, err);
    } else if InfoPanel(stats, str).Err? {
      FirstKeyErrorConcat(stats, a + b + c + d, e, err);
    }
  }

  /** The layout of a successful refresh: two regions side by side, "overall-stats"
      and then "tube-info" with ratio 2 showing the tube panel; the left one stacks,
      top to bottom, the job panel (minimum size 7), the live panel (minimum size 7),
      the lifetime panel (minimum size 12) and the info panel (fixed size 5). */
  lemma ScreenRegions<V>(stats: Stats<V>, tubes: seq<string>, tubeStats: map<string, Stats<V>>, str: V -> string)
    requires Screen(stats, tubes, tubeStats, str).Ok?
    ensures var root := Screen(stats, tubes, tubeStats, str).value;
      root.split == SplitRow && |root.children| == 2 &&
      root.children[0].name == Some("overall-stats") && root.children[0].panel == None &&
      root.children[0].ratio == None &&
      root.children[1].name == Some("tube-info") && root.children[1].ratio == Some(2) &&
      root.children[1].panel == Some(TubePanel(tubes, tubeStats, str).value) &&
      root.children[1].children == []
    ensures var left := Screen(stats, tubes, tubeStats, str).value.children[0];
      left.split == SplitColumn && |left.children| == 4 &&
      left.children[0].panel == Some(JobPanel(stats, str).value) &&
      left.children[1].panel == Some(LivePanel(stats, str).value) &&
      left.children[2].panel == Some(LifetimePanel(stats, str).value) &&
      left.children[3].panel == Some(InfoPanel(stats, str).value) &&
      left.children[0].minimumSize == Some(7) && left.children[0].size == None &&
      left.children[1].minimumSize == Some(7) && left.children[1].size == None &&
      left.children[2].minimumSize == Some(12) && left.children[2].size == None &&
      left.children[3].size == Some(5) && left.children[3].minimumSize == None &&
      forall i | 0 <= i < 4 :: left.children[i].children == [] && left.children[i].ratio == None
  {
  }

  // ----- a sample refresh

  /** A complete global reply, values already in text form. */
  const SAMPLE_STATS: Stats<string> := map[
    "current-tubes" := "2", "current-connections" := "5", "current-producers" := "1",
    "current-workers" := "3", "current-waiting" := "1",
    "cmd-put" := "100", "cmd-reserve" := "90", "cmd-delete" := "80", "cmd-bury" := "2",
    "cmd-release" := "3", "cmd-kick" := "1",
    "total-jobs" := "150", "total-connections" := "40",
    "current-jobs-urgent" := "0", "current-jobs-ready" := "4", "current-jobs-reserved" := "3",
    "current-jobs-buried" := "1", "current-jobs-delayed" := "0",
    "version" := "1.12", "pid" := "4321", "uptime" := "3600"]

  /** The stats reply of the one tube, "default". */
  const SAMPLE_TUBE: Stats<string> := map[
    "name" := "default", "current-jobs-urgent" := "0", "current-jobs-ready" := "4",
    "current-jobs-reserved" := "3", "current-jobs-delayed" := "0", "current-jobs-buried" := "1",
    "current-using" := "1", "current-waiting" := "1", "current-watching" := "3", "pause" := "0",
    "total-jobs" := "150", "cmd-delete" := "80"]

  function Text(s: string): string {
    s
  }

  /** The tube panel of the sample: one row, that of "default", its cells in header order. */
  lemma SampleTubePanel()
    ensures TubePanel(["default"], map["default" := SAMPLE_TUBE], Text) ==
      Ok(Panel("Tube info", [TableItem(EmptyTubeTable().(rows := [
        ["default", "0", "4", "3", "0", "1", "1", "1", "3", "0", "150", "80"]]))]))
  {
    var tubeStats := map["default" := SAMPLE_TUBE];
    TubeRowContents("default", tubeStats, Text);
    TubeRowsOk(["default"], tubeStats, Text);
    assert TubeRows(["default"], tubeStats, Text).value == [TubeRow("default", tubeStats, Text).value];
  }

  /** The four left-hand panels of the sample are all built. */
  lemma SampleLeftPanels()
    ensures LivePanel(SAMPLE_STATS, Text).Ok? && LifetimePanel(SAMPLE_STATS, Text).Ok?
    ensures JobPanel(SAMPLE_STATS, Text).Ok? && InfoPanel(SAMPLE_STATS, Text).Ok?
  {
    LivePanelContents(SAMPLE_STATS, Text);
    LifetimePanelContents(SAMPLE_STATS, Text);
    JobPanelContents(SAMPLE_STATS, Text);
    InfoPanelContents(SAMPLE_STATS, Text);
  }
}
