# beanstalkd dashboard: a Dafny model of its stats-to-panel transformation

The dashboard is a terminal view of a beanstalkd job-queue broker. It refreshes about once a second. Each refresh does the following:

1. It asks the broker for its global stats.
2. It builds four panels from that one reply:
   - current connection counts
   - lifetime command counters and totals
   - current job counts by state
   - daemon version, pid and uptime
3. It lists the tubes (queues) and asks for each tube's stats. That gives one table row per tube.
4. It places the five panels into a fixed two-region layout.

The only logic the program owns is this transformation. This project models it and proves what it produces:

- row counts and row order
- every label and colour tag
- the value in every cell
- what happens when a key is absent or a tube vanished
- the order of the layout's regions and their size hints

Modules:

- `Stats` (stats.dfy): stats replies as `map<string, V>`, and `Field`, one `(label, key)` pair of a builder's constant list. It also holds keyed lookup in order (`LookupAll`) and the exception it raises (`KeyError` of the first absent key; `NotFound` for a tube the broker no longer knows), with lemmas about looking keys up in two batches.
- `Render` (render.dfy): the rendering library's objects as plain data. A `Table` has a title, column headers, a header-line flag and rows. A `Panel` has a title and a body of tables and rules. A `Layout` region has a name, a panel, size hints and children. There is also `add_row`, `split_row` and `split_column` on a named child.
- `Panels` (panels.dfy): the builders `generate_live_panel`, `generate_cmd_table`, `generate_misc_table`, `generate_lifetime_panel`, `generate_job_panel` and `generate_beanstalkd_info`. Each has a specification function (`LivePanel`) and a method that fills the table row by row in a loop, as the program does (`AddRows`, called by `GenerateLivePanel`). A lemma spells out the result row by row, together with its failure condition (`LivePanelContents`).
- `Tubes` (tubes.dfy): `generate_tube_table`, with one stats request and one row per listed tube. A method with a loop is proved against the recursive specification `TubeRows`, and lemmas cover order, count, cells and failure.
- `Dashboard` (screen.dfy): `generate_screen`. It builds the panels in program order, then assembles the layout step by step. Lemmas give the outcome (success condition, and which exception ends a failed refresh) and the regions of the layout. A sample refresh taken from the broker's documented stat names is worked through concretely.

Stat values are a type parameter `V`. Python's `str()` is a parameter `str: V -> string`, so nothing depends on how a value prints. The broker's replies are inputs:

- the global stats map
- the list of tube names
- a map from each tube the broker still knows to its stats reply; a listed name without an entry is a stats request that fails

Differences between the design description and the code (the model follows the code):

- The design says a tube that vanishes between listing and fetching is skipped for that refresh. In the code nothing catches the failed stats request. The whole tube table fails, and so does the whole refresh (`Tubes.VanishedTubeFails`, `Tubes.TubePanelContents`).
- The design says a failed refresh keeps the previous frame on screen and the loop carries on. In the code the refresh loop has no error handling, so the exception ends the program. The loop itself is not modelled (see below). The model's part is that a failed refresh produces no layout at all (`Dashboard.ScreenOutcome`).

## Model

| member | source | states |
|---|---|---|
| `Stats.FirstMissing` | main.py:42-43 | the position found is that of a key absent from the reply with every earlier key present; there is none exactly when all keys are present |
| `Stats.LookupAll` | main.py:178 | the cell list is built exactly when every key is present; then it has one cell per key, the text of that key's value, in order; otherwise the error is the `KeyError` of the first absent key |
| `Stats.FirstMissingAt` | main.py:42-43 | the first absent key is unique: an absent key with all earlier keys present is the one the lookup stops at |
| `Stats.LookupAllValues` | main.py:178 | when every key is present the lookups give exactly the text of each value, in key order |
| `Stats.FirstKeyErrorConcat` | main.py:93-94 | looking up one key list and then another raises the same `KeyError` as looking up their concatenation in one pass |
| `Stats.HasAllConcat` | main.py:93-94 | two batches of lookups both succeed exactly when the concatenated batch does |
| `Panels.AddRows` | main.py:42-43 | the `for name, key in rows: table.add_row(name, str(stats[key]))` loop yields exactly the specified table: one row per pair, appended in order, or the `KeyError` of the first absent key with no table |
| `Panels.FilledRows` | main.py:42-43 | with every key present, filling appends exactly one `[label, str(value)]` row per pair, in order, after the rows already there |
| `Panels.GenerateLivePanel` | main.py:29-45 | the built panel (or the exception) is exactly `LivePanel` of the reply |
| `Panels.LivePanelContents` | main.py:34-45 | panel "Current stats" with exactly 5 rows in the order tubes, connections, producers, workers, waiting; row i is the label and `str(stats[key_i])`; built exactly when all five keys are present, otherwise the `KeyError` of the first absent one |
| `Panels.GenerateCmdTable` | main.py:48-71 | the built table (or the exception) is exactly `CmdTable` of the reply |
| `Panels.CmdTableContents` | main.py:59-71 | table titled "Command" with exactly 6 rows: put, reserve, delete, bury, release, kick; each the text of its counter; built exactly when all six keys are present, otherwise the `KeyError` of the first absent one |
| `Panels.GenerateMiscTable` | main.py:74-89 | the built table (or the exception) is exactly `MiscTable` of the reply |
| `Panels.MiscTableContents` | main.py:81-89 | table titled "Misc" with exactly 2 rows, total jobs then total connections; built exactly when both keys are present, otherwise the `KeyError` of the first absent one |
| `Panels.GenerateLifetimePanel` | main.py:92-100 | the built panel (or the exception) is exactly `LifetimePanel` of the reply |
| `Panels.LifetimePanelContents` | main.py:92-100 | panel "Lifetime counts" is the six-row command table, then a rule, then the two-row misc table, always in that order; built exactly when all eight keys are present; otherwise the `KeyError` of the first absent key in the order command keys, then total keys |
| `Panels.GenerateJobPanel` | main.py:103-120 | the built panel (or the exception) is exactly `JobPanel` of the reply |
| `Panels.JobPanelContents` | main.py:108-120 | panel "Current job counts" with exactly 5 rows labelled, whatever the counts, `[red]Urgent`, `[green]Ready`, `[yellow]Reserved`, `[magenta]Delayed`, `[blue]Buried`, each with the text of its count; built exactly when all five keys are present, otherwise the `KeyError` of the first absent one |
| `Panels.GenerateInfoPanel` | main.py:123-137 | the built panel (or the exception) is exactly `InfoPanel` of the reply |
| `Panels.InfoPanelContents` | main.py:128-137 | panel "beanstalkd info" with exactly 3 rows, version, pid, uptime; built exactly when all three keys are present, otherwise the `KeyError` of the first absent one |
| `Tubes.HasTubeKeysAll` | main.py:154-167 | a tube reply can fill a row exactly when it holds all twelve header keys |
| `Tubes.GenerateTubeTable` | main.py:140-180 | the loop that fetches each listed tube's stats and appends its row yields exactly `TubePanel` of the replies |
| `Tubes.TubeRowsPrefixError` | main.py:175-178 | once a tube fails, the table fails with that tube's exception; later tubes are not consulted and the failed tube is not skipped |
| `Tubes.TubeRowsOk` | main.py:175-178 | the rows are built exactly when every listed tube's row is; then there is one row per listed name, in listing order, with no sorting, and row i is the row of tube i |
| `Tubes.TubeRowsFirstError` | main.py:175-178 | a failed table carries the exception of the first listed tube whose row fails; every earlier tube's row was built |
| `Tubes.TubeRowContents` | main.py:154-178 | a tube's row has 12 cells in header order, and the first is the text of the fetched reply's own "name" stat; a tube the broker no longer knows gives `NotFound`; a reply lacking a header key gives the `KeyError` of the first absent one |
| `Tubes.TubePanelContents` | main.py:152-180 | panel "Tube info" with the 12 headers in fixed order; no tubes give no rows under those headers; otherwise one row per listed tube in listing order, each the 12 cells of its reply; built exactly when every listed tube is known and complete; otherwise the exception of the first tube that is not |
| `Tubes.VanishedTubeFails` | main.py:175-178 | with tubes a, b, c listed and b gone, the whole panel fails with `NotFound` for b; b is not skipped |
| `Dashboard.GenerateScreen` | main.py:183-205 | building the panels in program order and then splitting a fresh layout by rows and the "overall-stats" child by columns yields exactly `Screen` of the replies |
| `Dashboard.FilledOutcome` | main.py:42-43 | a key/value builder succeeds exactly when its keys are present, and otherwise raises the `KeyError` of its first absent key |
| `Dashboard.ScreenOutcome` | main.py:184-191 | a layout is produced exactly when the global reply holds every key of the four left-hand panels and the tube table is built; otherwise the refresh fails with the `KeyError` of the first absent global key in the builders' lookup order (live, command, misc, job, info), or failing that with the tube table's exception |
| `Dashboard.ScreenRegions` | main.py:193-203 | the root is split into a row of two regions: "overall-stats", then "tube-info" with ratio 2 holding the tube panel; "overall-stats" is split into a column holding, top to bottom, the job panel (minimum size 7), the live panel (minimum size 7), the lifetime panel (minimum size 12) and the info panel (fixed size 5) |
| `Dashboard.SampleTubePanel` | main.py:175-180 | with one listed tube "default" and a complete reply, the tube panel holds exactly one row, the twelve values of that reply in header order |
| `Dashboard.SampleLeftPanels` | main.py:184-189 | a reply holding every documented global stat builds all four left-hand panels |

## Left out

- Argument parsing and the module-level construction of the broker client and the console (main.py:19-26): process start-up.
- The `Live` context and the endless `while True` refresh loop with its one-second sleep (main.py:208-211): a timed, unbounded loop driving a terminal. It has no error handling of its own. The model stops at one refresh producing a layout or an exception.
- The broker protocol: the network and the real behaviour of the global stats, list-tubes and per-tube stats requests. Their replies are inputs. A failed per-tube request is a missing entry in the per-tube map. A connection failure of the global stats or list-tubes request is not modelled; it would end the refresh like any other exception.
- Python's `str()` formatting of stat values: the opaque parameter `str`.
- Rendering details that belong to the rendering library and are not decided by the program: box styles, column styles, title alignment and justification, the rule's style, and how the layout shares terminal space among its regions. The column headers "Key" and "Value" of the key/value tables are kept. The layout's size hints are kept as the numbers the program passes; hints it does not pass are absent rather than the library's defaults.
- `Render.Layout.DivideChildColumn` looks the named region up among the root's direct children only. The library also searches deeper, but that makes no difference for the one layout the program builds.
- Tables, panels and layouts are modelled as values. `add_row`, `split_row` and `split_column` reassign a local variable instead of updating a shared object. Aliasing between a layout and the region `layout["overall-stats"]` returns is therefore not modelled; the value the program ends up with is the same.
- Idempotence of a refresh on identical replies holds by construction, because every builder is a function of its inputs. It is not stated as a separate lemma.
- `Dashboard.SampleLeftPanels`: this and `Dashboard.SampleTubePanel` show the sample refresh's left-hand panels and its tube panel separately. There is no single lemma for the whole sample layout, because unfolding every builder on the literal sample replies at once is too costly for the verifier. `Dashboard.ScreenOutcome` joins the two halves.
