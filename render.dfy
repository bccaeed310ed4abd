/** The terminal-rendering objects the dashboard builds, kept as plain data.

    Only what the dashboard itself decides is recorded: titles, column headers,
    whether the header line is shown, the rows in order, the order of a panel's
    parts, and the names and size hints of layout regions. Box styles, column
    styles, title alignment and how space is shared out on the terminal belong to
    the rendering library and are not part of this model. */
module Render {
  import opened Stats

  /** A table: an optional title, the column headers, whether the header line is
      shown, and the rows added so far, each a list of cells. */
  datatype Table = Table(title: Option<string>, columns: seq<string>, showHeader: bool, rows: seq<seq<string>>) {
    /** `table.add_row(*cells)`: the row goes to the end. */
    function AddRow(cells: seq<string>): Table {
      this.(rows := rows + [cells])
    }
  }

  /** One part of a panel's body: a table, or a horizontal rule between tables. */
  datatype Item = TableItem(table: Table) | RuleItem

  /** A titled, bordered panel; its body is drawn top to bottom. */
  datatype Panel = Panel(title: string, body: seq<Item>)

  /** How a layout region divides itself among its children. */
  datatype Split = Unsplit | SplitRow | SplitColumn

  /** A layout region: an optional name, an optional panel to show, the size hints
      the program passed (absent ones are left to the library's defaults), and the
      children it was split into, in order. */
  datatype Layout = Layout(
    name: Option<string>,
    panel: Option<Panel>,
    size: Option<nat>,
    minimumSize: Option<nat>,
    ratio: Option<nat>,
    split: Split,
    children: seq<Layout>)
  {
    /** `layout.split_row(*children)`: the children sit side by side, left to right. */
    function DivideRow(cs: seq<Layout>): Layout {
      this.(split := SplitRow, children := cs)
    }

    /** `layout[childName].split_column(*cs)`: the child region called `childName`
        is divided into `cs`, stacked top to bottom. */
    function DivideChildColumn(childName: string, cs: seq<Layout>): Layout {
      this.(children := seq(|children|, i requires 0 <= i < |children| =>
        if children[i].name == Some(childName) then children[i].(split := SplitColumn, children := cs)
        else children[i]))
    }
  }

  /** `Layout(panel, name=…, size=…, minimum_size=…, ratio=…)`: a fresh region. */
  function NewLayout(panel: Option<Panel>, name: Option<string>, size: Option<nat>,
                     minimumSize: Option<nat>, ratio: Option<nat>): Layout
  {
    Layout(name, panel, size, minimumSize, ratio, Unsplit, [])
  }
}
