/** The projection-to-frame diff and the browser that applies its messages
    (client/server/src/wire.rs, client/web/terminal.js). */
module Frames {
  import opened Wrappers
  import opened Styles

  datatype Cell = Cell(text: string, width: nat, style: TerminalStyle)
  datatype WireCell = WireCell(text: string, width: nat, id: nat)
  datatype Row = Row(y: nat, cells: seq<WireCell>)
  datatype Cursor = Cursor(col: nat, row: nat, visible: bool)

  datatype MouseTracking = NoTracking | Press | PressRelease | ButtonMotion | AnyMotion
  datatype MouseEncoding = Legacy | Sgr
  datatype Modes = Modes(alternateScreen: bool, bracketedPaste: bool, applicationCursor: bool,
                         mouse: MouseTracking, encoding: MouseEncoding)

  datatype ViewData = ViewData(cols: nat, rows: nat, palette: Palette, modes: Modes,
                               cells: seq<Cell>, cursor: Cursor)

  /** A terminal is at least one cell in each direction; its cell vector may be short. */
  type View = v: ViewData | v.cols >= 1 && v.rows >= 1
    witness ViewData(1, 1, PaletteData(None, None, None, seq(256, _ => Rgb(0, 0, 0))),
                     Modes(false, false, false, NoTracking, Legacy), [], Cursor(0, 0, false))

  datatype HistoryPage = HistoryPage(start: nat, cols: nat, cells: seq<Cell>, total: nat, scrollback: nat)

  datatype Message =
    | Ready(cols: nat, rows: nat, palette: Palette)
    | Announce(styles: seq<WireStyle>)
    | SetModes(modes: Modes)
    | Frame(number: nat, cursor: Cursor, changed: seq<Row>, total: nat, scrollback: nat)
    | History(start: nat, retained: seq<Row>, total: nat, scrollback: nat)

  // ----- the browser

  datatype Client = Client(styles: map<nat, StyleKey>, palette: Option<Palette>,
                           cols: nat, rows: nat, lines: seq<seq<WireCell>>,
                           modes: Modes, cursor: Cursor, total: nat, scrollback: nat)

  /** Keep overlapping rows across a geometry change. */
  function AdaptLines(lines: seq<seq<WireCell>>, cols: nat, rows: nat): seq<seq<WireCell>> {
    seq(rows, y requires y >= 0 =>
      if y >= |lines| then []
      else if |lines[y]| > cols then lines[y][..cols]
      else lines[y])
  }

  /** Storing a line past the end fills the hole with blank ones. */
  function SetLine(lines: seq<seq<WireCell>>, y: nat, cells: seq<WireCell>): seq<seq<WireCell>> {
    if y < |lines| then lines[y := cells]
    else lines + seq(y - |lines|, _ => []) + [cells]
  }

  function ApplyRows(lines: seq<seq<WireCell>>, rows: seq<Row>): seq<seq<WireCell>> {
    if rows == [] then lines
    else
      var last := rows[|rows| - 1];
      SetLine(ApplyRows(lines, rows[..|rows| - 1]), last.y, last.cells)
  }

  function Apply(c: Client, m: Message): Client {
    match m
    case Ready(cols, rows, palette) =>
      var cleared := c.(styles := map[], palette := Some(palette));
      if c.cols == cols && c.rows == rows then cleared
      else cleared.(cols := cols, rows := rows, lines := AdaptLines(c.lines, cols, rows))
    case Announce(styles) => c.(styles := ApplyStyles(c.styles, styles))
    case SetModes(modes) => c.(modes := modes)
    case Frame(_, cursor, rows, total, scrollback) =>
      c.(cursor := cursor, total := total, scrollback := scrollback, lines := ApplyRows(c.lines, rows))
    case History(_, _, total, scrollback) => c.(total := total, scrollback := scrollback)
  }

  function ApplyAll(c: Client, messages: seq<Message>): Client {
    if messages == [] then c
    else Apply(ApplyAll(c, messages[..|messages| - 1]), messages[|messages| - 1])
  }

  lemma ApplyAllSnoc(c: Client, messages: seq<Message>, m: Message)
    ensures ApplyAll(c, messages + [m]) == Apply(ApplyAll(c, messages), m)
  {
    assert (messages + [m])[..|messages|] == messages;
  }

  // ----- what a view contains

  function RowAt(view: View, y: nat): Option<seq<Cell>> {
    var start := y * view.cols;
    if start + view.cols <= |view.cells| then Some(view.cells[start..start + view.cols]) else None
  }

  /** The view row by row; a row the cell vector does not reach is missing. */
  type Screen = seq<Option<seq<Cell>>>

  function ScreenOf(view: View): Screen {
    seq(view.rows, y requires y >= 0 => RowAt(view, y))
  }

  /** Once a row is missing, so is every later one; a present row is never empty. */
  ghost predicate WellCut(screen: Screen) {
    && (forall y, z :: 0 <= y <= z < |screen| && screen[y].None? ==> screen[z].None?)
    && (forall y :: 0 <= y < |screen| && screen[y].Some? ==> screen[y].value != [])
  }

  lemma LaterRowsStartLater(y: nat, z: nat, cols: nat)
    requires y <= z
    ensures y * cols <= z * cols
  {
  }

  lemma RowsRunOut(view: View, y: nat, z: nat)
    requires y <= z && RowAt(view, y).None?
    ensures RowAt(view, z).None?
  {
    LaterRowsStartLater(y, z, view.cols);
  }

  lemma ScreenWellCut(view: View)
    ensures WellCut(ScreenOf(view))
  {
    var screen := ScreenOf(view);
    forall y, z | 0 <= y <= z < |screen| && screen[y].None? ensures screen[z].None? {
      RowsRunOut(view, y, z);
    }
  }

  function Keys(cells: seq<Cell>, palette: Palette): seq<StyleKey> {
    seq(|cells|, i requires 0 <= i < |cells| => Resolve(cells[i].style, palette))
  }

  /** Row `y` of the screen is not what the client was last shown. */
  predicate Stale(screen: Screen, shown: seq<seq<Cell>>, y: nat)
    requires y < |shown| == |screen|
  {
    screen[y].Some? && screen[y].value != shown[y]
  }

  /** The styles one pass over the first `n` rows interns, in order. */
  function PassKeys(screen: Screen, palette: Palette, shown: seq<seq<Cell>>, n: nat): seq<StyleKey>
    requires n <= |shown| == |screen|
  {
    if n == 0 then []
    else
      var before := PassKeys(screen, palette, shown, n - 1);
      if Stale(screen, shown, n - 1) then before + Keys(screen[n - 1].value, palette) else before
  }

  function Blank(rows: nat): seq<seq<Cell>> {
    seq(rows, _ => [])
  }

  /** Every style on the screen. */
  function ScreenKeys(screen: Screen, palette: Palette): seq<StyleKey> {
    PassKeys(screen, palette, Blank(|screen|), |screen|)
  }

  // ----- agreement between what the server remembers and what the client holds

  /** The line spells these cells out, each style by its live identifier. */
  ghost predicate Spells(line: seq<WireCell>, cells: seq<Cell>, palette: Palette, ids: map<StyleKey, nat>) {
    && |line| == |cells|
    && forall i :: 0 <= i < |cells| ==>
         && line[i].text == cells[i].text
         && line[i].width == cells[i].width
         && Names(ids, Resolve(cells[i].style, palette), line[i].id)
  }

  /** The line is painted exactly as these cells look. */
  ghost predicate Paints(line: seq<WireCell>, styles: map<nat, StyleKey>, cells: seq<Cell>, palette: Palette) {
    && |line| == |cells|
    && forall i :: 0 <= i < |cells| ==>
         && line[i].text == cells[i].text
         && line[i].width == cells[i].width
         && Lookup(styles, line[i].id) == Resolve(cells[i].style, palette)
  }

  datatype SentValue = SentValue(
    rows: seq<seq<Cell>>, size: Option<(nat, nat)>, palette: Option<Palette>,
    modes: Option<Modes>, cursor: Option<Cursor>, totals: Option<(nat, nat)>, number: nat)

  /** Every remembered row is spelled out by the client's line. */
  ghost predicate SpelledRows(lines: seq<seq<WireCell>>, rows: seq<seq<Cell>>, palette: Palette,
                              ids: map<StyleKey, nat>) {
    && |rows| <= |lines|
    && forall y :: 0 <= y < |rows| && rows[y] != [] ==> Spells(lines[y], rows[y], palette, ids)
  }

  /** Modes and cursor, which nothing but a frame's own messages changes. */
  ghost predicate Registered(c: Client, s: SentValue) {
    && (s.modes.Some? ==> c.modes == s.modes.value)
    && (s.cursor.Some? ==> c.cursor == s.cursor.value)
  }

  ghost predicate Registers(c: Client, s: SentValue) {
    && (s.size.Some? ==> s.size.value == (c.cols, c.rows))
    && (s.palette.Some? ==> c.palette == s.palette)
    && Registered(c, s)
  }

  /** The row counts the client clamps its scrolling against are the ones last framed. */
  predicate CountsAgree(c: Client, s: SentValue) {
    s.totals == Some((c.total, c.scrollback))
  }

  /** The client holds exactly what `Sent` and the style table say it does. */
  ghost predicate Agrees(c: Client, s: SentValue, t: Table) {
    && WellNumbered(t.ids) && t.pending == [] && Mirrors(c.styles, t.ids)
    && |c.lines| == c.rows
    && Registers(c, s)
    && (s.rows != [] ==> s.palette.Some? && SpelledRows(c.lines, s.rows, s.palette.value, t.ids))
  }

  /** What holds of a client even after a history page took its rows out of agreement: its
      style map is the table's, and it has at least the lines it knows of. */
  ghost predicate Follows(c: Client, s: SentValue, t: Table) {
    && WellNumbered(t.ids) && t.pending == [] && Mirrors(c.styles, t.ids)
    && |c.lines| >= c.rows && Registered(c, s)
  }

  /** The client's screen is the view: geometry, modes, cursor, and cell by cell
      text, width and resolved style. */
  ghost predicate Shows(c: Client, view: View) {
    && c.cols == view.cols && c.rows == view.rows == |c.lines|
    && c.palette == Some(view.palette) && c.modes == view.modes && c.cursor == view.cursor
    && forall y: nat :: y < view.rows && RowAt(view, y).Some? ==>
         Paints(c.lines[y], c.styles, RowAt(view, y).value, view.palette)
  }

  /** A colour as painted: none for the default, the palette's entry for an index, itself otherwise. */
  predicate PaintedAs(painted: Option<Rgb>, color: TerminalColor, palette: Palette) {
    && (color.DefaultColor? ==> painted == None)
    && (color.Indexed? ==> painted == Some(palette.indexed[color.index]))
    && (color.Direct? ==> painted == Some(color.rgb))
  }

  /** What is painted has the style's own colours, flags and underline. */
  predicate LooksLike(painted: StyleKey, style: TerminalStyle, palette: Palette) {
    && PaintedAs(painted.fg, style.foreground, palette) && PaintedAs(painted.bg, style.background, palette)
    && painted.bold == style.bold && painted.italic == style.italic && painted.faint == style.faint
    && painted.inverse == style.inverse && painted.invisible == style.invisible
    && painted.strikethrough == style.strikethrough && painted.overline == style.overline
    && (style.underline.NoUnderline? ==> painted.underline == "")
    && (style.underline.Single? ==> painted.underline == "single")
    && (style.underline.Double? ==> painted.underline == "double")
    && (style.underline.Curly? ==> painted.underline == "curly")
    && (style.underline.Dotted? ==> painted.underline == "dotted")
    && (style.underline.Dashed? ==> painted.underline == "dashed")
  }

  /** A cell of the client is this cell of the view. */
  predicate DisplaysCell(painted: WireCell, styles: map<nat, StyleKey>, cell: Cell, palette: Palette) {
    && painted.text == cell.text && painted.width == cell.width
    && LooksLike(Lookup(styles, painted.id), cell.style, palette)
  }

  /** Every cell of the view's whole rows is on the client's screen, where it belongs. */
  ghost predicate Displays(c: Client, view: View) {
    && c.cols == view.cols && c.rows == view.rows == |c.lines|
    && c.palette == Some(view.palette) && c.modes == view.modes && c.cursor == view.cursor
    && forall y: nat, x: nat :: y < view.rows && x < view.cols ==> DisplaysAt(c, view, y, x)
  }

  /** The cell at row `y` and column `x`, if the view has that row. */
  predicate DisplaysAt(c: Client, view: View, y: nat, x: nat)
    requires y < |c.lines| && x < view.cols
  {
    y * view.cols + view.cols <= |view.cells| ==>
      x < |c.lines[y]| && DisplaysCell(c.lines[y][x], c.styles, view.cells[y * view.cols + x], view.palette)
  }

  lemma ResolvedLooks(style: TerminalStyle, palette: Palette)
    ensures LooksLike(Resolve(style, palette), style, palette)
  {
  }

  /** A client that shows the view displays it, cell by cell and colour by colour. */
  lemma ShowsDisplays(c: Client, view: View)
    requires Shows(c, view)
    ensures Displays(c, view)
  {
    hide DisplaysAt, Paints;
    forall y: nat, x: nat | y < view.rows && x < view.cols ensures DisplaysAt(c, view, y, x) {
      if RowAt(view, y).Some? {
        RowDisplays(c, view, y, x);
      } else {
        NoRow(c, view, y, x);
      }
    }
  }

  lemma RowDisplays(c: Client, view: View, y: nat, x: nat)
    requires y < |c.lines| && x < view.cols && RowAt(view, y).Some?
    requires Paints(c.lines[y], c.styles, RowAt(view, y).value, view.palette)
    ensures DisplaysAt(c, view, y, x)
  {
    hide LooksLike, Resolve;
    var row := RowAt(view, y).value;
    if y * view.cols + view.cols <= |view.cells| {
      assert row[x] == view.cells[y * view.cols + x];
      ResolvedLooks(row[x].style, view.palette);
    }
  }

  lemma NoRow(c: Client, view: View, y: nat, x: nat)
    requires y < |c.lines| && x < view.cols && RowAt(view, y).None?
    ensures DisplaysAt(c, view, y, x)
  {
  }

  ghost predicate Extends(before: map<StyleKey, nat>, after: map<StyleKey, nat>) {
    forall k :: k in before ==> k in after && after[k] == before[k]
  }

  lemma SpellsExtends(line: seq<WireCell>, cells: seq<Cell>, palette: Palette,
                      ids: map<StyleKey, nat>, more: map<StyleKey, nat>)
    requires Spells(line, cells, palette, ids) && Extends(ids, more)
    ensures Spells(line, cells, palette, more)
  {
    forall i | 0 <= i < |cells|
      ensures Names(more, Resolve(cells[i].style, palette), line[i].id)
    {
      assert Names(ids, Resolve(cells[i].style, palette), line[i].id);
    }
  }

  lemma SpellsPaints(line: seq<WireCell>, cells: seq<Cell>, palette: Palette,
                     ids: map<StyleKey, nat>, styles: map<nat, StyleKey>)
    requires Spells(line, cells, palette, ids) && WellNumbered(ids) && Mirrors(styles, ids)
    ensures Paints(line, styles, cells, palette)
  {
    forall i | 0 <= i < |cells|
      ensures Lookup(styles, line[i].id) == Resolve(cells[i].style, palette)
    {
      MirrorsLookup(styles, ids, Resolve(cells[i].style, palette), line[i].id);
    }
  }

  /** Every row of the screen has been remembered. */
  ghost predicate Remembers(rows: seq<seq<Cell>>, screen: Screen) {
    && |rows| == |screen|
    && forall y :: 0 <= y < |screen| && screen[y].Some? ==> rows[y] == screen[y].value
  }

  /** The view is what was last sent. */
  ghost predicate Settled(s: SentValue, view: View) {
    && s.size == Some((view.cols, view.rows)) && s.palette == Some(view.palette)
    && s.modes == Some(view.modes) && s.cursor == Some(view.cursor)
    && Remembers(s.rows, ScreenOf(view))
  }

  /** A client that agrees with what was sent shows the view that was last sent. */
  lemma AgreesShows(c: Client, s: SentValue, t: Table, view: View)
    requires Agrees(c, s, t) && Settled(s, view)
    ensures Shows(c, view)
  {
    forall y: nat | y < view.rows && RowAt(view, y).Some?
      ensures Paints(c.lines[y], c.styles, RowAt(view, y).value, view.palette)
    {
      assert ScreenOf(view)[y] == RowAt(view, y);
      SpellsPaints(c.lines[y], s.rows[y], view.palette, t.ids, c.styles);
    }
  }
}
