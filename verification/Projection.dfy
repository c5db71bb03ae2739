/** History pages share the style table with frames; a session interleaves both
    (client/server/src/wire.rs, client/server/src/session.rs). */
module Projection {
  import opened Wrappers
  import opened Styles
  import opened Frames
  import opened Diff

  /** Consecutive chunks of `cols` cells; the last one may be short. */
  function Chunks(cells: seq<Cell>, cols: nat): seq<seq<Cell>>
    requires cols > 0
    decreases |cells|
  {
    if cells == [] then []
    else if |cells| <= cols then [cells]
    else [cells[..cols]] + Chunks(cells[cols..], cols)
  }

  function PageRows(page: HistoryPage): seq<seq<Cell>> {
    if page.cols == 0 then [] else Chunks(page.cells, page.cols)
  }

  function PageKeys(page: HistoryPage, palette: Palette): seq<StyleKey> {
    if page.cols == 0 then [] else Keys(page.cells, palette)
  }

  /** Rows are numbered absolutely, saturating at the largest 16-bit number. */
  function RowNumber(page: HistoryPage, index: nat): nat {
    if page.start + index <= 65535 then page.start + index else 65535
  }

  ghost predicate SpellsPage(rows: seq<Row>, lines: seq<seq<Cell>>, page: HistoryPage, palette: Palette,
                             ids: map<StyleKey, nat>) {
    && |rows| == |lines|
    && forall i :: 0 <= i < |rows| ==> rows[i].y == RowNumber(page, i) && Spells(rows[i].cells, lines[i], palette, ids)
  }

  lemma SpellsPageSnoc(rows: seq<Row>, lines: seq<seq<Cell>>, page: HistoryPage, palette: Palette,
                       ids: map<StyleKey, nat>, more: map<StyleKey, nat>, row: Row, line: seq<Cell>)
    requires SpellsPage(rows, lines, page, palette, ids) && Extends(ids, more)
    requires row.y == RowNumber(page, |rows|) && Spells(row.cells, line, palette, more)
    ensures SpellsPage(rows + [row], lines + [line], page, palette, more)
  {
    forall i | 0 <= i < |rows| ensures Spells(rows[i].cells, lines[i], palette, more) {
      SpellsExtends(rows[i].cells, lines[i], palette, ids, more);
    }
  }

  lemma KeysConcat(a: seq<Cell>, b: seq<Cell>, palette: Palette)
    ensures Keys(a, palette) + Keys(b, palette) == Keys(a + b, palette)
  {
  }

  /** How one pass over a page stands: `lines` are encoded, `rest` is still to come. */
  ghost predicate PageStands(page: HistoryPage, palette: Palette, seen: seq<Cell>, lines: seq<seq<Cell>>,
                             rest: seq<Cell>, rows: seq<Row>, base: map<nat, StyleKey>, start: Table, t: Table) {
    && page.cols > 0 && seen + rest == page.cells && lines + Chunks(rest, page.cols) == PageRows(page)
    && t == InternAll(start, Keys(seen, palette))
    && Carried(base, t) && |rows| == |lines|
    && (!t.restarted ==> !start.restarted && Extends(start.ids, t.ids) && SpellsPage(rows, lines, page, palette, t.ids))
  }

  lemma ChunksUnfold(rest: seq<Cell>, cols: nat, take: nat)
    requires cols > 0 && rest != [] && take == if |rest| <= cols then |rest| else cols
    ensures Chunks(rest, cols) == [rest[..take]] + Chunks(rest[take..], cols)
  {
    if |rest| <= cols {
      assert rest[..take] == rest && rest[take..] == [];
    }
  }

  lemma ChunkCut(cells: seq<Cell>, cols: nat, seen: seq<Cell>, lines: seq<seq<Cell>>, rest: seq<Cell>, take: nat)
    requires cols > 0 && rest != [] && take == if |rest| <= cols then |rest| else cols
    requires seen + rest == cells && lines + Chunks(rest, cols) == Chunks(cells, cols)
    ensures (seen + rest[..take]) + rest[take..] == cells
    ensures (lines + [rest[..take]]) + Chunks(rest[take..], cols) == Chunks(cells, cols)
  {
    ChunksUnfold(rest, cols, take);
    hide Chunks;
    Rejoin(seen, rest[..take], rest[take..], rest);
    Rejoin(lines, [rest[..take]], Chunks(rest[take..], cols), Chunks(rest, cols));
  }

  lemma Rejoin<T>(a: seq<T>, b: seq<T>, c: seq<T>, rest: seq<T>)
    requires b + c == rest
    ensures (a + b) + c == a + rest
  {
  }

  lemma PageAdvances(page: HistoryPage, palette: Palette, seen: seq<Cell>, lines: seq<seq<Cell>>, rest: seq<Cell>,
                     rows: seq<Row>, base: map<nat, StyleKey>, start: Table, t: Table,
                     take: nat, after: Table, line: seq<WireCell>)
    requires PageStands(page, palette, seen, lines, rest, rows, base, start, t) && rest != []
    requires take == if |rest| <= page.cols then |rest| else page.cols
    requires after == InternAll(start, Keys(seen, palette) + Keys(rest[..take], palette)) && Carried(base, after)
    requires !after.restarted ==> !t.restarted && Extends(t.ids, after.ids)
                                  && Spells(line, rest[..take], palette, after.ids)
    ensures PageStands(page, palette, seen + rest[..take], lines + [rest[..take]], rest[take..],
                       rows + [Row(RowNumber(page, |rows|), line)], base, start, after)
  {
    KeysConcat(seen, rest[..take], palette);
    ChunkCut(page.cells, page.cols, seen, lines, rest, take);
    if !after.restarted {
      SpellsPageSnoc(rows, lines, page, palette, t.ids, after.ids, Row(RowNumber(page, |rows|), line), rest[..take]);
    }
  }

  /** One pass over a history page. */
  method EncodePage(page: HistoryPage, styles: StyleTable, palette: Palette, ghost base: map<nat, StyleKey>)
    returns (rows: seq<Row>)
    requires page.cols > 0 && InPass(styles.Value()) && !styles.restarted && Carried(base, styles.Value())
    modifies styles
    ensures styles.Value() == InternAll(old(styles.Value()), PageKeys(page, palette))
    ensures Carried(base, styles.Value())
    ensures !styles.restarted ==> Extends(old(styles.ids), styles.ids)
                                  && SpellsPage(rows, PageRows(page), page, palette, styles.ids)
  {
    ghost var start, seen, lines := styles.Value(), [], [];
    rows := [];
    var rest := page.cells;
    assert Keys([], palette) == [];
    while rest != []
      invariant PageStands(page, palette, seen, lines, rest, rows, base, start, styles.Value())
      decreases |rest|
    {
      var take := if |rest| <= page.cols then |rest| else page.cols;
      ghost var t := styles.Value();
      var line := EncodeRow(rest[..take], styles, palette, base, start, Keys(seen, palette));
      PageAdvances(page, palette, seen, lines, rest, rows, base, start, t, take, styles.Value(), line);
      seen, lines := seen + rest[..take], lines + [rest[..take]];
      rows := rows + [Row(RowNumber(page, |rows|), line)];
      rest := rest[take..];
    }
    assert seen == page.cells;
    assert lines == PageRows(page);
  }

  /** The page was encoded without a restart. */
  ghost predicate PageDone(page: HistoryPage, palette: Palette, rows: seq<Row>, base: map<nat, StyleKey>,
                           start: Table, t: Table) {
    && WellNumbered(t.ids) && Mirrors(ApplyStyles(base, t.pending), t.ids)
    && t == InternAll(start, PageKeys(page, palette)) && Extends(start.ids, t.ids)
    && SpellsPage(rows, PageRows(page), page, palette, t.ids)
    && |start.ids.Keys + Used(PageKeys(page, palette))| <= STYLE_CAP
  }

  /** One turn of the re-encode loop for a page. */
  method AttemptPage(page: HistoryPage, styles: StyleTable, palette: Palette, ghost base: map<nat, StyleKey>)
    returns (rows: seq<Row>, again: bool)
    requires WellNumbered(styles.ids) && Mirrors(ApplyStyles(base, styles.pending), styles.ids)
    modifies styles
    ensures again <==> |old(styles.ids).Keys + Used(PageKeys(page, palette))| > STYLE_CAP
    ensures !again ==> PageDone(page, palette, rows, base, Begun(old(styles.Value())), styles.Value())
  {
    styles.BeginEncode();
    ghost var start, keys := styles.Value(), PageKeys(page, palette);
    PassRestartsIff(start, keys);
    PassKeepsNumbering(start, keys);
    rows := [];
    if page.cols > 0 {
      rows := EncodePage(page, styles, palette, base);
    }
    again := styles.TakeRestarted();
  }

  lemma BlankFits(keys: seq<StyleKey>)
    requires |Used(keys)| <= STYLE_CAP
    ensures WellNumbered(EMPTY_TABLE.ids) && |EMPTY_TABLE.ids.Keys + Used(keys)| <= STYLE_CAP
  {
    EmptyNumbered<StyleKey>();
    assert EMPTY_TABLE.ids.Keys + Used(keys) == Used(keys);
  }

  /** The page's own re-encode loop ends exactly when the page has at most 512 styles, whatever
      is interned already, and then within two passes. */
  lemma PageEndsIff(t: Table, page: HistoryPage, palette: Palette, keys: seq<StyleKey>)
    requires WellNumbered(t.ids) && keys == PageKeys(page, palette)
    ensures (exists n: nat :: !Pass(t, keys, keys, n).restarted) <==> |Used(keys)| <= 512
    ensures |Used(keys)| <= 512 ==> !Pass(t, keys, keys, 0).restarted || !Pass(t, keys, keys, 1).restarted
  {
    ReencodeEndsIffScreenFits(t, keys, keys);
    ReencodeEndsIff(t, keys, keys);
  }

  /** Encode a page, clearing the shared table and starting over when it overflows. */
  method EncodeHistory(page: HistoryPage, styles: StyleTable, palette: Palette, ghost base: map<nat, StyleKey>)
    returns (rows: seq<Row>, announced: seq<WireStyle>, reset: bool)
    requires |Used(PageKeys(page, palette))| <= STYLE_CAP
    requires WellNumbered(styles.ids) && styles.pending == [] && Mirrors(base, styles.ids)
    modifies styles
    ensures reset <==> |old(styles.ids).Keys + Used(PageKeys(page, palette))| > 512
    ensures WellNumbered(styles.ids) && styles.pending == []
    ensures Mirrors(ApplyStyles(if reset then map[] else base, announced), styles.ids)
    ensures SpellsPage(rows, PageRows(page), page, palette, styles.ids)
    ensures PageDisplays(rows, ApplyStyles(if reset then map[] else base, announced), page, palette)
    ensures if reset then styles.ids == InternAll(EMPTY_TABLE, PageKeys(page, palette)).ids
            else Extends(old(styles.ids), styles.ids)
  {
    ghost var keys, was := PageKeys(page, palette), base;
    ghost var start := Begun(styles.Value());
    BlankFits(keys);
    rows, reset := [], false;
    var again := true;
    while again
      invariant was == if reset then map[] else base
      invariant again ==> Begun(styles.Value()) == if reset then EMPTY_TABLE else start
      invariant reset ==> |start.ids.Keys + Used(keys)| > STYLE_CAP
      invariant !again ==> PageDone(page, palette, rows, was, if reset then EMPTY_TABLE else start, styles.Value())
      decreases if !again then 0 else if reset then 1 else 2
    {
      rows, again := AttemptPage(page, styles, palette, was);
      if again {
        reset, was := true, map[];
        styles.Clear();
      }
    }
    announced := styles.TakePending();
    PageLooks(rows, page, palette, styles.ids, ApplyStyles(was, announced));
  }

  // ----- what a page looks like

  lemma {:induction false} ChunksAt(cells: seq<Cell>, cols: nat, i: nat, x: nat)
    requires cols > 0 && x < cols && i * cols + x < |cells|
    ensures i < |Chunks(cells, cols)| && x < |Chunks(cells, cols)[i]|
    ensures Chunks(cells, cols)[i][x] == cells[i * cols + x]
    decreases i
  {
    if i == 0 {
      assert i * cols == 0;
    } else {
      RowBefore(i, cols);
      var at, rest := (i - 1) * cols, cells[cols..];
      ChunksAt(rest, cols, i - 1, x);
      assert rest[at + x] == cells[at + cols + x];
      assert Chunks(cells, cols)[i] == Chunks(rest, cols)[i - 1];
    }
  }

  lemma RowBefore(i: nat, cols: nat)
    requires i > 0
    ensures i * cols == (i - 1) * cols + cols && (i - 1) * cols >= 0
  {
  }

  lemma {:induction false} ChunksEnd(cells: seq<Cell>, cols: nat, i: nat)
    requires cols > 0 && i < |Chunks(cells, cols)|
    ensures i * cols < |cells| && |Chunks(cells, cols)[i]| <= cols
    decreases i
  {
    if i > 0 {
      ChunksEnd(cells[cols..], cols, i - 1);
      RowBefore(i, cols);
    }
  }

  /** Row `i` of a page is numbered from the page's start, as far as 16 bits reach. */
  predicate RowPlaced(rows: seq<Row>, page: HistoryPage, i: nat)
    requires i < |rows|
  {
    && rows[i].y == (if page.start + i <= 65535 then page.start + i else 65535)
    && i * page.cols < |page.cells| && |rows[i].cells| <= page.cols
  }

  /** Cell `x` of row `i` looks like the page's own. */
  predicate CellDisplays(rows: seq<Row>, styles: map<nat, StyleKey>, page: HistoryPage, palette: Palette,
                         i: nat, x: nat) {
    i * page.cols + x < |page.cells| ==>
      && i < |rows| && x < |rows[i].cells|
      && DisplaysCell(rows[i].cells[x], styles, page.cells[i * page.cols + x], palette)
  }

  /** The rows of a page: `cols` cells each, the last one maybe fewer, and all the page's cells. */
  ghost predicate PageDisplays(rows: seq<Row>, styles: map<nat, StyleKey>, page: HistoryPage, palette: Palette) {
    && (page.cols == 0 ==> rows == [])
    && (forall i: nat :: i < |rows| ==> RowPlaced(rows, page, i))
    && (forall i: nat, x: nat :: x < page.cols ==> CellDisplays(rows, styles, page, palette, i, x))
  }

  lemma PaintedDisplays(line: seq<WireCell>, styles: map<nat, StyleKey>, cells: seq<Cell>, palette: Palette, x: nat)
    requires Paints(line, styles, cells, palette) && x < |cells|
    ensures DisplaysCell(line[x], styles, cells[x], palette)
  {
    hide LooksLike, Resolve;
    ResolvedLooks(cells[x].style, palette);
  }

  lemma PageLooks(rows: seq<Row>, page: HistoryPage, palette: Palette, ids: map<StyleKey, nat>,
                  styles: map<nat, StyleKey>)
    requires SpellsPage(rows, PageRows(page), page, palette, ids) && WellNumbered(ids) && Mirrors(styles, ids)
    ensures PageDisplays(rows, styles, page, palette)
  {
    hide Spells, WellNumbered, Mirrors, DisplaysCell, Chunks, RowPlaced, CellDisplays;
    forall i: nat | i < |rows| ensures RowPlaced(rows, page, i) {
      RowLooks(rows, page, palette, ids, styles, i);
    }
    forall i: nat, x: nat | x < page.cols ensures CellDisplays(rows, styles, page, palette, i, x) {
      CellLooks(rows, page, palette, ids, styles, i, x);
    }
  }

  lemma RowLooks(rows: seq<Row>, page: HistoryPage, palette: Palette, ids: map<StyleKey, nat>,
                 styles: map<nat, StyleKey>, i: nat)
    requires SpellsPage(rows, PageRows(page), page, palette, ids) && WellNumbered(ids) && Mirrors(styles, ids)
    requires i < |rows|
    ensures RowPlaced(rows, page, i) && Paints(rows[i].cells, styles, PageRows(page)[i], palette)
  {
    hide Spells, WellNumbered, Mirrors, Chunks, Paints;
    ChunksEnd(page.cells, page.cols, i);
    SpellsPaints(rows[i].cells, PageRows(page)[i], palette, ids, styles);
    assert |rows[i].cells| == |PageRows(page)[i]| by {
      PaintedLength(rows[i].cells, styles, PageRows(page)[i], palette);
    }
  }

  lemma PaintedLength(line: seq<WireCell>, styles: map<nat, StyleKey>, cells: seq<Cell>, palette: Palette)
    requires Paints(line, styles, cells, palette)
    ensures |line| == |cells|
  {
  }

  lemma CellLooks(rows: seq<Row>, page: HistoryPage, palette: Palette, ids: map<StyleKey, nat>,
                  styles: map<nat, StyleKey>, i: nat, x: nat)
    requires SpellsPage(rows, PageRows(page), page, palette, ids) && WellNumbered(ids) && Mirrors(styles, ids)
    requires x < page.cols
    ensures CellDisplays(rows, styles, page, palette, i, x)
  {
    hide Spells, WellNumbered, Mirrors, DisplaysCell, Chunks, Paints, RowPlaced;
    if i * page.cols + x < |page.cells| {
      ChunksAt(page.cells, page.cols, i, x);
      RowLooks(rows, page, palette, ids, styles, i);
      PaintedLength(rows[i].cells, styles, PageRows(page)[i], palette);
      PaintedDisplays(rows[i].cells, styles, PageRows(page)[i], palette, x);
    }
  }

  // ----- what a page does to the agreement

  function PageMessages(page: HistoryPage, rows: seq<Row>, announced: seq<WireStyle>,
                        reset: bool, cols: nat, lines: nat, palette: Palette): seq<Message> {
    (if reset then [Ready(cols, lines, palette)] else [])
    + (if announced == [] then [] else [Announce(announced)])
    + [History(page.start, rows, page.total, page.scrollback)]
  }

  /** The client once the messages of a page have arrived. */
  function Paged(client: Client, page: HistoryPage, announced: seq<WireStyle>, reset: bool,
                 cols: nat, lines: nat, palette: Palette): Client {
    var c := if reset then Apply(client, Ready(cols, lines, palette)) else client;
    c.(styles := ApplyStyles(c.styles, announced), total := page.total, scrollback := page.scrollback)
  }

  lemma PageApplies(client: Client, page: HistoryPage, rows: seq<Row>, announced: seq<WireStyle>, reset: bool,
                    cols: nat, lines: nat, palette: Palette)
    ensures ApplyAll(client, PageMessages(page, rows, announced, reset, cols, lines, palette))
         == Paged(client, page, announced, reset, cols, lines, palette)
    ensures HasReady(PageMessages(page, rows, announced, reset, cols, lines, palette)) <==> reset
  {
    var last := History(page.start, rows, page.total, page.scrollback);
    var ready: seq<Message> := if reset then [Ready(cols, lines, palette)] else [];
    var front := ready + if announced == [] then [] else [Announce(announced)];
    assert PageMessages(page, rows, announced, reset, cols, lines, palette) == front + [last];
    SendOne(client, front, last);
    SendOne(client, ready, Announce(announced));
    SendOne(client, [], Ready(cols, lines, palette));
    assert [] + [Ready(cols, lines, palette)] == [Ready(cols, lines, palette)];
    assert ready + [] == ready;
  }

  /** A page that only extends the table leaves everything on the screen as it was. */
  lemma PageKeepsAgreement(c: Client, s: SentValue, t: Table, more: Table, announced: seq<WireStyle>, page: HistoryPage)
    requires Agrees(c, s, t) && Extends(t.ids, more.ids)
    requires WellNumbered(more.ids) && more.pending == [] && Mirrors(ApplyStyles(c.styles, announced), more.ids)
    ensures Agrees(c.(styles := ApplyStyles(c.styles, announced), total := page.total, scrollback := page.scrollback),
                   s, more)
  {
    if s.rows != [] {
      forall y | 0 <= y < |s.rows| && s.rows[y] != []
        ensures Spells(c.lines[y], s.rows[y], s.palette.value, more.ids)
      {
        SpellsExtends(c.lines[y], s.rows[y], s.palette.value, t.ids, more.ids);
      }
    }
  }

  /** A page that reset the table renumbers styles from 1 in order of first appearance,
      while rows already on the screen keep their old identifiers. Such a row is still
      painted right exactly when the page numbers each of its styles as it was before. */
  lemma ResetPaintsIff(line: seq<WireCell>, cells: seq<Cell>, palette: Palette,
                       before: map<StyleKey, nat>, keys: seq<StyleKey>, styles: map<nat, StyleKey>)
    requires WellNumbered(before) && Spells(line, cells, palette, before)
    requires |Used(keys)| <= STYLE_CAP && Mirrors(styles, InternAll(EMPTY_TABLE, keys).ids)
    ensures Paints(line, styles, cells, palette) <==>
            forall k :: k in Used(Keys(cells, palette)) ==>
              k in InternAll(EMPTY_TABLE, keys).ids && InternAll(EMPTY_TABLE, keys).ids[k] == before[k]
  {
    var ids := InternAll(EMPTY_TABLE, keys).ids;
    EmptyNumbered<StyleKey>();
    PassKeepsNumbering(EMPTY_TABLE, keys);
    SpelledStylesInterned(line, cells, palette, before);
    forall i | 0 <= i < |cells|
      ensures Lookup(styles, line[i].id) == Resolve(cells[i].style, palette) <==>
              Names(ids, Resolve(cells[i].style, palette), line[i].id)
    {
      LookupNames(styles, ids, before, Resolve(cells[i].style, palette), line[i].id);
    }
    KeptIffNamed(line, cells, palette, before, ids);
  }

  lemma LookupNames(styles: map<nat, StyleKey>, ids: map<StyleKey, nat>, before: map<StyleKey, nat>,
                    key: StyleKey, id: nat)
    requires WellNumbered(ids) && Mirrors(styles, ids) && WellNumbered(before) && Names(before, key, id)
    ensures Lookup(styles, id) == key <==> Names(ids, key, id)
  {
    if id in styles {
      assert id in ids.Values;
      var k :| k in ids && ids[k] == id;
    } else if key in ids {
      assert ids[key] in ids.Values;
    }
    if key in before {
      assert before[key] in before.Values;
    }
  }

  lemma KeptIffNamed(line: seq<WireCell>, cells: seq<Cell>, palette: Palette,
                     before: map<StyleKey, nat>, ids: map<StyleKey, nat>)
    requires Spells(line, cells, palette, before) && Used(Keys(cells, palette)) <= before.Keys
    ensures (forall k :: k in Used(Keys(cells, palette)) ==> k in ids && ids[k] == before[k])
       <==> (forall i :: 0 <= i < |cells| ==> Names(ids, Resolve(cells[i].style, palette), line[i].id))
  {
    var keys := Keys(cells, palette);
    if forall i :: 0 <= i < |cells| ==> Names(ids, Resolve(cells[i].style, palette), line[i].id) {
      forall k | k in Used(keys) ensures k in ids && ids[k] == before[k] {
        var i :| 0 <= i < |cells| && keys[i] == k;
        assert Names(before, Resolve(cells[i].style, palette), line[i].id);
        assert Names(ids, Resolve(cells[i].style, palette), line[i].id);
      }
    }
    if forall k :: k in Used(keys) ==> k in ids && ids[k] == before[k] {
      forall i | 0 <= i < |cells| ensures Names(ids, Resolve(cells[i].style, palette), line[i].id) {
        assert Names(before, Resolve(cells[i].style, palette), line[i].id);
        assert keys[i] in keys;
      }
    }
  }

  /** The page numbers every style of these cells as it was before. */
  ghost predicate SameNames(cells: seq<Cell>, palette: Palette, before: map<StyleKey, nat>, ids: map<StyleKey, nat>) {
    forall k :: k in Used(Keys(cells, palette)) ==> k in before && k in ids && ids[k] == before[k]
  }

  /** The reset's `ready` leaves the line as it is: the client has that geometry, or the
      line is within it. */
  predicate Uncut(c: Client, cols: nat, lines: nat, y: nat, width: nat) {
    (c.cols == cols && c.rows == lines) || (y < lines && width <= cols)
  }

  /** Line `y` of the client is there and looks like these cells. */
  ghost predicate ShowsRow(c: Client, y: nat, cells: seq<Cell>, palette: Palette) {
    y < |c.lines| && Paints(c.lines[y], c.styles, cells, palette)
  }

  /** What a page that reset the table leaves of the screen, row by row: a remembered row
      survives exactly when the `ready` does not cut it and its styles keep their numbers. */
  lemma ResetKeepsRowIff(c: Client, s: SentValue, t: Table, page: HistoryPage, announced: seq<WireStyle>,
                         cols: nat, lines: nat, palette: Palette, y: nat, now: Client, ids: map<StyleKey, nat>)
    requires Agrees(c, s, t) && y < |s.rows| && s.rows[y] != []
    requires now == Paged(c, page, announced, true, cols, lines, palette)
    requires |Used(PageKeys(page, palette))| <= STYLE_CAP && ids == InternAll(EMPTY_TABLE, PageKeys(page, palette)).ids
    requires Mirrors(ApplyStyles(map[], announced), ids)
    ensures ShowsRow(now, y, s.rows[y], s.palette.value) <==>
            Uncut(c, cols, lines, y, |s.rows[y]|) && SameNames(s.rows[y], s.palette.value, t.ids, ids)
  {
    hide WellNumbered, Mirrors;
    var cells, colors := s.rows[y], s.palette.value;
    assert Spells(c.lines[y], cells, colors, t.ids);
    SpelledStylesInterned(c.lines[y], cells, colors, t.ids);
    ResetPaintsIff(c.lines[y], cells, colors, t.ids, PageKeys(page, palette), now.styles);
    hide Paints, Keys, InternAll;
    PaintsWidth(c.lines[y], now.styles, cells, colors);
    if y < |now.lines| {
      PaintsWidth(now.lines[y], now.styles, cells, colors);
    }
  }

  lemma PaintsWidth(line: seq<WireCell>, styles: map<nat, StyleKey>, cells: seq<Cell>, palette: Palette)
    ensures Paints(line, styles, cells, palette) ==> |line| == |cells|
  {
  }

  /** And of the whole screen: it survives exactly when the client has the geometry the
      session was opened with, the palette is the same, and every row's styles keep their numbers. */
  lemma ResetShowsIff(c: Client, s: SentValue, t: Table, view: View, page: HistoryPage, announced: seq<WireStyle>,
                      cols: nat, lines: nat, palette: Palette, now: Client, ids: map<StyleKey, nat>)
    requires Agrees(c, s, t) && Settled(s, view) && now == Paged(c, page, announced, true, cols, lines, palette)
    requires |Used(PageKeys(page, palette))| <= STYLE_CAP && ids == InternAll(EMPTY_TABLE, PageKeys(page, palette)).ids
    requires Mirrors(ApplyStyles(map[], announced), ids)
    ensures Shows(now, view) <==>
            && c.cols == cols && c.rows == lines && palette == view.palette
            && forall y: nat :: y < view.rows && RowAt(view, y).Some? ==>
                 SameNames(RowAt(view, y).value, view.palette, t.ids, ids)
  {
    hide Paints, SameNames, Agrees, Mirrors, InternAll, RowAt, ShowsRow;
    ResetGeometry(c, s, t, view, page, announced, cols, lines, palette, now);
    ShowsByRows(now, view);
    hide Settled, Shows, Paged;
    forall y: nat | y < view.rows && RowAt(view, y).Some?
      ensures ShowsRow(now, y, RowAt(view, y).value, view.palette) <==>
              Uncut(c, cols, lines, y, view.cols) && SameNames(RowAt(view, y).value, view.palette, t.ids, ids)
    {
      SettledRow(s, view, y);
      ResetKeepsRowIff(c, s, t, page, announced, cols, lines, palette, y, now, ids);
    }
  }

  lemma SettledRow(s: SentValue, view: View, y: nat)
    requires Settled(s, view) && y < view.rows && RowAt(view, y).Some?
    ensures s.palette == Some(view.palette) && y < |s.rows| && s.rows[y] == RowAt(view, y).value
    ensures |s.rows[y]| == view.cols && s.rows[y] != []
  {
    assert ScreenOf(view)[y] == RowAt(view, y);
  }

  /** Everything of the screen but its rows survives exactly with geometry and palette. */
  lemma ResetGeometry(c: Client, s: SentValue, t: Table, view: View, page: HistoryPage, announced: seq<WireStyle>,
                      cols: nat, lines: nat, palette: Palette, now: Client)
    requires Agrees(c, s, t) && Settled(s, view) && now == Paged(c, page, announced, true, cols, lines, palette)
    ensures Framed(now, view) <==> c.cols == cols && c.rows == lines && palette == view.palette
  {
    hide SpelledRows, Mirrors, Remembers;
  }

  /** The client's screen is the view's, but for the rows. */
  ghost predicate Framed(c: Client, view: View) {
    && c.cols == view.cols && c.rows == view.rows == |c.lines|
    && c.palette == Some(view.palette) && c.modes == view.modes && c.cursor == view.cursor
  }

  lemma ShowsByRows(c: Client, view: View)
    ensures Shows(c, view) <==>
            Framed(c, view) && forall y: nat :: y < view.rows && RowAt(view, y).Some? ==>
                                ShowsRow(c, y, RowAt(view, y).value, view.palette)
  {
    hide Paints, RowAt;
    if Framed(c, view) {
      forall y: nat | y < view.rows && RowAt(view, y).Some?
        ensures ShowsRow(c, y, RowAt(view, y).value, view.palette) <==>
                Paints(c.lines[y], c.styles, RowAt(view, y).value, view.palette)
      {
      }
    }
  }

  // ----- a whole session

  datatype Event =
    | Project(view: View, total: nat, scrollback: nat)
    | Fetch(page: HistoryPage, palette: Palette)

  /** Every encode of the event comes back at all. */
  ghost predicate Encodable(e: Event) {
    match e
    case Project(view, _, _) => |Used(AllKeys(view))| <= STYLE_CAP
    case Fetch(page, palette) => |Used(PageKeys(page, palette))| <= STYLE_CAP
  }

  function LastView(events: seq<Event>): Option<View> {
    if events == [] then None
    else
      var e := events[|events| - 1];
      if e.Project? then Some(e.view) else LastView(events[..|events| - 1])
  }

  /** The page does not fit beside these identifiers. */
  ghost predicate Overfills(ids: map<StyleKey, nat>, page: HistoryPage, palette: Palette) {
    |ids.Keys + Used(PageKeys(page, palette))| > STYLE_CAP
  }

  /** The last message is the page, and the client paints it as it is. */
  ghost predicate BringsPage(messages: seq<Message>, client: Client, page: HistoryPage, palette: Palette) {
    && messages != []
    && var last := messages[|messages| - 1];
       && last.History? && last == History(page.start, last.retained, page.total, page.scrollback)
       && PageDisplays(last.retained, client.styles, page, palette)
  }

  lemma PageArrives(client: Client, page: HistoryPage, rows: seq<Row>, announced: seq<WireStyle>, reset: bool,
                    cols: nat, lines: nat, palette: Palette)
    requires PageDisplays(rows, ApplyStyles(if reset then map[] else client.styles, announced), page, palette)
    ensures var messages := PageMessages(page, rows, announced, reset, cols, lines, palette);
            BringsPage(messages, ApplyAll(client, messages), page, palette)
  {
    hide PageDisplays;
    PageApplies(client, page, rows, announced, reset, cols, lines, palette);
  }

  /** Answer one history request. `cols` and `lines` are the size the session was opened with.
      Without a reset the agreement stays; with one, each remembered row is still there and
      painted right exactly when the `ready` does not cut it and its styles keep their numbers. */
  method ServePage(page: HistoryPage, palette: Palette, cols: nat, lines: nat, styles: StyleTable,
                   ghost sent: SentValue, ghost client: Client)
    returns (messages: seq<Message>, reset: bool)
    requires |Used(PageKeys(page, palette))| <= STYLE_CAP
    requires Follows(client, sent, styles.Value())
    modifies styles
    ensures reset <==> Overfills(old(styles.ids), page, palette)
    ensures HasReady(messages) <==> reset
    ensures Follows(ApplyAll(client, messages), sent, styles.Value())
    ensures Agrees(client, sent, old(styles.Value())) && !reset ==>
              Agrees(ApplyAll(client, messages), sent, styles.Value())
    ensures Agrees(client, sent, old(styles.Value())) && reset ==>
              forall y: nat :: y < |sent.rows| && sent.rows[y] != [] ==>
                (ShowsRow(ApplyAll(client, messages), y, sent.rows[y], sent.palette.value) <==>
                 && Uncut(client, cols, lines, y, |sent.rows[y]|)
                 && SameNames(sent.rows[y], sent.palette.value, old(styles.ids), styles.ids))
    ensures reset ==> styles.ids == InternAll(EMPTY_TABLE, PageKeys(page, palette)).ids
    ensures exists announced ::
              && ApplyAll(client, messages) == Paged(client, page, announced, reset, cols, lines, palette)
              && Mirrors(ApplyStyles(if reset then map[] else client.styles, announced), styles.ids)
    // The page comes last, and the client has the styles to show it.
    ensures BringsPage(messages, ApplyAll(client, messages), page, palette)
  {
    hide BringsPage;
    hide ShowsRow, SameNames, Uncut, WellNumbered, Mirrors, InternAll, Agrees;
    ghost var t := styles.Value();
    var rows, announced;
    rows, announced, reset := EncodeHistory(page, styles, palette, client.styles);
    messages := PageMessages(page, rows, announced, reset, cols, lines, palette);
    PageApplies(client, page, rows, announced, reset, cols, lines, palette);
    PageFollows(client, sent, t, styles.Value(), page, announced, reset, cols, lines, palette);
    PageArrives(client, page, rows, announced, reset, cols, lines, palette);
    if Agrees(client, sent, t) {
      if reset {
        forall y: nat | y < |sent.rows| && sent.rows[y] != []
          ensures ShowsRow(ApplyAll(client, messages), y, sent.rows[y], sent.palette.value) <==>
                  Uncut(client, cols, lines, y, |sent.rows[y]|)
                  && SameNames(sent.rows[y], sent.palette.value, t.ids, styles.ids)
        {
          ResetKeepsRowIff(client, sent, t, page, announced, cols, lines, palette, y,
                           ApplyAll(client, messages), styles.ids);
        }
      } else {
        PageKeepsAgreement(client, sent, t, styles.Value(), announced, page);
      }
    }
  }

  lemma PageFollows(c: Client, s: SentValue, t: Table, after: Table, page: HistoryPage, announced: seq<WireStyle>,
                    reset: bool, cols: nat, lines: nat, palette: Palette)
    requires Follows(c, s, t) && WellNumbered(after.ids) && after.pending == []
    requires Mirrors(ApplyStyles(if reset then map[] else c.styles, announced), after.ids)
    ensures Follows(Paged(c, page, announced, reset, cols, lines, palette), s, after)
    ensures Agrees(c, s, t) ==> s.rows == [] || s.palette.Some?
  {
  }

  /** The page has too many styles to fit beside those the client knows, which are the table's. */
  ghost predicate Crowds(c: Client, page: HistoryPage, palette: Palette) {
    |c.styles.Values + Used(PageKeys(page, palette))| > STYLE_CAP
  }

  lemma FollowsCrowds(c: Client, s: SentValue, t: Table, page: HistoryPage, palette: Palette)
    requires Follows(c, s, t)
    ensures Crowds(c, page, palette) <==> Overfills(t.ids, page, palette)
  {
    assert c.styles.Values == t.ids.Keys by {
      forall k | k in c.styles.Values ensures k in t.ids {
        var id :| id in c.styles && c.styles[id] == k;
        assert id in t.ids.Values;
        var l :| l in t.ids && t.ids[l] == id;
      }
    }
  }

  ghost predicate Fresh(c: Client) {
    c.styles == map[] && c.cols == 0 && c.rows == 0 && c.lines == []
  }

  /** The client after so many answers. */
  function After(client: Client, batches: seq<seq<Message>>): Client {
    if batches == [] then client
    else ApplyAll(After(client, batches[..|batches| - 1]), batches[|batches| - 1])
  }

  /** Whether the messages keep the client in agreement: a page that brings a `ready` ends it,
      and a projection that brings one restores it, unless the client holds lines beyond the
      very geometry it announces. */
  predicate InAgreement(client: Client, events: seq<Event>, batches: seq<seq<Message>>)
    requires |events| == |batches|
  {
    if events == [] then true
    else
      var n := |events| - 1;
      var was, ready := InAgreement(client, events[..n], batches[..n]), HasReady(batches[n]);
      if events[n].Fetch? then was && !ready
      else was || (ready && Tidy(After(client, batches[..n]), events[n].view))
  }

  /** Where a session stands. */
  ghost predicate InStep(client: Client, batches: seq<seq<Message>>, s: SentValue, t: Table, events: seq<Event>) {
    && |events| == |batches|
    && Follows(After(client, batches), s, t)
    && (InAgreement(client, events, batches) ==> Agrees(After(client, batches), s, t))
    && (LastView(events).Some? ==> Settled(s, LastView(events).value))
  }

  lemma InStepNext(client: Client, batches: seq<seq<Message>>, events: seq<Event>, e: Event, batch: seq<Message>)
    requires |events| == |batches|
    ensures After(client, batches + [batch]) == ApplyAll(After(client, batches), batch)
    ensures LastView(events + [e]) == if e.Project? then Some(e.view) else LastView(events)
    ensures InAgreement(client, events + [e], batches + [batch]) <==>
            if e.Fetch? then InAgreement(client, events, batches) && !HasReady(batch)
            else InAgreement(client, events, batches) || (HasReady(batch) && Tidy(After(client, batches), e.view))
  {
    assert (batches + [batch])[..|batches|] == batches;
    assert (events + [e])[..|events|] == events;
  }

  method ServeOne(e: Event, cols: nat, lines: nat, sent: Sent, styles: StyleTable,
                  ghost client: Client, ghost batches: seq<seq<Message>>, ghost past: seq<Event>)
    returns (batch: seq<Message>)
    requires Encodable(e) && InStep(client, batches, sent.Value(), styles.Value(), past)
    modifies sent, styles
    ensures InStep(client, batches + [batch], sent.Value(), styles.Value(), past + [e])
    ensures e.Fetch? ==> (HasReady(batch) <==> Crowds(After(client, batches), e.page, e.palette))
                         && BringsPage(batch, ApplyAll(After(client, batches), batch), e.page, e.palette)
    ensures e.Project? ==>
              (HasReady(batch) <==>
               || Renewed(e.view, old(sent.Value()))
               || Overflows(e.view, StartRows(e.view, old(sent.Value())),
                            StartTable(e.view, old(sent.Value()), old(styles.Value())).ids))
  {
    hide Follows, Agrees, Shows, Settled, Tidy, InAgreement, After, LastView, Overflows, Overfills, Crowds, BringsPage;
    ghost var c, s, t := After(client, batches), sent.Value(), styles.Value();
    match e {
      case Project(view, total, scrollback) =>
        EncodableEnds(e, s, t);
        batch := sent.Diff(view, styles, total, scrollback, c);
      case Fetch(page, palette) =>
        FollowsCrowds(c, s, t, page, palette);
        var reset;
        batch, reset := ServePage(page, palette, cols, lines, styles, s, c);
    }
    InStepNext(client, batches, past, e, batch);
  }

  lemma EncodableEnds(e: Event, s: SentValue, t: Table)
    requires Encodable(e) && e.Project?
    ensures Ends(e.view, s, t)
  {
  }

  /** After the first `n` answers, if they kept or restored the agreement, the client shows the
      latest view. */
  ghost predicate ShownAfter(client: Client, events: seq<Event>, batches: seq<seq<Message>>, n: nat)
    requires n <= |events| && n <= |batches|
  {
    InAgreement(client, events[..n], batches[..n]) && LastView(events[..n]).Some? ==>
      && Shows(After(client, batches[..n]), LastView(events[..n]).value)
      && Displays(After(client, batches[..n]), LastView(events[..n]).value)
  }

  /** A page is answered with a `ready` exactly when it crowds the client's styles, and with the
      page, every cell of which the client then has the styles to paint. */
  ghost predicate ReadyFits(client: Client, events: seq<Event>, batches: seq<seq<Message>>, n: nat)
    requires n < |events| && n < |batches|
  {
    events[n].Fetch? ==>
      && (HasReady(batches[n]) <==> Crowds(After(client, batches[..n]), events[n].page, events[n].palette))
      && BringsPage(batches[n], ApplyAll(After(client, batches[..n]), batches[n]), events[n].page, events[n].palette)
  }

  /** Both, for everything answered so far. */
  ghost predicate Served(client: Client, events: seq<Event>, batches: seq<seq<Message>>) {
    && |batches| <= |events|
    && (forall n :: 0 <= n <= |batches| ==> ShownAfter(client, events, batches, n))
    && (forall n :: 0 <= n < |batches| ==> ReadyFits(client, events, batches, n))
  }

  /** Any mix of projections and history requests: at every moment at which the answers so far
      kept or restored the agreement, the client shows the latest view, cell by cell. */
  method Serve(events: seq<Event>, cols: nat, lines: nat, ghost client: Client) returns (batches: seq<seq<Message>>)
    requires Fresh(client) && forall i :: 0 <= i < |events| ==> Encodable(events[i])
    ensures |batches| == |events| && Served(client, events, batches)
  {
    hide InStep, Served, Encodable, Crowds, After, Overflows, Renewed, StartRows, StartTable, HasReady, BringsPage;
    var sent := new Sent();
    var styles := new StyleTable();
    batches := [];
    FreshAgrees(client, sent.Value(), styles.Value());
    NothingServed(client, events);
    for i := 0 to |events|
      invariant fresh(sent) && fresh(styles) && |batches| == i && Served(client, events, batches)
      invariant InStep(client, batches, sent.Value(), styles.Value(), events[..i])
    {
      var batch := ServeOne(events[i], cols, lines, sent, styles, client, batches, events[..i]);
      assert events[..i + 1] == events[..i] + [events[i]];
      ServedNext(client, events, batches, batch, sent.Value(), styles.Value());
      batches := batches + [batch];
    }
  }

  lemma NothingServed(client: Client, events: seq<Event>)
    ensures Served(client, events, [])
  {
    assert events[..0] == [];
  }

  lemma ServedNext(client: Client, events: seq<Event>, before: seq<seq<Message>>, batch: seq<Message>,
                   s: SentValue, t: Table)
    requires Served(client, events, before) && |before| < |events|
    requires InStep(client, before + [batch], s, t, events[..|before| + 1])
    requires var e := events[|before|];
             e.Fetch? ==> (HasReady(batch) <==> Crowds(After(client, before), e.page, e.palette))
                          && BringsPage(batch, ApplyAll(After(client, before), batch), e.page, e.palette)
    ensures Served(client, events, before + [batch])
  {
    hide ShownAfter, ReadyFits, InStep, Crowds, After, BringsPage;
    forall n | 0 <= n <= |before| ensures ShownAfter(client, events, before + [batch], n) {
      ShownStays(client, events, before, batch, n);
    }
    forall n | 0 <= n < |before| ensures ReadyFits(client, events, before + [batch], n) {
      FitsStays(client, events, before, batch, n);
    }
    NowShown(client, events, before + [batch], s, t, |before| + 1);
    NowFits(client, events, before, batch);
  }

  lemma ShownStays(client: Client, events: seq<Event>, batches: seq<seq<Message>>, batch: seq<Message>, n: nat)
    requires n <= |batches| && n <= |events| && ShownAfter(client, events, batches, n)
    ensures ShownAfter(client, events, batches + [batch], n)
  {
    hide Shows, Displays;
    assert (batches + [batch])[..n] == batches[..n];
  }

  lemma FitsStays(client: Client, events: seq<Event>, batches: seq<seq<Message>>, batch: seq<Message>, n: nat)
    requires n < |batches| && n < |events| && ReadyFits(client, events, batches, n)
    ensures ReadyFits(client, events, batches + [batch], n)
  {
    hide Crowds, BringsPage;
    assert (batches + [batch])[..n] == batches[..n];
  }

  lemma NowShown(client: Client, events: seq<Event>, batches: seq<seq<Message>>, s: SentValue, t: Table, n: nat)
    requires n <= |events| && |batches| == n && InStep(client, batches, s, t, events[..n])
    ensures ShownAfter(client, events, batches, n)
  {
    hide Agrees, Shows, Settled, Follows;
    assert batches[..n] == batches;
    if InAgreement(client, events[..n], batches[..n]) && LastView(events[..n]).Some? {
      AgreesShows(After(client, batches), s, t, LastView(events[..n]).value);
      hide Displays;
      ShowsDisplays(After(client, batches), LastView(events[..n]).value);
    }
  }

  lemma NowFits(client: Client, events: seq<Event>, before: seq<seq<Message>>, batch: seq<Message>)
    requires |before| < |events|
    requires var e := events[|before|];
             e.Fetch? ==> (HasReady(batch) <==> Crowds(After(client, before), e.page, e.palette))
                          && BringsPage(batch, ApplyAll(After(client, before), batch), e.page, e.palette)
    ensures ReadyFits(client, events, before + [batch], |before|)
  {
    hide Crowds, BringsPage;
    assert (before + [batch])[..|before|] == before;
  }

  lemma FreshAgrees(client: Client, s: SentValue, t: Table)
    requires Fresh(client) && s == SentValue([], None, None, None, None, None, 0) && t == EMPTY_TABLE
    ensures Agrees(client, s, t) && Follows(client, s, t) && InStep(client, [], s, t, [])
  {
    EmptyNumbered<StyleKey>();
  }

  // ----- a page that does break the agreement

  function Plain(color: TerminalColor): TerminalStyle {
    TerminalStyle(color, DefaultColor, false, false, false, false, false, false, false, NoUnderline)
  }

  function Green(i: nat): Cell
    requires i < STYLE_CAP
  {
    Cell("x", 1, Plain(Direct(Rgb(1, i / 256, i % 256))))
  }

  /** Distinct styles, none of them red. */
  function Greens(n: nat): seq<Cell>
    requires n <= STYLE_CAP
  {
    seq(n, i requires 0 <= i < n => Green(i))
  }

  const RED := Cell("x", 1, Plain(Direct(Rgb(255, 0, 0))))

  lemma GreensDiffer(i: nat, j: nat, palette: Palette)
    requires i < j < STYLE_CAP
    ensures Resolve(Green(i).style, palette) != Resolve(Green(j).style, palette)
  {
    if i / 256 == j / 256 {
      assert i % 256 != j % 256;
    }
  }

  lemma GreenIsNew(n: nat, palette: Palette)
    requires n < STYLE_CAP
    ensures Resolve(Green(n).style, palette) !in Keys(Greens(n), palette)
  {
    forall i | 0 <= i < n ensures Keys(Greens(n), palette)[i] != Resolve(Green(n).style, palette) {
      GreensDiffer(i, n, palette);
    }
  }

  lemma GreensSnoc(n: nat, palette: Palette)
    requires 0 < n <= STYLE_CAP
    ensures Keys(Greens(n), palette) == Keys(Greens(n - 1), palette) + [Resolve(Green(n - 1).style, palette)]
  {
  }

  lemma UsedGrows(rest: seq<StyleKey>, last: StyleKey)
    requires last !in rest && last != DEFAULT_KEY
    ensures |Used(rest + [last])| == |Used(rest)| + 1
  {
    UsedSnoc(rest, last);
    assert Used([last]) == {last};
  }

  lemma {:induction false} GreensCount(n: nat, palette: Palette)
    requires n <= STYLE_CAP
    ensures |Used(Keys(Greens(n), palette))| == n
  {
    if n == 0 {
      assert Keys(Greens(0), palette) == [];
    } else {
      GreensCount(n - 1, palette);
      GreenIsNew(n - 1, palette);
      GreensSnoc(n, palette);
      UsedGrows(Keys(Greens(n - 1), palette), Resolve(Green(n - 1).style, palette));
    }
  }

  lemma RedNotGreen(palette: Palette)
    ensures Resolve(RED.style, palette) !in Keys(Greens(STYLE_CAP), palette)
    ensures Used(Keys([RED], palette)) == {Resolve(RED.style, palette)}
  {
    var red, keys := Resolve(RED.style, palette), Keys(Greens(STYLE_CAP), palette);
    forall i | 0 <= i < STYLE_CAP ensures keys[i] != red {
      assert keys[i] == Resolve(Green(i).style, palette);
    }
    assert Keys([RED], palette) == [red];
  }

  const BLANK := Cell(" ", 1, Plain(DefaultColor))

  const QUIET := Modes(false, false, false, NoTracking, Legacy)

  /** A 64 by 24 screen, blank but for a red cell in the corner. */
  function RedCorner(palette: Palette): View {
    ViewData(64, 24, palette, QUIET, [RED] + seq(64 * 24 - 1, _ => BLANK), Cursor(0, 0, true))
  }

  /** Eight rows of scrollback above it, every cell in a style of its own. */
  function GreenPage(): HistoryPage {
    HistoryPage(0, 64, Greens(STYLE_CAP), 32, 8)
  }

  lemma RedCornerRow(palette: Palette)
    ensures var row := RowAt(RedCorner(palette), 0);
            && row.Some? && |row.value| == 64 && row.value[0] == RED
            && Resolve(RED.style, palette) in Used(Keys(row.value, palette))
  {
    var row := RowAt(RedCorner(palette), 0).value;
    assert Keys(row, palette)[0] == Resolve(RED.style, palette);
  }

  /** The corner's style is interned and no style of the page. */
  lemma GreenPageOverfills(palette: Palette, ids: map<StyleKey, nat>)
    requires Resolve(RED.style, palette) in ids
    ensures |Used(PageKeys(GreenPage(), palette))| <= STYLE_CAP && Overfills(ids, GreenPage(), palette)
    ensures Resolve(RED.style, palette) !in Used(PageKeys(GreenPage(), palette))
  {
    var red, used := Resolve(RED.style, palette), Used(PageKeys(GreenPage(), palette));
    GreensCount(STYLE_CAP, palette);
    RedNotGreen(palette);
    SubsetCardinality({red} + used, ids.Keys + used);
    assert |{red} + used| == 1 + |used|;
  }

  lemma InternedAreUsed(keys: seq<StyleKey>)
    requires |Used(keys)| <= STYLE_CAP
    ensures InternAll(EMPTY_TABLE, keys).ids.Keys == Used(keys)
  {
    BlankFits(keys);
    PassRestartsIff(EMPTY_TABLE, keys);
    assert EMPTY_TABLE.ids.Keys + Used(keys) == Used(keys);
  }

  /** Whatever the state of a session that shows the red corner, fetching the green page resets
      the style table and leaves the client showing something else, although the geometry and
      the palette are those the session was opened with. */
  lemma HistoryResetRecolours(c: Client, s: SentValue, t: Table, palette: Palette, rows: seq<Row>,
                              announced: seq<WireStyle>, ids: map<StyleKey, nat>)
    requires Agrees(c, s, t) && Settled(s, RedCorner(palette))
    requires ids == InternAll(EMPTY_TABLE, PageKeys(GreenPage(), palette)).ids
    requires Mirrors(ApplyStyles(map[], announced), ids)
    ensures Overfills(t.ids, GreenPage(), palette)
    ensures !Shows(ApplyAll(c, PageMessages(GreenPage(), rows, announced, true, 64, 24, palette)), RedCorner(palette))
  {
    hide Shows, Paints, Greens;
    var view, red := RedCorner(palette), Resolve(RED.style, palette);
    RedCornerRow(palette);
    RedInterned(c, s, t, palette);
    GreenPageOverfills(palette, t.ids);
    InternedAreUsed(PageKeys(GreenPage(), palette));
    PageApplies(c, GreenPage(), rows, announced, true, 64, 24, palette);
    hide Agrees, Settled, RowAt, RedCorner, GreenPage, InternAll, ApplyAll;
    ResetShowsIff(c, s, t, view, GreenPage(), announced, 64, 24, palette,
                  Paged(c, GreenPage(), announced, true, 64, 24, palette), ids);
    assert !SameNames(RowAt(view, 0).value, palette, t.ids, ids);
  }

  lemma RedInterned(c: Client, s: SentValue, t: Table, palette: Palette)
    requires Agrees(c, s, t) && Settled(s, RedCorner(palette))
    ensures Resolve(RED.style, palette) in t.ids
  {
    RedCornerRow(palette);
    assert ScreenOf(RedCorner(palette))[0] == RowAt(RedCorner(palette), 0);
    SpelledStylesInterned(c.lines[0], s.rows[0], palette, t.ids);
  }

  /** The same from the very start of a session: the first answer shows the screen, the
      second one breaks it. */
  method FetchAfterProject(palette: Palette, ghost client: Client) returns (first: seq<Message>, second: seq<Message>)
    requires Fresh(client)
    ensures Shows(ApplyAll(client, first), RedCorner(palette))
    ensures !Shows(ApplyAll(ApplyAll(client, first), second), RedCorner(palette))
  {
    hide Agrees, Follows, Shows, Greens, Settled, ShowsRow, SameNames;
    var sent := new Sent();
    var styles := new StyleTable();
    FreshAgrees(client, sent.Value(), styles.Value());
    RedCornerFits(palette);
    first := sent.Diff(RedCorner(palette), styles, 24, 0, client);
    ghost var c, t := ApplyAll(client, first), styles.Value();
    RedInterned(c, sent.Value(), t, palette);
    GreenPageOverfills(palette, t.ids);
    var reset;
    second, reset := ServePage(GreenPage(), palette, 64, 24, styles, sent.Value(), c);
    ghost var announced :|
      && ApplyAll(c, second) == Paged(c, GreenPage(), announced, reset, 64, 24, palette)
      && Mirrors(ApplyStyles(if reset then map[] else c.styles, announced), styles.ids);
    HistoryResetRecolours(c, sent.Value(), t, palette, [], announced, styles.ids);
    PageApplies(c, GreenPage(), [], announced, true, 64, 24, palette);
  }

  lemma RedCornerFits(palette: Palette)
    ensures |Used(AllKeys(RedCorner(palette)))| <= STYLE_CAP
  {
    var view, red := RedCorner(palette), Resolve(RED.style, palette);
    forall k | k in AllKeys(view) ensures k == red || k == DEFAULT_KEY {
      ScreenKeysFrom(view, view.rows, k);
      var i :| 0 <= i < |view.cells| && Resolve(view.cells[i].style, palette) == k;
    }
    SubsetCardinality(Used(AllKeys(view)), {red});
  }

  /** A style on the screen is some cell's. */
  lemma {:induction false} ScreenKeysFrom(view: View, n: nat, k: StyleKey)
    requires n <= view.rows && k in PassKeys(ScreenOf(view), view.palette, Blank(view.rows), n)
    ensures exists i :: 0 <= i < |view.cells| && Resolve(view.cells[i].style, view.palette) == k
  {
    var screen, y := ScreenOf(view), n - 1;
    if k in PassKeys(screen, view.palette, Blank(view.rows), y) {
      ScreenKeysFrom(view, y, k);
    } else {
      var row := RowAt(view, y).value;
      var j :| 0 <= j < |row| && Keys(row, view.palette)[j] == k;
      assert row[j] == view.cells[y * view.cols + j];
    }
  }

  // ----- a screen that is never encoded

  /** 513 styles on one line. */
  function Rainbow(palette: Palette): View {
    ViewData(513, 1, palette, QUIET, Greens(STYLE_CAP) + [RED], Cursor(0, 0, true))
  }

  /** Whatever the state of a session, every pass over this screen restarts: `diff` does not end. */
  lemma RainbowNeverEnds(c: Client, s: SentValue, t: Table, palette: Palette, n: nat)
    requires Agrees(c, s, t)
    ensures !Ends(Rainbow(palette), s, t)
    ensures var view := Rainbow(palette);
            Pass(StartTable(view, s, t), FirstKeys(view, s), AllKeys(view), n).restarted
  {
    RainbowStyles(palette);
    DiffEndsIff(c, s, t, Rainbow(palette));
    var view := Rainbow(palette);
    DiffEnds(s, t, view, FirstKeys(view, s), AllKeys(view), StartTable(view, s, t));
  }

  lemma RainbowStyles(palette: Palette)
    ensures |Used(AllKeys(Rainbow(palette)))| == STYLE_CAP + 1
  {
    var view, greens := Rainbow(palette), Keys(Greens(STYLE_CAP), palette);
    var red := Resolve(RED.style, palette);
    GreensCount(STYLE_CAP, palette);
    RedNotGreen(palette);
    UsedGrows(greens, red);
    assert view.cells[0..513] == view.cells;
    assert RowAt(view, 0) == Some(view.cells);
    assert PassKeys(ScreenOf(view), palette, Blank(1), 0) == [];
    assert AllKeys(view) == Keys(view.cells, palette);
    assert Keys(view.cells, palette) == greens + [red];
  }

  // ----- row counts that go stale

  /** In any session that framed the view with these counts, a page that reports other counts
      leaves the client with them, and projecting the same view and counts again owes no frame:
      by `Diff` the client's counts then stay wrong. */
  lemma CountsGoStale(c: Client, s: SentValue, t: Table, view: View, page: HistoryPage, announced: seq<WireStyle>,
                      cols: nat, lines: nat, palette: Palette, total: nat, scrollback: nat)
    requires Agrees(c, s, t) && Settled(s, view) && s.number > 0 && s.totals == Some((total, scrollback))
    requires (page.total, page.scrollback) != (total, scrollback)
    ensures !FrameOwed(view, s, total, scrollback)
    ensures var now := Paged(c, page, announced, false, cols, lines, palette);
            (now.total, now.scrollback) != (total, scrollback)
  {
    SettledOwesNothing(view, s, total, scrollback);
  }

  lemma EmptyPageFits(c: Client, s: SentValue, t: Table, page: HistoryPage, palette: Palette)
    requires Follows(c, s, t) && page.cells == []
    ensures |Used(PageKeys(page, palette))| <= STYLE_CAP && !Overfills(t.ids, page, palette)
  {
    assert PageKeys(page, palette) == [];
    CannotOverflow(t.ids);
  }

  lemma AfterThree(client: Client, a: seq<Message>, b: seq<Message>, c: seq<Message>)
    ensures After(client, [a, b, c]) == ApplyAll(ApplyAll(ApplyAll(client, a), b), c)
  {
    assert [a, b, c][..2] == [a, b] && [a, b][..1] == [a] && [a][..0] == [];
    assert After(client, []) == client;
    assert After(client, [a]) == ApplyAll(client, a);
    assert After(client, [a, b]) == ApplyAll(ApplyAll(client, a), b);
  }

  /** Such a session: 24 rows, then a page read while there were 32, then 24 again. */
  method CountsWentStale(palette: Palette, ghost client: Client) returns (batches: seq<seq<Message>>)
    requires Fresh(client)
    ensures |batches| == 3 && !HasFrame(batches[2])
    ensures Shows(After(client, batches), RedCorner(palette))
    ensures (After(client, batches).total, After(client, batches).scrollback) != (24, 0)
  {
    hide Agrees, Follows, Shows, Settled, RedCorner, ShowsRow, SameNames, Tidy;
    var sent := new Sent();
    var styles := new StyleTable();
    var page := HistoryPage(0, 64, [], 32, 8);
    FreshAgrees(client, sent.Value(), styles.Value());
    RedCornerFits(palette);
    var first := sent.Diff(RedCorner(palette), styles, 24, 0, client);
    ghost var c, t := ApplyAll(client, first), styles.Value();
    EmptyPageFits(c, sent.Value(), t, page, palette);
    var second, reset := ServePage(page, palette, 64, 24, styles, sent.Value(), c);
    ghost var announced :|
      && ApplyAll(c, second) == Paged(c, page, announced, reset, 64, 24, palette)
      && Mirrors(ApplyStyles(if reset then map[] else c.styles, announced), styles.ids);
    CountsGoStale(c, sent.Value(), t, RedCorner(palette), page, announced, 64, 24, palette, 24, 0);
    var third := sent.Diff(RedCorner(palette), styles, 24, 0, ApplyAll(c, second));
    batches := [first, second, third];
    AfterThree(client, first, second, third);
  }
}
