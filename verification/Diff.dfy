/** The server's encoder objects: `Sent`, its `diff`, and the history encoder that
    shares the style table (client/server/src/wire.rs, client/server/src/session.rs). */
module Diff {
  import opened Wrappers
  import opened Styles
  import opened Frames

  /** The announcements still owed bring the client's map in line with the table. */
  ghost predicate Carried(base: map<nat, StyleKey>, t: Table) {
    !t.restarted ==> Mirrors(ApplyStyles(base, t.pending), t.ids)
  }

  lemma KeysSnoc(cells: seq<Cell>, palette: Palette, i: nat, before: seq<StyleKey>)
    requires i < |cells|
    ensures before + Keys(cells[..i + 1], palette)
         == before + Keys(cells[..i], palette) + [Resolve(cells[i].style, palette)]
  {
  }

  lemma InternStep(base: map<nat, StyleKey>, t: Table, key: StyleKey)
    requires InPass(t) && Carried(base, t)
    ensures Carried(base, Interned(t, key))
    ensures !Interned(t, key).restarted ==>
              && !t.restarted && Extends(t.ids, Interned(t, key).ids)
              && Names(Interned(t, key).ids, key, InternedId(t, key))
  {
    if !Interned(t, key).restarted {
      InternExtends(t, key);
      InternMirrors(base, t, key);
    }
  }

  lemma SpellsSnoc(line: seq<WireCell>, cells: seq<Cell>, i: nat, id: nat, palette: Palette,
                   ids: map<StyleKey, nat>, more: map<StyleKey, nat>)
    requires i < |cells| && Spells(line, cells[..i], palette, ids) && Extends(ids, more)
    requires Names(more, Resolve(cells[i].style, palette), id)
    ensures Spells(line + [WireCell(cells[i].text, cells[i].width, id)], cells[..i + 1], palette, more)
  {
    SpellsExtends(line, cells[..i], palette, ids, more);
    var longer := line + [WireCell(cells[i].text, cells[i].width, id)];
    forall j | 0 <= j < i + 1
      ensures Names(more, Resolve(cells[..i + 1][j].style, palette), longer[j].id)
    {
      if j < i {
        assert cells[..i][j] == cells[j];
      }
    }
  }

  method EncodeRow(cells: seq<Cell>, styles: StyleTable, palette: Palette,
                   ghost base: map<nat, StyleKey>, ghost start: Table, ghost before: seq<StyleKey>)
    returns (line: seq<WireCell>)
    requires InPass(start) && styles.Value() == InternAll(start, before)
    requires Carried(base, styles.Value())
    modifies styles
    ensures styles.Value() == InternAll(start, before + Keys(cells, palette))
    ensures Carried(base, styles.Value())
    ensures !styles.restarted ==>
              && !old(styles.restarted) && Extends(old(styles.ids), styles.ids)
              && Spells(line, cells, palette, styles.ids)
  {
    line := [];
    assert before + Keys(cells[..0], palette) == before;
    for i := 0 to |cells|
      invariant styles.Value() == InternAll(start, before + Keys(cells[..i], palette))
      invariant Carried(base, styles.Value())
      invariant !styles.restarted ==>
                  && !old(styles.restarted) && Extends(old(styles.ids), styles.ids)
                  && Spells(line, cells[..i], palette, styles.ids)
    {
      ghost var t := styles.Value();
      ghost var key := Resolve(cells[i].style, palette);
      PassKeepsNumbering(start, before + Keys(cells[..i], palette));
      InternStep(base, t, key);
      KeysSnoc(cells, palette, i, before);
      InternAllSnoc(start, before + Keys(cells[..i], palette), key);
      var id := styles.Intern(cells[i].style, palette);
      if !styles.restarted {
        SpellsSnoc(line, cells, i, id, palette, t.ids, styles.ids);
      }
      line := line + [WireCell(cells[i].text, cells[i].width, id)];
    }
    assert cells[..|cells|] == cells;
  }

  lemma SpelledRowsSet(lines: seq<seq<WireCell>>, rows: seq<seq<Cell>>, palette: Palette,
                       ids: map<StyleKey, nat>, more: map<StyleKey, nat>,
                       y: nat, line: seq<WireCell>, cells: seq<Cell>)
    requires SpelledRows(lines, rows, palette, ids) && Extends(ids, more) && y < |rows|
    requires Spells(line, cells, palette, more)
    ensures SpelledRows(SetLine(lines, y, line), rows[y := cells], palette, more)
  {
    forall z | 0 <= z < |rows| && z != y && rows[z] != []
      ensures Spells(lines[z], rows[z], palette, more)
    {
      SpellsExtends(lines[z], rows[z], palette, ids, more);
    }
  }

  lemma ApplyRowsSnoc(lines: seq<seq<WireCell>>, changed: seq<Row>, r: Row)
    ensures ApplyRows(lines, changed + [r]) == SetLine(ApplyRows(lines, changed), r.y, r.cells)
  {
    assert (changed + [r])[..|changed|] == changed;
  }

  lemma {:induction false} ApplyRowsGrows(lines: seq<seq<WireCell>>, changed: seq<Row>)
    ensures |ApplyRows(lines, changed)| >= |lines|
  {
    if changed == [] {
    } else {
      ApplyRowsGrows(lines, changed[..|changed| - 1]);
    }
  }

  lemma {:induction false} PassKeysRunOut(screen: Screen, palette: Palette, shown: seq<seq<Cell>>, y: nat, n: nat)
    requires y < n <= |shown| == |screen| && WellCut(screen) && screen[y].None?
    ensures PassKeys(screen, palette, shown, n) == PassKeys(screen, palette, shown, y)
  {
    if n > y + 1 {
      PassKeysRunOut(screen, palette, shown, y, n - 1);
    }
  }

  // ----- a diff as values

  /** A changed palette or geometry forces a new `ready`. */
  predicate Renewed(view: View, s: SentValue) {
    s.palette != Some(view.palette) || s.size != Some((view.cols, view.rows))
  }

  function StartTable(view: View, s: SentValue, t: Table): Table {
    if Renewed(view, s) then EMPTY_TABLE else t
  }

  function StartRows(view: View, s: SentValue): seq<seq<Cell>> {
    if Renewed(view, s) || |s.rows| != view.rows || |s.rows[0]| != view.cols then Blank(view.rows)
    else s.rows
  }

  lemma SpelledStylesInterned(line: seq<WireCell>, cells: seq<Cell>, palette: Palette, ids: map<StyleKey, nat>)
    requires Spells(line, cells, palette, ids)
    ensures Used(Keys(cells, palette)) <= ids.Keys
  {
    forall k | k in Keys(cells, palette) && k != DEFAULT_KEY ensures k in ids {
      var i :| 0 <= i < |cells| && Keys(cells, palette)[i] == k;
      assert Names(ids, Resolve(cells[i].style, palette), line[i].id);
    }
  }

  lemma UsedConcat(a: seq<StyleKey>, b: seq<StyleKey>)
    ensures Used(a + b) == Used(a) + Used(b)
  {
  }

  lemma {:induction false} ScreenCovered(screen: Screen, palette: Palette, shown: seq<seq<Cell>>,
                                         lines: seq<seq<WireCell>>, ids: map<StyleKey, nat>, n: nat)
    requires n <= |shown| == |screen| && WellCut(screen) && SpelledRows(lines, shown, palette, ids)
    ensures Used(PassKeys(screen, palette, Blank(|screen|), n))
         <= ids.Keys + Used(PassKeys(screen, palette, shown, n))
  {
    if n == 0 {
    } else {
      var y := n - 1;
      ScreenCovered(screen, palette, shown, lines, ids, y);
      if screen[y].Some? {
        var row := Keys(screen[y].value, palette);
        UsedConcat(PassKeys(screen, palette, Blank(|screen|), y), row);
        if Stale(screen, shown, y) {
          UsedConcat(PassKeys(screen, palette, shown, y), row);
        } else {
          SpelledStylesInterned(lines[y], shown[y], palette, ids);
        }
      }
    }
  }

  /** The styles the first pass of a `diff` encodes. */
  function FirstKeys(view: View, s: SentValue): seq<StyleKey> {
    PassKeys(ScreenOf(view), view.palette, StartRows(view, s), view.rows)
  }

  function AllKeys(view: View): seq<StyleKey> {
    ScreenKeys(ScreenOf(view), view.palette)
  }

  /** Whatever the screen shows is either remembered, hence interned, or encoded
      by the first pass. */
  lemma ScreenInFirstPass(c: Client, s: SentValue, t: Table, view: View)
    requires Agrees(c, s, t)
    ensures WellNumbered(StartTable(view, s, t).ids)
    ensures Used(AllKeys(view)) <= StartTable(view, s, t).ids.Keys + Used(FirstKeys(view, s))
  {
    if StartRows(view, s) == s.rows && !Renewed(view, s) {
      ScreenWellCut(view);
      ScreenCovered(ScreenOf(view), view.palette, s.rows, c.lines, t.ids, view.rows);
    } else {
      EmptyNumbered<StyleKey>();
      assert StartRows(view, s) == Blank(view.rows);
    }
  }

  /** One pass over the stale rows would not fit the table. */
  ghost predicate Overflows(view: View, rows: seq<seq<Cell>>, ids: map<StyleKey, nat>) {
    && |rows| == view.rows
    && |ids.Keys + Used(PassKeys(ScreenOf(view), view.palette, rows, view.rows))| > STYLE_CAP
  }

  /** The first pass fits the table, or the screen by itself does. */
  ghost predicate Ends(view: View, s: SentValue, t: Table) {
    Overflows(view, StartRows(view, s), StartTable(view, s, t).ids) ==> |Used(AllKeys(view))| <= STYLE_CAP
  }

  /** Whatever the client holds, some pass of `diff` comes through exactly when it `Ends`, and
      then one of the first two. */
  lemma DiffEnds(s: SentValue, t: Table, view: View, first: seq<StyleKey>, all: seq<StyleKey>, table: Table)
    requires WellNumbered(t.ids)
    requires first == FirstKeys(view, s) && all == AllKeys(view) && table == StartTable(view, s, t)
    ensures (exists n: nat :: !Pass(table, first, all, n).restarted) <==> Ends(view, s, t)
    ensures Ends(view, s, t) ==> !Pass(table, first, all, 0).restarted || !Pass(table, first, all, 1).restarted
  {
    EmptyNumbered<StyleKey>();
    ReencodeEndsIff(table, first, all);
  }

  /** In every state the client agrees with, `diff` comes back exactly when the
      screen holds at most 512 distinct non-default styles. */
  lemma DiffEndsIff(c: Client, s: SentValue, t: Table, view: View)
    requires Agrees(c, s, t)
    ensures Ends(view, s, t) <==> |Used(AllKeys(view))| <= 512
  {
    var first, all, table := FirstKeys(view, s), AllKeys(view), StartTable(view, s, t);
    ScreenInFirstPass(c, s, t, view);
    ReencodeEndsIffScreenFits(table, first, all);
    DiffEnds(s, t, view, first, all, table);
  }

  // ----- the encoder objects

  /** How a pass over the screen stands after `y` rows: every visited row is remembered, and
      unless the table restarted a client that was in touch spells out what is remembered. */
  ghost predicate PassStands(screen: Screen, palette: Palette, p: PassGhost, rows: seq<seq<Cell>>,
                             y: nat, lines: seq<seq<WireCell>>, t: Table) {
    && |rows| == |p.shown| == |screen|
    && (forall z: nat :: z < |screen| ==>
          rows[z] == if z < y && screen[z].Some? then screen[z].value else p.shown[z])
    && Carried(p.base, t)
    && (p.inTouch && !t.restarted ==> |lines| == |screen| && SpelledRows(lines, rows, palette, t.ids))
  }

  /** The table and the client's map are ready to encode, or done encoding. */
  ghost predicate Primed(view: View, rows: seq<seq<Cell>>, base: map<nat, StyleKey>, t: Table) {
    && WellNumbered(t.ids) && Mirrors(ApplyStyles(base, t.pending), t.ids)
    && |rows| == view.rows
  }

  /** So are the client's lines: they spell out what is remembered, once its map holds
      what is still to be announced. */
  ghost predicate Poised(view: View, rows: seq<seq<Cell>>, lines: seq<seq<WireCell>>,
                         base: map<nat, StyleKey>, t: Table) {
    && Primed(view, rows, base, t)
    && |lines| == view.rows && SpelledRows(lines, rows, view.palette, t.ids)
  }

  lemma FreshPassFits(view: View, lines: seq<seq<WireCell>>)
    ensures Primed(view, Blank(view.rows), map[], EMPTY_TABLE)
    ensures |lines| == view.rows ==> Poised(view, Blank(view.rows), lines, map[], EMPTY_TABLE)
    ensures Overflows(view, Blank(view.rows), map[]) <==> |Used(AllKeys(view))| > STYLE_CAP
  {
    EmptyNumbered<StyleKey>();
    var none: map<StyleKey, nat> := map[];
    assert none.Keys + Used(AllKeys(view)) == Used(AllKeys(view));
  }

  /** A row is sent only when the client does not already show it. */
  ghost predicate OnlyStale(changed: seq<Row>, screen: Screen, shown: seq<seq<Cell>>) {
    |shown| == |screen| && forall r :: r in changed ==> r.y < |screen| && Stale(screen, shown, r.y)
  }

  /** Some row of the first `n` has to be sent. */
  predicate AnyStale(screen: Screen, shown: seq<seq<Cell>>, n: nat)
    requires n <= |shown| == |screen|
  {
    exists y :: 0 <= y < n && Stale(screen, shown, y)
  }

  /** What a pass started from: the rows last shown, the client's lines and style map, whether
      they agreed, and the table. */
  datatype PassGhost = PassGhost(shown: seq<seq<Cell>>, lines: seq<seq<WireCell>>, inTouch: bool,
                                 base: map<nat, StyleKey>, start: Table)

  /** Everything known after `y` rows of a pass that has collected `changed`. */
  ghost predicate PassAt(screen: Screen, palette: Palette, p: PassGhost, rows: seq<seq<Cell>>, y: nat,
                         changed: seq<Row>, t: Table) {
    && y <= |screen|
    && PassStands(screen, palette, p, rows, y, ApplyRows(p.lines, changed), t)
    && t == InternAll(p.start, PassKeys(screen, palette, p.shown, y))
    && OnlyStale(changed, screen, p.shown) && (changed != [] <==> AnyStale(screen, p.shown, y))
  }

  /** Encoding one more stale row keeps the pass standing. */
  lemma PassEncodes(screen: Screen, palette: Palette, p: PassGhost, rows: seq<seq<Cell>>, y: nat,
                    lines: seq<seq<WireCell>>, t: Table, after: Table, line: seq<WireCell>)
    requires PassStands(screen, palette, p, rows, y, lines, t) && y < |screen| && screen[y].Some?
    requires Carried(p.base, after)
    requires !after.restarted ==>
               !t.restarted && Extends(t.ids, after.ids) && Spells(line, screen[y].value, palette, after.ids)
    ensures PassStands(screen, palette, p, rows[y := screen[y].value], y + 1, SetLine(lines, y, line), after)
  {
    if p.inTouch && !after.restarted {
      SpelledRowsSet(lines, rows, palette, t.ids, after.ids, y, line, screen[y].value);
    }
  }

  /** So does skipping a row the client already shows. */
  lemma PassSkips(screen: Screen, palette: Palette, p: PassGhost, rows: seq<seq<Cell>>, y: nat,
                  lines: seq<seq<WireCell>>, t: Table)
    requires PassStands(screen, palette, p, rows, y, lines, t) && y < |screen|
    requires screen[y].Some? ==> rows[y] == screen[y].value
    ensures PassStands(screen, palette, p, rows, y + 1, lines, t)
    ensures PassKeys(screen, palette, p.shown, y + 1) == PassKeys(screen, palette, p.shown, y)
    ensures AnyStale(screen, p.shown, y + 1) <==> AnyStale(screen, p.shown, y)
  {
  }

  /** Rows past the end of the cell vector are left alone. */
  lemma PassRunsOut(screen: Screen, palette: Palette, p: PassGhost, rows: seq<seq<Cell>>, y: nat,
                    lines: seq<seq<WireCell>>, t: Table)
    requires PassStands(screen, palette, p, rows, y, lines, t) && WellCut(screen)
    requires y <= |screen| && (y < |screen| ==> screen[y].None?)
    ensures PassStands(screen, palette, p, rows, |screen|, lines, t)
    ensures PassKeys(screen, palette, p.shown, |screen|) == PassKeys(screen, palette, p.shown, y)
    ensures AnyStale(screen, p.shown, |screen|) <==> AnyStale(screen, p.shown, y)
  {
    if y < |screen| {
      PassKeysRunOut(screen, palette, p.shown, y, |screen|);
    }
  }

  lemma RowsLength(screen: Screen, palette: Palette, p: PassGhost, rows: seq<seq<Cell>>, y: nat,
                   changed: seq<Row>, t: Table)
    requires PassAt(screen, palette, p, rows, y, changed, t)
    ensures |rows| == |p.shown| == |screen| && y <= |screen|
    ensures t == InternAll(p.start, PassKeys(screen, palette, p.shown, y)) && Carried(p.base, t)
  {
  }

  /** A row that was encoded: everything known after it. */
  lemma PassAtEncodes(screen: Screen, palette: Palette, p: PassGhost, rows: seq<seq<Cell>>, y: nat,
                      changed: seq<Row>, t: Table, after: Table, line: seq<WireCell>)
    requires PassAt(screen, palette, p, rows, y, changed, t) && y < |screen| && screen[y].Some?
    requires rows[y] != screen[y].value && Carried(p.base, after)
    requires after == InternAll(p.start, PassKeys(screen, palette, p.shown, y) + Keys(screen[y].value, palette))
    requires !after.restarted ==>
               !t.restarted && Extends(t.ids, after.ids) && Spells(line, screen[y].value, palette, after.ids)
    ensures PassAt(screen, palette, p, rows[y := screen[y].value], y + 1, changed + [Row(y, line)], after)
  {
    hide SpelledRows, Carried;
    PassEncodes(screen, palette, p, rows, y, ApplyRows(p.lines, changed), t, after, line);
    ApplyRowsSnoc(p.lines, changed, Row(y, line));
    assert Stale(screen, p.shown, y);
    hide PassStands;
  }

  /** A row that was skipped. */
  lemma PassAtSkips(screen: Screen, palette: Palette, p: PassGhost, rows: seq<seq<Cell>>, y: nat,
                    changed: seq<Row>, t: Table)
    requires PassAt(screen, palette, p, rows, y, changed, t) && y < |screen|
    requires screen[y].Some? && rows[y] == screen[y].value
    ensures PassAt(screen, palette, p, rows, y + 1, changed, t)
  {
    PassSkips(screen, palette, p, rows, y, ApplyRows(p.lines, changed), t);
    hide PassStands, AnyStale, PassKeys;
  }

  lemma {:induction false} NothingStaleNothingEncoded(screen: Screen, palette: Palette, shown: seq<seq<Cell>>, n: nat)
    requires n <= |shown| == |screen| && !AnyStale(screen, shown, n)
    ensures PassKeys(screen, palette, shown, n) == []
  {
    if n == 0 {
    } else {
      NothingStaleNothingEncoded(screen, palette, shown, n - 1);
    }
  }

  lemma CannotOverflow(ids: map<StyleKey, nat>)
    requires WellNumbered(ids)
    ensures |ids.Keys + Used([])| <= STYLE_CAP
  {
    assert ids.Keys + Used([]) == ids.Keys;
    assert |ids| == |ids.Keys|;
  }

  /** An overflow has something to send, whatever is remembered. */
  lemma OverflowSends(view: View, rows: seq<seq<Cell>>, base: map<nat, StyleKey>, t: Table)
    requires Primed(view, rows, base, t)
    ensures Overflows(view, rows, t.ids) ==>
              AnyStale(ScreenOf(view), rows, view.rows) && AnyStale(ScreenOf(view), Blank(view.rows), view.rows)
  {
    var screen, ids := ScreenOf(view), t.ids;
    if Overflows(view, rows, ids) {
      if !AnyStale(screen, rows, view.rows) {
        NothingStaleNothingEncoded(screen, view.palette, rows, view.rows);
        CannotOverflow(ids);
      }
      ScreenWellCut(view);
      var y :| 0 <= y < view.rows && Stale(screen, rows, y);
      assert Stale(screen, Blank(view.rows), y);
    }
  }

  predicate FrameDue(s: SentValue, view: View, changed: seq<Row>, total: nat, scrollback: nat) {
    || changed != [] || s.cursor != Some(view.cursor) || s.totals != Some((total, scrollback)) || s.number == 0
  }

  /** Something moved since the last frame, or there was none. */
  predicate FrameOwed(view: View, s: SentValue, total: nat, scrollback: nat) {
    || s.number == 0 || s.cursor != Some(view.cursor) || s.totals != Some((total, scrollback))
    || AnyStale(ScreenOf(view), StartRows(view, s), view.rows)
  }

  lemma SettledOwesNothing(view: View, s: SentValue, total: nat, scrollback: nat)
    requires Settled(s, view) && s.number > 0
    ensures FrameOwed(view, s, total, scrollback) <==> s.totals != Some((total, scrollback))
  {
    ScreenWellCut(view);
  }

  /** The client once everything a `diff` owes has arrived. */
  function Updated(c: Client, s: SentValue, view: View, pending: seq<WireStyle>, changed: seq<Row>,
                   total: nat, scrollback: nat): Client {
    var c := c.(styles := ApplyStyles(c.styles, pending), lines := ApplyRows(c.lines, changed), cursor := view.cursor);
    if FrameDue(s, view, changed, total, scrollback) then c.(total := total, scrollback := scrollback) else c
  }

  lemma UpdatedAgrees(c: Client, s: SentValue, view: View, t: Table, changed: seq<Row>, total: nat, scrollback: nat)
    requires Poised(view, s.rows, ApplyRows(c.lines, changed), c.styles, t)
    requires Remembers(s.rows, ScreenOf(view)) && Registers(c, s)
    requires s.size == Some((view.cols, view.rows)) && s.palette == Some(view.palette)
    requires s.modes == Some(view.modes)
    ensures Agrees(Updated(c, s, view, t.pending, changed, total, scrollback),
                   Closed(s, view, changed, total, scrollback), t.(pending := []))
    ensures Shows(Updated(c, s, view, t.pending, changed, total, scrollback), view)
  {
    AgreesShows(Updated(c, s, view, t.pending, changed, total, scrollback),
                Closed(s, view, changed, total, scrollback), t.(pending := []), view);
  }

  predicate HasReady(messages: seq<Message>) {
    exists m :: m in messages && m.Ready?
  }

  /** Every frame carries only stale rows and the current number. */
  ghost predicate FramesCarry(messages: seq<Message>, screen: Screen, shown: seq<seq<Cell>>, number: nat) {
    forall m :: m in messages && m.Frame? ==> OnlyStale(m.changed, screen, shown) && m.number == number
  }

  predicate HasFrame(messages: seq<Message>) {
    exists m :: m in messages && m.Frame?
  }

  /** Sending one more message, as the client and as `HasReady` / `HasFrame` see it. */
  lemma SendOne(client: Client, messages: seq<Message>, m: Message)
    ensures ApplyAll(client, messages + [m]) == Apply(ApplyAll(client, messages), m)
    ensures HasReady(messages + [m]) <==> HasReady(messages) || m.Ready?
    ensures HasFrame(messages + [m]) <==> HasFrame(messages) || m.Frame?
  {
    ApplyAllSnoc(client, messages, m);
    assert forall x :: x in messages + [m] <==> x in messages || x == m;
  }

  /** The last messages of a `diff`: styles before the frame that uses them. */
  function Tail(s: SentValue, view: View, pending: seq<WireStyle>, changed: seq<Row>,
                total: nat, scrollback: nat): seq<Message> {
    (if pending == [] then [] else [Announce(pending)])
    + if FrameDue(s, view, changed, total, scrollback)
      then [Frame(s.number + 1, view.cursor, changed, total, scrollback)] else []
  }

  /** What is remembered once they are sent. */
  function Closed(s: SentValue, view: View, changed: seq<Row>, total: nat, scrollback: nat): SentValue {
    s.(cursor := Some(view.cursor), totals := Some((total, scrollback)),
       number := s.number + if FrameDue(s, view, changed, total, scrollback) then 1 else 0)
  }

  lemma TailUpdates(client: Client, earlier: seq<Message>, s: SentValue, view: View, pending: seq<WireStyle>,
                    changed: seq<Row>, total: nat, scrollback: nat)
    requires Registered(ApplyAll(client, earlier), s)
    ensures ApplyAll(client, earlier + Tail(s, view, pending, changed, total, scrollback))
         == Updated(ApplyAll(client, earlier), s, view, pending, changed, total, scrollback)
  {
    var tail := Tail(s, view, pending, changed, total, scrollback);
    var mid := earlier;
    if pending != [] {
      ApplyAllSnoc(client, earlier, Announce(pending));
      mid := earlier + [Announce(pending)];
    }
    if FrameDue(s, view, changed, total, scrollback) {
      var frame := Frame(s.number + 1, view.cursor, changed, total, scrollback);
      ApplyAllSnoc(client, mid, frame);
      assert earlier + tail == mid + [frame];
    } else {
      assert earlier + tail == mid;
    }
  }

  lemma TailKinds(earlier: seq<Message>, s: SentValue, view: View, pending: seq<WireStyle>,
                  changed: seq<Row>, total: nat, scrollback: nat, screen: Screen, shown: seq<seq<Cell>>)
    requires !HasFrame(earlier)
    ensures var messages := earlier + Tail(s, view, pending, changed, total, scrollback);
            && HasReady(messages) == HasReady(earlier)
            && HasFrame(messages) == FrameDue(s, view, changed, total, scrollback)
            && (OnlyStale(changed, screen, shown) ==> FramesCarry(messages, screen, shown, s.number + 1))
  {
    var tail := Tail(s, view, pending, changed, total, scrollback);
    assert forall m :: m in earlier + tail <==> m in earlier || m in tail;
    if FrameDue(s, view, changed, total, scrollback) {
      assert Frame(s.number + 1, view.cursor, changed, total, scrollback) in tail;
    }
  }

  /** The tail takes a client that has everything else to one that shows the view. The
      client's row counts are then current exactly when they are in a frame, or already were. */
  lemma TailDelivers(client: Client, earlier: seq<Message>, s: SentValue, view: View, t: Table,
                     changed: seq<Row>, total: nat, scrollback: nat, shown: seq<seq<Cell>>)
    requires var before := ApplyAll(client, earlier);
             Primed(view, s.rows, before.styles, t) && Registered(before, s) && |before.lines| >= before.rows
    requires s.modes == Some(view.modes) && !HasFrame(earlier)
    ensures var messages := earlier + Tail(s, view, t.pending, changed, total, scrollback);
            var before, now := ApplyAll(client, earlier), ApplyAll(client, messages);
            && Follows(now, Closed(s, view, changed, total, scrollback), t.(pending := []))
            && ((now.total, now.scrollback) == (total, scrollback) <==>
                  HasFrame(messages) || (before.total, before.scrollback) == (total, scrollback))
            && HasReady(messages) == HasReady(earlier)
            && HasFrame(messages) == FrameDue(s, view, changed, total, scrollback)
            && (OnlyStale(changed, ScreenOf(view), shown) ==>
                  FramesCarry(messages, ScreenOf(view), shown, Closed(s, view, changed, total, scrollback).number))
            && now.lines == ApplyRows(before.lines, changed) && now.rows == before.rows
  {
    TailUpdates(client, earlier, s, view, t.pending, changed, total, scrollback);
    TailKinds(earlier, s, view, t.pending, changed, total, scrollback, ScreenOf(view), shown);
    ApplyRowsGrows(ApplyAll(client, earlier).lines, changed);
  }

  /** A client whose lines are poised as well ends up in agreement. */
  lemma TailAgrees(client: Client, earlier: seq<Message>, s: SentValue, view: View, t: Table,
                   changed: seq<Row>, total: nat, scrollback: nat)
    requires Poised(view, s.rows, ApplyRows(ApplyAll(client, earlier).lines, changed),
                    ApplyAll(client, earlier).styles, t)
    requires Remembers(s.rows, ScreenOf(view)) && Registers(ApplyAll(client, earlier), s)
    requires s.size == Some((view.cols, view.rows)) && s.palette == Some(view.palette) && s.modes == Some(view.modes)
    ensures var now := ApplyAll(client, earlier + Tail(s, view, t.pending, changed, total, scrollback));
            Agrees(now, Closed(s, view, changed, total, scrollback), t.(pending := [])) && Shows(now, view)
  {
    TailUpdates(client, earlier, s, view, t.pending, changed, total, scrollback);
    UpdatedAgrees(ApplyAll(client, earlier), s, view, t, changed, total, scrollback);
  }

  /** What one whole encode leaves behind. */
  ghost predicate Encoded(view: View, shown: seq<seq<Cell>>, rows: seq<seq<Cell>>, base: map<nat, StyleKey>,
                          lines: seq<seq<WireCell>>, inTouch: bool, changed: seq<Row>, t: Table) {
    && Remembers(rows, ScreenOf(view)) && Primed(view, rows, base, t)
    && (inTouch ==> Poised(view, rows, ApplyRows(lines, changed), base, t))
    && OnlyStale(changed, ScreenOf(view), shown)
    && (changed != [] <==> AnyStale(ScreenOf(view), shown, view.rows))
  }

  /** The client is in agreement, or gets a `ready` that brings it there, before the encode. */
  ghost predicate InTouch(view: View, s: SentValue, t: Table, client: Client) {
    if Renewed(view, s) then Tidy(client, view) else Agrees(client, s, t)
  }

  /** What `Prepare` leaves to encode. */
  ghost predicate Prepared(view: View, s: SentValue, t: Table, client: Client, messages: seq<Message>,
                           now: SentValue, table: Table) {
    var c := ApplyAll(client, messages);
    && now == s.(rows := StartRows(view, s), size := Some((view.cols, view.rows)), palette := Some(view.palette),
                 modes := Some(view.modes))
    && table == StartTable(view, s, t)
    && Follows(c, now, table) && Primed(view, now.rows, c.styles, table)
    && (InTouch(view, s, t, client) ==> Registers(c, now) && Poised(view, now.rows, c.lines, c.styles, table))
    && (HasReady(messages) <==> Renewed(view, s)) && !HasFrame(messages)
    && (c.total, c.scrollback) == (client.total, client.scrollback)
    && c.lines == (if Renewed(view, s) then Greeted(client, view).lines else client.lines)
    && (c.cols, c.rows) == if Renewed(view, s) then (view.cols, view.rows) else (client.cols, client.rows)
  }

  /** A new `ready` puts the client's lines in order: they fit its geometry, or it gets another. */
  predicate Tidy(c: Client, view: View) {
    |c.lines| == c.rows || c.cols != view.cols || c.rows != view.rows
  }

  /** The client once a `ready` for this view has arrived. */
  function Greeted(c: Client, view: View): Client {
    Apply(c, Ready(view.cols, view.rows, view.palette))
  }

  lemma GreetedAgrees(c: Client, s: SentValue, t: Table, view: View)
    requires Follows(c, s, t) && s.rows == [] && s.size == Some((view.cols, view.rows)) &&
              s.palette == Some(view.palette)
    ensures Follows(Greeted(c, view), s, EMPTY_TABLE)
    ensures Tidy(c, view) ==> Agrees(Greeted(c, view), s, EMPTY_TABLE)
    ensures Tidy(c, view) <==> |Greeted(c, view).lines| == view.rows
  {
    EmptyNumbered<StyleKey>();
  }

  lemma ModesKept(c: Client, s: SentValue, t: Table, modes: Modes)
    requires Follows(c, s, t)
    ensures Follows(c.(modes := modes), s.(modes := Some(modes)), t)
    ensures Agrees(c, s, t) ==> Agrees(c.(modes := modes), s.(modes := Some(modes)), t)
    ensures s.modes == Some(modes) ==> c.modes == modes
  {
  }

  lemma PreparedRows(c: Client, s: SentValue, t: Table, view: View, rows: seq<seq<Cell>>)
    requires Follows(c, s, t) && s.size == Some((view.cols, view.rows)) && s.palette == Some(view.palette)
    requires rows == if |s.rows| != view.rows || |s.rows[0]| != view.cols then Blank(view.rows) else s.rows
    ensures Follows(c, s.(rows := rows), t) && Primed(view, rows, c.styles, t)
    ensures Agrees(c, s, t) ==> Registers(c, s) && Poised(view, rows, c.lines, c.styles, t)
  {
  }

  /** A restart never follows a `ready` for the same view. */
  lemma RenewedFits(view: View, s: SentValue, t: Table)
    requires Ends(view, s, t) && Renewed(view, s)
    ensures !Overflows(view, StartRows(view, s), StartTable(view, s, t).ids)
  {
    FreshPassFits(view, []);
  }

  /** The client just before the last messages. */
  ghost predicate AwaitsTail(view: View, s: SentValue, t: Table, c: Client, changed: seq<Row>, inTouch: bool) {
    && Primed(view, s.rows, c.styles, t) && Registered(c, s) && |c.lines| >= c.rows
    && Remembers(s.rows, ScreenOf(view)) && s.modes == Some(view.modes)
    && s.size == Some((view.cols, view.rows)) && s.palette == Some(view.palette)
    && (inTouch ==> Registers(c, s) && Poised(view, s.rows, ApplyRows(c.lines, changed), c.styles, t))
  }

  /** The encode did not restart: the client is as it was prepared. */
  lemma PlainAwaits(view: View, s: SentValue, t: Table, client: Client, messages: seq<Message>,
                    prepared: SentValue, table: Table, now: SentValue, after: Table, changed: seq<Row>)
    requires Prepared(view, s, t, client, messages, prepared, table) && now == prepared.(rows := now.rows)
    requires var c := ApplyAll(client, messages);
             Encoded(view, prepared.rows, now.rows, c.styles, c.lines, InTouch(view, s, t, client), changed, after)
    ensures AwaitsTail(view, now, after, ApplyAll(client, messages), changed, InTouch(view, s, t, client))
  {
    hide Primed, Poised, InTouch;
  }

  /** It did: the client gets a `ready` first. */
  lemma ResetAwaits(view: View, s: SentValue, t: Table, client: Client, messages: seq<Message>,
                    prepared: SentValue, table: Table, now: SentValue, after: Table, changed: seq<Row>)
    requires Prepared(view, s, t, client, messages, prepared, table) && now == prepared.(rows := now.rows)
    requires !Renewed(view, s)
    requires var lines := Greeted(ApplyAll(client, messages), view).lines;
             Encoded(view, Blank(view.rows), now.rows, map[], lines, |lines| == view.rows, changed, after)
    ensures AwaitsTail(view, now, after, Greeted(ApplyAll(client, messages), view), changed, Tidy(client, view))
    ensures Tidy(client, view) <==> |Greeted(ApplyAll(client, messages), view).lines| == view.rows
  {
    hide Primed, Poised, InTouch;
  }

  lemma InTouchMeans(view: View, s: SentValue, t: Table, client: Client, ready: bool)
    requires ready <==> Renewed(view, s)
    ensures Agrees(client, s, t) || (ready && Tidy(client, view)) ==> InTouch(view, s, t, client)
    ensures ready && !Tidy(client, view) ==> |Greeted(client, view).lines| > view.rows || |client.lines| < client.rows
    ensures Agrees(client, s, t) ==> Tidy(client, view)
  {
  }

  /** Too many lines are never taken away again. */
  lemma Overlong(c: Client, changed: seq<Row>, view: View, now: Client)
    requires |c.lines| > view.rows && now.lines == ApplyRows(c.lines, changed)
    ensures !Shows(now, view)
  {
    ApplyRowsGrows(c.lines, changed);
  }

  /** What the messages before the tail have achieved. */
  ghost predicate Delivered(view: View, s: SentValue, t: Table, client: Client, messages: seq<Message>,
                            now: SentValue, after: Table, changed: seq<Row>) {
    var c := ApplyAll(client, messages);
    && AwaitsTail(view, now, after, c, changed, Agrees(client, s, t) || (HasReady(messages) && Tidy(client, view)))
    && (HasReady(messages) && !Tidy(client, view) ==> |c.lines| > view.rows)
    && !HasFrame(messages) && (c.total, c.scrollback) == (client.total, client.scrollback)
    && (!HasReady(messages) ==> OnlyStale(changed, ScreenOf(view), StartRows(view, s)))
  }

  lemma BeforeTail(view: View, s: SentValue, t: Table, client: Client, first: seq<Message>, messages: seq<Message>,
                   prepared: SentValue, table: Table, now: SentValue, after: Table, changed: seq<Row>, styleReset: bool)
    requires Ends(view, s, t) && Follows(client, s, t)
    requires Prepared(view, s, t, client, first, prepared, table) && now == prepared.(rows := now.rows)
    requires styleReset <==> Overflows(view, prepared.rows, table.ids)
    requires var c := ApplyAll(client, first);
             if styleReset
             then Encoded(view, Blank(view.rows), now.rows, map[], Greeted(c, view).lines,
                          |Greeted(c, view).lines| == view.rows, changed, after)
             else Encoded(view, prepared.rows, now.rows, c.styles, c.lines, InTouch(view, s, t, client), changed, after)
    requires messages == if styleReset && !HasReady(first)
                         then first + [Ready(view.cols, view.rows, view.palette)] else first
    ensures Delivered(view, s, t, client, messages, now, after, changed)
    ensures HasReady(messages) <==> Renewed(view, s) || styleReset
  {
    InTouchMeans(view, s, t, client, Renewed(view, s));
    if Renewed(view, s) {
      RenewedFits(view, s, t);
    }
    if styleReset {
      SendOne(client, first, Ready(view.cols, view.rows, view.palette));
      ResetAwaits(view, s, t, client, first, prepared, table, now, after, changed);
    } else {
      PlainAwaits(view, s, t, client, first, prepared, table, now, after, changed);
    }
    hide Primed, Poised, Overflows, Agrees, Encoded, Remembers;
  }

  lemma TailCloses(view: View, s: SentValue, t: Table, client: Client, messages: seq<Message>,
                   now: SentValue, after: Table, changed: seq<Row>, total: nat, scrollback: nat, shown: seq<seq<Cell>>)
    requires Delivered(view, s, t, client, messages, now, after, changed) && shown == StartRows(view, s)
    ensures var all := messages + Tail(now, view, after.pending, changed, total, scrollback);
            var c, closed := ApplyAll(client, all), Closed(now, view, changed, total, scrollback);
            && Settled(closed, view) && Follows(c, closed, after.(pending := []))
            && (Agrees(client, s, t) || (HasReady(all) && Tidy(client, view)) ==>
                  Agrees(c, closed, after.(pending := [])) && Shows(c, view))
            && (HasReady(all) && !Tidy(client, view) ==> !Shows(c, view))
            && (CountsAgree(c, closed) <==> HasFrame(all) || (client.total, client.scrollback) == (total, scrollback))
            && HasReady(all) == HasReady(messages)
            && HasFrame(all) == FrameDue(now, view, changed, total, scrollback)
            && (!HasReady(all) ==> FramesCarry(all, ScreenOf(view), shown, closed.number))
  {
    hide Primed, Poised, Agrees, Shows, Tidy, Remembers;
    var c := ApplyAll(client, messages);
    TailDelivers(client, messages, now, view, after, changed, total, scrollback, shown);
    if Agrees(client, s, t) || (HasReady(messages) && Tidy(client, view)) {
      TailAgrees(client, messages, now, view, after, changed, total, scrollback);
    }
    if HasReady(messages) && !Tidy(client, view) {
      var tail := Tail(now, view, after.pending, changed, total, scrollback);
      Overlong(c, changed, view, ApplyAll(client, messages + tail));
    }
  }

  lemma AttemptStarts(view: View, p: PassGhost, t: Table)
    requires p.start == Begun(t) && Primed(view, p.shown, p.base, t)
    requires p.inTouch ==> Poised(view, p.shown, p.lines, p.base, t)
    ensures InPass(p.start) && !p.start.restarted &&
              PassStands(ScreenOf(view), view.palette, p, p.shown, 0, p.lines, p.start)
  {
    hide SpelledRows;
  }

  /** The pass restarted the table exactly when it overflows; otherwise the encode is done. */
  lemma AttemptEnds(view: View, p: PassGhost, rows: seq<seq<Cell>>, changed: seq<Row>, t: Table)
    requires InPass(p.start) && !p.start.restarted
    requires PassAt(ScreenOf(view), view.palette, p, rows, |ScreenOf(view)|, changed, t)
    ensures t.restarted <==> Overflows(view, p.shown, p.start.ids)
    ensures !t.restarted ==> Encoded(view, p.shown, rows, p.base, p.lines, p.inTouch, changed, t)
  {
    hide SpelledRows;
    var keys := PassKeys(ScreenOf(view), view.palette, p.shown, view.rows);
    PassRestartsIff(p.start, keys);
    PassKeepsNumbering(p.start, keys);
    hide InternAll, PassKeys, AnyStale;
  }

  class Sent {
    var rows: seq<seq<Cell>>
    var size: Option<(nat, nat)>
    var palette: Option<Palette>
    var modes: Option<Modes>
    var cursor: Option<Cursor>
    var totals: Option<(nat, nat)>
    var number: nat

    ghost function Value(): SentValue
      reads this
    {
      SentValue(rows, size, palette, modes, cursor, totals, number)
    }

    constructor ()
      ensures Value() == SentValue([], None, None, None, None, None, 0)
    {
      rows, size, palette, modes, cursor, totals, number := [], None, None, None, None, None, 0;
    }

    /** Row `y` of a pass: encode it and remember it if it is stale. */
    method EncodeNext(screen: Screen, colors: Palette, styles: StyleTable, y: nat, changed: seq<Row>,
                      ghost p: PassGhost)
      returns (more: seq<Row>)
      requires PassAt(screen, colors, p, rows, y, changed, styles.Value())
      requires y < |screen| && screen[y].Some? && InPass(p.start)
      modifies this`rows, styles
      ensures PassAt(screen, colors, p, rows, y + 1, more, styles.Value())
    {
      RowsLength(screen, colors, p, rows, y, changed, styles.Value());
      hide PassAt, PassKeys, Spells;
      if rows[y] != screen[y].value {
        ghost var t := styles.Value();
        var line := EncodeRow(screen[y].value, styles, colors, p.base, p.start, PassKeys(screen, colors, p.shown, y));
        PassAtEncodes(screen, colors, p, rows, y, changed, t, styles.Value(), line);
        more := changed + [Row(y, line)];
        rows := rows[y := screen[y].value];
      } else {
        more := changed;
        PassAtSkips(screen, colors, p, rows, y, changed, styles.Value());
      }
    }

    /** One pass: encode every stale row and remember it. */
    method EncodePass(screen: Screen, colors: Palette, styles: StyleTable, ghost p: PassGhost)
      returns (changed: seq<Row>)
      requires WellCut(screen) && InPass(p.start) && p.start == styles.Value() && p.shown == rows
      requires PassStands(screen, colors, p, rows, 0, p.lines, p.start)
      modifies this`rows, styles
      ensures PassAt(screen, colors, p, rows, |screen|, changed, styles.Value())
    {
      changed := [];
      assert !AnyStale(screen, p.shown, 0);
      hide PassStands;
      var y := 0;
      while y < |screen| && screen[y].Some?
        invariant y <= |screen| && PassAt(screen, colors, p, rows, y, changed, styles.Value())
      {
        changed := EncodeNext(screen, colors, styles, y, changed, p);
        y := y + 1;
      }
      PassRunsOut(screen, colors, p, rows, y, ApplyRows(p.lines, changed), styles.Value());
    }

    /** Send `ready` when the palette or the geometry changed, and forget everything
        the client is about to forget. */
    method Greet(view: View, styles: StyleTable, ghost client: Client) returns (messages: seq<Message>)
      requires Follows(client, Value(), styles.Value())
      modifies this, styles
      ensures messages == if Renewed(view, old(Value())) then [Ready(view.cols, view.rows, view.palette)] else []
      ensures styles.Value() == StartTable(view, old(Value()), old(styles.Value()))
      ensures Value() == old(Value()).(size := Some((view.cols, view.rows)), palette := Some(view.palette),
                                       rows := if messages == [] then old(rows) else [])
      ensures Follows(ApplyAll(client, messages), Value(), styles.Value())
      ensures ApplyAll(client, messages) == if messages == [] then client else Greeted(client, view)
      ensures (if messages == [] then Agrees(client, old(Value()), old(styles.Value())) else Tidy(client, view)) ==>
                Agrees(ApplyAll(client, messages), Value(), styles.Value())
    {
      messages := [];
      var measured := Some((view.cols, view.rows));
      if palette != Some(view.palette) || size != measured {
        messages := messages + [Ready(view.cols, view.rows, view.palette)];
        assert ApplyAll(client, messages) == Apply(client, messages[0]);
        ghost var t := styles.Value();
        palette := Some(view.palette);
        size := measured;
        rows := [];
        styles.Clear();
        GreetedAgrees(client, Value(), t, view);
      }
    }

    /** One turn of the re-encode loop. */
    method Attempt(view: View, styles: StyleTable, ghost base: map<nat, StyleKey>, ghost lines: seq<seq<WireCell>>,
                   ghost inTouch: bool)
      returns (changed: seq<Row>, again: bool)
      requires Primed(view, rows, base, styles.Value()) && (inTouch ==> Poised(view, rows, lines, base, styles.Value()))
      modifies this`rows, styles
      ensures again <==> Overflows(view, old(rows), old(styles.ids))
      ensures !again ==> Encoded(view, old(rows), rows, base, lines, inTouch, changed, styles.Value())
    {
      hide Primed, Poised, PassStands, PassAt, Overflows, Encoded, InPass;
      var screen := ScreenOf(view);
      ScreenWellCut(view);
      ghost var p := PassGhost(rows, lines, inTouch, base, Begun(styles.Value()));
      AttemptStarts(view, p, styles.Value());
      styles.BeginEncode();
      changed := EncodePass(screen, view.palette, styles, p);
      AttemptEnds(view, p, rows, changed, styles.Value());
      again := styles.TakeRestarted();
    }

    /** Encode passes until one of them did not restart the table. A restart will bring the
        client a `ready`: `greeted` are the lines it has then, `lines` those it has now. */
    method Encode(view: View, styles: StyleTable, ghost held: map<nat, StyleKey>, ghost lines: seq<seq<WireCell>>,
                  ghost greeted: seq<seq<WireCell>>, ghost inTouch: bool)
      returns (changed: seq<Row>, styleReset: bool)
      requires Overflows(view, rows, styles.ids) ==> |Used(AllKeys(view))| <= STYLE_CAP
      requires Primed(view, rows, held, styles.Value()) && (inTouch ==> Poised(view, rows, lines, held, styles.Value()))
      modifies this`rows, styles
      ensures styleReset <==> Overflows(view, old(rows), old(styles.ids))
      ensures if styleReset
              then Encoded(view, Blank(view.rows), rows, map[], greeted, |greeted| == view.rows,
                           changed, styles.Value())
              else Encoded(view, old(rows), rows, held, lines, inTouch, changed, styles.Value())
      ensures changed != [] <==> AnyStale(ScreenOf(view), old(rows), view.rows)
    {
      hide Primed, Poised, Overflows, AnyStale;
      FreshPassFits(view, greeted);
      OverflowSends(view, rows, held, styles.Value());
      changed, styleReset := [], false;
      var again := true;
      while again
        invariant again ==> if styleReset then rows == Blank(view.rows) && styles.Value() == EMPTY_TABLE
                            else rows == old(rows) && styles.Value() == old(styles.Value())
        invariant !again ==>
                    if styleReset
                    then Encoded(view, Blank(view.rows), rows, map[], greeted, |greeted| == view.rows,
                                 changed, styles.Value())
                    else Encoded(view, old(rows), rows, held, lines, inTouch, changed, styles.Value())
        invariant styleReset ==> Overflows(view, old(rows), old(styles.ids))
        invariant !again && !styleReset ==> !Overflows(view, old(rows), old(styles.ids))
        decreases if !again then 0 else if styleReset then 1 else 2
      {
        if styleReset {
          changed, again := Attempt(view, styles, map[], greeted, |greeted| == view.rows);
        } else {
          changed, again := Attempt(view, styles, held, lines, inTouch);
        }
        if again {
          styleReset := true;
          styles.Clear();
          rows := Blank(view.rows);
        }
      }
    }

    /** `ready`, `modes` and the remembered rows: everything before the encode loop. */
    method Prepare(view: View, styles: StyleTable, ghost client: Client) returns (messages: seq<Message>)
      requires Follows(client, Value(), styles.Value())
      modifies this, styles
      ensures Prepared(view, old(Value()), old(styles.Value()), client, messages, Value(), styles.Value())
    {
      hide Follows, Agrees, Greeted, Tidy;
      messages := Greet(view, styles, client);
      ghost var s, t, c := Value(), styles.Value(), ApplyAll(client, messages);
      ghost var greeting := messages;
      if modes != Some(view.modes) {
        SendOne(client, messages, SetModes(view.modes));
        messages := messages + [SetModes(view.modes)];
        modes := Some(view.modes);
      }
      ModesKept(c, s, t, view.modes);
      if |rows| != view.rows || |rows[0]| != view.cols {
        rows := Blank(view.rows);
      }
      PreparedRows(ApplyAll(client, messages), s.(modes := Some(view.modes)), t, view, rows);
    }

    /** Announce the styles still owed and send the frame, if there is one to send. */
    method Finish(view: View, styles: StyleTable, changed: seq<Row>, total: nat, scrollback: nat)
      returns (messages: seq<Message>)
      modifies this`cursor, this`totals, this`number, styles
      ensures messages == Tail(old(Value()), view, old(styles.pending), changed, total, scrollback)
      ensures Value() == Closed(old(Value()), view, changed, total, scrollback)
      ensures styles.Value() == old(styles.Value()).(pending := [])
    {
      messages := [];
      var pending := styles.TakePending();
      if pending != [] {
        messages := messages + [Announce(pending)];
      }
      var cursorMoved := cursor != Some(view.cursor);
      cursor := Some(view.cursor);
      var totalsMoved := totals != Some((total, scrollback));
      totals := Some((total, scrollback));
      if changed != [] || cursorMoved || totalsMoved || number == 0 {
        number := number + 1;
        messages := messages + [Frame(number, view.cursor, changed, total, scrollback)];
      }
    }

    /** Messages that bring the client up to date. Whatever client agrees with what was sent
        before shows exactly this view afterwards; so does, after a `ready`, one that had
        fallen out of agreement, unless it holds lines beyond that very geometry. */
    method Diff(view: View, styles: StyleTable, total: nat, scrollback: nat, ghost client: Client)
      returns (messages: seq<Message>)
      requires Ends(view, Value(), styles.Value())
      requires Follows(client, Value(), styles.Value())
      modifies this, styles
      ensures Settled(Value(), view) && Follows(ApplyAll(client, messages), Value(), styles.Value())
      ensures Agrees(client, old(Value()), old(styles.Value())) || (HasReady(messages) && Tidy(client, view)) ==>
                Agrees(ApplyAll(client, messages), Value(), styles.Value()) && Shows(ApplyAll(client, messages), view)
      ensures HasReady(messages) && !Tidy(client, view) ==> !Shows(ApplyAll(client, messages), view)
      // The row counts are current exactly when a frame carries them or they already were.
      ensures totals == Some((total, scrollback))
      ensures CountsAgree(ApplyAll(client, messages), Value()) <==>
                HasFrame(messages) || (client.total, client.scrollback) == (total, scrollback)
      // A frame is sent exactly when something moved, and frames are numbered consecutively.
      ensures HasFrame(messages) <==> FrameOwed(view, old(Value()), total, scrollback)
      ensures number == old(number) + (if HasFrame(messages) then 1 else 0)
      // Without a `ready`, no row the client already shows is sent again.
      ensures !HasReady(messages) ==> FramesCarry(messages, ScreenOf(view), StartRows(view, old(Value())), number)
      // A `ready` is sent exactly for a new palette or geometry, or for a table that overflows.
      ensures HasReady(messages) <==>
                || Renewed(view, old(Value()))
                || Overflows(view, StartRows(view, old(Value())),
                             StartTable(view, old(Value()), old(styles.Value())).ids)
    {
      hide Follows, Agrees, Primed, Poised, Overflows, AnyStale, Tidy, Shows, Greeted, Encoded;
      ghost var s, t := Value(), styles.Value();
      messages := Prepare(view, styles, client);
      ghost var first, prepared, table, c := messages, Value(), styles.Value(), ApplyAll(client, messages);
      ghost var greeted, inTouch := Greeted(c, view).lines, InTouch(view, s, t, client);
      var changed, styleReset := Encode(view, styles, c.styles, c.lines, greeted, inTouch);
      if styleReset && !HasReady(messages) {
        var ready := Ready(view.cols, view.rows, view.palette);
        SendOne(client, messages, ready);
        messages := messages + [ready];
      }
      BeforeTail(view, s, t, client, first, messages, prepared, table, Value(), styles.Value(), changed, styleReset);
      TailCloses(view, s, t, client, messages, Value(), styles.Value(), changed, total, scrollback, StartRows(view, s));
      var rest := Finish(view, styles, changed, total, scrollback);
      messages := messages + rest;
    }
  }
}
