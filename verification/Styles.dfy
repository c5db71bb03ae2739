/** The finite style table that lets a frame carry small integers instead of
    repeating a full style on every cell (client/server/src/wire.rs). */
module Styles {
  import opened Wrappers

  type Byte = b: int | 0 <= b < 256
  datatype Rgb = Rgb(r: Byte, g: Byte, b: Byte)

  datatype TerminalColor = DefaultColor | Indexed(index: Byte) | Direct(rgb: Rgb)
  datatype Underline = NoUnderline | Single | Double | Curly | Dotted | Dashed
  datatype TerminalStyle = TerminalStyle(
    foreground: TerminalColor, background: TerminalColor,
    bold: bool, italic: bool, faint: bool, inverse: bool, invisible: bool,
    strikethrough: bool, overline: bool, underline: Underline)

  datatype PaletteData = PaletteData(
    foreground: Option<Rgb>, background: Option<Rgb>, cursor: Option<Rgb>, indexed: seq<Rgb>)

  /** A palette always carries its 256 indexed colours. */
  type Palette = p: PaletteData | |p.indexed| == 256
    witness PaletteData(None, None, None, seq(256, _ => Rgb(0, 0, 0)))

  /** A style with every palette entry resolved: what a cell looks like. */
  datatype StyleKey = StyleKey(
    fg: Option<Rgb>, bg: Option<Rgb>,
    bold: bool, italic: bool, faint: bool, inverse: bool, invisible: bool,
    strikethrough: bool, overline: bool, underline: string)

  datatype WireStyle = WireStyle(id: nat, key: StyleKey)

  const STYLE_CAP: nat := 512
  const DEFAULT_KEY := StyleKey(None, None, false, false, false, false, false, false, false, "")

  function Color(value: TerminalColor, palette: Palette): Option<Rgb> {
    match value
    case DefaultColor => None
    case Indexed(index) => Some(palette.indexed[index])
    case Direct(rgb) => Some(rgb)
  }

  function UnderlineName(value: Underline): string {
    match value
    case NoUnderline => ""
    case Single => "single"
    case Double => "double"
    case Curly => "curly"
    case Dotted => "dotted"
    case Dashed => "dashed"
  }

  function Resolve(style: TerminalStyle, palette: Palette): StyleKey {
    StyleKey(Color(style.foreground, palette), Color(style.background, palette),
             style.bold, style.italic, style.faint, style.inverse, style.invisible,
             style.strikethrough, style.overline, UnderlineName(style.underline))
  }

  /** The value of a `StyleTable`. */
  datatype Table = Table(ids: map<StyleKey, nat>, pending: seq<WireStyle>, restarted: bool, capped: bool)

  const EMPTY_TABLE := Table(map[], [], false, false)

  /** Identifiers are a bijection from the keys onto 1..n. */
  ghost predicate Numbered<K>(ids: map<K, nat>) {
    && (forall k, l :: k in ids && l in ids && ids[k] == ids[l] ==> k == l)
    && (forall i: nat :: i in ids.Values <==> 1 <= i <= |ids|)
  }

  /** Live identifiers: a bijection from the interned styles onto 1..n, n <= 512,
      with zero reserved for the default style. */
  ghost predicate WellNumbered(ids: map<StyleKey, nat>) {
    && |ids| <= STYLE_CAP
    && DEFAULT_KEY !in ids
    && Numbered(ids)
  }

  function Begun(t: Table): Table {
    t.(restarted := false, capped := false)
  }

  function Add(t: Table, key: StyleKey): Table {
    var id := |t.ids| + 1;
    t.(ids := t.ids[key := id], pending := t.pending + [WireStyle(id, key)])
  }

  /** The table after one `intern`. */
  function Interned(t: Table, key: StyleKey): Table {
    if key == DEFAULT_KEY || key in t.ids then t
    else if |t.ids| < STYLE_CAP then Add(t, key)
    else if t.capped then t
    else Add(Table(map[], [], true, true), key)
  }

  /** The identifier one `intern` answers with. */
  function InternedId(t: Table, key: StyleKey): nat {
    if key == DEFAULT_KEY then 0
    else if key in t.ids then t.ids[key]
    else if |t.ids| < STYLE_CAP then |t.ids| + 1
    else if t.capped then 0
    else 1
  }

  /** Interning a run of styles, left to right. */
  function InternAll(t: Table, keys: seq<StyleKey>): Table {
    if keys == [] then t
    else Interned(InternAll(t, keys[..|keys| - 1]), keys[|keys| - 1])
  }

  /** The distinct styles that need an identifier. */
  function Used(keys: seq<StyleKey>): set<StyleKey> {
    set k | k in keys && k != DEFAULT_KEY
  }

  /** `id` is the identifier that means `key` under this numbering. */
  predicate Names(ids: map<StyleKey, nat>, key: StyleKey, id: nat) {
    if key == DEFAULT_KEY then id == 0 else key in ids && ids[key] == id
  }

  // ----- the other end: the map a client keeps

  /** Storing each announced style under its identifier, in order. */
  function ApplyStyles(styles: map<nat, StyleKey>, announced: seq<WireStyle>): map<nat, StyleKey> {
    if announced == [] then styles
    else
      var last := announced[|announced| - 1];
      ApplyStyles(styles, announced[..|announced| - 1])[last.id := last.key]
  }

  /** What a client paints for an identifier; an unknown one paints as default. */
  function Lookup(styles: map<nat, StyleKey>, id: nat): StyleKey {
    if id in styles then styles[id] else DEFAULT_KEY
  }

  /** The client's map holds exactly the live identifiers, each with its style. */
  ghost predicate Mirrors<K>(styles: map<nat, K>, ids: map<K, nat>) {
    && styles.Keys == ids.Values
    && forall k :: k in ids ==> ids[k] in styles && styles[ids[k]] == k
  }

  lemma MirrorNext<K>(styles: map<nat, K>, ids: map<K, nat>, key: K)
    requires Numbered(ids) && key !in ids && Mirrors(styles, ids)
    ensures Mirrors(styles[|ids| + 1 := key], ids[key := |ids| + 1])
  {
    ValuesSnoc(ids, key, |ids| + 1);
    forall k | k in ids ensures ids[k] != |ids| + 1 {
      assert ids[k] in ids.Values;
    }
  }

  lemma MirrorsLookup(styles: map<nat, StyleKey>, ids: map<StyleKey, nat>, key: StyleKey, id: nat)
    requires WellNumbered(ids) && Mirrors(styles, ids) && Names(ids, key, id)
    ensures Lookup(styles, id) == key
  {
  }

  // ----- one intern

  lemma KeysSnocCount<K, V>(ids: map<K, V>, key: K, id: V)
    requires key !in ids
    ensures |ids[key := id]| == |ids| + 1
  {
    var grown := ids[key := id];
    assert grown.Keys == ids.Keys + {key};
    assert |grown| == |grown.Keys| && |ids| == |ids.Keys|;
  }

  lemma ValuesSnoc<K, V>(ids: map<K, V>, key: K, id: V)
    requires key !in ids
    ensures ids[key := id].Values == ids.Values + {id}
  {
    var grown := ids[key := id];
    assert grown[key] == id;
    forall i | i in ids.Values ensures i in grown.Values {
      var k :| k in ids && ids[k] == i;
      assert grown[k] == i;
    }
    forall i | i in grown.Values ensures i in ids.Values + {id} {
      var k :| k in grown && grown[k] == i;
      if k != key {
        assert ids[k] == i;
      }
    }
  }

  lemma NumberNext<K>(ids: map<K, nat>, key: K)
    requires Numbered(ids) && key !in ids
    ensures Numbered(ids[key := |ids| + 1]) && |ids[key := |ids| + 1]| == |ids| + 1
  {
    KeysSnocCount(ids, key, |ids| + 1);
    ValuesSnoc(ids, key, |ids| + 1);
    forall k | k in ids ensures ids[k] != |ids| + 1 {
      assert ids[k] in ids.Values;
    }
  }

  lemma EmptyNumbered<K>()
    ensures Numbered<K>(map[])
  {
    var ids: map<K, nat> := map[];
    assert ids.Values == {};
  }

  lemma AddNumbered(t: Table, key: StyleKey)
    requires WellNumbered(t.ids) && key !in t.ids && key != DEFAULT_KEY && |t.ids| < STYLE_CAP
    ensures WellNumbered(Add(t, key).ids)
  {
    NumberNext(t.ids, key);
  }

  lemma InternNumbered(t: Table, key: StyleKey)
    requires WellNumbered(t.ids)
    ensures WellNumbered(Interned(t, key).ids)
  {
    if key != DEFAULT_KEY && key !in t.ids {
      if |t.ids| < STYLE_CAP {
        AddNumbered(t, key);
      } else if !t.capped {
        EmptyNumbered<StyleKey>();
        AddNumbered(Table(map[], [], true, true), key);
      }
    }
  }

  /** While no restart has happened, an intern only extends the numbering. */
  lemma InternExtends(t: Table, key: StyleKey)
    requires WellNumbered(t.ids) && !Interned(t, key).restarted && (t.capped ==> t.restarted)
    ensures !t.restarted && !Interned(t, key).capped
    ensures forall k :: k in t.ids ==> k in Interned(t, key).ids && Interned(t, key).ids[k] == t.ids[k]
    ensures Interned(t, key).ids.Keys == t.ids.Keys + Used([key])
    ensures Names(Interned(t, key).ids, key, InternedId(t, key))
  {
    assert Used([key]) == if key == DEFAULT_KEY then {} else {key};
  }

  lemma InternMirrors(base: map<nat, StyleKey>, t: Table, key: StyleKey)
    requires WellNumbered(t.ids) && !Interned(t, key).restarted && (t.capped ==> t.restarted)
    requires Mirrors(ApplyStyles(base, t.pending), t.ids)
    ensures Mirrors(ApplyStyles(base, Interned(t, key).pending), Interned(t, key).ids)
  {
    var r := Interned(t, key);
    if r != t {
      assert r == Add(t, key);
      assert r.pending[..|r.pending| - 1] == t.pending;
      MirrorNext(ApplyStyles(base, t.pending), t.ids, key);
    }
  }

  // ----- a whole pass

  lemma UsedSnoc(keys: seq<StyleKey>, key: StyleKey)
    ensures Used(keys + [key]) == Used(keys) + Used([key])
  {
  }

  lemma InternAllSnoc(t: Table, keys: seq<StyleKey>, key: StyleKey)
    ensures InternAll(t, keys + [key]) == Interned(InternAll(t, keys), key)
  {
    assert (keys + [key])[..|keys|] == keys;
  }

  /** The flags an encode pass can be in: capped exactly when restarted. */
  ghost predicate InPass(t: Table) {
    WellNumbered(t.ids) && (t.capped <==> t.restarted)
  }

  lemma {:induction false} PassKeepsNumbering(t: Table, keys: seq<StyleKey>)
    requires InPass(t)
    ensures InPass(InternAll(t, keys))
    ensures t.restarted ==> InternAll(t, keys).restarted
  {
    if keys == [] {
    } else {
      PassKeepsNumbering(t, keys[..|keys| - 1]);
      InternNumbered(InternAll(t, keys[..|keys| - 1]), keys[|keys| - 1]);
    }
  }

  /** One more style: the counting step behind `PassRestartsIff`. */
  lemma InternRestartsIff(t: Table, key: StyleKey)
    requires !t.restarted && !t.capped && |t.ids| <= STYLE_CAP
    ensures Interned(t, key).restarted <==> |t.ids.Keys + Used([key])| > STYLE_CAP
    ensures !Interned(t, key).restarted ==> Interned(t, key).ids.Keys == t.ids.Keys + Used([key])
  {
    assert |t.ids| == |t.ids.Keys|;
    assert Used([key]) == if key == DEFAULT_KEY then {} else {key};
    if key == DEFAULT_KEY || key in t.ids {
      assert t.ids.Keys + Used([key]) == t.ids.Keys;
    } else {
      assert |t.ids.Keys + {key}| == |t.ids| + 1;
    }
  }

  /** `t` is where a pass over styles `seen` stands, given what was interned before it. */
  ghost predicate Fitted(t: Table, interned: set<StyleKey>, seen: set<StyleKey>) {
    && (t.restarted <==> |interned + seen| > STYLE_CAP)
    && (!t.restarted ==> t.ids.Keys == interned + seen)
  }

  lemma FittedStep(t: Table, interned: set<StyleKey>, seen: set<StyleKey>, key: StyleKey)
    requires InPass(t) && Fitted(t, interned, seen)
    ensures Fitted(Interned(t, key), interned, seen + Used([key]))
  {
    assert interned + (seen + Used([key])) == (interned + seen) + Used([key]);
    if t.restarted {
      SubsetCardinality(interned + seen, interned + (seen + Used([key])));
    } else {
      InternRestartsIff(t, key);
    }
  }

  /** A pass restarts exactly when what was interned and what it encodes do not
      fit the table together; otherwise it interns exactly their union. */
  lemma {:induction false} PassRestartsIff(t: Table, keys: seq<StyleKey>)
    requires InPass(t) && !t.restarted
    ensures Fitted(InternAll(t, keys), t.ids.Keys, Used(keys))
  {
    if keys == [] {
      assert |t.ids| == |t.ids.Keys|;
      assert t.ids.Keys + Used(keys) == t.ids.Keys;
    } else {
      var init, last := keys[..|keys| - 1], keys[|keys| - 1];
      PassRestartsIff(t, init);
      PassKeepsNumbering(t, init);
      FittedStep(InternAll(t, init), t.ids.Keys, Used(init), last);
      UsedSnoc(init, last);
      assert keys == init + [last];
    }
  }

  lemma SubsetCardinality<T>(a: set<T>, b: set<T>)
    requires a <= b
    ensures |a| <= |b|
  {
    assert b == a + (b - a);
  }

  // ----- the re-encode loop

  /** The table the `n`-th pass of a re-encode loop starts from and leaves behind:
      the first pass encodes `first` into `t`; a restarted pass is followed by one
      that encodes `all` into a cleared table. */
  function PassStart(t: Table, n: nat): Table {
    if n == 0 then Begun(t) else EMPTY_TABLE
  }

  function Pass(t: Table, first: seq<StyleKey>, all: seq<StyleKey>, n: nat): Table {
    InternAll(PassStart(t, n), if n == 0 then first else all)
  }

  lemma PassFitsIff(t: Table, first: seq<StyleKey>, all: seq<StyleKey>, n: nat)
    requires WellNumbered(t.ids)
    ensures Pass(t, first, all, n).restarted
       <==> (if n == 0 then |t.ids.Keys + Used(first)| else |Used(all)|) > STYLE_CAP
  {
    if n == 0 {
      PassRestartsIff(Begun(t), first);
    } else {
      EmptyNumbered<StyleKey>();
      PassRestartsIff(EMPTY_TABLE, all);
      assert EMPTY_TABLE.ids.Keys + Used(all) == Used(all);
    }
  }

  /** The re-encode loop ends at all exactly when the first pass fits beside the
      interned styles or everything fits by itself; two passes are then enough,
      and otherwise every pass restarts. */
  lemma ReencodeEndsIff(t: Table, first: seq<StyleKey>, all: seq<StyleKey>)
    requires WellNumbered(t.ids)
    ensures (exists n: nat :: !Pass(t, first, all, n).restarted)
       <==> |t.ids.Keys + Used(first)| <= 512 || |Used(all)| <= 512
    ensures (exists n: nat :: !Pass(t, first, all, n).restarted)
        ==> !Pass(t, first, all, 0).restarted || !Pass(t, first, all, 1).restarted
  {
    PassFitsIff(t, first, all, 0);
    PassFitsIff(t, first, all, 1);
    forall n: nat
      ensures Pass(t, first, all, n).restarted
         <==> (if n == 0 then |t.ids.Keys + Used(first)| else |Used(all)|) > STYLE_CAP
    {
      PassFitsIff(t, first, all, n);
    }
  }

  /** When every style already interned or about to be encoded is on the screen
      or was interned for it, ending is a matter of the screen alone. */
  lemma ReencodeEndsIffScreenFits(t: Table, first: seq<StyleKey>, all: seq<StyleKey>)
    requires WellNumbered(t.ids) && Used(all) <= t.ids.Keys + Used(first)
    ensures (exists n: nat :: !Pass(t, first, all, n).restarted) <==> |Used(all)| <= 512
  {
    ReencodeEndsIff(t, first, all);
    SubsetCardinality(Used(all), t.ids.Keys + Used(first));
  }

  // ----- the object

  class StyleTable {
    var ids: map<StyleKey, nat>
    var pending: seq<WireStyle>
    var restarted: bool
    var capped: bool

    ghost function Value(): Table
      reads this
    {
      Table(ids, pending, restarted, capped)
    }

    constructor ()
      ensures Value() == EMPTY_TABLE
    {
      ids, pending, restarted, capped := map[], [], false, false;
    }

    method BeginEncode()
      modifies this
      ensures Value() == Begun(old(Value()))
    {
      restarted := false;
      capped := false;
    }

    method TakeRestarted() returns (was: bool)
      modifies this
      ensures was == old(restarted) && Value() == old(Value()).(restarted := false)
    {
      was := restarted;
      restarted := false;
    }

    method Intern(style: TerminalStyle, palette: Palette) returns (id: nat)
      modifies this
      ensures Value() == Interned(old(Value()), Resolve(style, palette))
      ensures id == InternedId(old(Value()), Resolve(style, palette))
    {
      var key := Resolve(style, palette);
      if key == DEFAULT_KEY {
        return 0;
      }
      if key in ids {
        return ids[key];
      }
      if |ids| >= STYLE_CAP {
        if capped {
          return 0;
        }
        ids := map[];
        pending := [];
        restarted := true;
        capped := true;
      }
      id := |ids| + 1;
      ids := ids[key := id];
      pending := pending + [WireStyle(id, key)];
    }

    method TakePending() returns (taken: seq<WireStyle>)
      modifies this
      ensures taken == old(pending) && Value() == old(Value()).(pending := [])
    {
      taken := pending;
      pending := [];
    }

    method Clear()
      modifies this
      ensures Value() == EMPTY_TABLE
    {
      ids, pending, restarted, capped := map[], [], false, false;
    }
  }
}
