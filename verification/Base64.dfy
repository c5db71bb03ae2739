/** Decoding of base64 input (client/server/src/main.rs) and the encoding the browser
    sends (client/web/terminal.js, section 4 of RFC 4648). */
module Base64 {
  type Byte = x: int | 0 <= x < 256
  type Sextet = x: int | 0 <= x < 64

  datatype Result<T> = Ok(value: T) | Err

  const PAD: Byte := 61
  const MISSING: Byte := 255
  const WORD: nat := 0x1_0000_0000

  /** The alphabet: A-Z, a-z, 0-9, plus and slash. */
  function Symbol(v: Sextet): (r: Byte)
    ensures !Skipped(r)
  {
    if v < 26 then 65 + v
    else if v < 52 then 97 + (v - 26)
    else if v < 62 then 48 + (v - 52)
    else if v == 62 then 43
    else 47
  }

  /** Padding and ASCII white space, wherever they stand. */
  predicate Skipped(c: Byte) {
    c == PAD || c == 32 || c == 9 || c == 10 || c == 12 || c == 13
  }

  ghost predicate InAlphabet(c: Byte) {
    exists v: Sextet :: Symbol(v) == c
  }

  /** The alphabet, by characters. */
  lemma SymbolTable(v: Sextet)
    ensures v < 26 ==> Symbol(v) as char == 'A' + v as char
    ensures 26 <= v < 52 ==> Symbol(v) as char == 'a' + (v - 26) as char
    ensures 52 <= v < 62 ==> Symbol(v) as char == '0' + (v - 52) as char
    ensures Symbol(62) as char == '+' && Symbol(63) as char == '/'
  {
  }

  /** What is skipped, written out. */
  lemma SkippedTable(c: Byte)
    ensures Skipped(c) <==> c as char in "= \t\n\r" || c == 12
  {
  }

  lemma SymbolUnique(v: Sextet, w: Sextet)
    requires Symbol(v) == Symbol(w)
    ensures v == w
  {
  }

  /** For each byte the value it stands for. */
  ghost predicate IsLookup(lookup: seq<Byte>) {
    && |lookup| == 256
    && (forall v: Sextet :: lookup[Symbol(v)] == v)
    && (forall c: Byte :: lookup[c] == MISSING || (lookup[c] < 64 && Symbol(lookup[c]) == c))
  }

  method BuildLookup() returns (lookup: array<Byte>)
    ensures fresh(lookup) && IsLookup(lookup[..])
  {
    lookup := new Byte[256](_ => MISSING);
    for i := 0 to 64
      invariant forall v: Sextet :: v < i ==> lookup[Symbol(v)] == v
      invariant forall c: Byte :: lookup[c] == MISSING || (lookup[c] < i && Symbol(lookup[c]) == c)
    {
      lookup[Symbol(i)] := i;
    }
  }

  // ----- digits and numbers

  /** The number that big-endian digits denote. */
  function Num64(vs: seq<Sextet>): nat {
    if vs == [] then 0 else Num64(vs[..|vs| - 1]) * 64 + vs[|vs| - 1]
  }

  function Num256(bs: seq<Byte>): nat {
    if bs == [] then 0 else Num256(bs[..|bs| - 1]) * 256 + bs[|bs| - 1]
  }

  lemma Num64Push(vs: seq<Sextet>, v: Sextet)
    ensures Num64(vs + [v]) == Num64(vs) * 64 + v
  {
    assert (vs + [v])[..|vs|] == vs;
  }

  lemma Num256Push(bs: seq<Byte>, b: Byte)
    ensures Num256(bs + [b]) == Num256(bs) * 256 + b
  {
    assert (bs + [b])[..|bs|] == bs;
  }

  lemma {:induction false} Num256Unique(a: seq<Byte>, b: seq<Byte>)
    requires |a| == |b| && Num256(a) == Num256(b)
    ensures a == b
  {
    if a == [] {
    } else {
      var n := |a| - 1;
      assert a[n] == b[n] && Num256(a[..n]) == Num256(b[..n]);
      Num256Unique(a[..n], b[..n]);
      assert a == a[..n] + [a[n]] && b == b[..n] + [b[n]];
    }
  }

  /** Two to the number of bits that are left over. */
  function Scale(bits: nat): nat {
    if bits == 0 then 1 else if bits == 2 then 4 else if bits == 4 then 16 else 64
  }

  /** A number without its last bits. */
  function Leading(n: nat, bits: nat): nat {
    n / Scale(bits)
  }

  /** The bytes are as many whole bytes as the values hold, and are the leading bits of
      the values; the bits of an unfinished byte are dropped. */
  ghost predicate Decoded(vs: seq<Sextet>, out: seq<Byte>) {
    && 8 * |out| <= 6 * |vs| < 8 * |out| + 8
    && Num256(out) == Leading(Num64(vs), 6 * |vs| - 8 * |out|)
  }

  lemma DecodedUnique(vs: seq<Sextet>, a: seq<Byte>, b: seq<Byte>)
    requires Decoded(vs, a) && Decoded(vs, b)
    ensures a == b
  {
    Num256Unique(a, b);
  }

  ghost predicate Known(input: seq<Byte>) {
    forall i :: 0 <= i < |input| ==> Skipped(input[i]) || InAlphabet(input[i])
  }

  ghost function ValueOf(c: Byte): (v: Sextet)
    requires InAlphabet(c)
    ensures Symbol(v) == c
  {
    var v: Sextet :| Symbol(v) == c;
    v
  }

  /** The values of the characters that are not skipped. */
  ghost function Values(input: seq<Byte>): seq<Sextet>
    requires Known(input)
  {
    if input == [] then []
    else
      var init, last := input[..|input| - 1], input[|input| - 1];
      if Skipped(last) then Values(init) else Values(init) + [ValueOf(last)]
  }

  lemma ValuesPush(input: seq<Byte>, i: nat)
    requires i < |input| && Known(input[..i])
    ensures Skipped(input[i]) || InAlphabet(input[i]) <==> Known(input[..i + 1])
    ensures Skipped(input[i]) ==> Values(input[..i + 1]) == Values(input[..i])
    ensures !Skipped(input[i]) && InAlphabet(input[i]) ==>
              Values(input[..i + 1]) == Values(input[..i]) + [ValueOf(input[i])]
  {
    var more := input[..i + 1];
    assert more[..i] == input[..i];
    assert forall j :: 0 <= j < i ==> more[j] == input[..i][j];
    assert more[i] == input[i];
  }

  // ----- the accumulator

  /** Shifting the 32-bit accumulator loses only bits above 32. */
  lemma AccumulatorKeeps(n: nat, acc: nat, v: Sextet)
    requires acc == n % WORD
    ensures (acc * 64) % WORD + v == (n * 64 + v) % WORD < WORD
  {
    var part := WORD / 64;
    var q, s := acc / part, acc % part;
    assert acc * 64 == q * WORD + s * 64;
    Remainder(acc * 64, q, s * 64);
    var k := n / WORD;
    assert n * 64 + v == (64 * k + q) * WORD + (s * 64 + v);
    Remainder(n * 64 + v, 64 * k + q, s * 64 + v);
  }

  lemma Remainder(x: nat, q: nat, r: nat)
    requires x == q * WORD + r && r < WORD
    ensures x % WORD == r && x / WORD == q
  {
  }

  /** The byte cut from the accumulator is the byte of the whole number at that place. */
  lemma ByteCut(n: nat, bits: nat)
    requires bits == 0 || bits == 2 || bits == 4
    ensures (n % WORD) / Scale(bits) % 256 == n / Scale(bits) % 256
  {
    var q, acc := n / WORD, n % WORD;
    assert n == q * WORD + acc;
    if bits == 0 {
      SameByte(n, q * 0x100_0000, acc);
    } else if bits == 2 {
      assert n / 4 == q * 0x4000_0000 + acc / 4;
      SameByte(n / 4, q * 0x40_0000, acc / 4);
    } else {
      assert n / 16 == q * 0x1000_0000 + acc / 16;
      SameByte(n / 16, q * 0x10_0000, acc / 16);
    }
  }

  lemma SameByte(x: nat, k: nat, y: nat)
    requires x == k * 256 + y
    ensures x % 256 == y % 256
  {
  }

  lemma BitsLeft(k: nat, m: nat)
    requires 8 * m <= 6 * k < 8 * m + 8
    ensures var bits := 6 * k - 8 * m; bits == 0 || bits == 2 || bits == 4 || bits == 6
  {
  }

  /** The first six bits wait for more. */
  lemma ValueWaits(vs: seq<Sextet>, out: seq<Byte>, v: Sextet)
    requires Decoded(vs, out) && 6 * |vs| == 8 * |out|
    ensures Decoded(vs + [v], out)
  {
    hide Num64, Num256;
    Num64Push(vs, v);
  }

  /** Later ones complete a byte and leave two bits fewer. */
  lemma ValueCompletes(vs: seq<Sextet>, out: seq<Byte>, v: Sextet, bits: nat)
    requires Decoded(vs, out) && bits == 6 * |vs| - 8 * |out| >= 2
    ensures Decoded(vs + [v], out + [Leading(Num64(vs + [v]), bits - 2) % 256])
  {
    hide Num64, Num256, Leading;
    BitsLeft(|vs|, |out|);
    Num64Push(vs, v);
    Regroup(Num64(vs), v, bits);
    Num256Push(out, Leading(Num64(vs + [v]), bits - 2) % 256);
  }

  lemma Regroup(n: nat, v: Sextet, bits: nat)
    requires bits == 2 || bits == 4 || bits == 6
    ensures var x := Leading(n * 64 + v, bits - 2); x == Leading(n, bits) * 256 + x % 256
  {
    var x := (n * 64 + v) / Scale(bits - 2);
    assert x / 256 == n / Scale(bits);
  }

  /** What holds of the loop after the characters whose values are `vs`. */
  ghost predicate Decoding(vs: seq<Sextet>, out: seq<Byte>, bits: nat, accumulator: nat) {
    Decoded(vs, out) && bits == 6 * |vs| - 8 * |out| && accumulator == Num64(vs) % WORD
  }

  method TakeValue(out: seq<Byte>, bits: nat, accumulator: nat, value: Sextet, ghost vs: seq<Sextet>)
    returns (out': seq<Byte>, bits': nat, accumulator': nat)
    requires Decoding(vs, out, bits, accumulator)
    ensures Decoding(vs + [value], out', bits', accumulator')
  {
    hide Num64, Num256;
    BitsLeft(|vs|, |out|);
    Num64Push(vs, value);
    AccumulatorKeeps(Num64(vs), accumulator, value);
    out', bits' := out, bits + 6;
    accumulator' := (accumulator * 64) % WORD + value;
    if bits' >= 8 {
      bits' := bits' - 8;
      ByteCut(Num64(vs + [value]), bits');
      ValueCompletes(vs, out, value, bits);
      out' := out + [accumulator' / Scale(bits') % 256];
    } else {
      ValueWaits(vs, out, value);
    }
  }

  /** An unknown character is an error; otherwise the bytes are the leading bits. */
  method DecodeBase64(input: seq<Byte>) returns (r: Result<seq<Byte>>)
    ensures r.Ok? <==> Known(input)
    ensures r.Ok? ==> Decoded(Values(input), r.value)
  {
    hide Decoded, Decoding, Scale, Symbol;
    var lookup := BuildLookup();
    var out: seq<Byte> := [];
    var accumulator, bits := 0, 0;
    DecodingNothing();
    for i := 0 to |input|
      invariant IsLookup(lookup[..]) && Known(input[..i])
      invariant Decoding(Values(input[..i]), out, bits, accumulator)
    {
      ValuesPush(input, i);
      if Skipped(input[i]) {
        continue;
      }
      var value := lookup[input[i]];
      LookupTells(lookup[..], input[i]);
      if value == MISSING {
        assert input[i] == input[..i + 1][i];
        return Err;
      }
      out, bits, accumulator := TakeValue(out, bits, accumulator, value, Values(input[..i]));
    }
    assert input[..|input|] == input;
    DecodingDone(Values(input), out, bits, accumulator);
    return Ok(out);
  }

  lemma DecodingNothing()
    ensures Decoding([], [], 0, 0)
  {
  }

  lemma DecodingDone(vs: seq<Sextet>, out: seq<Byte>, bits: nat, accumulator: nat)
    requires Decoding(vs, out, bits, accumulator)
    ensures Decoded(vs, out)
  {
  }

  lemma LookupTells(lookup: seq<Byte>, c: Byte)
    requires IsLookup(lookup)
    ensures lookup[c] == MISSING <==> !InAlphabet(c)
    ensures InAlphabet(c) ==> lookup[c] == ValueOf(c)
  {
    if InAlphabet(c) {
      var v := ValueOf(c);
      assert lookup[Symbol(v)] == v;
    }
  }

  // ----- the encoding

  function Group(a: Byte, b: Byte, c: Byte): (r: nat)
    ensures r < 16777216
  {
    a as nat * 65536 + b as nat * 256 + c
  }

  /** Whole groups of three bytes as four symbols each. */
  function Groups(bs: seq<Byte>): (r: seq<Sextet>)
    requires |bs| % 3 == 0
    ensures |r| == |bs| / 3 * 4
  {
    if bs == [] then []
    else
      var n := |bs| - 3;
      var group := Group(bs[n], bs[n + 1], bs[n + 2]);
      Groups(bs[..n]) + [group / 262144] + [group / 4096 % 64] + [group / 64 % 64] + [group % 64]
  }

  /** The symbols of the last one or two bytes, with zero bits to fill the last symbol. */
  function Tail(bs: seq<Byte>): (r: seq<Sextet>)
    requires |bs| < 3
  {
    if |bs| == 0 then []
    else if |bs| == 1 then [bs[0] / 4, bs[0] % 4 * 16]
    else [bs[0] / 4, bs[0] % 4 * 16 + bs[1] / 16, bs[1] % 16 * 4]
  }

  function Sextets(bs: seq<Byte>): seq<Sextet> {
    var whole := |bs| / 3 * 3;
    Groups(bs[..whole]) + Tail(bs[whole..])
  }

  function Symbols(vs: seq<Sextet>): (r: seq<Byte>)
    ensures |r| == |vs|
  {
    seq(|vs|, i requires 0 <= i < |vs| => Symbol(vs[i]))
  }

  function Encode(bs: seq<Byte>): seq<Byte> {
    Symbols(Sextets(bs)) + (if |bs| % 3 == 1 then [PAD, PAD] else if |bs| % 3 == 2 then [PAD] else [])
  }

  /** The characters that are not skipped. */
  function Significant(input: seq<Byte>): seq<Byte> {
    if input == [] then []
    else
      var init, last := input[..|input| - 1], input[|input| - 1];
      if Skipped(last) then Significant(init) else Significant(init) + [last]
  }

  lemma {:induction false} GroupsNumber(bs: seq<Byte>)
    requires |bs| % 3 == 0
    ensures Num64(Groups(bs)) == Num256(bs)
  {
    if bs == [] {
    } else {
      var n := |bs| - 3;
      var init, a, b, c := bs[..n], bs[n], bs[n + 1], bs[n + 2];
      GroupsNumber(init);
      Number256Three(init, a, b, c);
      assert bs == init + [a] + [b] + [c];
      var g := Group(a, b, c);
      hide Group;
      Number64Four(Groups(init), g / 262144, g / 4096 % 64, g / 64 % 64, g % 64);
      GroupParts(g);
    }
  }

  lemma GroupParts(g: nat)
    ensures (g / 262144) * 262144 + (g / 4096 % 64) * 4096 + (g / 64 % 64) * 64 + g % 64 == g
  {
    var x, y := g / 64, g / 4096;
    assert y == x / 64 && g / 262144 == y / 64;
    Digits64(g);
    Digits64(x);
    Digits64(y);
  }

  lemma Digits64(x: nat)
    ensures x == x / 64 * 64 + x % 64
  {
  }

  lemma Number256Three(bs: seq<Byte>, a: Byte, b: Byte, c: Byte)
    ensures Num256(bs + [a] + [b] + [c]) == Num256(bs) * 16777216 + Group(a, b, c)
  {
    Num256Push(bs, a);
    Num256Push(bs + [a], b);
    Num256Push(bs + [a] + [b], c);
  }

  lemma Number64Four(vs: seq<Sextet>, a: Sextet, b: Sextet, c: Sextet, d: Sextet)
    ensures Num64(vs + [a] + [b] + [c] + [d]) == Num64(vs) * 16777216 + (a * 262144 + b * 4096 + c * 64 + d)
  {
    Num64Push(vs, a);
    Num64Push(vs + [a], b);
    Num64Push(vs + [a] + [b], c);
    Num64Push(vs + [a] + [b] + [c], d);
  }

  lemma TailOne(head: seq<Byte>, vs: seq<Sextet>, a: Byte)
    requires |head| % 3 == 0 && |vs| == |head| / 3 * 4 && Num64(vs) == Num256(head)
    ensures Decoded(vs + [a / 4] + [a % 4 * 16], head + [a])
  {
    Num256Push(head, a);
    Num64Push(vs, a / 4);
    Num64Push(vs + [a / 4], a % 4 * 16);
  }

  lemma TailTwoNumber(n: nat, a: Byte, b: Byte)
    ensures ((n * 64 + a / 4) * 64 + (a % 4 * 16 + b / 16)) * 64 + b % 16 * 4 == ((n * 256 + a) * 256 + b) * 4
  {
    assert a == a / 4 * 4 + a % 4;
    assert b == b / 16 * 16 + b % 16;
  }

  lemma TailTwo(head: seq<Byte>, vs: seq<Sextet>, a: Byte, b: Byte)
    requires |head| % 3 == 0 && |vs| == |head| / 3 * 4 && Num64(vs) == Num256(head)
    ensures Decoded(vs + [a / 4] + [a % 4 * 16 + b / 16] + [b % 16 * 4], head + [a] + [b])
  {
    Num256Push(head, a);
    Num256Push(head + [a], b);
    Num64Push(vs, a / 4);
    Num64Push(vs + [a / 4], a % 4 * 16 + b / 16);
    Num64Push(vs + [a / 4] + [a % 4 * 16 + b / 16], b % 16 * 4);
    TailTwoNumber(Num64(vs), a, b);
    hide Num64, Num256;
    ExactQuotient(Num256(head + [a] + [b]));
  }

  lemma ExactQuotient(n: nat)
    ensures n * 4 / 4 == n
  {
  }

  /** The bytes are what decoding takes from their own sextets. */
  lemma EncodedDecodes(bs: seq<Byte>)
    ensures Decoded(Sextets(bs), bs)
  {
    hide Decoded, Groups, Tail;
    var whole := |bs| / 3 * 3;
    var head, rest := bs[..whole], bs[whole..];
    GroupsNumber(head);
    assert bs == head + rest;
    if rest == [] {
      NoTail(head);
      assert bs == head;
      assert Sextets(bs) == Groups(head) + Tail([]);
    } else {
      TailParts(rest);
      if |rest| == 1 {
        TailOne(head, Groups(head), rest[0]);
        assert bs == head + [rest[0]];
        assert Sextets(bs) == Groups(head) + [rest[0] / 4] + [rest[0] % 4 * 16];
      } else {
        var a, b := rest[0], rest[1];
        TailTwo(head, Groups(head), a, b);
        assert bs == head + [a] + [b];
        assert Sextets(bs) == Groups(head) + [a / 4] + [a % 4 * 16 + b / 16] + [b % 16 * 4];
      }
    }
  }

  lemma NoTail(head: seq<Byte>)
    requires |head| % 3 == 0
    ensures Decoded(Groups(head) + Tail([]), head)
  {
    hide Groups, Num64, Num256, Leading, Tail;
    GroupsNumber(head);
    var vs := Groups(head);
    WholeBits(|head|);
    LeadingWhole(Num64(vs));
    assert Decoded(vs, head);
    hide Decoded;
    NothingLeft();
    assert vs + Tail([]) == vs;
  }

  lemma NothingLeft()
    ensures Tail([]) == []
  {
  }

  lemma WholeBits(n: nat)
    requires n % 3 == 0
    ensures 6 * (n / 3 * 4) == 8 * n
  {
  }

  lemma LeadingWhole(n: nat)
    ensures Leading(n, 0) == n
  {
  }

  lemma TailParts(bs: seq<Byte>)
    requires 0 < |bs| < 3
    ensures |bs| == 1 ==> Tail(bs) == [bs[0] / 4] + [bs[0] % 4 * 16]
    ensures |bs| == 2 ==> Tail(bs) == [bs[0] / 4] + [bs[0] % 4 * 16 + bs[1] / 16] + [bs[1] % 16 * 4]
  {
  }

  lemma {:induction false} SymbolsValues(vs: seq<Sextet>, input: seq<Byte>)
    requires Significant(input) == Symbols(vs)
    ensures Known(input) && Values(input) == vs
  {
    if input == [] {
    } else {
      var n := |input| - 1;
      var init, last := input[..n], input[n];
      if Skipped(last) {
        SymbolsValues(vs, init);
      } else {
        var m := |vs| - 1;
        assert Significant(input)[..m] == Significant(init) && Significant(input)[m] == last;
        assert Symbols(vs)[..m] == Symbols(vs[..m]) && Symbols(vs)[m] == Symbol(vs[m]);
        SymbolsValues(vs[..m], init);
        SymbolUnique(ValueOf(last), vs[m]);
        assert vs == vs[..m] + [vs[m]];
      }
      KnownPush(input);
    }
  }

  lemma KnownPush(input: seq<Byte>)
    requires input != [] && Known(input[..|input| - 1])
    requires var last := input[|input| - 1]; Skipped(last) || InAlphabet(last)
    ensures Known(input)
  {
    forall i | 0 <= i < |input| ensures Skipped(input[i]) || InAlphabet(input[i]) {
      if i < |input| - 1 {
        assert input[i] == input[..|input| - 1][i];
      }
    }
  }

  /** The encoding without its padding is its symbols. */
  lemma EncodeSignificant(bs: seq<Byte>)
    ensures Significant(Encode(bs)) == Symbols(Sextets(bs))
  {
    var symbols := Symbols(Sextets(bs));
    AllSignificant(symbols);
    hide Significant, Symbols, Sextets;
    if |bs| % 3 == 1 {
      PadIsSkipped(symbols);
      PadIsSkipped(symbols + [PAD]);
      assert Encode(bs) == symbols + [PAD] + [PAD];
    } else if |bs| % 3 == 2 {
      PadIsSkipped(symbols);
    } else {
      assert Encode(bs) == symbols;
    }
  }

  lemma PadIsSkipped(input: seq<Byte>)
    ensures Significant(input + [PAD]) == Significant(input)
  {
    assert (input + [PAD])[..|input|] == input;
  }

  lemma {:induction false} AllSignificant(input: seq<Byte>)
    requires forall i :: 0 <= i < |input| ==> !Skipped(input[i])
    ensures Significant(input) == input
  {
    if input == [] {
    } else {
      AllSignificant(input[..|input| - 1]);
    }
  }

  /** Decoding gives back what was encoded, with or without the padding, and with padding
      signs or white space put anywhere. */
  method RoundTrip(bs: seq<Byte>, input: seq<Byte>) returns (r: Result<seq<Byte>>)
    requires Significant(input) == Significant(Encode(bs))
    ensures r == Ok(bs)
  {
    hide Decoded;
    EncodeSignificant(bs);
    SymbolsValues(Sextets(bs), input);
    EncodedDecodes(bs);
    r := DecodeBase64(input);
    DecodedUnique(Sextets(bs), r.value, bs);
  }

  /** The test vectors f, fo and foo of section 10 of RFC 4648. */
  lemma KnownEncodings()
    ensures Encode([102]) == [90, 103, 61, 61]
    ensures Encode([102, 111]) == [90, 109, 56, 61]
    ensures Encode([102, 111, 111]) == [90, 109, 57, 118]
  {
    KnownSextets();
    hide Sextets;
    assert Symbols([25, 32]) == [90, 103];
    assert Symbols([25, 38, 60]) == [90, 109, 56];
    assert Symbols([25, 38, 61, 47]) == [90, 109, 57, 118];
  }

  lemma KnownSextets()
    ensures Sextets([102]) == [25, 32] && Sextets([102, 111]) == [25, 38, 60]
    ensures Sextets([102, 111, 111]) == [25, 38, 61, 47]
  {
    assert Groups([]) == [];
    assert [102, 111, 111][..3] == [102, 111, 111] && [102, 111, 111][..0] == [];
    assert Groups([102, 111, 111]) == [] + [25] + [38] + [61] + [47];
  }
}
