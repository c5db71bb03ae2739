/** Where the packed-page pool puts its blocks: pages cut into equal slots, an occupancy
    bitmap per page, one mapping per oversized block (experiments/native/packed-pages.h). */
module PackedHeap {
  import opened PackedLists

  const SMALL: nat := 4096
  const PAGE_BYTES: nat := 16384
  /** Bytes of a pointer, a size or a bitmap word. */
  const WORD: nat := 8
  const WORDS: nat := 8
  /** In front of a block: its page and the length of its mapping. */
  const HEADER: nat := 16
  /** In front of a page's slots: two links, four sizes and the bitmap. */
  const DESCRIPTOR: nat := 6 * WORD + WORDS * WORD
  /** Where the slots begin, a multiple of 16. */
  const START: nat := 112
  const WORD_BITS: nat := 64
  const MAX_SLOTS: nat := 512
  const SIZE_MAX: nat := 0xFFFF_FFFF_FFFF_FFFF

  /** `32 << c`. */
  function Slot(c: nat): nat
    requires c < CLASSES
  {
    [32, 64, 128, 256, 512, 1024, 2048, 4096][c]
  }

  function Round(n: nat, pageSize: nat): nat
    requires pageSize > 0
  {
    (n + pageSize - 1) / pageSize * pageSize
  }

  /** Page sizes a system may have. */
  predicate Supported(pageSize: nat) {
    pageSize >= 16 && pageSize % 16 == 0
  }

  /** A page for this slot size is cut into 1..512 slots; any other page ends the process. */
  predicate Cuts(slot: nat, pageSize: nat)
    requires slot > 0 && pageSize > 0
  {
    var span := Round(PAGE_BYTES, pageSize);
    span >= START && 1 <= (span - START) / slot <= MAX_SLOTS
  }

  /** Up to 16 KiB pages every class works; on 32 KiB pages the smallest does not, on 64 KiB
      pages the two smallest do not. */
  lemma CutsByPageSize(c: nat)
    requires c < CLASSES
    ensures Cuts(Slot(c), 4096) && Cuts(Slot(c), 16384)
    ensures Cuts(Slot(c), 32768) <==> c >= 1
    ensures Cuts(Slot(c), 65536) <==> c >= 2
  {
    match c
    case 0 =>
    case 1 =>
    case 2 =>
    case 3 =>
    case 4 =>
    case 5 =>
    case 6 =>
    case _ =>
      assert c == 7;
  }

  // ----- bitmaps: eight words of 64 bits

  type Bitmap = o: seq<seq<bool>> | |o| == WORDS && forall w :: 0 <= w < WORDS ==> |o[w]| == WORD_BITS
    witness seq(WORDS, _ => seq(WORD_BITS, _ => false))

  function ClearWord(): (w: seq<bool>)
    ensures |w| == WORD_BITS && forall i :: 0 <= i < WORD_BITS ==> !w[i]
  {
    seq(WORD_BITS, _ => false)
  }

  /** Fresh memory is zeroed. */
  function Clear(): (o: Bitmap)
    ensures forall i: nat :: i < MAX_SLOTS ==> !Bit(o, i)
  {
    var w := ClearWord();
    [w, w, w, w, w, w, w, w]
  }

  predicate Bit(o: Bitmap, i: nat)
    requires i < MAX_SLOTS
  {
    o[i / WORD_BITS][i % WORD_BITS]
  }

  function SetBit(o: Bitmap, i: nat, b: bool): Bitmap
    requires i < MAX_SLOTS
  {
    o[i / WORD_BITS := o[i / WORD_BITS][i % WORD_BITS := b]]
  }

  lemma SetBitChangesOne(o: Bitmap, i: nat, b: bool, j: nat)
    requires i < MAX_SLOTS && j < MAX_SLOTS
    ensures Bit(SetBit(o, i, b), j) == if i == j then b else Bit(o, j)
  {
    if i != j && i / WORD_BITS == j / WORD_BITS {
      assert i % WORD_BITS != j % WORD_BITS;
    }
  }

  function Ones(o: Bitmap, n: nat): set<nat>
    requires n <= MAX_SLOTS
  {
    set i | 0 <= i < n && Bit(o, i)
  }

  lemma OnesSet(o: Bitmap, n: nat, i: nat)
    requires n <= MAX_SLOTS && i < n
    ensures Ones(SetBit(o, i, true), n) == Ones(o, n) + {i}
    ensures Ones(SetBit(o, i, false), n) == Ones(o, n) - {i}
  {
    forall j, b | 0 <= j < n ensures Bit(SetBit(o, i, b), j) == if i == j then b else Bit(o, j) {
      SetBitChangesOne(o, i, b, j);
    }
  }

  lemma {:induction false} OnesBound(o: Bitmap, n: nat)
    requires n <= MAX_SLOTS
    ensures |Ones(o, n)| <= n
    ensures (forall i :: 0 <= i < n ==> Bit(o, i)) <==> |Ones(o, n)| == n
  {
    if n == 0 {
    } else {
      OnesBound(o, n - 1);
      OnesNext(o, n);
      hide Ones, Bit;
    }
  }

  lemma OnesNext(o: Bitmap, n: nat)
    requires 0 < n <= MAX_SLOTS
    ensures |Ones(o, n)| == |Ones(o, n - 1)| + if Bit(o, n - 1) then 1 else 0
  {
    hide Bit;
    if Bit(o, n - 1) {
      assert Ones(o, n) == Ones(o, n - 1) + {n - 1};
    } else {
      assert Ones(o, n) == Ones(o, n - 1);
    }
  }

  // ----- pages and blocks

  datatype Page = Page(mapping: nat, slot: nat, count: nat, capacity: nat, occupied: Bitmap)
  datatype Header = Header(page: nat, mapping: nat)

  /** A block handed out and not yet freed. */
  datatype Block = Small(n: nat, page: nat, index: nat) | Large(n: nat)

  /** Live pages and oversized mappings by address, live blocks by pointer, block headers by address. */
  datatype Heap = Heap(pages: map<nat, Page>, large: map<nat, nat>,
                       live: map<nat, Block>, headers: map<nat, Header>)

  predicate IsSlot(slot: nat) {
    slot in [32, 64, 128, 256, 512, 1024, 2048, 4096]
  }

  ghost predicate PageOk(page: Page, span: nat) {
    && span >= PAGE_BYTES
    && page.mapping == span && IsSlot(page.slot)
    && page.capacity == (span - START) / page.slot && 1 <= page.capacity <= MAX_SLOTS
    && page.count == |Ones(page.occupied, page.capacity)|
  }

  function Mappings(h: Heap): set<nat> {
    h.pages.Keys + h.large.Keys
  }

  function Length(h: Heap, a: nat): nat
    requires a in Mappings(h)
  {
    if a in h.pages then h.pages[a].mapping else h.large[a]
  }

  predicate Separate(a: nat, m: nat, b: nat, n: nat) {
    a + m <= b || b + n <= a
  }

  /** Live mappings are 16-byte aligned and pairwise disjoint. */
  ghost predicate Apart(h: Heap) {
    && h.pages.Keys !! h.large.Keys
    && (forall a :: a in Mappings(h) ==> a > 0 && a % 16 == 0 && Length(h, a) > 0)
    && (forall a, b :: a in Mappings(h) && b in Mappings(h) && a != b ==> Separate(a, Length(h, a), b, Length(h, b)))
  }

  function Address(p: nat, page: Page, i: nat): (a: nat)
    ensures a >= HEADER
  {
    p + START + i * page.slot + HEADER
  }

  /** The smallest slot that holds a block of `n` bytes and its header. */
  predicate Fits(n: nat, slot: nat) {
    n + HEADER <= slot && (slot == 32 || slot < 2 * (n + HEADER))
  }

  predicate BlockOk(h: Heap, ptr: nat, pageSize: nat)
    requires ptr in h.live && pageSize > 0
  {
    && ptr >= HEADER && ptr % 16 == 0 && ptr - HEADER in h.headers
    && match h.live[ptr]
       case Small(n, p, i) =>
         && p in h.pages && i < h.pages[p].capacity <= MAX_SLOTS && Bit(h.pages[p].occupied, i)
         && ptr == Address(p, h.pages[p], i) && Fits(n, h.pages[p].slot)
         && h.headers[ptr - HEADER] == Header(p, 0)
       case Large(n) =>
         && ptr - HEADER in h.large && n + HEADER <= h.large[ptr - HEADER] == Round(n + HEADER, pageSize)
         && h.headers[ptr - HEADER] == Header(0, h.large[ptr - HEADER])
  }

  /** Slot `i` of page `p` holds a live block. */
  predicate Held(h: Heap, p: nat, i: nat)
    requires p in h.pages
  {
    var ptr := Address(p, h.pages[p], i);
    ptr in h.live && h.live[ptr].Small? && h.live[ptr].page == p && h.live[ptr].index == i
  }

  /** Every occupied slot and every oversized mapping holds exactly the block that says so. */
  ghost predicate Covered(h: Heap) {
    && (forall p, i: nat :: p in h.pages && i < h.pages[p].capacity <= MAX_SLOTS && Bit(h.pages[p].occupied, i) ==>
          Held(h, p, i))
    && (forall a :: a in h.large ==> a + HEADER in h.live && h.live[a + HEADER].Large?)
  }

  ghost predicate HeapOk(h: Heap, pageSize: nat) {
    && pageSize > 0
    && (forall p :: p in h.pages ==> PageOk(h.pages[p], Round(PAGE_BYTES, pageSize)))
    && Apart(h)
    && (forall ptr :: ptr in h.live ==> BlockOk(h, ptr, pageSize))
    && Covered(h)
  }

  // ----- arithmetic of slots

  lemma SlotInside(span: nat, slot: nat, i: nat)
    requires slot > 0 && span >= START && i < (span - START) / slot
    ensures START + i * slot + slot <= span
  {
    var q := (span - START) / slot;
    assert q * slot <= span - START;
    assert (i + 1) * slot <= q * slot by {
      Monotone(i + 1, q, slot);
    }
    assert (i + 1) * slot == i * slot + slot;
  }

  lemma Monotone(a: nat, b: nat, m: nat)
    requires a <= b
    ensures a * m <= b * m
  {
  }

  lemma SlotsApart(slot: nat, i: nat, j: nat)
    requires i < j
    ensures i * slot + slot <= j * slot
  {
    Monotone(i + 1, j, slot);
    assert (i + 1) * slot == i * slot + slot;
  }

  lemma IndexBack(slot: nat, i: nat)
    requires slot > 0
    ensures i * slot / slot == i
  {
    var q := i * slot / slot;
    assert q * slot <= i * slot < (q + 1) * slot;
    if q < i {
      Monotone(q + 1, i, slot);
    }
  }

  lemma RoundUp(n: nat, pageSize: nat)
    requires pageSize > 0
    ensures n <= Round(n, pageSize) < n + pageSize && Round(n, pageSize) % pageSize == 0
  {
    var q := (n + pageSize - 1) / pageSize;
    assert q * pageSize <= n + pageSize - 1 < q * pageSize + pageSize;
    Multiple(q, pageSize);
  }

  lemma Multiple(q: nat, m: nat)
    requires m > 0
    ensures q * m % m == 0
  {
    IndexBack(m, q);
    assert q * m == q * m / m * m + q * m % m;
  }

  // ----- where blocks are

  /** The mapping a block lies in. */
  function Home(h: Heap, ptr: nat): nat
    requires ptr in h.live && ptr >= HEADER
  {
    match h.live[ptr]
    case Small(_, p, _) => p
    case Large(_) => ptr - HEADER
  }

  /** Bytes a block may use, its header included. */
  function Extent(h: Heap, ptr: nat): nat
    requires ptr in h.live
  {
    h.live[ptr].n + HEADER
  }

  lemma SlotAligned(slot: nat, i: nat)
    requires IsSlot(slot)
    ensures i * slot % 16 == 0
  {
    var k := slot / 16;
    assert slot == 16 * k;
    MultipleOf16(i, k);
    assert i * slot == i * (16 * k);
  }

  lemma MultipleOf16(i: nat, k: nat)
    ensures i * (16 * k) % 16 == 0
  {
    var m := i * k;
    assert i * (16 * k) == 16 * m;
  }

  lemma AddressInside(p: nat, page: Page, i: nat)
    requires PageOk(page, page.mapping) && i < page.capacity
    ensures p + START + HEADER <= Address(p, page, i)
    ensures Address(p, page, i) - HEADER + page.slot <= p + page.mapping
    ensures p % 16 == 0 ==> Address(p, page, i) % 16 == 0
  {
    SlotInside(page.mapping, page.slot, i);
    SlotAligned(page.slot, i);
  }

  lemma AddressesApart(p: nat, page: Page, i: nat, j: nat)
    requires i != j
    ensures Separate(Address(p, page, i) - HEADER, page.slot, Address(p, page, j) - HEADER, page.slot)
  {
    if i < j {
      SlotsApart(page.slot, i, j);
    } else {
      SlotsApart(page.slot, j, i);
    }
  }

  lemma HeaderAligned(a: nat)
    requires a % 16 == 0
    ensures (a + HEADER) % 16 == 0
  {
  }

  /** `length` is the fewest whole system pages that hold `n` bytes. */
  predicate LeastPages(length: nat, n: nat, pageSize: nat)
    requires pageSize > 0
  {
    length % pageSize == 0 && n <= length < n + pageSize
  }

  /** Every live block is 16-byte aligned and lies inside one live mapping, header included; a
      small one lies clear of its page's descriptor. */
  lemma BlockInside(h: Heap, ptr: nat, pageSize: nat)
    requires HeapOk(h, pageSize) && ptr in h.live
    ensures ptr >= HEADER && ptr % 16 == 0 && Home(h, ptr) in Mappings(h)
    ensures Home(h, ptr) + (if h.live[ptr].Small? then 6 * 8 + 8 * WORDS else 0) <= ptr - 2 * 8
    ensures ptr - HEADER + Extent(h, ptr) <= Home(h, ptr) + Length(h, Home(h, ptr))
    ensures LeastPages(Length(h, Home(h, ptr)), if h.live[ptr].Small? then 16384 else h.live[ptr].n + 2 * 8, pageSize)
  {
    assert BlockOk(h, ptr, pageSize);
    RoundUp(if h.live[ptr].Small? then PAGE_BYTES else Extent(h, ptr), pageSize);
    if h.live[ptr].Small? {
      var p := h.live[ptr].page;
      assert PageOk(h.pages[p], Round(PAGE_BYTES, pageSize));
      AddressInside(p, h.pages[p], h.live[ptr].index);
    }
  }

  /** A page begins with six words and its bitmap; the slots follow from the next multiple of 16
      on, as many as fit, and a slot holds its block with a header of two words, wasting less
      than half of itself unless it is of the smallest size. */
  lemma SlotPlace(h: Heap, ptr: nat, pageSize: nat, n: nat, p: nat, i: nat, first: nat)
    requires HeapOk(h, pageSize) && ptr in h.live && h.live[ptr] == Small(n, p, i)
    requires first % 16 == 0 && 6 * 8 + 8 * WORDS <= first < 6 * 8 + 8 * WORDS + 16
    ensures p in h.pages && ptr == p + first + i * h.pages[p].slot + 2 * 8
    ensures h.pages[p].capacity * h.pages[p].slot <= h.pages[p].mapping - first
            < (h.pages[p].capacity + 1) * h.pages[p].slot
    ensures n + 2 * 8 <= h.pages[p].slot && (h.pages[p].slot == 32 || h.pages[p].slot < 2 * (n + 2 * 8))
    ensures h.pages[p].slot in {32, 64, 128, 256, 512, 1024, 2048, 4096}
  {
    hide Round;
    assert BlockOk(h, ptr, pageSize);
    assert PageOk(h.pages[p], Round(PAGE_BYTES, pageSize));
    hide HeapOk;
    PageCut(h.pages[p], first);
  }

  lemma PageCut(page: Page, first: nat)
    requires PageOk(page, page.mapping) && first % 16 == 0 && DESCRIPTOR <= first < DESCRIPTOR + 16
    ensures first == START && page.slot in {32, 64, 128, 256, 512, 1024, 2048, 4096}
    ensures page.capacity * page.slot <= page.mapping - first < (page.capacity + 1) * page.slot
  {
    hide Ones;
    SlotsFill(page.mapping - START, page.slot);
  }

  lemma SlotsFill(space: nat, slot: nat)
    requires slot > 0
    ensures space / slot * slot <= space < (space / slot + 1) * slot
  {
  }

  /** Live blocks never overlap, headers included. */
  lemma BlocksDisjoint(h: Heap, ptr: nat, other: nat, pageSize: nat)
    requires HeapOk(h, pageSize) && ptr in h.live && other in h.live && ptr != other
    ensures ptr >= HEADER && other >= HEADER
    ensures Separate(ptr - HEADER, Extent(h, ptr), other - HEADER, Extent(h, other))
  {
    hide Round, Covered, PageOk;
    BlockInside(h, ptr, pageSize);
    BlockInside(h, other, pageSize);
    if Home(h, ptr) == Home(h, other) {
      SameHomeDisjoint(h, ptr, other, pageSize);
    } else {
      hide BlockOk;
      assert Separate(Home(h, ptr), Length(h, Home(h, ptr)), Home(h, other), Length(h, Home(h, other)));
      hide HeapOk, Home, Length, Extent;
    }
  }

  /** Two blocks of one mapping are slots of one page. */
  lemma SameHomeDisjoint(h: Heap, ptr: nat, other: nat, pageSize: nat)
    requires pageSize > 0 && ptr in h.live && other in h.live && ptr != other && h.pages.Keys !! h.large.Keys
    requires BlockOk(h, ptr, pageSize) && BlockOk(h, other, pageSize) && Home(h, ptr) == Home(h, other)
    ensures Separate(ptr - HEADER, Extent(h, ptr), other - HEADER, Extent(h, other))
  {
    hide Round, Bit, Address;
    assert h.live[ptr].Small? && h.live[other].Small?;
    AddressesApart(Home(h, ptr), h.pages[Home(h, ptr)], h.live[ptr].index, h.live[other].index);
  }

  /** A slot that is not marked occupied is not in use. */
  lemma VacantSlotIsFree(h: Heap, p: nat, i: nat, pageSize: nat)
    requires HeapOk(h, pageSize) && p in h.pages && i < h.pages[p].capacity
    requires h.pages[p].capacity <= MAX_SLOTS && !Bit(h.pages[p].occupied, i)
    ensures Address(p, h.pages[p], i) !in h.live
  {
    var page := h.pages[p];
    var ptr := Address(p, page, i);
    assert PageOk(page, Round(PAGE_BYTES, pageSize));
    AddressInside(p, page, i);
    if ptr in h.live {
      BlockInside(h, ptr, pageSize);
      assert BlockOk(h, ptr, pageSize);
      assert p in Mappings(h);
      if Home(h, ptr) == p {
        AddressesApart(p, page, i, h.live[ptr].index);
      }
    }
  }

  // ----- every way the heap changes

  function Occupied(page: Page, i: nat): Page
    requires i < MAX_SLOTS
  {
    page.(occupied := SetBit(page.occupied, i, true), count := page.count + 1)
  }

  /** Hand out slot `i` of page `p` for `n` bytes. */
  function Occupy(h: Heap, p: nat, i: nat, n: nat): Heap
    requires p in h.pages && i < MAX_SLOTS
  {
    var page := h.pages[p];
    var ptr := Address(p, page, i);
    h.(pages := h.pages[p := Occupied(page, i)],
       live := h.live[ptr := Small(n, p, i)],
       headers := h.headers[ptr - HEADER := Header(p, 0)])
  }

  function Vacated(page: Page, i: nat): Page
    requires i < MAX_SLOTS && page.count > 0
  {
    page.(occupied := SetBit(page.occupied, i, false), count := page.count - 1)
  }

  /** Take back slot `i` of page `p`. */
  function Vacate(h: Heap, p: nat, i: nat): Heap
    requires p in h.pages && i < MAX_SLOTS && h.pages[p].count > 0
  {
    Heap(h.pages[p := Vacated(h.pages[p], i)], h.large, h.live - {Address(p, h.pages[p], i)}, h.headers)
  }

  lemma OccupiedOk(page: Page, i: nat, span: nat)
    requires PageOk(page, span) && i < page.capacity && !Bit(page.occupied, i)
    ensures PageOk(Occupied(page, i), span)
  {
    OnesSet(page.occupied, page.capacity, i);
  }

  lemma VacatedOk(page: Page, i: nat, span: nat)
    requires PageOk(page, span) && i < page.capacity && Bit(page.occupied, i)
    ensures page.count > 0 && PageOk(Vacated(page, i), span)
  {
    OnesSet(page.occupied, page.capacity, i);
    assert i in Ones(page.occupied, page.capacity);
  }

  lemma ApartKept(h: Heap, after: Heap)
    requires Apart(h) && after.large == h.large && after.pages.Keys == h.pages.Keys
    requires forall p :: p in h.pages ==> after.pages[p].mapping == h.pages[p].mapping
    ensures Apart(after)
  {
    assert Mappings(after) == Mappings(h);
    assert forall a :: a in Mappings(h) ==> Length(after, a) == Length(h, a);
  }

  lemma OccupyBlocks(h: Heap, p: nat, i: nat, n: nat, pageSize: nat)
    requires HeapOk(h, pageSize) && p in h.pages && i < h.pages[p].capacity <= MAX_SLOTS
    requires !Bit(h.pages[p].occupied, i) && Fits(n, h.pages[p].slot)
    ensures forall ptr :: ptr in Occupy(h, p, i, n).live ==> BlockOk(Occupy(h, p, i, n), ptr, pageSize)
  {
    assert PageOk(h.pages[p], Round(PAGE_BYTES, pageSize));
    assert p in Mappings(h);
    OccupyOwn(h, p, i, n, pageSize);
    forall ptr | ptr in h.live && ptr != Address(p, h.pages[p], i) ensures BlockOk(Occupy(h, p, i, n), ptr, pageSize) {
      OccupyOther(h, p, i, n, ptr, pageSize);
    }
  }

  lemma OccupyOwn(h: Heap, p: nat, i: nat, n: nat, pageSize: nat)
    requires p in h.pages && p % 16 == 0 && PageOk(h.pages[p], h.pages[p].mapping) && i < h.pages[p].capacity
    requires Fits(n, h.pages[p].slot) && pageSize > 0
    ensures BlockOk(Occupy(h, p, i, n), Address(p, h.pages[p], i), pageSize)
  {
    AddressInside(p, h.pages[p], i);
    SetBitChangesOne(h.pages[p].occupied, i, true, i);
  }

  lemma OccupyOther(h: Heap, p: nat, i: nat, n: nat, ptr: nat, pageSize: nat)
    requires p in h.pages && i < h.pages[p].capacity <= MAX_SLOTS && pageSize > 0
    requires ptr in h.live && BlockOk(h, ptr, pageSize) && ptr != Address(p, h.pages[p], i)
    ensures BlockOk(Occupy(h, p, i, n), ptr, pageSize)
  {
    if h.live[ptr].Small? && h.live[ptr].page == p {
      SetBitChangesOne(h.pages[p].occupied, i, true, h.live[ptr].index);
    }
  }

  lemma OccupyCovered(h: Heap, p: nat, i: nat, n: nat)
    requires Covered(h) && p in h.pages && i < h.pages[p].capacity <= MAX_SLOTS
    requires Address(p, h.pages[p], i) !in h.live
    ensures Covered(Occupy(h, p, i, n))
  {
    var after := Occupy(h, p, i, n);
    forall q, j: nat | q in after.pages && j < after.pages[q].capacity <= MAX_SLOTS && Bit(after.pages[q].occupied, j)
      ensures Held(after, q, j)
    {
      if q == p {
        SetBitChangesOne(h.pages[p].occupied, i, true, j);
      }
      if q != p || j != i {
        assert Held(h, q, j);
      }
    }
  }

  lemma OccupyOk(h: Heap, p: nat, i: nat, n: nat, pageSize: nat)
    requires HeapOk(h, pageSize) && p in h.pages && i < h.pages[p].capacity <= MAX_SLOTS
    requires !Bit(h.pages[p].occupied, i) && Fits(n, h.pages[p].slot)
    ensures HeapOk(Occupy(h, p, i, n), pageSize)
    ensures Address(p, h.pages[p], i) !in h.live
  {
    OccupiedOk(h.pages[p], i, Round(PAGE_BYTES, pageSize));
    ApartKept(h, Occupy(h, p, i, n));
    OccupyBlocks(h, p, i, n, pageSize);
    VacantSlotIsFree(h, p, i, pageSize);
    OccupyCovered(h, p, i, n);
  }

  lemma VacateOther(h: Heap, p: nat, i: nat, ptr: nat, pageSize: nat)
    requires pageSize > 0 && p in h.pages && i < h.pages[p].capacity <= MAX_SLOTS && h.pages[p].count > 0
    requires ptr in h.live && BlockOk(h, ptr, pageSize) && ptr != Address(p, h.pages[p], i)
    ensures BlockOk(Vacate(h, p, i), ptr, pageSize)
  {
    if h.live[ptr].Small? && h.live[ptr].page == p {
      SetBitChangesOne(h.pages[p].occupied, i, false, h.live[ptr].index);
    }
  }

  lemma VacateCovered(h: Heap, p: nat, i: nat)
    requires Covered(h) && p in h.pages && i < h.pages[p].capacity <= MAX_SLOTS
    requires Held(h, p, i) && h.pages[p].count > 0
    ensures Covered(Vacate(h, p, i))
  {
    var after := Vacate(h, p, i);
    forall q, j: nat | q in after.pages && j < after.pages[q].capacity <= MAX_SLOTS && Bit(after.pages[q].occupied, j)
      ensures Held(after, q, j)
    {
      if q == p {
        SetBitChangesOne(h.pages[p].occupied, i, false, j);
      }
      assert Held(h, q, j);
    }
  }

  lemma VacateOk(h: Heap, p: nat, i: nat, pageSize: nat)
    requires HeapOk(h, pageSize) && p in h.pages && i < h.pages[p].capacity <= MAX_SLOTS
    requires Bit(h.pages[p].occupied, i)
    ensures h.pages[p].count > 0 && HeapOk(Vacate(h, p, i), pageSize)
  {
    VacatedOk(h.pages[p], i, Round(PAGE_BYTES, pageSize));
    ApartKept(h, Vacate(h, p, i));
    forall ptr | ptr in Vacate(h, p, i).live ensures BlockOk(Vacate(h, p, i), ptr, pageSize) {
      VacateOther(h, p, i, ptr, pageSize);
    }
    assert Held(h, p, i);
    VacateCovered(h, p, i);
  }

  /** The system hands out `length` bytes at `a`, clear of everything mapped. */
  ghost predicate Grants(h: Heap, a: nat, length: nat) {
    && a > 0 && a % 16 == 0
    && forall b :: b in Mappings(h) ==> a != b && Separate(a, length, b, Length(h, b))
  }

  function FreshPage(slot: nat, span: nat): Page
    requires slot > 0 && span >= START
  {
    Page(span, slot, 0, (span - START) / slot, Clear())
  }

  lemma FreshPageOk(slot: nat, pageSize: nat)
    requires Supported(pageSize) && IsSlot(slot) && Cuts(slot, pageSize)
    ensures PageOk(FreshPage(slot, Round(PAGE_BYTES, pageSize)), Round(PAGE_BYTES, pageSize))
  {
    var span := Round(PAGE_BYTES, pageSize);
    RoundUp(PAGE_BYTES, pageSize);
    var page := FreshPage(slot, span);
    assert Ones(page.occupied, page.capacity) == {};
  }

  /** A block whose page or mapping and header are left alone stays in order. */
  lemma BlockFrame(h: Heap, after: Heap, ptr: nat, pageSize: nat)
    requires pageSize > 0 && ptr in h.live && BlockOk(h, ptr, pageSize)
    requires ptr in after.live && after.live[ptr] == h.live[ptr]
    requires ptr - HEADER in after.headers && after.headers[ptr - HEADER] == h.headers[ptr - HEADER]
    requires h.live[ptr].Small? ==>
               h.live[ptr].page in after.pages && after.pages[h.live[ptr].page] == h.pages[h.live[ptr].page]
    requires h.live[ptr].Large? ==>
               ptr - HEADER in after.large && after.large[ptr - HEADER] == h.large[ptr - HEADER]
    ensures BlockOk(after, ptr, pageSize)
  {
  }

  function AddPage(h: Heap, p: nat, page: Page): Heap {
    Heap(h.pages[p := page], h.large, h.live, h.headers)
  }

  lemma AddPageApart(h: Heap, p: nat, page: Page)
    requires Apart(h) && Grants(h, p, page.mapping) && page.mapping > 0
    ensures Apart(AddPage(h, p, page))
  {
    var after := AddPage(h, p, page);
    assert Mappings(after) == Mappings(h) + {p};
    assert forall a :: a in Mappings(h) ==> Length(after, a) == Length(h, a);
    assert Length(after, p) == page.mapping;
    hide Length, Mappings;
  }

  lemma AddPageCovered(h: Heap, p: nat, page: Page)
    requires Covered(h) && p !in h.pages
    requires forall i: nat :: i < page.capacity <= MAX_SLOTS ==> !Bit(page.occupied, i)
    ensures Covered(AddPage(h, p, page))
  {
  }

  lemma AddPageOk(h: Heap, p: nat, slot: nat, pageSize: nat)
    requires HeapOk(h, pageSize) && Supported(pageSize) && IsSlot(slot) && Cuts(slot, pageSize)
    requires Grants(h, p, Round(PAGE_BYTES, pageSize))
    ensures Round(PAGE_BYTES, pageSize) >= PAGE_BYTES && p !in Mappings(h)
    ensures HeapOk(AddPage(h, p, FreshPage(slot, Round(PAGE_BYTES, pageSize))), pageSize)
  {
    RoundUp(PAGE_BYTES, pageSize);
    var page := FreshPage(slot, Round(PAGE_BYTES, pageSize));
    FreshPageOk(slot, pageSize);
    assert p !in Mappings(h);
    AddPageApart(h, p, page);
    AddPageCovered(h, p, page);
    forall ptr | ptr in h.live ensures BlockOk(AddPage(h, p, page), ptr, pageSize) {
      BlockFrame(h, AddPage(h, p, page), ptr, pageSize);
    }
  }

  function DropPage(h: Heap, p: nat): Heap {
    Heap(h.pages - {p}, h.large, h.live, h.headers)
  }

  lemma ApartSubset(h: Heap, after: Heap)
    requires Apart(h) && after.pages.Keys <= h.pages.Keys && after.large.Keys <= h.large.Keys
    requires forall p :: p in after.pages ==> after.pages[p] == h.pages[p]
    requires forall a :: a in after.large ==> after.large[a] == h.large[a]
    ensures Apart(after)
  {
    assert Mappings(after) <= Mappings(h);
    assert forall a :: a in Mappings(after) ==> Length(after, a) == Length(h, a);
  }

  lemma EmptyPageClear(page: Page, i: nat)
    requires PageOk(page, page.mapping) && page.count == 0 && i < page.capacity
    ensures !Bit(page.occupied, i)
  {
    assert i !in Ones(page.occupied, page.capacity);
  }

  lemma NobodyHome(h: Heap, p: nat, ptr: nat, pageSize: nat)
    requires pageSize > 0 && p in h.pages && PageOk(h.pages[p], h.pages[p].mapping) && h.pages[p].count == 0
    requires ptr in h.live && BlockOk(h, ptr, pageSize)
    ensures h.live[ptr].Small? ==> h.live[ptr].page != p
  {
    if h.live[ptr].Small? && h.live[ptr].page == p {
      EmptyPageClear(h.pages[p], h.live[ptr].index);
    }
  }

  /** An empty page can go. */
  lemma DropPageOk(h: Heap, p: nat, pageSize: nat)
    requires HeapOk(h, pageSize) && p in h.pages && h.pages[p].count == 0
    ensures HeapOk(DropPage(h, p), pageSize)
  {
    ApartSubset(h, DropPage(h, p));
    assert PageOk(h.pages[p], Round(PAGE_BYTES, pageSize));
    forall ptr | ptr in h.live ensures BlockOk(DropPage(h, p), ptr, pageSize) {
      NobodyHome(h, p, ptr, pageSize);
      BlockFrame(h, DropPage(h, p), ptr, pageSize);
    }
  }

  function AddLarge(h: Heap, a: nat, n: nat, length: nat): Heap {
    Heap(h.pages, h.large[a := length], h.live[a + HEADER := Large(n)], h.headers[a := Header(0, length)])
  }

  lemma GrantedIsFree(h: Heap, a: nat, length: nat, pageSize: nat)
    requires HeapOk(h, pageSize) && Grants(h, a, length) && length > HEADER
    ensures a + HEADER !in h.live
  {
    if a + HEADER in h.live {
      BlockInside(h, a + HEADER, pageSize);
    }
  }

  lemma AddLargeApart(h: Heap, a: nat, n: nat, length: nat)
    requires Apart(h) && Grants(h, a, length) && length > 0
    ensures Apart(AddLarge(h, a, n, length))
  {
    var after := AddLarge(h, a, n, length);
    assert Mappings(after) == Mappings(h) + {a};
    assert forall b :: b in Mappings(h) ==> Length(after, b) == Length(h, b);
  }

  lemma AddLargeCovered(h: Heap, a: nat, n: nat, length: nat)
    requires Covered(h) && a + HEADER !in h.live
    ensures Covered(AddLarge(h, a, n, length))
  {
  }

  lemma AddLargeBlocks(h: Heap, a: nat, n: nat, length: nat, pageSize: nat)
    requires pageSize > 0 && a % 16 == 0 && n + HEADER <= length == Round(n + HEADER, pageSize)
    requires a !in h.large && a + HEADER !in h.live
    requires forall ptr :: ptr in h.live ==> BlockOk(h, ptr, pageSize)
    ensures forall ptr :: ptr in AddLarge(h, a, n, length).live ==> BlockOk(AddLarge(h, a, n, length), ptr, pageSize)
  {
    HeaderAligned(a);
    forall ptr | ptr in h.live ensures BlockOk(AddLarge(h, a, n, length), ptr, pageSize) {
      BlockFrame(h, AddLarge(h, a, n, length), ptr, pageSize);
    }
  }

  lemma AddLargeOk(h: Heap, a: nat, n: nat, length: nat, pageSize: nat)
    requires HeapOk(h, pageSize) && Grants(h, a, length) && length == Round(n + HEADER, pageSize)
    requires n + HEADER > SMALL
    ensures HeapOk(AddLarge(h, a, n, length), pageSize) && a + HEADER !in h.live && a !in Mappings(h)
  {
    RoundUp(n + HEADER, pageSize);
    assert a !in Mappings(h);
    GrantedIsFree(h, a, length, pageSize);
    AddLargeApart(h, a, n, length);
    AddLargeCovered(h, a, n, length);
    AddLargeBlocks(h, a, n, length, pageSize);
  }

  function DropLarge(h: Heap, a: nat): Heap {
    Heap(h.pages, h.large - {a}, h.live - {a + HEADER}, h.headers)
  }

  lemma DropLargeCovered(h: Heap, a: nat)
    requires Covered(h) && a in h.large
    ensures Covered(DropLarge(h, a))
  {
  }

  lemma DropLargeOther(h: Heap, a: nat, ptr: nat, pageSize: nat)
    requires pageSize > 0 && ptr in h.live && BlockOk(h, ptr, pageSize) && a in h.large && ptr != a + HEADER
    ensures BlockOk(DropLarge(h, a), ptr, pageSize)
  {
    hide Round;
    BlockFrame(h, DropLarge(h, a), ptr, pageSize);
  }

  lemma DropLargeOk(h: Heap, a: nat, pageSize: nat)
    requires HeapOk(h, pageSize) && a in h.large
    ensures HeapOk(DropLarge(h, a), pageSize)
  {
    hide Round;
    ApartSubset(h, DropLarge(h, a));
    DropLargeCovered(h, a);
    forall ptr | ptr in h.live && ptr != a + HEADER ensures BlockOk(DropLarge(h, a), ptr, pageSize) {
      DropLargeOther(h, a, ptr, pageSize);
    }
  }
}
