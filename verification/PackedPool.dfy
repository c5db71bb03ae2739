/** The packed-page pool itself: allocation, release, the lists of partly full pages
    and the byte counters (experiments/native/packed-pages.h). */
module PackedPool {
  import opened PackedLists
  import opened PackedHeap

  // ----- counters

  ghost function Total<V>(m: map<nat, V>, size: V -> nat): nat {
    if m == map[] then 0
    else
      var k :| k in m;
      size(m[k]) + Total(m - {k}, size)
  }

  lemma {:induction false} TotalSplit<V>(m: map<nat, V>, k: nat, size: V -> nat)
    requires k in m
    ensures Total(m, size) == size(m[k]) + Total(m - {k}, size)
    decreases |m|
  {
    var j :| j in m && Total(m, size) == size(m[j]) + Total(m - {j}, size);
    if j != k {
      TotalSplit(m - {j}, k, size);
      TotalSplit(m - {k}, j, size);
      assert m - {j} - {k} == m - {k} - {j};
    }
  }

  lemma TotalAdd<V>(m: map<nat, V>, k: nat, v: V, size: V -> nat)
    requires k !in m
    ensures Total(m[k := v], size) == Total(m, size) + size(v)
  {
    TotalSplit(m[k := v], k, size);
    assert m[k := v] - {k} == m;
  }

  lemma TotalUpdate<V>(m: map<nat, V>, k: nat, v: V, size: V -> nat)
    requires k in m && size(v) == size(m[k])
    ensures Total(m[k := v], size) == Total(m, size)
  {
    TotalSplit(m, k, size);
    TotalSplit(m[k := v], k, size);
    assert m[k := v] - {k} == m - {k};
  }

  function BlockSize(b: Block): nat { b.n }

  function Mapped(page: Page): nat { page.mapping }

  function Itself(n: nat): nat { n }

  lemma CountAdd<V>(m: map<nat, V>, k: nat, v: V)
    requires k !in m
    ensures |m[k := v]| == |m| + 1
  {
    assert m[k := v].Keys == m.Keys + {k};
    assert |m[k := v]| == |m[k := v].Keys| && |m| == |m.Keys|;
  }

  lemma CountDrop<V>(m: map<nat, V>, k: nat)
    requires k in m
    ensures |m - {k}| == |m| - 1
  {
    assert (m - {k}).Keys == m.Keys - {k};
    assert |m - {k}| == |(m - {k}).Keys| && |m| == |m.Keys|;
  }

  datatype Counters = Counters(mapped: nat, peak: nat, requested: nat, maps: nat, unmaps: nat)

  /** The counters say what is mapped and what is in use. */
  ghost predicate Counted(h: Heap, k: Counters) {
    && k.mapped == Total(h.pages, Mapped) + Total(h.large, Itself)
    && k.mapped <= k.peak
    && k.requested == Total(h.live, BlockSize)
    && k.maps == k.unmaps + |h.pages| + |h.large|
  }

  lemma SameCount<V>(m: map<nat, V>, k: nat, v: V)
    requires k in m
    ensures |m[k := v]| == |m|
  {
    assert m[k := v].Keys == m.Keys;
    assert |m[k := v]| == |m[k := v].Keys| && |m| == |m.Keys|;
  }

  lemma CountedOccupy(h: Heap, k: Counters, p: nat, i: nat, n: nat)
    requires Counted(h, k) && p in h.pages && i < MAX_SLOTS && Address(p, h.pages[p], i) !in h.live
    ensures Counted(Occupy(h, p, i, n), k.(requested := k.requested + n))
  {
    TotalAdd(h.live, Address(p, h.pages[p], i), Small(n, p, i), BlockSize);
    SameCount(h.pages, p, Occupied(h.pages[p], i));
    TotalUpdate(h.pages, p, Occupied(h.pages[p], i), Mapped);
  }

  lemma CountedAddPage(h: Heap, k: Counters, p: nat, page: Page, peak: nat)
    requires Counted(h, k) && p !in h.pages && peak >= k.mapped + page.mapping
    ensures Counted(AddPage(h, p, page), k.(mapped := k.mapped + page.mapping, maps := k.maps + 1, peak := peak))
  {
    CountAdd(h.pages, p, page);
    TotalAdd(h.pages, p, page, Mapped);
  }

  lemma CountedAddLarge(h: Heap, k: Counters, a: nat, n: nat, length: nat, peak: nat)
    requires Counted(h, k) && a !in h.large && a + HEADER !in h.live && peak >= k.mapped + length
    ensures Counted(AddLarge(h, a, n, length),
                    k.(mapped := k.mapped + length, maps := k.maps + 1, peak := peak, requested := k.requested + n))
  {
    CountAdd(h.large, a, length);
    TotalAdd(h.large, a, length, Itself);
    TotalAdd(h.live, a + HEADER, Large(n), BlockSize);
  }

  lemma CountedVacate(h: Heap, k: Counters, p: nat, i: nat)
    requires Counted(h, k) && p in h.pages && i < MAX_SLOTS && h.pages[p].count > 0
    requires Address(p, h.pages[p], i) in h.live
    ensures h.live[Address(p, h.pages[p], i)].n <= k.requested
    ensures Counted(Vacate(h, p, i), k.(requested := k.requested - h.live[Address(p, h.pages[p], i)].n))
  {
    TotalSplit(h.live, Address(p, h.pages[p], i), BlockSize);
    SameCount(h.pages, p, Vacated(h.pages[p], i));
    TotalUpdate(h.pages, p, Vacated(h.pages[p], i), Mapped);
  }

  lemma CountedDropPage(h: Heap, k: Counters, p: nat)
    requires Counted(h, k) && p in h.pages
    ensures h.pages[p].mapping <= k.mapped
    ensures Counted(DropPage(h, p), k.(mapped := k.mapped - h.pages[p].mapping, unmaps := k.unmaps + 1))
  {
    CountDrop(h.pages, p);
    TotalSplit(h.pages, p, Mapped);
  }

  lemma CountedDropLarge(h: Heap, k: Counters, a: nat)
    requires Counted(h, k) && a in h.large && a + HEADER in h.live
    ensures h.large[a] <= k.mapped && h.live[a + HEADER].n <= k.requested
    ensures Counted(DropLarge(h, a),
                    k.(mapped := k.mapped - h.large[a], unmaps := k.unmaps + 1,
                       requested := k.requested - h.live[a + HEADER].n))
  {
    CountDrop(h.large, a);
    TotalSplit(h.large, a, Itself);
    TotalSplit(h.live, a + HEADER, BlockSize);
  }

  // ----- list membership

  predicate Partial(page: Page, c: nat)
    requires c < CLASSES
  {
    page.slot == Slot(c) && page.count < page.capacity
  }

  /** Each list holds exactly the partly full pages of its class. */
  ghost predicate Membership(pages: map<nat, Page>, lists: seq<seq<nat>>) {
    && |lists| == CLASSES
    && forall c, p :: 0 <= c < CLASSES ==> (p in lists[c] <==> p in pages && Partial(pages[p], c))
  }

  /** What a change to one page of class `c` has to respect. */
  lemma MembershipChange(pages: map<nat, Page>, lists: seq<seq<nat>>,
                         after: map<nat, Page>, now: seq<seq<nat>>, p: nat, c: nat)
    requires Membership(pages, lists) && c < CLASSES && |now| == CLASSES
    requires forall q :: q != p ==> (q in after <==> q in pages) && (q in pages ==> after[q] == pages[q])
    requires p in pages ==> pages[p].slot == Slot(c)
    requires p in after ==> after[p].slot == Slot(c)
    requires forall d :: 0 <= d < CLASSES && d != c ==> now[d] == lists[d]
    requires forall q :: q != p ==> (q in now[c] <==> q in lists[c])
    requires p in now[c] <==> p in after && Partial(after[p], c)
    ensures Membership(after, now)
  {
    forall d, q | 0 <= d < CLASSES ensures q in now[d] <==> q in after && Partial(after[q], d) {
      if d != c {
        assert Slot(d) != Slot(c);
      }
    }
  }

  /** The lists after `p` left, or joined, the list of class `c`. */
  ghost predicate Left(was: seq<seq<nat>>, now: seq<seq<nat>>, p: nat, c: nat) {
    && |was| == |now| == CLASSES && c < CLASSES
    && (forall d :: 0 <= d < CLASSES && d != c ==> now[d] == was[d])
    && (forall q :: q in now[c] <==> q in was[c] && q != p)
  }

  ghost predicate Joined(was: seq<seq<nat>>, now: seq<seq<nat>>, p: nat, c: nat) {
    && |was| == |now| == CLASSES && c < CLASSES
    && now == was[c := [p] + was[c]]
  }

  // ----- the pool as a value

  datatype State = State(heap: Heap, links: map<nat, Links>, available: seq<nat>,
                         lists: seq<seq<nat>>, counters: Counters)

  ghost predicate WellLinked(s: State) {
    Linked(s.links, s.available, s.lists) && s.links.Keys == s.heap.pages.Keys
  }

  /** Everything but "no page is empty". */
  ghost predicate Sound(s: State, pageSize: nat) {
    && Supported(pageSize)
    && HeapOk(s.heap, pageSize)
    && Counted(s.heap, s.counters)
    && WellLinked(s)
    && Membership(s.heap.pages, s.lists)
  }

  ghost predicate InUse(pages: map<nat, Page>) {
    forall q :: q in pages ==> pages[q].count > 0
  }

  /** No page but possibly `p` is empty. */
  ghost predicate InUseBut(pages: map<nat, Page>, p: nat) {
    forall q :: q in pages && q != p ==> pages[q].count > 0
  }

  /** A page on a list has a vacant slot, and where its slots are. */
  lemma ListedPage(s: State, p: nat, c: nat, pageSize: nat)
    requires Sound(s, pageSize) && c < CLASSES && p in s.lists[c]
    ensures p in s.heap.pages && Partial(s.heap.pages[p], c) && PageOk(s.heap.pages[p], s.heap.pages[p].mapping)
  {
  }

  lemma SlotTaken(s: State, after: State, p: nat, c: nat, i: nat, n: nat, pageSize: nat)
    requires Sound(s, pageSize) && c < CLASSES && p in s.lists[c] && p in s.heap.pages && Fits(n, Slot(c))
    requires i < s.heap.pages[p].capacity <= MAX_SLOTS && !Bit(s.heap.pages[p].occupied, i)
    requires after.heap == Occupy(s.heap, p, i, n)
    requires after.counters == s.counters.(requested := s.counters.requested + n)
    requires WellLinked(after)
    requires if s.heap.pages[p].count + 1 == s.heap.pages[p].capacity then Left(s.lists, after.lists, p, c)
             else after.lists == s.lists
    ensures Sound(after, pageSize) && Address(p, s.heap.pages[p], i) !in s.heap.live
  {
    hide HeapOk, Counted, Linked;
    ListedPage(s, p, c, pageSize);
    OccupyOk(s.heap, p, i, n, pageSize);
    CountedOccupy(s.heap, s.counters, p, i, n);
    MembershipChange(s.heap.pages, s.lists, after.heap.pages, after.lists, p, c);
  }

  lemma PageAdded(s: State, after: State, p: nat, c: nat, page: Page, pageSize: nat)
    requires Sound(s, pageSize) && c < CLASSES && Grants(s.heap, p, Round(PAGE_BYTES, pageSize))
    requires Round(PAGE_BYTES, pageSize) >= PAGE_BYTES && page == FreshPage(Slot(c), Round(PAGE_BYTES, pageSize))
    requires Cuts(Slot(c), pageSize)
    requires after.heap == AddPage(s.heap, p, page)
    requires after.counters == s.counters.(mapped := s.counters.mapped + page.mapping,
                                           maps := s.counters.maps + 1, peak := after.counters.peak)
    requires after.counters.peak >= after.counters.mapped
    requires Linked(after.links, after.available, after.lists) && after.links.Keys == s.links.Keys + {p}
    requires Joined(s.lists, after.lists, p, c)
    ensures Sound(after, pageSize)
  {
    hide Sound, HeapOk, Counted, Linked, Round, Grants, Membership, Supported, Cuts;
    SoundHeap(s, pageSize);
    SoundLists(s, pageSize);
    PageAddedHeap(s.heap, s.counters, p, c, page, after.counters.peak, pageSize);
    PageJoins(s.heap.pages, s.lists, p, c, page, after.lists);
    SoundFrom(after, pageSize);
  }

  lemma PageAddedHeap(h: Heap, k: Counters, p: nat, c: nat, page: Page, peak: nat, pageSize: nat)
    requires HeapOk(h, pageSize) && Counted(h, k) && Supported(pageSize) && c < CLASSES && Cuts(Slot(c), pageSize)
    requires Grants(h, p, Round(PAGE_BYTES, pageSize)) && Round(PAGE_BYTES, pageSize) >= PAGE_BYTES
    requires page == FreshPage(Slot(c), Round(PAGE_BYTES, pageSize)) && peak >= k.mapped + page.mapping
    ensures p !in h.pages && Partial(page, c) && HeapOk(AddPage(h, p, page), pageSize)
    ensures Counted(AddPage(h, p, page), k.(mapped := k.mapped + page.mapping, maps := k.maps + 1, peak := peak))
  {
    hide HeapOk, Counted, Round, Grants, Supported, Cuts;
    AddPageOk(h, p, Slot(c), pageSize);
    FreshPageOk(Slot(c), pageSize);
    CountedAddPage(h, k, p, page, peak);
  }

  lemma SoundHeap(s: State, pageSize: nat)
    requires Sound(s, pageSize)
    ensures HeapOk(s.heap, pageSize) && Counted(s.heap, s.counters)
  {
    hide HeapOk, Counted, Linked, Membership, Supported;
  }

  lemma SoundLists(s: State, pageSize: nat)
    requires Sound(s, pageSize)
    ensures Supported(pageSize) && s.links.Keys == s.heap.pages.Keys && Membership(s.heap.pages, s.lists)
  {
    hide HeapOk, Counted, Linked, Membership, Supported;
  }

  lemma SoundFrom(s: State, pageSize: nat)
    requires Supported(pageSize) && HeapOk(s.heap, pageSize) && Counted(s.heap, s.counters)
    requires WellLinked(s) && Membership(s.heap.pages, s.lists)
    ensures Sound(s, pageSize)
  {
    hide HeapOk, Counted, Linked, Membership, Supported;
  }

  lemma PageJoins(pages: map<nat, Page>, lists: seq<seq<nat>>, p: nat, c: nat, page: Page, now: seq<seq<nat>>)
    requires Membership(pages, lists) && c < CLASSES && p !in pages && Partial(page, c)
    requires Joined(lists, now, p, c)
    ensures Membership(pages[p := page], now)
  {
    MembershipChange(pages, lists, pages[p := page], now, p, c);
  }

  lemma GrantIsUnlisted(s: State, p: nat, pageSize: nat)
    requires Sound(s, pageSize) && Grants(s.heap, p, Round(PAGE_BYTES, pageSize))
    ensures Round(PAGE_BYTES, pageSize) >= PAGE_BYTES && p != 0 && p !in s.heap.pages
    ensures forall d :: 0 <= d < CLASSES ==> p !in s.lists[d]
  {
    RoundUp(PAGE_BYTES, pageSize);
    assert p !in Mappings(s.heap);
  }

  lemma LinkedWithout(links: map<nat, Links>, available: seq<nat>, lists: seq<seq<nat>>, p: nat)
    requires Linked(links, available, lists) && forall d :: 0 <= d < CLASSES ==> p !in lists[d]
    ensures Linked(links - {p}, available, lists)
  {
    forall d | 0 <= d < CLASSES ensures Chain(links - {p}, available[d], lists[d]) {
      ChainFrame(links, links - {p}, available[d], lists[d]);
    }
  }

  /** `ptr` is slot `i` of page `p`. */
  ghost predicate At(h: Heap, ptr: nat, p: nat, i: nat) {
    && p in h.pages && p != 0 && PageOk(h.pages[p], h.pages[p].mapping)
    && i < h.pages[p].capacity && Bit(h.pages[p].occupied, i) && h.pages[p].count > 0
    && ptr == Address(p, h.pages[p], i)
  }

  lemma SmallBlockFound(h: Heap, ptr: nat, pageSize: nat)
    requires HeapOk(h, pageSize) && ptr in h.live && h.live[ptr].Small?
    ensures ptr >= HEADER && ptr - HEADER in h.headers
    ensures h.headers[ptr - HEADER] == Header(h.live[ptr].page, 0)
    ensures At(h, ptr, h.live[ptr].page, h.live[ptr].index)
  {
    var p, i := h.live[ptr].page, h.live[ptr].index;
    assert BlockOk(h, ptr, pageSize);
    assert p in Mappings(h);
    assert PageOk(h.pages[p], Round(PAGE_BYTES, pageSize));
    hide HeapOk, Round;
    VacatedOk(h.pages[p], i, h.pages[p].mapping);
  }

  /** The slot index is recovered from the addresses. */
  lemma IndexFound(h: Heap, ptr: nat, p: nat, i: nat)
    requires At(h, ptr, p, i)
    ensures ptr - HEADER - p - START >= 0 && h.pages[p].slot > 0
    ensures (ptr - HEADER - p - START) / h.pages[p].slot == i
    ensures h.pages[p].slot == Slot(ClassOf(h.pages[p].slot))
  {
    IndexBack(h.pages[p].slot, i);
  }

  lemma LargeBlockFound(h: Heap, ptr: nat, pageSize: nat)
    requires HeapOk(h, pageSize) && ptr in h.live && h.live[ptr].Large?
    ensures ptr >= HEADER && ptr - HEADER in h.headers && ptr - HEADER in h.large
    ensures h.headers[ptr - HEADER] == Header(0, h.large[ptr - HEADER])
  {
    assert BlockOk(h, ptr, pageSize);
  }

  /** What the lists have to do with blocks is only through the pages. */
  lemma SoundAgain(s: State, after: State, pageSize: nat)
    requires Sound(s, pageSize) && HeapOk(after.heap, pageSize) && Counted(after.heap, after.counters)
    requires after.links == s.links && after.available == s.available && after.lists == s.lists
    requires after.heap.pages == s.heap.pages
    ensures Sound(after, pageSize)
  {
    hide HeapOk, Counted, Linked, Membership, Supported;
  }

  lemma LargeReturned(s: State, after: State, a: nat, pageSize: nat)
    requires Sound(s, pageSize) && a in s.heap.large && a + HEADER in s.heap.live
    requires after.heap == DropLarge(s.heap, a)
    requires after.counters.mapped + s.heap.large[a] == s.counters.mapped
    requires after.counters.requested + s.heap.live[a + HEADER].n == s.counters.requested
    requires after.counters == s.counters.(mapped := after.counters.mapped, unmaps := s.counters.unmaps + 1,
                                           requested := after.counters.requested)
    requires after.links == s.links && after.available == s.available && after.lists == s.lists
    ensures Sound(after, pageSize)
  {
    hide Sound, HeapOk, Counted;
    SoundHeap(s, pageSize);
    DropLargeOk(s.heap, a, pageSize);
    CountedDropLarge(s.heap, s.counters, a);
    SoundAgain(s, after, pageSize);
  }

  lemma LargeAdded(s: State, after: State, a: nat, n: nat, length: nat, pageSize: nat)
    requires Sound(s, pageSize) && Grants(s.heap, a, length) && n + HEADER > SMALL && pageSize > 0
    requires length == Round(n + HEADER, pageSize) && after.counters.peak >= s.counters.mapped + length
    requires after.heap == AddLarge(s.heap, a, n, length)
    requires after.counters == s.counters.(mapped := s.counters.mapped + length, maps := s.counters.maps + 1,
                                           peak := after.counters.peak, requested := s.counters.requested + n)
    requires after.links == s.links && after.available == s.available && after.lists == s.lists
    ensures Sound(after, pageSize) && a + HEADER !in s.heap.live
  {
    hide Sound, HeapOk, Counted, Round, Grants;
    SoundHeap(s, pageSize);
    AddLargeOk(s.heap, a, n, length, pageSize);
    CountedAddLarge(s.heap, s.counters, a, n, length, after.counters.peak);
    SoundAgain(s, after, pageSize);
  }

  lemma SlotReturned(s: State, after: State, p: nat, c: nat, i: nat, pageSize: nat)
    requires Sound(s, pageSize) && c < CLASSES && p in s.heap.pages && s.heap.pages[p].slot == Slot(c)
    requires i < s.heap.pages[p].capacity <= MAX_SLOTS && Bit(s.heap.pages[p].occupied, i) && s.heap.pages[p].count > 0
    requires Address(p, s.heap.pages[p], i) in s.heap.live
    requires after.heap == Vacate(s.heap, p, i)
    requires after.counters.requested + s.heap.live[Address(p, s.heap.pages[p], i)].n == s.counters.requested
    requires after.counters == s.counters.(requested := after.counters.requested)
    requires WellLinked(after)
    requires if s.heap.pages[p].count == s.heap.pages[p].capacity then Joined(s.lists, after.lists, p, c)
             else after.lists == s.lists
    ensures Sound(after, pageSize)
  {
    hide HeapOk, Counted, Linked, Round, Supported, Address;
    VacateOk(s.heap, p, i, pageSize);
    CountedVacate(s.heap, s.counters, p, i);
    SlotBack(s.heap, s.lists, after.lists, p, c, i, pageSize);
  }

  lemma SlotBack(h: Heap, lists: seq<seq<nat>>, now: seq<seq<nat>>, p: nat, c: nat, i: nat, pageSize: nat)
    requires HeapOk(h, pageSize) && Membership(h.pages, lists) && c < CLASSES && p in h.pages
    requires h.pages[p].slot == Slot(c) && h.pages[p].count > 0 && i < h.pages[p].capacity <= MAX_SLOTS
    requires if h.pages[p].count == h.pages[p].capacity then Joined(lists, now, p, c) else now == lists
    ensures Membership(h.pages[p := Vacated(h.pages[p], i)], now)
  {
    assert PageOk(h.pages[p], Round(PAGE_BYTES, pageSize));
    hide HeapOk, Round;
    OnesBound(h.pages[p].occupied, h.pages[p].capacity);
    MembershipChange(h.pages, lists, h.pages[p := Vacated(h.pages[p], i)], now, p, c);
  }

  lemma PageReturned(s: State, after: State, p: nat, c: nat, pageSize: nat)
    requires Sound(s, pageSize) && c < CLASSES && p in s.heap.pages && s.heap.pages[p].slot == Slot(c)
    requires s.heap.pages[p].count == 0 && after.heap == DropPage(s.heap, p)
    requires after.counters.mapped + s.heap.pages[p].mapping == s.counters.mapped
    requires after.counters == s.counters.(mapped := after.counters.mapped, unmaps := s.counters.unmaps + 1)
    requires WellLinked(after) && Left(s.lists, after.lists, p, c)
    ensures Sound(after, pageSize)
  {
    hide HeapOk, Counted, Linked, Round, Supported;
    DropPageOk(s.heap, p, pageSize);
    CountedDropPage(s.heap, s.counters, p);
    MembershipChange(s.heap.pages, s.lists, after.heap.pages, after.lists, p, c);
  }

  lemma ClearedFromLists(pages: map<nat, Page>, lists: seq<seq<nat>>, now: seq<seq<nat>>, p: nat, c: nat)
    requires Membership(pages, lists) && Left(lists, now, p, c) && p in pages && pages[p].slot == Slot(c)
    ensures forall d :: 0 <= d < CLASSES ==> p !in now[d]
  {
    forall d | 0 <= d < CLASSES && d != c ensures p !in lists[d] {
      assert Slot(d) != Slot(c);
    }
  }

  /** An empty page is on its list. */
  lemma EmptyPageListed(s: State, p: nat, c: nat, pageSize: nat)
    requires Sound(s, pageSize) && c < CLASSES && p in s.heap.pages && s.heap.pages[p].slot == Slot(c)
    requires s.heap.pages[p].count == 0
    ensures p in s.lists[c] && s.heap.pages[p].mapping <= s.counters.mapped
  {
    assert PageOk(s.heap.pages[p], Round(PAGE_BYTES, pageSize));
    CountedDropPage(s.heap, s.counters, p);
  }

  lemma FullPageUnlisted(s: State, p: nat, pageSize: nat)
    requires Sound(s, pageSize) && p in s.heap.pages && s.heap.pages[p].count == s.heap.pages[p].capacity
    ensures p != 0 && forall d :: 0 <= d < CLASSES ==> p !in s.lists[d]
  {
    assert p in Mappings(s.heap);
  }

  /** Once everything is freed nothing is mapped, nothing is counted and every list is empty. */
  lemma AllFreed(s: State, pageSize: nat)
    requires Sound(s, pageSize) && InUse(s.heap.pages) && s.heap.live == map[]
    ensures s.heap.pages == map[] && s.heap.large == map[]
    ensures s.counters.mapped == 0 && s.counters.requested == 0 && s.counters.maps == s.counters.unmaps
    ensures forall c :: 0 <= c < CLASSES ==> s.lists[c] == [] && s.available[c] == 0
  {
    forall p ensures p !in s.heap.pages {
      if p in s.heap.pages {
        UsedPageHasBlock(s.heap, p, pageSize);
      }
    }
    assert forall a :: a in s.heap.large ==> a + HEADER in s.heap.live;
    forall c | 0 <= c < CLASSES ensures s.lists[c] == [] && s.available[c] == 0 {
      if s.lists[c] != [] {
        HeadIsMember(s.lists[c]);
      }
      assert Chain(s.links, s.available[c], s.lists[c]);
    }
  }

  lemma HeadIsMember(l: seq<nat>)
    requires l != []
    ensures l[0] in l
  {
  }

  lemma UsedPageHasBlock(h: Heap, p: nat, pageSize: nat)
    requires HeapOk(h, pageSize) && p in h.pages && h.pages[p].count > 0
    ensures h.live != map[]
  {
    var page := h.pages[p];
    assert PageOk(page, Round(PAGE_BYTES, pageSize));
    var i :| i in Ones(page.occupied, page.capacity);
    assert Held(h, p, i);
  }

  lemma RequestedCovers(s: State, ptr: nat, pageSize: nat)
    requires Sound(s, pageSize) && ptr in s.heap.live
    ensures s.heap.live[ptr].n <= s.counters.requested
  {
    hide HeapOk, Linked, Membership;
    TotalSplit(s.heap.live, ptr, BlockSize);
  }

  lemma MappedCovers(s: State, a: nat, pageSize: nat)
    requires Sound(s, pageSize) && a in s.heap.large
    ensures s.heap.large[a] <= s.counters.mapped
  {
    hide HeapOk, Linked, Membership;
    TotalSplit(s.heap.large, a, Itself);
  }

  lemma PageSizePositive(s: State, pageSize: nat)
    requires Sound(s, pageSize)
    ensures pageSize > 0 && |s.available| == CLASSES
  {
  }

  /** The head of a list is its first page, and zero exactly when the list is empty. */
  lemma HeadListed(s: State, c: nat, pageSize: nat)
    requires Sound(s, pageSize) && c < CLASSES
    ensures |s.available| == |s.lists| == CLASSES
    ensures s.available[c] == 0 <==> s.lists[c] == []
    ensures s.available[c] != 0 ==> s.available[c] in s.lists[c]
  {
    assert Chain(s.links, s.available[c], s.lists[c]);
  }

  /** An allocation of `n` bytes has to ask the system for memory. */
  predicate NeedsMapping(n: nat, available: seq<nat>)
    requires |available| == CLASSES
  {
    n + HEADER > SMALL || available[ClassOf(n + HEADER)] == 0
  }

  /** An allocation of `n` bytes ends the process: it is too large to be rounded up, or it needs
      a page, gets the memory, and cannot cut it into slots. */
  predicate Aborts(n: nat, pageSize: nat, available: seq<nat>, a: nat)
    requires |available| == CLASSES && pageSize > 0
  {
    if n + HEADER > SMALL then n + HEADER > SIZE_MAX - pageSize + 1
    else a != 0 && NeedsMapping(n, available) && !Cuts(Slot(ClassOf(n + HEADER)), pageSize)
  }

  datatype Outcome = Null | Aborted | Block(ptr: nat)

  /** How much memory an allocation of `n` bytes maps, if it maps any. */
  function Wanted(n: nat, pageSize: nat): nat
    requires pageSize > 0
  {
    if n + HEADER > SMALL then Round(n + HEADER, pageSize) else Round(PAGE_BYTES, pageSize)
  }

  /** The smallest class whose slots hold `n` bytes, or the largest class. */
  function ClassOf(n: nat): (c: nat)
    ensures c < CLASSES
    ensures 16 <= n <= 4096 ==> Fits(n - 16, Slot(c))
  {
    if n <= 32 then 0 else if n <= 64 then 1 else if n <= 128 then 2 else if n <= 256 then 3
    else if n <= 512 then 4 else if n <= 1024 then 5 else if n <= 2048 then 6 else 7
  }

  method Class(n: nat) returns (c: nat)
    ensures c == ClassOf(n)
  {
    c := 0;
    var size := 32;
    while size < n && c < 7
      invariant c <= 7 && size == Slot(c)
      invariant c > 0 ==> Slot(c - 1) < n
    {
      size := size * 2;
      c := c + 1;
    }
  }

  ghost predicate FirstClear(o: Bitmap, i: nat) {
    i < MAX_SLOTS && !Bit(o, i) && forall j :: 0 <= j < i ==> Bit(o, j)
  }

  /** The first slot that is not occupied. */
  method FirstVacant(page: Page) returns (i: nat)
    requires PageOk(page, page.mapping) && page.count < page.capacity
    ensures i < page.capacity && FirstClear(page.occupied, i)
  {
    OnesBound(page.occupied, page.capacity);
    i := 0;
    while i < page.capacity && Bit(page.occupied, i)
      invariant i <= page.capacity
      invariant forall j :: 0 <= j < i ==> Bit(page.occupied, j)
    {
      i := i + 1;
    }
  }

  function Higher(a: nat, b: nat): nat {
    if a >= b then a else b
  }

  /** `n` bytes were handed out, and `length` bytes mapped for them if the system had to be `asked`. */
  ghost predicate Charged(was: Counters, now: Counters, n: nat, asked: bool, length: nat) {
    && now.requested == was.requested + n && now.unmaps == was.unmaps
    && now.mapped == was.mapped + (if asked then length else 0) && now.maps == was.maps + (if asked then 1 else 0)
    && now.peak == Higher(was.peak, now.mapped)
  }

  /** Where a block of `n` bytes goes: alone into fresh memory when it does not fit a slot with
      its header of two words, else into the first slot of a fresh page, which begins behind six
      words and the bitmap, or into the first clear slot of the page its list offers. */
  ghost predicate Placed(b: PackedHeap.Block, ptr: nat, n: nat, pages: map<nat, Page>, available: seq<nat>, a: nat)
    requires |available| == CLASSES
  {
    var offered := available[ClassOf(n + 16)];
    if n + 16 > 4096 then b == Large(n) && ptr == a + 2 * 8
    else if offered == 0 then b == Small(n, a, 0) && ptr == a + 6 * 8 + WORDS * 8 + 2 * 8
    else && b.Small? && b.n == n && b.page == offered
         && offered in pages && FirstClear(pages[offered].occupied, b.index)
  }

  /** A slot taken from the page at hand, which is fresh if the list offered none. */
  lemma PlacedIn(b: PackedHeap.Block, ptr: nat, n: nat, pages: map<nat, Page>, ready: map<nat, Page>,
                 available: seq<nat>, a: nat, p: nat)
    requires |available| == CLASSES && n + HEADER <= SMALL && b.Small? && b.n == n && b.page == p && p in ready
    requires FirstClear(ready[p].occupied, b.index) && ptr == Address(p, ready[p], b.index)
    requires if available[ClassOf(n + HEADER)] == 0 then p == a && ready[p].occupied == Clear()
             else p == available[ClassOf(n + HEADER)] && ready == pages
    ensures Placed(b, ptr, n, pages, available, a)
  {
    hide ClassOf, Clear;
    if available[ClassOf(n + HEADER)] == 0 {
      assert !Bit(Clear(), 0);
      assert b.index == 0;
    }
  }

  /** The peak has seen what is mapped. */
  lemma PeakCovers(s: State, pageSize: nat)
    requires Sound(s, pageSize)
    ensures s.counters.peak == Higher(s.counters.peak, s.counters.mapped)
  {
    hide HeapOk, Linked, Membership, Supported;
  }

  class Pool {
    const pageSize: nat
    var pages: map<nat, Page>
    var links: map<nat, Links>
    var headers: map<nat, Header>
    var available: seq<nat>
    var counters: Counters
    ghost var large: map<nat, nat>
    ghost var live: map<nat, PackedHeap.Block>
    ghost var lists: seq<seq<nat>>

    ghost function Value(): State
      reads this
    {
      State(Heap(pages, large, live, headers), links, available, lists, counters)
    }

    /** Only pages in use are kept. */
    ghost predicate Valid()
      reads this
    {
      Sound(Value(), pageSize) && InUse(pages)
    }

    constructor (size: nat)
      requires Supported(size)
      ensures Valid() && pageSize == size && live == map[]
      ensures counters == Counters(0, 0, 0, 0, 0)
    {
      pageSize := size;
      pages, links, headers := map[], map[], map[];
      available := seq(CLASSES, _ => 0);
      counters := Counters(0, 0, 0, 0, 0);
      large, live, lists := map[], map[], seq(CLASSES, _ => []);
    }

    method Link(p: nat, c: nat)
      requires Linked(links, available, lists) && c < CLASSES && p != 0
      requires forall d :: 0 <= d < CLASSES ==> p !in lists[d]
      modifies this`links, this`available, this`lists
      ensures Linked(links, available, lists) && Joined(old(lists), lists, p, c)
      ensures links.Keys == old(links).Keys + {p}
    {
      LinkKeepsLinked(links, available, lists, p, c);
      var memory := links;
      var next := available[c];
      memory := memory[p := Links(0, next)];
      if next != 0 {
        memory := memory[next := memory[next].(prev := p)];
      }
      assert memory == Pushed(links, next, p);
      links := memory;
      available := available[c := p];
      lists := lists[c := [p] + lists[c]];
    }

    method Unlink(p: nat, c: nat)
      requires Linked(links, available, lists) && c < CLASSES && p in lists[c]
      modifies this`links, this`available, this`lists
      ensures Linked(links, available, lists) && Left(old(lists), lists, p, c)
      ensures links.Keys == old(links).Keys
    {
      ghost var k :| 0 <= k < |lists[c]| && lists[c][k] == p;
      UnlinkKeepsLinked(links, available, lists, k, c);
      WithoutMembers(lists[c], k);
      DroppedKeys(links, p);
      var memory, heads := links, available;
      var Links(prev, next) := memory[p];
      if prev != 0 {
        memory := memory[prev := memory[prev].(next := next)];
      } else {
        assert heads[c] == p;
        heads := heads[c := next];
      }
      if next != 0 {
        memory := memory[next := memory[next].(prev := prev)];
      }
      memory := memory[p := Links(0, 0)];
      assert memory == Dropped(links, p);
      links, available := memory, heads;
      lists := lists[c := Without(lists[c], k)];
    }

    method CountMapping(n: nat)
      modifies this`counters
      ensures counters == old(counters).(mapped := old(counters).mapped + n, maps := old(counters).maps + 1,
                                         peak := counters.peak)
      ensures counters.peak == Higher(old(counters).peak, counters.mapped)
    {
      counters := counters.(mapped := counters.mapped + n, maps := counters.maps + 1);
      if counters.mapped > counters.peak {
        counters := counters.(peak := counters.mapped);
      }
    }

    /** Map a page for class `c` and put it on the list of that class. */
    method NewPage(c: nat, a: nat)
      requires Valid() && c < CLASSES && Cuts(Slot(c), pageSize) && Grants(Value().heap, a, Round(PAGE_BYTES, pageSize))
      modifies this
      ensures Sound(Value(), pageSize) && InUseBut(pages, a)
      ensures Joined(old(lists), lists, a, c) && a in pages && pages[a].occupied == Clear()
      ensures live == old(live)
      ensures counters == old(counters).(mapped := old(counters).mapped + Round(PAGE_BYTES, pageSize),
                                         maps := old(counters).maps + 1, peak := counters.peak)
      ensures counters.peak == Higher(old(counters).peak, counters.mapped)
    {
      hide HeapOk, Counted, Linked, Membership, Grants, Round, Cuts;
      ghost var s := Value();
      GrantIsUnlisted(s, a, pageSize);
      var page := FreshPage(Slot(c), Round(PAGE_BYTES, pageSize));
      CountMapping(page.mapping);
      pages := pages[a := page];
      Link(a, c);
      PageAdded(s, Value(), a, c, page, pageSize);
    }

    /** Hand out the first vacant slot of a partly full page. */
    method TakeSlot(p: nat, c: nat, n: nat) returns (ptr: nat)
      requires Sound(Value(), pageSize) && InUseBut(pages, p)
      requires c < CLASSES && p in lists[c] && Fits(n, Slot(c))
      modifies this
      ensures Valid()
      ensures ptr !in old(live) && ptr in live && live == old(live)[ptr := live[ptr]] && live[ptr].n == n
      ensures live[ptr].Small? && live[ptr].page == p && p in old(pages)
      ensures FirstClear(old(pages)[p].occupied, live[ptr].index)
      ensures ptr == Address(p, old(pages)[p], live[ptr].index)
      ensures counters == old(counters).(requested := old(counters).requested + n)
    {
      hide HeapOk, Counted, Linked, Membership, Supported, Round, Address;
      ghost var s := Value();
      ListedPage(s, p, c, pageSize);
      var page := pages[p];
      var index := FirstVacant(page);
      pages := pages[p := Occupied(page, index)];
      if page.count + 1 == page.capacity {
        Unlink(p, c);
      }
      ptr := Address(p, page, index);
      headers := headers[ptr - HEADER := Header(p, 0)];
      live := live[ptr := Small(n, p, index)];
      counters := counters.(requested := counters.requested + n);
      SlotTaken(s, Value(), p, c, index, n, pageSize);
    }

    /** Give a page with no blocks left back to the system. */
    method ReleasePage(p: nat, c: nat)
      requires Sound(Value(), pageSize) && InUseBut(pages, p)
      requires c < CLASSES && p in pages && pages[p].slot == Slot(c) && pages[p].count == 0
      modifies this
      ensures Valid() && live == old(live)
      ensures counters.requested == old(counters).requested && counters.unmaps == old(counters).unmaps + 1
      ensures counters.peak == old(counters).peak
    {
      hide HeapOk, Counted, Linked, Membership, Supported, Round;
      ghost var s := Value();
      EmptyPageListed(s, p, c, pageSize);
      Unlink(p, c);
      ClearedFromLists(s.heap.pages, s.lists, lists, p, c);
      LinkedWithout(links, available, lists, p);
      counters := counters.(mapped := counters.mapped - pages[p].mapping, unmaps := counters.unmaps + 1);
      pages, links := pages - {p}, links - {p};
      PageReturned(s, Value(), p, c, pageSize);
    }

    /** Take back a slot; the page goes once it is empty. */
    method ReturnSlot(ptr: nat, n: nat, p: nat, ghost index: nat)
      requires Valid() && At(Value().heap, ptr, p, index) && ptr in live
      requires live[ptr].n == n <= counters.requested
      modifies this
      ensures Valid() && live == old(live) - {ptr}
      ensures counters.requested == old(counters).requested - n && counters.peak == old(counters).peak
    {
      hide HeapOk, Counted, Linked, Membership, Supported, Round, Address;
      ghost var s := Value();
      IndexFound(s.heap, ptr, p, index);
      var page := pages[p];
      var i := (ptr - HEADER - p - START) / page.slot;
      counters := counters.(requested := counters.requested - n);
      pages := pages[p := Vacated(page, i)];
      live := live - {ptr};
      var c := Class(page.slot);
      if page.count == page.capacity {
        FullPageUnlisted(s, p, pageSize);
        Link(p, c);
      }
      SlotReturned(s, Value(), p, c, i, pageSize);
      if pages[p].count == 0 {
        ReleasePage(p, c);
      }
    }

    /** Give back a block that was handed out for `n` bytes. */
    method Free(ptr: nat, n: nat)
      requires Valid() && ptr in live && live[ptr].n == n
      modifies this
      ensures Valid() && live == old(live) - {ptr}
      ensures counters.requested == old(counters).requested - n && counters.peak == old(counters).peak
    {
      hide HeapOk, Counted, Linked, Membership, Supported, Round, Address;
      ghost var s := Value();
      RequestedCovers(s, ptr, pageSize);
      if live[ptr].Small? {
        SmallBlockFound(s.heap, ptr, pageSize);
      } else {
        LargeBlockFound(s.heap, ptr, pageSize);
        MappedCovers(s, ptr - HEADER, pageSize);
      }
      var header := headers[ptr - HEADER];
      if header.page == 0 {
        counters := counters.(requested := counters.requested - n, mapped := counters.mapped - header.mapping,
                              unmaps := counters.unmaps + 1);
        large, live := large - {ptr - HEADER}, live - {ptr};
        LargeReturned(s, Value(), ptr - HEADER, pageSize);
      } else {
        ReturnSlot(ptr, n, header.page, live[ptr].index);
      }
    }

    /** Hand out `n` bytes. `a` is what the system answers if it is asked for memory, zero being failure. */
    method Alloc(n: nat, a: nat) returns (r: Outcome)
      requires Valid() && (a != 0 ==> Grants(Value().heap, a, Wanted(n, pageSize)))
      modifies this
      ensures Valid()
      ensures r == Aborted <==> n <= SIZE_MAX - HEADER && Aborts(n, pageSize, old(available), a)
      ensures r == Null <==> n > SIZE_MAX - HEADER || (a == 0 && r != Aborted && NeedsMapping(n, old(available)))
      ensures !r.Block? ==> Value() == old(Value())
      ensures r.Block? ==> r.ptr !in old(live) && r.ptr in live && live[r.ptr].n == n
                           && live == old(live)[r.ptr := live[r.ptr]]
      ensures r.Block? ==>
                Charged(old(counters), counters, n, NeedsMapping(n, old(available)), Wanted(n, pageSize))
      ensures r.Block? ==> Placed(live[r.ptr], r.ptr, n, old(pages), old(available), a)
    {
      hide HeapOk, Counted, Linked, Membership, Supported, Round, Grants;
      ghost var s := Value();
      PageSizePositive(s, pageSize);
      if n > SIZE_MAX - HEADER {
        return Null;
      }
      var total := n + HEADER;
      if total > SMALL {
        if total > SIZE_MAX - pageSize + 1 {
          return Aborted;
        }
        if a == 0 {
          return Null;
        }
        var length := Round(total, pageSize);
        CountMapping(length);
        headers := headers[a := Header(0, length)];
        large, live := large[a := length], live[a + HEADER := Large(n)];
        counters := counters.(requested := counters.requested + n);
        LargeAdded(s, Value(), a, n, length, pageSize);
        return Block(a + HEADER);
      }
      r := AllocSmall(n, a);
    }

    method AllocSmall(n: nat, a: nat) returns (r: Outcome)
      requires Valid() && n + HEADER <= SMALL && (a != 0 ==> Grants(Value().heap, a, Wanted(n, pageSize)))
      modifies this
      ensures Valid()
      ensures r == Aborted <==> Aborts(n, pageSize, old(available), a)
      ensures r == Null <==> a == 0 && NeedsMapping(n, old(available))
      ensures !r.Block? ==> Value() == old(Value())
      ensures r.Block? ==> r.ptr !in old(live) && r.ptr in live && live[r.ptr].n == n
                           && live == old(live)[r.ptr := live[r.ptr]]
      ensures r.Block? ==>
                Charged(old(counters), counters, n, NeedsMapping(n, old(available)), Wanted(n, pageSize))
      ensures r.Block? ==> Placed(live[r.ptr], r.ptr, n, old(pages), old(available), a)
    {
      hide HeapOk, Counted, Linked, Membership, Supported, Round, Grants, Placed, Address, FirstClear, Clear, Cuts;
      ghost var s := Value();
      PageSizePositive(s, pageSize);
      var c := Class(n + HEADER);
      HeadListed(s, c, pageSize);
      PeakCovers(s, pageSize);
      var p := available[c];
      if p == 0 {
        if a == 0 {
          return Null;
        }
        if !Cuts(Slot(c), pageSize) {
          return Aborted;
        }
        NewPage(c, a);
        p := a;
      }
      ghost var ready := pages;
      var ptr := TakeSlot(p, c, n);
      PlacedIn(live[ptr], ptr, n, s.heap.pages, ready, s.available, a, p);
      r := Block(ptr);
    }
  }
}
