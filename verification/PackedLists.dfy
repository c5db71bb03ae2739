/** The doubly linked lists of partly full pages in the packed-page pool
    (experiments/native/packed-pages.h). Memory is a map from addresses; zero is NULL. */
module PackedLists {

  datatype Links = Links(prev: nat, next: nat)

  const CLASSES: nat := 8

  function First(l: seq<nat>): nat {
    if l == [] then 0 else l[0]
  }

  function Before(l: seq<nat>, i: nat): nat
    requires i < |l|
  {
    if i == 0 then 0 else l[i - 1]
  }

  function After(l: seq<nat>, i: nat): nat
    requires i < |l|
  {
    if i + 1 == |l| then 0 else l[i + 1]
  }

  /** `head` starts a doubly linked list through exactly the pages `l`, in order. */
  ghost predicate Chain(links: map<nat, Links>, head: nat, l: seq<nat>) {
    && head == First(l)
    && (forall i, j :: 0 <= i < j < |l| ==> l[i] != l[j])
    && (forall i :: 0 <= i < |l| ==> l[i] != 0 && l[i] in links)
    && (forall i {:trigger links[l[i]]} :: 0 <= i < |l| ==> links[l[i]] == Links(Before(l, i), After(l, i)))
  }

  /** All eight lists are well formed and no page is on two of them. */
  ghost predicate Linked(links: map<nat, Links>, available: seq<nat>, lists: seq<seq<nat>>) {
    && |available| == |lists| == CLASSES
    && (forall c :: 0 <= c < CLASSES ==> Chain(links, available[c], lists[c]))
    && Apart(lists)
  }

  function Without(l: seq<nat>, k: nat): seq<nat>
    requires k < |l|
  {
    l[..k] + l[k + 1..]
  }

  /** The memory after `packed_link`. */
  function Pushed(links: map<nat, Links>, head: nat, p: nat): map<nat, Links>
    requires head != 0 ==> head in links
  {
    var links := links[p := Links(0, head)];
    if head == 0 then links else links[head := links[head].(prev := p)]
  }

  /** The memory after `packed_unlink`. */
  function Dropped(links: map<nat, Links>, p: nat): map<nat, Links>
    requires p in links
    requires links[p].prev != 0 ==> links[p].prev in links
    requires links[p].next != 0 ==> links[p].next in links
  {
    var Links(prev, next) := links[p];
    var links := if prev == 0 then links else links[prev := links[prev].(next := next)];
    var links := if next == 0 then links else links[next := links[next].(prev := prev)];
    links[p := Links(0, 0)]
  }

  lemma DroppedKeys(links: map<nat, Links>, p: nat)
    requires p in links
    requires links[p].prev != 0 ==> links[p].prev in links
    requires links[p].next != 0 ==> links[p].next in links
    ensures Dropped(links, p).Keys == links.Keys
  {
  }

  lemma PushedChain(links: map<nat, Links>, head: nat, l: seq<nat>, p: nat)
    requires Chain(links, head, l) && p != 0 && p !in l
    ensures Chain(Pushed(links, head, p), p, [p] + l)
  {
    var after, longer := Pushed(links, head, p), [p] + l;
    forall i | 0 <= i < |longer|
      ensures longer[i] != 0 && longer[i] in after && after[longer[i]] == Links(Before(longer, i), After(longer, i))
    {
      if i > 0 {
        assert longer[i] == l[i - 1];
      }
    }
  }

  lemma DroppedNeighbours(links: map<nat, Links>, head: nat, l: seq<nat>, k: nat)
    requires Chain(links, head, l) && k < |l|
    ensures l[k] in links && links[l[k]] == Links(Before(l, k), After(l, k))
    ensures links[l[k]].prev != 0 ==> links[l[k]].prev in links
    ensures links[l[k]].next != 0 ==> links[l[k]].next in links
    ensures links[l[k]].prev == 0 <==> k == 0
    ensures k == 0 ==> head == l[k]
  {
    if k > 0 {
      assert l[k - 1] in links;
    }
    if k + 1 < |l| {
      assert l[k + 1] in links;
    }
  }

  lemma DroppedValue(links: map<nat, Links>, p: nat, q: nat)
    requires p in links && q in links && q != p && q != 0
    requires links[p].prev != 0 ==> links[p].prev in links
    requires links[p].next != 0 ==> links[p].next in links
    ensures q in Dropped(links, p)
    ensures Dropped(links, p)[q] ==
            Links(if links[p].next == q then links[p].prev else links[q].prev,
                  if links[p].prev == q then links[p].next else links[q].next)
  {
  }

  lemma DroppedAt(links: map<nat, Links>, head: nat, l: seq<nat>, k: nat, j: nat)
    requires Chain(links, head, l) && k < |l| && j < |l| && j != k
    requires links[l[k]].prev != 0 ==> links[l[k]].prev in links
    requires links[l[k]].next != 0 ==> links[l[k]].next in links
    ensures l[j] in Dropped(links, l[k])
    ensures Dropped(links, l[k])[l[j]] ==
            Links(if j == k + 1 then Before(l, k) else Before(l, j), if j + 1 == k then After(l, k) else After(l, j))
  {
    assert links[l[j]] == Links(Before(l, j), After(l, j));
    assert links[l[k]] == Links(Before(l, k), After(l, k));
    assert l[j] != l[k];
    DroppedValue(links, l[k], l[j]);
    hide Dropped;
    assert After(l, k) == l[j] <==> j == k + 1;
    assert Before(l, k) == l[j] <==> j + 1 == k;
  }

  lemma WithoutDistinct(l: seq<nat>, k: nat)
    requires k < |l| && forall i, j :: 0 <= i < j < |l| ==> l[i] != l[j]
    ensures forall i, j :: 0 <= i < j < |Without(l, k)| ==> Without(l, k)[i] != Without(l, k)[j]
  {
  }

  lemma DroppedRestAt(links: map<nat, Links>, head: nat, l: seq<nat>, k: nat, i: nat)
    requires Chain(links, head, l) && k < |l| && i < |l| - 1
    requires links[l[k]].prev != 0 ==> links[l[k]].prev in links
    requires links[l[k]].next != 0 ==> links[l[k]].next in links
    ensures Without(l, k)[i] != 0 && Without(l, k)[i] in Dropped(links, l[k])
    ensures Dropped(links, l[k])[Without(l, k)[i]] == Links(Before(Without(l, k), i), After(Without(l, k), i))
  {
    var j := if i < k then i else i + 1;
    DroppedAt(links, head, l, k, j);
    WithoutNeighbours(l, k, i);
    assert l[j] != 0;
    hide Dropped, Before, After, Without;
  }

  lemma WithoutNeighbours(l: seq<nat>, k: nat, i: nat)
    requires k < |l| && i < |l| - 1
    ensures var rest, j := Without(l, k), if i < k then i else i + 1;
            && |rest| == |l| - 1 && rest[i] == l[j]
            && Before(rest, i) == (if j == k + 1 then Before(l, k) else Before(l, j))
            && After(rest, i) == (if j + 1 == k then After(l, k) else After(l, j))
  {
  }

  lemma DroppedChain(links: map<nat, Links>, head: nat, l: seq<nat>, k: nat)
    requires Chain(links, head, l) && k < |l|
    requires links[l[k]].prev != 0 ==> links[l[k]].prev in links
    requires links[l[k]].next != 0 ==> links[l[k]].next in links
    ensures Chain(Dropped(links, l[k]), if k == 0 then links[l[k]].next else head, Without(l, k))
  {
    assert links[l[k]] == Links(Before(l, k), After(l, k));
    assert First(Without(l, k)) == if k == 0 then After(l, k) else head;
    WithoutDistinct(l, k);
    forall i | 0 <= i < |l| - 1
      ensures Without(l, k)[i] != 0 && Without(l, k)[i] in Dropped(links, l[k])
      ensures Dropped(links, l[k])[Without(l, k)[i]] == Links(Before(Without(l, k), i), After(Without(l, k), i))
    {
      DroppedRestAt(links, head, l, k, i);
    }
    hide Dropped, Before, After;
  }

  /** A chain only depends on its own pages. */
  lemma ChainFrame(links: map<nat, Links>, after: map<nat, Links>, head: nat, l: seq<nat>)
    requires Chain(links, head, l)
    requires forall p :: p in l ==> p in after && after[p] == links[p]
    ensures Chain(after, head, l)
  {
  }

  lemma WithoutMembers(l: seq<nat>, k: nat)
    requires k < |l| && forall i, j :: 0 <= i < j < |l| ==> l[i] != l[j]
    ensures forall p :: p in Without(l, k) <==> p in l && p != l[k]
  {
    forall p | p in l && p != l[k] ensures p in Without(l, k) {
      var i :| 0 <= i < |l| && l[i] == p;
      assert Without(l, k)[if i < k then i else i - 1] == p;
    }
  }

  ghost predicate Apart(lists: seq<seq<nat>>) {
    forall c, d, p :: 0 <= c < |lists| && 0 <= d < |lists| && p in lists[c] && p in lists[d] ==> c == d
  }

  lemma WithoutApart(lists: seq<seq<nat>>, c: nat, k: nat)
    requires Apart(lists) && c < |lists| && k < |lists[c]|
    ensures Apart(lists[c := Without(lists[c], k)])
  {
    assert forall p :: p in Without(lists[c], k) ==> p in lists[c];
  }

  lemma LinkKeepsLinked(links: map<nat, Links>, available: seq<nat>, lists: seq<seq<nat>>, p: nat, c: nat)
    requires Linked(links, available, lists) && c < CLASSES && p != 0
    requires forall d :: 0 <= d < CLASSES ==> p !in lists[d]
    ensures available[c] != 0 ==> available[c] in links
    ensures Linked(Pushed(links, available[c], p), available[c := p], lists[c := [p] + lists[c]])
  {
    PushedChain(links, available[c], lists[c], p);
    var after := Pushed(links, available[c], p);
    forall d | 0 <= d < CLASSES && d != c ensures Chain(after, available[d], lists[d]) {
      ChainFrame(links, after, available[d], lists[d]);
    }
  }

  lemma UnlinkKeepsLinked(links: map<nat, Links>, available: seq<nat>, lists: seq<seq<nat>>, k: nat, c: nat)
    requires Linked(links, available, lists) && c < CLASSES && k < |lists[c]|
    ensures lists[c][k] in links
    ensures links[lists[c][k]].prev != 0 ==> links[lists[c][k]].prev in links
    ensures links[lists[c][k]].next != 0 ==> links[lists[c][k]].next in links
    ensures links[lists[c][k]].prev == 0 ==> available[c] == lists[c][k]
    ensures Linked(Dropped(links, lists[c][k]),
                   if links[lists[c][k]].prev == 0 then available[c := links[lists[c][k]].next] else available,
                   lists[c := Without(lists[c], k)])
  {
    DroppedNeighbours(links, available[c], lists[c], k);
    DroppedChain(links, available[c], lists[c], k);
    WithoutApart(lists, c, k);
    hide Dropped, Without, Chain;
    forall d | 0 <= d < CLASSES && d != c ensures Chain(Dropped(links, lists[c][k]), available[d], lists[d]) {
      OtherChainKept(links, available, lists, k, c, d);
    }
  }

  lemma OtherChainKept(links: map<nat, Links>, available: seq<nat>, lists: seq<seq<nat>>, k: nat, c: nat, d: nat)
    requires Linked(links, available, lists) && c < CLASSES && k < |lists[c]| && d < CLASSES && d != c
    requires lists[c][k] in links && links[lists[c][k]] == Links(Before(lists[c], k), After(lists[c], k))
    requires links[lists[c][k]].prev != 0 ==> links[lists[c][k]].prev in links
    requires links[lists[c][k]].next != 0 ==> links[lists[c][k]].next in links
    ensures Chain(Dropped(links, lists[c][k]), available[d], lists[d])
  {
    var after := Dropped(links, lists[c][k]);
    forall q | q in lists[d] ensures q in after && after[q] == links[q] {
      OtherListUntouched(links, lists, c, k, d, q);
    }
    ChainFrame(links, after, available[d], lists[d]);
  }

  lemma OtherListUntouched(links: map<nat, Links>, lists: seq<seq<nat>>, c: nat, k: nat, d: nat, q: nat)
    requires |lists| == CLASSES && c < CLASSES && d < CLASSES && c != d && k < |lists[c]|
    requires Apart(lists)
    requires lists[c][k] in links && links[lists[c][k]] == Links(Before(lists[c], k), After(lists[c], k))
    requires links[lists[c][k]].prev != 0 ==> links[lists[c][k]].prev in links
    requires links[lists[c][k]].next != 0 ==> links[lists[c][k]].next in links
    requires q in lists[d] && q in links && q != 0
    ensures q in Dropped(links, lists[c][k]) && Dropped(links, lists[c][k])[q] == links[q]
  {
    var l := lists[c];
    assert q !in l;
    assert q != l[k];
    if k > 0 {
      assert l[k - 1] in l;
    }
    if k + 1 < |l| {
      assert l[k + 1] in l;
    }
  }
}
