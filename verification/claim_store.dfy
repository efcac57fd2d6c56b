/**
 The in-memory claim store: time-limited ownership of keys, kept in a map and in a binary heap of expirations whose
 entries know their own heap slot. The object refines a plain map from keys to (token, expiry).
 */
module ClaimStores {

  /** Heap entries are shared between the map and the heap; only the slot index changes. */
  class Expiry {
    const key: string
    const token: nat
    const expiresAt: int
    var index: int

    constructor (key: string, token: nat, expiresAt: int)
      ensures this.key == key && this.token == token && this.expiresAt == expiresAt
    {
      this.key, this.token, this.expiresAt, this.index := key, token, expiresAt, 0;
    }
  }

  datatype Entry = Entry(token: nat, expiresAt: int, expiry: Expiry)

  // ---------- Heap order ----------

  function Parent(i: int): int
    requires i > 0
  {
    (i - 1) / 2
  }

  predicate Ordered(q: seq<Expiry>, c: int)
    requires 0 < c < |q|
  {
    q[Parent(c)].expiresAt <= q[c].expiresAt
  }

  /** The first n slots form a heap. */
  predicate IsHeap(q: seq<Expiry>, n: int)
    requires n <= |q|
  {
    forall c :: 0 < c < n ==> Ordered(q, c)
  }

  /** What a change of slot i leaves intact: every other edge, and the edges around i bridged. */
  predicate Bridged(q: seq<Expiry>, n: int, i: int)
    requires 0 <= i < n <= |q|
  {
    && (forall c :: 0 < c < n && c != i && Parent(c) != i ==> Ordered(q, c))
    && (forall c :: 0 < i < c < n && Parent(c) == i ==> q[Parent(i)].expiresAt <= q[c].expiresAt)
  }

  /** No child of slot i is smaller. */
  predicate AboveChildren(q: seq<Expiry>, n: int, i: int)
    requires 0 <= i < n <= |q|
  {
    forall c :: i < c < n && Parent(c) == i ==> Ordered(q, c)
  }

  predicate BelowParent(q: seq<Expiry>, i: int)
    requires 0 <= i < |q|
  {
    i > 0 ==> Ordered(q, i)
  }

  function Swapped(q: seq<Expiry>, i: int, j: int): seq<Expiry>
    requires 0 <= i < |q| && 0 <= j < |q|
  {
    q[i := q[j]][j := q[i]]
  }

  /** The child a sinking slot is compared with. */
  predicate IsSmallestChild(q: seq<Expiry>, n: int, i: int, j: int)
    requires 0 <= i < n <= |q|
  {
    && i < j < n && Parent(j) == i
    && forall c :: i < c < n && Parent(c) == i ==> q[j].expiresAt <= q[c].expiresAt
  }

  function PickChild(q: seq<Expiry>, n: int, i: int): (j: int)
    requires 0 <= i < n <= |q| && 2 * i + 1 < n
    ensures IsSmallestChild(q, n, i, j)
  {
    assert forall c :: i < c < n && Parent(c) == i ==> c == 2 * i + 1 || c == 2 * i + 2;
    if 2 * i + 2 < n && q[2 * i + 2].expiresAt < q[2 * i + 1].expiresAt then 2 * i + 2 else 2 * i + 1
  }

  lemma SmallestChildAbove(q: seq<Expiry>, n: int, i: int, j: int)
    requires 0 <= i < n <= |q| && IsSmallestChild(q, n, i, j) && q[i].expiresAt <= q[j].expiresAt
    ensures AboveChildren(q, n, i)
  {
  }

  lemma LeafAbove(q: seq<Expiry>, n: int, i: int)
    requires 0 <= i < n <= |q| && 2 * i + 1 >= n
    ensures AboveChildren(q, n, i)
  {
  }

  lemma PrefixHeap(q: seq<Expiry>, n: int)
    requires 0 <= n <= |q| && IsHeap(q, n)
    ensures IsHeap(q[..n], n)
  {
    forall c | 0 < c < n ensures Ordered(q[..n], c) {
      assert Ordered(q, c);
    }
  }

  lemma PrefixHeapOfHeap(q: seq<Expiry>, n: int)
    requires 0 <= n <= |q| && IsHeap(q, |q|)
    ensures IsHeap(q, n)
  {
  }

  lemma HeapFromBridge(q: seq<Expiry>, n: int, i: int)
    requires 0 <= i < n <= |q| && Bridged(q, n, i) && AboveChildren(q, n, i) && BelowParent(q, i)
    ensures IsHeap(q, n)
  {
  }

  /** Moving a too-small slot above its parent passes the defect upwards. */
  lemma SwapUp(q: seq<Expiry>, n: int, j: int)
    requires 0 < j < n <= |q| && Bridged(q, n, j) && AboveChildren(q, n, j) && !Ordered(q, j)
    ensures Bridged(Swapped(q, Parent(j), j), n, Parent(j)) && AboveChildren(Swapped(q, Parent(j), j), n, Parent(j))
  {
  }

  /** Moving a too-large slot below its smallest child passes the defect downwards. */
  lemma SwapDown(q: seq<Expiry>, n: int, i: int, j: int)
    requires 0 <= i < n <= |q| && IsSmallestChild(q, n, i, j) && Bridged(q, n, i)
    requires q[j].expiresAt < q[i].expiresAt
    ensures Bridged(Swapped(q, i, j), n, j) && BelowParent(Swapped(q, i, j), j)
    ensures BelowParent(Swapped(q, i, j), i)
  {
  }

  /** The root of a heap expires first. */
  lemma {:induction false} RootIsEarliest(q: seq<Expiry>, n: int, i: int)
    requires 0 <= i < n <= |q| && IsHeap(q, n)
    ensures q[0].expiresAt <= q[i].expiresAt
    decreases i
  {
    if i > 0 {
      RootIsEarliest(q, n, Parent(i));
      assert Ordered(q, i);
    }
  }

  predicate SameMembers(a: seq<Expiry>, b: seq<Expiry>, n: int)
    requires 0 <= n <= |a| && n <= |b|
  {
    (forall x :: x in a[..n] ==> x in b[..n]) && (forall x :: x in b[..n] ==> x in a[..n])
  }

  lemma SwapKeepsMembers(q: seq<Expiry>, n: int, i: int, j: int)
    requires 0 <= i < n <= |q| && 0 <= j < n
    ensures SameMembers(Swapped(q, i, j), q, n)
  {
    var a, b := Swapped(q, i, j)[..n], q[..n];
    forall x | x in b ensures x in a {
      var k :| 0 <= k < n && b[k] == x;
      assert a[if k == i then j else if k == j then i else k] == x;
    }
  }

  lemma AppendBridges(q: seq<Expiry>, expiry: Expiry)
    requires IsHeap(q, |q|)
    ensures Bridged(q + [expiry], |q| + 1, |q|) && AboveChildren(q + [expiry], |q| + 1, |q|)
  {
    forall c | 0 < c < |q| ensures Ordered(q + [expiry], c) {
      assert Ordered(q, c);
    }
  }

  /** Replacing a slot by the last one leaves only that slot's edges in doubt. */
  lemma SwapLastBridges(q: seq<Expiry>, i: int)
    requires 0 <= i < |q| - 1 && IsHeap(q, |q|)
    ensures Bridged(Swapped(q, i, |q| - 1), |q| - 1, i)
  {
    var n, s := |q| - 1, Swapped(q, i, |q| - 1);
    forall c | 0 < c < n && c != i && Parent(c) != i ensures Ordered(s, c) {
      assert Ordered(q, c);
    }
    forall c | 0 < i < c < n && Parent(c) == i ensures s[Parent(i)].expiresAt <= s[c].expiresAt {
      assert Ordered(q, i) && Ordered(q, c);
    }
  }

  predicate Distinct(q: seq<Expiry>) {
    forall i, j :: 0 <= i < j < |q| ==> q[i] != q[j]
  }

  /** Exactly one entry is gone. */
  predicate Without(after: seq<Expiry>, before: seq<Expiry>, gone: Expiry) {
    && (forall x :: x in after ==> x in before && x != gone)
    && (forall x :: x in before && x != gone ==> x in after)
  }

  /** A heap of the slots that remain after slot i was exchanged with the last one. */
  lemma Removed(before: seq<Expiry>, after: seq<Expiry>, i: int)
    requires 0 <= i < |before| == |after| && Distinct(before)
    requires var n := |before| - 1;
             && SameMembers(after, Swapped(before, i, n), n) && after[n..] == Swapped(before, i, n)[n..]
             && IsHeap(after, n)
    ensures var n := |before| - 1;
            after[n] == before[i] && IsHeap(after[..n], n) && Without(after[..n], before, before[i])
  {
    var n := |before| - 1;
    PrefixHeap(after, n);
    assert after[n] == after[n..][0];
    var swapped := Swapped(before, i, n);
    forall x | x in before && x != before[i] ensures x in swapped[..n] {
      var k :| 0 <= k <= n && before[k] == x;
      assert swapped[..n][if k == n then i else k] == x;
    }
  }

  // ---------- The heap operations ----------

  class ExpiryQueue {
    var items: seq<Expiry>

    constructor ()
      ensures items == []
    {
      items := [];
    }

    /** Every entry knows its slot. */
    ghost predicate Indexed()
      reads this, items
    {
      forall i :: 0 <= i < |items| ==> items[i].index == i
    }

    predicate Less(i: int, j: int)
      requires 0 <= i < |items| && 0 <= j < |items|
      reads this
    {
      items[i].expiresAt < items[j].expiresAt
    }

    method Swap(i: int, j: int)
      requires Indexed() && 0 <= i < |items| && 0 <= j < |items|
      modifies this, items[i], items[j]
      ensures items == Swapped(old(items), i, j) && Indexed()
    {
      items := items[i := items[j]][j := items[i]];
      items[i].index := i;
      items[j].index := j;
    }

    /** Lifts a slot among the first n to its place. */
    method Up(start: int, ghost n: int)
      requires Indexed() && 0 <= start < n <= |items| && Bridged(items, n, start) && AboveChildren(items, n, start)
      modifies this, items
      ensures Indexed() && |items| == |old(items)| && IsHeap(items, n) && items[n..] == old(items)[n..]
      ensures SameMembers(items, old(items), n)
    {
      var j := start;
      while true
        invariant 0 <= j < n <= |items| == |old(items)| && Indexed()
        invariant Bridged(items, n, j) && AboveChildren(items, n, j) && items[n..] == old(items)[n..]
        invariant SameMembers(items, old(items), n)
        decreases j
      {
        var i := if j == 0 then 0 else (j - 1) / 2;
        if i == j || !Less(j, i) {
          HeapFromBridge(items, n, j);
          break;
        }
        SwapUp(items, n, j);
        assert items[i] in items[..n] && items[j] in items[..n];
        SwapKeepsMembers(items, n, i, j);
        Swap(i, j);
        j := i;
      }
    }

    /** Restores the first n slots below `start`; `moved` tells whether the slot sank. */
    method Down(start: int, n: int) returns (moved: bool)
      requires Indexed() && 0 <= start < n <= |items| && Bridged(items, n, start)
      modifies this, items
      ensures Indexed() && |items| == |old(items)| && items[n..] == old(items)[n..]
      ensures moved ==> IsHeap(items, n)
      ensures !moved ==> items == old(items) && AboveChildren(items, n, start)
      ensures SameMembers(items, old(items), n)
    {
      var i := start;
      while true
        invariant start <= i < n <= |items| == |old(items)| && Indexed()
        invariant Bridged(items, n, i) && items[n..] == old(items)[n..]
        invariant i == start ==> items == old(items)
        invariant i > start ==> BelowParent(items, i)
        invariant SameMembers(items, old(items), n)
        decreases n - i
      {
        if 2 * i + 1 >= n {
          LeafAbove(items, n, i);
          break;
        }
        var j := PickChild(items, n, i);
        if !Less(j, i) {
          SmallestChildAbove(items, n, i, j);
          break;
        }
        SwapDown(items, n, i, j);
        assert items[i] in items[..n] && items[j] in items[..n];
        SwapKeepsMembers(items, n, i, j);
        Swap(i, j);
        i := j;
      }
      moved := i > start;
      if moved {
        HeapFromBridge(items, n, i);
      }
    }

    /** Adds an entry at the end and lifts it to its place. */
    method Push(expiry: Expiry)
      requires Indexed() && IsHeap(items, |items|) && expiry !in items
      modifies this, items, expiry
      ensures Indexed() && IsHeap(items, |items|)
      ensures (forall x :: x in items ==> x in old(items) || x == expiry)
      ensures (forall x :: x in old(items) ==> x in items) && expiry in items
    {
      expiry.index := |items|;
      items := items + [expiry];
      AppendBridges(old(items), expiry);
      Up(|items| - 1, |items|);
      assert items[..|items|] == items && (old(items) + [expiry])[..|items|] == old(items) + [expiry];
    }

    method PopLast() returns (expiry: Expiry)
      requires Indexed() && |items| > 0
      modifies this, items[|items| - 1]
      ensures Indexed() && items == old(items)[..|old(items)| - 1] && expiry == old(items)[|old(items)| - 1]
    {
      var last := |items| - 1;
      expiry := items[last];
      expiry.index := -1;
      items := items[..last];
    }

    /** Repairs the heap around one changed slot among the first n. */
    method Fix(i: int, n: int)
      requires Indexed() && 0 <= i < n <= |items| && Bridged(items, n, i)
      modifies this, items
      ensures Indexed() && |items| == |old(items)| && IsHeap(items, n) && items[n..] == old(items)[n..]
      ensures SameMembers(items, old(items), n)
    {
      var moved := Down(i, n);
      if !moved {
        Up(i, n);
      }
    }

    /** Removes the earliest expiration. */
    method Pop() returns (expiry: Expiry)
      requires Indexed() && |items| > 0 && IsHeap(items, |items|)
      modifies this, items
      ensures Indexed() && IsHeap(items, |items|) && expiry == old(items)[0] && Without(items, old(items), expiry)
    {
      var n := |items| - 1;
      Swap(0, n);
      if n > 0 {
        SwapLastBridges(old(items), 0);
        var moved := Down(0, n);
        if !moved {
          HeapFromBridge(items, n, 0);
        }
      }
      Removed(old(items), items, 0);
      expiry := PopLast();
    }

    /** Removes the entry at a known slot. */
    method RemoveAt(i: int) returns (expiry: Expiry)
      requires Indexed() && 0 <= i < |items| && IsHeap(items, |items|)
      modifies this, items
      ensures Indexed() && IsHeap(items, |items|) && expiry == old(items)[i] && Without(items, old(items), expiry)
    {
      var n := |items| - 1;
      PrefixHeapOfHeap(items, n);
      if n != i {
        Swap(i, n);
        SwapLastBridges(old(items), i);
        Fix(i, n);
      }
      Removed(old(items), items, i);
      expiry := PopLast();
    }
  }

  // ---------- The plain view ----------

  /** Claim tokens are unsigned 64-bit counters. */
  const WORD := 0x1_0000_0000_0000_0000

  datatype Held = Held(token: nat, expiresAt: int)

  /** The store as a plain map, with the last token granted. */
  datatype Book = Book(next: nat, claims: map<string, Held>)

  /** The counter wraps around and skips zero. */
  function NextToken(next: nat): nat {
    if next + 1 == WORD then 1 else next + 1
  }

  function Unexpired(claims: map<string, Held>, now: int): map<string, Held> {
    map k | k in claims && claims[k].expiresAt > now :: claims[k]
  }

  function AcquireIn(b: Book, key: string, ttl: int, now: int): (Book, nat, bool) {
    if key == "" || ttl <= 0 then (b, 0, false)
    else
      var live := Unexpired(b.claims, now);
      if key in live then (b.(claims := live), 0, false)
      else (Book(NextToken(b.next), live[key := Held(NextToken(b.next), now + ttl)]), NextToken(b.next), true)
  }

  function ReleaseIn(b: Book, key: string, token: nat): Book {
    if key != "" && token != 0 && key in b.claims && b.claims[key].token == token
    then b.(claims := b.claims - {key}) else b
  }

  // ---------- The store ----------

  /** Map and heap hold exactly the same claims, one heap entry for each key. */
  predicate Linked(entries: map<string, Entry>, items: seq<Expiry>) {
    && (forall x :: x in items ==> x.key in entries && entries[x.key] == Entry(x.token, x.expiresAt, x))
    && (forall k :: k in entries ==> entries[k].expiry in items && entries[k].expiry.key == k)
  }

  lemma Unlink(entries: map<string, Entry>, items: seq<Expiry>, rest: seq<Expiry>, x: Expiry)
    requires Linked(entries, items) && x in items
    requires (forall y :: y in rest ==> y in items && y != x) && (forall y :: y in items && y != x ==> y in rest)
    ensures Linked(entries - {x.key}, rest)
  {
  }

  lemma Link(entries: map<string, Entry>, items: seq<Expiry>, more: seq<Expiry>, x: Expiry)
    requires Linked(entries, items) && x.key !in entries
    requires (forall y :: y in more ==> y in items || y == x) && (forall y :: y in items ==> y in more) && x in more
    ensures Linked(entries[x.key := Entry(x.token, x.expiresAt, x)], more)
  {
  }

  function Claims(entries: map<string, Entry>): map<string, Held> {
    map k | k in entries :: Held(entries[k].token, entries[k].expiresAt)
  }

  lemma ClaimsAdded(entries: map<string, Entry>, key: string, e: Entry)
    ensures Claims(entries[key := e]) == Claims(entries)[key := Held(e.token, e.expiresAt)]
  {
  }

  /** Only expired claims have been removed. */
  predicate Pruned(before: map<string, Entry>, after: map<string, Entry>, now: int) {
    && (forall k :: k in after ==> k in before && after[k] == before[k])
    && (forall k :: k in before && k !in after ==> before[k].expiresAt <= now)
  }

  lemma HeadExpired(entries: map<string, Entry>, items: seq<Expiry>, now: int)
    requires Linked(entries, items) && |items| > 0 && items[0].expiresAt <= now
    ensures items[0].key in entries && entries[items[0].key].expiresAt <= now
  {
  }

  lemma AllUnexpired(entries: map<string, Entry>, items: seq<Expiry>, now: int)
    requires Linked(entries, items) && IsHeap(items, |items|) && (|items| > 0 ==> items[0].expiresAt > now)
    ensures forall k :: k in entries ==> entries[k].expiresAt > now
  {
    forall k | k in entries ensures entries[k].expiresAt > now {
      var i :| 0 <= i < |items| && items[i] == entries[k].expiry;
      RootIsEarliest(items, |items|, i);
    }
  }

  lemma PrunedExactly(before: map<string, Entry>, after: map<string, Entry>, now: int)
    requires Pruned(before, after, now) && forall k :: k in after ==> after[k].expiresAt > now
    ensures Claims(after) == Unexpired(Claims(before), now)
  {
  }

  class ClaimStore {
    var next: nat
    var entries: map<string, Entry>
    const expires: ExpiryQueue

    ghost predicate Valid()
      reads this, expires, expires.items
    {
      expires.Indexed() && IsHeap(expires.items, |expires.items|) && Linked(entries, expires.items) && next < WORD
    }

    ghost function View(): Book
      reads this
    {
      Book(next, Claims(entries))
    }

    constructor ()
      ensures Valid() && View() == Book(0, map[]) && fresh(expires)
    {
      next, entries := 0, map[];
      expires := new ExpiryQueue();
    }

    /** Removes the claim that expires first. */
    method ExpireHead() returns (key: string)
      requires Valid() && |expires.items| > 0
      modifies `entries, expires, expires.items
      ensures Valid() && key == old(expires.items)[0].key && key in old(entries) && entries == old(entries) - {key}
      ensures forall i :: 0 <= i < |expires.items| ==> expires.items[i] in old(expires.items)
    {
      ghost var items := expires.items;
      assert items[0] in items;
      var expiry := expires.Pop();
      Unlink(entries, items, expires.items, expiry);
      key := expiry.key;
      if key in entries && entries[key].token == expiry.token {
        entries := entries - {key};
      }
    }

    /** Reclaims expired claims from the head of the heap, and no others. */
    method PruneExpired(now: int)
      requires Valid()
      modifies `entries, expires, expires.items
      ensures Valid() && View() == old(View()).(claims := Unexpired(old(View()).claims, now))
      ensures forall i :: 0 <= i < |expires.items| ==> expires.items[i] in old(expires.items)
    {
      while |expires.items| > 0 && expires.items[0].expiresAt <= now
        invariant Valid()
        invariant forall i :: 0 <= i < |expires.items| ==> expires.items[i] in old(expires.items)
        invariant Pruned(old(entries), entries, now)
        decreases |entries|
      {
        HeadExpired(entries, expires.items, now);
        var _ := ExpireHead();
      }
      AllUnexpired(entries, expires.items, now);
      PrunedExactly(old(entries), entries, now);
    }

    /** Draws the next token and enters a claim for a free key. */
    method Grant(key: string, expiresAt: int)
      requires Valid() && key !in entries
      modifies this, expires, expires.items
      ensures Valid()
      ensures View() == Book(NextToken(old(next)), old(View()).claims[key := Held(NextToken(old(next)), expiresAt)])
      ensures forall i :: 0 <= i < |expires.items| ==> expires.items[i] in old(expires.items) || fresh(expires.items[i])
    {
      next := next + 1;
      if next == WORD {
        next := 1;
      }
      var expiry := new Expiry(key, next, expiresAt);
      ghost var items := expires.items;
      expires.Push(expiry);
      Link(entries, items, expires.items, expiry);
      entries := entries[key := Entry(next, expiresAt, expiry)];
      ClaimsAdded(old(entries), key, entries[key]);
      forall i | 0 <= i < |expires.items| ensures expires.items[i] in old(expires.items) || fresh(expires.items[i]) {
        assert expires.items[i] in expires.items;
      }
    }

    /** Acquisition is exactly acquisition in the plain map. */
    method Acquire(key: string, ttl: int, now: int) returns (token: nat, ok: bool)
      requires Valid()
      modifies this, expires, expires.items
      ensures Valid() && (View(), token, ok) == AcquireIn(old(View()), key, ttl, now)
      ensures forall i :: 0 <= i < |expires.items| ==> expires.items[i] in old(expires.items) || fresh(expires.items[i])
    {
      if key == "" || ttl <= 0 {
        return 0, false;
      }
      PruneExpired(now);
      assert key in entries <==> key in Claims(entries);
      if key in entries && entries[key].expiresAt > now {
        return 0, false;
      }
      Grant(key, now + ttl);
      return next, true;
    }

    /** Release removes the claim only for the token that still owns it. */
    method Release(key: string, token: nat)
      requires Valid()
      modifies `entries, expires, expires.items
      ensures Valid() && View() == ReleaseIn(old(View()), key, token)
      ensures forall i :: 0 <= i < |expires.items| ==> expires.items[i] in old(expires.items)
    {
      if key == "" || token == 0 {
        return;
      }
      if key in entries && entries[key].token == token {
        ghost var items := expires.items;
        var slot := entries[key].expiry.index;
        ghost var i :| 0 <= i < |items| && items[i] == entries[key].expiry;
        assert items[i].index == i;
        var expiry := expires.RemoveAt(slot);
        Unlink(entries, items, expires.items, expiry);
        entries := entries - {key};
        assert Claims(entries) == Claims(old(entries)) - {key};
      }
    }
  }

  // ---------- What the plain view guarantees ----------

  datatype Op = Acquisition(key: string, ttl: int, now: int) | Releasing(key: string, token: nat)

  function Apply(b: Book, op: Op): Book {
    match op
    case Acquisition(key, ttl, now) => AcquireIn(b, key, ttl, now).0
    case Releasing(key, token) => ReleaseIn(b, key, token)
  }

  function ApplyAll(b: Book, ops: seq<Op>): Book
    decreases |ops|
  {
    if ops == [] then b else ApplyAll(Apply(b, ops[0]), ops[1..])
  }

  /** The only ways a claim can end: release by its owner, or a clock reading at or past its expiry. */
  predicate Ends(op: Op, key: string, claim: Held) {
    match op
    case Acquisition(k, ttl, now) => k != "" && ttl > 0 && now >= claim.expiresAt
    case Releasing(k, token) => k == key && token == claim.token
  }

  /**
   A granted key is not granted again until its owner releases it or some acquisition, of any key, used a clock reading
   no earlier than its expiry. Clock readings are taken before the lock, so they need not be in order.
   */
  lemma {:induction false} ClaimHoldsUntilEnded(b: Book, key: string, ops: seq<Op>)
    requires key in b.claims && forall i :: 0 <= i < |ops| ==> !Ends(ops[i], key, b.claims[key])
    ensures var after := ApplyAll(b, ops);
            && key in after.claims && after.claims[key] == b.claims[key]
            && forall ttl, now :: now < b.claims[key].expiresAt ==> !AcquireIn(after, key, ttl, now).2
    decreases |ops|
  {
    if ops != [] {
      ClaimHoldsUntilEnded(Apply(b, ops[0]), key, ops[1..]);
    }
  }

  // ---------- Tokens ----------

  /** The token of the n-th grant counted from zero. */
  function TokenAt(n: nat): nat {
    n % (WORD - 1) + 1
  }

  /** A counter that has granted n tokens stands at the last of them. */
  function CounterAfter(n: nat): nat {
    if n == 0 then 0 else TokenAt(n - 1)
  }

  lemma NextTokenCounts(n: nat)
    ensures NextToken(CounterAfter(n)) == TokenAt(n) && TokenAt(n) == CounterAfter(n + 1) && 0 < TokenAt(n) < WORD
  {
  }

  /** Two grants carry the same token exactly when a whole cycle of the counter lies between them. */
  lemma TokensRepeatByCycle(g: nat, h: nat)
    requires g <= h
    ensures TokenAt(g) == TokenAt(h) <==> (h - g) % (WORD - 1) == 0
  {
  }

  // ---------- Stale tokens over runs ----------

  function Grants(b: Book, ops: seq<Op>): nat
    decreases |ops|
  {
    if ops == [] then 0
    else
      (if ops[0].Acquisition? && AcquireIn(b, ops[0].key, ops[0].ttl, ops[0].now).2 then 1 else 0)
      + Grants(Apply(b, ops[0]), ops[1..])
  }

  /** The key is free, still held by the g-th grant, or held by a later one. */
  ghost predicate HeldSince(b: Book, key: string, g: nat, held: Held, n: nat) {
    key in b.claims && b.claims[key] != held ==> exists h :: g < h < n && b.claims[key].token == TokenAt(h)
  }

  lemma {:induction false} LaterGrantsOnly(b: Book, key: string, g: nat, held: Held, n: nat, ops: seq<Op>)
    requires b.next == CounterAfter(n) && g < n && HeldSince(b, key, g, held, n)
    ensures var after, m := ApplyAll(b, ops), n + Grants(b, ops);
            after.next == CounterAfter(m) && HeldSince(after, key, g, held, m)
    decreases |ops|
  {
    if ops != [] {
      var next := Apply(b, ops[0]);
      NextTokenCounts(n);
      if ops[0].Acquisition? && AcquireIn(b, ops[0].key, ops[0].ttl, ops[0].now).2 {
        assert HeldSince(next, key, g, held, n + 1) by {
          if key in next.claims && next.claims[key] != held && key != ops[0].key {
            var h :| g < h < n && b.claims[key].token == TokenAt(h);
          }
        }
        LaterGrantsOnly(next, key, g, held, n + 1, ops[1..]);
      } else {
        LaterGrantsOnly(next, key, g, held, n, ops[1..]);
      }
    }
  }

  /**
   A token granted once and released late, after any further operations with fewer than 2^64 - 1 grants among them,
   removes nothing but its own claim: a newer claim of the same key survives.
   */
  lemma StaleTokenIsHarmless(b: Book, g: nat, key: string, ttl: int, now: int, ops: seq<Op>)
    requires b.next == CounterAfter(g) && AcquireIn(b, key, ttl, now).2
    requires var granted := AcquireIn(b, key, ttl, now).0; Grants(granted, ops) < WORD - 1
    ensures var (granted, token, _) := AcquireIn(b, key, ttl, now);
            var after := ApplyAll(granted, ops);
            key in after.claims && after.claims[key] != granted.claims[key] ==> ReleaseIn(after, key, token) == after
  {
    var (granted, token, _) := AcquireIn(b, key, ttl, now);
    var after := ApplyAll(granted, ops);
    NextTokenCounts(g);
    LaterGrantsOnly(granted, key, g, granted.claims[key], g + 1, ops);
    if key in after.claims && after.claims[key] != granted.claims[key] {
      var h :| g < h < g + 1 + Grants(granted, ops) && after.claims[key].token == TokenAt(h);
      TokensRepeatByCycle(g, h);
    }
  }

  /** Past a whole cycle of the counter the guarantee is exactly lost: the stale token is the newer claim's token. */
  lemma StaleTokenAfterCycle(b: Book, key: string, g: nat, h: nat)
    requires g < h && key != "" && key in b.claims && b.claims[key].token == TokenAt(h)
    ensures ReleaseIn(b, key, TokenAt(g)) == b <==> (h - g) % (WORD - 1) != 0
  {
  }
}
