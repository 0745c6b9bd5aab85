/** Exporting a transferred tree again: when the second bundle is the first one, and what collation has to
    do with it. Folders may be listed in any order, and sorting keeps ties as they were listed. */
module RoundTrips {
  import opened Rows
  import opened Trees
  import opened TransferFiles

  predicate Tied(f: Format, a: Path, b: Path) { f.collate(a, b) && f.collate(b, a) }

  /** The position of the managed path the file lies under; these are visited in order. */
  function RootOf(p: Path): nat {
    if ROOTS[0] <= p then 0 else if ROOTS[1] <= p then 1 else if ROOTS[2] <= p then 2 else if ROOTS[3] <= p then 3 else 4
  }

  lemma RootOfIs(k: nat, p: Path)
    requires k < |ROOTS| && ROOTS[k] <= p
    ensures RootOf(p) == k
  {
    forall i: nat | i < k ensures !(ROOTS[i] <= p) {
      RootsApart(i, k);
      var n :| 0 <= n < |ROOTS[i]| && n < |ROOTS[k]| && ROOTS[i][n] != ROOTS[k][n];
      assert p[n] == ROOTS[k][n];
    }
  }

  lemma RootOfManaged(p: Path)
    requires Managed(p)
    ensures RootOf(p) < |ROOTS| && ROOTS[RootOf(p)] <= p
  {}

  /** Different files below the same managed path never collate equal. */
  ghost predicate TellsApart(root: Option<Node>, f: Format) {
    forall p: Path, q: Path |
      Managed(p) && Managed(q) && RootOf(p) == RootOf(q) && FileAt(root, p).Some? && FileAt(root, q).Some? && p != q ::
        !Tied(f, p, q)
  }

  // ----- what a sorted export looks like -----

  /** Sorted, and ties stand in the order of their managed paths. */
  ghost predicate Arranged(s: seq<Packed>, f: Format) {
    forall i, j | 0 <= i < j < |s| ::
      f.collate(s[i].path, s[j].path) && (f.collate(s[j].path, s[i].path) ==> RootOf(s[i].path) <= RootOf(s[j].path))
  }

  ghost predicate Leads(x: Packed, y: Packed, f: Format) {
    f.collate(x.path, y.path) && (f.collate(y.path, x.path) ==> RootOf(x.path) <= RootOf(y.path))
  }

  lemma ArrangedParts(s: seq<Packed>, f: Format)
    requires s != [] && Arranged(s, f)
    ensures Arranged(s[1..], f) && forall y | y in s[1..] :: Leads(s[0], y, f)
  {
    forall y | y in s[1..] ensures Leads(s[0], y, f) {
      var i :| 0 <= i < |s[1..]| && s[1..][i] == y;
      assert s[i + 1] == y;
    }
  }

  lemma ArrangedPrepend(x: Packed, s: seq<Packed>, f: Format)
    requires Arranged(s, f) && forall y | y in s :: Leads(x, y, f)
    ensures Arranged([x] + s, f)
  {
    assert forall i | 0 <= i < |s| :: s[i] in s;
  }

  lemma InsertedElements(x: Packed, s: seq<Packed>, f: Format)
    ensures forall y :: y in Insert(x, s, f) <==> y in s || y == x
  {
    InsertCounts(x, s, f);
    forall y ensures y in Insert(x, s, f) <==> y in s || y == x {
      assert y in Insert(x, s, f) <==> y in multiset(Insert(x, s, f));
      assert y in s <==> y in multiset(s);
    }
  }

  lemma {:induction false} InsertArranges(x: Packed, s: seq<Packed>, f: Format)
    requires Collates(f) && Arranged(s, f) && forall y | y in s :: RootOf(y.path) <= RootOf(x.path)
    ensures Arranged(Insert(x, s, f), f)
  {
    if s != [] {
      ArrangedParts(s, f);
      assert s[0] in s && forall y | y in s[1..] :: y in s;
      if f.collate(s[0].path, x.path) {
        InsertArranges(x, s[1..], f);
        InsertedElements(x, s[1..], f);
        ArrangedPrepend(s[0], Insert(x, s[1..], f), f);
      } else {
        forall y | y in s ensures Leads(x, y, f) {
          assert y == s[0] || y in s[1..] by { assert s == [s[0]] + s[1..]; }
          assert f.collate(x.path, s[0].path);
        }
        ArrangedPrepend(x, s, f);
      }
    }
  }

  ghost predicate InRootOrder(s: seq<Packed>) {
    forall i, j | 0 <= i < j < |s| :: RootOf(s[i].path) <= RootOf(s[j].path)
  }

  lemma {:induction false} SortArranges(s: seq<Packed>, f: Format)
    requires Collates(f) && InRootOrder(s)
    ensures Arranged(Sort(s, f), f)
  {
    if s != [] {
      var n := |s| - 1;
      SortArranges(s[..n], f);
      SortCounts(s[..n], f);
      forall y | y in Sort(s[..n], f) ensures RootOf(y.path) <= RootOf(s[n].path) {
        assert y in multiset(s[..n]);
        var i :| 0 <= i < n && s[i] == y;
      }
      InsertArranges(s[n], Sort(s[..n], f), f);
    }
  }

  ghost predicate ItemsInRootOrder(s: seq<Item>) {
    forall i, j | 0 <= i < j < |s| :: RootOf(s[i].path) <= RootOf(s[j].path)
  }

  lemma UnderHasRoot(root: Option<Node>, k: nat)
    requires WellFormedRoot(root) && k < |ROOTS|
    ensures forall x | x in Under(root, ROOTS[k]) :: RootOf(x.path) == k
  {
    forall x | x in Under(root, ROOTS[k]) ensures RootOf(x.path) == k {
      assert x == Item(x.path, x.data);
      UnderMeets(root, ROOTS[k], x.path, x.data);
      RootOfIs(k, x.path);
    }
  }

  lemma JoinInRootOrder(a: seq<Item>, b: seq<Item>, k: nat)
    requires ItemsInRootOrder(a) && (forall x | x in a :: RootOf(x.path) <= k) && forall x | x in b :: RootOf(x.path) == k
    ensures ItemsInRootOrder(a + b) && forall x | x in a + b :: RootOf(x.path) <= k
  {
    forall i | 0 <= i < |a + b| ensures RootOf((a + b)[i].path) <= k && (|a| <= i ==> RootOf((a + b)[i].path) == k) {
      if i < |a| { assert a[i] in a; } else { assert b[i - |a|] in b; }
    }
  }

  lemma CollectedInRootOrder(root: Option<Node>)
    requires WellFormedRoot(root)
    ensures ItemsInRootOrder(Collected(root))
  {
    var a, b, c, d := Under(root, ROOTS[0]), Under(root, ROOTS[1]), Under(root, ROOTS[2]), Under(root, ROOTS[3]);
    UnderHasRoot(root, 0);
    UnderHasRoot(root, 1);
    UnderHasRoot(root, 2);
    UnderHasRoot(root, 3);
    JoinInRootOrder([], a, 0);
    assert [] + a == a;
    JoinInRootOrder(a, b, 1);
    JoinInRootOrder(a + b, c, 2);
    JoinInRootOrder(a + b + c, d, 3);
  }

  lemma ExportIsArranged(root: Option<Node>, f: Format)
    requires Collates(f) && WellFormedRoot(root)
    ensures Arranged(Sort(Pack(Collected(root), f), f), f)
  {
    CollectedInRootOrder(root);
    SortArranges(Pack(Collected(root), f), f);
  }

  // ----- apart: one bundle -----

  ghost predicate PathsApart(s: seq<Packed>, f: Format) {
    forall x, y | x in s && y in s && x.path != y.path && RootOf(x.path) == RootOf(y.path) :: !Tied(f, x.path, y.path)
  }

  lemma FirstLeads(s: seq<Packed>, x: Packed, f: Format)
    requires Collates(f) && Arranged(s, f) && x in s
    ensures Leads(s[0], x, f)
  {
    assert f.collate(x.path, x.path);
    ArrangedParts(s, f);
    assert s == [s[0]] + s[1..];
  }

  lemma SameCountsTails(a: seq<Packed>, b: seq<Packed>)
    requires a != [] && b != [] && a[0] == b[0] && multiset(a) == multiset(b)
    ensures multiset(a[1..]) == multiset(b[1..])
  {
    assert a == [a[0]] + a[1..] && b == [b[0]] + b[1..];
    assert multiset(a[1..]) == multiset(a) - multiset{a[0]};
    assert multiset(b[1..]) == multiset(b) - multiset{b[0]};
  }

  lemma SameCountsMeet(a: seq<Packed>, b: seq<Packed>)
    requires multiset(a) == multiset(b)
    ensures |a| == |b| && (a != [] ==> a[0] in b && b[0] in a)
  {
    assert |multiset(a)| == |a| && |multiset(b)| == |b|;
    if a != [] { assert a[0] in multiset(b) && b[0] in multiset(a); }
  }

  lemma HeadsAgree(a: seq<Packed>, b: seq<Packed>, f: Format)
    requires Collates(f) && Arranged(a, f) && Arranged(b, f) && OnePerPath(a) && PathsApart(a, f)
    requires a != [] && b != [] && a[0] in b && b[0] in a
    ensures a[0] == b[0]
  {
    FirstLeads(a, b[0], f);
    FirstLeads(b, a[0], f);
    assert a[0].path == b[0].path;
    var i :| 0 <= i < |a| && a[i] == b[0];
    assert i == 0;
  }

  /** What two lists need to be compared from the front. */
  ghost predicate Comparable(a: seq<Packed>, b: seq<Packed>, f: Format) {
    Arranged(a, f) && Arranged(b, f) && OnePerPath(a) && PathsApart(a, f) && multiset(a) == multiset(b)
  }

  lemma ComparableTails(a: seq<Packed>, b: seq<Packed>, f: Format)
    requires a != [] && b != [] && a[0] == b[0] && Comparable(a, b, f)
    ensures Comparable(a[1..], b[1..], f)
  {
    SameCountsTails(a, b);
    ArrangedParts(a, f);
    ArrangedParts(b, f);
    assert forall x | x in a[1..] :: x in a;
  }

  /** An arranged list with paths apart is determined by its elements. */
  lemma {:induction false} ArrangedUnique(a: seq<Packed>, b: seq<Packed>, f: Format)
    requires Collates(f) && Comparable(a, b, f)
    ensures a == b
    decreases |a|
  {
    SameCountsMeet(a, b);
    if a != [] {
      HeadsAgree(a, b, f);
      ComparableTails(a, b, f);
      ArrangedUnique(a[1..], b[1..], f);
      assert a == [a[0]] + a[1..] && b == [b[0]] + b[1..];
    }
  }

  lemma ExportedPathsApart(root: Option<Node>, f: Format)
    requires WellFormedRoot(root) && TellsApart(root, f)
    ensures PathsApart(Sort(Pack(Collected(root), f), f), f)
  {
    var packed := Pack(Collected(root), f);
    SortCounts(packed, f);
    forall x | x in Sort(packed, f) ensures Managed(x.path) && FileAt(root, x.path).Some? {
      assert x in multiset(packed);
      var i :| 0 <= i < |packed| && packed[i] == x;
      var item := Collected(root)[i];
      assert item == Item(item.path, item.data) && item in Collected(root);
      CollectedMeets(root, item.path, item.data);
    }
  }

  /** Trees with the same managed files, listed in any order and with anything else beside them, give
      the same bundle, if collation tells the files below each managed path apart. */
  lemma SameFilesSameBundle(a: Option<Node>, b: Option<Node>, f: Format)
    requires Collates(f) && WellFormedRoot(a) && WellFormedRoot(b) && SameManagedFiles(a, b) && TellsApart(a, f)
    ensures Export(a, f) == Export(b, f)
  {
    var s, t := Sort(Pack(Collected(a), f), f), Sort(Pack(Collected(b), f), f);
    SameFilesSameItems(a, b);
    SameCountsSameTotal(Collected(a), Collected(b));
    PackCounts(Collected(a), Collected(b), f);
    SortCounts(Pack(Collected(a), f), f);
    SortCounts(Pack(Collected(b), f), f);
    ExportIsArranged(a, f);
    ExportIsArranged(b, f);
    ExportIsOnePerPath(a, f);
    ExportedPathsApart(a, f);
    ArrangedUnique(s, t, f);
  }

  // ----- the same folders, listed backwards -----

  function Reversed(node: Node): Node {
    match node
    case Dir(es) => Dir(ReversedAll(es))
    case _ => node
  }

  function ReversedAll(es: Entries): Entries {
    match es
    case End => End
    case Entry(n, node, rest) => Put(ReversedAll(rest), n, Reversed(node))
  }

  function ReversedRoot(root: Option<Node>): Option<Node> { if root.Some? then Some(Reversed(root.value)) else None }

  lemma {:induction false} FindReversed(es: Entries, q: string)
    ensures Find(ReversedAll(es), q) == ReversedRoot(Find(es, q))
  {
    if es.Entry? {
      FindReversed(es.rest, q);
      FindAfterPut(ReversedAll(es.rest), es.name, Reversed(es.node), q);
    }
  }

  lemma {:induction false} NodeAtReversed(root: Option<Node>, p: Path)
    ensures NodeAt(ReversedRoot(root), p) == ReversedRoot(NodeAt(root, p))
    decreases |p|
  {
    if p != [] && root.Some? && root.value.Dir? {
      FindReversed(root.value.entries, p[0]);
      NodeAtReversed(Find(root.value.entries, p[0]), p[1..]);
    }
  }

  lemma FileAtReversed(root: Option<Node>, p: Path)
    ensures FileAt(ReversedRoot(root), p) == FileAt(root, p)
  {
    NodeAtReversed(root, p);
  }

  lemma {:induction false} ReversedIsWellFormed(node: Node)
    requires WellFormed(node)
    ensures WellFormed(Reversed(node))
  {
    if node.Dir? { ReversedAllIsWellFormed(node.entries); }
  }

  lemma {:induction false} ReversedAllIsWellFormed(es: Entries)
    requires WellFormedAll(es)
    ensures WellFormedAll(ReversedAll(es))
  {
    if es.Entry? {
      ReversedIsWellFormed(es.node);
      ReversedAllIsWellFormed(es.rest);
      PutKeepsWellFormed(ReversedAll(es.rest), es.name, Reversed(es.node));
    }
  }

  function Backwards(s: seq<Item>): seq<Item> {
    if s == [] then [] else Backwards(s[1..]) + [s[0]]
  }

  lemma {:induction false} BackwardsJoin(a: seq<Item>, b: seq<Item>)
    ensures Backwards(a + b) == Backwards(b) + Backwards(a)
    decreases |a|
  {
    if a == [] {
      assert a + b == b && Backwards(b) + [] == Backwards(b);
    } else {
      BackwardsJoin(a[1..], b);
      assert (a + b)[1..] == a[1..] + b;
      assert Backwards(b) + (Backwards(a[1..]) + [a[0]]) == Backwards(b) + Backwards(a[1..]) + [a[0]];
    }
  }

  lemma {:induction false} VisitAllWithNew(es: Entries, n: string, node: Node, p: Path)
    requires Find(es, n).None?
    ensures VisitAll(Put(es, n, node), p) == VisitAll(es, p) + Visit(node, p + [n])
  {
    if es.Entry? {
      VisitAllWithNew(es.rest, n, node, p);
    } else {
      assert Visit(node, p + [n]) + [] == [] + Visit(node, p + [n]);
    }
  }

  lemma {:induction false} VisitReversed(node: Node, p: Path)
    requires WellFormed(node)
    ensures Visit(Reversed(node), p) == Backwards(Visit(node, p))
  {
    match node
    case Dir(es) => VisitAllReversed(es, p);
    case File(data) => assert Backwards([Item(p, data)]) == Backwards([]) + [Item(p, data)];
    case _ =>
  }

  lemma {:induction false} VisitAllReversed(es: Entries, p: Path)
    requires WellFormedAll(es)
    ensures VisitAll(ReversedAll(es), p) == Backwards(VisitAll(es, p))
  {
    if es.Entry? {
      VisitReversed(es.node, p + [es.name]);
      VisitAllReversed(es.rest, p);
      FindReversed(es.rest, es.name);
      VisitAllWithNew(ReversedAll(es.rest), es.name, Reversed(es.node), p);
      BackwardsJoin(Visit(es.node, p + [es.name]), VisitAll(es.rest, p));
    }
  }

  lemma UnderReversed(root: Option<Node>, r: Path)
    requires WellFormedRoot(root)
    ensures Under(ReversedRoot(root), r) == Backwards(Under(root, r))
  {
    NodeAtReversed(root, r);
    if NodeAt(root, r).Some? {
      NodeIsWellFormed(root, r);
      VisitReversed(NodeAt(root, r).value, r);
    }
  }

  // ----- ties stand as they were listed -----

  ghost predicate Precedes<T>(s: seq<T>, x: T, y: T) {
    exists i, j :: 0 <= i < j < |s| && s[i] == x && s[j] == y
  }

  lemma PrecedesWithin<T>(a: seq<T>, s: seq<T>, b: seq<T>, x: T, y: T)
    requires Precedes(s, x, y)
    ensures Precedes(a + s + b, x, y)
  {
    var i, j :| 0 <= i < j < |s| && s[i] == x && s[j] == y;
    assert (a + s + b)[|a| + i] == x && (a + s + b)[|a| + j] == y;
  }

  lemma {:induction false} BackwardsElements(s: seq<Item>)
    ensures |Backwards(s)| == |s| && forall i | 0 <= i < |s| :: Backwards(s)[i] == s[|s| - 1 - i]
  {
    if s != [] { BackwardsElements(s[1..]); }
  }

  lemma PrecedesBackwards(s: seq<Item>, x: Item, y: Item)
    requires Precedes(s, x, y)
    ensures Precedes(Backwards(s), y, x)
  {
    var i, j :| 0 <= i < j < |s| && s[i] == x && s[j] == y;
    BackwardsElements(s);
    assert Backwards(s)[|s| - 1 - j] == y && Backwards(s)[|s| - 1 - i] == x;
  }

  lemma PrecedesPacked(s: seq<Item>, x: Item, y: Item, f: Format)
    requires Precedes(s, x, y)
    ensures Precedes(Pack(s, f), PackOne(x, f), PackOne(y, f))
  {
    var i, j :| 0 <= i < j < |s| && s[i] == x && s[j] == y;
    assert Pack(s, f)[i] == PackOne(x, f) && Pack(s, f)[j] == PackOne(y, f);
  }

  lemma PrecedesCons<T>(z: T, s: seq<T>, x: T, y: T)
    ensures Precedes(s, x, y) ==> Precedes([z] + s, x, y)
    ensures x == z && y in s ==> Precedes([z] + s, x, y)
  {
    if Precedes(s, x, y) {
      PrecedesWithin([z], s, [], x, y);
      assert [z] + s + [] == [z] + s;
    }
    if x == z && y in s {
      var j :| 0 <= j < |s| && s[j] == y;
      assert ([z] + s)[0] == x && ([z] + s)[j + 1] == y;
    }
  }

  lemma PrecedesUncons<T>(s: seq<T>, x: T, y: T)
    requires s != [] && Precedes(s, x, y)
    ensures (x == s[0] && y in s[1..]) || Precedes(s[1..], x, y)
  {
    var i, j :| 0 <= i < j < |s| && s[i] == x && s[j] == y;
    assert s[1..][j - 1] == y;
    if i > 0 { assert s[1..][i - 1] == x; }
  }

  /** A file is inserted behind every file that does not come after it. */
  lemma {:induction false} InsertFollows(y: Packed, s: seq<Packed>, f: Format, x: Packed)
    requires Collates(f) && Sorted(s, f) && x in s && f.collate(x.path, y.path)
    ensures Precedes(Insert(y, s, f), x, y)
  {
    HeadComesFirst(s, x, f);
    assert f.collate(s[0].path, y.path);
    var rest := Insert(y, s[1..], f);
    InsertedElements(y, s[1..], f);
    PrecedesCons(s[0], rest, x, y);
    if x != s[0] {
      TailKeepsOrder(s, f);
      assert s == [s[0]] + s[1..];
      InsertFollows(y, s[1..], f, x);
    }
  }

  lemma {:induction false} InsertKeepsPrecedes(z: Packed, s: seq<Packed>, f: Format, x: Packed, y: Packed)
    requires Precedes(s, x, y)
    ensures Precedes(Insert(z, s, f), x, y)
  {
    PrecedesCons(z, s, x, y);
    if s != [] && f.collate(s[0].path, z.path) {
      var rest := Insert(z, s[1..], f);
      PrecedesUncons(s, x, y);
      InsertedElements(z, s[1..], f);
      PrecedesCons(s[0], rest, x, y);
      if Precedes(s[1..], x, y) { InsertKeepsPrecedes(z, s[1..], f, x, y); }
    }
  }

  lemma PrecedesUnsnoc<T>(s: seq<T>, x: T, y: T)
    requires s != [] && Precedes(s, x, y)
    ensures var n := |s| - 1; Precedes(s[..n], x, y) || (y == s[n] && x in s[..n])
  {
    var n := |s| - 1;
    var i, j :| 0 <= i < j < |s| && s[i] == x && s[j] == y;
    assert s[..n][i] == x;
    if j < n { assert s[..n][j] == y; }
  }

  lemma LastFollows(s: seq<Packed>, last: Packed, f: Format, x: Packed)
    requires Collates(f) && x in s && f.collate(x.path, last.path)
    ensures Precedes(Insert(last, Sort(s, f), f), x, last)
  {
    SortSorts(s, f);
    SortCounts(s, f);
    assert x in multiset(s) && x in Sort(s, f);
    InsertFollows(last, Sort(s, f), f, x);
  }

  /** Sorting is stable: it keeps two files in order when the first may come first. */
  lemma {:induction false} SortIsStable(s: seq<Packed>, f: Format, x: Packed, y: Packed)
    requires Collates(f) && Precedes(s, x, y) && f.collate(x.path, y.path)
    ensures Precedes(Sort(s, f), x, y)
    decreases |s|
  {
    var n := |s| - 1;
    PrecedesUnsnoc(s, x, y);
    if Precedes(s[..n], x, y) {
      SortIsStable(s[..n], f, x, y);
      InsertKeepsPrecedes(s[n], Sort(s[..n], f), f, x, y);
    } else {
      LastFollows(s[..n], s[n], f, x);
    }
  }

  lemma CollectedAround(root: Option<Node>, k: nat) returns (before: seq<Item>, after: seq<Item>)
    requires k < |ROOTS|
    ensures before + Under(root, ROOTS[k]) + after == Collected(root)
  {
    var a, b, c, d := Under(root, ROOTS[0]), Under(root, ROOTS[1]), Under(root, ROOTS[2]), Under(root, ROOTS[3]);
    match k
    case 0 =>
      before, after := [], b + c + d;
      assert [] + a + (b + c + d) == a + b + c + d;
    case 1 =>
      before, after := a, c + d;
      assert a + b + (c + d) == a + b + c + d;
    case 2 => before, after := a + b, d;
    case _ =>
      before, after := a + b + c, [];
      assert a + b + c + d + [] == a + b + c + d;
  }

  lemma UnderInCollected(root: Option<Node>, k: nat, x: Item, y: Item)
    requires k < |ROOTS| && Precedes(Under(root, ROOTS[k]), x, y)
    ensures Precedes(Collected(root), x, y)
  {
    var before, after := CollectedAround(root, k);
    PrecedesWithin(before, Under(root, ROOTS[k]), after, x, y);
  }

  lemma ExportKeepsListing(root: Option<Node>, f: Format, k: nat, x: Item, y: Item)
    requires Collates(f) && k < |ROOTS| && Precedes(Under(root, ROOTS[k]), x, y) && f.collate(x.path, y.path)
    ensures Precedes(Sort(Pack(Collected(root), f), f), PackOne(x, f), PackOne(y, f))
  {
    UnderInCollected(root, k, x, y);
    PrecedesPacked(Collected(root), x, y, f);
    SortIsStable(Pack(Collected(root), f), f, PackOne(x, f), PackOne(y, f));
  }

  lemma OneOrder(s: seq<Packed>, x: Packed, y: Packed)
    requires OnePerPath(s) && Precedes(s, x, y)
    ensures !Precedes(s, y, x)
  {}

  // ----- ties: two bundles -----

  lemma ReversedHasSameFiles(root: Option<Node>)
    requires WellFormedRoot(root)
    ensures WellFormedRoot(ReversedRoot(root)) && SameManagedFiles(ReversedRoot(root), root)
  {
    if root.Some? { ReversedIsWellFormed(root.value); }
    forall q: Path | Managed(q) ensures FileAt(ReversedRoot(root), q) == FileAt(root, q) { FileAtReversed(root, q); }
  }

  lemma OrderedTieBreaksBundle(root: Option<Node>, f: Format, k: nat, x: Item, y: Item)
    requires Collates(f) && WellFormedRoot(root) && k < |ROOTS| && Precedes(Under(root, ROOTS[k]), x, y)
    requires Tied(f, x.path, y.path)
    ensures Sort(Pack(Collected(ReversedRoot(root)), f), f) != Sort(Pack(Collected(root), f), f)
  {
    UnderReversed(root, ROOTS[k]);
    PrecedesBackwards(Under(root, ROOTS[k]), x, y);
    ExportKeepsListing(root, f, k, x, y);
    ExportKeepsListing(ReversedRoot(root), f, k, y, x);
    ExportIsOnePerPath(root, f);
    OneOrder(Sort(Pack(Collected(root), f), f), PackOne(x, f), PackOne(y, f));
  }

  /** Two files below one managed path that collate equal: the folders listed backwards hold the same
      files and give another bundle. */
  lemma TieBreaksBundle(root: Option<Node>, f: Format, p: Path, q: Path)
    requires Collates(f) && WellFormedRoot(root) && Export(root, f).Some?
    requires Managed(p) && Managed(q) && RootOf(p) == RootOf(q) && p != q && Tied(f, p, q)
    requires FileAt(root, p).Some? && FileAt(root, q).Some?
    ensures Export(ReversedRoot(root), f) != Export(root, f)
  {
    var k := RootOf(p);
    var x, y := Item(p, FileAt(root, p).value), Item(q, FileAt(root, q).value);
    RootOfManaged(p);
    RootOfManaged(q);
    UnderMeets(root, ROOTS[k], p, x.data);
    UnderMeets(root, ROOTS[k], q, y.data);
    var under := Under(root, ROOTS[k]);
    var i :| 0 <= i < |under| && under[i] == x;
    var j :| 0 <= j < |under| && under[j] == y;
    if i < j { OrderedTieBreaksBundle(root, f, k, x, y); } else { OrderedTieBreaksBundle(root, f, k, y, x); }
  }

  // ----- the round trip -----

  /** Exporting any tree with the same managed files gives the identical bundle, whatever the listing order,
      exactly if collation tells the files below each managed path apart. */
  lemma SameFilesSameBundleIff(src: Option<Node>, f: Format)
    requires Collates(f) && WellFormedRoot(src) && Export(src, f).Some?
    ensures (forall again | WellFormedRoot(again) && SameManagedFiles(again, src) :: Export(again, f) == Export(src, f))
            <==> TellsApart(src, f)
  {
    if TellsApart(src, f) {
      forall again | WellFormedRoot(again) && SameManagedFiles(again, src) ensures Export(again, f) == Export(src, f) {
        SameFilesSameBundle(src, again, f);
      }
    } else {
      var p: Path, q: Path :| Managed(p) && Managed(q) && RootOf(p) == RootOf(q)
        && FileAt(src, p).Some? && FileAt(src, q).Some? && p != q && Tied(f, p, q);
      TieBreaksBundle(src, f, p, q);
      ReversedHasSameFiles(src);
    }
  }

  /** Exporting the destination of a transfer again, in whatever order its folders are listed and whatever
      was added beside the managed paths, gives the identical bundle, exactly if collation tells the files
      of the source below each managed path apart. */
  lemma RoundTrip(src: Option<Node>, dest: Option<Node>, f: Format)
    requires Lossless(f) && Collates(f) && WellFormedRoot(src) && Export(src, f).Some?
    requires dest == None || dest == Some(Dir(End))
    ensures var imported := Import(dest, Export(src, f).value, f).root;
            (forall again | WellFormedRoot(again) && SameManagedFiles(again, imported) :: Export(again, f) == Export(src, f))
            <==> TellsApart(src, f)
  {
    var imported := Import(dest, Export(src, f).value, f).root;
    ImportOfExportSucceeds(src, dest, f);
    assert SameManagedFiles(imported, src);
    assert forall again :: SameManagedFiles(again, imported) <==> SameManagedFiles(again, src);
    SameFilesSameBundleIff(src, f);
  }

  // ----- two spellings of one name -----

  const COMPOSED := "\U{00E9}"
  const DECOMPOSED := "e\U{0301}"

  /** A private folder with one file under each spelling. */
  function TwoSpellings(): Option<Node> {
    Some(Dir(Entry("private", Dir(Entry(COMPOSED, File([1]), Entry(DECOMPOSED, File([2]), End))), End)))
  }

  lemma SpellingsDiffer()
    ensures COMPOSED != DECOMPOSED && "profile" != "private"
  {
    assert |COMPOSED| == 1 && |DECOMPOSED| == 2;
    assert "profile"[2] == 'o' && "private"[2] == 'i';
  }

  lemma NodeBelow(es: Entries, first: string, rest: Path)
    ensures NodeAt(Some(Dir(es)), [first] + rest) == NodeAt(Find(es, first), rest)
  {
    assert ([first] + rest)[1..] == rest;
  }

  lemma NothingBelow(p: Path)
    ensures NodeAt(None, p) == None
  {}

  lemma SpellingsAt(root: Option<Node>, name: string)
    requires root == TwoSpellings()
    ensures NodeAt(root, ["private"]) == Some(root.value.entries.node) && NodeAt(root, ["profile"]) == None
    ensures NodeAt(root, ["private", name]) == Find(root.value.entries.node.entries, name)
    ensures NodeAt(root, ["profile", name]) == None
  {
    var es, inner := root.value.entries, root.value.entries.node.entries;
    SpellingsDiffer();
    assert Find(es, "private") == Some(Dir(inner)) && Find(es, "profile") == None;
    NodeBelow(es, "private", []);
    NodeBelow(es, "profile", []);
    NodeBelow(es, "private", [name]);
    NodeBelow(es, "profile", [name]);
    NodeBelow(inner, name, []);
    NothingBelow([name]);
    assert ["private"] + [] == ["private"] && ["profile"] + [] == ["profile"] && [name] + [] == [name];
    assert ["private"] + [name] == ["private", name] && ["profile"] + [name] == ["profile", name];
  }

  lemma SpellingsItems(root: Option<Node>)
    requires root == TwoSpellings()
    ensures Total(Collected(root)) == 2
  {
    SpellingsAt(root, "MEMORY.md");
    SpellingsAt(root, "USER.md");
    SpellingsAt(root, "skills");
    var x, y := Item(["private"] + [COMPOSED], [1]), Item(["private"] + [DECOMPOSED], [2]);
    var inner := root.value.entries.node.entries;
    assert VisitAll(inner.rest, ["private"]) == [y] + [];
    assert Under(root, ROOTS[0]) == VisitAll(inner, ["private"]) == [x] + ([y] + []);
    assert Collected(root) == [x, y];
    assert [x, y][..1] == [x] && [x][..0] == [];
    assert Total([x]) == 1;
  }

  lemma SpellingsFacts(root: Option<Node>)
    requires root == TwoSpellings()
    ensures WellFormedRoot(root) && Total(Collected(root)) == 2
    ensures FileAt(root, ["private", COMPOSED]).Some? && FileAt(root, ["private", DECOMPOSED]).Some?
  {
    SpellingsDiffer();
    SpellingsItems(root);
    SpellingsAt(root, COMPOSED);
    SpellingsAt(root, DECOMPOSED);
    assert |COMPOSED| == 1 && |DECOMPOSED| == 2 && COMPOSED != "." && COMPOSED != "" && COMPOSED != "..";
    assert DECOMPOSED[0] == 'e' && DECOMPOSED != "..";
    assert "private"[0] == 'p' && GoodName("private") && GoodName(COMPOSED) && GoodName(DECOMPOSED);
    var inner := root.value.entries.node.entries;
    assert Find(inner, COMPOSED) == Some(File([1])) && Find(inner, DECOMPOSED) == Some(File([2]));
    assert Find(inner.rest, COMPOSED) == None && WellFormedAll(inner.rest.rest);
    assert WellFormedAll(inner.rest) && WellFormedAll(inner) && WellFormedAll(End);
    assert WellFormedAll(root.value.entries);
  }

  /** Under a collation that equates the two spellings, the same two files give two bundles. */
  lemma ListingDecidesBetweenSpellings(root: Option<Node>, f: Format)
    requires root == TwoSpellings() && Collates(f) && Tied(f, ["private", COMPOSED], ["private", DECOMPOSED])
    ensures Export(root, f).Some? && WellFormedRoot(ReversedRoot(root)) && SameManagedFiles(ReversedRoot(root), root)
    ensures Export(ReversedRoot(root), f) != Export(root, f)
  {
    SpellingsFacts(root);
    ReversedHasSameFiles(root);
    var p, q := ["private", COMPOSED], ["private", DECOMPOSED];
    SpellingsDiffer();
    assert p[1] != q[1];
    assert ROOTS[0] <= p && ROOTS[0] <= q;
    RootOfIs(0, p);
    RootOfIs(0, q);
    TieBreaksBundle(root, f, p, q);
  }
}
