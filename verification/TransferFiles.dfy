/** Bundles of an agent's managed files (runtime/transfer-files.ts): export, import, and the round
    trip between two computers. */
module TransferFiles {
  import opened Rows
  import opened Trees

  const EXPORT_LIMIT := 20_000_000
  const IMPORT_LIMIT := 100_000_000

  const ROOTS: seq<Path> := [["private"], ["profile", "MEMORY.md"], ["profile", "USER.md"], ["profile", "skills"]]

  predicate Managed(p: Path) { exists i | 0 <= i < |ROOTS| :: ROOTS[i] <= p }

  /** The managed paths are the private folder, the two profile notes and the skills folder. */
  lemma ManagedPaths(p: Path)
    ensures Managed(p) <==>
              || ["private"] <= p || ["profile", "MEMORY.md"] <= p || ["profile", "USER.md"] <= p || ["profile", "skills"] <= p
  {
    assert ROOTS[0] == ["private"] && ROOTS[1] == ["profile", "MEMORY.md"] && ROOTS[2] == ["profile", "USER.md"]
           && ROOTS[3] == ["profile", "skills"];
  }

  /** What the bundle format is built from: the digest of a file, the digest of the list of paths and
      digests, the text encoding, and the collation of paths (`a` not after `b`). */
  datatype Format = Format(
    digest: Bytes -> nat, index: seq<(Path, nat)> -> nat,
    encode: Bytes -> string, decode: string -> Bytes,
    collate: (Path, Path) -> bool)

  /** Decoding inverts encoding. */
  ghost predicate Lossless(f: Format) { forall d: Bytes :: f.decode(f.encode(d)) == d }

  /** Collation compares any two paths and is transitive. It may equate different paths, as it does with
      two spellings of one name that are canonically equivalent. */
  ghost predicate Collates(f: Format) {
    && (forall a, b :: f.collate(a, b) || f.collate(b, a))
    && (forall a, b, c :: f.collate(a, b) && f.collate(b, c) ==> f.collate(a, c))
  }

  datatype Packed = Packed(path: Path, data: string, checksum: nat)

  datatype Bundle = Bundle(files: seq<Packed>, checksum: nat)

  // ----- sorting -----

  /** Placed behind everything that does not come after it, as a stable sort does. */
  function Insert(x: Packed, s: seq<Packed>, f: Format): seq<Packed> {
    if s == [] then [x]
    else if f.collate(s[0].path, x.path) then [s[0]] + Insert(x, s[1..], f)
    else [x] + s
  }

  function Sort(s: seq<Packed>, f: Format): seq<Packed> {
    if s == [] then [] else Insert(s[|s| - 1], Sort(s[..|s| - 1], f), f)
  }

  ghost predicate Sorted(s: seq<Packed>, f: Format) {
    forall i, j | 0 <= i < j < |s| :: f.collate(s[i].path, s[j].path)
  }

  ghost predicate OnePerPath(s: seq<Packed>) {
    forall i, j | 0 <= i < j < |s| :: s[i].path != s[j].path
  }

  lemma {:induction false} InsertCounts(x: Packed, s: seq<Packed>, f: Format)
    ensures multiset(Insert(x, s, f)) == multiset(s) + multiset{x}
  {
    if s != [] {
      assert s == [s[0]] + s[1..];
      InsertCounts(x, s[1..], f);
    }
  }

  lemma PrependSorted(x: Packed, s: seq<Packed>, f: Format)
    requires Sorted(s, f) && forall y | y in s :: f.collate(x.path, y.path)
    ensures Sorted([x] + s, f)
  {
    assert forall i | 0 <= i < |s| :: s[i] in s;
  }

  lemma {:induction false} InsertSorts(x: Packed, s: seq<Packed>, f: Format)
    requires Collates(f) && Sorted(s, f)
    ensures Sorted(Insert(x, s, f), f)
  {
    if s != [] {
      TailKeepsOrder(s, f);
      if f.collate(s[0].path, x.path) {
        var rest := Insert(x, s[1..], f);
        InsertSorts(x, s[1..], f);
        forall y | y in rest ensures f.collate(s[0].path, y.path) {
          InsertCounts(x, s[1..], f);
          assert y in multiset(rest);
          if y != x {
            assert y in s[1..];
            HeadComesFirst(s, y, f);
          }
        }
        PrependSorted(s[0], rest, f);
      } else {
        assert f.collate(x.path, s[0].path);
        forall y | y in s ensures f.collate(x.path, y.path) { HeadComesFirst(s, y, f); }
        PrependSorted(x, s, f);
      }
    }
  }

  lemma {:induction false} SortCounts(s: seq<Packed>, f: Format)
    ensures multiset(Sort(s, f)) == multiset(s)
  {
    if s != [] {
      var n := |s| - 1;
      SortCounts(s[..n], f);
      InsertCounts(s[n], Sort(s[..n], f), f);
      LastCounts(s);
    }
  }

  lemma LastCounts(s: seq<Packed>)
    requires s != []
    ensures multiset(s) == multiset(s[..|s| - 1]) + multiset{s[|s| - 1]}
  {
    assert s == s[..|s| - 1] + [s[|s| - 1]];
  }

  lemma {:induction false} SortSorts(s: seq<Packed>, f: Format)
    requires Collates(f)
    ensures Sorted(Sort(s, f), f)
  {
    if s != [] {
      var n := |s| - 1;
      SortSorts(s[..n], f);
      InsertSorts(s[n], Sort(s[..n], f), f);
    }
  }

  lemma HeadComesFirst(a: seq<Packed>, x: Packed, f: Format)
    requires Collates(f) && Sorted(a, f) && x in a
    ensures f.collate(a[0].path, x.path)
  {
    var i :| 0 <= i < |a| && a[i] == x;
    assert f.collate(a[0].path, a[0].path);
  }

  lemma TailKeepsOrder(a: seq<Packed>, f: Format)
    requires a != []
    ensures Sorted(a, f) ==> Sorted(a[1..], f)
    ensures OnePerPath(a) ==> OnePerPath(a[1..])
  {}

  // ----- export -----

  function PackOne(x: Item, f: Format): Packed { Packed(x.path, f.encode(x.data), f.digest(x.data)) }

  function Pack(items: seq<Item>, f: Format): (r: seq<Packed>)
    ensures |r| == |items|
    ensures forall i | 0 <= i < |r| :: r[i] == PackOne(items[i], f)
  {
    seq(|items|, i requires 0 <= i < |items| => PackOne(items[i], f))
  }

  function Total(items: seq<Item>): nat {
    if items == [] then 0 else Total(items[..|items| - 1]) + |items[|items| - 1].data|
  }

  function Under(root: Option<Node>, p: Path): seq<Item> {
    var node := NodeAt(root, p);
    if node.Some? then Visit(node.value, p) else []
  }

  function Collected(root: Option<Node>): seq<Item> {
    Under(root, ROOTS[0]) + Under(root, ROOTS[1]) + Under(root, ROOTS[2]) + Under(root, ROOTS[3])
  }

  function Listing(files: seq<Packed>): (r: seq<(Path, nat)>)
    ensures |r| == |files|
  {
    seq(|files|, i requires 0 <= i < |files| => (files[i].path, files[i].checksum))
  }

  /** `exportAgentFiles`, or nothing when the limit is exceeded. */
  function Export(root: Option<Node>, f: Format): Option<Bundle> {
    var items := Collected(root);
    if Total(items) > EXPORT_LIMIT then None
    else
      var files := Sort(Pack(items, f), f);
      Some(Bundle(files, f.index(Listing(files))))
  }

  // ----- import -----

  /** `normalize` on the parts of a relative path. */
  function Normal(done: Path, rest: Path): Path
    decreases |rest|
  {
    if rest == [] then done
    else if rest[0] == "" || rest[0] == "." then Normal(done, rest[1..])
    else if rest[0] == ".." && done != [] && done[|done| - 1] != ".." then Normal(done[..|done| - 1], rest[1..])
    else Normal(done + [rest[0]], rest[1..])
  }

  /** The path a file is written to, if the bundle may name it. */
  function Target(p: Path): (t: Option<Path>)
    ensures t.Some? ==> Managed(t.value)
  {
    if |p| > 1 && p[0] == "" then None
    else if Managed(Normal([], p)) then Some(Normal([], p))
    else None
  }

  datatype Progress = Stopped(root: Option<Node>) | Written(root: Option<Node>)

  function ImportFiles(root: Option<Node>, files: seq<Packed>, total: nat, f: Format): Progress
    decreases |files|
  {
    if files == [] then Written(root)
    else
      var target, data := Target(files[0].path), f.decode(files[0].data);
      if target.None? || total + |data| > IMPORT_LIMIT || f.digest(data) != files[0].checksum then Stopped(root)
      else
        var next := WriteFile(root, target.value, data);
        if next.None? then Stopped(root) else ImportFiles(next, files[1..], total + |data|, f)
  }

  datatype Imported = Imported(root: Option<Node>, checksum: Option<nat>)

  /** `importAgentFiles`: the tree it leaves, and the checksum unless it failed. */
  function Import(root: Option<Node>, bundle: Bundle, f: Format): Imported {
    var progress := ImportFiles(root, bundle.files, 0, f);
    if progress.Written? && f.index(Listing(Sort(bundle.files, f))) == bundle.checksum
    then Imported(progress.root, Some(bundle.checksum))
    else Imported(progress.root, None)
  }

  /** Whatever the bundle says, no file outside the managed paths is written. */
  lemma {:induction false} ImportStaysManaged(root: Option<Node>, files: seq<Packed>, total: nat, f: Format, q: Path)
    requires !Managed(q)
    ensures FileAt(ImportFiles(root, files, total, f).root, q) == FileAt(root, q)
    decreases |files|
  {
    if files != [] {
      var target, data := Target(files[0].path), f.decode(files[0].data);
      if target.Some? {
        var next := WriteFile(root, target.value, data);
        if next.Some? {
          WriteChangesOnlyItsPath(root, target.value, data, q);
          ImportStaysManaged(next, files[1..], total + |data|, f, q);
        }
      }
    }
  }

  // ----- what an export contains -----

  lemma UnderMeets(root: Option<Node>, r: Path, q: Path, data: Bytes)
    requires WellFormedRoot(root)
    ensures Item(q, data) in Under(root, r) <==> r <= q && FileAt(root, q) == Some(data)
  {
    if r <= q {
      assert q == r + q[|r|..];
      NodeAtJoined(root, r, q[|r|..]);
      if NodeAt(root, r).None? { assert NodeAt(None, q[|r|..]).None?; }
    }
    if NodeAt(root, r).Some? {
      NodeIsWellFormed(root, r);
      VisitMeets(NodeAt(root, r).value, r, q, data);
    }
  }

  /** The export collects exactly the files at managed paths. */
  lemma CollectedMeets(root: Option<Node>, q: Path, data: Bytes)
    requires WellFormedRoot(root)
    ensures Item(q, data) in Collected(root) <==> Managed(q) && FileAt(root, q) == Some(data)
  {
    UnderMeets(root, ROOTS[0], q, data);
    UnderMeets(root, ROOTS[1], q, data);
    UnderMeets(root, ROOTS[2], q, data);
    UnderMeets(root, ROOTS[3], q, data);
    assert Managed(q) <==> ROOTS[0] <= q || ROOTS[1] <= q || ROOTS[2] <= q || ROOTS[3] <= q;
  }

  lemma CollectedIsDistinct(root: Option<Node>)
    requires WellFormedRoot(root)
    ensures DistinctPaths(Collected(root))
  {
    forall i | 0 <= i < |ROOTS| ensures DistinctPaths(Under(root, ROOTS[i])) {
      if NodeAt(root, ROOTS[i]).Some? {
        NodeIsWellFormed(root, ROOTS[i]);
        VisitIsDistinct(NodeAt(root, ROOTS[i]).value, ROOTS[i]);
      }
    }
    UnderApart(root, 0, 1);
    UnderApart(root, 0, 2);
    UnderApart(root, 0, 3);
    UnderApart(root, 1, 2);
    UnderApart(root, 1, 3);
    UnderApart(root, 2, 3);
    var a, b, c, d := Under(root, ROOTS[0]), Under(root, ROOTS[1]), Under(root, ROOTS[2]), Under(root, ROOTS[3]);
    assert DistinctPaths(a) && DistinctPaths(b) && DistinctPaths(c) && DistinctPaths(d);
    JoinDistinct(a, b);
    JoinDistinct(a + b, c);
    JoinDistinct(a + b + c, d);
  }

  lemma RootsApart(i: nat, j: nat)
    requires i < j < |ROOTS|
    ensures exists k :: 0 <= k < |ROOTS[i]| && k < |ROOTS[j]| && ROOTS[i][k] != ROOTS[j][k]
  {
    assert ROOTS[0][0] == "private" && ROOTS[1][0] == "profile" && ROOTS[2][0] == "profile" && ROOTS[3][0] == "profile";
    assert ROOTS[1][1] == "MEMORY.md" && ROOTS[2][1] == "USER.md" && ROOTS[3][1] == "skills";
    assert "private"[1] != "profile"[2];
    assert "private"[2] != "profile"[2];
    assert "MEMORY.md"[0] == 'M' && "USER.md"[0] == 'U' && "skills"[0] == 's';
    var k := if i == 0 then 0 else 1;
    assert ROOTS[i][k] != ROOTS[j][k];
  }

  lemma UnderApart(root: Option<Node>, i: nat, j: nat)
    requires WellFormedRoot(root) && i < j < |ROOTS|
    ensures forall x, y | x in Under(root, ROOTS[i]) && y in Under(root, ROOTS[j]) :: x.path != y.path
  {
    forall x, y | x in Under(root, ROOTS[i]) && y in Under(root, ROOTS[j]) ensures x.path != y.path {
      RootsApart(i, j);
      var k :| 0 <= k < |ROOTS[i]| && k < |ROOTS[j]| && ROOTS[i][k] != ROOTS[j][k];
      assert x == Item(x.path, x.data) && y == Item(y.path, y.data);
      UnderMeets(root, ROOTS[i], x.path, x.data);
      UnderMeets(root, ROOTS[j], y.path, y.data);
      assert x.path[k] == ROOTS[i][k] && y.path[k] == ROOTS[j][k];
    }
  }

  // ----- the same files give the same bundle -----

  ghost predicate SameManagedFiles(a: Option<Node>, b: Option<Node>) {
    forall q: Path | Managed(q) :: FileAt(a, q) == FileAt(b, q)
  }

  lemma SameFilesSameItems(a: Option<Node>, b: Option<Node>)
    requires WellFormedRoot(a) && WellFormedRoot(b) && SameManagedFiles(a, b)
    ensures multiset(Collected(a)) == multiset(Collected(b))
  {
    CollectedIsDistinct(a);
    CollectedIsDistinct(b);
    forall x ensures x in Collected(a) <==> x in Collected(b) {
      CollectedMeets(a, x.path, x.data);
      CollectedMeets(b, x.path, x.data);
      assert x == Item(x.path, x.data);
    }
    SameElementsSameCounts(Collected(a), Collected(b));
  }

  lemma {:induction false} CountOnce(s: seq<Item>, x: Item)
    requires DistinctPaths(s)
    ensures multiset(s)[x] == if x in s then 1 else 0
  {
    if s != [] {
      var n := |s| - 1;
      CountOnce(s[..n], x);
      assert s == s[..n] + [s[n]];
      assert forall i | 0 <= i < n :: s[i].path != s[n].path;
    }
  }

  lemma SameElementsSameCounts(a: seq<Item>, b: seq<Item>)
    requires DistinctPaths(a) && DistinctPaths(b) && forall x :: x in a <==> x in b
    ensures multiset(a) == multiset(b)
  {
    forall x ensures multiset(a)[x] == multiset(b)[x] {
      CountOnce(a, x);
      CountOnce(b, x);
    }
  }

  lemma {:induction false} SameCountsSameTotal(a: seq<Item>, b: seq<Item>)
    requires multiset(a) == multiset(b)
    ensures Total(a) == Total(b)
    decreases |a|
  {
    if a == [] || b == [] {
      assert |multiset(a)| == |a| && |multiset(b)| == |b|;
    } else {
      var n := |a| - 1;
      assert a[n] in multiset(b);
      var k :| 0 <= k < |b| && b[k] == a[n];
      WithoutOne(a, n);
      WithoutOne(b, k);
      assert a[..n] + a[n + 1..] == a[..n];
      SameCountsSameTotal(a[..n], b[..k] + b[k + 1..]);
      TotalWithout(b, k);
    }
  }

  lemma {:induction false} TotalWithout(b: seq<Item>, k: nat)
    requires k < |b|
    ensures Total(b) == Total(b[..k] + b[k + 1..]) + |b[k].data|
  {
    var n := |b| - 1;
    if k == n {
      assert b[..k] + b[k + 1..] == b[..n];
    } else {
      TotalWithout(b[..n], k);
      var rest := b[..k] + b[k + 1..];
      assert rest[..|rest| - 1] == b[..n][..k] + b[..n][k + 1..];
      assert rest[|rest| - 1] == b[n];
    }
  }

  lemma PackWithout(b: seq<Item>, k: nat, f: Format)
    requires k < |b|
    ensures multiset(Pack(b, f)) == multiset(Pack(b[..k] + b[k + 1..], f)) + multiset{PackOne(b[k], f)}
  {
    var rest := b[..k] + b[k + 1..];
    var packed := Pack(b, f);
    assert packed == packed[..k] + [packed[k]] + packed[k + 1..];
    assert Pack(rest, f) == packed[..k] + packed[k + 1..];
  }

  lemma {:induction false} PackCounts(a: seq<Item>, b: seq<Item>, f: Format)
    requires multiset(a) == multiset(b)
    ensures multiset(Pack(a, f)) == multiset(Pack(b, f))
    decreases |a|
  {
    if a == [] || b == [] {
      assert |multiset(a)| == |a| && |multiset(b)| == |b|;
    } else {
      var n := |a| - 1;
      assert a[n] in multiset(b);
      var k :| 0 <= k < |b| && b[k] == a[n];
      WithoutOne(a, n);
      WithoutOne(b, k);
      assert a[..n] + a[n + 1..] == a[..n];
      PackCounts(a[..n], b[..k] + b[k + 1..], f);
      PackWithout(a, n, f);
      PackWithout(b, k, f);
    }
  }

  lemma WithoutOne(b: seq<Item>, k: nat)
    requires k < |b|
    ensures multiset(b[..k] + b[k + 1..]) == multiset(b) - multiset{b[k]}
  {
    assert b == b[..k] + [b[k]] + b[k + 1..];
  }

  lemma ExportIsOnePerPath(root: Option<Node>, f: Format)
    requires WellFormedRoot(root)
    ensures OnePerPath(Pack(Collected(root), f)) && OnePerPath(Sort(Pack(Collected(root), f), f))
  {
    CollectedIsDistinct(root);
    var packed := Pack(Collected(root), f);
    SortCounts(packed, f);
    SameCountsSamePaths(packed, Sort(packed, f));
  }

  lemma {:induction false} PathCounts(s: seq<Packed>, x: Packed)
    requires OnePerPath(s)
    ensures multiset(s)[x] <= 1
    ensures x in s ==> forall y | y in s && y.path == x.path :: y == x
  {
    if s != [] {
      var n := |s| - 1;
      assert s == s[..n] + [s[n]];
      assert forall i | 0 <= i < n :: s[i].path != s[n].path;
      PathCounts(s[..n], x);
      assert s[n] !in s[..n];
    }
  }

  lemma SameCountsSamePaths(a: seq<Packed>, b: seq<Packed>)
    requires OnePerPath(a) && multiset(a) == multiset(b)
    ensures OnePerPath(b)
  {
    forall i, j | 0 <= i < j < |b| ensures b[i].path != b[j].path {
      assert b[i] in multiset(a) && b[j] in multiset(a);
      PathCounts(a, b[i]);
      if b[i] == b[j] { CountedTwice(b, i, j); }
    }
  }

  lemma CountedTwice(s: seq<Packed>, i: nat, j: nat)
    requires i < j < |s| && s[i] == s[j]
    ensures multiset(s)[s[i]] >= 2
  {
    assert s == s[..j] + [s[j]] + s[j + 1..];
    assert s[..j][i] in multiset(s[..j]);
  }

  // ----- round trip -----

  function Size(files: seq<Packed>, f: Format): nat {
    if files == [] then 0 else |f.decode(files[0].data)| + Size(files[1..], f)
  }

  // ----- which paths a bundle may name -----

  /** A part that names something, and is not a step up, a step in place or empty. */
  predicate Proper(part: string) { part != "" && part != "." && part != ".." }

  lemma {:induction false} NormalJoin(done: Path, a: Path, b: Path)
    ensures Normal(done, a + b) == Normal(Normal(done, a), b)
    decreases |a|
  {
    if a == [] {
      assert a + b == b;
    } else {
      assert (a + b)[0] == a[0] && (a + b)[1..] == a[1..] + b;
      if a[0] == "" || a[0] == "." { NormalJoin(done, a[1..], b); }
      else if a[0] == ".." && done != [] && done[|done| - 1] != ".." { NormalJoin(done[..|done| - 1], a[1..], b); }
      else { NormalJoin(done + [a[0]], a[1..], b); }
    }
  }

  lemma {:induction false} ProperPathStays(done: Path, p: Path)
    requires forall part | part in p :: Proper(part)
    ensures Normal(done, p) == done + p
    decreases |p|
  {
    if p == [] {
      assert done + p == done;
    } else {
      assert Proper(p[0]) && forall part | part in p[1..] :: part in p;
      ProperPathStays(done + [p[0]], p[1..]);
      assert done + [p[0]] + p[1..] == done + p;
    }
  }

  lemma {:induction false} UpStays(done: Path, p: Path)
    requires done != [] && done[0] == ".."
    ensures Normal(done, p) != [] && Normal(done, p)[0] == ".."
    decreases |p|
  {
    if p != [] {
      if p[0] == "" || p[0] == "." { UpStays(done, p[1..]); }
      else if p[0] == ".." && done[|done| - 1] != ".." { UpStays(done[..|done| - 1], p[1..]); }
      else { UpStays(done + [p[0]], p[1..]); }
    }
  }

  lemma NormalOfStep(done: Path, part: string)
    ensures (part == "" || part == ".") ==> Normal(done, [part]) == done
    ensures Proper(part) ==> Normal(done, [part, ".."]) == done
  {
    assert [part][1..] == [];
    if Proper(part) {
      assert [part, ".."][1..] == [".."] && [".."][1..] == [];
      assert (done + [part])[..|done|] == done;
      assert Normal(done + [part], [".."]) == Normal(done, []);
    }
  }

  lemma ManagedIsProper(p: Path)
    ensures Managed(p) ==> p != [] && p[0] != ".."
  {
    ManagedPaths(p);
    assert |"private"| == 7 && |"profile"| == 7;
  }

  lemma UpIsRefused(p: Path)
    ensures Target([".."] + p) == None
  {
    NormalJoin([], [".."], p);
    var up: Path := [".."];
    assert up[1..] == [] && Normal([], up) == [] + up && [] + up == up;
    UpStays(up, p);
    ManagedIsProper(Normal([], [".."] + p));
  }

  /** A relative path without steps is taken as it is, exactly if it is managed; absolute paths and paths that begin with a
      step up are refused, and a step in place at the beginning makes no difference. */
  lemma PlainPaths(p: Path)
    ensures (forall part | part in p :: Proper(part)) ==> Target(p) == if Managed(p) then Some(p) else None
    ensures |p| > 1 && p[0] == "" ==> Target(p) == None
    ensures Target([".."] + p) == None
    ensures p == [] || p[0] != "" ==> Target(["."] + p) == Target(p)
  {
    if forall part | part in p :: Proper(part) {
      ProperPathStays([], p);
      assert [] + p == p;
      if p != [] { assert p[0] in p; }
    }
    UpIsRefused(p);
    NormalJoin([], ["."], p);
    NormalOfStep([], ".");
  }

  /** Anywhere behind the first part, a step in place, an empty part, and a name followed by a step up make no difference. */
  lemma StepsInPaths(a: Path, b: Path, part: string)
    requires a != [] && a[0] != ""
    ensures part == "" || part == "." ==> Target(a + [part] + b) == Target(a + b)
    ensures Proper(part) ==> Target(a + [part, ".."] + b) == Target(a + b)
  {
    NormalJoin([], a, b);
    NormalOfStep(Normal([], a), part);
    NormalJoin([], a + [part], b);
    NormalJoin([], a, [part]);
    NormalJoin([], a + [part, ".."], b);
    NormalJoin([], a, [part, ".."]);
    assert (a + b)[0] == a[0] && (a + [part] + b)[0] == a[0] && (a + [part, ".."] + b)[0] == a[0];
  }

  // ----- what is refused -----

  /** The file goes to a managed path and is what its checksum says. */
  predicate Acceptable(x: Packed, f: Format) { Target(x.path).Some? && f.digest(f.decode(x.data)) == x.checksum }

  /** One after the other the files find room in the tree: nothing is in the way of their folders and names. */
  predicate FindRoom(root: Option<Node>, files: seq<Packed>, f: Format)
    decreases |files|
  {
    files == [] ||
    (Target(files[0].path).Some? &&
     var next := WriteFile(root, Target(files[0].path).value, f.decode(files[0].data));
     next.Some? && FindRoom(next, files[1..], f))
  }

  ghost predicate AllAcceptable(files: seq<Packed>, f: Format) {
    forall x | x in files :: Acceptable(x, f)
  }

  lemma AllAcceptableStep(files: seq<Packed>, f: Format)
    requires files != []
    ensures AllAcceptable(files, f) <==> Acceptable(files[0], f) && AllAcceptable(files[1..], f)
  {
    assert files == [files[0]] + files[1..];
  }

  lemma OneFile(root: Option<Node>, files: seq<Packed>, total: nat, f: Format)
    requires files != []
    ensures var data := f.decode(files[0].data); var target := Target(files[0].path);
            ImportFiles(root, files, total, f).Written? <==>
              && Acceptable(files[0], f) && total + |data| <= IMPORT_LIMIT && WriteFile(root, target.value, data).Some?
              && ImportFiles(WriteFile(root, target.value, data), files[1..], total + |data|, f).Written?
  {}

  lemma {:induction false} FilesAreWrittenIff(root: Option<Node>, files: seq<Packed>, total: nat, f: Format)
    ensures ImportFiles(root, files, total, f).Written? <==>
              AllAcceptable(files, f) && (files == [] || total + Size(files, f) <= IMPORT_LIMIT) && FindRoom(root, files, f)
    decreases |files|
  {
    if files != [] {
      OneFile(root, files, total, f);
      AllAcceptableStep(files, f);
      var target, data := Target(files[0].path), f.decode(files[0].data);
      if target.Some? {
        var next := WriteFile(root, target.value, data);
        if next.Some? { FilesAreWrittenIff(next, files[1..], total + |data|, f); }
      }
    }
  }

  /** An import succeeds exactly if every file goes to a managed path, is what its checksum says and finds room, all
      files together have at most 100 million bytes, and the checksum of the bundle is that of its list. An export fails
      exactly above 20 million bytes. */
  lemma TransferLimits(root: Option<Node>, bundle: Bundle, f: Format)
    ensures Import(root, bundle, f).checksum.Some? <==>
              && (forall x | x in bundle.files :: Acceptable(x, f)) && Size(bundle.files, f) <= 100_000_000
              && FindRoom(root, bundle.files, f)
              && f.index(Listing(Sort(bundle.files, f))) == bundle.checksum
    ensures Export(root, f).None? <==> Total(Collected(root)) > 20_000_000
  {
    FilesAreWrittenIff(root, bundle.files, 0, f);
  }

  lemma {:induction false} InsertSize(x: Packed, s: seq<Packed>, f: Format)
    ensures Size(Insert(x, s, f), f) == Size(s, f) + |f.decode(x.data)|
  {
    if s != [] && f.collate(s[0].path, x.path) {
      InsertSize(x, s[1..], f);
      assert Insert(x, s, f)[1..] == Insert(x, s[1..], f);
    } else {
      assert ([x] + s)[1..] == s;
    }
  }

  lemma {:induction false} SortedSize(items: seq<Item>, f: Format)
    requires Lossless(f)
    ensures Size(Sort(Pack(items, f), f), f) == Total(items)
  {
    if items != [] {
      var n := |items| - 1;
      SortedSize(items[..n], f);
      assert Pack(items, f)[..n] == Pack(items[..n], f);
      InsertSize(PackOne(items[n], f), Sort(Pack(items[..n], f), f), f);
    }
  }

  lemma {:induction false} GoodPathsAreNormal(done: Path, rest: Path)
    requires forall n | n in rest :: GoodName(n)
    ensures Normal(done, rest) == done + rest
    decreases |rest|
  {
    if rest != [] {
      assert rest[0] in rest && forall n | n in rest[1..] :: n in rest;
      GoodPathsAreNormal(done + [rest[0]], rest[1..]);
      assert done + [rest[0]] + rest[1..] == done + rest;
    }
  }

  /** The packed file is a managed file of the tree. */
  ghost predicate Genuine(src: Option<Node>, x: Packed, f: Format) {
    && Managed(x.path) && (forall n | n in x.path :: GoodName(n))
    && FileAt(src, x.path) == Some(f.decode(x.data)) && f.digest(f.decode(x.data)) == x.checksum
  }

  ghost predicate AllGenuine(src: Option<Node>, files: seq<Packed>, f: Format) {
    forall x | x in files :: Genuine(src, x, f)
  }

  ghost predicate PartOf(root: Option<Node>, src: Option<Node>) {
    forall q: Path | FileAt(root, q).Some? :: FileAt(root, q) == FileAt(src, q)
  }

  lemma GenuineTarget(src: Option<Node>, x: Packed, f: Format)
    requires Genuine(src, x, f)
    ensures Target(x.path) == Some(x.path) && x.path != []
  {
    GoodPathsAreNormal([], x.path);
    assert [] + x.path == x.path;
    var i :| 0 <= i < |ROOTS| && ROOTS[i] <= x.path;
    assert |ROOTS[i]| > 0;
    assert x.path[0] in x.path;
  }

  lemma GenuineWrite(src: Option<Node>, root: Option<Node>, x: Packed, f: Format)
    requires Growing(root) && PartOf(root, src) && Genuine(src, x, f)
    ensures var next := WriteFile(root, x.path, f.decode(x.data));
            && next.Some? && Growing(next) && PartOf(next, src)
            && (WellFormedRoot(root) ==> WellFormedRoot(next))
            && forall q: Path :: FileAt(next, q) == if q == x.path then FileAt(src, q) else FileAt(root, q)
  {
    var data := f.decode(x.data);
    GenuineTarget(src, x, f);
    forall q: Path | FileAt(root, q).Some? ensures !Strict(q, x.path) && !Strict(x.path, q) {
      FilesAreLeaves(src, q, x.path);
      FilesAreLeaves(src, x.path, q);
    }
    UnblockedWriteSucceeds(root, x.path, data);
    var next := WriteFile(root, x.path, data);
    WriteKeepsGrown(root, x.path, data);
    if WellFormedRoot(root) { WriteKeepsWellFormed(root, x.path, data); }
    forall q: Path ensures FileAt(next, q) == if q == x.path then FileAt(src, q) else FileAt(root, q) {
      WriteChangesOnlyItsPath(root, x.path, data, q);
    }
  }

  ghost predicate Names(files: seq<Packed>, q: Path) { exists x | x in files :: x.path == q }

  lemma NamesStep(files: seq<Packed>, q: Path)
    requires files != []
    ensures Names(files, q) <==> q == files[0].path || Names(files[1..], q)
  {
    assert files == [files[0]] + files[1..];
  }

  lemma GenuineImportStep(src: Option<Node>, root: Option<Node>, files: seq<Packed>, total: nat, f: Format)
    requires files != [] && Growing(root) && PartOf(root, src) && Genuine(src, files[0], f)
    requires total + |f.decode(files[0].data)| <= IMPORT_LIMIT
    ensures var data := f.decode(files[0].data); var next := WriteFile(root, files[0].path, data);
            ImportFiles(root, files, total, f) == ImportFiles(next, files[1..], total + |data|, f)
  {
    GenuineTarget(src, files[0], f);
    GenuineWrite(src, root, files[0], f);
  }

  /** What an import of genuine files leaves behind. */
  ghost predicate Brought(src: Option<Node>, root: Option<Node>, files: seq<Packed>, r: Progress) {
    && r.Written? && WellFormedRoot(r.root)
    && forall q: Path :: FileAt(r.root, q) == if Names(files, q) then FileAt(src, q) else FileAt(root, q)
  }

  lemma BroughtOneMore(src: Option<Node>, root: Option<Node>, next: Option<Node>, files: seq<Packed>, r: Progress)
    requires files != [] && Brought(src, next, files[1..], r)
    requires forall q: Path :: FileAt(next, q) == if q == files[0].path then FileAt(src, q) else FileAt(root, q)
    ensures Brought(src, root, files, r)
  {
    forall q: Path ensures Names(files, q) <==> q == files[0].path || Names(files[1..], q) { NamesStep(files, q); }
  }

  lemma GenuineParts(src: Option<Node>, files: seq<Packed>, f: Format)
    requires files != [] && AllGenuine(src, files, f)
    ensures Genuine(src, files[0], f) && AllGenuine(src, files[1..], f)
    ensures Size(files, f) == |f.decode(files[0].data)| + Size(files[1..], f)
  {
    assert files[0] in files && forall y | y in files[1..] :: y in files;
  }

  lemma GenuineStep(src: Option<Node>, root: Option<Node>, files: seq<Packed>, total: nat, f: Format)
    requires files != [] && Growing(root) && WellFormedRoot(root) && PartOf(root, src) && AllGenuine(src, files, f)
    requires total + Size(files, f) <= IMPORT_LIMIT
    ensures var data := f.decode(files[0].data); var next := WriteFile(root, files[0].path, data);
            && Growing(next) && WellFormedRoot(next) && PartOf(next, src)
            && AllGenuine(src, files[1..], f) && total + |data| + Size(files[1..], f) <= IMPORT_LIMIT
            && ImportFiles(root, files, total, f) == ImportFiles(next, files[1..], total + |data|, f)
            && forall q: Path :: FileAt(next, q) == if q == files[0].path then FileAt(src, q) else FileAt(root, q)
  {
    GenuineParts(src, files, f);
    GenuineWrite(src, root, files[0], f);
    GenuineImportStep(src, root, files, total, f);
  }

  lemma {:induction false} GenuineImport(src: Option<Node>, root: Option<Node>, files: seq<Packed>, total: nat, f: Format)
    requires Growing(root) && WellFormedRoot(root) && PartOf(root, src)
    requires AllGenuine(src, files, f) && total + Size(files, f) <= IMPORT_LIMIT
    ensures Brought(src, root, files, ImportFiles(root, files, total, f))
    decreases |files|
  {
    if files != [] {
      var data := f.decode(files[0].data);
      var next := WriteFile(root, files[0].path, data);
      GenuineStep(src, root, files, total, f);
      GenuineImport(src, next, files[1..], total + |data|, f);
      BroughtOneMore(src, root, next, files, ImportFiles(root, files, total, f));
    }
  }

  lemma ExportedIsGenuine(src: Option<Node>, f: Format, x: Packed)
    requires Lossless(f) && WellFormedRoot(src) && x in Sort(Pack(Collected(src), f), f)
    ensures Genuine(src, x, f)
  {
    var packed := Pack(Collected(src), f);
    SortCounts(packed, f);
    assert x in multiset(packed);
    var i :| 0 <= i < |packed| && packed[i] == x;
    var item := Collected(src)[i];
    assert item in Collected(src) && item == Item(item.path, item.data);
    CollectedMeets(src, item.path, item.data);
    PathNamesAreGood(src, item.path);
  }

  lemma ExportNamesAll(src: Option<Node>, f: Format, q: Path)
    requires WellFormedRoot(src)
    ensures Names(Sort(Pack(Collected(src), f), f), q) <==> Managed(q) && FileAt(src, q).Some?
  {
    var items, packed := Collected(src), Pack(Collected(src), f);
    var files := Sort(packed, f);
    SortCounts(packed, f);
    if Managed(q) && FileAt(src, q).Some? {
      CollectedMeets(src, q, FileAt(src, q).value);
      var i :| 0 <= i < |items| && items[i] == Item(q, FileAt(src, q).value);
      assert packed[i] in multiset(packed) && packed[i] in files && packed[i].path == q;
    }
    if Names(files, q) {
      var x :| x in files && x.path == q;
      assert x in multiset(packed);
      var i :| 0 <= i < |packed| && packed[i] == x;
      assert items[i] in items && items[i] == Item(q, items[i].data);
      CollectedMeets(src, q, items[i].data);
    }
  }

  lemma {:induction false} InsertLast(x: Packed, s: seq<Packed>, f: Format)
    requires forall y | y in s :: f.collate(y.path, x.path)
    ensures Insert(x, s, f) == s + [x]
  {
    if s != [] {
      assert s[0] in s && forall y | y in s[1..] :: y in s;
      InsertLast(x, s[1..], f);
      assert s + [x] == [s[0]] + (s[1..] + [x]);
    }
  }

  /** Sorting leaves a sorted list alone, ties included. */
  lemma {:induction false} SortedStays(files: seq<Packed>, f: Format)
    requires Sorted(files, f)
    ensures Sort(files, f) == files
  {
    if files != [] {
      var n := |files| - 1;
      SortedStays(files[..n], f);
      InsertLast(files[n], files[..n], f);
      assert files == files[..n] + [files[n]];
    }
  }

  /** An exported bundle can always be imported into an empty folder. The import reports the bundle's
      checksum and brings over exactly the managed files, also when collation equates some of them. */
  lemma ImportOfExportSucceeds(src: Option<Node>, dest: Option<Node>, f: Format)
    requires Lossless(f) && Collates(f) && WellFormedRoot(src) && Export(src, f).Some?
    requires dest == None || dest == Some(Dir(End))
    ensures var bundle := Export(src, f).value; var r := Import(dest, bundle, f);
            && r.checksum == Some(bundle.checksum) && WellFormedRoot(r.root)
            && forall q: Path :: FileAt(r.root, q) == if Managed(q) then FileAt(src, q) else None
  {
    var files := Sort(Pack(Collected(src), f), f);
    SortedSize(Collected(src), f);
    forall x | x in files ensures Genuine(src, x, f) { ExportedIsGenuine(src, f, x); }
    forall q: Path ensures FileAt(dest, q) == None { EmptyHasNoFile(dest, q); }
    GenuineImport(src, dest, files, 0, f);
    forall q: Path ensures Names(files, q) <==> Managed(q) && FileAt(src, q).Some? { ExportNamesAll(src, f, q); }
    SortSorts(Pack(Collected(src), f), f);
    SortedStays(files, f);
  }

  lemma EmptyHasNoFile(dest: Option<Node>, q: Path)
    requires dest == None || dest == Some(Dir(End))
    ensures FileAt(dest, q) == None
  {
    if q != [] { assert NodeAt(None, q[1..]) == None; }
  }

  // ----- the two procedures -----

  lemma {:induction false} TotalJoin(a: seq<Item>, b: seq<Item>)
    ensures Total(a + b) == Total(a) + Total(b)
    decreases |b|
  {
    if b == [] {
      assert a + b == a;
    } else {
      var n := |b| - 1;
      TotalJoin(a, b[..n]);
      assert (a + b)[..|a + b| - 1] == a + b[..n];
    }
  }

  lemma PackJoin(a: seq<Item>, b: seq<Item>, f: Format)
    ensures Pack(a + b, f) == Pack(a, f) + Pack(b, f)
  {}

  /** An agent's folder on one computer. */
  class AgentFolder {
    var root: Option<Node>

    constructor (content: Option<Node>)
      ensures root == content
    {
      root := content;
    }

    /** Pushes the files below `node`; stops as soon as the limit is exceeded. */
    static method VisitInto(node: Node, p: Path, files: seq<Packed>, total: nat, f: Format, ghost so_far: seq<Item>)
        returns (files': seq<Packed>, total': nat)
      requires files == Pack(so_far, f) && total == Total(so_far) <= EXPORT_LIMIT
      ensures total' <= EXPORT_LIMIT <==> Total(so_far + Visit(node, p)) <= EXPORT_LIMIT
      ensures total' <= EXPORT_LIMIT ==>
                files' == Pack(so_far + Visit(node, p), f) && total' == Total(so_far + Visit(node, p))
      decreases node, 0
    {
      files', total' := files, total;
      TotalJoin(so_far, Visit(node, p));
      match node {
        case File(data) =>
          total' := total + |data|;
          assert Total([Item(p, data)]) == |data| by { assert [Item(p, data)][..0] == []; }
          if total' > EXPORT_LIMIT { return; }
          files' := files + [Packed(p, f.encode(data), f.digest(data))];
          PackJoin(so_far, [Item(p, data)], f);
        case Dir(entries) =>
          files', total' := VisitEntries(entries, p, files, total, f, so_far);
        case _ => assert so_far + [] == so_far;
      }
    }

    static method VisitEntries(entries: Entries, p: Path, files: seq<Packed>, total: nat, f: Format, ghost so_far: seq<Item>)
        returns (files': seq<Packed>, total': nat)
      requires files == Pack(so_far, f) && total == Total(so_far) <= EXPORT_LIMIT
      ensures total' <= EXPORT_LIMIT <==> Total(so_far + VisitAll(entries, p)) <= EXPORT_LIMIT
      ensures total' <= EXPORT_LIMIT ==>
                files' == Pack(so_far + VisitAll(entries, p), f) && total' == Total(so_far + VisitAll(entries, p))
      decreases entries, 0
    {
      files', total' := files, total;
      var es := entries;
      ghost var visited := so_far;
      while es.Entry?
        invariant es == entries || es < entries
        invariant visited + VisitAll(es, p) == so_far + VisitAll(entries, p)
        invariant files' == Pack(visited, f) && total' == Total(visited) <= EXPORT_LIMIT
        decreases es
      {
        ghost var below := Visit(es.node, p + [es.name]);
        assert visited + VisitAll(es, p) == (visited + below) + VisitAll(es.rest, p);
        TotalJoin(visited + below, VisitAll(es.rest, p));
        files', total' := VisitInto(es.node, p + [es.name], files', total', f, visited);
        if total' > EXPORT_LIMIT { return; }
        visited := visited + below;
        es := es.rest;
      }
      assert visited + [] == visited;
    }

    /** Visits one of the managed paths, if it exists. */
    method VisitRoot(p: Path, files: seq<Packed>, total: nat, f: Format, ghost so_far: seq<Item>)
        returns (files': seq<Packed>, total': nat)
      requires files == Pack(so_far, f) && total == Total(so_far) <= EXPORT_LIMIT
      ensures total' <= EXPORT_LIMIT <==> Total(so_far + Under(root, p)) <= EXPORT_LIMIT
      ensures total' <= EXPORT_LIMIT ==>
                files' == Pack(so_far + Under(root, p), f) && total' == Total(so_far + Under(root, p))
    {
      var node := NodeAt(root, p);
      if node.Some? {
        files', total' := VisitInto(node.value, p, files, total, f, so_far);
      } else {
        files', total' := files, total;
        assert so_far + [] == so_far;
      }
    }

    method ExportAgentFiles(f: Format) returns (r: Option<Bundle>)
      ensures r == Export(root, f)
    {
      var files: seq<Packed>, total: nat := [], 0;
      var i := 0;
      while i < |ROOTS|
        invariant 0 <= i <= |ROOTS|
        invariant files == Pack(CollectedTo(root, i), f) && total == Total(CollectedTo(root, i)) <= EXPORT_LIMIT
      {
        CollectedSplit(root, i);
        files, total := VisitRoot(ROOTS[i], files, total, f, CollectedTo(root, i));
        if total > EXPORT_LIMIT { return None; }
        i := i + 1;
      }
      CollectedSplit(root, 3);
      files := Sort(files, f);
      r := Some(Bundle(files, f.index(Listing(files))));
    }

    method ImportAgentFiles(bundle: Bundle, f: Format) returns (checksum: Option<nat>)
      modifies this
      ensures Imported(root, checksum) == Import(old(root), bundle, f)
    {
      var total: nat := 0;
      var i := 0;
      while i < |bundle.files|
        invariant 0 <= i <= |bundle.files|
        invariant ImportFiles(old(root), bundle.files, 0, f) == ImportFiles(root, bundle.files[i..], total, f)
      {
        var file := bundle.files[i];
        var target, data := Target(file.path), f.decode(file.data);
        if target.None? || total + |data| > IMPORT_LIMIT || f.digest(data) != file.checksum { return None; }
        var next := WriteFile(root, target.value, data);
        if next.None? { return None; }
        total := total + |data|;
        root := next;
        i := i + 1;
      }
      if f.index(Listing(Sort(bundle.files, f))) != bundle.checksum { return None; }
      checksum := Some(bundle.checksum);
    }
  }

  /** What the first `n` roots hold. */
  ghost function CollectedTo(root: Option<Node>, n: nat): seq<Item>
    requires n <= |ROOTS|
  {
    if n == 0 then [] else CollectedTo(root, n - 1) + Under(root, ROOTS[n - 1])
  }

  lemma CollectedSplit(root: Option<Node>, n: nat)
    requires n < |ROOTS|
    ensures CollectedTo(root, n + 1) == CollectedTo(root, n) + Under(root, ROOTS[n])
    ensures Total(CollectedTo(root, n + 1)) <= Total(Collected(root))
    ensures CollectedTo(root, |ROOTS|) == Collected(root)
  {
    var a, b, c, d := Under(root, ROOTS[0]), Under(root, ROOTS[1]), Under(root, ROOTS[2]), Under(root, ROOTS[3]);
    assert CollectedTo(root, 1) == a;
    assert CollectedTo(root, 2) == a + b;
    assert CollectedTo(root, 3) == a + b + c;
    TotalJoin(a, b);
    TotalJoin(a + b, c);
    TotalJoin(a + b + c, d);
  }
}
