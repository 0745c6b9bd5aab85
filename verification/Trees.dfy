/** Directory trees and what writing and visiting them does to the files they hold. */
module Trees {
  import opened Rows

  type Byte = b: nat | b < 256
  type Bytes = seq<Byte>
  type Path = seq<string>

  datatype Node = File(data: Bytes) | Dir(entries: Entries) | Symlink | Special

  /** The entries of a directory in listing order. */
  datatype Entries = End | Entry(name: string, node: Node, rest: Entries)

  function Find(es: Entries, name: string): Option<Node> {
    match es
    case End => None
    case Entry(n, node, rest) => if n == name then Some(node) else Find(rest, name)
  }

  /** Names are proper names, and no directory lists one twice. */
  predicate GoodName(n: string) { n != "" && n != "." && n != ".." }

  predicate WellFormed(node: Node) {
    node.Dir? ==> WellFormedAll(node.entries)
  }

  predicate WellFormedAll(es: Entries) {
    es.Entry? ==> GoodName(es.name) && WellFormed(es.node) && Find(es.rest, es.name).None? && WellFormedAll(es.rest)
  }

  predicate WellFormedRoot(root: Option<Node>) { root.Some? ==> WellFormed(root.value) }

  function NodeAt(root: Option<Node>, p: Path): Option<Node>
    decreases |p|
  {
    if p == [] then root
    else if root.Some? && root.value.Dir? then NodeAt(Find(root.value.entries, p[0]), p[1..])
    else None
  }

  function FileAt(root: Option<Node>, p: Path): Option<Bytes> {
    var node := NodeAt(root, p);
    if node.Some? && node.value.File? then Some(node.value.data) else None
  }

  // ----- writing -----

  function Put(es: Entries, name: string, node: Node): Entries {
    match es
    case End => Entry(name, node, End)
    case Entry(n, old_, rest) => if n == name then Entry(n, node, rest) else Entry(n, old_, Put(rest, name, node))
  }

  /** Making the directories above a file and writing it; nothing when the way is blocked. */
  function WriteFile(root: Option<Node>, p: Path, data: Bytes): Option<Node>
    decreases |p|
  {
    if p == [] then
      if root.None? || root.value.File? then Some(File(data)) else None
    else if root.None? || root.value.Dir? then
      var es := if root.Some? then root.value.entries else End;
      var child := WriteFile(Find(es, p[0]), p[1..], data);
      if child.Some? then Some(Dir(Put(es, p[0], child.value))) else None
    else None
  }

  lemma {:induction false} FindAfterPut(es: Entries, name: string, node: Node, q: string)
    ensures Find(Put(es, name, node), q) == if q == name then Some(node) else Find(es, q)
  {
    if es.Entry? && es.name != name { FindAfterPut(es.rest, name, node, q); }
  }

  /** A write changes the file at its own path and no other. */
  lemma {:induction false} WriteChangesOnlyItsPath(root: Option<Node>, p: Path, data: Bytes, q: Path)
    requires WriteFile(root, p, data).Some?
    ensures FileAt(WriteFile(root, p, data), q) == if q == p then Some(data) else FileAt(root, q)
    decreases |p|
  {
    if p != [] && q != [] {
      var es := if root.Some? then root.value.entries else End;
      var child := WriteFile(Find(es, p[0]), p[1..], data);
      FindAfterPut(es, p[0], child.value, q[0]);
      if root.None? { assert NodeAt(None, q[1..]) == None; }
      assert FileAt(Some(Dir(es)), q) == FileAt(root, q);
      if q[0] == p[0] {
        WriteChangesOnlyItsPath(Find(es, p[0]), p[1..], data, q[1..]);
        assert q[1..] == p[1..] ==> q == [q[0]] + q[1..] == p;
      }
    }
  }

  lemma {:induction false} PutKeepsWellFormed(es: Entries, name: string, node: Node)
    requires WellFormedAll(es) && GoodName(name) && WellFormed(node)
    ensures WellFormedAll(Put(es, name, node))
  {
    if es.Entry? && es.name != name {
      PutKeepsWellFormed(es.rest, name, node);
      FindAfterPut(es.rest, name, node, es.name);
    }
  }

  lemma {:induction false} FoundIsWellFormed(es: Entries, name: string)
    requires WellFormedAll(es) && Find(es, name).Some?
    ensures WellFormed(Find(es, name).value) && GoodName(name)
  {
    if es.name != name { FoundIsWellFormed(es.rest, name); }
  }

  lemma {:induction false} WriteKeepsWellFormed(root: Option<Node>, p: Path, data: Bytes)
    requires WellFormedRoot(root) && WriteFile(root, p, data).Some? && forall n | n in p :: GoodName(n)
    ensures WellFormed(WriteFile(root, p, data).value)
    decreases |p|
  {
    if p != [] {
      var es := if root.Some? then root.value.entries else End;
      if Find(es, p[0]).Some? { FoundIsWellFormed(es, p[0]); }
      assert forall n | n in p[1..] :: n in p;
      WriteKeepsWellFormed(Find(es, p[0]), p[1..], data);
      PutKeepsWellFormed(es, p[0], WriteFile(Find(es, p[0]), p[1..], data).value);
    }
  }

  // ----- when a write succeeds -----

  /** A tree made of files and directories that are not empty: what writing files grows. */
  predicate Grown(node: Node) {
    match node
    case File(_) => true
    case Dir(es) => es.Entry? && GrownAll(es)
    case _ => false
  }

  predicate GrownAll(es: Entries) { es.Entry? ==> Grown(es.node) && GrownAll(es.rest) }

  /** Where files may be written: nothing yet, an empty directory, or such a tree. */
  predicate Growing(root: Option<Node>) { root == None || root == Some(Dir(End)) || Grown(root.value) }

  lemma {:induction false} FoundIsGrown(es: Entries, name: string)
    requires GrownAll(es) && Find(es, name).Some?
    ensures Grown(Find(es, name).value)
  {
    if es.name != name { FoundIsGrown(es.rest, name); }
  }

  lemma {:induction false} PutKeepsGrown(es: Entries, name: string, node: Node)
    requires GrownAll(es) && Grown(node)
    ensures GrownAll(Put(es, name, node)) && Put(es, name, node).Entry?
  {
    if es.Entry? && es.name != name { PutKeepsGrown(es.rest, name, node); }
  }

  lemma {:induction false} WriteKeepsGrown(root: Option<Node>, p: Path, data: Bytes)
    requires Growing(root) && WriteFile(root, p, data).Some?
    ensures Grown(WriteFile(root, p, data).value)
    decreases |p|
  {
    if p != [] {
      var es := if root.Some? then root.value.entries else End;
      if Find(es, p[0]).Some? { FoundIsGrown(es, p[0]); }
      WriteKeepsGrown(Find(es, p[0]), p[1..], data);
      PutKeepsGrown(es, p[0], WriteFile(Find(es, p[0]), p[1..], data).value);
    }
  }

  lemma {:induction false} GrownHasFile(node: Node) returns (q: Path)
    requires Grown(node)
    ensures FileAt(Some(node), q).Some?
  {
    if node.File? {
      q := [];
    } else {
      var below := GrownHasFile(node.entries.node);
      q := [node.entries.name] + below;
      assert q[1..] == below;
    }
  }

  predicate Strict(p: Path, q: Path) { p <= q && p != q }

  /** No file of the tree lies above or below the path. */
  ghost predicate Unblocked(root: Option<Node>, p: Path) {
    forall q: Path | FileAt(root, q).Some? :: !Strict(q, p) && !Strict(p, q)
  }

  lemma UnblockedBelow(es: Entries, p: Path)
    requires p != [] && Unblocked(Some(Dir(es)), p)
    ensures Unblocked(Find(es, p[0]), p[1..])
  {
    forall q: Path | FileAt(Find(es, p[0]), q).Some? ensures !Strict(q, p[1..]) && !Strict(p[1..], q) {
      var whole := [p[0]] + q;
      assert whole[1..] == q && p == [p[0]] + p[1..];
      assert FileAt(Some(Dir(es)), whole).Some?;
    }
  }

  lemma {:induction false} UnblockedWriteSucceeds(root: Option<Node>, p: Path, data: Bytes)
    requires Growing(root) && Unblocked(root, p) && (p == [] ==> root != Some(Dir(End)))
    ensures WriteFile(root, p, data).Some?
    decreases |p|
  {
    if root.Some? && root.value.File? {
      assert FileAt(root, []).Some?;
    } else if p == [] {
      if root.Some? {
        var q := GrownHasFile(root.value);
        assert Strict(p, q);
      }
    } else {
      var es := if root.Some? then root.value.entries else End;
      if Find(es, p[0]).Some? { FoundIsGrown(es, p[0]); }
      if root.Some? {
        UnblockedBelow(es, p);
        GrownChild(es, p[0]);
      }
      UnblockedWriteSucceeds(Find(es, p[0]), p[1..], data);
    }
  }

  lemma GrownChild(es: Entries, name: string)
    requires GrownAll(es)
    ensures Growing(Find(es, name)) && Find(es, name) != Some(Dir(End))
  {
    if Find(es, name).Some? { FoundIsGrown(es, name); }
  }

  /** No file lies above another file. */
  lemma {:induction false} FilesAreLeaves(root: Option<Node>, p: Path, q: Path)
    requires FileAt(root, p).Some? && FileAt(root, q).Some?
    ensures !Strict(p, q)
    decreases |p|
  {
    if p != [] && p <= q {
      FilesAreLeaves(Find(root.value.entries, p[0]), p[1..], q[1..]);
      assert p == [p[0]] + p[1..] && q == [q[0]] + q[1..];
    }
  }

  lemma {:induction false} PathNamesAreGood(root: Option<Node>, p: Path)
    requires WellFormedRoot(root) && NodeAt(root, p).Some?
    ensures forall n | n in p :: GoodName(n)
    decreases |p|
  {
    if p != [] {
      FoundIsWellFormed(root.value.entries, p[0]);
      PathNamesAreGood(Find(root.value.entries, p[0]), p[1..]);
      assert p == [p[0]] + p[1..];
    }
  }

  lemma {:induction false} NodeIsWellFormed(root: Option<Node>, p: Path)
    requires WellFormedRoot(root) && NodeAt(root, p).Some?
    ensures WellFormed(NodeAt(root, p).value)
    decreases |p|
  {
    if p != [] {
      FoundIsWellFormed(root.value.entries, p[0]);
      NodeIsWellFormed(Find(root.value.entries, p[0]), p[1..]);
    }
  }

  lemma {:induction false} NodeAtJoined(root: Option<Node>, p: Path, q: Path)
    ensures NodeAt(root, p + q) == NodeAt(NodeAt(root, p), q)
    decreases |p|
  {
    if p == [] {
      assert p + q == q;
    } else {
      assert (p + q)[1..] == p[1..] + q;
      if root.Some? && root.value.Dir? {
        NodeAtJoined(Find(root.value.entries, p[0]), p[1..], q);
      }
    }
  }

  // ----- visiting -----

  datatype Item = Item(path: Path, data: Bytes)

  /** The files met on a recursive visit, in listing order; symbolic links and special files are skipped. */
  function Visit(node: Node, p: Path): seq<Item> {
    match node
    case File(data) => [Item(p, data)]
    case Dir(es) => VisitAll(es, p)
    case _ => []
  }

  function VisitAll(es: Entries, p: Path): seq<Item> {
    match es
    case End => []
    case Entry(n, node, rest) => Visit(node, p + [n]) + VisitAll(rest, p)
  }

  lemma {:induction false} VisitMeets(node: Node, p: Path, q: Path, data: Bytes)
    requires WellFormed(node)
    ensures Item(q, data) in Visit(node, p) <==> p <= q && FileAt(Some(node), q[|p|..]) == Some(data)
  {
    match node
    case File(_) =>
      if p <= q {
        assert q == p + q[|p|..];
        assert q[|p|..] == [] <==> q == p;
      }
    case Dir(es) =>
      VisitAllMeets(es, p, q, data);
      if p <= q && |p| < |q| { assert q[|p|..][1..] == q[|p| + 1..]; }
    case _ =>
  }

  lemma {:induction false} VisitAllMeets(es: Entries, p: Path, q: Path, data: Bytes)
    requires WellFormedAll(es)
    ensures Item(q, data) in VisitAll(es, p)
            <==> p <= q && |p| < |q| && FileAt(Find(es, q[|p|]), q[|p| + 1..]) == Some(data)
  {
    if es.Entry? {
      VisitMeets(es.node, p + [es.name], q, data);
      VisitAllMeets(es.rest, p, q, data);
      if p <= q && |p| < |q| {
        assert q == p + [q[|p|]] + q[|p| + 1..];
        assert p + [es.name] <= q <==> q[|p|] == es.name;
      }
    }
  }

  /** Every path is met at most once. */
  ghost predicate DistinctPaths(items: seq<Item>) {
    forall i, j | 0 <= i < j < |items| :: items[i].path != items[j].path
  }

  lemma JoinDistinct(a: seq<Item>, b: seq<Item>)
    requires DistinctPaths(a) && DistinctPaths(b)
    requires forall x, y | x in a && y in b :: x.path != y.path
    ensures DistinctPaths(a + b)
  {
    forall i, j | 0 <= i < j < |a + b| ensures (a + b)[i].path != (a + b)[j].path {
      if i < |a| <= j { assert a[i] in a && b[j - |a|] in b; }
    }
  }

  lemma {:induction false} VisitIsDistinct(node: Node, p: Path)
    requires WellFormed(node)
    ensures DistinctPaths(Visit(node, p))
  {
    if node.Dir? { VisitAllIsDistinct(node.entries, p); }
  }

  lemma {:induction false} VisitAllIsDistinct(es: Entries, p: Path)
    requires WellFormedAll(es)
    ensures DistinctPaths(VisitAll(es, p))
  {
    if es.Entry? {
      var a, b := Visit(es.node, p + [es.name]), VisitAll(es.rest, p);
      VisitIsDistinct(es.node, p + [es.name]);
      VisitAllIsDistinct(es.rest, p);
      forall x, y | x in a && y in b ensures x.path != y.path {
        VisitMeets(es.node, p + [es.name], x.path, x.data);
        VisitAllMeets(es.rest, p, y.path, y.data);
        assert x == Item(x.path, x.data) && y == Item(y.path, y.data);
        assert (p + [es.name])[|p|] == es.name;
      }
      JoinDistinct(a, b);
    }
  }
}
