/**
  The file tree of the repository panel: a flat list of entries, edited by tests on
  path prefixes, that stands for a tree with some directories expanded.
 */
module RepositoryTree {
  import opened Wrappers

  datatype Kind = File | Directory

  datatype Entry = Entry(path: string, kind: Kind)

  // --------------------------------------------------------- the list editing

  /** `path.startsWith(directory + "/")` */
  predicate IsDescendant(path: string, directory: string) {
    |directory| < |path| && path[..|directory|] == directory && path[|directory|] == '/'
  }

  /** JavaScript's `findIndex` on the path, with the length for -1. */
  function FindIndex(entries: seq<Entry>, path: string): nat {
    if entries == [] || entries[0].path == path then 0 else 1 + FindIndex(entries[1..], path)
  }

  function Collapse(entries: seq<Entry>, directory: string): seq<Entry> {
    if entries == [] then []
    else (if IsDescendant(entries[0].path, directory) then [] else [entries[0]]) + Collapse(entries[1..], directory)
  }

  function Expand(entries: seq<Entry>, directory: string, children: seq<Entry>): seq<Entry> {
    if FindIndex(entries, directory) >= |entries| then entries
    else
      var kept := Collapse(entries, directory);
      var found := FindIndex(kept, directory);
      var at := if found < |kept| then found + 1 else 0;
      kept[..at] + children + kept[at..]
  }

  function Descendants(entries: seq<Entry>, directory: string): seq<Entry> {
    if entries == [] then []
    else (if IsDescendant(entries[0].path, directory) then [entries[0]] else []) + Descendants(entries[1..], directory)
  }

  function ReplaceRoot(entries: seq<Entry>, roots: seq<Entry>): seq<Entry> {
    if roots == [] then []
    else [roots[0]] + Descendants(entries, roots[0].path) + ReplaceRoot(entries, roots[1..])
  }

  function CollapsedPaths(expanded: seq<string>, directory: string): seq<string> {
    if expanded == [] then []
    else (if expanded[0] != directory && !IsDescendant(expanded[0], directory) then [expanded[0]] else [])
         + CollapsedPaths(expanded[1..], directory)
  }

  // ------------------------------------------------ laws of the list editing

  predicate Shows(entries: seq<Entry>, path: string) {
    exists i :: 0 <= i < |entries| && entries[i].path == path
  }

  /** Puts `children` right after the first entry at `directory`. */
  function InsertAfter(entries: seq<Entry>, directory: string, children: seq<Entry>): seq<Entry> {
    if entries == [] then []
    else if entries[0].path == directory then [entries[0]] + children + entries[1..]
    else [entries[0]] + InsertAfter(entries[1..], directory, children)
  }

  lemma ShowsConcat(xs: seq<Entry>, ys: seq<Entry>, path: string)
    ensures Shows(xs + ys, path) <==> Shows(xs, path) || Shows(ys, path)
  {
    if Shows(xs, path) {
      var i :| 0 <= i < |xs| && xs[i].path == path;
      assert (xs + ys)[i].path == path;
    }
    if Shows(ys, path) {
      var i :| 0 <= i < |ys| && ys[i].path == path;
      assert (xs + ys)[|xs| + i].path == path;
    }
    if Shows(xs + ys, path) {
      var i :| 0 <= i < |xs + ys| && (xs + ys)[i].path == path;
      if i < |xs| {
        assert xs[i].path == path;
      } else {
        assert ys[i - |xs|].path == path;
      }
    }
  }

  lemma ShowsCons(entries: seq<Entry>, path: string)
    requires entries != []
    ensures Shows(entries, path) <==> entries[0].path == path || Shows(entries[1..], path)
  {
    assert [entries[0]] + entries[1..] == entries;
    ShowsConcat([entries[0]], entries[1..], path);
    assert [entries[0]][0].path == entries[0].path;
  }

  lemma {:induction false} FindsShown(entries: seq<Entry>, path: string)
    ensures FindIndex(entries, path) <= |entries|
    ensures FindIndex(entries, path) < |entries| <==> Shows(entries, path)
    ensures Shows(entries, path) ==> entries[FindIndex(entries, path)].path == path
    ensures forall i :: 0 <= i < FindIndex(entries, path) ==> entries[i].path != path
  {
    if entries != [] {
      ShowsCons(entries, path);
      FindsShown(entries[1..], path);
    }
  }

  lemma Regroup(a: seq<Entry>, b: seq<Entry>, c: seq<Entry>, d: seq<Entry>)
    ensures a + (b + c) == a + b + c
    ensures a + (b + c + d) == a + b + c + d
    ensures a + b + (c + d) == a + b + c + d
  {
  }

  lemma {:induction false} InsertConcat(xs: seq<Entry>, ys: seq<Entry>, directory: string, children: seq<Entry>)
    ensures InsertAfter(xs + ys, directory, children) ==
            if Shows(xs, directory) then InsertAfter(xs, directory, children) + ys
            else xs + InsertAfter(ys, directory, children)
  {
    if xs == [] {
      assert xs + ys == ys;
    } else {
      assert (xs + ys)[1..] == xs[1..] + ys;
      ShowsCons(xs, directory);
      if xs[0].path == directory {
        Regroup([xs[0]], children, xs[1..], ys);
      } else {
        assert xs == [xs[0]] + xs[1..];
        InsertConcat(xs[1..], ys, directory, children);
        Regroup([xs[0]], InsertAfter(xs[1..], directory, children), ys, []);
        Regroup([xs[0]], xs[1..], InsertAfter(ys, directory, children), []);
      }
    }
  }

  lemma InsertSplit(before: seq<Entry>, x: Entry, rest: seq<Entry>, children: seq<Entry>)
    requires !Shows(before, x.path)
    ensures InsertAfter(before + [x] + rest, x.path, children) == before + [x] + children + rest
  {
    Regroup(before, [x], rest, []);
    InsertConcat(before, [x] + rest, x.path, children);
    assert ([x] + rest)[1..] == rest;
    Regroup(before, [x], children, rest);
  }

  lemma InsertAfterAt(entries: seq<Entry>, directory: string, children: seq<Entry>)
    requires Shows(entries, directory)
    ensures var at := FindIndex(entries, directory);
            && at < |entries|
            && InsertAfter(entries, directory, children) == entries[..at + 1] + children + entries[at + 1..]
  {
    FindsShown(entries, directory);
    var at := FindIndex(entries, directory);
    assert !Shows(entries[..at], directory);
    assert entries[..at + 1] == entries[..at] + [entries[at]];
    assert entries == entries[..at + 1] + entries[at + 1..];
    InsertSplit(entries[..at], entries[at], entries[at + 1..], children);
  }

  lemma {:induction false} CollapseConcat(xs: seq<Entry>, ys: seq<Entry>, directory: string)
    ensures Collapse(xs + ys, directory) == Collapse(xs, directory) + Collapse(ys, directory)
  {
    if xs == [] {
      assert xs + ys == ys;
    } else {
      assert (xs + ys)[1..] == xs[1..] + ys;
      CollapseConcat(xs[1..], ys, directory);
      var head := if IsDescendant(xs[0].path, directory) then [] else [xs[0]];
      Regroup(head, Collapse(xs[1..], directory), Collapse(ys, directory), []);
    }
  }

  /** Collapsing removes exactly the descendants. */
  lemma {:induction false} CollapseHas(entries: seq<Entry>, directory: string, e: Entry)
    ensures e in Collapse(entries, directory) <==> e in entries && !IsDescendant(e.path, directory)
  {
    if entries != [] {
      CollapseHas(entries[1..], directory, e);
      assert entries == [entries[0]] + entries[1..];
    }
  }

  /** So a directory stays on show when it is collapsed. */
  lemma {:induction false} CollapseShows(entries: seq<Entry>, directory: string)
    ensures Shows(Collapse(entries, directory), directory) <==> Shows(entries, directory)
  {
    if entries != [] {
      var kept := if IsDescendant(entries[0].path, directory) then [] else [entries[0]];
      ShowsCons(entries, directory);
      CollapseShows(entries[1..], directory);
      ShowsConcat(kept, Collapse(entries[1..], directory), directory);
      assert Shows(kept, directory) <==> entries[0].path == directory by {
        assert kept != [] ==> kept[0].path == entries[0].path;
      }
    }
  }

  lemma {:induction false} CollapseIdempotent(entries: seq<Entry>, directory: string)
    ensures Collapse(Collapse(entries, directory), directory) == Collapse(entries, directory)
  {
    if entries != [] {
      CollapseIdempotent(entries[1..], directory);
      CollapseConcat(if IsDescendant(entries[0].path, directory) then [] else [entries[0]],
                     Collapse(entries[1..], directory), directory);
    }
  }

  lemma {:induction false} CollapseAll(entries: seq<Entry>, directory: string)
    requires forall e :: e in entries ==> IsDescendant(e.path, directory)
    ensures Collapse(entries, directory) == []
  {
    if entries != [] {
      CollapseAll(entries[1..], directory);
    }
  }

  /** Expanding is collapsing and then inserting the listing after the directory. */
  lemma ExpandIsInsert(entries: seq<Entry>, directory: string, children: seq<Entry>)
    requires Shows(entries, directory)
    ensures Expand(entries, directory, children) == InsertAfter(Collapse(entries, directory), directory, children)
  {
    var kept := Collapse(entries, directory);
    FindsShown(entries, directory);
    CollapseShows(entries, directory);
    FindsShown(kept, directory);
    ExpandAt(entries, kept, directory, children, FindIndex(kept, directory));
    InsertAfterAt(kept, directory, children);
  }

  lemma ExpandAt(entries: seq<Entry>, kept: seq<Entry>, directory: string, children: seq<Entry>, at: nat)
    requires FindIndex(entries, directory) < |entries| && kept == Collapse(entries, directory)
    requires at == FindIndex(kept, directory) < |kept|
    ensures Expand(entries, directory, children) == kept[..at + 1] + children + kept[at + 1..]
  {
  }

  lemma {:induction false} CollapseInsert(entries: seq<Entry>, directory: string, children: seq<Entry>)
    requires forall e :: e in children ==> IsDescendant(e.path, directory)
    ensures Collapse(InsertAfter(entries, directory, children), directory) == Collapse(entries, directory)
    ensures Shows(entries, directory) ==> Shows(InsertAfter(entries, directory, children), directory)
  {
    if entries != [] {
      var head, rest := [entries[0]], entries[1..];
      if entries[0].path == directory {
        CollapseAll(children, directory);
        CollapseConcat(head + children, rest, directory);
        CollapseConcat(head, children, directory);
        CollapseConcat(head, rest, directory);
        assert InsertAfter(entries, directory, children)[0].path == directory;
      } else {
        CollapseInsert(rest, directory, children);
        var inserted := InsertAfter(rest, directory, children);
        assert (head + inserted)[1..] == inserted;
        ShowsCons(entries, directory);
        ShowsCons(head + inserted, directory);
      }
    }
  }

  /** Expanding a directory twice with the same listing is expanding it once, on any list. */
  lemma ExpandIdempotent(entries: seq<Entry>, directory: string, children: seq<Entry>)
    requires forall e :: e in children ==> IsDescendant(e.path, directory)
    ensures Expand(Expand(entries, directory, children), directory, children) == Expand(entries, directory, children)
  {
    FindsShown(entries, directory);
    if Shows(entries, directory) {
      var kept := Collapse(entries, directory);
      ExpandIsInsert(entries, directory, children);
      CollapseShows(entries, directory);
      CollapseInsert(kept, directory, children);
      CollapseIdempotent(entries, directory);
      ExpandIsInsert(InsertAfter(kept, directory, children), directory, children);
    }
  }

  /** Collapsing right after expanding is the same as collapsing alone, on any list. */
  lemma CollapseAfterExpand(entries: seq<Entry>, directory: string, children: seq<Entry>)
    requires forall e :: e in children ==> IsDescendant(e.path, directory)
    ensures Collapse(Expand(entries, directory, children), directory) == Collapse(entries, directory)
  {
    FindsShown(entries, directory);
    if Shows(entries, directory) {
      ExpandIsInsert(entries, directory, children);
      CollapseInsert(Collapse(entries, directory), directory, children);
      CollapseIdempotent(entries, directory);
    }
  }

  // ------------------------------------------------------------ the real tree

  /** The repository on disk. */
  datatype Node = FileNode(name: string) | DirNode(name: string, children: seq<Node>)

  predicate SlashFree(name: string) {
    forall i :: 0 <= i < |name| ==> name[i] != '/'
  }

  /** Names are slash-free, and distinct among siblings. */
  predicate WellFormed(nodes: seq<Node>) {
    && (forall i :: 0 <= i < |nodes| ==> SlashFree(nodes[i].name))
    && (forall i, j :: 0 <= i < j < |nodes| ==> nodes[i].name != nodes[j].name)
    && (forall i :: 0 <= i < |nodes| && nodes[i].DirNode? ==> WellFormed(nodes[i].children))
  }

  function EntryOf(n: Node, base: string): Entry {
    Entry(base + n.name, if n.DirNode? then Directory else File)
  }

  /** The listing of one directory; `base` is "" for the root and the directory's path with "/" otherwise. */
  function Level(nodes: seq<Node>, base: string): seq<Entry> {
    if nodes == [] then [] else [EntryOf(nodes[0], base)] + Level(nodes[1..], base)
  }

  function Block(n: Node, base: string, open: set<string>): seq<Entry>
    decreases n, 0
  {
    if n.DirNode? && base + n.name in open then Preorder(n.children, base + n.name + "/", open) else []
  }

  /** The entries in pre-order, going into exactly the directories in `open`. */
  function Preorder(nodes: seq<Node>, base: string, open: set<string>): seq<Entry>
    decreases nodes, 1
  {
    if nodes == [] then []
    else [EntryOf(nodes[0], base)] + Block(nodes[0], base, open) + Preorder(nodes[1..], base, open)
  }

  /** The children of the directory at `path`. */
  function ListingOf(nodes: seq<Node>, base: string, path: string): Option<seq<Node>> {
    if nodes == [] then None
    else
      var n := nodes[0];
      var here := base + n.name;
      if n.DirNode? && here == path then Some(n.children)
      else if n.DirNode? && IsDescendant(path, here) then ListingOf(n.children, here + "/", path)
      else ListingOf(nodes[1..], base, path)
  }

  // ------------------------------------------------------- paths and prefixes

  /** The path itself or something under it. */
  predicate Within(path: string, directory: string) {
    path == directory || IsDescendant(path, directory)
  }

  /** Two siblings share no path. */
  lemma SiblingsApart(base: string, a: string, b: string, path: string)
    requires SlashFree(a) && SlashFree(b) && a != b
    requires Within(path, base + a)
    ensures !Within(path, base + b)
  {
    var here := base + b;
    if |a| < |b| && |here| <= |path| {
      assert path[..|here|][|base| + |a|] != here[|base| + |a|];
    } else if |b| < |a| {
      assert path[|here|] == path[..|base + a|][|here|] == a[|b|];
    } else if |a| == |b| {
      assert (base + a)[|base|..] == a && here[|base|..] == b;
    }
  }

  /** A level outside `directory` has none of its own entries under it. */
  lemma LevelOutside(base: string, name: string, directory: string)
    requires SlashFree(name) && !(directory + "/" <= base)
    ensures !IsDescendant(base + name, directory)
    ensures base + name != directory ==> !(directory + "/" <= base + name + "/")
  {
    var here := base + name;
    if |directory| < |here| {
      if |directory| >= |base| {
        assert here[|directory|] == name[|directory| - |base|];
      } else {
        DescendantIsPrefix(base, directory);
        assert here[..|directory|] == base[..|directory|];
      }
    }
    if |directory| < |here| {
      assert (here + "/")[..|directory| + 1] == here[..|directory| + 1];
      DescendantIsPrefix(here, directory);
    } else if |directory| == |here| {
      assert (here + "/")[..|here|] == here && (directory + "/")[..|here|] == directory;
    }
  }

  lemma DescendantIsPrefix(path: string, directory: string)
    ensures IsDescendant(path, directory) <==> directory + "/" <= path
  {
    if |directory| < |path| {
      assert path[..|directory| + 1] == path[..|directory|] + [path[|directory|]];
    }
  }

  lemma PrefixTrans(path: string, base: string, name: string)
    requires base + name + "/" <= path
    ensures base <= path
  {
    assert path[..|base|] == (path[..|base + name| + 1])[..|base|];
  }

  /** All entries of a pre-order start with its base. */
  lemma {:induction false} PreorderUnder(nodes: seq<Node>, base: string, open: set<string>, e: Entry)
    requires e in Preorder(nodes, base, open)
    ensures base <= e.path
    ensures exists i :: 0 <= i < |nodes| && Within(e.path, base + nodes[i].name)
    decreases nodes
  {
    var here := base + nodes[0].name;
    if e == EntryOf(nodes[0], base) {
    } else if e in Block(nodes[0], base, open) {
      PreorderUnder(nodes[0].children, here + "/", open, e);
      PrefixTrans(e.path, base, nodes[0].name);
      DescendantIsPrefix(e.path, here);
    } else {
      PreorderUnder(nodes[1..], base, open, e);
      var i :| 0 <= i < |nodes[1..]| && Within(e.path, base + nodes[1..][i].name);
      assert nodes[i + 1] == nodes[1..][i];
    }
  }

  lemma BlockUnder(n: Node, base: string, open: set<string>, e: Entry)
    requires e in Block(n, base, open)
    ensures IsDescendant(e.path, base + n.name)
  {
    PreorderUnder(n.children, base + n.name + "/", open, e);
    DescendantIsPrefix(e.path, base + n.name);
  }

  lemma TailWellFormed(nodes: seq<Node>)
    requires WellFormed(nodes) && nodes != []
    ensures WellFormed(nodes[1..]) && SlashFree(nodes[0].name)
    ensures nodes[0].DirNode? ==> WellFormed(nodes[0].children)
  {
    forall i | 0 <= i < |nodes[1..]| ensures nodes[1..][i] == nodes[i + 1] {}
  }

  /** The rest of a level shows nothing within its first node. */
  lemma RestApart(nodes: seq<Node>, base: string, open: set<string>, e: Entry)
    requires WellFormed(nodes) && nodes != [] && e in Preorder(nodes[1..], base, open)
    ensures !Within(e.path, base + nodes[0].name)
  {
    PreorderUnder(nodes[1..], base, open, e);
    var i :| 0 <= i < |nodes[1..]| && Within(e.path, base + nodes[1..][i].name);
    assert nodes[1..][i] == nodes[i + 1];
    if Within(e.path, base + nodes[0].name) {
      SiblingsApart(base, nodes[0].name, nodes[i + 1].name, e.path);
    }
  }

  /** What is visible below a directory means that the directory is open. */
  lemma {:induction false} VisibleMeansOpen(
      nodes: seq<Node>, base: string, open: set<string>, e: Entry, directory: string)
    requires WellFormed(nodes) && e in Preorder(nodes, base, open)
    requires IsDescendant(e.path, directory) && !(directory + "/" <= base)
    ensures directory in open
    decreases nodes
  {
    var n := nodes[0];
    TailWellFormed(nodes);
    LevelOutside(base, n.name, directory);
    if e in Block(n, base, open) {
      if base + n.name != directory {
        VisibleMeansOpen(n.children, base + n.name + "/", open, e, directory);
      }
    } else {
      assert e != EntryOf(n, base);
      VisibleMeansOpen(nodes[1..], base, open, e, directory);
    }
  }

  // -------------------------------------------------- collapse and expand it

  /** The open directories left after collapsing one. */
  function Shut(open: set<string>, directory: string): set<string> {
    set p | p in open && !Within(p, directory)
  }

  /** Collapsing the list is shutting the directory, and everything under it, in the tree. */
  lemma {:induction false} CollapsePreorder(nodes: seq<Node>, base: string, open: set<string>, directory: string)
    requires WellFormed(nodes) && !(directory + "/" <= base)
    ensures Collapse(Preorder(nodes, base, open), directory) == Preorder(nodes, base, Shut(open, directory))
    decreases nodes
  {
    if nodes != [] {
      var n := nodes[0];
      TailWellFormed(nodes);
      LevelOutside(base, n.name, directory);
      var block := Block(n, base, open);
      CollapseConcat([EntryOf(n, base)] + block, Preorder(nodes[1..], base, open), directory);
      CollapseConcat([EntryOf(n, base)], block, directory);
      CollapsePreorder(nodes[1..], base, open, directory);
      if base + n.name == directory {
        forall e | e in block ensures IsDescendant(e.path, directory) {
          BlockUnder(n, base, open, e);
        }
        CollapseAll(block, directory);
      } else if n.DirNode? && base + n.name in open {
        CollapsePreorder(n.children, base + n.name + "/", open, directory);
      }
    }
  }

  /** Opening a directory that is not on show changes nothing. */
  lemma {:induction false} OpenHidden(nodes: seq<Node>, base: string, open: set<string>, directory: string)
    requires !Shows(Preorder(nodes, base, open), directory)
    ensures Preorder(nodes, base, open + {directory}) == Preorder(nodes, base, open)
    decreases nodes
  {
    if nodes != [] {
      var n := nodes[0];
      ShowsConcat([EntryOf(n, base)] + Block(n, base, open), Preorder(nodes[1..], base, open), directory);
      ShowsConcat([EntryOf(n, base)], Block(n, base, open), directory);
      OpenHidden(nodes[1..], base, open, directory);
      assert [EntryOf(n, base)][0].path == base + n.name;
      if n.DirNode? && base + n.name in open {
        OpenHidden(n.children, base + n.name + "/", open, directory);
      }
    }
  }

  /** A level none of whose directories is open is its listing. */
  lemma {:induction false} ShutLevel(nodes: seq<Node>, base: string, open: set<string>)
    requires forall p :: p in open ==> !(base <= p)
    ensures Preorder(nodes, base, open) == Level(nodes, base)
    decreases nodes
  {
    if nodes != [] {
      assert base <= base + nodes[0].name;
      ShutLevel(nodes[1..], base, open);
    }
  }

  /** Where a shown path is: at the first node, under it, or further on. */
  lemma ShownWhere(nodes: seq<Node>, base: string, open: set<string>, path: string)
    requires WellFormed(nodes) && nodes != [] && Shows(Preorder(nodes, base, open), path)
    ensures var here := base + nodes[0].name;
            && (path == here ==> !Shows(Block(nodes[0], base, open), path))
            && (Within(path, here) ==> !Shows(Preorder(nodes[1..], base, open), path))
            && (IsDescendant(path, here) ==> Shows(Block(nodes[0], base, open), path))
            && (!Within(path, here) ==> Shows(Preorder(nodes[1..], base, open), path)
                                        && !Shows(Block(nodes[0], base, open), path))
  {
    var n := nodes[0];
    var block, rest := Block(n, base, open), Preorder(nodes[1..], base, open);
    ShowsConcat([EntryOf(n, base)] + block, rest, path);
    ShowsConcat([EntryOf(n, base)], block, path);
    if Shows(block, path) {
      var i :| 0 <= i < |block| && block[i].path == path;
      BlockUnder(n, base, open, block[i]);
    }
    if Shows(rest, path) {
      var i :| 0 <= i < |rest| && rest[i].path == path;
      RestApart(nodes, base, open, rest[i]);
    }
  }

  lemma {:induction false} ListedWhere(nodes: seq<Node>, base: string, path: string)
    requires ListingOf(nodes, base, path).Some?
    ensures exists i :: 0 <= i < |nodes| && nodes[i].DirNode? && Within(path, base + nodes[i].name)
    decreases nodes
  {
    var here := base + nodes[0].name;
    if !(nodes[0].DirNode? && Within(path, here)) {
      ListedWhere(nodes[1..], base, path);
      var i :| 0 <= i < |nodes[1..]| && nodes[1..][i].DirNode? && Within(path, base + nodes[1..][i].name);
      assert nodes[i + 1] == nodes[1..][i];
    }
  }

  lemma FirstIsDirectory(nodes: seq<Node>, base: string, path: string)
    requires WellFormed(nodes) && nodes != [] && ListingOf(nodes, base, path).Some?
    requires Within(path, base + nodes[0].name)
    ensures nodes[0].DirNode?
  {
    ListedWhere(nodes, base, path);
    var i :| 0 <= i < |nodes| && nodes[i].DirNode? && Within(path, base + nodes[i].name);
    if i > 0 {
      SiblingsApart(base, nodes[i].name, nodes[0].name, path);
    }
  }

  /** Inserting the listing of a shut directory is opening it in the tree. */
  lemma {:induction false} InsertPreorder(
      nodes: seq<Node>, base: string, open: set<string>, directory: string, children: seq<Node>)
    requires WellFormed(nodes)
    requires Shows(Preorder(nodes, base, open), directory)
    requires ListingOf(nodes, base, directory) == Some(children)
    requires directory !in open && forall p :: p in open ==> !IsDescendant(p, directory)
    ensures InsertAfter(Preorder(nodes, base, open), directory, Level(children, directory + "/"))
            == Preorder(nodes, base, open + {directory})
    decreases nodes
  {
    var n, here, listing := nodes[0], base + nodes[0].name, Level(children, directory + "/");
    var head, block, rest := [EntryOf(n, base)], Block(n, base, open), Preorder(nodes[1..], base, open);
    TailWellFormed(nodes);
    ShownWhere(nodes, base, open, directory);
    InsertConcat(head + block, rest, directory, listing);
    InsertConcat(head, block, directory, listing);
    ShowsConcat(head, block, directory);
    if here == directory {
      OpenHidden(nodes[1..], base, open, directory);
      assert Shows(head, directory) by { assert head[0].path == directory; }
      FirstIsDirectory(nodes, base, directory);
      OpenedBlock(n, base, open, directory);
    } else if IsDescendant(directory, here) {
      OpenHidden(nodes[1..], base, open, directory);
      InsertPreorder(n.children, here + "/", open, directory, children);
    } else {
      InsertPreorder(nodes[1..], base, open, directory, children);
      OpenHiddenBlock(n, base, open, directory);
    }
  }

  lemma OpenHiddenBlock(n: Node, base: string, open: set<string>, directory: string)
    requires !Shows(Block(n, base, open), directory) && base + n.name != directory
    ensures Block(n, base, open + {directory}) == Block(n, base, open)
  {
    if n.DirNode? && base + n.name in open {
      OpenHidden(n.children, base + n.name + "/", open, directory);
    }
  }

  /** Opening a directory whose subdirectories are all shut shows its listing. */
  lemma OpenedBlock(n: Node, base: string, open: set<string>, directory: string)
    requires n.DirNode? && base + n.name == directory
    requires forall p :: p in open ==> !IsDescendant(p, directory)
    ensures Block(n, base, open + {directory}) == Level(n.children, directory + "/")
  {
    forall p | p in open + {directory} ensures !(directory + "/" <= p) {
      if directory + "/" <= p {
        DescendantIsPrefix(p, directory);
      }
    }
    ShutLevel(n.children, directory + "/", open + {directory});
  }

  // ------------------------------------------------------------- refreshing

  lemma {:induction false} DescendantsConcat(xs: seq<Entry>, ys: seq<Entry>, directory: string)
    ensures Descendants(xs + ys, directory) == Descendants(xs, directory) + Descendants(ys, directory)
  {
    if xs == [] {
      assert xs + ys == ys;
    } else {
      assert (xs + ys)[1..] == xs[1..] + ys;
      DescendantsConcat(xs[1..], ys, directory);
      var head := if IsDescendant(xs[0].path, directory) then [xs[0]] else [];
      Regroup(head, Descendants(xs[1..], directory), Descendants(ys, directory), []);
    }
  }

  lemma {:induction false} DescendantsAll(entries: seq<Entry>, directory: string)
    ensures (forall e :: e in entries ==> IsDescendant(e.path, directory)) ==>
              Descendants(entries, directory) == entries
    ensures (forall e :: e in entries ==> !IsDescendant(e.path, directory)) ==>
              Descendants(entries, directory) == []
  {
    if entries != [] {
      DescendantsAll(entries[1..], directory);
      assert entries == [entries[0]] + entries[1..];
    }
  }

  /** Of what the first node shows, all but itself is below it, and nothing is below a sibling. */
  lemma FirstDescendants(nodes: seq<Node>, base: string, open: set<string>, i: nat)
    requires WellFormed(nodes) && i < |nodes|
    ensures Descendants([EntryOf(nodes[0], base)] + Block(nodes[0], base, open), base + nodes[i].name)
            == if i == 0 then Block(nodes[0], base, open) else []
  {
    var n, directory := nodes[0], base + nodes[i].name;
    var head, block := [EntryOf(n, base)], Block(n, base, open);
    DescendantsConcat(head, block, directory);
    DescendantsAll(block, directory);
    forall e | e in block ensures IsDescendant(e.path, base + n.name) && (i > 0 ==> !IsDescendant(e.path, directory)) {
      BlockUnder(n, base, open, e);
      if i > 0 {
        SiblingsApart(base, n.name, nodes[i].name, e.path);
      }
    }
    if i > 0 {
      SiblingsApart(base, n.name, nodes[i].name, base + n.name);
    }
  }

  /** The visible descendants of a node are one contiguous block, right after it. */
  lemma {:induction false} DescendantsAreBlock(nodes: seq<Node>, base: string, open: set<string>, i: nat)
    requires WellFormed(nodes) && i < |nodes|
    ensures Descendants(Preorder(nodes, base, open), base + nodes[i].name) == Block(nodes[i], base, open)
    decreases nodes
  {
    var n, directory := nodes[0], base + nodes[i].name;
    var rest := Preorder(nodes[1..], base, open);
    DescendantsConcat([EntryOf(n, base)] + Block(n, base, open), rest, directory);
    FirstDescendants(nodes, base, open, i);
    if i == 0 {
      forall e | e in rest ensures !IsDescendant(e.path, directory) {
        RestApart(nodes, base, open, e);
      }
      DescendantsAll(rest, directory);
    } else {
      TailWellFormed(nodes);
      assert nodes[1..][i - 1] == nodes[i];
      DescendantsAreBlock(nodes[1..], base, open, i - 1);
    }
  }

  /** The entries below `d` are one contiguous block, and it starts right after `d`'s own entry. */
  ghost predicate OneBlock(entries: seq<Entry>, d: string) {
    exists i, j :: 0 <= i < j <= |entries| && BlockAt(entries, d, i, j)
  }

  ghost predicate BlockAt(entries: seq<Entry>, d: string, i: nat, j: nat) {
    && i < j <= |entries| && entries[i].path == d
    && forall k :: 0 <= k < |entries| ==> (IsDescendant(entries[k].path, d) <==> i < k < j)
  }

  ghost predicate NoneBelow(entries: seq<Entry>, d: string) {
    forall k :: 0 <= k < |entries| ==> !IsDescendant(entries[k].path, d)
  }

  lemma BlockInside(pre: seq<Entry>, mid: seq<Entry>, post: seq<Entry>, d: string)
    requires OneBlock(mid, d) && NoneBelow(pre, d) && NoneBelow(post, d)
    ensures OneBlock(pre + mid + post, d)
  {
    var i, j :| 0 <= i < j <= |mid| && BlockAt(mid, d, i, j);
    var all := pre + mid + post;
    forall k | 0 <= k < |all| ensures IsDescendant(all[k].path, d) <==> |pre| + i < k < |pre| + j {
      if k < |pre| {
        assert all[k] == pre[k];
      } else if k < |pre| + |mid| {
        assert all[k] == mid[k - |pre|];
      } else {
        assert all[k] == post[k - |pre| - |mid|];
      }
    }
    assert BlockAt(all, d, |pre| + i, |pre| + j);
  }

  lemma BlockFirst(e: Entry, block: seq<Entry>, rest: seq<Entry>)
    requires forall k :: 0 <= k < |block| ==> IsDescendant(block[k].path, e.path)
    requires NoneBelow(rest, e.path)
    ensures OneBlock([e] + block + rest, e.path)
  {
    var all := [e] + block + rest;
    forall k | 0 <= k < |all| ensures IsDescendant(all[k].path, e.path) <==> 0 < k < 1 + |block| {
      if 0 < k < 1 + |block| {
        assert all[k] == block[k - 1];
      } else if k > 0 {
        assert all[k] == rest[k - 1 - |block|];
      }
    }
    assert BlockAt(all, e.path, 0, 1 + |block|);
  }

  /** Two directories above one path lie one above the other. */
  lemma Nested(path: string, a: string, b: string)
    requires IsDescendant(path, a) && IsDescendant(path, b)
    ensures a == b || IsDescendant(a, b) || IsDescendant(b, a)
  {
    if |a| < |b| {
      assert b == path[..|b|] && b[..|a|] == path[..|a|];
    } else if |b| < |a| {
      assert a == path[..|a|] && a[..|b|] == path[..|b|];
    } else {
      assert a == path[..|a|] == b;
    }
  }

  lemma DescendantTrans(path: string, mid: string, top: string)
    requires IsDescendant(path, mid) && IsDescendant(mid, top)
    ensures IsDescendant(path, top) && !IsDescendant(top, mid)
  {
    assert path[..|top|] == path[..|mid|][..|top|];
  }

  /** Nothing after the first node is below a directory that is the node or below it. */
  lemma RestNotBelow(nodes: seq<Node>, base: string, open: set<string>, d: string)
    requires WellFormed(nodes) && nodes != [] && Within(d, base + nodes[0].name)
    ensures NoneBelow(Preorder(nodes[1..], base, open), d)
  {
    var rest := Preorder(nodes[1..], base, open);
    forall k | 0 <= k < |rest| ensures !IsDescendant(rest[k].path, d) {
      RestApart(nodes, base, open, rest[k]);
      if IsDescendant(rest[k].path, d) && d != base + nodes[0].name {
        DescendantTrans(rest[k].path, d, base + nodes[0].name);
      }
    }
  }

  /** Nothing at the first node is below a directory elsewhere on the level. */
  lemma FirstNotBelow(nodes: seq<Node>, base: string, open: set<string>, d: string)
    requires WellFormed(nodes) && nodes != [] && !(d + "/" <= base) && !Within(d, base + nodes[0].name)
    ensures NoneBelow([EntryOf(nodes[0], base)] + Block(nodes[0], base, open), d)
  {
    var n, block := nodes[0], Block(nodes[0], base, open);
    LevelOutside(base, n.name, d);
    forall k | 0 <= k < |block| ensures !IsDescendant(block[k].path, d) {
      BlockUnder(n, base, open, block[k]);
      if IsDescendant(block[k].path, d) {
        Nested(block[k].path, d, base + n.name);
      }
    }
  }

  lemma InnerBase(here: string, d: string)
    requires IsDescendant(d, here)
    ensures !(d + "/" <= here + "/")
  {
  }

  /**
    In the list of a tree every path on show is followed by exactly what is visible below
    it, in one block.
   */
  lemma {:induction false} ShownIsBlock(nodes: seq<Node>, base: string, open: set<string>, d: string)
    requires WellFormed(nodes) && Shows(Preorder(nodes, base, open), d) && !(d + "/" <= base)
    ensures OneBlock(Preorder(nodes, base, open), d)
    decreases nodes
  {
    var n, here := nodes[0], base + nodes[0].name;
    var e, block, rest := EntryOf(n, base), Block(n, base, open), Preorder(nodes[1..], base, open);
    TailWellFormed(nodes);
    ShownWhere(nodes, base, open, d);
    if Within(d, here) {
      RestNotBelow(nodes, base, open, d);
    }
    if here == d {
      forall k | 0 <= k < |block| ensures IsDescendant(block[k].path, d) {
        BlockUnder(n, base, open, block[k]);
      }
      BlockFirst(e, block, rest);
    } else if IsDescendant(d, here) {
      InnerBase(here, d);
      ShownIsBlock(n.children, here + "/", open, d);
      LevelOutside(base, n.name, d);
      BlockInside([e], block, rest, d);
    } else {
      FirstNotBelow(nodes, base, open, d);
      ShownIsBlock(nodes[1..], base, open, d);
      BlockInside([e] + block, rest, [], d);
      assert [e] + block + rest + [] == [e] + block + rest;
    }
  }

  lemma {:induction false} ReplaceSuffix(nodes: seq<Node>, base: string, open: set<string>, i: nat)
    requires WellFormed(nodes) && i <= |nodes|
    ensures ReplaceRoot(Preorder(nodes, base, open), Level(nodes[i..], base)) == Preorder(nodes[i..], base, open)
    decreases |nodes| - i
  {
    if i < |nodes| {
      assert nodes[i..][1..] == nodes[i + 1..];
      assert Level(nodes[i..], base)[1..] == Level(nodes[i + 1..], base);
      DescendantsAreBlock(nodes, base, open, i);
      ReplaceSuffix(nodes, base, open, i + 1);
    }
  }

  /** Refreshing the root with the listing it already shows changes nothing. */
  lemma RefreshIsIdentity(nodes: seq<Node>, open: set<string>)
    requires WellFormed(nodes)
    ensures ReplaceRoot(Preorder(nodes, "", open), Level(nodes, "")) == Preorder(nodes, "", open)
  {
    assert nodes[0..] == nodes;
    ReplaceSuffix(nodes, "", open, 0);
  }
}
