/** The state of the repository panel and the toggling of its directories. */
module RepositoryPanel {
  import opened Wrappers
  import opened RepositoryTree

  /** The flat list on screen and the directories listed as expanded. */
  datatype Panel = Panel(tree: seq<Entry>, expanded: seq<string>)

  /** One toggle; `children` is the listing received, `None` a failed request. */
  function Toggle(p: Panel, path: string, children: Option<seq<Entry>>): Panel {
    if path in p.expanded then Panel(Collapse(p.tree, path), CollapsedPaths(p.expanded, path))
    else if children.None? then p
    else Panel(Expand(p.tree, path, children.value), p.expanded + [path])
  }

  class RepositoryPanel {
    var tree: seq<Entry>
    var expanded: seq<string>
    var failed: bool

    ghost function State(): Panel
      reads this
    {
      Panel(tree, expanded)
    }

    constructor (root: seq<Entry>)
      ensures State() == Panel(root, []) && !failed
    {
      tree, expanded, failed := root, [], false;
    }

    /** `selected` says whether a workspace and a repository are selected. */
    method ToggleDirectory(selected: bool, path: string, children: Option<seq<Entry>>)
      modifies this
      ensures State() == if selected then Toggle(old(State()), path, children) else old(State())
      ensures failed == (old(failed) || (selected && path !in old(expanded) && children.None?))
    {
      if !selected {
        return;
      }
      if path in expanded {
        tree := Collapse(tree, path);
        expanded := CollapsedPaths(expanded, path);
        return;
      }
      match children
      case None => failed := true;
      case Some(items) =>
        tree := Expand(tree, path, items);
        expanded := if path in expanded then expanded else expanded + [path];
    }
  }

  // ----------------------------------------------------------- over all runs

  function Open(p: Panel): set<string> {
    set d | d in p.expanded
  }

  /** The list is the pre-order of the tree, and every expanded directory is on show. */
  ghost predicate PanelInv(nodes: seq<Node>, p: Panel) {
    && p.tree == Preorder(nodes, "", Open(p))
    && forall d :: d in p.expanded ==> Entry(d, Directory) in p.tree
  }

  /** A toggle of a directory on show, with the directory's listing or a failure. */
  datatype Click = Click(path: string, loaded: bool)

  function Listing(nodes: seq<Node>, c: Click): Option<seq<Entry>> {
    if !c.loaded then None
    else match ListingOf(nodes, "", c.path)
         case None => None
         case Some(children) => Some(Level(children, c.path + "/"))
  }

  function RunClicks(nodes: seq<Node>, p: Panel, clicks: seq<Click>): Panel
    decreases |clicks|
  {
    if clicks == [] then p
    else RunClicks(nodes, Toggle(p, clicks[0].path, Listing(nodes, clicks[0])), clicks[1..])
  }

  /** Every click lands on a directory that is on show at that moment. */
  ghost predicate Clickable(nodes: seq<Node>, p: Panel, clicks: seq<Click>)
    decreases |clicks|
  {
    clicks != [] ==>
      && Entry(clicks[0].path, Directory) in p.tree
      && Clickable(nodes, Toggle(p, clicks[0].path, Listing(nodes, clicks[0])), clicks[1..])
  }

  lemma {:induction false} CollapsedKeep(expanded: seq<string>, directory: string, p: string)
    ensures p in CollapsedPaths(expanded, directory) <==> p in expanded && !Within(p, directory)
  {
    if expanded != [] {
      CollapsedKeep(expanded[1..], directory, p);
      assert expanded == [expanded[0]] + expanded[1..];
    }
  }

  lemma CollapseKeeps(nodes: seq<Node>, p: Panel, path: string)
    requires WellFormed(nodes) && PanelInv(nodes, p) && path in p.expanded
    ensures PanelInv(nodes, Toggle(p, path, None))
  {
    var r := Toggle(p, path, None);
    CollapsePreorder(nodes, "", Open(p), path);
    forall d ensures d in r.expanded <==> d in p.expanded && !Within(d, path) {
      CollapsedKeep(p.expanded, path, d);
    }
    assert Open(r) == Shut(Open(p), path);
    forall d | d in r.expanded ensures Entry(d, Directory) in r.tree {
      CollapseHas(p.tree, path, Entry(d, Directory));
    }
  }

  lemma {:induction false} InsertAfterKeeps(entries: seq<Entry>, directory: string, children: seq<Entry>, e: Entry)
    requires e in entries
    ensures e in InsertAfter(entries, directory, children)
  {
    if entries[0].path != directory && e != entries[0] {
      InsertAfterKeeps(entries[1..], directory, children, e);
    }
  }

  /** A directory on show has a listing. */
  lemma {:induction false} ShownIsListed(nodes: seq<Node>, base: string, open: set<string>, path: string)
    requires WellFormed(nodes) && Entry(path, Directory) in Preorder(nodes, base, open)
    ensures ListingOf(nodes, base, path).Some?
    decreases nodes
  {
    var n := nodes[0];
    var e := Entry(path, Directory);
    TailWellFormed(nodes);
    if e in Block(n, base, open) {
      BlockUnder(n, base, open, e);
      ShownIsListed(n.children, base + n.name + "/", open, path);
    } else if e != EntryOf(n, base) {
      RestApart(nodes, base, open, e);
      ShownIsListed(nodes[1..], base, open, path);
    }
  }

  /** Nothing below a shut directory on show is expanded. */
  lemma NothingOpenBelow(nodes: seq<Node>, p: Panel, path: string)
    requires WellFormed(nodes) && PanelInv(nodes, p) && path !in p.expanded
    ensures forall d :: d in Open(p) ==> !Within(d, path)
    ensures Shut(Open(p), path) == Open(p)
  {
    forall d | d in Open(p) ensures !Within(d, path) {
      if IsDescendant(d, path) {
        VisibleMeansOpen(nodes, "", Open(p), Entry(d, Directory), path);
      }
    }
  }

  lemma ExpandKeeps(nodes: seq<Node>, p: Panel, path: string, children: seq<Node>)
    requires WellFormed(nodes) && PanelInv(nodes, p) && path !in p.expanded
    requires Entry(path, Directory) in p.tree && ListingOf(nodes, "", path) == Some(children)
    ensures PanelInv(nodes, Toggle(p, path, Some(Level(children, path + "/"))))
  {
    var listing := Level(children, path + "/");
    var r := Toggle(p, path, Some(listing));
    var i :| 0 <= i < |p.tree| && p.tree[i] == Entry(path, Directory);
    assert Shows(p.tree, path);
    NothingOpenBelow(nodes, p, path);
    CollapsePreorder(nodes, "", Open(p), path);
    ExpandIsInsert(p.tree, path, listing);
    InsertPreorder(nodes, "", Open(p), path, children);
    assert Open(r) == Open(p) + {path};
    forall d | d in r.expanded ensures Entry(d, Directory) in r.tree {
      InsertAfterKeeps(p.tree, path, listing, Entry(d, Directory));
    }
  }

  lemma ToggleKeeps(nodes: seq<Node>, p: Panel, c: Click)
    requires WellFormed(nodes) && PanelInv(nodes, p) && Entry(c.path, Directory) in p.tree
    ensures PanelInv(nodes, Toggle(p, c.path, Listing(nodes, c)))
  {
    if c.path in p.expanded {
      CollapseKeeps(nodes, p, c.path);
    } else if c.loaded {
      ShownIsListed(nodes, "", Open(p), c.path);
      ExpandKeeps(nodes, p, c.path, ListingOf(nodes, "", c.path).value);
    }
  }

  lemma {:induction false} ClicksKeep(nodes: seq<Node>, p: Panel, clicks: seq<Click>)
    requires WellFormed(nodes) && PanelInv(nodes, p) && Clickable(nodes, p, clicks)
    ensures PanelInv(nodes, RunClicks(nodes, p, clicks))
    decreases |clicks|
  {
    if clicks != [] {
      ToggleKeeps(nodes, p, clicks[0]);
      ClicksKeep(nodes, Toggle(p, clicks[0].path, Listing(nodes, clicks[0])), clicks[1..]);
    }
  }

  /**
    After every sequence of toggles on visible directories, the flat list is the
    pre-order of the tree opened at exactly the expanded directories. The expanded set
    is closed under ancestors, what is visible below any entry is one block right after
    it, and refreshing the root changes nothing.
   */
  lemma PanelShowsTree(nodes: seq<Node>, clicks: seq<Click>)
    requires WellFormed(nodes)
    requires Clickable(nodes, Panel(Level(nodes, ""), []), clicks)
    ensures var p := RunClicks(nodes, Panel(Level(nodes, ""), []), clicks);
            && p.tree == Preorder(nodes, "", Open(p))
            && (forall d, a :: d in p.expanded && IsDescendant(d, a) ==> a in p.expanded)
            && (forall d :: Shows(p.tree, d) ==> OneBlock(p.tree, d))
            && ReplaceRoot(p.tree, Level(nodes, "")) == p.tree
  {
    var start := Panel(Level(nodes, ""), []);
    assert Open(start) == {};
    ShutLevel(nodes, "", {});
    ClicksKeep(nodes, start, clicks);
    var p := RunClicks(nodes, start, clicks);
    forall d, a | d in p.expanded && IsDescendant(d, a) ensures a in p.expanded {
      VisibleMeansOpen(nodes, "", Open(p), Entry(d, Directory), a);
    }
    forall d | Shows(p.tree, d) ensures OneBlock(p.tree, d) {
      ShownIsBlock(nodes, "", Open(p), d);
    }
    RefreshIsIdentity(nodes, Open(p));
  }
}
