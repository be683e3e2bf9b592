/** Patches as whole-file changes: what they need, what they do, and how they are undone. */
module Patches {
  import opened Wrappers

  /** The contents of the tracked files by path. */
  type Tree = map<string, string>

  /** A file before and after; None stands for no such file. */
  datatype Change = Change(before: Option<string>, after: Option<string>)

  type Patch = map<string, Change>

  function At(tree: Tree, path: string): Option<string> {
    if path in tree then Some(tree[path]) else None
  }

  /** What the check run of git apply asks: every file is as the patch expects it. */
  predicate Fits(patch: Patch, tree: Tree) {
    forall path :: path in patch ==> At(tree, path) == patch[path].before
  }

  function Reversed(patch: Patch): Patch {
    map path | path in patch :: Change(patch[path].after, patch[path].before)
  }

  /** The tree after the patch. A patch that does not fit changes nothing. */
  function Patched(patch: Patch, tree: Tree): (patched: Tree)
    ensures Fits(patch, tree) ==>
      forall path :: At(patched, path) == if path in patch then patch[path].after else At(tree, path)
    ensures !Fits(patch, tree) ==> patched == tree
  {
    if !Fits(patch, tree) then tree else
    map path | path in tree.Keys + patch.Keys && (path in patch ==> patch[path].after.Some?) ::
      if path in patch then patch[path].after.value else tree[path]
  }

  lemma TreesByPath(a: Tree, b: Tree)
    requires forall path :: At(a, path) == At(b, path)
    ensures a == b
  {
    forall path ensures path in a <==> path in b {
      assert At(a, path) == At(b, path);
    }
    forall path | path in a ensures a[path] == b[path] {
      assert At(a, path) == At(b, path);
    }
  }

  /** Applying a patch that fits and then applying it in reverse restores the tree exactly. */
  lemma ReverseRestores(patch: Patch, tree: Tree)
    requires Fits(patch, tree)
    ensures Fits(Reversed(patch), Patched(patch, tree))
    ensures Patched(Reversed(patch), Patched(patch, tree)) == tree
  {
    var patched := Patched(patch, tree);
    forall path | path in Reversed(patch) ensures At(patched, path) == Reversed(patch)[path].before {
      assert At(patched, path) == patch[path].after;
    }
    forall path ensures At(Patched(Reversed(patch), patched), path) == At(tree, path) {
      assert At(patched, path) == if path in patch then patch[path].after else At(tree, path);
    }
    TreesByPath(Patched(Reversed(patch), patched), tree);
  }
}
