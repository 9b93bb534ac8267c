/** The nested-dictionary state (src/storage/states/state_store.py). A Leaf is
    any JSON value that is not an object. */
module StateTree {
  import opened Outcomes

  datatype Tree = Leaf(content: string) | Dict(items: map<string, Tree>)

  type Path = seq<string>

  // ---------------------------------------------------------- specification

  /** What is stored at a path; the empty path leads to the tree itself. */
  function At(t: Tree, path: Path): Option<Tree> {
    if path == [] then Some(t)
    else if t.Leaf? || path[0] !in t.items then None
    else At(t.items[path[0]], path[1..])
  }

  /** The dictionary a write descends into. */
  function AsDict(t: Option<Tree>): Tree { if t.Some? && t.value.Dict? then t.value else Dict(map[]) }

  function Child(t: Tree, key: string): Option<Tree> { if t.Dict? && key in t.items then Some(t.items[key]) else None }

  /** Writing a value; whatever on the way is not a dictionary becomes one. */
  function Put(t: Tree, path: Path, value: Tree): Tree
    decreases path
  {
    if path == [] then value
    else Dict(AsDict(Some(t)).items[path[0] := Put(AsDict(Child(t, path[0])), path[1..], value)])
  }

  /** `deep_merge_dict` on values. */
  function Merge(t: Tree, u: Tree): Tree
    decreases u
  {
    if t.Leaf? || u.Leaf? then u else
      Dict(map k | k in t.items.Keys + u.items.Keys ::
        if k !in u.items then t.items[k] else if k !in t.items then u.items[k] else Merge(t.items[k], u.items[k]))
  }

  // ------------------------------------------------------------------- laws

  /** What was written is read back. */
  lemma {:induction false} GetAfterPut(t: Tree, path: Path, value: Tree)
    ensures At(Put(t, path, value), path) == Some(value)
    decreases path
  {
    if path != [] { GetAfterPut(AsDict(Child(t, path[0])), path[1..], value); }
  }

  /** Paths that neither lead to the written one nor through it are unchanged. */
  lemma {:induction false} PutElsewhere(t: Tree, path: Path, value: Tree, other: Path)
    requires !(path <= other) && !(other <= path)
    ensures At(Put(t, path, value), other) == At(t, other)
    decreases path
  {
    assert path != [] && other != [];
    if path[0] == other[0] {
      var sub := AsDict(Child(t, path[0]));
      assert path == [path[0]] + path[1..] && other == [other[0]] + other[1..];
      PutElsewhere(sub, path[1..], value, other[1..]);
      if Child(t, path[0]) != Some(sub) { NothingBelow(other[1..], path[1..]); }
    }
  }

  lemma NothingBelow(other: Path, path: Path)
    requires !(other <= path)
    ensures other != [] && At(Dict(map[]), other).None? && forall s: string :: At(Leaf(s), other).None?
  {
  }

  /** Below the written path the written value is seen. */
  lemma {:induction false} PutBelow(t: Tree, path: Path, value: Tree, rest: Path)
    ensures At(Put(t, path, value), path + rest) == At(value, rest)
    decreases path
  {
    if path == [] {
      assert path + rest == rest;
    } else {
      assert (path + rest)[1..] == path[1..] + rest;
      PutBelow(AsDict(Child(t, path[0])), path[1..], value, rest);
    }
  }

  /** The second of two writes to one path wins, whatever the first wrote. */
  lemma {:induction false} PutPut(t: Tree, path: Path, first: Tree, second: Tree)
    requires path != []
    ensures Put(Put(t, path, first), path, second) == Put(t, path, second)
    decreases path
  {
    var sub := AsDict(Child(t, path[0]));
    var inner := Put(sub, path[1..], first);
    if path[1..] != [] {
      PutPut(sub, path[1..], first, second);
      assert AsDict(Some(inner)) == inner;
    }
  }

  /** What a merged tree holds at a path, from what the two trees hold there. */
  function Combined(a: Option<Tree>, b: Option<Tree>): Option<Tree> {
    if b.None? then a else if a.None? then b else Some(Merge(a.value, b.value))
  }

  /** `path` runs inside dictionaries of both trees until its last key. */
  predicate Shared(t: Tree, u: Tree, path: Path) {
    path == [] || (t.Dict? && u.Dict? && (|path| == 1 || (path[0] in t.items && path[0] in u.items && Shared(t.items[path[0]], u.items[path[0]], path[1..]))))
  }

  /** Merging, completely, for paths that run in both trees. */
  lemma {:induction false} MergeShared(t: Tree, u: Tree, path: Path)
    requires Shared(t, u, path)
    ensures At(Merge(t, u), path) == Combined(At(t, path), At(u, path))
    decreases path
  {
    if path != [] {
      if |path| > 1 { MergeShared(t.items[path[0]], u.items[path[0]], path[1..]); }
      else { assert path[1..] == []; }
    }
  }

  /** A value of the updates that is not a dictionary is read back. */
  lemma {:induction false} MergedLeafIsRead(t: Tree, u: Tree, path: Path)
    requires At(u, path).Some? && At(u, path).value.Leaf?
    ensures At(Merge(t, u), path) == At(u, path)
    decreases path
  {
    if path != [] && t.Dict? && path[0] in t.items { MergedLeafIsRead(t.items[path[0]], u.items[path[0]], path[1..]); }
  }

  /** `path` leaves the updates at an absent key, `at` keys below the root,
      inside dictionaries that both trees have. */
  predicate Leaves(t: Tree, u: Tree, path: Path, at: nat) {
    && at < |path| && t.Dict? && u.Dict?
    && (if at == 0 then path[0] !in u.items
        else path[0] in t.items && path[0] in u.items && Leaves(t.items[path[0]], u.items[path[0]], path[1..], at - 1))
  }

  /** The updates do not reach such a path. */
  lemma {:induction false} MergeLeavesAlone(t: Tree, u: Tree, path: Path, at: nat)
    requires Leaves(t, u, path, at)
    ensures At(Merge(t, u), path) == At(t, path)
    decreases path
  {
    if at > 0 { MergeLeavesAlone(t.items[path[0]], u.items[path[0]], path[1..], at - 1); }
  }

  /** Where the updates meet a missing value or a non-dictionary, they replace it. */
  predicate Replaces(t: Tree, u: Tree, path: Path, at: nat) {
    at <= |path| && if at == 0 then t.Leaf? || u.Leaf?
      else t.Dict? && u.Dict? && path[0] in u.items
           && (path[0] !in t.items || Replaces(t.items[path[0]], u.items[path[0]], path[1..], at - 1))
  }

  lemma {:induction false} MergeReplaces(t: Tree, u: Tree, path: Path, at: nat)
    requires Replaces(t, u, path, at)
    ensures At(Merge(t, u), path) == At(u, path)
    decreases path
  {
    if at > 0 && path[0] in t.items { MergeReplaces(t.items[path[0]], u.items[path[0]], path[1..], at - 1); }
  }

  /** Nothing else can happen: every path is one of these. */
  lemma {:induction false} MergeIsCovered(t: Tree, u: Tree, path: Path) returns (at: nat)
    ensures Shared(t, u, path) || Leaves(t, u, path, at) || Replaces(t, u, path, at)
    decreases path
  {
    at := 0;
    if path != [] && t.Dict? && u.Dict? && path[0] in u.items {
      if path[0] in t.items {
        at := MergeIsCovered(t.items[path[0]], u.items[path[0]], path[1..]);
      }
      at := at + 1;
    }
  }

  lemma {:induction false} MergeSelf(u: Tree)
    ensures Merge(u, u) == u
  {
    if u.Dict? {
      forall k | k in u.items ensures Merge(u, u).items[k] == u.items[k] { MergeSelf(u.items[k]); }
      assert Merge(u, u).items == u.items;
    }
  }

  /** Merging the same updates twice is merging them once. */
  lemma {:induction false} MergeTwice(t: Tree, u: Tree)
    ensures Merge(Merge(t, u), u) == Merge(t, u)
    decreases u
  {
    if t.Leaf? || u.Leaf? {
      MergeSelf(u);
    } else {
      var once := Merge(t, u);
      forall k | k in once.items ensures Merge(once, u).items[k] == once.items[k] {
        if k in u.items {
          if k in t.items { MergeTwice(t.items[k], u.items[k]); } else { MergeSelf(u.items[k]); }
        }
      }
      assert Merge(once, u).items == once.items;
    }
  }

  // ------------------------------------------------------------------ store

  class StateStore {
    var state: map<string, Tree>

    constructor ()
      ensures state == map[]
    {
      state := map[];
    }

    /** `get_path`; None is the default. The empty path gives the default too. */
    method GetPath(path: Path) returns (r: Option<Tree>)
      ensures r == if path == [] then None else At(Dict(state), path)
    {
      if path == [] { return None; }
      var current := Dict(state);
      for i := 0 to |path|
        invariant At(current, path[i..]) == At(Dict(state), path)
      {
        assert path[i..][1..] == path[i + 1..];
        if current.Leaf? || path[i] !in current.items { return None; }
        current := current.items[path[i]];
      }
      return Some(current);
    }

    /** `set_path`: down along the path, then the value. */
    method SetPath(path: Path, value: Tree) returns (ok: bool)
      modifies this
      ensures ok <==> path != []
      ensures Dict(state) == if ok then Put(old(Dict(state)), path, value) else old(Dict(state))
    {
      if path == [] { return false; }
      var n := |path| - 1;
      var spine: seq<Tree> := [Dict(state)];
      for i := 0 to n
        invariant |spine| == i + 1 && spine[0] == Dict(state)
        invariant forall k | 0 <= k <= i :: spine[k].Dict?
        invariant forall k | 0 <= k < i :: spine[k + 1] == AsDict(Child(spine[k], path[k]))
      {
        spine := spine + [AsDict(Child(spine[i], path[i]))];
      }
      var current := value;
      for i := n + 1 downto 0
        invariant current == Put(if i <= n then spine[i] else value, path[i..], value)
        invariant i <= n ==> current.Dict?
      {
        assert path[i..][1..] == path[i + 1..];
        assert i < n ==> spine[i + 1] == AsDict(Child(spine[i], path[i]));
        current := Dict(spine[i].items[path[i] := current]);
      }
      state := current.items;
      ok := true;
    }

    /** `update` */
    method Update(values: map<string, Tree>)
      modifies this
      ensures Dict(state) == Merge(old(Dict(state)), Dict(values))
    {
      state := DeepMerge(state, values);
    }
  }

  /** `deep_merge_dict`: the loop over the updates. */
  method DeepMerge(target: map<string, Tree>, updates: map<string, Tree>) returns (r: map<string, Tree>)
    ensures Dict(r) == Merge(Dict(target), Dict(updates))
    decreases Dict(updates), 1
  {
    r := target;
    var todo := updates.Keys;
    while todo != {}
      invariant todo <= updates.Keys && r.Keys == target.Keys + (updates.Keys - todo)
      invariant forall k | k in r && (k in todo || k !in updates) :: r[k] == target[k]
      invariant forall k | k in updates.Keys - todo :: r[k] == Merged(target, k, updates[k])
      decreases todo
    {
      hide Merge;
      var key :| key in todo;
      assert updates[key] < Dict(updates);
      var value := MergeValue(r, key, updates[key]);
      r := r[key := value];
      todo := todo - {key};
    }
    assert r == Merge(Dict(target), Dict(updates)).items;
  }

  /** What a key holds after one round of the loop. */
  function Merged(target: map<string, Tree>, key: string, value: Tree): Tree {
    if key in target then Merge(target[key], value) else value
  }

  /** One round of the loop: recursing into two dictionaries, overwriting otherwise. */
  method MergeValue(target: map<string, Tree>, key: string, value: Tree) returns (r: Tree)
    ensures r == Merged(target, key, value)
    decreases value, 2
  {
    if value.Dict? && key in target && target[key].Dict? {
      var merged := DeepMerge(target[key].items, value.items);
      r := Dict(merged);
    } else {
      r := value;
    }
  }
}
