/** Path mutations on an arbitrary JSON tree. */
module JsonPaths {
  import opened Prelude

  datatype Json =
    | Null
    | Bool(bool)
    | Number(real)
    | Text(string)
    | Arr(items: seq<Json>)
    | Obj(fields: map<string, Json>)

  datatype Segment = Key(key: string) | Index(index: nat)
  type Path = seq<Segment>

  datatype Op = Set(value: Json) | Delete | Append(value: Json)

  datatype PathError = Missing | NotAnArray | OutOfRange | ShapeMismatch

  // ---------------------------------------------------------------------------
  // Reading

  /** The child that a segment names: a key of an object or an index into an array. */
  function Child(j: Json, s: Segment): Option<Json> {
    if j.Obj? && s.Key? && s.key in j.fields then Some(j.fields[s.key])
    else if j.Arr? && s.Index? && s.index < |j.items| then Some(j.items[s.index])
    else None
  }

  function Get(j: Json, p: Path): Option<Json> {
    if p == [] then Some(j)
    else
      match Child(j, p[0])
      case None => None
      case Some(c) => Get(c, p[1..])
  }

  /** The tree with one child exchanged. */
  function WithChild(j: Json, s: Segment, c: Json): (r: Json)
    requires Child(j, s).Some?
    ensures Child(r, s) == Some(c)
    ensures forall t :: t != s ==> Child(r, t) == Child(j, t)
  {
    if j.Obj? then Obj(j.fields[s.key := c]) else Arr(j.items[s.index := c])
  }

  /** The tree with the part at a path exchanged. */
  function Replace(j: Json, p: Path, part: Json): Json
    requires Get(j, p).Some?
  {
    if p == [] then part else WithChild(j, p[0], Replace(Child(j, p[0]).value, p[1..], part))
  }

  // ---------------------------------------------------------------------------
  // Mutating

  /** The parent after the edit of one of its children. */
  function EditChild(parent: Json, leaf: Segment, op: Op): Result<Json, PathError> {
    if op.Append? then
      match Child(parent, leaf)
      case None => Error(Missing)
      case Some(target) =>
        if target.Arr? then Ok(WithChild(parent, leaf, Arr(target.items + [op.value]))) else Error(NotAnArray)
    else if parent.Obj? && leaf.Key? then
      if op.Set? then Ok(Obj(parent.fields[leaf.key := op.value]))
      else if leaf.key !in parent.fields then Error(Missing)
      else Ok(Obj(parent.fields - {leaf.key}))
    else if parent.Arr? && leaf.Index? then
      if leaf.index >= |parent.items| then Error(OutOfRange)
      else if op.Set? then Ok(Arr(parent.items[leaf.index := op.value]))
      else Ok(Arr(parent.items[..leaf.index] + parent.items[leaf.index + 1..]))
    else Error(ShapeMismatch)
  }

  function Parent(p: Path): Path
    requires p != []
  {
    p[..|p| - 1]
  }

  function Leaf(p: Path): Segment
    requires p != []
  {
    p[|p| - 1]
  }

  function Mutate(j: Json, p: Path, op: Op): Result<Json, PathError>
    requires p != []
  {
    match Get(j, Parent(p))
    case None => Error(Missing)
    case Some(parent) =>
      match EditChild(parent, Leaf(p), op)
      case Error(e) => Error(e)
      case Ok(edited) => Ok(Replace(j, Parent(p), edited))
  }

  /** The nodes along a path, from the root on. */
  ghost predicate IsWalk(nodes: seq<Json>, p: Path) {
    |nodes| == |p| + 1 && forall k :: 0 <= k < |p| ==> Child(nodes[k], p[k]) == Some(nodes[k + 1])
  }

  /** Walks down to the parent, edits it, and walks back up. */
  method MutateData(root: Json, p: Path, op: Op) returns (result: Result<Json, PathError>)
    requires p != []
    ensures result == Mutate(root, p, op)
  {
    var above := Parent(p);
    var nodes := [root];
    for i := 0 to |above|
      invariant IsWalk(nodes, above[..i]) && nodes[0] == root
      invariant Get(root, above) == Get(nodes[i], above[i..])
    {
      var c := Child(nodes[i], above[i]);
      assert above[i..][0] == above[i] && above[i..][1..] == above[i + 1..];
      if c.None? {
        return Error(Missing);
      }
      nodes := nodes + [c.value];
    }
    assert above[..|above|] == above;
    var edited := EditChild(nodes[|above|], Leaf(p), op);
    if edited.Error? {
      return Error(edited.error);
    }
    var tree := RebuildAbove(nodes, above, edited.value);
    return Ok(tree);
  }

  /** Puts a changed part back under the nodes above it, one after the other. */
  method RebuildAbove(nodes: seq<Json>, p: Path, changed: Json) returns (tree: Json)
    requires IsWalk(nodes, p)
    ensures Get(nodes[0], p) == Some(nodes[|p|]) && tree == Replace(nodes[0], p, changed)
  {
    tree := changed;
    var k := |p|;
    assert p[k..] == [];
    while k > 0
      invariant k <= |p|
      invariant Get(nodes[k], p[k..]) == Some(nodes[|p|]) && tree == Replace(nodes[k], p[k..], changed)
    {
      k := k - 1;
      assert p[k..][0] == p[k] && p[k..][1..] == p[k + 1..];
      assert Child(nodes[k], p[k]) == Some(nodes[k + 1]);
      tree := WithChild(nodes[k], p[k], tree);
    }
    assert p[0..] == p;
  }

  // ---------------------------------------------------------------------------
  // Laws of replacing

  predicate Incomparable(p: Path, q: Path) {
    !(p <= q) && !(q <= p)
  }

  lemma {:induction false} GetConcat(j: Json, p: Path, q: Path)
    ensures Get(j, p + q) == (if Get(j, p).None? then None else Get(Get(j, p).value, q))
  {
    if p == [] {
      assert p + q == q;
    } else {
      assert (p + q)[0] == p[0] && (p + q)[1..] == p[1..] + q;
      if Child(j, p[0]).Some? {
        GetConcat(Child(j, p[0]).value, p[1..], q);
      }
    }
  }

  lemma {:induction false} ReplacedReadsBack(j: Json, p: Path, part: Json)
    requires Get(j, p).Some?
    ensures Get(Replace(j, p, part), p) == Some(part)
  {
    if p != [] {
      ReplacedReadsBack(Child(j, p[0]).value, p[1..], part);
    }
  }

  lemma {:induction false} ReplaceLeavesOthers(j: Json, p: Path, part: Json, q: Path)
    requires Get(j, p).Some? && Incomparable(p, q)
    ensures Get(Replace(j, p, part), q) == Get(j, q)
    decreases |p|
  {
    if p[0] == q[0] {
      var c := Child(j, p[0]).value;
      assert Incomparable(p[1..], q[1..]) by {
        assert p == [p[0]] + p[1..] && q == [q[0]] + q[1..];
      }
      ReplaceLeavesOthers(c, p[1..], part, q[1..]);
    }
  }

  lemma {:induction false} ReplaceTwice(j: Json, p: Path, a: Json, b: Json)
    requires Get(j, p).Some?
    ensures Get(Replace(j, p, a), p).Some? && Replace(Replace(j, p, a), p, b) == Replace(j, p, b)
  {
    ReplacedReadsBack(j, p, a);
    if p != [] {
      var c := Child(j, p[0]).value;
      ReplaceTwice(c, p[1..], a, b);
      var once := Replace(c, p[1..], a);
      var twice := Replace(c, p[1..], b);
      assert WithChild(WithChild(j, p[0], once), p[0], twice) == WithChild(j, p[0], twice) by {
        if j.Obj? {
          assert j.fields[p[0].key := once][p[0].key := twice] == j.fields[p[0].key := twice];
        } else {
          assert j.items[p[0].index := once][p[0].index := twice] == j.items[p[0].index := twice];
        }
      }
    }
  }

  lemma {:induction false} ReplaceBySame(j: Json, p: Path)
    requires Get(j, p).Some?
    ensures Replace(j, p, Get(j, p).value) == j
  {
    if p != [] {
      ReplaceBySame(Child(j, p[0]).value, p[1..]);
      if j.Obj? {
        assert j.fields[p[0].key := j.fields[p[0].key]] == j.fields;
      } else {
        assert j.items[p[0].index := j.items[p[0].index]] == j.items;
      }
    }
  }

  // ---------------------------------------------------------------------------
  // When a mutation is accepted

  lemma SplitPath(j: Json, p: Path)
    requires p != []
    ensures Get(j, p) == (if Get(j, Parent(p)).None? then None else Child(Get(j, Parent(p)).value, Leaf(p)))
  {
    assert Parent(p) + [Leaf(p)] == p;
    GetConcat(j, Parent(p), [Leaf(p)]);
    assert [Leaf(p)][1..] == [];
  }

  /** A path may be set exactly when its parent is an object and it ends in a key, or an array that it indexes. */
  lemma SetAccepted(j: Json, p: Path, value: Json)
    requires p != []
    ensures Mutate(j, p, Set(value)).Ok? <==>
      Get(j, Parent(p)).Some?
      && ((Get(j, Parent(p)).value.Obj? && Leaf(p).Key?) || Get(j, p).Some?)
  {
    SplitPath(j, p);
  }

  /** A path may be deleted exactly when it exists. */
  lemma DeleteAccepted(j: Json, p: Path)
    requires p != []
    ensures Mutate(j, p, Delete).Ok? <==> Get(j, p).Some?
  {
    SplitPath(j, p);
  }

  /** A value may be appended exactly where an array is. */
  lemma AppendAccepted(j: Json, p: Path, value: Json)
    requires p != []
    ensures Mutate(j, p, Append(value)).Ok? <==> Get(j, p).Some? && Get(j, p).value.Arr?
  {
    SplitPath(j, p);
  }

  // ---------------------------------------------------------------------------
  // Path laws

  /** Where an accepted mutation leaves the parent. */
  lemma ParentAfter(j: Json, p: Path, op: Op)
    requires p != [] && Mutate(j, p, op).Ok?
    ensures Get(j, Parent(p)).Some? && EditChild(Get(j, Parent(p)).value, Leaf(p), op).Ok?
    ensures Get(Mutate(j, p, op).value, Parent(p)) == Some(EditChild(Get(j, Parent(p)).value, Leaf(p), op).value)
  {
    ReplacedReadsBack(j, Parent(p), EditChild(Get(j, Parent(p)).value, Leaf(p), op).value);
  }

  /** A path below the parent, before and after the mutation. */
  lemma BelowParent(j: Json, p: Path, op: Op, s: Segment, q: Path)
    requires p != [] && Mutate(j, p, op).Ok?
    ensures Get(j, Parent(p)).Some? && EditChild(Get(j, Parent(p)).value, Leaf(p), op).Ok?
    ensures Get(j, Parent(p) + ([s] + q)) == Get(Get(j, Parent(p)).value, [s] + q)
    ensures Get(Mutate(j, p, op).value, Parent(p) + ([s] + q))
         == Get(EditChild(Get(j, Parent(p)).value, Leaf(p), op).value, [s] + q)
  {
    ParentAfter(j, p, op);
    GetConcat(j, Parent(p), [s] + q);
    GetConcat(Mutate(j, p, op).value, Parent(p), [s] + q);
  }

  /** Every path that is incomparable with the parent's reads as before, whatever the mutation. */
  lemma OthersUnchanged(j: Json, p: Path, op: Op, q: Path)
    requires p != [] && Mutate(j, p, op).Ok? && Incomparable(Parent(p), q)
    ensures Get(Mutate(j, p, op).value, q) == Get(j, q)
  {
    ReplaceLeavesOthers(j, Parent(p), EditChild(Get(j, Parent(p)).value, Leaf(p), op).value, q);
  }

  /** Child by child: an accepted edit changes the named child, and a deletion from an array moves the later ones. */
  lemma EditedChildren(parent: Json, leaf: Segment, op: Op, s: Segment)
    requires EditChild(parent, leaf, op).Ok?
    ensures var edited := EditChild(parent, leaf, op).value;
      && (s != leaf && !(op.Delete? && parent.Arr?) ==> Child(edited, s) == Child(parent, s))
      && (op.Set? ==> Child(edited, leaf) == Some(op.value))
      && (op.Delete? && parent.Obj? ==> Child(edited, leaf) == None)
      && (op.Delete? && parent.Arr? && s.Index? ==>
            Child(edited, s) == Child(parent, Index(if s.index < leaf.index then s.index else s.index + 1)))
      && (op.Append? ==> Child(edited, leaf) == Some(Arr(Child(parent, leaf).value.items + [op.value])))
  {
  }

  /** An incomparable path goes another way at some point: elsewhere, or to a sibling. */
  lemma IncomparableCases(p: Path, q: Path)
    requires p != [] && Incomparable(p, q)
    ensures Incomparable(Parent(p), q)
         || (|q| > |Parent(p)| && q == Parent(p) + ([q[|p| - 1]] + q[|p|..]) && q[|p| - 1] != Leaf(p))
  {
    var n := |p| - 1;
    if !Incomparable(Parent(p), q) && |q| > n {
      assert q == Parent(p) + ([q[n]] + q[|p|..]);
      assert p == Parent(p) + [Leaf(p)];
    }
  }

  /** After an accepted set the path reads back the value, */
  lemma SetReadsBack(j: Json, p: Path, value: Json)
    requires p != [] && Mutate(j, p, Set(value)).Ok?
    ensures Get(Mutate(j, p, Set(value)).value, p) == Some(value)
  {
    ParentAfter(j, p, Set(value));
    SplitPath(Mutate(j, p, Set(value)).value, p);
  }

  /** and every incomparable path is unchanged. */
  lemma SetLeavesOthers(j: Json, p: Path, value: Json, q: Path)
    requires p != [] && Mutate(j, p, Set(value)).Ok? && Incomparable(p, q)
    ensures Get(Mutate(j, p, Set(value)).value, q) == Get(j, q)
  {
    IncomparableCases(p, q);
    if Incomparable(Parent(p), q) {
      OthersUnchanged(j, p, Set(value), q);
    } else {
      SiblingUnchanged(j, p, Set(value), q[|p| - 1], q[|p|..]);
    }
  }

  lemma SiblingUnchanged(j: Json, p: Path, op: Op, s: Segment, rest: Path)
    requires p != [] && Mutate(j, p, op).Ok? && s != Leaf(p)
    requires !(op.Delete? && Get(j, Parent(p)).Some? && Get(j, Parent(p)).value.Arr?)
    ensures Get(Mutate(j, p, op).value, Parent(p) + ([s] + rest)) == Get(j, Parent(p) + ([s] + rest))
  {
    BelowParent(j, p, op, s, rest);
    EditedChildren(Get(j, Parent(p)).value, Leaf(p), op, s);
    assert ([s] + rest)[1..] == rest;
  }

  /** Deleting a key removes its path and leaves every incomparable one; */
  lemma DeletedKeyIsGone(j: Json, p: Path, q: Path)
    requires p != [] && Leaf(p).Key? && Mutate(j, p, Delete).Ok?
    ensures Get(Mutate(j, p, Delete).value, p) == None
    ensures Incomparable(p, q) ==> Get(Mutate(j, p, Delete).value, q) == Get(j, q)
  {
    ParentAfter(j, p, Delete);
    SplitPath(Mutate(j, p, Delete).value, p);
    if Incomparable(p, q) {
      IncomparableCases(p, q);
      if Incomparable(Parent(p), q) {
        OthersUnchanged(j, p, Delete, q);
      } else {
        SiblingUnchanged(j, p, Delete, q[|p| - 1], q[|p|..]);
      }
    }
  }

  /** deleting an index moves the later elements, and all that is in them, one place down. */
  lemma DeletedIndexShifts(j: Json, p: Path, k: nat, rest: Path)
    requires p != [] && Leaf(p).Index? && Mutate(j, p, Delete).Ok?
    ensures var from := if k < Leaf(p).index then k else k + 1;
      Get(Mutate(j, p, Delete).value, Parent(p) + ([Index(k)] + rest)) == Get(j, Parent(p) + ([Index(from)] + rest))
  {
    var from := if k < Leaf(p).index then k else k + 1;
    BelowParent(j, p, Delete, Index(k), rest);
    BelowParent(j, p, Delete, Index(from), rest);
    EditedChildren(Get(j, Parent(p)).value, Leaf(p), Delete, Index(k));
    assert ([Index(k)] + rest)[1..] == rest && ([Index(from)] + rest)[1..] == rest;
  }

  /** An append adds one element at the end; elements before it, and every incomparable path, are unchanged. */
  lemma AppendedIsLast(j: Json, p: Path, value: Json, q: Path)
    requires p != [] && Mutate(j, p, Append(value)).Ok?
    ensures Get(j, p).Some? && Get(j, p).value.Arr?
    ensures Get(Mutate(j, p, Append(value)).value, p) == Some(Arr(Get(j, p).value.items + [value]))
    ensures Incomparable(p, q) ==> Get(Mutate(j, p, Append(value)).value, q) == Get(j, q)
  {
    AppendAccepted(j, p, value);
    SplitPath(j, p);
    ParentAfter(j, p, Append(value));
    SplitPath(Mutate(j, p, Append(value)).value, p);
    if Incomparable(p, q) {
      IncomparableCases(p, q);
      if Incomparable(Parent(p), q) {
        OthersUnchanged(j, p, Append(value), q);
      } else {
        SiblingUnchanged(j, p, Append(value), q[|p| - 1], q[|p|..]);
      }
    }
  }

  lemma AppendKeepsElements(j: Json, p: Path, value: Json, k: nat, rest: Path)
    requires p != [] && Mutate(j, p, Append(value)).Ok? && Get(j, p).Some? && Get(j, p).value.Arr?
    requires k < |Get(j, p).value.items|
    ensures Get(Mutate(j, p, Append(value)).value, p + ([Index(k)] + rest)) == Get(j, p + ([Index(k)] + rest))
  {
    AppendedIsLast(j, p, value, p);
    GetConcat(j, p, [Index(k)] + rest);
    GetConcat(Mutate(j, p, Append(value)).value, p, [Index(k)] + rest);
    assert ([Index(k)] + rest)[1..] == rest;
  }

  // ---------------------------------------------------------------------------
  // Undoing

  /** Setting a path back to what it was restores the tree. */
  lemma SetBackRestores(j: Json, p: Path, value: Json)
    requires p != [] && Get(j, p).Some? && Mutate(j, p, Set(value)).Ok?
    ensures Mutate(Mutate(j, p, Set(value)).value, p, Set(Get(j, p).value)) == Ok(j)
  {
    SplitPath(j, p);
    ParentAfter(j, p, Set(value));
    var parent, leaf := Get(j, Parent(p)).value, Leaf(p);
    var was := Get(j, p).value;
    var edited := EditChild(parent, leaf, Set(value)).value;
    assert EditChild(edited, leaf, Set(was)) == Ok(parent) by {
      if parent.Obj? {
        assert parent.fields[leaf.key := value][leaf.key := was] == parent.fields;
      } else {
        assert parent.items[leaf.index := value][leaf.index := was] == parent.items;
      }
    }
    ReplaceTwice(j, Parent(p), edited, parent);
    ReplaceBySame(j, Parent(p));
  }

  /** Deleting a key that a set has added restores the tree. */
  lemma DeleteUndoesNewKey(j: Json, p: Path, value: Json)
    requires p != [] && Get(j, p).None? && Mutate(j, p, Set(value)).Ok?
    ensures Mutate(Mutate(j, p, Set(value)).value, p, Delete) == Ok(j)
  {
    SplitPath(j, p);
    ParentAfter(j, p, Set(value));
    var parent, leaf := Get(j, Parent(p)).value, Leaf(p);
    var edited := EditChild(parent, leaf, Set(value)).value;
    assert parent.fields[leaf.key := value] - {leaf.key} == parent.fields;
    assert EditChild(edited, leaf, Delete) == Ok(parent);
    ReplaceTwice(j, Parent(p), edited, parent);
    ReplaceBySame(j, Parent(p));
  }

  // ---------------------------------------------------------------------------
  // Paths from requests

  const MAX_PATH_DEPTH := 16
  const MAX_PATH_KEY_BYTES := 128

  datatype RawSegment = RawText(text: string) | RawInteger(number: int) | RawOther

  function Utf8Size(s: string): (n: nat)
    ensures |s| <= n <= 4 * |s|
  {
    if s == "" then 0
    else
      var c := s[|s| - 1];
      Utf8Size(s[..|s| - 1])
      + (if c < '\U{80}' then 1 else if c < '\U{800}' then 2 else if c < '\U{10000}' then 3 else 4)
  }

  predicate SegmentOk(s: RawSegment) {
    match s
    case RawText(text) => text != "" && Utf8Size(text) <= MAX_PATH_KEY_BYTES
    case RawInteger(number) => number >= 0
    case RawOther => false
  }

  function ToSegment(s: RawSegment): Segment
    requires SegmentOk(s)
  {
    if s.RawText? then Key(s.text) else Index(s.number)
  }

  /** A list of 1 to 16 segments: bounded non-empty keys and non-negative indexes. */
  method ValidatedPath(raw: Option<seq<RawSegment>>) returns (path: Option<Path>)
    ensures path.Some? <==>
      raw.Some? && 1 <= |raw.value| <= MAX_PATH_DEPTH && forall i :: 0 <= i < |raw.value| ==> SegmentOk(raw.value[i])
    ensures path.Some? ==> |path.value| == |raw.value|
    ensures path.Some? ==> forall i :: 0 <= i < |raw.value| ==> path.value[i] == ToSegment(raw.value[i])
  {
    if raw.None? || raw.value == [] || |raw.value| > MAX_PATH_DEPTH {
      return None;
    }
    var segments: Path := [];
    for i := 0 to |raw.value|
      invariant |segments| == i
      invariant forall k :: 0 <= k < i ==> SegmentOk(raw.value[k]) && segments[k] == ToSegment(raw.value[k])
    {
      if !SegmentOk(raw.value[i]) {
        return None;
      }
      segments := segments + [ToSegment(raw.value[i])];
    }
    return Some(segments);
  }
}
