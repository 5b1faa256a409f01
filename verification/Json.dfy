/** Rendered values and `ensureValidJSON`: byte values reachable through maps become base64 text, in place;
    lists are left alone, whatever they hold. */
module Json {
  import opened Kube
  import opened Base64

  datatype Tree =
    | Null
    | Boolean(b: bool)
    | Number(n: int)
    | Text(s: string)
    | Bytes(data: seq<byte>)
    | List(items: seq<Tree>)
    | Map(entries: map<string, Tree>)

  /** What the API server can store: no byte value anywhere. Deep-copying anything else panics. */
  predicate JsonValid(t: Tree) {
    match t
    case Bytes(_) => false
    case List(items) => forall i :: 0 <= i < |items| ==> JsonValid(items[i])
    case Map(m) => forall k :: k in m ==> JsonValid(m[k])
    case _ => true
  }

  /** A way into a tree, through maps and lists. */
  datatype Turn = Under(key: string) | Item(n: nat)

  function Deep(t: Tree, way: seq<Turn>): Option<Tree> {
    if way == [] then Some(t)
    else match way[0]
      case Under(k) => if t.Map? && k in t.entries then Deep(t.entries[k], way[1..]) else None
      case Item(n) => if t.List? && n < |t.items| then Deep(t.items[n], way[1..]) else None
  }

  ghost predicate HoldsBytes(t: Tree) {
    exists way: seq<Turn> :: Deep(t, way).Some? && Deep(t, way).value.Bytes?
  }

  lemma BytesBelow(t: Tree, turn: Turn)
    requires Deep(t, [turn]).Some? && HoldsBytes(Deep(t, [turn]).value)
    ensures HoldsBytes(t)
  {
    var below := Deep(t, [turn]).value;
    var way: seq<Turn> :| Deep(below, way).Some? && Deep(below, way).value.Bytes?;
    assert ([turn] + way)[1..] == way && [turn][1..] == [];
    assert Deep(t, [turn] + way) == Deep(below, way);
  }

  /** Valid means that no way through maps and lists leads to a byte value. */
  lemma {:induction false} JsonValidExactly(t: Tree)
    ensures JsonValid(t) <==> !HoldsBytes(t)
  {
    match t
    case Bytes(_) =>
      assert Deep(t, []) == Some(t);
    case List(items) =>
      forall i | 0 <= i < |items| ensures JsonValid(items[i]) <==> !HoldsBytes(items[i]) {
        JsonValidExactly(items[i]);
      }
      forall i | 0 <= i < |items| && HoldsBytes(items[i]) ensures HoldsBytes(t) {
        assert [Item(i)][1..] == [];
        BytesBelow(t, Item(i));
      }
      if HoldsBytes(t) {
        var way: seq<Turn> :| Deep(t, way).Some? && Deep(t, way).value.Bytes?;
        assert Deep(items[way[0].n], way[1..]) == Deep(t, way);
        assert HoldsBytes(items[way[0].n]);
      }
    case Map(m) =>
      forall k | k in m ensures JsonValid(m[k]) <==> !HoldsBytes(m[k]) {
        JsonValidExactly(m[k]);
      }
      forall k | k in m && HoldsBytes(m[k]) ensures HoldsBytes(t) {
        assert [Under(k)][1..] == [];
        BytesBelow(t, Under(k));
      }
      if HoldsBytes(t) {
        var way: seq<Turn> :| Deep(t, way).Some? && Deep(t, way).value.Bytes?;
        assert Deep(m[way[0].key], way[1..]) == Deep(t, way);
        assert HoldsBytes(m[way[0].key]);
      }
    case _ =>
      forall way: seq<Turn> ensures Deep(t, way) == Some(t) || Deep(t, way).None? {
      }
  }

  function Sanitize(t: Tree): Tree {
    match t
    case Bytes(data) => Text(Encode(data))
    case Map(m) => Map(map k | k in m :: Sanitize(m[k]))
    case _ => t
  }

  /** A map of which the keys in `todo` are still to be visited. */
  function SanitizedExcept(m: map<string, Tree>, todo: set<string>): map<string, Tree> {
    map k | k in m :: if k in todo then m[k] else Sanitize(m[k])
  }

  /** The value found by descending through maps only. */
  function At(t: Tree, path: seq<string>): Option<Tree> {
    if path == [] then Some(t)
    else if t.Map? && path[0] in t.entries then At(t.entries[path[0]], path[1..])
    else None
  }

  /** Every list reachable through maps is free of byte values. */
  ghost predicate ListsClean(t: Tree) {
    forall path :: At(t, path).Some? && At(t, path).value.List? ==> JsonValid(At(t, path).value)
  }

  /** What becomes of a value at some path: a byte value turns into text that decodes to it, a map keeps its keys,
      everything else, lists included, is as it was, and where there was nothing there is nothing. */
  predicate Encoded(before: Option<Tree>, after: Option<Tree>) {
    match before
    case None => after.None?
    case Some(Bytes(data)) => after.Some? && after.value.Text? && Decode(after.value.s) == Some(data)
    case Some(Map(m)) => after.Some? && after.value.Map? && after.value.entries.Keys == m.Keys
    case Some(_) => after == before
  }

  /** Along every path of map keys, byte values and only these are encoded. */
  lemma {:induction false} SanitizeAt(t: Tree, path: seq<string>)
    ensures Encoded(At(t, path), At(Sanitize(t), path))
  {
    if path == [] {
      if t.Bytes? {
        RoundTrip(t.data);
      }
    } else if t.Map? && path[0] in t.entries {
      SanitizeAt(t.entries[path[0]], path[1..]);
    }
  }

  lemma {:induction false} SanitizeIdempotent(t: Tree)
    ensures Sanitize(Sanitize(t)) == Sanitize(t)
  {
    if t.Map? {
      forall k | k in t.entries ensures Sanitize(Sanitize(t.entries[k])) == Sanitize(t.entries[k]) {
        SanitizeIdempotent(t.entries[k]);
      }
      assert Sanitize(Sanitize(t)).entries == Sanitize(t).entries;
    }
  }

  lemma ListsCleanInside(t: Tree, k: string)
    requires t.Map? && k in t.entries && ListsClean(t)
    ensures ListsClean(t.entries[k])
  {
    forall path | At(t.entries[k], path).Some? && At(t.entries[k], path).value.List?
      ensures JsonValid(At(t.entries[k], path).value)
    {
      assert ([k] + path)[1..] == path;
      assert At(t, [k] + path) == At(t.entries[k], path);
    }
  }

  /** The result can be stored exactly when no list reachable through maps holds a byte value, at any depth. */
  lemma {:induction false} SanitizedValidIff(t: Tree)
    ensures JsonValid(Sanitize(t)) <==> ListsClean(t)
  {
    if JsonValid(Sanitize(t)) {
      forall path | At(t, path).Some? && At(t, path).value.List? ensures JsonValid(At(t, path).value) {
        SanitizeAt(t, path);
        ValidAlongPath(Sanitize(t), path);
      }
    }
    if ListsClean(t) {
      match t
      case Map(m) =>
        forall k | k in m ensures JsonValid(Sanitize(m[k])) {
          ListsCleanInside(t, k);
          SanitizedValidIff(m[k]);
        }
      case List(_) =>
        assert At(t, []) == Some(t);
      case _ =>
    }
  }

  lemma {:induction false} ValidAlongPath(t: Tree, path: seq<string>)
    requires JsonValid(t) && At(t, path).Some?
    ensures JsonValid(At(t, path).value)
  {
    if path != [] {
      ValidAlongPath(t.entries[path[0]], path[1..]);
    }
  }

  /** A mutable map whose values may be further mutable maps: a tree of them, no two sharing a part. */
  datatype Cell = Leaf(value: Tree) | Nested(node: MapNode)

  class MapNode {
    var entries: map<string, Cell>
    ghost var repr: set<MapNode>

    ghost predicate Valid()
      reads this, repr
      ensures Valid() ==> this in repr
      decreases repr
    {
      && this in repr
      && (forall k :: k in entries && entries[k].Leaf? ==> !entries[k].value.Map?)
      && (forall k :: k in entries && entries[k].Nested? ==>
            && entries[k].node in repr
            && entries[k].node.repr <= repr - {this}
            && entries[k].node.Valid())
      && (forall j, k :: j in entries && k in entries && j != k && entries[j].Nested? && entries[k].Nested? ==>
            entries[j].node.repr !! entries[k].node.repr)
    }

    ghost function Value(): (t: Tree)
      requires Valid()
      ensures t.Map? && t.entries.Keys == entries.Keys
      reads this, repr
      decreases repr
    {
      Map(map k | k in entries :: CellValue(entries[k]))
    }

    ghost function CellValue(c: Cell): Tree
      requires c.Nested? ==> c.node.repr < repr && c.node.Valid()
      reads this, repr, if c.Nested? then {c.node} + c.node.repr else {}
      decreases repr, 0
    {
      match c
      case Leaf(v) => v
      case Nested(n) => n.Value()
    }

    /** Rewrites this map and the maps below it in place, visiting the keys in any order. */
    method EnsureValidJson()
      requires Valid()
      modifies repr
      ensures Valid() && repr == old(repr)
      ensures Value() == Sanitize(old(Value()))
      decreases repr, 1
    {
      hide Valid, Value;
      var todo := entries.Keys;
      ghost var before := Value().entries;
      while todo != {}
        invariant Valid() && repr == old(repr)
        invariant todo <= entries.Keys == before.Keys
        invariant Value().entries == SanitizedExcept(before, todo)
        decreases todo
      {
        var k :| k in todo;
        Visit(k);
        todo := todo - {k};
      }
      assert SanitizedExcept(before, {}) == Sanitize(Map(before)).entries;
    }

    /** One turn of the loop: the value under `k` is rewritten, every other one stays. */
    method Visit(k: string)
      requires Valid() && k in entries
      modifies repr
      ensures Valid() && repr == old(repr) && entries.Keys == old(entries.Keys)
      ensures Value().entries == old(Value().entries)[k := Sanitize(old(Value().entries[k]))]
      decreases repr, 0
    {
      match entries[k] {
        case Nested(node) =>
          node.EnsureValidJson();
        case Leaf(v) =>
          if v.Bytes? {
            entries := entries[k := Leaf(Text(Encode(v.data)))];
          }
      }
    }
  }
}
