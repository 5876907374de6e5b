/** The check that a Python object is a finite JSON value. The object graph may share
    objects and may have cycles; containers are known by their `id`. */
module JsonGraph {

  datatype Key = StringKey(text: string) | OtherKey

  /** A scalar, an object of another type, or a reference to a container. */
  datatype Value =
    | Null | Bool(b: bool) | Int(n: int) | String(text: string)
    | Float(finite: bool) | Other | Ref(id: nat)

  datatype Container = Dict(members: seq<(Key, Value)>) | List(items: seq<Value>)

  type Heap = map<nat, Container>

  function Items(c: Container): seq<Value> {
    match c
    case List(items) => items
    case Dict(members) => seq(|members|, i requires 0 <= i < |members| => members[i].1)
  }

  predicate StringKeys(c: Container) {
    c.Dict? ==> forall i :: 0 <= i < |c.members| ==> c.members[i].0.StringKey?
  }

  predicate Present(heap: Heap, v: Value) {
    v.Ref? ==> v.id in heap
  }

  /** No reference dangles. */
  ghost predicate Closed(heap: Heap) {
    forall id :: id in heap ==> forall i :: 0 <= i < |Items(heap[id])| ==> Present(heap, Items(heap[id])[i])
  }

  // ---------------------------------------------------------------- the meaning: paths

  predicate GoodLeaf(v: Value) {
    match v
    case Float(finite) => finite
    case Other => false
    case Ref(_) => false
    case _ => true
  }

  predicate HasItem(heap: Heap, id: nat, v: Value) {
    id in heap && v in Items(heap[id])
  }

  /** A walk along references, as the ids of the containers it visits. */
  ghost predicate IsPath(heap: Heap, v: Value, path: seq<nat>) {
    && path != [] && v == Ref(path[0])
    && forall i :: 0 <= i < |path| - 1 ==> HasItem(heap, path[i], Ref(path[i + 1]))
  }

  predicate Simple(path: seq<nat>) {
    forall i, j :: 0 <= i < j < |path| ==> path[i] != path[j]
  }

  predicate Avoids(path: seq<nat>, active: set<nat>) {
    forall i :: 0 <= i < |path| ==> path[i] !in active
  }

  /** Its keys are strings, and what it holds beside containers is finite and JSON. */
  predicate GoodContainer(heap: Heap, id: nat) {
    id in heap && StringKeys(heap[id]) && forall v :: v in Items(heap[id]) ==> v.Ref? || GoodLeaf(v)
  }

  ghost predicate GoodPath(heap: Heap, path: seq<nat>, active: set<nat>)
    requires path != []
  {
    Simple(path) && Avoids(path, active) && GoodContainer(heap, path[|path| - 1])
  }

  /** Every path from `v` is free of repetitions and stays clear of `active`, and all it
      reaches is JSON. */
  ghost predicate IsJson(heap: Heap, v: Value, active: set<nat>) {
    && (v.Ref? || GoodLeaf(v))
    && forall path :: IsPath(heap, v, path) ==> GoodPath(heap, path, active)
  }

  // ---------------------------------------------------------------- one container at a time

  lemma PathStart(heap: Heap, id: nat, active: set<nat>)
    requires IsJson(heap, Ref(id), active)
    ensures id !in active && GoodContainer(heap, id)
  {
    assert IsPath(heap, Ref(id), [id]);
    assert GoodPath(heap, [id], active);
  }

  lemma LongerPath(heap: Heap, id: nat, v: Value, path: seq<nat>)
    requires HasItem(heap, id, v) && IsPath(heap, v, path)
    ensures IsPath(heap, Ref(id), [id] + path)
  {
    var longer := [id] + path;
    forall i | 0 <= i < |longer| - 1 ensures HasItem(heap, longer[i], Ref(longer[i + 1])) {
      if i > 0 {
        assert HasItem(heap, path[i - 1], Ref(path[i - 1 + 1]));
      }
    }
  }

  lemma TailOfSimple(id: nat, path: seq<nat>, active: set<nat>)
    requires Simple([id] + path) && Avoids([id] + path, active)
    ensures Simple(path) && Avoids(path, active + {id})
  {
    var longer := [id] + path;
    assert forall i :: 0 <= i < |path| ==> path[i] == longer[i + 1] && longer[i + 1] != longer[0];
  }

  lemma Descend(heap: Heap, id: nat, active: set<nat>, v: Value)
    requires IsJson(heap, Ref(id), active) && HasItem(heap, id, v)
    ensures IsJson(heap, v, active + {id})
  {
    PathStart(heap, id, active);
    forall path | IsPath(heap, v, path) ensures GoodPath(heap, path, active + {id}) {
      LongerPath(heap, id, v, path);
      assert GoodPath(heap, [id] + path, active);
      TailOfSimple(id, path, active);
      assert ([id] + path)[|path|] == path[|path| - 1];
    }
  }

  lemma Ascend(heap: Heap, id: nat, active: set<nat>)
    requires id !in active && GoodContainer(heap, id)
    requires forall v :: HasItem(heap, id, v) ==> IsJson(heap, v, active + {id})
    ensures IsJson(heap, Ref(id), active)
  {
    forall path | IsPath(heap, Ref(id), path) ensures GoodPath(heap, path, active) {
      var rest := path[1..];
      if rest != [] {
        assert HasItem(heap, path[0], Ref(path[1]));
        assert IsPath(heap, Ref(rest[0]), rest) by {
          forall i | 0 <= i < |rest| - 1 ensures HasItem(heap, rest[i], Ref(rest[i + 1])) {
            assert HasItem(heap, path[i + 1], Ref(path[i + 2]));
          }
        }
        assert GoodPath(heap, rest, active + {id});
        SimpleWithHead(path, active);
        assert path[|path| - 1] == rest[|rest| - 1];
      }
    }
  }

  lemma SimpleWithHead(path: seq<nat>, active: set<nat>)
    requires path != [] && path[0] !in active
    requires Simple(path[1..]) && Avoids(path[1..], active + {path[0]})
    ensures Simple(path) && Avoids(path, active)
  {
    var rest := path[1..];
    forall i, j | 0 <= i < j < |path| ensures path[i] != path[j] {
      assert path[j] == rest[j - 1];
      if i > 0 {
        assert path[i] == rest[i - 1];
      }
    }
    forall i | 0 <= i < |path| ensures path[i] !in active {
      if i > 0 {
        assert path[i] == rest[i - 1];
      }
    }
  }

  /** A container is JSON exactly when it is not on the current path, is good by itself, and
      all it holds is JSON with it on the path. */
  lemma OneContainer(heap: Heap, id: nat, active: set<nat>)
    requires Closed(heap) && id in heap
    ensures IsJson(heap, Ref(id), active) <==>
            && id !in active && StringKeys(heap[id])
            && forall i :: 0 <= i < |Items(heap[id])| ==> IsJson(heap, Items(heap[id])[i], active + {id})
  {
    var items := Items(heap[id]);
    if IsJson(heap, Ref(id), active) {
      PathStart(heap, id, active);
      forall i | 0 <= i < |items| ensures IsJson(heap, items[i], active + {id}) {
        Descend(heap, id, active, items[i]);
      }
    }
    if && id !in active && StringKeys(heap[id])
       && forall i :: 0 <= i < |items| ==> IsJson(heap, items[i], active + {id}) {
      assert GoodContainer(heap, id);
      Ascend(heap, id, active);
    }
  }

  /** Of the values that are no containers, these are JSON. */
  lemma ScalarHasNoPath(heap: Heap, v: Value, active: set<nat>)
    requires !v.Ref?
    ensures IsJson(heap, v, active) == GoodLeaf(v)
    ensures IsJson(heap, v, active) <==> v.Null? || v.Bool? || v.Int? || v.String? || v == Float(true)
  {
  }

  // ---------------------------------------------------------------- _valid_json

  /** The mutable set that the recursive calls share. */
  class ActiveSet {
    var ids: set<nat>

    constructor ()
      ensures ids == {}
    {
      ids := {};
    }
  }

  /** `_valid_json` with its set of ids. It leaves the set as it was, and terminates because
      each level puts another container on the path. */
  method ValidJson(heap: Heap, value: Value, active: ActiveSet) returns (valid: bool)
    requires Closed(heap) && Present(heap, value)
    modifies active
    ensures active.ids == old(active.ids)
    ensures valid <==> IsJson(heap, value, active.ids)
    decreases |heap.Keys - active.ids|
  {
    ghost var before := active.ids;
    if !value.Ref? {
      ScalarHasNoPath(heap, value, active.ids);
      return match value case Float(finite) => finite case Other => false case _ => true;
    }
    OneContainer(heap, value.id, active.ids);
    if value.id in active.ids {
      return false;
    }
    active.ids := active.ids + {value.id};
    assert heap.Keys - active.ids < heap.Keys - before by {
      assert value.id in heap.Keys - before;
    }
    CardinalityDrops(heap.Keys - active.ids, heap.Keys - before);
    var container := heap[value.id];
    var items := Items(container);
    valid := true;
    var i := 0;
    while i < |items| && valid
      invariant i <= |items| && active.ids == before + {value.id}
      invariant valid ==> forall j :: 0 <= j < i ==>
                  (container.Dict? ==> container.members[j].0.StringKey?) && IsJson(heap, items[j], active.ids)
      invariant !valid ==> !IsJson(heap, value, before)
    {
      if container.Dict? && !container.members[i].0.StringKey? {
        valid := false;
      } else {
        valid := ValidJson(heap, items[i], active);
      }
      i := i + 1;
    }
    active.ids := active.ids - {value.id};
    assert active.ids == before;
  }

  lemma CardinalityDrops(a: set<nat>, b: set<nat>)
    requires a < b
    ensures |a| < |b|
  {
    var x :| x in b && x !in a;
    assert |b - a| > 0;
    assert a + (b - a) == b;
  }

  /** The outermost call: shared objects are fine, and the answer is about every path. */
  method IsValidJson(heap: Heap, value: Value) returns (valid: bool)
    requires Closed(heap) && Present(heap, value)
    ensures valid <==> IsJson(heap, value, {})
  {
    var active := new ActiveSet();
    valid := ValidJson(heap, value, active);
  }

  /** Sharing is not a cycle: two references to one container are as good as one. */
  lemma SharingIsJson(heap: Heap, id: nat, v: Value, n: nat)
    requires Closed(heap) && id in heap && heap[id] == List(seq(n, _ => v)) && Present(heap, v)
    requires IsJson(heap, v, {id})
    ensures IsJson(heap, Ref(id), {})
  {
    OneContainer(heap, id, {});
    assert forall i :: 0 <= i < n ==> Items(heap[id])[i] == v;
    assert {} + {id} == {id};
  }
}
