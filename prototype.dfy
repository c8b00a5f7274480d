/** The Prototype example: a component whose attribute dictionary holds an int, a list of
    ints / sets of ints / lists of ints, and a node whose `parent` points back at a component.
    Python's per-object attribute dictionary (`__dict__`) is modelled as its own heap object
    `Attrs`, because the clone operations share and replace whole dictionaries. */
module Prototype {

  /** A mutable Python `set[int]`. */
  class IntSet {
    var elems: set<int>

    constructor (elems: set<int>)
      ensures this.elems == elems
    {
      this.elems := elems;
    }
  }

  /** A mutable Python `list[int]`. */
  class IntList {
    var elems: seq<int>

    constructor (elems: seq<int>)
      ensures this.elems == elems
    {
      this.elems := elems;
    }
  }

  /** An element of `some_list_of_objects`: an int, or a reference to a nested set or list. */
  datatype Item = IntItem(n: int) | SetItem(s: IntSet) | ListItem(l: IntList)

  /** The mutable outer list `some_list_of_objects`. */
  class PyList {
    var items: seq<Item>

    constructor (items: seq<Item>)
      ensures this.items == items
    {
      this.items := items;
    }
  }

  /** `SelfReferencingEntity`: a node with an optional back-reference to a component. */
  class Entity {
    var parent: Component?

    /** A fresh node has no parent. */
    constructor ()
      ensures parent == null
    {
      parent := null;
    }

    method SetParent(p: Component)
      modifies this
      ensures parent == p
    {
      parent := p;
    }
  }

  /** The attribute dictionary of a `SomeComponent`. */
  class Attrs {
    var someInt: int
    var list: PyList
    var ref: Entity

    constructor (someInt: int, list: PyList, ref: Entity)
      ensures this.someInt == someInt && this.list == list && this.ref == ref
    {
      this.someInt, this.list, this.ref := someInt, list, ref;
    }
  }

  /** `SomeComponent`: an object whose attributes live in the dictionary `attrs`. */
  class Component {
    var attrs: Attrs

    /** `SomeComponent(some_int, some_list_of_objects, some_circular_ref)`: a new object
        with a new attribute dictionary. */
    constructor (someInt: int, list: PyList, ref: Entity)
      ensures fresh(attrs)
      ensures attrs.someInt == someInt && attrs.list == list && attrs.ref == ref
    {
      attrs := new Attrs(someInt, list, ref);
    }
  }

  /** The nested objects an item refers to. */
  function ItemObjects(it: Item): set<object>
  {
    match it
    case IntItem(_) => {}
    case SetItem(s) => {s}
    case ListItem(l) => {l}
  }

  /** `copy` is a copy of `orig` by value: the same int, or a set/list with the same contents. */
  ghost predicate CopyOf(orig: Item, copy: Item)
    reads ItemObjects(orig), ItemObjects(copy)
  {
    match orig
    case IntItem(_) => copy == orig
    case SetItem(s) => copy.SetItem? && copy.s.elems == s.elems
    case ListItem(l) => copy.ListItem? && copy.l.elems == l.elems
  }

  /** `copy.copy(lst)` on a list: a new list holding the very same elements. */
  method CopyList(l: PyList) returns (r: PyList)
    ensures fresh(r) && r.items == l.items
  {
    r := new PyList(l.items);
  }

  /** `copy.copy(node)` on a `SelfReferencingEntity`: a new node whose dictionary is filled
      from the old one, so it has the same parent. */
  method CopyEntity(e: Entity) returns (r: Entity)
    ensures fresh(r) && r.parent == e.parent
  {
    r := new Entity();
    r.parent := e.parent;
  }

  /** `SomeComponent.__copy__` (reached through `shallow_clone`). The one-level copies of the
      list and the node are built and passed to the constructor, but
      `new.__dict__.update(self.__dict__)` then overwrites every attribute with the source's
      value: the clone is a new object with its own dictionary that shares the source's list
      and the source's node. */
  method ShallowClone(c: Component) returns (r: Component)
    ensures fresh(r) && fresh(r.attrs)
    ensures r.attrs.someInt == c.attrs.someInt
    ensures r.attrs.list == c.attrs.list
    ensures r.attrs.ref == c.attrs.ref
  {
    var someInt := c.attrs.someInt;
    var listCopy := CopyList(c.attrs.list);
    var refCopy := CopyEntity(c.attrs.ref);
    r := new Component(someInt, listCopy, refCopy);
    r.attrs.someInt, r.attrs.list, r.attrs.ref := c.attrs.someInt, c.attrs.list, c.attrs.ref;
  }

  /** `copy.deepcopy(lst, memo)` on `some_list_of_objects`: a new list whose ints are kept and
      whose nested sets and lists are new objects with the same contents. Like deepcopy's memo,
      `setMemo` and `listMemo` map each nested object already copied to its copy, so an object
      that occurs twice is copied once and the copy keeps the original's aliasing. */
  method DeepCopyList(l: PyList) returns (r: PyList)
    ensures fresh(r)
    ensures |r.items| == |l.items|
    ensures forall k :: 0 <= k < |l.items| ==> CopyOf(l.items[k], r.items[k])
    ensures forall k :: 0 <= k < |r.items| ==> fresh(ItemObjects(r.items[k]))
    ensures forall j, k :: 0 <= j < |l.items| && 0 <= k < |l.items| ==>
              (l.items[j] == l.items[k] <==> r.items[j] == r.items[k])
  {
    var src := l.items;
    var items: seq<Item> := [];
    var setMemo: map<IntSet, IntSet> := map[];
    var listMemo: map<IntList, IntList> := map[];
    var i := 0;
    while i < |src|
      invariant 0 <= i <= |src| && |items| == i
      invariant forall s :: s in setMemo ==> fresh(setMemo[s]) && setMemo[s].elems == s.elems
      invariant forall x :: x in listMemo ==> fresh(listMemo[x]) && listMemo[x].elems == x.elems
      invariant forall s, t :: s in setMemo && t in setMemo && s != t ==> setMemo[s] != setMemo[t]
      invariant forall x, y :: x in listMemo && y in listMemo && x != y ==> listMemo[x] != listMemo[y]
      invariant forall k :: 0 <= k < i ==> match src[k]
        case IntItem(_) => items[k] == src[k]
        case SetItem(s) => s in setMemo && items[k] == SetItem(setMemo[s])
        case ListItem(x) => x in listMemo && items[k] == ListItem(listMemo[x])
    {
      match src[i] {
        case IntItem(_) =>
          items := items + [src[i]];
        case SetItem(s) =>
          if s !in setMemo {
            var copy := new IntSet(s.elems);
            setMemo := setMemo[s := copy];
          }
          items := items + [SetItem(setMemo[s])];
        case ListItem(x) =>
          if x !in listMemo {
            var copy := new IntList(x.elems);
            listMemo := listMemo[x := copy];
          }
          items := items + [ListItem(listMemo[x])];
      }
      i := i + 1;
    }
    r := new PyList(items);
  }

  /** The graphs `DeepClone` covers: the node's parent is absent, or is a component that shares
      this component's list and node (the component itself, a shallow clone of it, or the
      sibling component a deep clone produces). */
  ghost predicate SelfContained(c: Component)
    reads c, c.attrs, c.attrs.ref, c.attrs.ref.parent
    reads if c.attrs.ref.parent == null then {} else {c.attrs.ref.parent.attrs}
  {
    var p := c.attrs.ref.parent;
    p == null || (p.attrs.list == c.attrs.list && p.attrs.ref == c.attrs.ref)
  }

  /** `SomeComponent.__deepcopy__` as `copy.deepcopy(self)` (reached through `clone`) runs it.
      deepcopy records `self` in its memo only after `__deepcopy__` returns, but records the
      copied list, the copied node and every copied dictionary as it makes them. So copying the
      node's dictionary `{"parent": self}` calls `__deepcopy__` a second time; that inner call
      finds the list and the node in the memo and builds a second new component whose
      dictionary is recorded for `self.__dict__`; the outer call then takes that very
      dictionary as the clone's. The clone's node therefore points at the second component,
      which is not the clone but shares the clone's attribute dictionary. */
  method DeepClone(c: Component) returns (r: Component)
    requires SelfContained(c)
    ensures fresh(r) && fresh(r.attrs) && fresh(r.attrs.list) && fresh(r.attrs.ref)
    ensures r.attrs.someInt == c.attrs.someInt
    ensures |r.attrs.list.items| == |c.attrs.list.items|
    ensures forall k :: 0 <= k < |c.attrs.list.items| ==>
              CopyOf(c.attrs.list.items[k], r.attrs.list.items[k])
    ensures forall k :: 0 <= k < |r.attrs.list.items| ==> fresh(ItemObjects(r.attrs.list.items[k]))
    ensures forall j, k :: 0 <= j < |c.attrs.list.items| && 0 <= k < |c.attrs.list.items| ==>
              (c.attrs.list.items[j] == c.attrs.list.items[k] <==>
               r.attrs.list.items[j] == r.attrs.list.items[k])
    ensures c.attrs.ref.parent == null ==> r.attrs.ref.parent == null
    ensures c.attrs.ref.parent != null ==>
              var q := r.attrs.ref.parent;
              q != null && fresh(q) && q != r &&
              (c.attrs.ref.parent.attrs == c.attrs ==> q.attrs == r.attrs) &&
              (c.attrs.ref.parent.attrs != c.attrs ==>
                 fresh(q.attrs) && q.attrs != r.attrs &&
                 q.attrs.someInt == c.attrs.ref.parent.attrs.someInt &&
                 q.attrs.list == r.attrs.list && q.attrs.ref == r.attrs.ref)
    ensures SelfContained(r)
  {
    // copy.deepcopy(self.some_list_of_objects, memo)
    var listCopy := DeepCopyList(c.attrs.list);
    // copy.deepcopy(self.some_circular_ref, memo): the new node enters the memo before its
    // dictionary is copied
    var nodeCopy := new Entity();
    var dictMemo: map<Attrs, Attrs> := map[];
    var p := c.attrs.ref.parent;
    if p != null {
      // p is not in the memo yet, so p.__deepcopy__(memo) runs; its list and its node are
      var inner := new Component(p.attrs.someInt, listCopy, nodeCopy);
      // inner.__dict__ = copy.deepcopy(p.__dict__, memo), recorded in the memo
      var innerDict := new Attrs(p.attrs.someInt, listCopy, nodeCopy);
      dictMemo := dictMemo[p.attrs := innerDict];
      inner.attrs := innerDict;
      nodeCopy.parent := inner;
    }
    r := new Component(c.attrs.someInt, listCopy, nodeCopy);
    // new.__dict__ = copy.deepcopy(self.__dict__, memo)
    if c.attrs in dictMemo {
      r.attrs := dictMemo[c.attrs];
    } else {
      var dict := new Attrs(c.attrs.someInt, listCopy, nodeCopy);
      r.attrs := dict;
    }
  }

  /** The graph the tests build: `some_int` 23, the list `[1, {1, 2, 3}, [1, 2, 3]]`, and a
      node whose parent is the component, closing the cycle component -> node -> component. */
  method SampleComponent() returns (c: Component)
    ensures fresh(c) && fresh(c.attrs) && fresh(c.attrs.list) && fresh(c.attrs.ref)
    ensures c.attrs.someInt == 23 && c.attrs.ref.parent == c
    ensures |c.attrs.list.items| == 3 && c.attrs.list.items[0] == IntItem(1)
    ensures c.attrs.list.items[1].SetItem? && fresh(c.attrs.list.items[1].s)
    ensures c.attrs.list.items[1].s.elems == {1, 2, 3}
    ensures c.attrs.list.items[2].ListItem? && fresh(c.attrs.list.items[2].l)
    ensures c.attrs.list.items[2].l.elems == [1, 2, 3]
  {
    var nestedSet := new IntSet({1, 2, 3});
    var nestedList := new IntList([1, 2, 3]);
    var list := new PyList([IntItem(1), SetItem(nestedSet), ListItem(nestedList)]);
    var node := new Entity();
    c := new Component(23, list, node);
    node.SetParent(c);
  }

  /** The shallow-clone test: mutate the source after cloning and look through the clone.
      The int was copied, while the list, the nested set, the nested list and the node are the
      source's own objects, so the cycle seen from the clone runs through the source. */
  method ShallowCloneScenario()
    returns (distinct: bool, cloneInt: int, cloneFirst: Item, setSeen: bool, lastSeen: int,
             nodeCycle: bool, parentCycle: bool, parentIsSource: bool)
    ensures distinct && cloneInt == 23 && cloneFirst == IntItem(10) && setSeen && lastSeen == 10
    ensures nodeCycle && parentCycle && parentIsSource
  {
    var c := SampleComponent();
    var s := ShallowClone(c);
    distinct := s != c;
    c.attrs.someInt := 24;
    cloneInt := s.attrs.someInt;
    c.attrs.list.items := c.attrs.list.items[0 := IntItem(10)];
    cloneFirst := s.attrs.list.items[0];
    var nestedSet := c.attrs.list.items[1].s;
    nestedSet.elems := nestedSet.elems + {10};
    setSeen := 10 in s.attrs.list.items[1].s.elems;
    var nestedList := c.attrs.list.items[2].l;
    nestedList.elems := nestedList.elems + [10];
    var seen := s.attrs.list.items[2].l.elems;
    lastSeen := seen[|seen| - 1];
    var parent := s.attrs.ref.parent;
    nodeCycle := s.attrs.ref == parent.attrs.ref;
    parentCycle := parent == parent.attrs.ref.parent;
    parentIsSource := parent == c;
  }

  /** The deep-clone test: the same mutations of the source are invisible in the clone, and the
      clone's cycle closes through the second component that shares the clone's dictionary
      rather than through the clone itself. */
  method DeepCloneScenario()
    returns (distinct: bool, cloneInt: int, cloneFirst: Item, setSeen: bool, lastSeen: int,
             nodeCycle: bool, parentCycle: bool, parentIsClone: bool)
    ensures distinct && cloneInt == 23 && cloneFirst == IntItem(1) && !setSeen && lastSeen == 3
    ensures nodeCycle && parentCycle && !parentIsClone
  {
    var c := SampleComponent();
    var d := DeepClone(c);
    distinct := d != c;
    c.attrs.someInt := 24;
    cloneInt := d.attrs.someInt;
    c.attrs.list.items := c.attrs.list.items[0 := IntItem(10)];
    cloneFirst := d.attrs.list.items[0];
    var nestedSet := c.attrs.list.items[1].s;
    nestedSet.elems := nestedSet.elems + {10};
    setSeen := 10 in d.attrs.list.items[1].s.elems;
    var nestedList := c.attrs.list.items[2].l;
    nestedList.elems := nestedList.elems + [10];
    var seen := d.attrs.list.items[2].l.elems;
    lastSeen := seen[|seen| - 1];
    var parent := d.attrs.ref.parent;
    nodeCycle := d.attrs.ref == parent.attrs.ref;
    parentCycle := parent == parent.attrs.ref.parent;
    parentIsClone := parent == d;
  }
}
