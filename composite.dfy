/** The Composite example: files and directories rendered as an indented listing. A directory's
    list of children is changed in place by `add` and `remove`; the children themselves are held
    as values (a subdirectory as it was when added), and rendering is a function of that tree. */
module Composite {
  import opened Wrappers
  import opened PyList

  /** A file, a directory with its children in insertion order, or an object of the bare base
      class `FileSystemComponent`, whose `display` is not implemented. */
  datatype Component = File(name: string) | Dir(name: string, children: seq<Component>) | Abstract

  /** `"  " * depth`. */
  function Indent(depth: nat): (s: string)
    ensures |s| == 2 * depth
    ensures forall k :: 0 <= k < |s| ==> s[k] == ' '
  {
    if depth == 0 then "" else Indent(depth - 1) + "  "
  }

  /** The lines `display(depth)` prints, and whether it ends by raising. A directory prints its own
      line, then each child one level deeper, in order; a `NotImplementedError` raised by a child
      stops the listing after the lines already printed. */
  function Display(c: Component, depth: nat): (r: (seq<string>, Outcome))
    ensures r.1 == Pass <==> Concrete(c)
    ensures r.1 != Pass ==> r.1 == Fail(NotImplementedError)
    decreases c, 1
  {
    match c
    case File(n) => ([Indent(depth) + "File: " + n], Pass)
    case Abstract => ([], Fail(NotImplementedError))
    case Dir(n, ch) =>
      var rest := DisplayAll(ch, depth + 1);
      ([Indent(depth) + "Directory: " + n] + rest.0, rest.1)
  }

  /** The children's listings, one after the other, up to the first that raises. */
  function DisplayAll(cs: seq<Component>, depth: nat): (r: (seq<string>, Outcome))
    ensures r.1 == Pass <==> forall k :: 0 <= k < |cs| ==> Concrete(cs[k])
    ensures r.1 != Pass ==> r.1 == Fail(NotImplementedError)
    decreases cs, 0
  {
    if cs == [] then ([], Pass)
    else
      var first := Display(cs[0], depth);
      if first.1.Fail? then first
      else
        var rest := DisplayAll(cs[1..], depth);
        assert forall k :: 1 <= k < |cs| ==> cs[k] == cs[1..][k - 1];
        (first.0 + rest.0, rest.1)
  }

  /** No node of the tree is the bare base class. */
  predicate Concrete(c: Component)
    decreases c
  {
    match c
    case File(_) => true
    case Abstract => false
    case Dir(_, ch) => forall k :: 0 <= k < |ch| ==> Concrete(ch[k])
  }

  /** The number of files and directories in the tree. */
  function Size(c: Component): nat
    decreases c, 1
  {
    match c
    case File(_) => 1
    case Abstract => 0
    case Dir(_, ch) => 1 + SizeAll(ch)
  }

  function SizeAll(cs: seq<Component>): nat
    decreases cs, 0
  {
    if cs == [] then 0 else Size(cs[0]) + SizeAll(cs[1..])
  }

  /** Every line of a listing at `depth` starts with that depth's indentation. */
  predicate IndentedAtLeast(lines: seq<string>, depth: nat)
  {
    forall k :: 0 <= k < |lines| ==> |Indent(depth)| <= |lines[k]| && lines[k][..2 * depth] == Indent(depth)
  }

  /** A tree with no base-class node renders without raising, as one line per file and directory,
      each indented at least as deep as the tree's own depth. */
  lemma {:induction false} DisplayConcrete(c: Component, depth: nat)
    requires Concrete(c)
    ensures Display(c, depth).1 == Pass
    ensures |Display(c, depth).0| == Size(c)
    ensures IndentedAtLeast(Display(c, depth).0, depth)
    decreases c, 1
  {
    match c
    case File(n) =>
    case Dir(n, ch) =>
      assert forall k :: 0 <= k < |ch| ==> Concrete(ch[k]);
      DisplayAllConcrete(ch, depth + 1);
      var rest := DisplayAll(ch, depth + 1).0;
      IndentDeeper(rest, depth);
  }

  lemma {:induction false} DisplayAllConcrete(cs: seq<Component>, depth: nat)
    requires forall k :: 0 <= k < |cs| ==> Concrete(cs[k])
    ensures DisplayAll(cs, depth).1 == Pass
    ensures |DisplayAll(cs, depth).0| == SizeAll(cs)
    ensures IndentedAtLeast(DisplayAll(cs, depth).0, depth)
    decreases cs, 0
  {
    if cs != [] {
      DisplayConcrete(cs[0], depth);
      assert forall k :: 0 <= k < |cs[1..]| ==> Concrete(cs[1..][k]) by {
        forall k | 0 <= k < |cs[1..]|
          ensures Concrete(cs[1..][k])
        {
          assert cs[1..][k] == cs[k + 1];
        }
      }
      DisplayAllConcrete(cs[1..], depth);
    }
  }

  /** Lines indented for `depth + 1` are indented for `depth` too. */
  lemma IndentDeeper(lines: seq<string>, depth: nat)
    requires IndentedAtLeast(lines, depth + 1)
    ensures IndentedAtLeast(lines, depth)
  {
    forall k | 0 <= k < |lines|
      ensures |Indent(depth)| <= |lines[k]| && lines[k][..2 * depth] == Indent(depth)
    {
      assert lines[k][..2 * depth] == lines[k][..2 * (depth + 1)][..2 * depth];
    }
  }

  /** Adding a concrete child to a concrete directory appends exactly the child's own listing,
      one level deeper, to the directory's listing. */
  lemma {:induction false} DisplayAfterAdd(name: string, children: seq<Component>, c: Component, depth: nat)
    requires forall k :: 0 <= k < |children| ==> Concrete(children[k])
    ensures Display(Dir(name, children + [c]), depth).0 ==
              Display(Dir(name, children), depth).0 + Display(c, depth + 1).0
    ensures Display(Dir(name, children + [c]), depth).1 == Display(c, depth + 1).1
    decreases |children|
  {
    DisplayAllSnoc(children, c, depth + 1);
  }

  lemma {:induction false} DisplayAllSnoc(cs: seq<Component>, c: Component, depth: nat)
    requires forall k :: 0 <= k < |cs| ==> Concrete(cs[k])
    ensures DisplayAll(cs + [c], depth).0 == DisplayAll(cs, depth).0 + Display(c, depth).0
    ensures DisplayAll(cs + [c], depth).1 == Display(c, depth).1
    decreases |cs|
  {
    if cs == [] {
      assert [c][1..] == [];
    } else {
      assert (cs + [c])[0] == cs[0] && (cs + [c])[1..] == cs[1..] + [c];
      DisplayConcrete(cs[0], depth);
      assert forall k :: 0 <= k < |cs[1..]| ==> Concrete(cs[1..][k]) by {
        forall k | 0 <= k < |cs[1..]|
          ensures Concrete(cs[1..][k])
        {
          assert cs[1..][k] == cs[k + 1];
        }
      }
      DisplayAllSnoc(cs[1..], c, depth);
    }
  }

  /** `list.remove`: the list without the first occurrence of `c`, or `ValueError` when `c` is
      not in it. */
  function RemoveFirst(cs: seq<Component>, c: Component): (r: Result<seq<Component>>)
    ensures r.Ok? <==> c in cs
    ensures r.Err? ==> r.error == ValueError
    ensures r.Ok? ==> |r.value| == |cs| - 1 && multiset(r.value) + multiset{c} == multiset(cs)
  {
    if cs == [] then Err(ValueError)
    else if cs[0] == c then
      assert cs == [c] + cs[1..];
      Ok(cs[1..])
    else
      var rest := RemoveFirst(cs[1..], c);
      if rest.Err? then rest
      else
        assert cs == [cs[0]] + cs[1..];
        Ok([cs[0]] + rest.value)
  }

  /** `list.remove` deletes the first occurrence: the children before it, none of which is `c`,
      and the children after it stay, in their order. */
  lemma {:induction false} RemoveFirstDropsFirstOccurrence(cs: seq<Component>, c: Component)
    ensures RemoveFirst(cs, c).Ok? ==> exists i :: DropsFirstAt(cs, c, i, RemoveFirst(cs, c).value)
  {
    if cs == [] {
    } else if cs[0] == c {
      DropsFirstAtHead(cs, c);
    } else {
      var rest := RemoveFirst(cs[1..], c);
      if rest.Ok? {
        RemoveFirstDropsFirstOccurrence(cs[1..], c);
        var j :| DropsFirstAt(cs[1..], c, j, rest.value);
        DropsFirstAtCons(cs[0], cs[1..], c, j, rest.value);
        assert [cs[0]] + cs[1..] == cs;
      }
    }
  }

  /** Removing a child that was just added, and was not already there, restores the list. */
  lemma {:induction false} RemoveUndoesAdd(cs: seq<Component>, c: Component)
    requires c !in cs
    ensures RemoveFirst(cs + [c], c) == Ok(cs)
  {
    if cs != [] {
      assert (cs + [c])[0] == cs[0] && (cs + [c])[1..] == cs[1..] + [c];
      RemoveUndoesAdd(cs[1..], c);
      assert cs == [cs[0]] + cs[1..];
    } else {
      assert [c][1..] == [];
    }
  }

  /** `Directory`: a name and the list of children that `add` and `remove` change in place. */
  class Directory {
    const name: string
    var children: seq<Component>

    /** A new directory is empty. */
    constructor (name: string)
      ensures this.name == name && children == []
    {
      this.name := name;
      children := [];
    }

    /** The directory as a tree value, for rendering or for adding to another directory. */
    function Tree(): (t: Component)
      reads this
      ensures t.Dir? && t.name == name && t.children == children
    {
      Dir(name, children)
    }

    /** `add`: appends a child at the end. */
    method Add(c: Component)
      modifies this
      ensures children == old(children) + [c]
    {
      children := children + [c];
    }

    /** `remove`: deletes the first occurrence of the child; an absent child raises `ValueError`
        and leaves the list alone. */
    method Remove(c: Component) returns (r: Outcome)
      modifies this
      ensures r == Pass <==> c in old(children)
      ensures r == Pass ==> RemoveFirst(old(children), c) == Ok(children)
      ensures r == Pass ==> exists i :: DropsFirstAt(old(children), c, i, children)
      ensures r != Pass ==> r == Fail(ValueError) && children == old(children)
    {
      var removed := RemoveFirst(children, c);
      if removed.Err? {
        return Fail(ValueError);
      }
      RemoveFirstDropsFirstOccurrence(children, c);
      children := removed.value;
      r := Pass;
    }
  }

  /** The file test: a file at depth 0 prints "File: test_file.txt". */
  method FileScenario() returns (lines: seq<string>)
    ensures lines == ["File: test_file.txt"]
  {
    lines := Display(File("test_file.txt"), 0).0;
    assert Indent(0) == "";
    assert Indent(0) + "File: " + "test_file.txt" == "File: test_file.txt";
  }

  /** The nested test: root holding sub_directory (holding file1.txt) and then file2.txt. */
  method NestedScenario() returns (lines: seq<string>, outcome: Outcome)
    ensures lines == ["Directory: root", "  Directory: sub_directory", "    File: file1.txt",
                      "  File: file2.txt"]
    ensures outcome == Pass
  {
    var root := new Directory("root");
    var sub := new Directory("sub_directory");
    sub.Add(File("file1.txt"));
    assert sub.children == [File("file1.txt")];
    var subTree := sub.Tree();
    root.Add(subTree);
    root.Add(File("file2.txt"));
    assert root.children == [subTree, File("file2.txt")];
    var tree := root.Tree();
    assert tree == Dir("root", [Dir("sub_directory", [File("file1.txt")]), File("file2.txt")]);
    NestedListingText();
    var shown := Display(tree, 0);
    lines, outcome := shown.0, shown.1;
  }

  /** `NestedListing` with the test's names. */
  lemma NestedListingText()
    ensures Display(Dir("root", [Dir("sub_directory", [File("file1.txt")]), File("file2.txt")]), 0) ==
              (["Directory: root", "  Directory: sub_directory", "    File: file1.txt", "  File: file2.txt"], Pass)
  {
    NestedListing("root", "sub_directory", "file1.txt", "file2.txt");
    assert "Directory: " + "root" == "Directory: root";
    assert "  Directory: " + "sub_directory" == "  Directory: sub_directory";
    assert "    File: " + "file1.txt" == "    File: file1.txt";
    assert "  File: " + "file2.txt" == "  File: file2.txt";
  }

  /** A new, empty directory lists only its own line. */
  lemma EmptyDirectoryListing(name: string, depth: nat)
    ensures Display(Dir(name, []), depth) == ([Indent(depth) + "Directory: " + name], Pass)
  {
    assert DisplayAll([], depth + 1) == ([], Pass);
    assert [Indent(depth) + "Directory: " + name] + [] == [Indent(depth) + "Directory: " + name];
  }

  /** The listing of a root holding a subdirectory (holding one file) and then a file, built one
      `add` at a time with `DisplayAfterAdd`. */
  lemma NestedListing(root: string, sub: string, file1: string, file2: string)
    ensures Display(Dir(root, [Dir(sub, [File(file1)]), File(file2)]), 0) ==
              (["Directory: " + root, "  Directory: " + sub, "    File: " + file1, "  File: " + file2], Pass)
  {
    var f1, f2 := File(file1), File(file2);
    var subTree := Dir(sub, [f1]);
    assert Indent(0) == "" && Indent(1) == "  " && Indent(2) == "    ";
    assert Indent(0) + "Directory: " + root == "Directory: " + root;
    assert Indent(1) + "Directory: " + sub == "  Directory: " + sub;
    assert Indent(2) + "File: " + file1 == "    File: " + file1;
    assert Indent(1) + "File: " + file2 == "  File: " + file2;
    EmptyDirectoryListing(sub, 1);
    EmptyDirectoryListing(root, 0);
    DisplayAfterAdd(sub, [], f1, 1);
    assert [] + [f1] == [f1];
    var subLine, file1Line := "  Directory: " + sub, "    File: " + file1;
    assert Display(Dir(sub, []), 1).0 == [subLine];
    assert Display(f1, 2) == ([file1Line], Pass);
    assert [subLine] + [file1Line] == [subLine, file1Line];
    assert Display(subTree, 1) == ([subLine, file1Line], Pass);
    var rootLine, file2Line := "Directory: " + root, "  File: " + file2;
    DisplayAfterAdd(root, [], subTree, 0);
    assert [] + [subTree] == [subTree];
    assert Display(Dir(root, []), 0).0 == [rootLine];
    assert [rootLine] + [subLine, file1Line] == [rootLine, subLine, file1Line];
    assert Display(Dir(root, [subTree]), 0).0 == [rootLine, subLine, file1Line];
    assert Concrete(subTree);
    DisplayAfterAdd(root, [subTree], f2, 0);
    assert [subTree] + [f2] == [subTree, f2];
    assert Display(f2, 1) == ([file2Line], Pass);
    assert [rootLine, subLine, file1Line] + [file2Line] == [rootLine, subLine, file1Line, file2Line];
  }

  /** Removing a child that is not there raises `ValueError`; removing one that is leaves the
      others in order. */
  method RemoveScenario() returns (absent: Outcome, present: Outcome, remaining: seq<Component>)
    ensures absent == Fail(ValueError) && present == Pass
    ensures remaining == [File("b.txt")]
  {
    var d := new Directory("d");
    var a := File("a.txt");
    d.Add(a);
    d.Add(File("b.txt"));
    absent := d.Remove(File("c.txt"));
    present := d.Remove(a);
    remaining := d.children;
  }

  /** The base class's `display` raises `NotImplementedError`; in a directory the lines before it
      are printed first. */
  method AbstractScenario() returns (lines: seq<string>, outcome: Outcome)
    ensures lines == ["Directory: d", "  File: a.txt"] && outcome == Fail(NotImplementedError)
  {
    var a, b := File("a.txt"), File("b.txt");
    var d := new Directory("d");
    d.Add(a);
    d.Add(Abstract);
    d.Add(b);
    assert d.children == [a, Abstract, b];
    assert Indent(0) == "" && Indent(1) == "  ";
    assert Indent(1) + "File: " + "a.txt" == "  File: a.txt";
    assert Indent(0) + "Directory: " + "d" == "Directory: d";
    assert Display(a, 1) == (["  File: a.txt"], Pass);
    assert [a, Abstract, b][1..] == [Abstract, b];
    assert DisplayAll([Abstract, b], 1) == ([], Fail(NotImplementedError));
    assert ["  File: a.txt"] + [] == ["  File: a.txt"];
    assert DisplayAll([a, Abstract, b], 1) == (["  File: a.txt"], Fail(NotImplementedError));
    assert ["Directory: d"] + ["  File: a.txt"] == ["Directory: d", "  File: a.txt"];
    assert d.Tree() == Dir("d", [a, Abstract, b]);
    var shown := Display(d.Tree(), 0);
    lines, outcome := shown.0, shown.1;
  }
}
