/** The Memento example: a text editor that saves snapshots of its text and restores them. */
module Memento {
  import opened Wrappers

  /** A saved snapshot; its state never changes after it is made. */
  datatype Memento = Memento(state: string)

  /** `a` is a prefix of `b`. */
  predicate IsPrefix(a: string, b: string)
  {
    |a| <= |b| && b[..|a|] == a
  }

  /** `TextEditor`: the current text and the stack of saved snapshots (top at the end). */
  class TextEditor {
    var text: string
    var mementos: seq<Memento>

    /** Because text is only ever appended to, each snapshot extends the one saved before it,
        and the current text extends the latest snapshot. */
    ghost predicate Valid()
      reads this
    {
      && (forall i, j :: 0 <= i < j < |mementos| ==> IsPrefix(mementos[i].state, mementos[j].state))
      && (forall i :: 0 <= i < |mementos| ==> IsPrefix(mementos[i].state, text))
    }

    /** A new editor has empty text and no snapshots. */
    constructor ()
      ensures Valid() && text == "" && mementos == []
    {
      text, mementos := "", [];
    }

    /** `type`: appends to the text; the snapshots are untouched. */
    method Type(t: string)
      requires Valid()
      modifies this
      ensures Valid()
      ensures text == old(text) + t && mementos == old(mementos)
    {
      text := text + t;
      forall i | 0 <= i < |mementos|
        ensures IsPrefix(mementos[i].state, text)
      {
        assert text[..|old(text)|] == old(text);
      }
    }

    /** `save`: pushes a snapshot of the current text. */
    method Save()
      requires Valid()
      modifies this
      ensures Valid()
      ensures mementos == old(mementos) + [Memento(old(text))] && text == old(text)
    {
      mementos := mementos + [Memento(text)];
    }

    /** `undo`: with no snapshots it prints "No states to undo." and returns `None`, changing
        nothing. Otherwise it pops the top snapshot and the text becomes the snapshot now on top,
        or "" when none is left; that text is returned. */
    method Undo() returns (r: Option<string>, out: seq<string>)
      requires Valid()
      modifies this
      ensures Valid()
      ensures old(mementos) == [] ==>
                r == None && out == ["No states to undo."] && text == old(text) && mementos == []
      ensures old(mementos) != [] ==>
                && mementos == old(mementos)[..|old(mementos)| - 1]
                && text == (if mementos == [] then "" else mementos[|mementos| - 1].state)
                && r == Some(text) && out == []
      ensures IsPrefix(text, old(text))
    {
      if mementos == [] {
        return None, ["No states to undo."];
      }
      mementos := mementos[..|mementos| - 1];
      if mementos != [] {
        text := mementos[|mementos| - 1].state;
      } else {
        text := "";
      }
      r, out := Some(text), [];
    }

    /** `get_text`. */
    method GetText() returns (t: string)
      ensures t == text
    {
      t := text;
    }
  }

  /** The tests' sequence: type "Hello, ", save, type "world!", save, then undo three times. The
      first undo restores "Hello, ", the second "", the third has nothing to undo. */
  method MultipleUndoScenario() returns (before: string, first: Option<string>,
                                         second: Option<string>, third: Option<string>,
                                         out: seq<string>)
    ensures before == "Hello, world!"
    ensures first == Some("Hello, ") && second == Some("") && third == None
    ensures out == ["No states to undo."]
  {
    var editor := new TextEditor();
    editor.Type("Hello, ");
    editor.Save();
    editor.Type("world!");
    editor.Save();
    before := editor.GetText();
    var out1, out2, out3;
    first, out1 := editor.Undo();
    second, out2 := editor.Undo();
    third, out3 := editor.Undo();
    out := out1 + out2 + out3;
  }

  /** Undo right after typing past a single save goes back to "", not to the saved text: the
      popped snapshot is the saved one, and nothing is below it. */
  method UndoLastStateScenario() returns (t: string)
    ensures t == ""
  {
    var editor := new TextEditor();
    editor.Type("Hello, ");
    editor.Save();
    editor.Type("world!");
    var r, out := editor.Undo();
    t := editor.GetText();
  }
}
