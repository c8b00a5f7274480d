/** The Observer example. `ConcreteSubject._observers` is a class-level list, so every subject
    reads and mutates the same list: it is modelled as one `Registry` object that subjects
    share. `_state` is class-level too, but `change_state` assigns it on the instance, so each
    subject has its own state, 0 until first changed. */
module Observer {
  import opened Wrappers
  import opened PyList
  import PyText

  /** `ConcreteObserver`: a name and the last state it was told about (0 until updated). */
  class ConcreteObserver {
    const name: string
    var subjectState: int

    constructor (name: string)
      ensures this.name == name && subjectState == 0
    {
      this.name := name;
      subjectState := 0;
    }

    /** `update`: takes the subject's current state and prints it (`display_state`). */
    method Update(subject: ConcreteSubject) returns (line: string)
      modifies this
      ensures subjectState == subject.state
      ensures line == DisplayLine(name, subject.state)
    {
      subjectState := subject.state;
      line := DisplayLine(name, subjectState);
    }
  }

  /** The line `display_state` prints. */
  function DisplayLine(name: string, state: int): string
  {
    name + " received update: State is now " + PyText.IntToString(state)
  }

  /** The lines a notification prints: one per listed observer, in list order. */
  function NotifyLines(observers: seq<ConcreteObserver>, state: int): (out: seq<string>)
    ensures |out| == |observers|
    ensures forall k :: 0 <= k < |observers| ==> out[k] == DisplayLine(observers[k].name, state)
  {
    if observers == [] then []
    else [DisplayLine(observers[0].name, state)] + NotifyLines(observers[1..], state)
  }

  /** The class-level `_observers` list shared by every `ConcreteSubject`. */
  class Registry {
    var observers: seq<ConcreteObserver>

    constructor ()
      ensures observers == []
    {
      observers := [];
    }
  }

  /** Only `attach` adds to the list, and it skips observers already present, so the list never
      holds an observer twice. */
  ghost predicate NoDuplicates(observers: seq<ConcreteObserver>)
  {
    forall i, j :: 0 <= i < j < |observers| ==> observers[i] != observers[j]
  }

  /** The list without the first occurrence of `o` (what `list.remove` leaves). */
  function RemoveFirst(observers: seq<ConcreteObserver>, o: ConcreteObserver): (r: seq<ConcreteObserver>)
    requires o in observers
    ensures |r| == |observers| - 1
    ensures forall x :: x in r ==> x in observers
    ensures forall x :: x in observers && x != o ==> x in r
  {
    if observers[0] == o then observers[1..]
    else [observers[0]] + RemoveFirst(observers[1..], o)
  }

  /** On a list without duplicates, removing the first occurrence removes the observer
      altogether and keeps the list free of duplicates. */
  lemma {:induction false} RemoveFirstKeepsNoDuplicates(observers: seq<ConcreteObserver>, o: ConcreteObserver)
    requires o in observers && NoDuplicates(observers)
    ensures o !in RemoveFirst(observers, o)
    ensures NoDuplicates(RemoveFirst(observers, o))
  {
    if observers[0] == o {
      forall k | 0 <= k < |observers| - 1
        ensures observers[1..][k] != o
      {
        assert observers[k + 1] != observers[0];
      }
    } else {
      var tail := observers[1..];
      assert o in tail;
      RemoveFirstKeepsNoDuplicates(tail, o);
      assert observers[0] !in tail by {
        forall k | 0 <= k < |tail|
          ensures tail[k] != observers[0]
        {
          assert observers[k + 1] != observers[0];
        }
      }
    }
  }

  /** `list.remove` deletes the first occurrence: the observers before it, none of which is `o`,
      and the observers after it stay, in their order. */
  lemma {:induction false} RemoveFirstDropsFirstOccurrence(observers: seq<ConcreteObserver>, o: ConcreteObserver)
    requires o in observers
    ensures exists i :: DropsFirstAt(observers, o, i, RemoveFirst(observers, o))
  {
    if observers[0] == o {
      DropsFirstAtHead(observers, o);
      assert RemoveFirst(observers, o) == observers[1..];
    } else {
      var tail := observers[1..];
      assert o in tail;
      RemoveFirstDropsFirstOccurrence(tail, o);
      var j :| DropsFirstAt(tail, o, j, RemoveFirst(tail, o));
      DropsFirstAtCons(observers[0], tail, o, j, RemoveFirst(tail, o));
      assert [observers[0]] + tail == observers;
      assert DropsFirstAt(observers, o, j + 1, RemoveFirst(observers, o));
    }
  }

  class ConcreteSubject {
    const registry: Registry
    var state: int

    constructor (registry: Registry)
      ensures this.registry == registry && state == 0
    {
      this.registry := registry;
      state := 0;
    }

    /** `attach`: an observer already listed is left alone. A new one is appended and, since
        the state is never `None`, updated at once with the subject's state. Attaching keeps the
        list free of duplicates. */
    method Attach(o: ConcreteObserver) returns (out: seq<string>)
      modifies registry, o
      ensures NoDuplicates(old(registry.observers)) ==> NoDuplicates(registry.observers)
      ensures o in old(registry.observers) ==>
                registry.observers == old(registry.observers) && o.subjectState == old(o.subjectState) && out == []
      ensures o !in old(registry.observers) ==>
                && registry.observers == old(registry.observers) + [o]
                && o.subjectState == state
                && out == [DisplayLine(o.name, state)]
    {
      out := [];
      if o !in registry.observers {
        registry.observers := registry.observers + [o];
        var line := o.Update(this);
        out := [line];
      }
    }

    /** `detach`: removes the first occurrence of the observer from the shared list; an
        observer that is not listed makes `list.remove` raise `ValueError`. */
    method Detach(o: ConcreteObserver) returns (r: Outcome)
      modifies registry
      ensures r == Pass <==> o in old(registry.observers)
      ensures r == Pass ==> registry.observers == RemoveFirst(old(registry.observers), o)
      ensures r == Pass ==> exists i :: DropsFirstAt(old(registry.observers), o, i, registry.observers)
      ensures r == Pass && NoDuplicates(old(registry.observers)) ==>
                o !in registry.observers && NoDuplicates(registry.observers)
      ensures r != Pass ==> r == Fail(ValueError) && registry.observers == old(registry.observers)
    {
      if o !in registry.observers {
        return Fail(ValueError);
      }
      if NoDuplicates(registry.observers) {
        RemoveFirstKeepsNoDuplicates(registry.observers, o);
      }
      RemoveFirstDropsFirstOccurrence(registry.observers, o);
      registry.observers := RemoveFirst(registry.observers, o);
      r := Pass;
    }

    /** `notify`: every listed observer, in list order, takes this subject's state and prints it. */
    method Notify() returns (out: seq<string>)
      modifies registry.observers
      ensures forall o :: o in registry.observers ==> o.subjectState == state
      ensures out == NotifyLines(registry.observers, state)
    {
      var observers := registry.observers;
      out := [];
      var i := 0;
      while i < |observers|
        invariant 0 <= i <= |observers|
        invariant registry.observers == observers
        invariant forall k :: 0 <= k < i ==> observers[k].subjectState == state
        invariant out == NotifyLines(observers[..i], state)
      {
        var o := observers[i];
        var line := o.Update(this);
        NotifyLinesAppend(observers[..i], o, state);
        assert observers[..i + 1] == observers[..i] + [o];
        out := out + [line];
        i := i + 1;
      }
      assert observers[..i] == observers;
    }

    /** `change_state`: records the new state and notifies every listed observer. */
    method ChangeState(newState: int) returns (out: seq<string>)
      modifies this, registry.observers
      ensures state == newState && registry.observers == old(registry.observers)
      ensures forall o :: o in registry.observers ==> o.subjectState == newState
      ensures out == NotifyLines(registry.observers, newState)
    {
      state := newState;
      out := Notify();
    }

    /** `get_state`. */
    method GetState() returns (s: int)
      ensures s == state
    {
      s := state;
    }
  }

  lemma {:induction false} NotifyLinesAppend(observers: seq<ConcreteObserver>, o: ConcreteObserver, state: int)
    ensures NotifyLines(observers + [o], state) == NotifyLines(observers, state) + [DisplayLine(o.name, state)]
  {
  }

  /** The detach test: with two observers attached, change to 30; detach the first and change
      to 40. The detached observer keeps 30. */
  method DetachScenario() returns (before1: int, before2: int, after1: int, after2: int)
    ensures before1 == 30 && before2 == 30
    ensures after1 == 30 && after2 == 40
  {
    var registry := new Registry();
    var subject := new ConcreteSubject(registry);
    var o1 := new ConcreteObserver("Observer 1");
    var o2 := new ConcreteObserver("Observer 2");
    var out := subject.Attach(o1);
    out := subject.Attach(o2);
    out := subject.ChangeState(30);
    before1, before2 := o1.subjectState, o2.subjectState;
    var r := subject.Detach(o1);
    out := subject.ChangeState(40);
    after1, after2 := o1.subjectState, o2.subjectState;
  }

  /** The re-attach test: detach the first observer, change to 50 (it keeps 0); re-attach it,
      which updates it to 50 at once; change to 60 and both hold 60. */
  method ReattachScenario() returns (detached1: int, detached2: int, reattached: int,
                                     final1: int, final2: int)
    ensures detached1 == 0 && detached2 == 50
    ensures reattached == 50
    ensures final1 == 60 && final2 == 60
  {
    var registry := new Registry();
    var subject := new ConcreteSubject(registry);
    var o1 := new ConcreteObserver("Observer 1");
    var o2 := new ConcreteObserver("Observer 2");
    var out := subject.Attach(o1);
    out := subject.Attach(o2);
    assert registry.observers == [o1, o2];
    var r := subject.Detach(o1);
    assert registry.observers == [o2];
    out := subject.ChangeState(50);
    detached1, detached2 := o1.subjectState, o2.subjectState;
    out := subject.Attach(o1);
    reattached := o1.subjectState;
    out := subject.ChangeState(60);
    final1, final2 := o1.subjectState, o2.subjectState;
  }

  /** Detaching an observer that is not attached raises `ValueError`. */
  method DetachAbsentScenario() returns (r: Outcome)
    ensures r == Fail(ValueError)
  {
    var registry := new Registry();
    var subject := new ConcreteSubject(registry);
    var o := new ConcreteObserver("Observer 1");
    r := subject.Detach(o);
  }

  /** Because the list is class-level, an observer attached through one subject is updated by
      another subject's `change_state`, and takes that subject's state. */
  method SharedListScenario() returns (seen: int, firstState: int)
    ensures seen == 7 && firstState == 0
  {
    var registry := new Registry();
    var first := new ConcreteSubject(registry);
    var second := new ConcreteSubject(registry);
    var o := new ConcreteObserver("Observer 1");
    var out := first.Attach(o);
    out := second.ChangeState(7);
    seen := o.subjectState;
    firstState := first.GetState();
  }
}
