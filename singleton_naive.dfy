/** The metaclass Singleton: the metaclass keeps one instance per class in a class-level
    dictionary, builds it on the first call, and can forget every instance with `reset`. */
module SingletonRegistry {

  /** The classes whose metaclass is `Singleton`. */
  datatype SingletonClass = SingletonNaive | SingletonNaive2

  /** An instance of one of those classes; `__init__` sets its name. */
  class Instance {
    const cls: SingletonClass
    var name: string

    constructor (cls: SingletonClass, name: string)
      ensures this.cls == cls && this.name == name
    {
      this.cls := cls;
      this.name := name;
    }
  }

  /** The metaclass's `__instances` dictionary. */
  class Registry {
    var instances: map<SingletonClass, Instance>

    /** Each class's recorded instance is an instance of that class, so different classes never
        share an instance. */
    ghost predicate Valid()
      reads this
    {
      forall c :: c in instances ==> instances[c].cls == c
    }

    constructor ()
      ensures Valid() && instances == map[]
    {
      instances := map[];
    }

    /** `__call__`: the first call for a class constructs an instance from the arguments and
        records it; every later call returns the recorded instance and ignores the arguments. */
    method Call(cls: SingletonClass, name: string) returns (inst: Instance)
      requires Valid()
      modifies this
      ensures Valid()
      ensures cls in instances && instances[cls] == inst && inst.cls == cls
      ensures cls in old(instances) ==> instances == old(instances) && inst == old(instances[cls])
      ensures cls !in old(instances) ==>
                fresh(inst) && inst.name == name && instances == old(instances)[cls := inst]
    {
      if cls !in instances {
        var created := new Instance(cls, name);
        instances := instances[cls := created];
      }
      inst := instances[cls];
    }

    /** `reset`: forgets every instance. */
    method Reset()
      modifies this
      ensures Valid() && instances == map[]
    {
      instances := map[];
    }
  }

  /** Instances recorded for different classes are different objects. */
  lemma DistinctClassesDistinctInstances(r: Registry, a: SingletonClass, b: SingletonClass)
    requires r.Valid() && a in r.instances && b in r.instances && a != b
    ensures r.instances[a] != r.instances[b]
  {
  }

  /** The creation and naming tests: two calls per class give one instance per class, named by
      the first call; the two classes' instances differ. */
  method NamingScenario() returns (same1: bool, same2: bool, shared: bool,
                                   name1: string, name2: string, name3: string, name4: string)
    ensures same1 && same2 && !shared
    ensures name1 == "First 1" && name2 == "First 1" && name3 == "First 2" && name4 == "First 2"
  {
    var registry := new Registry();
    var i1 := registry.Call(SingletonNaive, "First 1");
    var i2 := registry.Call(SingletonNaive, "Second 1");
    var i3 := registry.Call(SingletonNaive2, "First 2");
    var i4 := registry.Call(SingletonNaive2, "Second 2");
    same1, same2, shared := i1 == i2, i3 == i4, i1 == i3;
    name1, name2, name3, name4 := i1.name, i2.name, i3.name, i4.name;
  }

  /** The reset test: after `reset` the next call builds a new instance from its own argument. */
  method ResetScenario() returns (same: bool, name: string)
    ensures !same && name == "First 2"
  {
    var registry := new Registry();
    var i1 := registry.Call(SingletonNaive, "First 1");
    registry.Reset();
    var i2 := registry.Call(SingletonNaive, "First 2");
    same, name := i1 == i2, i2.name;
  }
}
