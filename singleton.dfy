/** The `__new__` Singleton: the class remembers its one instance in a class attribute, and a
    class-level `config` dictionary is shared by every reference to it. */
module ClassSingleton {

  /** A mutable dictionary object, as Python's `dict` is. */
  class Dict {
    var entries: map<string, string>

    constructor (entries: map<string, string>)
      ensures this.entries == entries
    {
      this.entries := entries;
    }

    /** `d[key] = value`. */
    method Set(key: string, value: string)
      modifies this
      ensures entries == old(entries)[key := value]
    {
      entries := entries[key := value];
    }
  }

  /** An instance of `Singleton`; it has no attributes of its own. */
  class Singleton {
    constructor ()
    {
    }
  }

  /** The class object `Singleton`: its `_instance` attribute and its `config` dictionary. */
  class SingletonClass {
    var instance: Singleton?
    const config: Dict

    /** At class definition there is no instance, and `config` is {"db": "test"}. */
    constructor ()
      ensures instance == null && fresh(config) && config.entries == map["db" := "test"]
    {
      instance := null;
      config := new Dict(map["db" := "test"]);
    }

    /** `Singleton()` (`__new__`): the first call creates and stores the instance; every later
        call returns the stored one. */
    method New() returns (s: Singleton)
      modifies this
      ensures old(instance) == null ==> fresh(s)
      ensures old(instance) != null ==> s == old(instance)
      ensures instance == s
    {
      if instance == null {
        instance := new Singleton();
      }
      s := instance;
    }

    /** `get_instance`: the same object the constructor returns. */
    method GetInstance() returns (s: Singleton)
      modifies this
      ensures old(instance) == null ==> fresh(s)
      ensures old(instance) != null ==> s == old(instance)
      ensures instance == s
    {
      s := New();
    }
  }

  /** The creation and type tests: constructor calls and `get_instance` all give one object. */
  method IdentityScenario() returns (same: bool, sameViaGetInstance: bool)
    ensures same && sameViaGetInstance
  {
    var cls := new SingletonClass();
    var i1 := cls.New();
    var i2 := cls.New();
    var i3 := cls.GetInstance();
    var i4 := cls.GetInstance();
    same, sameViaGetInstance := i1 == i2, i3 == i4 && i3 == i1;
  }

  /** The config test: `config` starts as {"db": "test"}; setting "db" through one instance is
      seen through a later one, since both reach the same class-level dictionary. */
  method ConfigScenario() returns (initial: map<string, string>, seen: string)
    ensures initial == map["db" := "test"] && seen == "production"
  {
    var cls := new SingletonClass();
    var instance := cls.New();
    initial := cls.config.entries;
    cls.config.Set("db", "production");
    var newInstance := cls.New();
    seen := cls.config.entries["db"];
  }
}
