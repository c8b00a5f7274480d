/** The Flyweight example: a factory that hands out one shared `Character` per
    (character, font, colour) key. */
module Flyweight {

  /** A flyweight; its attributes are set once at construction. */
  class Character {
    const symbol: string
    const font: string
    const color: string

    constructor (symbol: string, font: string, color: string)
      ensures this.symbol == symbol && this.font == font && this.color == color
    {
      this.symbol, this.font, this.color := symbol, font, color;
    }

    /** The line `display` prints. */
    function Display(): (line: string)
    {
      "Character: " + symbol + ", Font: " + font + ", Color: " + color
    }
  }

  type Key = (string, string, string)

  /** The key a character is filed under. */
  function KeyOf(c: Character): Key
  {
    (c.symbol, c.font, c.color)
  }

  /** `CharacterFactory`: the cache of shared characters. */
  class CharacterFactory {
    var characters: map<Key, Character>

    /** Every cached character carries the attributes of its key. */
    ghost predicate Valid()
      reads this
    {
      forall k :: k in characters ==> KeyOf(characters[k]) == k
    }

    constructor ()
      ensures Valid() && characters == map[]
    {
      characters := map[];
    }

    /** `get_character`: a cached character is returned as it is and the cache is unchanged; on
        a miss exactly one new entry, holding a new character, is added. Either way the result
        has the requested attributes and is the cache's entry for that key. */
    method GetCharacter(symbol: string, font: string, color: string) returns (c: Character)
      requires Valid()
      modifies this
      ensures Valid()
      ensures (symbol, font, color) in characters && characters[(symbol, font, color)] == c
      ensures c.symbol == symbol && c.font == font && c.color == color
      ensures (symbol, font, color) in old(characters) ==> characters == old(characters)
      ensures (symbol, font, color) !in old(characters) ==>
                fresh(c) && characters == old(characters)[(symbol, font, color) := c]
    {
      var key := (symbol, font, color);
      if key !in characters {
        var created := new Character(symbol, font, color);
        characters := characters[key := created];
      }
      c := characters[key];
    }
  }

  /** Characters filed under different keys are different objects, in any valid cache. */
  lemma DistinctKeysDistinctCharacters(f: CharacterFactory, k1: Key, k2: Key)
    requires f.Valid() && k1 in f.characters && k2 in f.characters && k1 != k2
    ensures f.characters[k1] != f.characters[k2]
  {
  }

  /** The display test: "A" in Arial, red. */
  method DisplayScenario() returns (line: string)
    ensures line == "Character: A, Font: Arial, Color: Red"
  {
    var factory := new CharacterFactory();
    var c := factory.GetCharacter("A", "Arial", "Red");
    line := c.Display();
  }

  /** The sharing test: the same key twice gives the same object, another key a different one. */
  method SharingScenario() returns (sameShared: bool, otherShared: bool, cached: nat)
    ensures sameShared && !otherShared
    ensures cached == 2
  {
    var factory := new CharacterFactory();
    var c1 := factory.GetCharacter("A", "Arial", "Red");
    var c2 := factory.GetCharacter("A", "Arial", "Red");
    var c3 := factory.GetCharacter("B", "Arial", "Red");
    sameShared, otherShared := c1 == c2, c1 == c3;
    cached := |factory.characters|;
  }
}
