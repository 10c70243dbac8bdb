/** The prototype pattern's Pokémon: `clone` copies the scalar fields and
    copies the attacks array into a fresh one, so nothing is shared. Object
    identity matters here, so the Pokémon and its attack list are classes. */
module PokemonPrototype {

  /** The mutable `attacks: string[]` array. */
  class AttackList {
    var items: seq<string>

    constructor(items: seq<string>)
      ensures this.items == items
    {
      this.items := items;
    }

    /** `attacks.push`. */
    method Push(attack: string)
      modifies this
      ensures items == old(items) + [attack]
    {
      items := items + [attack];
    }
  }

  /** A read-only view of a Pokémon and its attacks at one moment. */
  datatype Info = Info(name: string, pokemonType: string, level: int, attacks: seq<string>)

  class Pokemon {
    var name: string
    var pokemonType: string
    var level: int
    var attacks: AttackList

    /** The constructor stores the array it is given, not a copy. */
    constructor(name: string, pokemonType: string, level: int, attacks: AttackList)
      ensures this.name == name && this.pokemonType == pokemonType && this.level == level
      ensures this.attacks == attacks
    {
      this.name := name;
      this.pokemonType := pokemonType;
      this.level := level;
      this.attacks := attacks;
    }

    function Snapshot(): (i: Info)
      reads this, attacks
      ensures i.name == name && i.level == level && i.attacks == attacks.items
    {
      Info(name, pokemonType, level, attacks.items)
    }

    /** `clone`: a new Pokémon with equal fields and its own copy of the
        attacks array (`[...this.attacks]`). */
    method Clone() returns (c: Pokemon)
      ensures fresh(c) && fresh(c.attacks)
      ensures c.name == name && c.pokemonType == pokemonType && c.level == level
      ensures c.attacks.items == attacks.items
    {
      var copy := new AttackList(attacks.items);
      c := new Pokemon(name, pokemonType, level, copy);
    }
  }

  /** Clone, then rename, relevel and teach the clone one more attack: the
      clone shows the changes and the original is exactly as it was. */
  method CloneThenModify(p: Pokemon, newName: string, newLevel: int, extraAttack: string)
    returns (original: Info, before: Info, copy: Info)
    ensures original == before && original == p.Snapshot()
    ensures copy == Info(newName, before.pokemonType, newLevel, before.attacks + [extraAttack])
  {
    before := p.Snapshot();
    var c := p.Clone();
    c.name := newName;
    c.level := newLevel;
    c.attacks.Push(extraAttack);
    original := p.Snapshot();
    copy := c.Snapshot();
  }

  /** The demo: Charmander is cloned into Charmeleon at level 16 with
      'Lanzallamas' added, and Charmander keeps its two attacks. */
  method DemoScenario() returns (base: Info, evolved: Info)
    ensures base == Info("Charmander", "Fuego", 1, ["Llamarada", "Arañazo"])
    ensures evolved == Info("Charmeleon", "Fuego", 16, ["Llamarada", "Arañazo", "Lanzallamas"])
  {
    var attacks := new AttackList(["Llamarada", "Arañazo"]);
    var charmander := new Pokemon("Charmander", "Fuego", 1, attacks);
    var before;
    base, before, evolved := CloneThenModify(charmander, "Charmeleon", 16, "Lanzallamas");
  }
}
