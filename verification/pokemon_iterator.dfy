/** The iterator pattern's Pokémon collection: a list with bounds-checked
    indexed access and an iterator holding a position into the live
    collection. */
module PokemonIterator {
  import opened Wrappers

  datatype Pokemon = Pokemon(name: string, pokemonType: string)

  type Collection = seq<Pokemon>

  /** `addPokemon`: appends at the end. */
  function AddPokemon(c: Collection, p: Pokemon): (r: Collection)
    ensures |r| == |c| + 1 && r[..|c|] == c && r[|c|] == p
  {
    c + [p]
  }

  /** `getPokemonAt`: the element when the index is in range, null otherwise. */
  function GetPokemonAt(c: Collection, index: int): (r: Option<Pokemon>)
    ensures r.Some? <==> 0 <= index < |c|
    ensures r.Some? ==> r.value == c[index]
  {
    if index >= 0 && index < |c| then Some(c[index]) else None
  }

  /** The iterator's state is its position; the collection it reads is the
      live one passed in, so elements added later are seen. A new iterator
      starts at 0. */
  const Start: int := 0

  /** `hasNext`: for a valid position, exactly when `getPokemonAt` would
      find an element there. */
  function HasNext(c: Collection, position: int): (b: bool)
    ensures b <==> position < |c|
    ensures 0 <= position ==> (b <==> GetPokemonAt(c, position).Some?)
  {
    position < |c|
  }

  /** `current`: the element at the position, without moving. */
  function Current(c: Collection, position: int): (r: Option<Pokemon>)
    ensures 0 <= position ==> (r.Some? <==> HasNext(c, position))
    ensures r.Some? ==> 0 <= position < |c| && r.value == c[position]
  {
    GetPokemonAt(c, position)
  }

  /** `next`: when there is a next element it is returned and the position
      advances past it; otherwise null is returned and the position stays. */
  function Next(c: Collection, position: int): (r: (int, Option<Pokemon>))
    requires 0 <= position
    ensures HasNext(c, position) ==> r == (position + 1, Some(c[position]))
    ensures !HasNext(c, position) ==> r == (position, None)
    ensures position <= |c| ==> 0 <= r.0 <= |c|
    ensures r.1 == Current(c, position)
  {
    if HasNext(c, position) then (position + 1, GetPokemonAt(c, position)) else (position, None)
  }

  /** The demo's `while (iterator.hasNext())` loop: collects what `next`
      returns. Every element is yielded exactly once, in insertion order. */
  method Drain(c: Collection) returns (yielded: seq<Pokemon>)
    ensures yielded == c
  {
    var position := Start;
    yielded := [];
    while HasNext(c, position)
      invariant 0 <= position <= |c|
      invariant yielded == c[..position]
      decreases |c| - position
    {
      var step := Next(c, position);
      position := step.0;
      if step.1.Some? {
        yielded := yielded + [step.1.value];
      }
    }
  }

  /** Once exhausted, the iterator yields again as soon as an element is
      added to the collection it reads. */
  lemma ExhaustedThenAdded(c: Collection, p: Pokemon)
    ensures !HasNext(c, |c|)
    ensures Next(AddPokemon(c, p), |c|) == (|c| + 1, Some(p))
  {
  }

  /** The demo collection. */
  const Pokedex: Collection :=
    [Pokemon("Pikachu", "Eléctrico"), Pokemon("Charmander", "Fuego"), Pokemon("Squirtle", "Agua"),
     Pokemon("Bulbasaur", "Planta"), Pokemon("Jigglypuff", "Normal")]

  /** The demo prints the five Pokémon in insertion order. */
  method DemoScenario() returns (yielded: seq<Pokemon>)
    ensures |yielded| == 5
    ensures yielded[0].name == "Pikachu" && yielded[4].name == "Jigglypuff"
  {
    yielded := Drain(Pokedex);
  }
}
