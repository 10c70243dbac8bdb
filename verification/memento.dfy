/** The memento pattern's game: progress (level, health, position) saved
    into mementos kept on a LIFO history and restored later. */
module Memento {
  import opened Wrappers

  datatype Game = Game(level: int, health: int, position: string)

  /** A `GameMemento`: a read-only copy of the three fields. */
  datatype GameMemento = GameMemento(level: int, health: int, position: string)

  /** A new game: level 1, health 100, at 'inicio'. */
  const NewGame: Game := Game(1, 100, "inicio")

  /** `restore`: all three fields come from the memento. */
  function Restore(g: Game, m: GameMemento): (r: Game)
    ensures r.level == m.level && r.health == m.health && r.position == m.position
  {
    Game(m.level, m.health, m.position)
  }

  /** `save`: a memento from which any later game state is restored to this one. */
  function Save(g: Game): (m: GameMemento)
    ensures forall later :: Restore(later, m) == g
  {
    GameMemento(g.level, g.health, g.position)
  }

  /** `play`: all three fields are overwritten by the arguments. */
  function Play(g: Game, level: int, health: int, position: string): (r: Game)
    ensures r.level == level && r.health == health && r.position == position
  {
    Game(level, health, position)
  }

  /** Save, play, restore: the game is back to its state at save time. */
  lemma SavePlayRestore(g: Game, level: int, health: int, position: string)
    ensures Restore(Play(g, level, health, position), Save(g)) == g
  {
  }

  /** `GameHistory`: a stack of mementos, top at the end. */
  type GameHistory = seq<GameMemento>

  const NewHistory: GameHistory := []

  function Push(st: GameHistory, m: GameMemento): (r: GameHistory)
    ensures |r| == |st| + 1 && r[|st|] == m && r[..|st|] == st
  {
    st + [m]
  }

  /** `pop`: the top memento and the stack below it, or null on an empty
      stack, which stays empty. */
  function Pop(st: GameHistory): (r: (GameHistory, Option<GameMemento>))
    ensures |st| == 0 ==> r == ([], None)
    ensures |st| > 0 ==> r.1 == Some(st[|st| - 1]) && r.0 + [r.1.value] == st
  {
    if |st| == 0 then ([], None)
    else
      var n := |st| - 1;
      assert st[..n] + [st[n]] == st;
      (st[..n], Some(st[n]))
  }

  /** Last in, first out: a push followed by a pop gives back the pushed
      memento and the previous stack. */
  lemma PushPop(st: GameHistory, m: GameMemento)
    ensures Pop(Push(st, m)) == (st, Some(m))
  {
    assert (st + [m])[..|st|] == st;
  }

  /** The demo: save at the start, play to level 2 and save, play to level 3
      and save, play to level 4; two pops restore (3, 70, 'Cueva Oscura')
      and then (2, 90, 'Bosque Encantado'). */
  lemma {:induction false} DemoScenario()
    ensures
      var g0 := NewGame;
      var h1 := Push(NewHistory, Save(g0));
      var g1 := Play(g0, 2, 90, "Bosque Encantado");
      var h2 := Push(h1, Save(g1));
      var g2 := Play(g1, 3, 70, "Cueva Oscura");
      var h3 := Push(h2, Save(g2));
      var g3 := Play(g2, 4, 50, "Castillo del Dragón");
      var p1 := Pop(h3);
      var g4 := Restore(g3, p1.1.value);
      var p2 := Pop(p1.0);
      var g5 := Restore(g4, p2.1.value);
      && g4 == Game(3, 70, "Cueva Oscura")
      && g5 == Game(2, 90, "Bosque Encantado")
      && p2.0 == [Save(NewGame)]
  {
    var h1 := Push(NewHistory, Save(NewGame));
    var g1 := Play(NewGame, 2, 90, "Bosque Encantado");
    var h2 := Push(h1, Save(g1));
    var g2 := Play(g1, 3, 70, "Cueva Oscura");
    PushPop(h2, Save(g2));
    PushPop(h1, Save(g1));
  }
}
