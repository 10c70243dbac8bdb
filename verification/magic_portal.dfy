/** The proxy pattern's magic portal: it lets a player into the secret room
    only from level 10 upwards. */
module MagicPortal {

  datatype Player = Player(name: string, level: int)

  /** What an attempt to enter produces: the secret room's welcome, or the
      portal's refusal naming the player's level. */
  datatype Entry = Welcomed(name: string) | Refused(name: string, level: int)

  /** The level the portal requires. */
  const RequiredLevel: int := 10

  /** `SecretRoom.enter`, the real subject. */
  function SecretRoomEnter(p: Player): (e: Entry)
    ensures e.Welcomed? && e.name == p.name
  {
    Welcomed(p.name)
  }

  /** `MagicPortal.enter`: forwards to the secret room iff the level is at
      least 10; otherwise the room is never reached. */
  function Enter(p: Player): (e: Entry)
    ensures e.Welcomed? <==> p.level >= RequiredLevel
    ensures e.Welcomed? ==> e == SecretRoomEnter(p)
    ensures e.Refused? ==> e.name == p.name && e.level == p.level
  {
    if p.level >= 10 then SecretRoomEnter(p) else Refused(p.name, p.level)
  }

  /** Admission is monotone in the level: a player at least as strong as an
      admitted one is admitted too. */
  lemma AdmissionMonotone(p: Player, q: Player)
    requires Enter(p).Welcomed? && q.level >= p.level
    ensures Enter(q).Welcomed?
  {
  }

  /** The demo: level 5 is refused and level 15 admitted. */
  lemma DemoScenario()
    ensures Enter(Player("Aventurero A", 5)) == Refused("Aventurero A", 5)
    ensures Enter(Player("Aventurero B", 15)) == Welcomed("Aventurero B")
  {
  }
}
