/**
 * A row of the `heroes` table of the battle arena and the three stat updates
 * that `create_battle` applies to it once a battle is resolved
 * (desafio3/web/app.py).
 */
module Heroes {
  /** Hero identifiers: the table's integer primary key. */
  type HeroId = int

  datatype Hero = Hero(
    id: HeroId,
    name: string,
    heroClass: string,
    level: int,
    attack: int,
    defense: int,
    health: int,          // maximum HP; the starting HP of every simulation
    wins: int,
    losses: int,
    draws: int,
    damageDealt: int,     // total_damage_dealt
    damageReceived: int   // total_damage_received
  )

  /** How one battle ended for one participant. */
  datatype Standing = Won | Lost | Tied

  /** Battles a hero has taken part in, according to its counters. */
  function Played(h: Hero): int {
    h.wins + h.losses + h.draws
  }

  /**
   * The UPDATE statement issued for one participant: a win or a loss bumps its
   * counter and accumulates the damage dealt and received; a draw bumps `draws`
   * and records no damage.
   */
  function Settle(h: Hero, s: Standing, dealt: int, received: int): (r: Hero)
    ensures Played(r) == Played(h) + 1
    ensures r.wins == h.wins + (if s == Won then 1 else 0)
    ensures r.losses == h.losses + (if s == Lost then 1 else 0)
    ensures r.draws == h.draws + (if s == Tied then 1 else 0)
    ensures s == Tied ==> r.damageDealt == h.damageDealt && r.damageReceived == h.damageReceived
    ensures s != Tied ==> r.damageDealt == h.damageDealt + dealt && r.damageReceived == h.damageReceived + received
    // nothing but the counters and the damage totals changes
    ensures r.(wins := h.wins, losses := h.losses, draws := h.draws,
               damageDealt := h.damageDealt, damageReceived := h.damageReceived) == h
  {
    match s
    case Won =>
      h.(wins := h.wins + 1, damageDealt := h.damageDealt + dealt, damageReceived := h.damageReceived + received)
    case Lost =>
      h.(losses := h.losses + 1, damageDealt := h.damageDealt + dealt, damageReceived := h.damageReceived + received)
    case Tied =>
      h.(draws := h.draws + 1)
  }
}
