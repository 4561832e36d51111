/**
 * The battle arena service of desafio3/web/app.py: the `heroes` and `battles`
 * tables, the cache holding `ranking:current` and `stats:total_battles`, and
 * the two endpoints that touch them, `create_battle` and `get_ranking`.
 *
 * Time is a logical clock (`now`, in seconds) that only `Tick` advances; a
 * cache entry with an expiry time is live strictly before that time. The
 * store and cache calls each endpoint makes are recorded, in order, in the
 * ghost `trace`, so that their ordering can be stated.
 */
module Arena {
  import opened Wrappers
  import opened Heroes
  import opened BattleEngine

  const RankingKey: string := "ranking:current"
  const BattleCounterKey: string := "stats:total_battles"
  /** Seconds a cached ranking stays live (`setex` with 60). */
  const RankingTtl: nat := 60
  /** Rows the ranking query returns at most (`LIMIT 10`). */
  const RankingLimit: nat := 10

  /** A row of the `hero_stats` view. */
  datatype RankingRow = RankingRow(
    name: string, heroClass: string, level: int,
    wins: int, losses: int, draws: int,
    winRate: real, rankingPoints: int)

  /** What a cache key holds: a ranking snapshot with its population time, or an integer counter. */
  datatype CacheValue = Snapshot(cachedAt: int, rows: seq<RankingRow>) | Count(n: int)

  /** A cache value and the time it expires at, if it has a TTL. */
  datatype CacheEntry = CacheEntry(value: CacheValue, expiresAt: Option<int>)

  /** The `source` tag of a ranking response. */
  datatype Source = FromCache | FromDatabase

  datatype RankingResponse = RankingResponse(source: Source, cachedAt: Option<int>, rows: seq<RankingRow>)

  /** The body of a battle request: either id may be missing. */
  datatype BattleRequest = BattleRequest(hero1: Option<HeroId>, hero2: Option<HeroId>)

  datatype BadRequestReason = MissingIds | SelfBattle

  /** The three outcome kinds of `create_battle`: 400, 404 and 201. */
  datatype BattleResponse =
    | BadRequest(reason: BadRequestReason)
    | HeroNotFound
    | Created(battleId: int, result: BattleResult)

  /** A row of the `battles` table; `winner == None` is a draw. */
  datatype BattleRecord = BattleRecord(
    id: int, hero1: HeroId, hero2: HeroId, winner: Option<HeroId>,
    damage1: nat, damage2: nat, rounds: nat, log: seq<Event>)

  /** One store or cache call. */
  datatype Effect =
    | ReadHero(hero: HeroId)
    | InsertBattle(battle: int)
    | UpdateHero(updated: HeroId)
    | UpdateDraws(first: HeroId, second: HeroId)
    | Commit
    | QueryRanking
    | CacheGet(getKey: string)
    | CacheSetEx(setKey: string, ttl: nat)
    | CacheDelete(deletedKey: string)
    | CacheIncr(counterKey: string)

  /** The first `n` rows, as SQL's `LIMIT n` returns them. */
  function Limit(rows: seq<RankingRow>, n: nat): (r: seq<RankingRow>)
    ensures |r| <= n && r <= rows
    ensures |rows| >= n ==> |r| == n
    ensures |rows| <= n ==> r == rows
  {
    if |rows| <= n then rows else rows[..n]
  }

  /** How a battle ended for hero1 and hero2, dispatched on the winner as `create_battle` does. */
  function Standings(winner: Option<HeroId>, id1: HeroId, id2: HeroId): (Standing, Standing) {
    if winner == Some(id1) then (Won, Lost)
    else if winner == Some(id2) then (Lost, Won)
    else (Tied, Tied)
  }

  /** The stat UPDATE statements issued for a resolved battle, in order. */
  function StatWrites(winner: Option<HeroId>, id1: HeroId, id2: HeroId): seq<Effect> {
    if winner == Some(id1) || winner == Some(id2) then [UpdateHero(id1), UpdateHero(id2)]
    else [UpdateDraws(id1, id2)]
  }

  predicate Involves(b: BattleRecord, id: HeroId) {
    b.hero1 == id || b.hero2 == id
  }

  /** The number of battle records in which `id` took part. */
  function Participations(bs: seq<BattleRecord>, id: HeroId): nat {
    if bs == [] then 0
    else (if Involves(bs[0], id) then 1 else 0) + Participations(bs[1..], id)
  }

  /** Appending one record counts one more participation for each of its two heroes and none for others. */
  lemma {:induction false} ParticipationsAppend(bs: seq<BattleRecord>, b: BattleRecord, id: HeroId)
    ensures Participations(bs + [b], id) == Participations(bs, id) + (if Involves(b, id) then 1 else 0)
  {
    if bs == [] {
      assert [] + [b] == [b];
      assert [b][1..] == [];
    } else {
      assert (bs + [b])[1..] == bs[1..] + [b];
      ParticipationsAppend(bs[1..], b, id);
    }
  }

  /**
   * The standings of a simulated battle follow the final HP: hero1 is
   * settled as winner exactly when it ended with more HP, as loser exactly
   * when it ended with less, and both tie exactly when the HP are equal.
   */
  lemma StandingsFollowHp(a: Hero, b: Hero, draws: seq<int>)
    requires a.id != b.id && |draws| >= 2 * MaxRounds
    ensures var s := Standings(Outcome(a, b, draws).winner, a.id, b.id);
      var f := FinalFight(a, b, draws);
      (s == (Won, Lost) <==> f.hp1 > f.hp2) &&
      (s == (Lost, Won) <==> f.hp2 > f.hp1) &&
      (s == (Tied, Tied) <==> f.hp1 == f.hp2)
  {
  }

  /** Each hero row is stored under its own id. */
  ghost predicate HeroesKeyed(heroes: map<HeroId, Hero>) {
    forall id :: id in heroes ==> heroes[id].id == id
  }

  /** The ranking key holds a snapshot with a TTL; the counter key holds a count. */
  ghost predicate CacheTyped(cache: map<string, CacheEntry>) {
    (RankingKey in cache ==> cache[RankingKey].value.Snapshot? && cache[RankingKey].expiresAt.Some?) &&
    (BattleCounterKey in cache ==> cache[BattleCounterKey].value.Count?)
  }

  /** The `battles` row inserted for a simulated battle. */
  function RecordOf(id: int, hero1: HeroId, hero2: HeroId, r: BattleResult): BattleRecord {
    BattleRecord(id, hero1, hero2, r.winner, r.damage1, r.damage2, r.rounds, r.log)
  }

  /** Every battle record names two distinct existing heroes and a winner among them; ids increase below `nextId`. */
  ghost predicate RecordsWellFormed(heroes: map<HeroId, Hero>, battles: seq<BattleRecord>, nextId: int) {
    (forall i :: 0 <= i < |battles| ==>
      battles[i].hero1 != battles[i].hero2 &&
      battles[i].hero1 in heroes && battles[i].hero2 in heroes &&
      (battles[i].winner == None || battles[i].winner == Some(battles[i].hero1) ||
       battles[i].winner == Some(battles[i].hero2)) &&
      battles[i].id < nextId) &&
    (forall i, j :: 0 <= i < j < |battles| ==> battles[i].id < battles[j].id)
  }

  /** Every hero's wins + losses + draws equals the number of battles it took part in. */
  ghost predicate TalliedTable(heroes: map<HeroId, Hero>, battles: seq<BattleRecord>) {
    forall id :: id in heroes ==> Played(heroes[id]) == Participations(battles, id)
  }

  /** The table after settling both participants of battle `b`. */
  function SettledTable(heroes: map<HeroId, Hero>, b: BattleRecord): map<HeroId, Hero>
    requires b.hero1 in heroes && b.hero2 in heroes
  {
    var s := Standings(b.winner, b.hero1, b.hero2);
    heroes[b.hero1 := Settle(heroes[b.hero1], s.0, b.damage1, b.damage2)]
          [b.hero2 := Settle(heroes[b.hero2], s.1, b.damage2, b.damage1)]
  }

  /** Appending a battle between two distinct heroes and settling both keeps the tally. */
  lemma TallyKept(heroes: map<HeroId, Hero>, battles: seq<BattleRecord>, b: BattleRecord)
    requires b.hero1 != b.hero2 && b.hero1 in heroes && b.hero2 in heroes
    requires TalliedTable(heroes, battles)
    ensures TalliedTable(SettledTable(heroes, b), battles + [b])
  {
    var settled := SettledTable(heroes, b);
    forall id | id in settled
      ensures Played(settled[id]) == Participations(battles + [b], id)
    {
      ParticipationsAppend(battles, b, id);
    }
  }

  /** Appending a well-formed record with the next id, and advancing the id, keeps the records well formed. */
  lemma RecordsKept(heroes: map<HeroId, Hero>, settled: map<HeroId, Hero>, battles: seq<BattleRecord>, nextId: int, b: BattleRecord)
    requires RecordsWellFormed(heroes, battles, nextId)
    requires settled.Keys == heroes.Keys
    requires b.id == nextId && b.hero1 != b.hero2 && b.hero1 in heroes && b.hero2 in heroes
    requires b.winner == None || b.winner == Some(b.hero1) || b.winner == Some(b.hero2)
    ensures RecordsWellFormed(settled, battles + [b], nextId + 1)
  {
  }

  /**
   * The stat updates of `create_battle`: when hero1 won, hero1 is settled as
   * winner and hero2 as loser; when hero2 won, the other way round; otherwise
   * one statement records a draw for both.
   */
  method SettleParticipants(table: map<HeroId, Hero>, hero1Id: HeroId, hero2Id: HeroId, result: BattleResult)
    returns (updated: map<HeroId, Hero>, writes: seq<Effect>)
    requires hero1Id != hero2Id && hero1Id in table && hero2Id in table
    ensures var s := Standings(result.winner, hero1Id, hero2Id);
      updated == table[hero1Id := Settle(table[hero1Id], s.0, result.damage1, result.damage2)]
                      [hero2Id := Settle(table[hero2Id], s.1, result.damage2, result.damage1)]
    ensures writes == StatWrites(result.winner, hero1Id, hero2Id)
  {
    updated := table;
    if result.winner == Some(hero1Id) {
      updated := updated[hero1Id := Settle(updated[hero1Id], Won, result.damage1, result.damage2)];
      updated := updated[hero2Id := Settle(updated[hero2Id], Lost, result.damage2, result.damage1)];
      writes := [UpdateHero(hero1Id), UpdateHero(hero2Id)];
    } else if result.winner == Some(hero2Id) {
      updated := updated[hero1Id := Settle(updated[hero1Id], Lost, result.damage1, result.damage2)];
      updated := updated[hero2Id := Settle(updated[hero2Id], Won, result.damage2, result.damage1)];
      writes := [UpdateHero(hero1Id), UpdateHero(hero2Id)];
    } else {
      updated := updated[hero1Id := Settle(updated[hero1Id], Tied, result.damage1, result.damage2)]
                        [hero2Id := Settle(updated[hero2Id], Tied, result.damage2, result.damage1)];
      writes := [UpdateDraws(hero1Id, hero2Id)];
    }
  }

  class Arena {
    /** The `hero_stats` view: ranking rows ordered by ranking points, computed from the hero table. */
    const rankingView: map<HeroId, Hero> -> seq<RankingRow>

    var heroes: map<HeroId, Hero>
    var battles: seq<BattleRecord>
    /** The next value of the `battles.id` sequence. */
    var nextBattleId: int
    var cache: map<string, CacheEntry>
    var now: int
    ghost var trace: seq<Effect>

    /** The ranking query: the top rows of the view over the current hero table. */
    function TopRanking(): (rows: seq<RankingRow>)
      reads this
      ensures |rows| <= RankingLimit
    {
      Limit(rankingView(heroes), RankingLimit)
    }

    /** A key is live when present and not yet expired; an expired key reads as absent. */
    predicate Live(key: string)
      reads this
    {
      key in cache && (cache[key].expiresAt.None? || now < cache[key].expiresAt.value)
    }

    /** The value of the battle counter as `incr` sees it: 0 when absent. */
    function BattleCount(): int
      reads this
    {
      if Live(BattleCounterKey) && cache[BattleCounterKey].value.Count? then cache[BattleCounterKey].value.n else 0
    }

    /** A live cached ranking is the ranking of the current hero table. */
    ghost predicate Coherent()
      reads this
    {
      Live(RankingKey) ==> cache[RankingKey].value.Snapshot? && cache[RankingKey].value.rows == TopRanking()
    }

    /**
     * The arena's invariant: heroes are keyed by their own id, the battle
     * records are well formed, each cache key holds the kind of value it is
     * used for, and the cache is coherent with the store.
     */
    ghost predicate Valid()
      reads this
    {
      HeroesKeyed(heroes) && RecordsWellFormed(heroes, battles, nextBattleId) && CacheTyped(cache) && Coherent()
    }

    /** Every hero's wins + losses + draws equals the number of battles it took part in. */
    ghost predicate Tallied()
      reads this
    {
      TalliedTable(heroes, battles)
    }

    constructor (view: map<HeroId, Hero> -> seq<RankingRow>, initial: map<HeroId, Hero>, clock: int)
      requires HeroesKeyed(initial)
      ensures Valid()
      ensures rankingView == view && heroes == initial && battles == [] && cache == map[] && now == clock
      ensures trace == []
      ensures (forall id :: id in initial ==> Played(initial[id]) == 0) ==> Tallied()
    {
      rankingView := view;
      heroes := initial;
      battles := [];
      nextBattleId := 1;
      cache := map[];
      now := clock;
      trace := [];
    }

    /** The clock advances; entries whose expiry time is reached stop being live. */
    method Tick(dt: nat)
      requires Valid()
      modifies this`now
      ensures Valid()
      ensures now == old(now) + dt
    {
      now := now + dt;
    }

    /**
     * `get_ranking`: a live cached ranking is returned tagged `cache` without
     * touching the store; otherwise the store's top ten is cached for 60
     * seconds and returned tagged `database`. Either way the rows are those of
     * the current hero table.
     */
    method GetRanking() returns (resp: RankingResponse)
      requires Valid()
      modifies this`cache, this`trace
      ensures Valid()
      ensures resp.rows == TopRanking()
      ensures Live(RankingKey)
      ensures old(Live(RankingKey)) ==>
        resp == RankingResponse(FromCache, Some(old(cache)[RankingKey].value.cachedAt), old(cache)[RankingKey].value.rows) &&
        cache == old(cache) &&
        trace == old(trace) + [CacheGet(RankingKey)]
      ensures !old(Live(RankingKey)) ==>
        resp == RankingResponse(FromDatabase, None, TopRanking()) &&
        cache == old(cache)[RankingKey := CacheEntry(Snapshot(now, TopRanking()), Some(now + RankingTtl))] &&
        trace == old(trace) + [CacheGet(RankingKey), QueryRanking, CacheSetEx(RankingKey, RankingTtl)]
    {
      trace := trace + [CacheGet(RankingKey)];
      if Live(RankingKey) {
        var cached := cache[RankingKey].value;
        resp := RankingResponse(FromCache, Some(cached.cachedAt), cached.rows);
        return;
      }

      trace := trace + [QueryRanking];
      var rankingData := Limit(rankingView(heroes), RankingLimit);

      cache := cache[RankingKey := CacheEntry(Snapshot(now, rankingData), Some(now + RankingTtl))];
      trace := trace + [CacheSetEx(RankingKey, RankingTtl)];

      resp := RankingResponse(FromDatabase, None, rankingData);
    }

    /**
     * The store transaction of `create_battle`: insert the battle record,
     * issue the stat updates, commit. The record takes the next id of the
     * sequence; the tally of every hero is kept.
     */
    method CommitBattle(hero1Id: HeroId, hero2Id: HeroId, result: BattleResult) returns (battleId: int)
      requires HeroesKeyed(heroes) && RecordsWellFormed(heroes, battles, nextBattleId)
      requires hero1Id != hero2Id && hero1Id in heroes && hero2Id in heroes
      requires result.winner == None || result.winner == Some(hero1Id) || result.winner == Some(hero2Id)
      modifies this`heroes, this`battles, this`nextBattleId, this`trace
      ensures battleId == old(nextBattleId) && nextBattleId == battleId + 1
      ensures battles == old(battles) + [RecordOf(battleId, hero1Id, hero2Id, result)]
      ensures heroes == SettledTable(old(heroes), RecordOf(battleId, hero1Id, hero2Id, result))
      ensures trace == old(trace) + [InsertBattle(battleId)] + StatWrites(result.winner, hero1Id, hero2Id) + [Commit]
      ensures heroes.Keys == old(heroes).Keys
      ensures HeroesKeyed(heroes) && RecordsWellFormed(heroes, battles, nextBattleId)
      ensures old(Tallied()) ==> Tallied()
    {
      battleId := nextBattleId;
      var record := RecordOf(battleId, hero1Id, hero2Id, result);
      trace := trace + [InsertBattle(battleId)];
      // the stat updates go to a working copy of the table until the commit
      var pending, writes := SettleParticipants(heroes, hero1Id, hero2Id, result);
      trace := trace + writes;
      assert pending == SettledTable(heroes, record);
      if Tallied() {
        TallyKept(heroes, battles, record);
      }
      RecordsKept(heroes, pending, battles, battleId, record);

      heroes, battles, nextBattleId := pending, battles + [record], battleId + 1;
      trace := trace + [Commit];
    }

    /** After the commit: delete the cached ranking, then increment the battle counter. */
    method InvalidateRanking()
      requires CacheTyped(cache)
      modifies this`cache, this`trace
      ensures CacheTyped(cache)
      ensures RankingKey !in cache
      ensures BattleCount() == old(BattleCount()) + 1
      ensures cache - {BattleCounterKey} == old(cache) - {RankingKey, BattleCounterKey}
      ensures trace == old(trace) + [CacheDelete(RankingKey), CacheIncr(BattleCounterKey)]
    {
      cache := cache - {RankingKey};
      trace := trace + [CacheDelete(RankingKey)];
      var counter := if Live(BattleCounterKey) then cache[BattleCounterKey] else CacheEntry(Count(0), None);
      cache := cache[BattleCounterKey := counter.(value := Count(counter.value.n + 1))];
      trace := trace + [CacheIncr(BattleCounterKey)];
    }

    /**
     * `create_battle`: a request missing an id, or naming one hero twice, is
     * rejected before any store access; a missing hero yields not-found after
     * the two reads and nothing is written. Otherwise the battle is simulated,
     * one record appended, each participant settled as winner, loser or tied,
     * the writes committed, and only then the cached ranking deleted and the
     * battle counter incremented.
     */
    method CreateBattle(req: BattleRequest, draws: seq<int>) returns (resp: BattleResponse)
      requires Valid() && ValidDraws(draws)
      modifies this`heroes, this`battles, this`nextBattleId, this`cache, this`trace
      ensures Valid()
      ensures old(Tallied()) ==> Tallied()
      ensures heroes.Keys == old(heroes).Keys
      ensures (req.hero1.None? || req.hero2.None?) <==> resp == BadRequest(MissingIds)
      ensures (req.hero1.Some? && req.hero2.Some? && req.hero1 == req.hero2) <==> resp == BadRequest(SelfBattle)
      ensures resp.BadRequest? ==>
        heroes == old(heroes) && battles == old(battles) && nextBattleId == old(nextBattleId) &&
        cache == old(cache) && trace == old(trace)
      ensures resp == HeroNotFound <==>
        req.hero1.Some? && req.hero2.Some? && req.hero1 != req.hero2 &&
        (req.hero1.value !in old(heroes) || req.hero2.value !in old(heroes))
      ensures resp == HeroNotFound ==>
        heroes == old(heroes) && battles == old(battles) && nextBattleId == old(nextBattleId) &&
        cache == old(cache) &&
        trace == old(trace) + [ReadHero(req.hero1.value), ReadHero(req.hero2.value)]
      ensures resp.Created? ==>
        var id1, id2 := req.hero1.value, req.hero2.value;
        var r := Outcome(old(heroes)[id1], old(heroes)[id2], draws);
        var record := RecordOf(old(nextBattleId), id1, id2, r);
        resp == Created(old(nextBattleId), r) &&
        battles == old(battles) + [record] &&
        nextBattleId == old(nextBattleId) + 1 &&
        heroes == SettledTable(old(heroes), record) &&
        RankingKey !in cache &&
        BattleCount() == old(BattleCount()) + 1 &&
        cache - {BattleCounterKey} == old(cache) - {RankingKey, BattleCounterKey} &&
        trace == old(trace) + [ReadHero(id1), ReadHero(id2), InsertBattle(old(nextBattleId))] +
                 StatWrites(r.winner, id1, id2) + [Commit, CacheDelete(RankingKey), CacheIncr(BattleCounterKey)]
    {
      if req.hero1.None? || req.hero2.None? {
        return BadRequest(MissingIds);
      }
      var hero1Id, hero2Id := req.hero1.value, req.hero2.value;
      if hero1Id == hero2Id {
        return BadRequest(SelfBattle);
      }

      trace := trace + [ReadHero(hero1Id)];
      var hero1 := if hero1Id in heroes then Some(heroes[hero1Id]) else None;
      trace := trace + [ReadHero(hero2Id)];
      var hero2 := if hero2Id in heroes then Some(heroes[hero2Id]) else None;
      if hero1.None? || hero2.None? {
        return HeroNotFound;
      }

      var result := SimulateBattle(hero1.value, hero2.value, draws);
      var battleId := CommitBattle(hero1Id, hero2Id, result);
      InvalidateRanking();
      resp := Created(battleId, result);
    }
  }

  /**
   * Two ranking reads with no battle between them return the same rows; when
   * the first one filled the cache and they are less than the TTL apart, the
   * second is served from the cache.
   */
  method RepeatedRankingRead(arena: Arena, dt: nat) returns (first: RankingResponse, second: RankingResponse)
    requires arena.Valid() && dt < RankingTtl
    modifies arena
    ensures first.rows == second.rows
    ensures first.source == FromDatabase ==> second.source == FromCache
  {
    first := arena.GetRanking();
    arena.Tick(dt);
    second := arena.GetRanking();
  }

  /**
   * A ranking read right after a successful battle misses the cache and
   * returns the ranking of the updated hero table.
   */
  method RankingAfterBattle(arena: Arena, req: BattleRequest, draws: seq<int>)
    returns (battle: BattleResponse, ranking: RankingResponse)
    requires arena.Valid() && ValidDraws(draws)
    modifies arena
    ensures battle.Created? ==>
      ranking.source == FromDatabase &&
      ranking.rows == Limit(arena.rankingView(arena.heroes), RankingLimit)
  {
    battle := arena.CreateBattle(req, draws);
    ranking := arena.GetRanking();
  }
}
