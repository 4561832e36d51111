# Battle arena and request-XP game, modelled in Dafny

This project models two small Python services.

**The battle arena** (`desafio3/web/app.py`) has three parts:

- **The battle engine** (`simulate_battle`) fights two heroes for at most 20 rounds. In each round hero1 strikes. A felled hero2 ends the fight at once. Otherwise hero2 strikes back. A hit deals `max(0, attack - defense // 2 + jitter)`. The side with strictly more HP left wins, and equal HP is a draw.
- **The battle endpoint** (`create_battle`) first validates the request. It then reads both heroes and runs the engine. Inside one transaction it inserts a battle record and applies one of three stat updates: hero1 wins, hero2 wins, or a draw. After the commit it deletes the cached ranking and increments a battle counter.
- **The ranking endpoint** (`get_ranking`) is a read-through cache. If `ranking:current` is live, it is returned tagged `cache`. Otherwise the top ten rows of the `hero_stats` view are stored for 60 seconds and returned tagged `database`.

**The request-XP game** (`desafio1/server/app.py`) keeps three process-wide counters: XP, level and request count. Every home request earns 15–30 XP, doubled on a critical hit. The level is `xp // 100 + 1`, and a title is chosen from eleven level thresholds. The stats endpoint shows the XP still needed for the next level and a ten-cell progress bar.

Modules:

- `Wrappers` (`wrappers.dfy`): the Option type.
- `Heroes` (`heroes.dfy`): a hero row and `Settle`, the UPDATE applied to one participant.
- `BattleEngine` (`battle_engine.dfy`): the engine.
  - `Resolve` is its specification. It runs the rest of a fight from a state of the loop variables.
  - `SimulateBattle` is the source's `while` loop, proved to compute `Outcome`.
  - The jitters are an input stream `draws`, one value per attack.
- `Arena` (`arena.dfy`): class `Arena` holds four pieces of state:
  - the hero table, as a map from id to row;
  - the battles table, as an append-only sequence;
  - the cache, as a map from key to value and expiry time;
  - a logical clock.

  A ghost `trace` records every store and cache call in order. That is how the model states the ordering "delete only after commit".
- `Leveling` (`leveling.dfy`): the XP game. Class `Player` holds the three counters.

The arena's invariant `Valid()` includes cache coherence: a live cached ranking always equals the ranking of the current hero table. `CreateBattle` keeps it by deleting the key after it commits. So in this sequential model a ranking read is never stale (`GetRanking` ensures `resp.rows == TopRanking()`).

Two details of the ranking endpoint:

- A miss is tagged `database`.
- A cache failure is not caught, so a ranking read never falls back to the store.

## Model

| member | source | states |
|---|---|---|
| `Heroes.Settle` | desafio3/web/app.py:197-208 | An UPDATE adds exactly one to wins + losses + draws, and only the counter matching the standing changes. Damage totals grow on a win or a loss and stay put on a draw. No other column changes. |
| `BattleEngine.Hit` | desafio3/web/app.py:241-249 | The damage of one attack is never negative. It is at least the raw `attack - defense // 2 + jitter`, and equals it whenever that is positive. |
| `BattleEngine.Verdict` | desafio3/web/app.py:256-264 | For distinct ids, hero1 wins iff its final HP is strictly greater, hero2 wins iff its final HP is strictly greater, and the result is a draw iff the HPs are equal. |
| `BattleEngine.SimulateBattle` | desafio3/web/app.py:223-272 | The loop (round count, both HPs, damage totals, break on a felled hero2, log) computes exactly `Outcome`. It fights at most 20 rounds, and at least one when both starting HPs are positive. |
| `BattleEngine.ResolveRounds` | desafio3/web/app.py:231-238 | The round count never decreases and never passes 20. A fight still in progress fights at least one more round. |
| `BattleEngine.ResolveAccounting` | desafio3/web/app.py:241-251 | HP lost by each side equals the damage the other side dealt in the rounds that follow. Damage totals never decrease. |
| `BattleEngine.ResolveEnding` | desafio3/web/app.py:237-252 | From a state where both stand, the fight ends in one of three ways: hero2 down with hero1 standing, hero1 down with hero2 standing, or the cap reached with both standing. |
| `BattleEngine.ResolveLog` | desafio3/web/app.py:244-252 | The log invariant holds throughout. Every counter-attack follows a strike that left hero2 standing, and a felling strike is the last event. |
| `BattleEngine.FellingStrikeLogged` | desafio3/web/app.py:244-247 | A fight that ends with hero2 down ends its log with hero1's strike showing 0 HP. |
| `BattleEngine.BattleTotals` | desafio3/web/app.py:227-251 | A battle fights at most 20 rounds, and at least 1 when both starting HPs are positive. Each final HP is the starting HP minus the opponent's damage total. |
| `BattleEngine.BattleEndings` | desafio3/web/app.py:237-264 | With positive starting HP, a felled hero2 means hero1 won (felling strike last in the log), and a felled hero1 means hero2 won. A draw happens only at round 20, with equal positive HP. |
| `BattleEngine.BattleLogShape` | desafio3/web/app.py:244-252 | In every battle log, hero2 never counter-attacks after being felled, and a felling strike is the last event. |
| `BattleEngine.MirrorMatch` | desafio3/web/app.py:241-264 | Two heroes with attack 50, defense 30 and 100 HP, with all jitters 0: hero1 wins in 3 rounds, having dealt 105 damage and taken 70. |
| `Arena.Limit` | desafio3/web/app.py:134-139 | `LIMIT 10` returns a prefix of the view's rows, of length 10 when there are enough and all of them otherwise. |
| `Arena.ParticipationsAppend` | desafio3/web/app.py:186-193 | Appending one battle record counts one more battle for each of its two heroes and none for any other hero. |
| `Arena.StandingsFollowHp` | desafio3/web/app.py:197-208 | The three-way dispatch settles hero1 as winner iff it ended with more HP, as loser iff it ended with less, and both as tied iff the HPs are equal. |
| `Arena.TallyKept` | desafio3/web/app.py:186-208 | Inserting a battle and settling both heroes keeps wins + losses + draws equal to each hero's number of battles. |
| `Arena.RecordsKept` | desafio3/web/app.py:186-195 | Appending a record with the next sequence id, two distinct existing heroes and a winner among them keeps the battles table well formed. |
| `Arena.SettleParticipants` | desafio3/web/app.py:197-208 | The stat updates: hero1 won gives (win, loss), hero2 won gives (loss, win), anything else gives a draw for both. Each hero is updated with its own dealt and received damage. Exactly the matching UPDATE statements are issued. |
| `Arena.Arena.TopRanking` | desafio3/web/app.py:134-141 | The ranking query returns at most 10 rows. |
| `Arena.Arena.Tick` | desafio3/web/app.py:150 | Advancing the clock keeps the invariant: entries only stop being live. |
| `Arena.Arena.GetRanking` | desafio3/web/app.py:116-155 | On a hit, returns the cached rows tagged cache, with the cache unchanged and no store access. On a miss, queries the store and caches the top 10 for 60 seconds. Either way the rows equal the current ranking, and the key is live afterwards. |
| `Arena.Arena.CommitBattle` | desafio3/web/app.py:186-210 | Appends exactly one record with the next id and settles both heroes. The trace is insert, then the stat UPDATEs, then commit. Well-formedness and the tally are kept. |
| `Arena.Arena.InvalidateRanking` | desafio3/web/app.py:214-216 | Deletes `ranking:current` and increments `stats:total_battles` (from 0 when absent), in that order. No other key changes. |
| `Arena.Arena.CreateBattle` | desafio3/web/app.py:157-221 | Gives 400 iff an id is missing or the ids are equal, with no store access. Gives 404 iff a hero is missing, after two reads and with no write. Otherwise gives 201: exactly one record is appended with the next id, both heroes are settled by the engine's outcome and no other hero changes, the cached ranking is deleted only after the commit, the battle counter rises by one and no other cache key changes. The 400 and 404 paths leave the id sequence unchanged. |
| `Arena.RepeatedRankingRead` | desafio3/web/app.py:116-155 | Two reads with no battle between them return the same rows. If the first read filled the cache and the two are less than 60 s apart, the second comes from the cache. |
| `Arena.RankingAfterBattle` | desafio3/web/app.py:210-216 | A ranking read right after a successful battle misses the cache and reflects the updated hero table. |
| `Leveling.CalculateLevel` | desafio1/server/app.py:12-13 | The level is the unique `l` with `(l-1)*100 <= xp < l*100`, and it is at least 1 for non-negative XP. |
| `Leveling.LevelMonotone` | desafio1/server/app.py:12-13 | The level never decreases as XP grows. |
| `Leveling.AtMostOneLevelPerGain` | desafio1/server/app.py:59-66 | A gain of at most 100 XP raises the level by at most one. |
| `Leveling.RankBelow` | desafio1/server/app.py:30-33 | The descending search over thresholds finds the highest one at or below the level, or falls back to index 0. |
| `Leveling.TitleRank` | desafio1/server/app.py:15-33 | The title index is that of the largest threshold at or below the level, and 0 when none is. |
| `Leveling.TitleMonotone` | desafio1/server/app.py:15-33 | Titles never go down as the level rises. Below level 1 the first title is held. |
| `Leveling.GetTitle` | desafio1/server/app.py:15-33 | The loop from the highest threshold down returns the title at `TitleRank(level)`. |
| `Leveling.XpReward` | desafio1/server/app.py:35-41 | The reward lies in [15, 30], or in [30, 60] doubled on a critical hit, so always in [15, 60]. |
| `Leveling.ProgressIsRemainder` | desafio1/server/app.py:73 | With the level derived from the XP, `xp - (level-1)*100` equals `xp % 100` and lies in [0, 99]. |
| `Leveling.Repeat` | desafio1/server/app.py:132 | Python's one-character `c * n` has `max(0, n)` copies of `c`. |
| `Leveling.ProgressBar` | desafio1/server/app.py:132 | For progress in [0, 99] the bar has exactly 10 cells: `progress // 10` filled cells, then empty ones. |
| `Leveling.Player.Home` | desafio1/server/app.py:56-110 | The request count grows by exactly 1 and the XP by the reward. The level is recomputed and rises by at most one. `levelUp` holds iff the level rose. Progress is `xp % 100`. |
| `Leveling.Player.Stats` | desafio1/server/app.py:120-140 | The XP still needed for the next level is `100 - xp % 100`, which lies in [1, 100]. The progress bar has 10 cells. The title is the one for the level. |

## Left out

- HTTP plumbing: Flask routing, JSON request parsing and `jsonify`. Only the outcome kinds are kept: 400 (missing ids, self-battle), 404 and 201, and the `cache`/`database` tag.
- SQL text, cursors and connections. The store is a map of hero rows and a sequence of battle records. The `hero_stats` view is not visible, so it is a function parameter of the arena (`rankingView`). Its `win_rate` is a real and its ordering is whatever the view gives.
- Redis internals. The JSON round trip of the cached payload is treated as the identity. Expiry is exact at the logical time `cachedAt + 60`.
- `datetime.now()` and real time: a logical clock that only `Tick` advances stands in for both.
- Randomness. `random.randint(-10, 10)` becomes the `draws` input. `random.randint(15, 30)` and `random.random() < 0.1` become the inputs of `Home`. `random.choice` of the motivational message is dropped.
- The rendered battle log: the header, the separator lines, the emoji and the winner line. The log is a sequence of round-start and attack events.
- Store and cache failures (exceptions, timeouts). The model has no error path for I/O failures, and the source has no fallback either.
- Concurrency. Two battles on the same pair can interleave their updates. A ranking read that lands between a commit and the cache delete is served the pre-battle ranking. A read that queries the store before a commit and caches its result after the delete keeps pre-battle data live for up to 60 s. In the sequential model coherence holds; with interleaving it would not.
- Request ids are one integer type. In the source, an id sent as a JSON string would still find the hero through SQL but would not equal the integer `winner_id`, sending the battle to the draw branch. Mixed ids such as `"1"` and `1` also pass the self-battle check of desafio3/web/app.py:167, so the same hero fights itself. The model does not capture either effect.
- `wait_for_services`, the `/` index, `/health`, `/heroes`, `/battles` and `/stats` endpoints of desafio3/web/app.py. These are read-only queries and retry logic. `stats:cache_hits` is never written by the core.
- `get_motivational_message`, the hostname, the client IP, timestamps, the console log line and `/health` of desafio1/server/app.py. The float `average_xp_per_request` is also dropped.
- Title texts (with emoji) are represented by the `Title` datatype, one constructor per title in threshold order.
- desafio2, desafio4 and desafio5 are not part of this model. They are console menus, static lookups and HTTP pass-throughs.
- `BattleEngine.SimulateBattle`, `BattleEngine.Verdict`, `BattleEngine.Outcome` and the engine lemmas require distinct hero ids, which `create_battle` guarantees before simulating when both ids have the same JSON type. `Verdict`'s if-and-only-if statements would not hold for one hero fighting itself.
