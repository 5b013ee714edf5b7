/**
 * The fact blackboard (src/bot/strategy/intel_manager.py).
 *
 * `IntelFacts` is the 13-field record of everything the strategy layer may
 * read; `IntelManager` owns the one live record, overwrites every field of it
 * from an observation dictionary, and rebuilds it from the record defaults on
 * reset.
 */
module Intel {

  /** A value of the observation dictionary: Python int, bool or float. */
  datatype ObsValue = Int(i: int) | Bool(b: bool) | Float(f: real)

  /** The observation dictionary passed to `update_from_obs`. */
  type Observation = map<string, ObsValue>

  datatype IntelFacts = IntelFacts(
    enemyAir: bool,
    enemyRush: bool,
    enemyGround: bool,
    enemyTechLevel: int,
    ourMinerals: int,
    ourGas: int,
    ourSupplyUsed: int,
    ourSupplyCap: int,
    ourArmySize: int,
    ourBaseCount: int,
    enemyBaseCount: int,
    gameTime: real,
    lastEnemySighting: real)

  /** The dataclass defaults: every flag false, every count 0 except one own base. */
  function DefaultFacts(): (f: IntelFacts)
    ensures !f.enemyAir && !f.enemyRush && !f.enemyGround && f.enemyTechLevel == 0
    ensures f.ourMinerals == 0 && f.ourGas == 0 && f.ourArmySize == 0 && f.enemyBaseCount == 0
    ensures f.ourSupplyUsed == 0 && f.ourSupplyCap == 0
    ensures f.ourBaseCount == 1
    ensures f.gameTime == 0.0 && f.lastEnemySighting == 0.0
  {
    IntelFacts(false, false, false, 0, 0, 0, 0, 0, 0, 1, 0, 0.0, 0.0)
  }

  /** The thirteen observation keys `update_from_obs` reads. */
  const ReadKeys: set<string> := {
    "minerals", "gas", "food_used", "food_cap", "army_size", "base_count", "game_time",
    "enemy_air", "enemy_rush", "enemy_ground", "enemy_tech_level", "enemy_base_count",
    "last_enemy_sighting"
  }

  /**
   * `obs.get(key, default)` read into an int field. A Python bool is an int
   * (True == 1); a float cannot be held by an int field and counts as absent.
   */
  function GetInt(obs: Observation, key: string, default: int): (v: int)
    ensures key !in obs ==> v == default
    ensures key in obs && obs[key].Int? ==> v == obs[key].i
  {
    if key !in obs then default
    else match obs[key]
      case Int(i) => i
      case Bool(b) => if b then 1 else 0
      case Float(_) => default
  }

  /** `obs.get(key, default)` read into a float field; ints and bools convert exactly. */
  function GetReal(obs: Observation, key: string, default: real): (v: real)
    ensures key !in obs ==> v == default
    ensures key in obs && obs[key].Float? ==> v == obs[key].f
  {
    if key !in obs then default
    else match obs[key]
      case Int(i) => i as real
      case Bool(b) => if b then 1.0 else 0.0
      case Float(r) => r
  }

  /** `obs.get(key, default)` read into a flag, as the truth value every reader tests. */
  function GetFlag(obs: Observation, key: string, default: bool): (v: bool)
    ensures key !in obs ==> v == default
    ensures key in obs && obs[key].Bool? ==> v == obs[key].b
  {
    if key !in obs then default
    else match obs[key]
      case Int(i) => i != 0
      case Bool(b) => b
      case Float(r) => r != 0.0
  }

  /**
   * The record `update_from_obs` leaves behind: each field read from its
   * (renamed) observation key, with that key's own default when absent.
   * It has no argument for the previous facts: nothing of them survives.
   */
  function FactsFromObs(obs: Observation): (f: IntelFacts)
    ensures "minerals" !in obs ==> f.ourMinerals == 0
    ensures "gas" !in obs ==> f.ourGas == 0
    ensures "food_used" !in obs ==> f.ourSupplyUsed == 0
    ensures "food_cap" !in obs ==> f.ourSupplyCap == 15
    ensures "army_size" !in obs ==> f.ourArmySize == 0
    ensures "base_count" !in obs ==> f.ourBaseCount == 1
    ensures "game_time" !in obs ==> f.gameTime == 0.0
    ensures "enemy_air" !in obs ==> !f.enemyAir
    ensures "enemy_rush" !in obs ==> !f.enemyRush
    ensures "enemy_ground" !in obs ==> !f.enemyGround
    ensures "enemy_tech_level" !in obs ==> f.enemyTechLevel == 0
    ensures "enemy_base_count" !in obs ==> f.enemyBaseCount == 0
    ensures "last_enemy_sighting" !in obs ==> f.lastEnemySighting == 0.0
    ensures "minerals" in obs && obs["minerals"].Int? ==> f.ourMinerals == obs["minerals"].i
    ensures "gas" in obs && obs["gas"].Int? ==> f.ourGas == obs["gas"].i
    ensures "food_used" in obs && obs["food_used"].Int? ==> f.ourSupplyUsed == obs["food_used"].i
    ensures "food_cap" in obs && obs["food_cap"].Int? ==> f.ourSupplyCap == obs["food_cap"].i
    ensures "army_size" in obs && obs["army_size"].Int? ==> f.ourArmySize == obs["army_size"].i
    ensures "base_count" in obs && obs["base_count"].Int? ==> f.ourBaseCount == obs["base_count"].i
    ensures "enemy_tech_level" in obs && obs["enemy_tech_level"].Int? ==> f.enemyTechLevel == obs["enemy_tech_level"].i
    ensures "enemy_base_count" in obs && obs["enemy_base_count"].Int? ==> f.enemyBaseCount == obs["enemy_base_count"].i
    ensures "game_time" in obs && obs["game_time"].Float? ==> f.gameTime == obs["game_time"].f
    ensures "last_enemy_sighting" in obs && obs["last_enemy_sighting"].Float? ==> f.lastEnemySighting == obs["last_enemy_sighting"].f
    ensures "enemy_air" in obs && obs["enemy_air"].Bool? ==> f.enemyAir == obs["enemy_air"].b
    ensures "enemy_rush" in obs && obs["enemy_rush"].Bool? ==> f.enemyRush == obs["enemy_rush"].b
    ensures "enemy_ground" in obs && obs["enemy_ground"].Bool? ==> f.enemyGround == obs["enemy_ground"].b
  {
    IntelFacts(
      enemyAir := GetFlag(obs, "enemy_air", false),
      enemyRush := GetFlag(obs, "enemy_rush", false),
      enemyGround := GetFlag(obs, "enemy_ground", false),
      enemyTechLevel := GetInt(obs, "enemy_tech_level", 0),
      ourMinerals := GetInt(obs, "minerals", 0),
      ourGas := GetInt(obs, "gas", 0),
      ourSupplyUsed := GetInt(obs, "food_used", 0),
      ourSupplyCap := GetInt(obs, "food_cap", 15),
      ourArmySize := GetInt(obs, "army_size", 0),
      ourBaseCount := GetInt(obs, "base_count", 1),
      enemyBaseCount := GetInt(obs, "enemy_base_count", 0),
      gameTime := GetReal(obs, "game_time", 0.0),
      lastEnemySighting := GetReal(obs, "last_enemy_sighting", 0.0))
  }

  /** Keys other than the thirteen read ones never influence the facts. */
  lemma ExtraKeysIgnored(obs: Observation, extra: Observation)
    requires extra.Keys !! ReadKeys
    ensures FactsFromObs(obs + extra) == FactsFromObs(obs)
  {
    var u := obs + extra;
    forall k | k in ReadKeys
      ensures (k in u) == (k in obs) && (k in obs ==> u[k] == obs[k])
    {
      assert k !in extra;
    }
  }

  /**
   * An empty observation and a reset disagree in exactly one field: the
   * supply cap is 15 after the update but 0 after the reset.
   */
  lemma EmptyUpdateVersusReset()
    ensures FactsFromObs(map[]) == DefaultFacts().(ourSupplyCap := 15)
    ensures FactsFromObs(map[]).ourSupplyCap != DefaultFacts().ourSupplyCap
  {
  }

  /** The blackboard: one live `IntelFacts` record, overwritten in place. */
  class IntelManager {
    var facts: IntelFacts

    constructor ()
      ensures facts == DefaultFacts()
    {
      facts := DefaultFacts();
    }

    /**
     * Overwrites all thirteen fields from `obs`; the new facts depend on `obs`
     * alone, so a second call with the same `obs` changes nothing.
     */
    method UpdateFromObs(obs: Observation)
      modifies this
      ensures facts == FactsFromObs(obs)
    {
      facts := facts.(ourMinerals := GetInt(obs, "minerals", 0));
      facts := facts.(ourGas := GetInt(obs, "gas", 0));
      facts := facts.(ourSupplyUsed := GetInt(obs, "food_used", 0));
      facts := facts.(ourSupplyCap := GetInt(obs, "food_cap", 15));
      facts := facts.(ourArmySize := GetInt(obs, "army_size", 0));
      facts := facts.(ourBaseCount := GetInt(obs, "base_count", 1));
      facts := facts.(gameTime := GetReal(obs, "game_time", 0.0));
      facts := facts.(enemyAir := GetFlag(obs, "enemy_air", false));
      facts := facts.(enemyRush := GetFlag(obs, "enemy_rush", false));
      facts := facts.(enemyGround := GetFlag(obs, "enemy_ground", false));
      facts := facts.(enemyTechLevel := GetInt(obs, "enemy_tech_level", 0));
      facts := facts.(enemyBaseCount := GetInt(obs, "enemy_base_count", 0));
      facts := facts.(lastEnemySighting := GetReal(obs, "last_enemy_sighting", 0.0));
    }

    /** Replaces the record by a fresh one with the dataclass defaults. */
    method Reset()
      modifies this
      ensures facts == DefaultFacts()
    {
      facts := DefaultFacts();
    }
  }
}
