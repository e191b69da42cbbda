/** The engine configuration stored with a run as JSON, as `EngineConfigurationSnapshot` writes and reads it. */
module EngineConfig {
  import opened Common

  datatype ReusePolicy = SINGLE_PROCESS_PER_GAME

  datatype Settings = Settings(
    schemaVersion: int, depth: int, maxPositionTime: int, maxGameTime: int, maxPositions: int, maxMoves: int,
    threads: int, hashMb: int, commandTimeout: int, reusePolicy: ReusePolicy
  ) {
    /** What `__post_init__` accepts. */
    predicate Valid() {
      && schemaVersion == 1 && 1 <= depth <= 99
      && 1 <= maxPositionTime <= 300000 && 1 <= maxGameTime <= 7200000
      && 2 <= maxPositions <= 601 && 1 <= maxMoves <= 600
      && 1 <= threads <= 128 && 1 <= hashMb <= 65536 && 1 <= commandTimeout <= 300000
    }
  }

  /** A constructed configuration: the dataclass rejects every other one. */
  type Configuration = c: Settings | c.Valid()
    witness Settings(1, 1, 1, 1, 2, 1, 1, 1, 1, SINGLE_PROCESS_PER_GAME)

  /** A key of the JSON object. */
  datatype Key =
    | SCHEMA_VERSION | DEPTH | MAX_POSITION_TIME_MS | MAX_GAME_TIME_MS | MAX_POSITIONS | MAX_MOVES
    | THREADS | HASH_MB | COMMAND_TIMEOUT_MS | REUSE_POLICY | UnknownKey(name: string)

  datatype Json = Whole(value: int) | Flag(flag: bool) | Text(text: string) | OtherJson

  const INTEGER_KEYS: set<Key> :=
    {SCHEMA_VERSION, DEPTH, MAX_POSITION_TIME_MS, MAX_GAME_TIME_MS, MAX_POSITIONS, MAX_MOVES, THREADS, HASH_MB,
     COMMAND_TIMEOUT_MS}

  const POLICY_TEXT := "SINGLE_PROCESS_PER_GAME"

  const KEYS: set<Key> := INTEGER_KEYS + {REUSE_POLICY}

  function FieldOf(c: Settings, key: Key): Json {
    match key
    case SCHEMA_VERSION => Whole(c.schemaVersion)
    case DEPTH => Whole(c.depth)
    case MAX_POSITION_TIME_MS => Whole(c.maxPositionTime)
    case MAX_GAME_TIME_MS => Whole(c.maxGameTime)
    case MAX_POSITIONS => Whole(c.maxPositions)
    case MAX_MOVES => Whole(c.maxMoves)
    case THREADS => Whole(c.threads)
    case HASH_MB => Whole(c.hashMb)
    case COMMAND_TIMEOUT_MS => Whole(c.commandTimeout)
    case REUSE_POLICY => Text(POLICY_TEXT)
    case UnknownKey(_) => OtherJson
  }

  /** `as_json` */
  function AsJson(c: Settings): map<Key, Json> {
    map key | key in KEYS :: FieldOf(c, key)
  }

  /** `from_json`; every error is a PersistedAnalysisReadError. A JSON boolean is not an integer. */
  function FromJson(v: map<Key, Json>): Option<Configuration> {
    if v.Keys != KEYS then None
    else if v[REUSE_POLICY] != Text(POLICY_TEXT) then None
    else if exists k :: k in INTEGER_KEYS && !v[k].Whole? then None
    else
      var c := Settings(v[SCHEMA_VERSION].value, v[DEPTH].value, v[MAX_POSITION_TIME_MS].value,
                        v[MAX_GAME_TIME_MS].value, v[MAX_POSITIONS].value, v[MAX_MOVES].value, v[THREADS].value,
                        v[HASH_MB].value, v[COMMAND_TIMEOUT_MS].value, SINGLE_PROCESS_PER_GAME);
      if c.Valid() then Some(c) else None
  }

  /** Every setting is written under its own key. */
  predicate Writes(c: Settings, v: map<Key, Json>) {
    && v.Keys == KEYS
    && v[SCHEMA_VERSION] == Whole(c.schemaVersion) && v[DEPTH] == Whole(c.depth)
    && v[MAX_POSITION_TIME_MS] == Whole(c.maxPositionTime) && v[MAX_GAME_TIME_MS] == Whole(c.maxGameTime)
    && v[MAX_POSITIONS] == Whole(c.maxPositions) && v[MAX_MOVES] == Whole(c.maxMoves)
    && v[THREADS] == Whole(c.threads) && v[HASH_MB] == Whole(c.hashMb)
    && v[COMMAND_TIMEOUT_MS] == Whole(c.commandTimeout) && v[REUSE_POLICY] == Text("SINGLE_PROCESS_PER_GAME")
  }

  /** What was written is what is read. */
  lemma ConfigurationRoundTrip(c: Configuration)
    ensures Writes(c, AsJson(c)) && FromJson(AsJson(c)) == Some(c)
  {
    assert AsJson(c).Keys == KEYS;
    assert c.reusePolicy == SINGLE_PROCESS_PER_GAME;
  }

  /** And only that: an object is accepted exactly if some configuration writes it. */
  lemma ConfigurationsExactly(v: map<Key, Json>)
    ensures FromJson(v).Some? <==> exists c: Configuration :: AsJson(c) == v
    ensures FromJson(v).Some? ==> Writes(FromJson(v).value, v)
  {
    if FromJson(v).Some? {
      var c := FromJson(v).value;
      assert AsJson(c).Keys == KEYS == v.Keys;
      forall k | k in v
        ensures AsJson(c)[k] == v[k]
      {
        assert k in INTEGER_KEYS ==> v[k].Whole?;
      }
      assert AsJson(c) == v;
    }
    forall c: Configuration | AsJson(c) == v
      ensures FromJson(v).Some?
    {
      ConfigurationRoundTrip(c);
    }
  }
}
