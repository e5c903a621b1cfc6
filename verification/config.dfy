/**
 * The repair step of load_config (app.py): a parsed configuration file
 * becomes a fixed record of two distinct keys, the two role counts and the
 * two role delays, together with a flag saying whether the file has to be
 * rewritten.
 */
module Config {
  import opened Wrappers
  import opened Text

  /**
   * A parsed configuration file: each top-level field may be missing. The
   * file's values are taken as already having the types the loader converts
   * them to (strings, integers, reals).
   */
  datatype RawConfig = RawConfig(
    keys: Option<seq<string>>,
    counts: Option<map<string, int>>,
    delay: Option<map<string, real>>)

  /** The record the window works with: `{keys, counts, delay}`. */
  datatype Settings = Settings(keys: seq<string>, counts: map<string, int>, delay: map<string, real>)

  datatype Repaired = Repaired(fixed: Settings, changed: bool)

  const DefaultKeys: seq<string> := ["q", "e"]
  const DefaultDelay: real := 2.5

  /** Python's max(0.0, x). */
  function Max0(x: real): (r: real)
    ensures r >= 0.0 && r >= x
    ensures r == x || r == 0.0
  {
    if x > 0.0 then x else 0.0
  }

  /** The first two configured keys (at most), lower-cased. */
  function LoweredKeys(raw: seq<string>): (r: seq<string>)
    ensures |r| == if |raw| < 2 then |raw| else 2
    ensures forall i :: 0 <= i < |r| ==> r[i] == Lower(raw[i])
  {
    var taken := if |raw| < 2 then raw else raw[..2];
    seq(|taken|, i requires 0 <= i < |taken| => Lower(taken[i]))
  }

  /** The key list is usable: exactly two entries, and they differ. */
  predicate KeysUsable(keys: seq<string>) {
    |keys| == 2 && keys[0] != keys[1]
  }

  /** The counts are already in the key1/key2 shape. */
  predicate CountsUsable(counts: map<string, int>) {
    "key1" in counts && "key2" in counts
  }

  function RepairKeys(raw: seq<string>): (keys: seq<string>)
  {
    var lowered := LoweredKeys(raw);
    if KeysUsable(lowered) then lowered else DefaultKeys
  }

  function RepairCounts(raw: map<string, int>, keys: seq<string>): map<string, int>
    requires |keys| == 2
  {
    if CountsUsable(raw) then map["key1" := raw["key1"], "key2" := raw["key2"]]
    else map["key1" := Get(raw, keys[0], 0), "key2" := Get(raw, keys[1], 0)]
  }

  function RepairDelay(raw: map<string, real>): map<string, real>
  {
    map["key1" := Max0(Get(raw, "key1", DefaultDelay)), "key2" := Max0(Get(raw, "key2", DefaultDelay))]
  }

  /** load_config after the file has been parsed (app.py:66-89). */
  function Repair(conf: RawConfig): (r: Repaired)
    // keys: the first two entries lower-cased if they are two and differ, else q and e
    ensures KeysUsable(r.fixed.keys) && IsLower(r.fixed.keys[0]) && IsLower(r.fixed.keys[1])
    ensures var raw := conf.keys.GetOr([]);
      if |raw| >= 2 && Lower(raw[0]) != Lower(raw[1])
      then r.fixed.keys == [Lower(raw[0]), Lower(raw[1])]
      else r.fixed.keys == DefaultKeys && r.changed
    // counts: kept when both roles are present, otherwise taken from the entries named by the keys
    ensures r.fixed.counts.Keys == {"key1", "key2"}
    ensures var raw := conf.counts.GetOr(map[]);
      if "key1" in raw && "key2" in raw
      then r.fixed.counts["key1"] == raw["key1"] && r.fixed.counts["key2"] == raw["key2"]
      else (r.fixed.counts["key1"] == Get(raw, r.fixed.keys[0], 0)
            && r.fixed.counts["key2"] == Get(raw, r.fixed.keys[1], 0) && r.changed)
    // delay: the given value or 2.5, never negative
    ensures r.fixed.delay.Keys == {"key1", "key2"}
    ensures forall role :: role in r.fixed.delay ==>
      r.fixed.delay[role] >= 0.0
      && var given := Get(conf.delay.GetOr(map[]), role, DefaultDelay);
      (given >= 0.0 ==> r.fixed.delay[role] == given) && (given < 0.0 ==> r.fixed.delay[role] == 0.0)
    // the file is rewritten exactly when one of the three repairs applied
    ensures r.changed <==>
      !KeysUsable(LoweredKeys(conf.keys.GetOr([]))) || !CountsUsable(conf.counts.GetOr(map[])) || conf.delay.None?
  {
    var keysOk := KeysUsable(LoweredKeys(conf.keys.GetOr([])));
    var keys := RepairKeys(conf.keys.GetOr([]));
    var countsOk := CountsUsable(conf.counts.GetOr(map[]));
    var counts := RepairCounts(conf.counts.GetOr(map[]), keys);
    var delay := RepairDelay(conf.delay.GetOr(map[]));
    Repaired(Settings(keys, counts, delay), !keysOk || !countsOk || conf.delay.None?)
  }

  /** What save_config writes: the record with every field present. */
  function Saved(s: Settings): RawConfig {
    RawConfig(Some(s.keys), Some(s.counts), Some(s.delay))
  }

  /**
   * Loading what a load wrote back gives the same record and asks for no
   * rewrite: a repaired configuration is a fixed point of the repair.
   */
  lemma RepairIdempotent(conf: RawConfig)
    ensures var s := Repair(conf).fixed;
      Repair(Saved(s)) == Repaired(s, false)
  {
    var s := Repair(conf).fixed;
    var again := Repair(Saved(s));
    LowerOfLower(s.keys[0]);
    LowerOfLower(s.keys[1]);
    assert LoweredKeys(s.keys) == s.keys;
    assert again.fixed.keys == s.keys;
    assert again.fixed.counts == s.counts;
    assert again.fixed.delay == s.delay;
  }

  /**
   * A legacy file whose counts are keyed by the trigger strings themselves
   * is migrated to the key1/key2 shape with the same numbers, and rewritten.
   */
  lemma MigrateLegacyCounts(k1: string, k2: string, c1: int, c2: int, delay: Option<map<string, real>>)
    requires IsLower(k1) && IsLower(k2) && k1 != k2
    requires k1 !in {"key1", "key2"} && k2 !in {"key1", "key2"}
    ensures var r := Repair(RawConfig(Some([k1, k2]), Some(map[k1 := c1, k2 := c2]), delay));
      r.fixed.keys == [k1, k2] && r.fixed.counts == map["key1" := c1, "key2" := c2] && r.changed
  {
    LowerOfLower(k1);
    LowerOfLower(k2);
  }

  /**
   * The keys are lower-cased before the legacy counts are looked up under
   * them, so counts stored under upper-case trigger strings are not found:
   * they load as 0, and the file is rewritten with the zeros.
   */
  lemma UpperCaseLegacyCountsLost()
    ensures var r := Repair(RawConfig(Some(["Q", "E"]), Some(map["Q" := 3, "E" := 4]), None));
      r.fixed.keys == ["q", "e"] && r.fixed.counts == map["key1" := 0, "key2" := 0] && r.changed
  {
    assert Lower("Q")[0] == 'q' && Lower("E")[0] == 'e';
    assert Lower("Q") == "q" && Lower("E") == "e";
    assert LoweredKeys(["Q", "E"]) == ["q", "e"];
  }

  /** An empty file repairs to the built-in defaults, and is rewritten. */
  lemma RepairEmpty()
    ensures Repair(RawConfig(None, None, None)) ==
      Repaired(Settings(["q", "e"], map["key1" := 0, "key2" := 0], map["key1" := 2.5, "key2" := 2.5]), true)
  {
  }
}
