/**
 * The device settings exchanged by `Grbl::parseConfig` and
 * `Grbl::writeConfiguration`: `$k=v` lines for settings and `$Nk=v` lines for
 * the two starting blocks, kept in one map from unsigned key to the value
 * text. Starting blocks live above the settings, at StartingBlock0 + k.
 */
module Configuration {
  import opened Text
  import opened Protocol

  // The numbering of ConfigType lives in a header that is not part of this
  // model: the starting blocks only need to sit above every setting number.
  const StartingBlock0: nat := 1000
  const StartingBlock1: nat := 1001
  /** The laser-mode setting, `$32`. */
  const LaserModeKey: nat := 32

  const UInt32Modulus: nat := 0x1_0000_0000

  /** One stored setting: its key, its value text, and the info flag that its line sets. */
  datatype Entry = Entry(key: nat, value: string, flag: InfoFlag)

  /**
   * A `$...` line as `parseConfig` reads it: `$N` first, then `$`; the payload
   * must split into exactly two `=`-parts.
   */
  function ConfigEntry(line: string): (r: Option<Entry>)
    ensures r.Some? ==> StartsWith(line, "$") && '=' !in r.value.value && r.value.key <= MaxUInt32
    ensures r.Some? ==> (r.value.flag == HasStartingBlocks <==> StartsWith(line, "$N"))
    ensures r.Some? ==> r.value.flag in {HasConfig, HasStartingBlocks}
  {
    if StartsWith(line, "$N") then StartingBlockEntry(line[2..])
    else if StartsWith(line, "$") then SettingEntry(line[1..])
    else None
  }

  /** The payload of `$Nk=v`. The key is unsigned 32-bit arithmetic and wraps. */
  function StartingBlockEntry(payload: string): (r: Option<Entry>)
    ensures r.Some? ==> '=' !in r.value.value && r.value.key <= MaxUInt32 && r.value.flag == HasStartingBlocks
  {
    var vals := Split(payload, '=');
    if |vals| == 2 then Some(Entry((ParseUInt(vals[0]) + StartingBlock0) % UInt32Modulus, vals[1], HasStartingBlocks))
    else None
  }

  /** The payload of `$k=v`. */
  function SettingEntry(payload: string): (r: Option<Entry>)
    ensures r.Some? ==> '=' !in r.value.value && r.value.key <= MaxUInt32 && r.value.flag == HasConfig
  {
    var vals := Split(payload, '=');
    if |vals| == 2 then Some(Entry(ParseUInt(vals[0]), vals[1], HasConfig))
    else None
  }

  /** `k=v` splits into its two parts when neither holds a separator. */
  lemma SplitPair(k: string, value: string)
    requires '=' !in k && '=' !in value
    ensures Split(k + "=" + value, '=') == [k, value]
  {
    SplitAtFirst(k, '=', value);
    SplitWithoutSeparator(value, '=');
  }

  /** The line `writeConfiguration` sends for one stored key. */
  function ConfigCommand(key: nat, value: string): string {
    if key == StartingBlock0 || key == StartingBlock1 then "$N" + Decimal(key - StartingBlock0) + "=" + value
    else "$" + Decimal(key) + "=" + value
  }

  /**
   * The line written for one setting: `$`, a key part free of `=`, `=`, then
   * the value verbatim; the key part starts with `N` exactly for the two
   * starting blocks.
   */
  lemma ConfigCommandShape(key: nat, value: string)
    ensures var line := ConfigCommand(key, value);
      var n := |line| - |value| - 1;
      && 2 <= n < |line|
      && line[0] == '$' && line[n] == '=' && line[n + 1..] == value
      && '=' !in line[1..n]
      && (line[1] == 'N' <==> key == StartingBlock0 || key == StartingBlock1)
  {
    var starting := key == StartingBlock0 || key == StartingBlock1;
    var d := if starting then Decimal(key - StartingBlock0) else Decimal(key);
    var k := if starting then "N" + d else d;
    var line := ConfigCommand(key, value);
    assert line == "$" + k + "=" + value;
    var n := |line| - |value| - 1;
    assert line[1..n] == k;
    assert line[n + 1..] == value;
    assert line[1] == k[0];
    DigitsHaveNoSeparator(d);
    if starting {
      assert k[1..] == d;
      assert forall i | 1 <= i < |k| :: k[i] == d[i - 1];
    } else {
      assert IsDigit(d[0]);
    }
  }

  lemma DigitsHaveNoSeparator(d: string)
    requires AllDigits(d)
    ensures '=' !in d && ':' !in d
  {
  }

  /** A setting written out is read back as the same key and value. */
  lemma SettingRoundTrip(key: nat, value: string)
    requires key <= MaxUInt32 && key != StartingBlock0 && key != StartingBlock1 && '=' !in value
    ensures ConfigEntry(ConfigCommand(key, value)) == Some(Entry(key, value, HasConfig))
  {
    var d := Decimal(key);
    var payload := d + "=" + value;
    var line := ConfigCommand(key, value);
    assert line == "$" + payload;
    assert line[1..] == payload;
    assert IsDigit(d[0]) && line[1] == d[0];
    assert !StartsWith(line, "$N") by {
      assert line[..2][1] == d[0];
    }
    DigitsHaveNoSeparator(d);
    SplitPair(d, value);
    ParseUIntDecimal(key);
    assert SettingEntry(payload) == Some(Entry(key, value, HasConfig));
  }

  /** A starting block written out is read back under the same key. */
  lemma StartingBlockRoundTrip(key: nat, value: string)
    requires (key == StartingBlock0 || key == StartingBlock1) && '=' !in value
    ensures ConfigEntry(ConfigCommand(key, value)) == Some(Entry(key, value, HasStartingBlocks))
  {
    var n := key - StartingBlock0;
    var d := Decimal(n);
    var payload := d + "=" + value;
    var line := ConfigCommand(key, value);
    assert line == "$N" + payload;
    assert line[..2] == "$N" && line[2..] == payload;
    DigitsHaveNoSeparator(d);
    SplitPair(d, value);
    ParseUIntDecimal(n);
    assert StartingBlockEntry(payload) == Some(Entry(key, value, HasStartingBlocks));
  }

  /**
   * The other direction: a setting line whose key is written canonically is
   * reproduced byte for byte when its stored key is written back.
   */
  lemma SettingLineReproduced(line: string, k: string, value: string)
    requires line == "$" + k + "=" + value && '=' !in value
    requires IsCanonicalDecimal(k) && DigitsValue(k) <= MaxUInt32
    requires DigitsValue(k) != StartingBlock0 && DigitsValue(k) != StartingBlock1
    ensures ConfigEntry(line) == Some(Entry(DigitsValue(k), value, HasConfig))
    ensures ConfigCommand(DigitsValue(k), value) == line
  {
    CanonicalDecimalRoundTrip(k);
    SettingRoundTrip(DigitsValue(k), value);
  }

  /** The same for a starting-block line `$N0=...` or `$N1=...`. */
  lemma StartingBlockLineReproduced(line: string, n: nat, value: string)
    requires n <= 1 && line == "$N" + Decimal(n) + "=" + value && '=' !in value
    ensures ConfigEntry(line) == Some(Entry(StartingBlock0 + n, value, HasStartingBlocks))
    ensures ConfigCommand(StartingBlock0 + n, value) == line
  {
    StartingBlockRoundTrip(StartingBlock0 + n, value);
  }

  /** A `$` payload that is not exactly two `=`-parts is ignored. */
  lemma MalformedSettingIgnored(line: string)
    requires StartsWith(line, "$") && !StartsWith(line, "$N") && |Split(line[1..], '=')| != 2
    ensures ConfigEntry(line) == None
  {
  }

  /**
   * A starting-block number so large that adding StartingBlock0 passes the
   * unsigned 32-bit range wraps around and lands below the starting blocks,
   * among the settings.
   */
  lemma StartingBlockKeyWraps(n: nat, value: string)
    requires UInt32Modulus - StartingBlock0 <= n <= MaxUInt32 && '=' !in value
    ensures ConfigEntry("$N" + Decimal(n) + "=" + value) == Some(Entry(n + StartingBlock0 - UInt32Modulus, value, HasStartingBlocks))
    ensures n + StartingBlock0 - UInt32Modulus < StartingBlock0
  {
    var d := Decimal(n);
    var payload := d + "=" + value;
    var line := "$N" + d + "=" + value;
    assert line == "$N" + payload;
    assert line[..2] == "$N" && line[2..] == payload;
    DigitsHaveNoSeparator(d);
    SplitPair(d, value);
    ParseUIntDecimal(n);
    assert (n + StartingBlock0) % UInt32Modulus == n + StartingBlock0 - UInt32Modulus;
  }

  // ---------------------------------------------------------------------------
  // Key order and the write plan

  predicate Increasing(s: seq<nat>) {
    forall i, j :: 0 <= i < j < |s| ==> s[i] < s[j]
  }

  /** Some least element exists in every non-empty key set. */
  ghost function SomeLeast(keys: set<nat>): (m: nat)
    requires keys != {}
    ensures m in keys && forall k | k in keys :: m <= k
    decreases |keys|
  {
    var x :| x in keys;
    if keys == {x} then x
    else
      var m := SomeLeast(keys - {x});
      assert forall k | k in keys :: k == x || k in keys - {x};
      if x < m then x else m
  }

  /** The least key of a non-empty key set. */
  function MinKey(keys: set<nat>): (m: nat)
    requires keys != {}
    ensures m in keys && forall k | k in keys :: m <= k
  {
    assert SomeLeast(keys) in keys;
    var m :| m in keys && forall k | k in keys :: m <= k;
    m
  }

  /** The keys of the map in ascending order, as QMap::keys() lists them. */
  function SortedKeys(keys: set<nat>): (r: seq<nat>)
    ensures |r| == |keys|
    ensures forall i :: 0 <= i < |r| ==> r[i] in keys
    decreases |keys|
  {
    if keys == {} then []
    else
      var m := MinKey(keys);
      [m] + SortedKeys(keys - {m})
  }

  /** Every key is listed exactly once, in ascending order. */
  lemma SortedKeysOrdered(keys: set<nat>)
    ensures var r := SortedKeys(keys);
      Increasing(r) && forall k | k in keys :: k in r
  {
    SortedKeysIncreasing(keys);
    SortedKeysComplete(keys);
  }

  lemma {:induction false} SortedKeysIncreasing(keys: set<nat>)
    ensures Increasing(SortedKeys(keys))
    decreases |keys|
  {
    if keys != {} {
      var m := MinKey(keys);
      SortedKeysIncreasing(keys - {m});
      var rest := SortedKeys(keys - {m});
      assert forall i :: 0 <= i < |rest| ==> m < rest[i];
    }
  }

  lemma {:induction false} SortedKeysComplete(keys: set<nat>)
    ensures forall k | k in keys :: k in SortedKeys(keys)
    decreases |keys|
  {
    if keys != {} {
      var m := MinKey(keys);
      SortedKeysComplete(keys - {m});
      assert forall k | k in keys :: k == m || k in keys - {m};
    }
  }

  /** The position of the next key to send from position `i`: the laser-mode key is passed over without the capability. */
  function NextWrite(keys: seq<nat>, i: nat, laser: bool): (j: nat)
    ensures i <= j
    ensures i < |keys| ==> j <= |keys|
    decreases |keys| - i
  {
    if i >= |keys| then i
    else if keys[i] == LaserModeKey && !laser then NextWrite(keys, i + 1, laser)
    else i
  }

  /**
   * Only the laser-mode key is ever passed over, only without the capability,
   * and with distinct keys at most one position is skipped.
   */
  lemma {:induction false} NextWriteSkipsOnlyLaser(keys: seq<nat>, i: nat, laser: bool)
    requires Increasing(keys)
    ensures var j := NextWrite(keys, i, laser);
      && (forall m | i <= m < j && m < |keys| :: keys[m] == LaserModeKey && !laser)
      && (j < |keys| ==> keys[j] != LaserModeKey || laser)
      && j <= i + 1
    decreases |keys| - i
  {
    if i < |keys| && keys[i] == LaserModeKey && !laser {
      NextWriteSkipsOnlyLaser(keys, i + 1, laser);
      if i + 1 < |keys| {
        assert keys[i] < keys[i + 1];
      }
    }
  }

  /** The keys still to be sent from position `i`, in order. */
  function Plan(keys: seq<nat>, i: nat, laser: bool): seq<nat>
    decreases |keys| - i
  {
    if i >= |keys| then []
    else if keys[i] == LaserModeKey && !laser then Plan(keys, i + 1, laser)
    else [keys[i]] + Plan(keys, i + 1, laser)
  }

  /** One write step sends the head of the plan and leaves the rest of it; at the end the plan is empty. */
  lemma {:induction false} PlanStep(keys: seq<nat>, i: nat, laser: bool)
    ensures var j := NextWrite(keys, i, laser);
      if j < |keys| then Plan(keys, i, laser) == [keys[j]] + Plan(keys, j + 1, laser)
      else Plan(keys, i, laser) == []
    decreases |keys| - i
  {
    if i < |keys| && keys[i] == LaserModeKey && !laser {
      PlanStep(keys, i + 1, laser);
    }
  }

  /** The plan from `i` holds exactly the keys from `i` on, the laser-mode key only with the capability, in ascending order. */
  lemma {:induction false} PlanContents(keys: seq<nat>, i: nat, laser: bool)
    requires Increasing(keys) && i <= |keys|
    ensures var p := Plan(keys, i, laser);
      && Increasing(p)
      && (forall k | k in p :: k in keys[i..] && (k != LaserModeKey || laser))
      && (forall k | k in keys[i..] && (k != LaserModeKey || laser) :: k in p)
      && (forall k | k in p :: i < |keys| && keys[i] <= k)
    decreases |keys| - i
  {
    if i < |keys| {
      PlanContents(keys, i + 1, laser);
      var rest := Plan(keys, i + 1, laser);
      var p := Plan(keys, i, laser);
      assert keys[i..] == [keys[i]] + keys[i + 1..];
      forall k | k in rest
        ensures k in keys[i..] && keys[i] < k
      {
        assert i + 1 < |keys| && keys[i] < keys[i + 1];
      }
      if keys[i] == LaserModeKey && !laser {
        assert p == rest;
      } else {
        assert p == [keys[i]] + rest;
        forall a, b | 0 <= a < b < |p|
          ensures p[a] < p[b]
        {
          assert p[b] == rest[b - 1];
          if a > 0 {
            assert p[a] == rest[a - 1];
          } else {
            assert rest[b - 1] in rest;
          }
        }
      }
    }
  }

  /** Starting from the first key, the sequence sends every stored key once in ascending order, the laser-mode key only with the capability. */
  lemma WholePlan(config: map<nat, string>, laser: bool)
    ensures var p := Plan(SortedKeys(config.Keys), 0, laser);
      && Increasing(p)
      && (forall k | k in p :: k in config && (k != LaserModeKey || laser))
      && (forall k | k in config && (k != LaserModeKey || laser) :: k in p)
  {
    var keys := SortedKeys(config.Keys);
    SortedKeysOrdered(config.Keys);
    PlanContents(keys, 0, laser);
    assert keys[0..] == keys;
  }
}
