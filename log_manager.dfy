/** The block log: one line per generated or replaced block, appended to a
    file per day under `logs/`, switched on and off by the `log` setting.
    The clock is a parameter (the formatted date and time of the call). */
module Logging {
  import opened Common
  import opened Yaml
  import opened Items

  const IaPrefix: string := "IA:"

  /** Java's `s.replace("_", " ")`. */
  function Spaced(s: string): (r: string)
    ensures |r| == |s|
    ensures forall i :: 0 <= i < |r| ==> r[i] != '_'
    ensures forall i :: 0 <= i < |r| ==> r[i] == (if s[i] == '_' then ' ' else s[i])
  {
    ReplaceChar(s, '_', ' ')
  }

  /** `formatBlockName(blockType)`: an ItemsAdder id ("IA:" prefix, case-
      sensitive) loses the prefix and keeps its case; any other type is
      lower-cased. Either way underscores become spaces. */
  function FormatBlockName(blockType: string): (r: string)
    ensures StartsWith(blockType, IaPrefix) ==> |r| == |blockType| - 3
    ensures StartsWith(blockType, IaPrefix) ==>
      forall i :: 0 <= i < |r| ==> r[i] == (if blockType[i + 3] == '_' then ' ' else blockType[i + 3])
    ensures !StartsWith(blockType, IaPrefix) ==> |r| == |blockType|
    ensures !StartsWith(blockType, IaPrefix) ==>
      forall i :: 0 <= i < |r| ==> r[i] == (if blockType[i] == '_' then ' ' else LowerChar(blockType[i]))
    ensures forall i :: 0 <= i < |r| ==> r[i] != '_'
  {
    if StartsWith(blockType, IaPrefix) then Spaced(blockType[3..])
    else Spaced(ToLower(blockType))
  }

  /** The name `logBlockGeneration` prints for a material. */
  function MaterialName(block: Material): string {
    Spaced(ToLower(block))
  }

  /** The prefix test is case-sensitive: a lower-case "ia:" id is treated
      as a material name and keeps its prefix, lower-cased. */
  lemma LowerIaPrefixIsKept(rest: string)
    ensures FormatBlockName("ia:" + rest)[..3] == "ia:"
    ensures |FormatBlockName("ia:" + rest)| == |rest| + 3
  {
    var t := "ia:" + rest;
    assert !StartsWith(t, IaPrefix) by { assert t[0] == 'i' != IaPrefix[0]; }
    var r := FormatBlockName(t);
    assert r[0] == 'i' && r[1] == 'a' && r[2] == ':';
  }

  /** An ItemsAdder id keeps its case: only the prefix goes and underscores
      become spaces. */
  lemma IaIdKeepsCase(id: string)
    ensures FormatBlockName(IaPrefix + id) == Spaced(id)
  {
    var t := IaPrefix + id;
    assert StartsWith(t, IaPrefix);
    assert t[3..] == id;
  }

  /** For a vanilla material both log methods print the same name. */
  lemma MaterialNamesAgree(block: Material)
    requires !StartsWith(block, IaPrefix)
    ensures FormatBlockName(block) == MaterialName(block)
  {
  }

  /** Formatting a vanilla name twice changes nothing: the result is lower
      case, has no underscores and cannot carry the upper-case prefix. */
  lemma FormatBlockNameIdempotent(blockType: string)
    requires !StartsWith(blockType, IaPrefix)
    ensures FormatBlockName(FormatBlockName(blockType)) == FormatBlockName(blockType)
  {
    var r := FormatBlockName(blockType);
    if |r| >= 3 {
      assert r[0] != 'I' by {
        assert r[0] == (if blockType[0] == '_' then ' ' else LowerChar(blockType[0]));
      }
      assert r[..3] != IaPrefix by { assert r[..3][0] == r[0]; }
    }
    assert !StartsWith(r, IaPrefix);
    var rr := FormatBlockName(r);
    assert forall i :: 0 <= i < |rr| ==> rr[i] == r[i] by {
      forall i | 0 <= i < |rr|
        ensures rr[i] == r[i]
      {
        var c := if blockType[i] == '_' then ' ' else LowerChar(blockType[i]);
        assert r[i] == c;
        assert LowerChar(c) == c;
      }
    }
  }

  /** `String.format("(%d, %d, %d)", x, y, z)`. */
  function LocationString(x: int, y: int, z: int): string {
    "(" + IntToString(x) + ", " + IntToString(y) + ", " + IntToString(z) + ")"
  }

  /** The line written for a generated block. */
  function GenerationLine(time: string, player: string, world: string, x: int, y: int, z: int,
                          block: Material): string
  {
    "[" + time + "] " + player + " \U{5728}\U{4E16}\U{754C} " + world + " \U{7684}\U{4F4D}\U{7F6E} "
      + LocationString(x, y, z) + " \U{751F}\U{6210}\U{65B9}\U{5757}\U{4E3A} " + MaterialName(block)
  }

  /** The line written for a replaced block. */
  function ReplacementLine(time: string, player: string, world: string, x: int, y: int, z: int,
                           blockType: string): string
  {
    "[" + time + "] " + player + " \U{5728}\U{4E16}\U{754C} " + world + " \U{7684}\U{4F4D}\U{7F6E} "
      + LocationString(x, y, z) + " \U{66FF}\U{6362}\U{65B9}\U{5757}\U{4E3A} " + FormatBlockName(blockType)
  }

  /** The file a day's lines go to. */
  function LogFile(date: string): string {
    date + ".log"
  }

  class LogManager {
    var enabled: bool
    /** The `logs` directory: each file's lines, in the order written. */
    var files: map<string, seq<string>>

    /** Logging is on unless the configuration's `log` says otherwise. */
    constructor (config: Section, existing: map<string, seq<string>>)
      ensures enabled == GetBoolean(config, "log", true)
      ensures files == existing
    {
      enabled := GetBoolean(config, "log", true);
      files := existing;
    }

    /** Appends one line to the day's file, creating it when missing. */
    method Append(date: string, line: string)
      modifies this
      ensures enabled == old(enabled)
      ensures files == old(files)[LogFile(date) :=
        (if LogFile(date) in old(files) then old(files)[LogFile(date)] else []) + [line]]
    {
      var name := LogFile(date);
      var lines := if name in files then files[name] else [];
      files := files[name := lines + [line]];
    }

    /** `logBlockGeneration(player, world, location, block)`. */
    method LogBlockGeneration(date: string, time: string, player: string, world: string,
                              x: int, y: int, z: int, block: Material)
      modifies this
      ensures enabled == old(enabled)
      ensures !enabled ==> files == old(files)
      ensures enabled ==> files == old(files)[LogFile(date) :=
        (if LogFile(date) in old(files) then old(files)[LogFile(date)] else [])
          + [GenerationLine(time, player, world, x, y, z, block)]]
    {
      if !enabled {
        return;
      }
      var locationStr := LocationString(x, y, z);
      var blockName := MaterialName(block);
      var logMessage := "[" + time + "] " + player + " \U{5728}\U{4E16}\U{754C} " + world
        + " \U{7684}\U{4F4D}\U{7F6E} " + locationStr + " \U{751F}\U{6210}\U{65B9}\U{5757}\U{4E3A} " + blockName;
      Append(date, logMessage);
    }

    /** `logBlockReplacement(player, world, location, blockType)`. */
    method LogBlockReplacement(date: string, time: string, player: string, world: string,
                               x: int, y: int, z: int, blockType: string)
      modifies this
      ensures enabled == old(enabled)
      ensures !enabled ==> files == old(files)
      ensures enabled ==> files == old(files)[LogFile(date) :=
        (if LogFile(date) in old(files) then old(files)[LogFile(date)] else [])
          + [ReplacementLine(time, player, world, x, y, z, blockType)]]
    {
      if !enabled {
        return;
      }
      var locationStr := LocationString(x, y, z);
      var blockName := FormatBlockName(blockType);
      var logMessage := "[" + time + "] " + player + " \U{5728}\U{4E16}\U{754C} " + world
        + " \U{7684}\U{4F4D}\U{7F6E} " + locationStr + " \U{66FF}\U{6362}\U{65B9}\U{5757}\U{4E3A} " + blockName;
      Append(date, logMessage);
    }

    /** `setEnabled(enabled)`. */
    method SetEnabled(on: bool)
      modifies this
      ensures enabled == on && files == old(files)
    {
      enabled := on;
    }
  }
}
