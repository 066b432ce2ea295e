/**
 * The classification `Grbl::parse` applies to every received line: the
 * prefixes are tried in a fixed order (banner, acknowledgement, error, alarm,
 * information, status, echo, setting) and the first one that matches decides
 * where the line goes.
 */
module Dispatch {
  import opened Text

  datatype LineKind =
    | BannerLine | AckLine | ErrorLine | AlarmLine | InfoLine
    | StatusLine | EchoLine | SettingLine | UnknownLine | EmptyLine

  /** The kind of a received line, by the first prefix that matches. */
  function Classify(line: string): LineKind {
    if StartsWith(line, "Grbl") then BannerLine
    else if StartsWith(line, "ok") then AckLine
    else if StartsWith(line, "error:") then ErrorLine
    else if StartsWith(line, "ALARM:") then AlarmLine
    else if StartsWith(line, "[") then InfoLine
    else if StartsWith(line, "<") then StatusLine
    else if StartsWith(line, ">") then EchoLine
    else if StartsWith(line, "$") then SettingLine
    else if line != "" then UnknownLine
    else EmptyLine
  }

  /** Every recognised prefix starts with its own character. */
  lemma FirstCharacter(line: string, prefix: string)
    requires |prefix| >= 1 && StartsWith(line, prefix)
    ensures |line| >= 1 && line[0] == prefix[0]
  {
    assert line[..|prefix|][0] == line[0];
  }

  /**
   * The prefixes begin with distinct characters, so the order of the tests
   * never matters: each kind is exactly the lines that carry its prefix.
   */
  lemma ClassifyByPrefix(line: string)
    ensures Classify(line) == BannerLine <==> StartsWith(line, "Grbl")
    ensures Classify(line) == AckLine <==> StartsWith(line, "ok")
    ensures Classify(line) == ErrorLine <==> StartsWith(line, "error:")
    ensures Classify(line) == AlarmLine <==> StartsWith(line, "ALARM:")
    ensures Classify(line) == InfoLine <==> StartsWith(line, "[")
    ensures Classify(line) == StatusLine <==> StartsWith(line, "<")
    ensures Classify(line) == EchoLine <==> StartsWith(line, ">")
    ensures Classify(line) == SettingLine <==> StartsWith(line, "$")
    ensures Classify(line) == EmptyLine <==> line == ""
  {
    if |line| >= 1 {
      var c := line[0];
      assert StartsWith(line, "Grbl") ==> c == 'G' by {
        if StartsWith(line, "Grbl") { FirstCharacter(line, "Grbl"); }
      }
      assert StartsWith(line, "ok") ==> c == 'o' by {
        if StartsWith(line, "ok") { FirstCharacter(line, "ok"); }
      }
      assert StartsWith(line, "error:") ==> c == 'e' by {
        if StartsWith(line, "error:") { FirstCharacter(line, "error:"); }
      }
      assert StartsWith(line, "ALARM:") ==> c == 'A' by {
        if StartsWith(line, "ALARM:") { FirstCharacter(line, "ALARM:"); }
      }
      assert StartsWith(line, "[") <==> c == '[' by {
        assert line[..1] == [c];
      }
      assert StartsWith(line, "<") <==> c == '<' by {
        assert line[..1] == [c];
      }
      assert StartsWith(line, ">") <==> c == '>' by {
        assert line[..1] == [c];
      }
      assert StartsWith(line, "$") <==> c == '$' by {
        assert line[..1] == [c];
      }
    }
  }
}
