/**
 * The line loop of readConfig in src/Main.cpp: every line of config.txt that
 * is neither empty nor a `#` comment is split at its first `=` into a key and
 * a value, and the pair is stored in a map, a later line overwriting an
 * earlier one with the same key. Reading the file is replaced by the
 * sequence of lines `std::getline` would return.
 */
module Config {
  import opened Wrappers

  /** The position of the first `=` in a line, if there is one. */
  function FirstEquals(line: string): (i: Option<nat>)
    ensures i.None? <==> '=' !in line
    ensures i.Some? ==> i.value < |line| && line[i.value] == '=' && '=' !in line[..i.value]
  {
    if |line| == 0 then None
    else if line[0] == '=' then Some(0)
    else match FirstEquals(line[1..])
      case None => None
      case Some(j) => assert line[..j + 1] == [line[0]] + line[1..][..j]; Some(j + 1)
  }

  /**
   * What one line contributes: nothing for an empty line, a comment, a line
   * without `=`, or a line whose first `=` ends it (the value extraction
   * then reads no character and fails); otherwise the text before the first
   * `=` as key and the whole remainder as value.
   */
  function ParseLine(line: string): Option<(string, string)>
  {
    if |line| == 0 || line[0] == '#' then None
    else match FirstEquals(line)
      case None => None
      case Some(i) => if i + 1 == |line| then None else Some((line[..i], line[i + 1..]))
  }

  /**
   * A line stores a pair exactly when it is not empty, is not a comment and
   * has an `=` before its last character; the key then holds no `=`, the
   * value is not empty, and key, `=` and value make up the whole line.
   */
  lemma ParseLineMeaning(line: string)
    ensures ParseLine(line).Some? <==>
      |line| > 0 && line[0] != '#' && exists i :: 0 <= i < |line| - 1 && line[i] == '='
    ensures ParseLine(line).Some? ==>
      var (key, value) := ParseLine(line).value;
      key + "=" + value == line && '=' !in key && |value| > 0
  {
  }

  /** True when `line` stores a value under `key`. */
  predicate Records(line: string, key: string)
  {
    ParseLine(line).Some? && ParseLine(line).value.0 == key
  }

  /** The map the loop has built after reading `lines`, in order. */
  function ParseLines(lines: seq<string>): map<string, string>
  {
    if |lines| == 0 then map[]
    else
      var config := ParseLines(lines[..|lines| - 1]);
      match ParseLine(lines[|lines| - 1])
      case None => config
      case Some(entry) => config[entry.0 := entry.1]
  }

  /** readConfig's loop over the lines of the file. */
  method ReadConfig(lines: seq<string>) returns (config: map<string, string>)
    ensures config == ParseLines(lines)
  {
    config := map[];
    var i := 0;
    while i < |lines|
      invariant 0 <= i <= |lines|
      invariant config == ParseLines(lines[..i])
    {
      var line := lines[i];
      assert lines[..i + 1][..i] == lines[..i];
      if |line| == 0 || line[0] == '#' {
        i := i + 1;
        continue;
      }
      var eq := FirstEquals(line);
      if eq.Some? && eq.value + 1 < |line| {
        config := config[line[..eq.value] := line[eq.value + 1..]];
      }
      i := i + 1;
    }
    assert lines[..|lines|] == lines;
  }

  /** A key is present exactly when some line records it. */
  lemma {:induction false} KeyPresent(lines: seq<string>, key: string)
    ensures key in ParseLines(lines) <==> exists i :: 0 <= i < |lines| && Records(lines[i], key)
  {
    if |lines| > 0 {
      var n := |lines| - 1;
      KeyPresent(lines[..n], key);
      assert forall i :: 0 <= i < n ==> lines[..n][i] == lines[i];
    }
  }

  /** A last line that does not record `key` leaves that key as the earlier lines set it. */
  lemma LastLineKeepsKey(lines: seq<string>, key: string)
    requires |lines| > 0 && !Records(lines[|lines| - 1], key)
    ensures key in ParseLines(lines) <==> key in ParseLines(lines[..|lines| - 1])
    ensures key in ParseLines(lines) ==> ParseLines(lines)[key] == ParseLines(lines[..|lines| - 1])[key]
  {
  }

  /** A present key holds the value stored by the last line that records it. */
  lemma {:induction false} LastLineWins(lines: seq<string>, key: string)
    requires key in ParseLines(lines)
    ensures exists i :: 0 <= i < |lines| && ParseLine(lines[i]) == Some((key, ParseLines(lines)[key]))
                      && (forall j :: i < j < |lines| ==> !Records(lines[j], key))
  {
    var n := |lines| - 1;
    var init := lines[..n];
    var config := ParseLines(lines);
    if Records(lines[n], key) {
      assert ParseLine(lines[n]) == Some((key, config[key]));
    } else {
      LastLineKeepsKey(lines, key);
      LastLineWins(init, key);
      var i :| 0 <= i < n && ParseLine(init[i]) == Some((key, ParseLines(init)[key]))
        && forall j :: i < j < n ==> !Records(init[j], key);
      assert init[i] == lines[i];
      assert forall j :: i < j < n ==> init[j] == lines[j];
    }
  }

  /** A line that records nothing can be dropped without changing the result. */
  lemma {:induction false} SkippedLineIgnored(before: seq<string>, line: string, after: seq<string>)
    requires ParseLine(line).None?
    ensures ParseLines(before + [line] + after) == ParseLines(before + after)
  {
    if |after| == 0 {
      assert (before + [line] + after)[..|before|] == before;
      assert before + after == before;
    } else {
      var n := |after| - 1;
      SkippedLineIgnored(before, line, after[..n]);
      assert (before + [line] + after)[..|before| + 1 + n] == before + [line] + after[..n];
      assert (before + after)[..|before| + n] == before + after[..n];
    }
  }

  /** Empty lines and lines starting with `#` record nothing. */
  lemma CommentsRecordNothing(line: string)
    requires |line| == 0 || line[0] == '#'
    ensures ParseLine(line).None?
  {
  }

  /** The first `=` of a line is the one with no `=` before it. */
  lemma FirstEqualsAt(line: string, i: nat)
    requires i < |line| && line[i] == '=' && '=' !in line[..i]
    ensures FirstEquals(line) == Some(i)
  {
  }

  /**
   * Conversely, a line made of a key without `=`, an `=` and a non-empty
   * value records exactly that pair, unless the key makes it a comment.
   */
  lemma SplitAt(line: string, key: string, value: string)
    requires line == key + "=" + value && '=' !in key && |value| > 0 && (|key| == 0 || key[0] != '#')
    ensures ParseLine(line) == Some((key, value))
  {
    assert line[..|key|] == key;
    FirstEqualsAt(line, |key|);
    assert line[|key| + 1..] == value;
  }
}
