/**
 * Newline-separated text: the `join('\n')` that turns the detail lines into
 * one detail text, and the split at newlines that reads it back.
 */
module Text {

  predicate NoNewline(s: string) {
    forall i :: 0 <= i < |s| ==> s[i] != '\n'
  }

  /** `lines.join('\n')`. */
  function Join(lines: seq<string>): (s: string)
    ensures lines == [] ==> s == ""
    ensures |lines| >= 1 ==> |lines[0]| <= |s| && s[..|lines[0]|] == lines[0]
  {
    if |lines| <= 1 then (if lines == [] then "" else lines[0])
    else lines[0] + "\n" + Join(lines[1..])
  }

  /** `s.split('\n')`: the pieces between newlines, always at least one. */
  function Split(s: string): (pieces: seq<string>)
    ensures |pieces| >= 1
  {
    if s == [] then [""]
    else
      var rest := Split(s[1..]);
      if s[0] == '\n' then [""] + rest else [[s[0]] + rest[0]] + rest[1..]
  }

  lemma {:induction false} SplitNoNewline(s: string)
    requires NoNewline(s)
    ensures Split(s) == [s]
  {
    if s != [] {
      SplitNoNewline(s[1..]);
      assert [s[0]] + s[1..] == s;
    }
  }

  lemma {:induction false} SplitAfterLine(line: string, tail: string)
    requires NoNewline(line)
    ensures Split(line + "\n" + tail) == [line] + Split(tail)
  {
    var s := line + "\n" + tail;
    if line == [] {
      assert s[1..] == tail;
    } else {
      assert s[1..] == line[1..] + "\n" + tail;
      SplitAfterLine(line[1..], tail);
      assert [s[0]] + line[1..] == line;
    }
  }

  /** Splitting the joined text at newlines gives the lines back. */
  lemma {:induction false} SplitJoin(lines: seq<string>)
    requires |lines| >= 1
    requires forall k :: 0 <= k < |lines| ==> NoNewline(lines[k])
    ensures Split(Join(lines)) == lines
  {
    if |lines| == 1 {
      SplitNoNewline(lines[0]);
    } else {
      SplitJoin(lines[1..]);
      SplitAfterLine(lines[0], Join(lines[1..]));
    }
  }

  lemma {:induction false} JoinLastChar(lines: seq<string>)
    requires |lines| >= 1 && lines[|lines| - 1] != ""
    ensures var s, last := Join(lines), lines[|lines| - 1];
      |s| >= 1 && s[|s| - 1] == last[|last| - 1]
  {
    if |lines| > 1 {
      JoinLastChar(lines[1..]);
    }
  }
}
