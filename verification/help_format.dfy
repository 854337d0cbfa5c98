/** The help formatter that hides the first line of the sub-command listing. */
module HelpFormat {

  /** The index of the first newline of `s`. */
  function FirstNewline(s: string): (k: nat)
    requires '\n' in s
    ensures k < |s| && s[k] == '\n'
    ensures '\n' !in s[..k]
    decreases |s|
  {
    if s[0] == '\n' then 0
    else
      assert '\n' in s[1..];
      assert s[1..][..FirstNewline(s[1..])] == s[1..1 + FirstNewline(s[1..])];
      1 + FirstNewline(s[1..])
  }

  /** `s.split("\n")`: the pieces between newlines, at least one. */
  function Split(s: string): (parts: seq<string>)
    ensures |parts| >= 1
    ensures forall i :: 0 <= i < |parts| ==> '\n' !in parts[i]
    decreases |s|
  {
    if '\n' in s then
      var k := FirstNewline(s);
      [s[..k]] + Split(s[k + 1..])
    else [s]
  }

  /** `"\n".join(parts)`. */
  function Join(parts: seq<string>): (s: string)
    ensures |parts| >= 1 ==> |s| >= |parts[0]| && s[..|parts[0]|] == parts[0]
    ensures |parts| >= 2 ==> |s| > |parts[0]| && s[|parts[0]|] == '\n'
    ensures |parts| == 1 ==> s == parts[0]
    decreases |parts|
  {
    if |parts| == 0 then ""
    else if |parts| == 1 then parts[0]
    else parts[0] + "\n" + Join(parts[1..])
  }

  /** Joining the pieces of a split restores the string. */
  lemma {:induction false} JoinSplit(s: string)
    ensures Join(Split(s)) == s
    decreases |s|
  {
    if '\n' in s {
      var k := FirstNewline(s);
      JoinSplit(s[k + 1..]);
      var rest := Split(s[k + 1..]);
      assert ([s[..k]] + rest)[1..] == rest;
      assert s == s[..k] + "\n" + s[k + 1..];
    }
  }

  /** Splitting a join of newline-free pieces gives the pieces back. */
  lemma {:induction false} SplitJoin(parts: seq<string>)
    requires |parts| >= 1
    requires forall i :: 0 <= i < |parts| ==> '\n' !in parts[i]
    ensures Split(Join(parts)) == parts
    decreases |parts|
  {
    if |parts| > 1 {
      var s := Join(parts);
      var p := parts[0];
      var tail := Join(parts[1..]);
      assert s == p + "\n" + tail;
      assert s[|p|] == '\n';
      var k := FirstNewline(s);
      var j := |p|;
      assert k == j;
      assert s[..k] == p;
      assert s[k + 1..] == tail;
      SplitJoin(parts[1..]);
    }
  }

  /** `"\n".join(parts.split("\n")[1:])`: everything after the first newline,
      or "" when there is none. */
  function DropFirstLine(s: string): (r: string)
    ensures '\n' in s ==> s == s[..FirstNewline(s)] + "\n" + r
    ensures '\n' !in s ==> r == ""
  {
    if '\n' in s then
      var k := FirstNewline(s);
      var rest := Split(s[k + 1..]);
      assert Split(s)[1..] == rest;
      JoinSplit(s[k + 1..]);
      Join(rest)
    else
      Join(Split(s)[1..])
  }

  /** `CustomHelpFormatter._format_action`: the listing line is dropped only for
      the sub-command action (`nargs == PARSER`). */
  function FormatAction(parts: string, isParser: bool): (r: string)
    ensures !isParser ==> r == parts
    ensures isParser && '\n' !in parts ==> r == ""
    ensures isParser && '\n' in parts ==>
      exists k :: 0 <= k < |parts| && '\n' !in parts[..k] && parts[k] == '\n' && r == parts[k + 1..]
  {
    if isParser then DropFirstLine(parts) else parts
  }
}
