/** The command line of the client: how one typed line becomes a request to the
    server, an error message or a redraw. */
module Cli {

  /** The characters that `String.prototype.trim` strips and that `/\s+/` matches. */
  predicate IsSpace(c: char)
  {
    || c == ' ' || c == '\t' || c == '\n' || c == '\r' || c == '\U{B}' || c == '\U{C}'
    || c == '\U{A0}' || c == '\U{1680}' || ('\U{2000}' <= c <= '\U{200A}')
    || c == '\U{2028}' || c == '\U{2029}' || c == '\U{202F}' || c == '\U{205F}'
    || c == '\U{3000}' || c == '\U{FEFF}'
  }

  predicate SpaceFree(w: string)
  {
    forall i :: 0 <= i < |w| ==> !IsSpace(w[i])
  }

  predicate AllSpace(w: string)
  {
    forall i :: 0 <= i < |w| ==> IsSpace(w[i])
  }

  predicate Trimmed(s: string)
  {
    s == [] || (!IsSpace(s[0]) && !IsSpace(s[|s| - 1]))
  }

  /** The number of whitespace characters `s` starts with. */
  function LeadingSpace(s: string): (n: nat)
    ensures n <= |s| && forall i :: 0 <= i < n ==> IsSpace(s[i])
    ensures n < |s| ==> !IsSpace(s[n])
    decreases |s|
  {
    if s != [] && IsSpace(s[0]) then 1 + LeadingSpace(s[1..]) else 0
  }

  /** The number of whitespace characters `s` ends with. */
  function TrailingSpace(s: string): (n: nat)
    ensures n <= |s| && forall i :: |s| - n <= i < |s| ==> IsSpace(s[i])
    ensures n < |s| ==> !IsSpace(s[|s| - n - 1])
    decreases |s|
  {
    if s != [] && IsSpace(s[|s| - 1]) then 1 + TrailingSpace(s[..|s| - 1]) else 0
  }

  /** `input.trim()`: the part of `s` between its leading and its trailing whitespace. */
  function Trim(s: string): (r: string)
    ensures Trimmed(r)
    ensures |r| <= |s|
    ensures SpaceFree(s) ==> r == s
  {
    var a := LeadingSpace(s);
    if a == |s| then
      []
    else
      var b := |s| - TrailingSpace(s);
      assert SpaceFree(s) ==> a == 0 && b == |s|;
      s[a..b]
  }

  /** `trim` returns a middle part of the line, and everything it drops before
      and after is whitespace. With `Trimmed`, this fixes the result. */
  lemma TrimIsMiddle(s: string)
    ensures exists k :: 0 <= k <= |s| - |Trim(s)| && Trim(s) == s[k..k + |Trim(s)|]
                        && AllSpace(s[..k]) && AllSpace(s[k + |Trim(s)|..])
  {
    var a := LeadingSpace(s);
    if a == |s| {
      assert s[..a] == s && s[a..] == [];
      assert Trim(s) == s[a..a];
    } else {
      var b := |s| - TrailingSpace(s);
      assert Trim(s) == s[a..b];
      assert AllSpace(s[..a]);
      assert forall i :: 0 <= i < |s| - b ==> s[b..][i] == s[b + i];
      assert AllSpace(s[b..]);
    }
  }

  /** A line trims to nothing exactly when it is all whitespace. */
  lemma TrimEmpty(s: string)
    ensures Trim(s) == [] <==> AllSpace(s)
  {
    var a := LeadingSpace(s);
    if a == |s| {
      assert s[..a] == s;
    }
  }

  /** The length of the longest whitespace-free prefix. */
  function FirstSpace(s: string): (i: nat)
    ensures i <= |s| && SpaceFree(s[..i])
    ensures i < |s| ==> IsSpace(s[i])
    decreases |s|
  {
    if s == [] || IsSpace(s[0]) then 0 else 1 + FirstSpace(s[1..])
  }

  /** Where the piece after the whitespace run at `FirstSpace(s)` starts. */
  function NextPiece(s: string): (j: nat)
    requires FirstSpace(s) < |s|
    ensures FirstSpace(s) < j <= |s| && forall k :: FirstSpace(s) <= k < j ==> IsSpace(s[k])
    ensures j < |s| ==> !IsSpace(s[j])
  {
    var i := FirstSpace(s);
    var t := s[i..];
    var n := LeadingSpace(t);
    assert t[0] == s[i];
    forall k | i <= k < i + n ensures IsSpace(s[k]) {
      assert s[k] == t[k - i];
    }
    assert i + n < |s| ==> s[i + n] == t[n];
    i + n
  }

  /** `s.split(/\s+/)`: the pieces between maximal runs of whitespace. As in
      JavaScript, the empty string splits into one empty piece. */
  function SplitWs(s: string): (parts: seq<string>)
    ensures |parts| >= 1
    ensures forall k :: 0 <= k < |parts| ==> SpaceFree(parts[k])
    ensures parts[0] == s[..FirstSpace(s)]
    ensures |parts| > 1 <==> FirstSpace(s) < |s|
    ensures forall k :: 0 < k < |parts| - 1 ==> parts[k] != []
    ensures Trimmed(s) && s != [] ==> forall k :: 0 <= k < |parts| ==> parts[k] != []
    decreases |s|
  {
    var i := FirstSpace(s);
    if i == |s| then
      [s]
    else
      var j := NextPiece(s);
      var rest := SplitWs(s[j..]);
      assert j < |s| ==> s[j..][0] == s[j] && FirstSpace(s[j..]) >= 1 && rest[0] != [];
      [s[..i]] + rest
  }

  lemma SpaceRun(s: string, i: nat, j: nat)
    requires i <= j <= |s| && forall k :: i <= k < j ==> IsSpace(s[k])
    ensures AllSpace(s[i..j])
  {
    forall k | 0 <= k < j - i ensures IsSpace(s[i..j][k]) {
      assert s[i..j][k] == s[i + k];
    }
  }

  /** The whitespace runs that `split` drops, in order. */
  function Gaps(s: string): (gaps: seq<string>)
    ensures |gaps| == |SplitWs(s)| - 1
    ensures forall k :: 0 <= k < |gaps| ==> gaps[k] != [] && AllSpace(gaps[k])
    decreases |s|
  {
    var i := FirstSpace(s);
    if i == |s| then
      []
    else
      var j := NextPiece(s);
      SpaceRun(s, i, j);
      var gaps := [s[i..j]] + Gaps(s[j..]);
      assert gaps[0] == s[i..j] && gaps[1..] == Gaps(s[j..]);
      gaps
  }

  /** The pieces interleaved with the separators between them. */
  function Join(parts: seq<string>, gaps: seq<string>): string
    requires |parts| == |gaps| + 1
    decreases |gaps|
  {
    if gaps == [] then parts[0] else parts[0] + gaps[0] + Join(parts[1..], gaps[1..])
  }

  /** A string is its part before `i`, its part from `i` to `j`, and the rest. */
  lemma Glue(s: string, i: nat, j: nat)
    requires i <= j <= |s|
    ensures s[..i] + s[i..j] + s[j..] == s
  {
  }

  /** Splitting loses nothing: the pieces joined by the dropped whitespace runs
      give back the string. With `SplitWs`'s own contract (whitespace-free pieces)
      and `Gaps`'s (non-empty whitespace runs), this fixes every piece. */
  lemma {:induction false} SplitRebuilds(s: string)
    ensures Join(SplitWs(s), Gaps(s)) == s
    decreases |s|
  {
    var i := FirstSpace(s);
    if i < |s| {
      var j := NextPiece(s);
      SplitRebuilds(s[j..]);
      var parts := SplitWs(s);
      var gaps := Gaps(s);
      assert parts[0] == s[..i] && parts[1..] == SplitWs(s[j..]);
      assert gaps[0] == s[i..j] && gaps[1..] == Gaps(s[j..]);
      assert Join(parts, gaps) == s[..i] + s[i..j] + s[j..];
      Glue(s, i, j);
    } else {
      assert SplitWs(s) == [s] && Gaps(s) == [];
    }
  }

  /** The words of a typed line: `input.trim().split(/\s+/)`. A line with a
      non-blank character gives non-empty words only; a blank line gives [""]. */
  function Words(line: string): (words: seq<string>)
    ensures |words| >= 1 && forall k :: 0 <= k < |words| ==> SpaceFree(words[k])
    ensures !AllSpace(line) ==> forall k :: 0 <= k < |words| ==> words[k] != []
    ensures AllSpace(line) ==> words == [""]
  {
    TrimEmpty(line);
    SplitWs(Trim(line))
  }

  /** `parts[0]`: the first word, or "" for a blank line. */
  function Command(line: string): (w: string)
    ensures SpaceFree(w)
    ensures w == [] <==> AllSpace(line)
  {
    TrimEmpty(line);
    Words(line)[0]
  }

  /** `toUpperCase` on the letters a to z; every other character is kept. */
  function UpperChar(c: char): char
  {
    if 'a' <= c <= 'z' then (c as int - 32) as char else c
  }

  function Upper(s: string): (r: string)
    ensures |r| == |s|
    ensures forall i :: 0 <= i < |r| ==> !('a' <= r[i] <= 'z')
    ensures forall i :: 0 <= i < |s| && 'a' <= s[i] <= 'z' ==> r[i] as int == s[i] as int - 32
    ensures forall i :: 0 <= i < |s| && !('a' <= s[i] <= 'z') ==> r[i] == s[i]
  {
    seq(|s|, i requires 0 <= i < |s| => UpperChar(s[i]))
  }

  /** The only words that upper-case to "A" or "B" are the letter in either case. */
  lemma UpperIsAOrB(w: string)
    ensures Upper(w) == "A" <==> w == "a" || w == "A"
    ensures Upper(w) == "B" <==> w == "b" || w == "B"
  {
    if |w| == 1 {
      assert Upper(w)[0] == UpperChar(w[0]);
    }
  }

  /** What the client asks the server to do. */
  datatype Request = SelectOption(option: string) | MarkDone | LockSession | ResetSession

  /** What the line handler does with one line. */
  datatype Reaction =
    | Send(request: Request)
    | RefuseLocked           // error message, nothing sent, no redraw
    | InvalidSelection       // error message and a redraw
    | ShowHelp
    | ShowState
    | Rerender
    | UnknownCommand(command: string)   // error message and a redraw

  /** The line handler's decision for `line` when the local record says `locked`. */
  function Decide(line: string, locked: bool): (r: Reaction)
    ensures r.Send? && r.request.SelectOption? ==> r.request.option in {"A", "B"}
    ensures Command(line) == "done" ==> r == Send(MarkDone)
    ensures Command(line) == "lock" ==> r == Send(LockSession)
    ensures Command(line) == "reset" ==> r == Send(ResetSession)
    ensures Command(line) == "help" ==> r == ShowHelp
    ensures Command(line) == "state" ==> r == ShowState
    ensures Command(line) == "select" ==>
      && (|Words(line)| > 1 && Words(line)[1] in {"a", "A"} ==> r == Send(SelectOption("A")))
      && (|Words(line)| > 1 && Words(line)[1] in {"b", "B"} ==> r == Send(SelectOption("B")))
      && (|Words(line)| == 1 || Words(line)[1] !in {"a", "A", "b", "B"} ==> r == InvalidSelection)
    ensures AllSpace(line) ==> r == Rerender
    ensures r.UnknownCommand? <==>
      !AllSpace(line) && Command(line) !in {"a", "b", "select", "done", "lock", "reset", "help", "state"}
    ensures r.UnknownCommand? ==> r.command == Command(line) && r.command != "" && SpaceFree(r.command)
  {
    var parts := Words(line);
    var command := parts[0];
    if command == "a" || command == "b" then
      UpperIsAOrB(command);
      if locked then RefuseLocked else Send(SelectOption(Upper(command)))
    else if command == "select" then
      UpperIsAOrB(if |parts| > 1 then parts[1] else "");
      var option := if |parts| > 1 then Upper(parts[1]) else "";
      if option == "A" || option == "B" then Send(SelectOption(option)) else InvalidSelection
    else if command == "done" then Send(MarkDone)
    else if command == "lock" then Send(LockSession)
    else if command == "reset" then Send(ResetSession)
    else if command == "help" then ShowHelp
    else if command == "state" then ShowState
    else if command == "" then Rerender
    else UnknownCommand(command)
  }

  /** `a` and `b` consult the lock: refused when locked, sent upper-cased otherwise. */
  lemma LetterRespectsLock(line: string, locked: bool)
    requires Command(line) == "a" || Command(line) == "b"
    ensures locked ==> Decide(line, locked) == RefuseLocked
    ensures !locked ==>
      Decide(line, locked) == Send(SelectOption(if Command(line) == "a" then "A" else "B"))
  {
    UpperIsAOrB(Command(line));
  }

  /** `select X` does not consult the lock, and sends exactly when X is a or b in either case. */
  lemma SelectIgnoresLock(line: string)
    requires Command(line) == "select"
    ensures Decide(line, true) == Decide(line, false)
    ensures Decide(line, false).Send? <==>
      |Words(line)| > 1 && Words(line)[1] in {"a", "A", "b", "B"}
  {
    if |Words(line)| > 1 {
      UpperIsAOrB(Words(line)[1]);
    }
  }

  /** A locked client can still send a selection, but only through `select`. */
  lemma LockedSelectOnlyByCommand(line: string)
    ensures Decide(line, true).Send? && Decide(line, true).request.SelectOption? ==>
      Command(line) == "select"
  {
  }

  /** The words that send something are exactly a, b (unlocked), select with a
      valid option, done, lock and reset. */
  lemma SendingCommands(line: string, locked: bool)
    ensures Decide(line, locked).Send? <==>
      || (Command(line) in {"a", "b"} && !locked)
      || (Command(line) == "select" && |Words(line)| > 1 && Words(line)[1] in {"a", "A", "b", "B"})
      || Command(line) in {"done", "lock", "reset"}
  {
    if Command(line) == "select" {
      SelectIgnoresLock(line);
    }
  }
}
