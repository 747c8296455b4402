/** Small helpers shared by the other modules: optional values and the string operations the program uses. */
module Basics {

  datatype Option<+T> = None | Some(value: T)

  function Min(a: int, b: int): int {
    if a <= b then a else b
  }

  function Max(a: int, b: int): int {
    if a >= b then a else b
  }

  function Bit(b: bool): nat {
    if b then 1 else 0
  }

  predicate NoRepeats(s: seq<string>) {
    forall i, j | 0 <= i < j < |s| :: s[i] != s[j]
  }

  // White space as the label pattern and the trimming of checksums see it.
  predicate IsSpace(c: char) {
    c == ' ' || c == '\t' || c == '\n' || c == '\r' || c == '\U{000B}' || c == '\U{000C}'
  }

  predicate AllSpace(s: string) {
    forall i | 0 <= i < |s| :: IsSpace(s[i])
  }

  // `s` without its leading and trailing white space.
  function Trim(s: string): string {
    if s == "" then ""
    else if IsSpace(s[0]) then Trim(s[1..])
    else if IsSpace(s[|s| - 1]) then Trim(s[..|s| - 1])
    else s
  }

  // Exactly the text between the white space is left.
  lemma {:induction false} TrimIs(before: string, core: string, after: string)
    requires AllSpace(before) && AllSpace(after)
    requires core != "" && !IsSpace(core[0]) && !IsSpace(core[|core| - 1])
    ensures Trim(before + core + after) == core
    decreases |before| + |after|
  {
    var s := before + core + after;
    if before != "" {
      assert s[1..] == before[1..] + core + after;
      TrimIs(before[1..], core, after);
    } else if after != "" {
      assert s[0] == core[0] && s[..|s| - 1] == before + core + after[..|after| - 1];
      TrimIs(before, core, after[..|after| - 1]);
    } else {
      assert s == core;
    }
  }

  function LowerChar(c: char): char {
    if 'A' <= c <= 'Z' then (c as int + 32) as char else c
  }

  function ToLower(s: string): string {
    seq(|s|, i requires 0 <= i < |s| => LowerChar(s[i]))
  }

  predicate StartsWith(s: string, prefix: string) {
    prefix <= s
  }

  // The first position of `c` in `s` at or after `from`, or -1.
  function IndexFrom(s: string, c: char, from: nat): (r: int)
    requires from <= |s|
    ensures r == -1 || from <= r < |s|
    decreases |s| - from
  {
    if from == |s| then -1
    else if s[from] == c then from
    else IndexFrom(s, c, from + 1)
  }

  function IndexOf(s: string, c: char): (r: int)
    ensures -1 <= r < |s|
  {
    IndexFrom(s, c, 0)
  }

  // The last position of `c` in `s` at or before `from`, or -1.
  function LastIndexOf(s: string, c: char, from: int): (r: int)
    requires from < |s|
    ensures r == -1 || 0 <= r <= from
    decreases from + 1
  {
    if from < 0 then -1
    else if s[from] == c then from
    else LastIndexOf(s, c, from - 1)
  }

  lemma {:induction false} IndexFromFinds(s: string, c: char, from: nat)
    requires from <= |s|
    ensures var r := IndexFrom(s, c, from);
            && (r >= 0 ==> s[r] == c)
            && (forall i | from <= i < |s| && (r < 0 || i < r) :: s[i] != c)
    decreases |s| - from
  {
    if from < |s| && s[from] != c {
      IndexFromFinds(s, c, from + 1);
    }
  }

  // A position with no earlier occurrence is the one IndexOf returns.
  lemma IndexOfIs(s: string, c: char, p: nat)
    requires p < |s| && s[p] == c
    requires forall i | 0 <= i < p :: s[i] != c
    ensures IndexOf(s, c) == p
  {
    IndexFromFinds(s, c, 0);
  }
}
