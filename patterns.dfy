/**
 * The three anchored regular expressions the sign-in forms test their fields with:
 * `/^[a-zA-Z ]+$/`, `/^[0-9]+$/` and `/^[0-9]{9}$/`. None of them has the multiline
 * flag, so `$` matches only at the end of the input.
 */
module Patterns {

  /** The bracket classes used: `[a-zA-Z ]` and `[0-9]`. */
  datatype CharClass = LettersOrSpace | Digits

  predicate InClass(cls: CharClass, c: char)
  {
    match cls
    case LettersOrSpace => 'a' <= c <= 'z' || 'A' <= c <= 'Z' || c == ' '
    case Digits => '0' <= c <= '9'
  }

  /** `^[cls]+$` or `^[cls]{count}$`. */
  datatype Pattern = OneOrMore(cls: CharClass) | Exactly(cls: CharClass, count: nat)

  /** Length of the longest prefix of `s` whose characters all lie in `cls`. */
  function RunLength(cls: CharClass, s: string): (n: nat)
    ensures n <= |s|
  {
    if s == [] || !InClass(cls, s[0]) then 0 else 1 + RunLength(cls, s[1..])
  }

  /** Every character of `s` lies in `cls`. */
  ghost predicate AllIn(cls: CharClass, s: string)
  {
    forall i :: 0 <= i < |s| ==> InClass(cls, s[i])
  }

  /** The class run covers the whole string exactly when every character is in the class. */
  lemma {:induction false} RunLengthCoversAll(cls: CharClass, s: string)
    ensures RunLength(cls, s) == |s| <==> AllIn(cls, s)
  {
    if s != [] {
      RunLengthCoversAll(cls, s[1..]);
      if InClass(cls, s[0]) {
        if AllIn(cls, s[1..]) {
          forall i | 0 <= i < |s| ensures InClass(cls, s[i]) {
            if i > 0 { assert s[i] == s[1..][i - 1]; }
          }
        } else {
          var k :| 0 <= k < |s[1..]| && !InClass(cls, s[1..][k]);
          assert s[k + 1] == s[1..][k];
        }
      }
    }
  }

  /** Whole-input match of an anchored pattern: the class run reaches the end of `s`. */
  function Matches(p: Pattern, s: string): (ok: bool)
    ensures ok <==> match p
                    case OneOrMore(cls) => |s| >= 1 && AllIn(cls, s)
                    case Exactly(cls, count) => |s| == count && AllIn(cls, s)
  {
    RunLengthCoversAll(p.cls, s);
    var run := RunLength(p.cls, s);
    match p
    case OneOrMore(_) => run == |s| && run >= 1
    case Exactly(_, count) => run == |s| && run == count
  }
}
