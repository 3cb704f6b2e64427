/** Small value types and text helpers shared by the other modules. */
module Basics {

  datatype Option<+T> = None | Some(value: T)

  /** The characters `str.strip` and `str.lstrip` remove. */
  predicate IsSpace(c: char)
  {
    var n := c as int;
    9 <= n <= 13 || 28 <= n <= 32 || n == 0x85 || n == 0xA0 || n == 0x1680
    || 0x2000 <= n <= 0x200A || n == 0x2028 || n == 0x2029 || n == 0x202F
    || n == 0x205F || n == 0x3000
  }

  function LStrip(s: string): string
  {
    if s != "" && IsSpace(s[0]) then LStrip(s[1..]) else s
  }

  function RStrip(s: string): string
  {
    if s != "" && IsSpace(s[|s| - 1]) then RStrip(s[..|s| - 1]) else s
  }

  function Strip(s: string): string
  {
    RStrip(LStrip(s))
  }

  predicate Blank(s: string)
  {
    forall i :: 0 <= i < |s| ==> IsSpace(s[i])
  }

  /** Left-trimming a text that arrives in two pieces: once something is left
      of the first piece, the second is no longer touched. */
  lemma {:induction false} LStripConcat(a: string, b: string)
    ensures LStrip(a + b) == LStrip(a) + (if LStrip(a) == "" then LStrip(b) else b)
  {
    if a == "" {
      assert a + b == b;
    } else if IsSpace(a[0]) {
      assert (a + b)[1..] == a[1..] + b;
      LStripConcat(a[1..], b);
    }
  }

  lemma {:induction false} LStripSuffix(s: string)
    ensures |LStrip(s)| <= |s| && LStrip(s) == s[|s| - |LStrip(s)|..]
    ensures Blank(s[..|s| - |LStrip(s)|])
  {
    if s != "" && IsSpace(s[0]) { LStripSuffix(s[1..]); }
  }

  lemma {:induction false} LStripBlank(s: string)
    requires Blank(s)
    ensures LStrip(s) == ""
  {
    if s != "" { LStripBlank(s[1..]); }
  }

  function Concat(pieces: seq<string>): string
  {
    if pieces == [] then "" else pieces[0] + Concat(pieces[1..])
  }

  lemma {:induction false} ConcatSnoc(pieces: seq<string>, last: string)
    ensures Concat(pieces + [last]) == Concat(pieces) + last
  {
    if pieces == [] {
      assert [last][1..] == [];
    } else {
      assert (pieces + [last])[1..] == pieces[1..] + [last];
      ConcatSnoc(pieces[1..], last);
    }
  }

  /** `tag` occurs in `s` at position `i`. */
  predicate OccursAt(s: string, tag: string, i: int)
  {
    0 <= i && i + |tag| <= |s| && s[i..i + |tag|] == tag
  }

  /** `str.find`: the least position at or after `from`, or -1. */
  function FindFrom(s: string, tag: string, from: nat): (idx: int)
    requires from <= |s|
    ensures idx == -1 || (from <= idx && OccursAt(s, tag, idx))
    ensures forall i :: from <= i && OccursAt(s, tag, i) ==> 0 <= idx <= i
    decreases |s| - from
  {
    if OccursAt(s, tag, from) then from
    else if from == |s| then -1
    else FindFrom(s, tag, from + 1)
  }

  function Find(s: string, tag: string): (idx: int)
    ensures idx == -1 || OccursAt(s, tag, idx)
    ensures forall i :: OccursAt(s, tag, i) ==> 0 <= idx <= i
  {
    FindFrom(s, tag, 0)
  }
}
