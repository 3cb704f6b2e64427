/** Globs over slash-separated relative paths, compiled to a regular expression. */
module Glob {

  // ---- Regular expressions -----------------------------------------------

  /** The pieces the compiler emits. */
  datatype Piece =
    | Lit(c: char)      // an escaped character, or the separator
    | OneChar           // [^/]
    | SomeChars         // [^/]*
    | SomeDirs          // (?:[^/]+/)*

  type Regex = seq<Piece>

  /** Letters are compared with a case rule in which `/` equals only itself. */
  ghost predicate CaseRule(same: (char, char) -> bool)
  {
    forall c: char :: (same('/', c) <==> c == '/') && (same(c, '/') <==> c == '/')
  }

  predicate NoSlash(s: string)
  {
    '/' !in s
  }

  /** The whole of `s` matches. */
  ghost predicate Matches(same: (char, char) -> bool, re: Regex, s: string)
    decreases |re|, |s|
  {
    if re == [] then s == ""
    else
      match re[0]
      case Lit(c) => s != "" && same(c, s[0]) && Matches(same, re[1..], s[1..])
      case OneChar => s != "" && s[0] != '/' && Matches(same, re[1..], s[1..])
      case SomeChars =>
        exists k :: 0 <= k <= |s| && NoSlash(s[..k]) && Matches(same, re[1..], s[k..])
      case SomeDirs =>
        || Matches(same, re[1..], s)
        || exists k :: 0 < k < |s| && NoSlash(s[..k]) && s[k] == '/' && Matches(same, re, s[k + 1..])
  }

  // ---- The compiler ------------------------------------------------------

  /** `pattern.replace("\\", "/").split("/")` without the empty parts. */
  function Segments(pattern: string, current: string): seq<string>
  {
    if pattern == "" then (if current == "" then [] else [current])
    else if pattern[0] == '/' || pattern[0] == '\\' then
      (if current == "" then [] else [current]) + Segments(pattern[1..], "")
    else Segments(pattern[1..], current + [pattern[0]])
  }

  function CharPiece(ch: char): Piece
  {
    if ch == '*' then SomeChars else if ch == '?' then OneChar else Lit(ch)
  }

  function SegmentRegex(seg: string): Regex
  {
    if seg == "" then [] else [CharPiece(seg[0])] + SegmentRegex(seg[1..])
  }

  function Part(seg: string): Regex
  {
    if seg == "**" then [SomeDirs] else SegmentRegex(seg) + [Lit('/')]
  }

  function Body(segs: seq<string>): Regex
  {
    if segs == [] then [] else Part(segs[0]) + Body(segs[1..])
  }

  /** Drop the separator the last part ends with, if it ends with one. */
  function DropLastSlash(re: Regex): Regex
  {
    if re != [] && re[|re| - 1] == Lit('/') then re[..|re| - 1] else re
  }

  function Compiled(segs: seq<string>): Regex
  {
    DropLastSlash(Body(segs))
  }

  method CompileGlob(pattern: string) returns (re: Regex)
    ensures re == Compiled(Segments(pattern, ""))
  {
    var segments := Segments(pattern, "");
    var parts: seq<Regex> := [];
    for i := 0 to |segments|
      invariant |parts| == i && Join(parts) == Body(segments[..i])
    {
      var seg := segments[i];
      assert segments[..i + 1] == segments[..i] + [seg];
      BodySnoc(segments[..i], seg);
      if seg == "**" {
        JoinSnoc(parts, [SomeDirs]);
        parts := parts + [[SomeDirs]];
        continue;
      }
      var piece: Regex := [];
      for j := 0 to |seg|
        invariant piece == SegmentRegex(seg[..j])
      {
        assert seg[..j + 1] == seg[..j] + [seg[j]];
        SegmentRegexSnoc(seg[..j], seg[j]);
        var ch := seg[j];
        if ch == '*' {
          piece := piece + [SomeChars];
        } else if ch == '?' {
          piece := piece + [OneChar];
        } else {
          piece := piece + [Lit(ch)];
        }
      }
      assert seg[..|seg|] == seg;
      JoinSnoc(parts, piece + [Lit('/')]);
      parts := parts + [piece + [Lit('/')]];
    }
    assert segments[..|segments|] == segments;
    re := Join(parts);
    if re != [] && re[|re| - 1] == Lit('/') {
      re := re[..|re| - 1];
    }
  }

  function Join(parts: seq<Regex>): Regex
  {
    if parts == [] then [] else parts[0] + Join(parts[1..])
  }

  lemma {:induction false} JoinSnoc(parts: seq<Regex>, p: Regex)
    ensures Join(parts + [p]) == Join(parts) + p
  {
    if parts == [] {
      assert [p][1..] == [] && (parts + [p])[1..] == [];
    } else {
      assert (parts + [p])[1..] == parts[1..] + [p];
      JoinSnoc(parts[1..], p);
    }
  }

  lemma {:induction false} BodySnoc(segs: seq<string>, seg: string)
    ensures Body(segs + [seg]) == Body(segs) + Part(seg)
  {
    if segs == [] {
      assert (segs + [seg])[1..] == [];
    } else {
      assert (segs + [seg])[1..] == segs[1..] + [seg];
      BodySnoc(segs[1..], seg);
    }
  }

  lemma {:induction false} SegmentRegexSnoc(seg: string, ch: char)
    ensures SegmentRegex(seg + [ch]) == SegmentRegex(seg) + [CharPiece(ch)]
  {
    if seg == "" {
      assert (seg + [ch])[1..] == "";
    } else {
      assert (seg + [ch])[1..] == seg[1..] + [ch];
      SegmentRegexSnoc(seg[1..], ch);
    }
  }

  // ---- What a glob means -------------------------------------------------

  /** One pattern segment against one path component. */
  ghost predicate SegmentMatches(same: (char, char) -> bool, seg: string, name: string)
    decreases |seg|
  {
    if seg == "" then name == ""
    else if seg[0] == '*' then
      exists k :: 0 <= k <= |name| && SegmentMatches(same, seg[1..], name[k..])
    else
      && name != ""
      && (seg[0] == '?' || same(seg[0], name[0]))
      && SegmentMatches(same, seg[1..], name[1..])
  }

  /** The pattern against the list of path components, segment by segment. */
  ghost predicate GlobMatches(same: (char, char) -> bool, segs: seq<string>, names: seq<string>)
    decreases |segs|
  {
    if segs == [] then names == []
    else if segs[0] == "**" then
      exists k :: 0 <= k <= |names| && GlobMatches(same, segs[1..], names[k..])
    else
      && names != []
      && SegmentMatches(same, segs[0], names[0])
      && GlobMatches(same, segs[1..], names[1..])
  }

  /** A listed path: at least one component, none empty, none with a separator
      or a line break in it (`$` would also match before a final one). */
  ghost predicate Listed(names: seq<string>)
  {
    names != [] && forall n :: n in names ==> n != "" && NoSlash(n) && '\n' !in n
  }

  function Path(names: seq<string>): string
  {
    if names == [] then ""
    else if |names| == 1 then names[0]
    else names[0] + "/" + Path(names[1..])
  }

  /** Every component followed by a separator. */
  function Slashed(names: seq<string>): string
  {
    if names == [] then "" else names[0] + "/" + Slashed(names[1..])
  }

  // ---- The compiled expression means the glob ----------------------------

  /** Names that can be path components. */
  ghost predicate Components(names: seq<string>)
  {
    forall n :: n in names ==> n != "" && NoSlash(n)
  }

  ghost predicate Patterns(segs: seq<string>)
  {
    forall g :: g in segs ==> NoSlash(g)
  }

  lemma {:induction false} SegmentsHaveNoSlash(pattern: string, current: string)
    requires NoSlash(current)
    ensures Patterns(Segments(pattern, current))
    ensures forall g :: g in Segments(pattern, current) ==> g != ""
  {
    if pattern != "" {
      SegmentsHaveNoSlash(pattern[1..], "");
      if pattern[0] != '/' && pattern[0] != '\\' {
        SegmentsHaveNoSlash(pattern[1..], current + [pattern[0]]);
      }
    }
  }

  predicate NoSeparator(s: string)
  {
    '/' !in s && '\\' !in s
  }

  /** A separator ends a segment; the text before the first one is a segment, unless
      it is empty. */
  lemma {:induction false} SplitAtSeparator(seg: string, sep: char, rest: string, current: string)
    requires NoSeparator(seg) && (sep == '/' || sep == '\\')
    ensures Segments(seg + [sep] + rest, current) == NotEmpty([current + seg]) + Segments(rest, "")
  {
    var p := seg + [sep] + rest;
    if seg == "" {
      assert p[1..] == rest && current + seg == current;
    } else {
      assert p[0] == seg[0] && p[1..] == seg[1..] + [sep] + rest;
      assert current + [seg[0]] + seg[1..] == current + seg;
      SplitAtSeparator(seg[1..], sep, rest, current + [seg[0]]);
    }
  }

  function NotEmpty(parts: seq<string>): seq<string>
  {
    if parts == [] then [] else (if parts[0] == "" then [] else [parts[0]]) + NotEmpty(parts[1..])
  }

  /** Parts with separators of either kind between them. */
  function Separated(parts: seq<string>, seps: seq<char>): string
    requires |parts| == |seps| + 1
  {
    if seps == [] then parts[0] else parts[0] + [seps[0]] + Separated(parts[1..], seps[1..])
  }

  /** Whatever separators stand between them, the segments are the parts that are not
      empty. */
  lemma {:induction false} SegmentsAreParts(parts: seq<string>, seps: seq<char>)
    requires |parts| == |seps| + 1 && (forall p :: p in parts ==> NoSeparator(p))
    requires forall c :: c in seps ==> c == '/' || c == '\\'
    ensures Segments(Separated(parts, seps), "") == NotEmpty(parts)
    decreases |parts|
  {
    assert parts[0] in parts && "" + parts[0] == parts[0];
    if seps == [] {
      assert parts == [parts[0]] && NotEmpty(parts[1..]) == [];
      if parts[0] != "" { SplitWhole(parts[0], ""); }
    } else {
      assert seps[0] in seps;
      SplitAtSeparator(parts[0], seps[0], Separated(parts[1..], seps[1..]), "");
      assert [parts[0]][1..] == [];
      assert (forall c :: c in seps[1..] ==> c in seps) && forall p :: p in parts[1..] ==> p in parts;
      SegmentsAreParts(parts[1..], seps[1..]);
    }
  }

  lemma {:induction false} SplitWhole(seg: string, current: string)
    requires NoSeparator(seg) && current + seg != ""
    ensures Segments(seg, current) == [current + seg]
  {
    if seg == "" {
      assert current + seg == current;
    } else {
      assert current + [seg[0]] + seg[1..] == current + seg;
      SplitWhole(seg[1..], current + [seg[0]]);
    }
  }

  /** One part consumes one component and its separator, no more and no less. */
  lemma {:induction false} SegmentAgainst(same: (char, char) -> bool, seg: string, more: Regex, name: string,
                                          rest: string)
    requires CaseRule(same) && NoSlash(seg) && NoSlash(name)
    ensures Matches(same, SegmentRegex(seg) + [Lit('/')] + more, name + "/" + rest)
       <==> SegmentMatches(same, seg, name) && Matches(same, more, rest)
    decreases |seg|
  {
    var re, s := SegmentRegex(seg) + [Lit('/')] + more, name + "/" + rest;
    if seg == "" {
      assert re[0] == Lit('/') && re[1..] == more;
      if name == "" { assert s[0] == '/' && s[1..] == rest; } else { assert s[0] == name[0]; }
    } else {
      var tail := SegmentRegex(seg[1..]) + [Lit('/')] + more;
      assert re[0] == CharPiece(seg[0]) && re[1..] == tail;
      if seg[0] == '*' {
        forall k | 0 <= k <= |name|
          ensures s[k..] == name[k..] + "/" + rest && NoSlash(s[..k])
          ensures Matches(same, tail, s[k..])
             <==> SegmentMatches(same, seg[1..], name[k..]) && Matches(same, more, rest)
        {
          assert s[k..] == name[k..] + "/" + rest;
          assert s[..k] == name[..k];
          SegmentAgainst(same, seg[1..], more, name[k..], rest);
        }
        forall k | |name| < k <= |s|
          ensures !NoSlash(s[..k])
        {
          assert s[..k][|name|] == '/';
        }
      } else if name == "" {
        assert s[0] == '/';
      } else {
        assert s[0] == name[0] && s[1..] == name[1..] + "/" + rest;
        SegmentAgainst(same, seg[1..], more, name[1..], rest);
      }
    }
  }

  lemma FirstSlash(name: string, rest: string, k: nat)
    requires NoSlash(name)
    ensures var s := name + "/" + rest;
            k < |s| && NoSlash(s[..k]) && s[k] == '/' <==> k == |name|
  {
    var s := name + "/" + rest;
    assert s[|name|] == '/' && s[..|name|] == name;
    if |name| < k < |s| { assert s[..k][|name|] == '/'; }
    if k < |name| { assert s[k] == name[k]; }
  }

  lemma DirsStep(same: (char, char) -> bool, more: Regex, name: string, rest: string)
    requires NoSlash(name) && name != ""
    ensures var s := name + "/" + rest;
            (Matches(same, [SomeDirs] + more, s)
             <==> Matches(same, more, s) || Matches(same, [SomeDirs] + more, rest))
  {
    var re, s := [SomeDirs] + more, name + "/" + rest;
    assert re[1..] == more && s[|name| + 1..] == rest;
    FirstSlash(name, rest, |name|);
    forall k: nat
      ensures k < |s| && NoSlash(s[..k]) && s[k] == '/' <==> k == |name|
    {
      FirstSlash(name, rest, k);
    }
  }

  lemma ComponentsTail(names: seq<string>)
    requires names != [] && Components(names)
    ensures Components(names[1..])
  {
    assert forall n :: n in names[1..] ==> n in names;
  }

  /** A directories part skips any number of whole components. */
  lemma {:induction false} DirsAgainst(same: (char, char) -> bool, more: Regex, names: seq<string>)
    requires Components(names)
    ensures Matches(same, [SomeDirs] + more, Slashed(names))
       <==> exists k :: 0 <= k <= |names| && Matches(same, more, Slashed(names[k..]))
    decreases |names|
  {
    assert names[0..] == names;
    if names == [] {
      assert ([SomeDirs] + more)[1..] == more;
    } else {
      assert names[0] in names;
      ComponentsTail(names);
      DirsStep(same, more, names[0], Slashed(names[1..]));
      hide Matches;
      DirsAgainst(same, more, names[1..]);
      forall k | 0 <= k <= |names| - 1
        ensures names[1..][k..] == names[1 + k..]
      {
      }
      if k :| 0 <= k <= |names| && Matches(same, more, Slashed(names[k..])) {
        if k > 0 { assert names[1..][k - 1..] == names[k..]; }
      }
    }
  }

  lemma {:induction false} BodyMeansGlob(same: (char, char) -> bool, segs: seq<string>, names: seq<string>)
    requires CaseRule(same) && Patterns(segs) && Components(names)
    ensures Matches(same, Body(segs), Slashed(names)) <==> GlobMatches(same, segs, names)
    decreases |segs|
  {
    if segs == [] {
    } else if segs[0] == "**" {
      DirsAgainst(same, Body(segs[1..]), names);
      forall k | 0 <= k <= |names|
        ensures Matches(same, Body(segs[1..]), Slashed(names[k..])) <==> GlobMatches(same, segs[1..], names[k..])
      {
        BodyMeansGlob(same, segs[1..], names[k..]);
      }
    } else if names == [] {
      PartNeedsText(same, segs[0], Body(segs[1..]));
    } else {
      SegmentAgainst(same, segs[0], Body(segs[1..]), names[0], Slashed(names[1..]));
      BodyMeansGlob(same, segs[1..], names[1..]);
    }
  }

  lemma {:induction false} PartNeedsText(same: (char, char) -> bool, seg: string, more: Regex)
    ensures !Matches(same, SegmentRegex(seg) + [Lit('/')] + more, "")
  {
    var re := SegmentRegex(seg) + [Lit('/')] + more;
    if seg != "" {
      assert re[1..] == SegmentRegex(seg[1..]) + [Lit('/')] + more;
      PartNeedsText(same, seg[1..], more);
    }
  }

  /** A final separator in the expression matches the final character only. */
  lemma {:induction false} FinalSlash(same: (char, char) -> bool, re: Regex, s: string)
    requires CaseRule(same)
    ensures Matches(same, re + [Lit('/')], s + "/") <==> Matches(same, re, s)
    decreases |re|, |s|, 1
  {
    var re', s' := re + [Lit('/')], s + "/";
    if re == [] {
      assert re'[1..] == [];
      if s != "" { assert s'[0] == s[0] && |s'[1..]| > 0; } else { assert s'[1..] == ""; }
    } else {
      assert re'[0] == re[0] && re'[1..] == re[1..] + [Lit('/')];
      if s != "" { assert s'[0] == s[0] && s'[1..] == s[1..] + "/"; }
      match re[0]
      case Lit(_) =>
        if s != "" { FinalSlash(same, re[1..], s[1..]); } else { LastCharNeeded(same, re[1..]); }
      case OneChar =>
        if s != "" { FinalSlash(same, re[1..], s[1..]); }
      case SomeChars =>
        FinalSlashAfterChars(same, re[1..], s);
        assert [SomeChars] + re[1..] == re;
      case SomeDirs => FinalSlashAfterDirs(same, re, s);
    }
  }

  lemma FinalSlashAfterChars(same: (char, char) -> bool, more: Regex, s: string)
    requires CaseRule(same)
    ensures Matches(same, [SomeChars] + more + [Lit('/')], s + "/") <==> Matches(same, [SomeChars] + more, s)
    decreases |more| + 1, |s|, 0
  {
    var s' := s + "/";
    assert ([SomeChars] + more + [Lit('/')])[1..] == more + [Lit('/')] && ([SomeChars] + more)[1..] == more;
    forall k | 0 <= k <= |s|
      ensures s'[..k] == s[..k]
      ensures Matches(same, more + [Lit('/')], s'[k..]) <==> Matches(same, more, s[k..])
    {
      assert s'[k..] == s[k..] + "/";
      FinalSlash(same, more, s[k..]);
    }
    assert s'[..|s'|] == s' && s'[|s|] == '/';
  }

  lemma FinalSlashAfterDirs(same: (char, char) -> bool, re: Regex, s: string)
    requires CaseRule(same) && re != [] && re[0] == SomeDirs
    ensures Matches(same, re + [Lit('/')], s + "/") <==> Matches(same, re, s)
    decreases |re|, |s|, 0
  {
    var re', s' := re + [Lit('/')], s + "/";
    assert re'[0] == re[0] && re'[1..] == re[1..] + [Lit('/')];
    FinalSlash(same, re[1..], s);
    LastCharNeeded(same, re);
    forall k | 0 < k < |s|
      ensures s'[..k] == s[..k] && s'[k] == s[k]
      ensures Matches(same, re', s'[k + 1..]) <==> Matches(same, re, s[k + 1..])
    {
      assert s'[k + 1..] == s[k + 1..] + "/";
      FinalSlash(same, re, s[k + 1..]);
    }
    assert |s| > 0 ==> s'[|s| + 1..] == "";
  }

  lemma {:induction false} LastCharNeeded(same: (char, char) -> bool, re: Regex)
    ensures !Matches(same, re + [Lit('/')], "")
  {
    if re != [] {
      assert (re + [Lit('/')])[1..] == re[1..] + [Lit('/')];
      LastCharNeeded(same, re[1..]);
    }
  }

  lemma {:induction false} PartThen(same: (char, char) -> bool, seg: string, more: Regex, s: string) returns (k: nat)
    requires CaseRule(same) && Matches(same, SegmentRegex(seg) + [Lit('/')] + more, s)
    ensures 0 < k <= |s| && s[k - 1] == '/' && Matches(same, more, s[k..])
    decreases |seg|
  {
    var re := SegmentRegex(seg) + [Lit('/')] + more;
    if seg == "" {
      assert re[0] == Lit('/') && re[1..] == more;
      k := 1;
    } else {
      assert re[0] == CharPiece(seg[0]) && re[1..] == SegmentRegex(seg[1..]) + [Lit('/')] + more;
      var n := 1;
      if seg[0] == '*' {
        n :| 0 <= n <= |s| && NoSlash(s[..n]) && Matches(same, re[1..], s[n..]);
      }
      var m := PartThen(same, seg[1..], more, s[n..]);
      k := n + m;
      assert s[n..][m..] == s[k..];
    }
  }

  /** Before the last separator is dropped, only the empty text and texts that
      end in a separator match. */
  lemma {:induction false} BodyEndsInSlash(same: (char, char) -> bool, segs: seq<string>, s: string)
    requires CaseRule(same) && Matches(same, Body(segs), s) && s != ""
    ensures s[|s| - 1] == '/'
    decreases |segs|, |s|
  {
    if segs != [] {
      var more := Body(segs[1..]);
      if segs[0] == "**" {
        assert Body(segs) == [SomeDirs] + more && Body(segs)[1..] == more;
        if Matches(same, more, s) {
          BodyEndsInSlash(same, segs[1..], s);
        } else {
          var k :| 0 < k < |s| && NoSlash(s[..k]) && s[k] == '/' && Matches(same, Body(segs), s[k + 1..]);
          if k + 1 < |s| { BodyEndsInSlash(same, segs, s[k + 1..]); }
        }
      } else {
        var k := PartThen(same, segs[0], more, s);
        if k < |s| { BodyEndsInSlash(same, segs[1..], s[k..]); }
      }
    }
  }

  lemma {:induction false} PathIsSlashed(names: seq<string>)
    requires names != []
    ensures Path(names) + "/" == Slashed(names)
  {
    if |names| == 1 {
      assert names[1..] == [];
    } else {
      PathIsSlashed(names[1..]);
      assert Path(names) + "/" == names[0] + "/" + (Path(names[1..]) + "/");
    }
  }

  lemma {:induction false} PathEndsInName(names: seq<string>)
    requires names != [] && Components(names)
    ensures Path(names) != "" && Path(names)[|Path(names)| - 1] != '/'
  {
    assert names[0] in names;
    if |names| > 1 {
      assert forall n :: n in names[1..] ==> n in names;
      PathEndsInName(names[1..]);
    } else {
      var last := names[0][|names[0]| - 1];
      assert last in names[0];
    }
  }

  lemma {:induction false} LastPiece(segs: seq<string>)
    requires segs != []
    ensures Body(segs) != []
    ensures Body(segs)[|Body(segs)| - 1] == if segs[|segs| - 1] == "**" then SomeDirs else Lit('/')
  {
    if |segs| == 1 {
      assert segs[1..] == [];
    } else {
      LastPiece(segs[1..]);
    }
  }

  lemma CompiledAndBody(segs: seq<string>)
    requires segs != []
    ensures if segs[|segs| - 1] == "**" then Compiled(segs) == Body(segs) else Body(segs) == Compiled(segs) + [Lit('/')]
  {
    hide Body;
    LastPiece(segs);
    var body := Body(segs);
    assert body[..|body| - 1] + [body[|body| - 1]] == body;
  }

  /** For every pattern and every listed path: the compiled expression matches
      exactly when the pattern does not end in a `**` segment and the glob
      matches segment by segment. */
  lemma CompiledMeansGlob(same: (char, char) -> bool, segs: seq<string>, names: seq<string>)
    requires CaseRule(same) && Patterns(segs) && Listed(names)
    ensures Matches(same, Compiled(segs), Path(names))
       <==> (segs == [] || segs[|segs| - 1] != "**") && GlobMatches(same, segs, names)
  {
    hide Matches, GlobMatches, Path, Slashed, Body, Compiled;
    PathIsSlashed(names);
    PathEndsInName(names);
    BodyMeansGlob(same, segs, names);
    if segs == [] {
      NothingMatches(same, segs, names);
    } else {
      CompiledAndBody(segs);
      if segs[|segs| - 1] == "**" {
        if Matches(same, Body(segs), Path(names)) { BodyEndsInSlash(same, segs, Path(names)); }
      } else {
        FinalSlash(same, Compiled(segs), Path(names));
      }
    }
  }

  lemma NothingMatches(same: (char, char) -> bool, segs: seq<string>, names: seq<string>)
    requires segs == [] && names != [] && Path(names) != ""
    ensures !Matches(same, Compiled(segs), Path(names)) && !GlobMatches(same, segs, names)
  {
  }

  /** The whole of `compile_glob`, from the pattern text. */
  lemma PatternMeansGlob(same: (char, char) -> bool, pattern: string, names: seq<string>)
    requires CaseRule(same) && Listed(names)
    ensures var segs := Segments(pattern, "");
            (Matches(same, Compiled(segs), Path(names))
             <==> (segs == [] || segs[|segs| - 1] != "**") && GlobMatches(same, segs, names))
  {
    SegmentsHaveNoSlash(pattern, "");
    CompiledMeansGlob(same, Segments(pattern, ""), names);
  }

  // A pattern of `src`, then `**`: it means everything below `src` and matches none of it.
  lemma TrailingDirsMatchNothing(same: (char, char) -> bool)
    requires CaseRule(same) && forall c :: same(c, c)
    ensures var segs, names := ["src", "**"], ["src", "a"];
            && Segments("src/**", "") == segs && Path(names) == "src/a"
            && GlobMatches(same, segs, names) && !Matches(same, Compiled(segs), Path(names))
  {
    var segs, names := ["src", "**"], ["src", "a"];
    assert segs[1..] == ["**"] && segs[1..][1..] == [];
    assert names[1..] == ["a"] && names[1..][1..] == [];
    SpellSrc(same);
    assert GlobMatches(same, [], names[1..][1..]);
    assert GlobMatches(same, segs[1..], names[1..]);
    SplitSrc();
    CompiledMeansGlob(same, segs, names);
  }

  lemma SpellSrc(same: (char, char) -> bool)
    requires forall c :: same(c, c)
    ensures SegmentMatches(same, "src", "src")
  {
    assert "src"[1..] == "rc" && "rc"[1..] == "c" && "c"[1..] == "";
    assert same('s', 's') && same('r', 'r') && same('c', 'c');
    assert SegmentMatches(same, "", "");
    assert SegmentMatches(same, "c", "c");
    assert SegmentMatches(same, "rc", "rc");
  }

  lemma SplitSrc()
    ensures Segments("src/**", "") == ["src", "**"]
  {
    SplitAtSeparator("src", '/', "**", "");
    SplitWhole("**", "");
    assert "src" + "/" + "**" == "src/**" && "" + "src" == "src" && "" + "**" == "**";
  }
}
