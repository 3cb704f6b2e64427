/** Answers with structural tokens in them: end-of-turn tokens, tool calls and
    leftover openers are taken out wherever they stand, and nothing else is. */
module TokenPieces {
  import opened Basics
  import opened TokenFilter
  import opened TokenBatch

  /** A stretch of an answer: text, one of the literal tokens, a tool call with what
      stands before its first `>` and what follows, or an opener without a closer. */
  datatype Piece = Shown(text: string) | Literal(token: string)
                 | Invoke(attributes: string, inside: string) | ToolCall(attributes: string, inside: string)
                 | Leftover(opener: string)

  function Spelled(p: Piece): string
  {
    match p
    case Shown(text) => text
    case Literal(token) => token
    case Invoke(attributes, inside) => "<invoke" + attributes + ">" + inside + "</invoke>"
    case ToolCall(attributes, inside) => "<tool_call" + attributes + ">" + inside + "</tool_call>"
    case Leftover(opener) => opener
  }

  /** Text holds no `<`; a tool call ends with its first closing tag after the `>`. */
  ghost predicate Proper(p: Piece)
  {
    match p
    case Shown(text) => '<' !in text
    case Literal(token) => token in ["<minimax:tool_call>", "</minimax:tool_call>", "<|im_end|>", "<|eot_id|>"]
    case Invoke(attributes, inside) => '>' !in attributes && EndsFirst(inside, "</invoke>")
    case ToolCall(attributes, inside) => '>' !in attributes && EndsFirst(inside, "</tool_call>")
    case Leftover(opener) => opener in ["<think>", "<thinking>"]
  }

  ghost predicate EndsFirst(inside: string, close: string)
  {
    forall i :: 0 <= i < |inside| ==> !OccursAt(inside + close, close, i)
  }

  function SpelledAll(pieces: seq<Piece>): string
  {
    if pieces == [] then "" else Spelled(pieces[0]) + SpelledAll(pieces[1..])
  }

  /** What is left to read. */
  function Texts(pieces: seq<Piece>): string
  {
    if pieces == [] then "" else (if pieces[0].Shown? then pieces[0].text else "") + Texts(pieces[1..])
  }

  function TextsAndOpeners(pieces: seq<Piece>): string
  {
    if pieces == [] then ""
    else (if pieces[0].Shown? || pieces[0].Leftover? then Spelled(pieces[0]) else "") + TextsAndOpeners(pieces[1..])
  }

  // ---- Structural tokens -----------------------------------------------------------

  lemma FirstFrom(s: string, tag: string, from: nat, at: nat)
    requires from <= at <= |s| && OccursAt(s, tag, at) && forall i :: from <= i < at ==> !OccursAt(s, tag, i)
    ensures FindFrom(s, tag, from) == at
  {
    hide FindFrom;
  }

  /** In `a + ">" + b` the first `>` stands after `a`. */
  lemma AngleAfter(a: string, b: string, from: nat)
    requires '>' !in a && from <= |a|
    ensures var s := a + ">" + b; FindFrom(s, ">", from) == |a|
  {
    var s := a + ">" + b;
    assert s[|a|..|a| + 1] == ">";
    forall i | from <= i < |a|
      ensures !OccursAt(s, ">", i)
    {
      assert s[i] == a[i];
    }
    FirstFrom(s, ">", from, |a|);
  }

  lemma CloseAfter(a: string, inside: string, close: string, rest: string)
    requires EndsFirst(inside, close)
    ensures FindFrom(a + (inside + close) + rest, close, |a|) == |a| + |inside|
  {
    var s := a + (inside + close) + rest;
    var end := |a| + |inside|;
    assert s[end..end + |close|] == close;
    forall i | |a| <= i < end
      ensures !OccursAt(s, close, i)
    {
      CloseWithin(a, inside + close, rest, close, i - |a|);
    }
    FirstFrom(s, close, |a|, end);
  }

  lemma CloseWithin(a: string, b: string, rest: string, close: string, i: nat)
    requires !OccursAt(b, close, i) && i + |close| <= |b|
    ensures !OccursAt(a + b + rest, close, |a| + i)
  {
    assert (a + b + rest)[|a| + i..|a| + i + |close|] == b[i..i + |close|];
  }

  lemma BlockRegrouped(open: string, attributes: string, inside: string, close: string, rest: string)
    ensures var s := open + attributes + ">" + inside + close + rest;
            && s == (open + attributes) + ">" + (inside + close + rest)
            && s == (open + attributes + ">") + (inside + close) + rest
            && open <= s && |open| + |attributes| + 1 + |inside| + |close| <= |s|
  {
  }

  lemma BlockSpelled(open: string, close: string, attributes: string, inside: string, rest: string)
    requires '>' !in open && '>' !in attributes && EndsFirst(inside, close)
    ensures BlockMatch(open + attributes + ">" + inside + close + rest, open, close)
         == Some(|open| + |attributes| + 1 + |inside| + |close|)
  {
    BlockRegrouped(open, attributes, inside, close, rest);
    AngleAfter(open + attributes, inside + close + rest, |open|);
    CloseAfter(open + attributes + ">", inside, close, rest);
    hide FindFrom, EndsFirst, OccursAt;
  }

  lemma TokenMatches(p: Piece, rest: string)
    requires Proper(p) && !p.Shown? && !p.Leftover?
    ensures StructuralMatch(Spelled(p) + rest) == Some(|Spelled(p)|) && 0 < |Spelled(p)|
  {
    hide BlockMatch, EndsFirst;
    match p
    case Literal(token) => LiteralMatches(token, rest);
    case Invoke(attributes, inside) =>
      BlockSpelled("<invoke", "</invoke>", attributes, inside, rest);
    case ToolCall(attributes, inside) =>
      NotOpened("<tool_call" + attributes + ">" + inside + "</tool_call>" + rest, "<invoke", "</invoke>");
      BlockSpelled("<tool_call", "</tool_call>", attributes, inside, rest);
  }

  lemma NotOpened(s: string, open: string, close: string)
    requires |s| > 1 && |open| > 1 && s[1] != open[1]
    ensures BlockMatch(s, open, close).None?
  {
    hide FindFrom;
  }

  lemma LiteralMatches(token: string, rest: string)
    requires Proper(Literal(token))
    ensures StructuralMatch(token + rest) == Some(|token|) && 0 < |token|
  {
    hide BlockMatch;
    var s := token + rest;
    assert token <= s && s[1] == token[1] && s[2] == token[2];
    NotOpened(s, "<invoke", "</invoke>");
    NotOpened(s, "<tool_call", "</tool_call>");
    if token != STRUCTURAL_TOKENS[0] { NotBegun(s, STRUCTURAL_TOKENS[0], 1); }
    if token != STRUCTURAL_TOKENS[0] && token != STRUCTURAL_TOKENS[1] { NotBegun(s, STRUCTURAL_TOKENS[1], 1); }
    if token == STRUCTURAL_TOKENS[3] { NotBegun(s, STRUCTURAL_TOKENS[2], 2); }
  }

  lemma NotBegun(s: string, token: string, i: nat)
    requires i < |s| && i < |token| && s[i] != token[i]
    ensures !(token <= s)
  {
  }

  lemma DropOne(s: string)
    requires s != "" && StructuralMatch(s).None?
    ensures DropStructural(s) == s[..1] + DropStructural(s[1..])
  {
    hide StructuralMatch;
  }

  lemma DropMatch(s: string, n: nat)
    requires StructuralMatch(s) == Some(n) && 0 < n <= |s|
    ensures DropStructural(s) == DropStructural(s[n..])
  {
    hide StructuralMatch;
  }

  lemma {:induction false} TextStays(a: string, s: string)
    requires '<' !in a
    ensures DropStructural(a + s) == a + DropStructural(s)
  {
    hide DropStructural, StructuralMatch;
    var t := a + s;
    if a == "" {
      assert t == s;
    } else {
      assert t[0] == a[0] && t[1..] == a[1..] + s && t[..1] == a[..1];
      if StructuralMatch(t).Some? { StructuralOpens(t); }
      DropOne(t);
      TextStays(a[1..], s);
      assert a == a[..1] + a[1..];
    }
  }

  lemma OpenerIsNoStructure(o: string, s: string)
    requires o in ["<think>", "<thinking>"]
    ensures StructuralMatch(o + s).None? && '<' !in o[1..]
  {
    hide BlockMatch;
    var t := o + s;
    assert t[0] == '<' && t[1] == 't' && t[2] == 'h';
    NotOpened(t, "<invoke", "</invoke>");
    NotCalled(t);
  }

  lemma NotCalled(t: string)
    requires |t| > 2 && t[2] == 'h'
    ensures BlockMatch(t, "<tool_call", "</tool_call>").None?
  {
    hide FindFrom;
    assert "<tool_call"[2] == 'o';
  }

  lemma OpenerStays(o: string, s: string)
    requires o != "" && '<' !in o[1..] && StructuralMatch(o + s).None?
    ensures DropStructural(o + s) == o + DropStructural(s)
  {
    var t := o + s;
    hide DropStructural, StructuralMatch;
    DropOne(t);
    assert t[1..] == o[1..] + s && t[..1] == o[..1] && o == o[..1] + o[1..];
    TextStays(o[1..], s);
  }

  lemma {:induction false} StructureDropped(pieces: seq<Piece>, s: string)
    requires forall p :: p in pieces ==> Proper(p)
    ensures DropStructural(SpelledAll(pieces) + s) == TextsAndOpeners(pieces) + DropStructural(s)
  {
    hide DropStructural, Proper, Spelled;
    if pieces == [] {
      assert SpelledAll(pieces) + s == s;
    } else {
      var p, later := pieces[0], SpelledAll(pieces[1..]) + s;
      assert SpelledAll(pieces) == Spelled(p) + SpelledAll(pieces[1..]);
      var kept := if p.Shown? || p.Leftover? then Spelled(p) else "";
      assert TextsAndOpeners(pieces) == kept + TextsAndOpeners(pieces[1..]);
      hide SpelledAll, TextsAndOpeners;
      StructureDropped(pieces[1..], s);
      PieceDropped(p, later);
      Grouped(Spelled(p), SpelledAll(pieces[1..]), s);
      Grouped(kept, TextsAndOpeners(pieces[1..]), DropStructural(s));
    }
  }

  lemma Grouped(a: string, b: string, c: string)
    ensures (a + b) + c == a + (b + c)
  {
  }

  lemma PieceDropped(p: Piece, s: string)
    requires Proper(p)
    ensures DropStructural(Spelled(p) + s) ==
              (if p.Shown? || p.Leftover? then Spelled(p) else "") + DropStructural(s)
  {
    hide StructuralMatch, DropStructural, EndsFirst;
    match p
    case Shown(text) => TextStays(text, s);
    case Leftover(opener) =>
      OpenerIsNoStructure(opener, s);
      OpenerStays(opener, s);
    case _ =>
      TokenMatches(p, s);
      DropMatch(Spelled(p) + s, |Spelled(p)|);
      assert (Spelled(p) + s)[|Spelled(p)|..] == s;
  }

  // ---- Leftover openers --------------------------------------------------------------

  lemma {:induction false} TextStaysToo(tags: seq<Tag>, a: string, s: string)
    requires '<' !in a && forall t :: t in tags ==> WellShaped(t)
    ensures DropTags(tags, a + s) == a + DropTags(tags, s)
  {
    var t := a + s;
    if a == "" {
      assert t == s;
    } else {
      assert t[0] == a[0] && t[1..] == a[1..] + s && t[..1] == a[..1];
      TextStaysToo(tags, a[1..], s);
      assert a == a[..1] + a[1..];
    }
  }

  lemma OpenerDropped(tags: seq<Tag>, o: Tag, s: string)
    requires o in tags && forall t :: t in tags ==> WellShaped(t)
    ensures DropTags(tags, o + s) == DropTags(tags, s)
  {
    assert o <= o + s;
    var t := LeadingTag(tags, o + s).value;
    if |t| <= |o| { SeparatedTags(t, o); } else { SeparatedTags(o, t); }
    assert (o + s)[|o|..] == s;
  }

  lemma {:induction false} OpenersDropped(tags: seq<Tag>, pieces: seq<Piece>, s: string)
    requires (forall p :: p in pieces ==> Proper(p)) && forall t :: t in tags ==> WellShaped(t)
    requires "<think>" in tags && "<thinking>" in tags
    ensures DropTags(tags, TextsAndOpeners(pieces) + s) == Texts(pieces) + DropTags(tags, s)
  {
    hide DropTags, WellShaped, Spelled, Proper;
    if pieces == [] {
      assert TextsAndOpeners(pieces) + s == s;
    } else {
      var p, later := pieces[0], TextsAndOpeners(pieces[1..]) + s;
      var kept := if p.Shown? || p.Leftover? then Spelled(p) else "";
      var shown := if p.Shown? then p.text else "";
      assert TextsAndOpeners(pieces) == kept + TextsAndOpeners(pieces[1..]);
      assert Texts(pieces) == shown + Texts(pieces[1..]);
      hide TextsAndOpeners, Texts;
      OpenersDropped(tags, pieces[1..], s);
      KeptDropped(tags, p, later);
      Grouped(kept, TextsAndOpeners(pieces[1..]), s);
      Grouped(shown, Texts(pieces[1..]), DropTags(tags, s));
    }
  }

  lemma KeptDropped(tags: seq<Tag>, p: Piece, s: string)
    requires Proper(p) && (forall t :: t in tags ==> WellShaped(t)) && "<think>" in tags && "<thinking>" in tags
    ensures DropTags(tags, (if p.Shown? || p.Leftover? then Spelled(p) else "") + s)
         == (if p.Shown? then p.text else "") + DropTags(tags, s)
  {
    hide DropTags, WellShaped, EndsFirst;
    match p
    case Shown(text) => TextStaysToo(tags, text, s);
    case Leftover(opener) => OpenerDropped(tags, opener, s);
    case _ => assert "" + s == s;
  }

  // ---- Whole responses -----------------------------------------------------------------

  /** The clean text of anything that is such an answer once its thinking is gone. */
  lemma CleanOfPieces(text: string, pieces: seq<Piece>, last: string)
    requires (forall p :: p in pieces ==> Proper(p)) && Plain(ModelTags(), last)
    requires DropThinking(ModelTags(), text) == SpelledAll(pieces) + last
    ensures StripModelTokens(ModelTags(), text) == Strip(Texts(pieces) + last)
  {
    var k := ModelTags();
    var tags := k.openers + k.closers;
    StructureDropped(pieces, last);
    DropNoStructure(last);
    ModelTagsSeparated();
    assert forall t :: t in tags ==> t in k.All();
    OpenersDropped(tags, pieces, last);
    DropNoTags(tags, last);
    hide DropTags, DropStructural, DropThinking, SpelledAll, Texts, TextsAndOpeners, Strip;
  }

  /** Leading thinking blocks and then an answer of any such pieces, in any order and
      number: the clean text is the answer's own text, trimmed. */
  lemma StructureIsRemoved(lead: string, blocks: seq<Block>, pieces: seq<Piece>, last: string)
    requires Blank(lead) && forall b :: b in blocks ==> WellFormed(ModelTags(), b)
    requires (forall p :: p in pieces ==> Proper(p)) && Plain(ModelTags(), last)
    requires NoTagIn(ModelTags().closers, SpelledAll(pieces) + last)
    ensures StripModelTokens(ModelTags(), lead + Response(blocks, SpelledAll(pieces) + last))
         == Strip(Texts(pieces) + last)
  {
    var k := ModelTags();
    ModelTagsTwoSided();
    hide StripModelTokens, DropThinking, Response, NoTagIn, Plain, Strip, WellFormed, ModelTags, TwoSided, Proper;
    var gap := BatchOfResult(k, lead, blocks, SpelledAll(pieces) + last);
    var all := [Shown(gap)] + pieces;
    assert all[0] == Shown(gap) && all[1..] == pieces;
    assert SpelledAll(all) + last == gap + (SpelledAll(pieces) + last);
    BlankIsText(gap);
    CleanOfPieces(lead + Response(blocks, SpelledAll(pieces) + last), all, last);
    assert Texts(all) + last == gap + (Texts(pieces) + last);
    TrimmedPastGap(gap, Texts(pieces) + last);
  }

  lemma BlankIsText(gap: string)
    requires Blank(gap)
    ensures Proper(Shown(gap))
  {
    assert !IsSpace('<');
  }

  lemma TrimmedPastGap(gap: string, s: string)
    requires Blank(gap)
    ensures Strip(gap + s) == Strip(s)
  {
    StripAfterGap(gap, s);
  }

  // ---- No closer in such an answer ------------------------------------------------------

  /** A tool call whose parts hold no `<`. */
  ghost predicate Simple(p: Piece)
  {
    match p
    case Invoke(attributes, inside) => '<' !in attributes && '<' !in inside && '>' !in attributes
    case ToolCall(attributes, inside) => '<' !in attributes && '<' !in inside && '>' !in attributes
    case _ => Proper(p)
  }

  lemma SimpleIsProper(p: Piece)
    requires Simple(p)
    ensures Proper(p)
  {
    match p
    case Invoke(_, inside) => EndsFirstIfSimple(inside, "</invoke>");
    case ToolCall(_, inside) => EndsFirstIfSimple(inside, "</tool_call>");
    case _ =>
  }

  lemma EndsFirstIfSimple(inside: string, close: string)
    requires '<' !in inside && close != "" && close[0] == '<'
    ensures EndsFirst(inside, close)
  {
    forall i | 0 <= i < |inside|
      ensures !OccursAt(inside + close, close, i)
    {
      assert (inside + close)[i] == inside[i];
    }
  }

  /** No closer starts in such a piece. */
  lemma NoCloserStarts(p: Piece, rest: string, i: nat, c: Tag)
    requires Simple(p) && i < |Spelled(p)| && c in ModelTags().closers
    ensures !OccursAt(Spelled(p) + rest, c, i)
  {
    hide OccursAt;
    match p
    case Shown(text) =>
      NoneInText("", text, rest, i, c);
      assert "" + text + rest == text + rest;
    case Literal(token) => NoneInToken(token, rest, i, c);
    case Leftover(opener) => NoneInToken(opener, rest, i, c);
    case Invoke(attributes, inside) => NoneInBlock("<invoke", attributes, inside, "</invoke>", rest, i, c);
    case ToolCall(attributes, inside) => NoneInBlock("<tool_call", attributes, inside, "</tool_call>", rest, i, c);
  }

  lemma CloserShape(c: Tag)
    requires c in ModelTags().closers
    ensures |c| > 3 && c[0] == '<' && c[1] == '/' && c[2] == 't' && c[3] == 'h'
  {
  }

  /** A closer starts with `</th`. */
  lemma StartsLikeCloser(s: string, c: Tag, i: nat)
    requires c in ModelTags().closers && OccursAt(s, c, i)
    ensures i + 3 < |s| && s[i] == '<' && s[i + 1] == '/' && s[i + 2] == 't' && s[i + 3] == 'h'
  {
    CloserShape(c);
    hide ModelTags;
    assert s[i..i + |c|][0] == c[0] && s[i..i + |c|][1] == c[1] && s[i..i + |c|][2] == c[2]
           && s[i..i + |c|][3] == c[3];
  }

  lemma NoneInText(before: string, text: string, rest: string, i: nat, c: Tag)
    requires '<' !in text && |before| <= i < |before + text| && c in ModelTags().closers
    ensures !OccursAt(before + text + rest, c, i)
  {
    assert (before + text + rest)[i] == text[i - |before|];
    if OccursAt(before + text + rest, c, i) { StartsLikeCloser(before + text + rest, c, i); }
  }

  predicate OpensOnce(token: string)
  {
    forall j :: 0 < j < |token| ==> token[j] != '<'
  }

  lemma TokenShape(token: string)
    requires Proper(Literal(token)) || Proper(Leftover(token))
    ensures |token| > 3 && OpensOnce(token) && (token[1] == '/' && token[2] == 't' ==> token[3] != 'h')
  {
    OpenersShape();
    DroppedShape();
    StructuralShape();
    hide WellShaped, OpensOnce;
    OnceIfWellShaped(token);
  }

  lemma StructuralShape()
    ensures WellShaped("<minimax:tool_call>") && WellShaped("</minimax:tool_call>")
  {
  }

  lemma OnceIfWellShaped(token: string)
    requires token != ""
    ensures WellShaped(token) ==> OpensOnce(token)
  {
  }

  /** A token that holds `<` at its start only and does not start like a closer. */
  lemma NoneInTag(before: string, token: string, rest: string, i: nat, c: Tag)
    requires |before| <= i < |before + token| && c in ModelTags().closers
    requires |token| > 3 && OpensOnce(token) && (token[1] == '/' && token[2] == 't' ==> token[3] != 'h')
    ensures !OccursAt(before + token + rest, c, i)
  {
    var s := before + token + rest;
    assert forall j :: 0 <= j < |token| ==> s[|before| + j] == token[j];
    if OccursAt(s, c, i) { StartsLikeCloser(s, c, i); }
  }

  lemma NoneInToken(token: string, rest: string, i: nat, c: Tag)
    requires Proper(Literal(token)) || Proper(Leftover(token))
    requires i < |token| && c in ModelTags().closers
    ensures !OccursAt(token + rest, c, i)
  {
    hide ModelTags, OccursAt, Proper, OpensOnce;
    TokenShape(token);
    NoneInTag("", token, rest, i, c);
    assert "" + token + rest == token + rest;
  }

  lemma NoneInBlock(open: string, attributes: string, inside: string, close: string, rest: string, i: nat, c: Tag)
    requires |open| > 3 && OpensOnce(open) && open[1] != '/' && '<' !in attributes && '<' !in inside
    requires |close| > 3 && OpensOnce(close) && close[3] != 'h' && c in ModelTags().closers
    requires i < |open + attributes + ">" + inside + close|
    ensures !OccursAt(open + attributes + ">" + inside + close + rest, c, i)
  {
    var text := attributes + ">" + inside;
    var s := open + attributes + ">" + inside + close + rest;
    hide OccursAt, ModelTags;
    assert s == "" + open + (text + close + rest) && s == open + text + (close + rest)
           && s == (open + text) + close + rest;
    if i < |open| {
      NoneInTag("", open, text + close + rest, i, c);
    } else if i < |open + text| {
      assert '<' !in text;
      NoneInText(open, text, close + rest, i, c);
    } else {
      NoneInTag(open + text, close, rest, i, c);
    }
  }

  /** So no closer occurs in an answer of simple pieces. */
  lemma {:induction false} NoCloserInSimple(pieces: seq<Piece>, last: string)
    requires (forall p :: p in pieces ==> Simple(p)) && NoTagIn(ModelTags().closers, last)
    ensures NoTagIn(ModelTags().closers, SpelledAll(pieces) + last)
  {
    hide ModelTags, OccursAt, Simple, Spelled;
    if pieces == [] {
      assert SpelledAll(pieces) + last == last;
    } else {
      var p, later := pieces[0], SpelledAll(pieces[1..]) + last;
      NoCloserInSimple(pieces[1..], last);
      var s := Spelled(p) + later;
      Grouped(Spelled(p), SpelledAll(pieces[1..]), last);
      forall i, c | 0 <= i < |s| && c in ModelTags().closers
        ensures !OccursAt(s, c, i)
      {
        if i < |Spelled(p)| {
          NoCloserStarts(p, later, i, c);
        } else {
          assert s[|Spelled(p)|..] == later;
          OccursAtShift(s, c, |Spelled(p)|, i - |Spelled(p)|);
        }
      }
    }
  }

  /** Of simple pieces, then, whatever thinking leads: only the answer's text is left. */
  lemma SimpleStructureIsRemoved(lead: string, blocks: seq<Block>, pieces: seq<Piece>, last: string)
    requires Blank(lead) && forall b :: b in blocks ==> WellFormed(ModelTags(), b)
    requires (forall p :: p in pieces ==> Simple(p)) && Plain(ModelTags(), last)
    ensures StripModelTokens(ModelTags(), lead + Response(blocks, SpelledAll(pieces) + last))
         == Strip(Texts(pieces) + last)
  {
    hide *;
    PlainHasNoCloser(ModelTags(), last);
    NoCloserInSimple(pieces, last);
    forall p | p in pieces
      ensures Proper(p)
    {
      SimpleIsProper(p);
    }
    StructureIsRemoved(lead, blocks, pieces, last);
  }

  // ---- Tool calls without an end -----------------------------------------------------------

  lemma NoAngleNoTag(s: string, tag: string, i: nat)
    requires i < |s| && s[i] != '<' && tag != "" && tag[0] == '<'
    ensures !OccursAt(s, tag, i)
  {
    if i + |tag| <= |s| { assert s[i..i + |tag|][0] == s[i]; }
  }

  lemma NotClosed(s: string, open: string, close: string)
    requires |s| > 0 && '<' !in s[1..] && close != "" && close[0] == '<' && |open| > 0
    ensures BlockMatch(s, open, close).None?
  {
    forall i | 0 < i < |s|
      ensures !OccursAt(s, close, i)
    {
      assert s[i] == s[1..][i - 1];
      NoAngleNoTag(s, close, i);
    }
    hide OccursAt;
  }

  lemma UnclosedIsNoStructure(open: string, t: string)
    requires open in ["<invoke", "<tool_call"] && '<' !in t
    ensures StructuralMatch(open + t).None?
  {
    hide BlockMatch;
    var s := open + t;
    assert s[1..] == open[1..] + t && open <= s && s[1] == open[1] && s[2] == open[2];
    NotClosed(s, "<invoke", "</invoke>");
    NotClosed(s, "<tool_call", "</tool_call>");
    NotBegun(s, STRUCTURAL_TOKENS[0], 1);
    NotBegun(s, STRUCTURAL_TOKENS[1], 1);
    NotBegun(s, STRUCTURAL_TOKENS[2], 1);
    NotBegun(s, STRUCTURAL_TOKENS[3], 1);
  }

  lemma NoTagOpens(open: string, t: string, tag: Tag)
    requires open in ["<invoke", "<tool_call"] && tag in ModelTags().All()
    ensures !OccursAt(open + t, tag, 0)
  {
    var s := open + t;
    assert open <= s && s[1] == open[1] && s[2] == open[2];
    if |tag| <= |s| { assert s[0..|tag|][1] == s[1] && s[0..|tag|][2] == s[2]; }
  }

  /** The beginning of a tool call that is never closed is no structural token. */
  lemma UnclosedIsPlain(a: string, open: string, t: string)
    requires '<' !in a && '<' !in t && open in ["<invoke", "<tool_call"]
    ensures Plain(ModelTags(), a + (open + t))
  {
    hide StructuralMatch, OccursAt, ModelTags;
    var s := a + (open + t);
    forall i | 0 <= i <= |s|
      ensures StructuralMatch(s[i..]).None?
    {
      if i == |a| {
        assert s[i..] == open + t;
        UnclosedIsNoStructure(open, t);
      } else {
        OneAngle(a, open, t, i);
        if StructuralMatch(s[i..]).Some? { StructuralOpens(s[i..]); }
      }
    }
    forall i, tag | 0 <= i < |s| && tag in ModelTags().All()
      ensures !OccursAt(s, tag, i)
    {
      ModelTagsShape();
      if i == |a| {
        assert s[i..] == open + t;
        NoTagOpens(open, t, tag);
        OccursAtShift(s, tag, i, 0);
      } else {
        OneAngle(a, open, t, i);
        NoAngleNoTag(s, tag, i);
      }
    }
  }

  lemma OneAngle(a: string, open: string, t: string, i: nat)
    requires '<' !in a && '<' !in t && open in ["<invoke", "<tool_call"]
    ensures var s := a + (open + t); i < |s| && i != |a| ==> s[i] != '<'
  {
    var s := a + (open + t);
    if |a| < i < |s| {
      assert s[i] == (open + t)[i - |a|];
      if |open| <= i - |a| { assert (open + t)[i - |a|] == t[i - |a| - |open|]; }
    }
  }

  /** A tool call that is never closed stays, whatever thinking and pieces come before. */
  lemma UnclosedCallIsKept(lead: string, blocks: seq<Block>, pieces: seq<Piece>, a: string, open: string, t: string)
    requires Blank(lead) && forall b :: b in blocks ==> WellFormed(ModelTags(), b)
    requires (forall p :: p in pieces ==> Simple(p)) && '<' !in a && '<' !in t && open in ["<invoke", "<tool_call"]
    ensures StripModelTokens(ModelTags(), lead + Response(blocks, SpelledAll(pieces) + (a + (open + t))))
         == Strip(Texts(pieces) + (a + (open + t)))
  {
    hide *;
    UnclosedIsPlain(a, open, t);
    SimpleStructureIsRemoved(lead, blocks, pieces, a + (open + t));
  }

  // ---- The stream ------------------------------------------------------------------------

  /** Text, or one of the two end-of-turn tokens. */
  ghost predicate Streamable(p: Piece)
  {
    match p
    case Shown(text) => '<' !in text
    case Literal(token) => token in ["<|im_end|>", "<|eot_id|>"]
    case _ => false
  }

  lemma TextOpensNothing(k: TagSet, a: string, s: string)
    requires k.Separated() && '<' !in a
    ensures Visible(k, false, a + s) == a + Visible(k, false, s)
  {
    var t := a + s;
    forall i, u | 0 <= i < |a| && u in k.All()
      ensures !OccursAt(t, u, i)
    {
      assert t[i] == a[i];
      NotOpening(t, u, i);
    }
    hide Visible;
    SkipPlain(k, false, t, |a|);
    assert t[..|a|] == a && t[|a|..] == s;
  }

  lemma TokenIsHidden(k: TagSet, token: Tag, s: string)
    requires k.Separated() && token in k.dropped && token !in k.openers
    ensures Visible(k, false, token + s) == Visible(k, false, s)
  {
    hide Visible;
    assert token in k.All();
    VisibleTag(k, false, token + s, token);
    assert (token + s)[|token|..] == s;
  }

  lemma {:induction false} StreamOfPieces(pieces: seq<Piece>, last: string)
    requires (forall p :: p in pieces ==> Streamable(p)) && NoTagIn(ModelTags().All(), last)
    ensures Visible(ModelTags(), false, SpelledAll(pieces) + last) == Texts(pieces) + last
  {
    hide Visible, NoTagIn, Spelled, Streamable, ModelTags;
    if pieces == [] {
      ModelTagsSeparated();
      assert SpelledAll(pieces) + last == last && Texts(pieces) + last == last;
      VisibleWithoutTags(ModelTags(), false, last);
    } else {
      var p, later := pieces[0], SpelledAll(pieces[1..]) + last;
      var shown := if p.Shown? then p.text else "";
      assert SpelledAll(pieces) == Spelled(p) + SpelledAll(pieces[1..]);
      assert Texts(pieces) == shown + Texts(pieces[1..]);
      hide SpelledAll, Texts;
      StreamOfPieces(pieces[1..], last);
      PieceStreams(p, later);
      Grouped(Spelled(p), SpelledAll(pieces[1..]), last);
      Grouped(shown, Texts(pieces[1..]), last);
    }
  }

  lemma PieceStreams(p: Piece, s: string)
    requires Streamable(p)
    ensures Visible(ModelTags(), false, Spelled(p) + s)
         == (if p.Shown? then p.text else "") + Visible(ModelTags(), false, s)
  {
    hide Visible, ModelTags;
    ModelTagsSeparated();
    match p
    case Shown(text) => TextOpensNothing(ModelTags(), text, s);
    case Literal(token) =>
      EndTokens(token);
      hide ModelTags;
      TokenIsHidden(ModelTags(), token, s);
  }

  lemma EndTokens(token: string)
    requires token in ["<|im_end|>", "<|eot_id|>"]
    ensures token in ModelTags().dropped && token !in ModelTags().openers
  {
    assert token[1] == '|';
  }

  /** Leading thinking blocks, then an answer with any end-of-turn tokens in it: the
      finished stream, right-trimmed, is the batch's clean text. */
  lemma StreamAgreesOnTokens(lead: string, blocks: seq<Block>, pieces: seq<Piece>, last: string)
    requires Blank(lead) && forall b :: b in blocks ==> WellFormed(ModelTags(), b)
    requires (forall p :: p in pieces ==> Streamable(p)) && Plain(ModelTags(), last)
    ensures var text := lead + Response(blocks, SpelledAll(pieces) + last);
            RStrip(Displayed(ModelTags(), text)) == StripModelTokens(ModelTags(), text) == Strip(Texts(pieces) + last)
  {
    assert forall p :: p in pieces ==> Simple(p);
    hide Visible, StripModelTokens, RStrip, LStrip, Response, NoTagIn, NoTagBefore, Unstructured, Simple, ModelTags,
         WellFormed, SpelledAll, Texts, Streamable;
    var k := ModelTags();
    ModelTagsSeparated();
    SimpleStructureIsRemoved(lead, blocks, pieces, last);
    StreamOfPieces(pieces, last);
    var answer := SpelledAll(pieces) + last;
    BlankShown(k, lead, Response(blocks, answer));
    StreamOfBlocks(k, blocks, answer);
    GapsOfBlocks(k, blocks);
    StripAfterGap(Gaps(blocks), Texts(pieces) + last);
    StripAfterGap(lead, Gaps(blocks) + (Texts(pieces) + last));
  }

  lemma GapsOfBlocks(k: TagSet, blocks: seq<Block>)
    requires forall b :: b in blocks ==> WellFormed(k, b)
    ensures Blank(Gaps(blocks))
  {
    GapsAreBlank(blocks);
  }
}
