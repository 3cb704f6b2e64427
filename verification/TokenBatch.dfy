/** The batch stripper that sees a whole response, and when the streamed display
    agrees with it. */
module TokenBatch {
  import opened Basics
  import opened TokenFilter

  // ---- Removing thinking blocks ------------------------------------------

  /** Leftmost occurrence of a tag: its position and the tag. */
  ghost function FirstTag(tags: seq<Tag>, s: string): (r: Option<(nat, Tag)>)
    decreases |s|
  {
    if LeadingTag(tags, s).Some? then Some((0, LeadingTag(tags, s).value))
    else if s == "" then None
    else
      match FirstTag(tags, s[1..])
      case None => None
      case Some((i, t)) => Some((1 + i, t))
  }

  lemma NoLeader(tags: seq<Tag>, s: string)
    ensures LeadingTag(tags, s).None? <==> forall t :: t in tags ==> !OccursAt(s, t, 0)
  {
    forall t | t in tags
      ensures OccursAt(s, t, 0) <==> t <= s
    {
    }
  }

  /** A stretch in which no tag starts only shifts the first occurrence. */
  lemma {:induction false} FirstTagSkip(tags: seq<Tag>, s: string, n: nat)
    requires n <= |s| && NoTagBefore(tags, s, n)
    ensures FirstTag(tags, s) == match FirstTag(tags, s[n..])
                                 case None => None
                                 case Some((i, t)) => Some((n + i, t))
  {
    if n == 0 {
      assert s[0..] == s;
    } else {
      NoLeader(tags, s);
      NoTagShift(tags, s, 1, n);
      FirstTagSkip(tags, s[1..], n - 1);
      assert s[1..][n - 1..] == s[n..];
    }
  }

  lemma {:induction false} FirstTagFound(tags: seq<Tag>, s: string)
    requires FirstTag(tags, s).Some?
    ensures var (i, t) := FirstTag(tags, s).value; t in tags && OccursAt(s, t, i) && NoTagBefore(tags, s, i)
  {
    var (i, t) := FirstTag(tags, s).value;
    NoLeader(tags, s);
    if LeadingTag(tags, s).None? {
      FirstTagFound(tags, s[1..]);
      OccursAtShift(s, t, 1, i - 1);
      forall j, u | 0 <= j < i && u in tags
        ensures !OccursAt(s, u, j)
      {
        if j > 0 { OccursAtShift(s, u, 1, j - 1); }
      }
    }
  }

  lemma FirstTagAbsent(tags: seq<Tag>, s: string)
    requires NoTagIn(tags, s)
    ensures FirstTag(tags, s).None?
  {
    FirstTagSkip(tags, s, |s|);
    assert s[|s|..] == "";
    NoLeader(tags, "");
  }

  lemma FirstTagAt(k: TagSet, tags: seq<Tag>, s: string, i: nat, t: Tag)
    requires k.Separated() && (forall u :: u in tags ==> u in k.All())
    requires t in tags && OccursAt(s, t, i) && NoTagBefore(tags, s, i)
    ensures FirstTag(tags, s) == Some((i, t))
  {
    FirstTagSkip(tags, s, i);
    assert t <= s[i..];
    var u := LeadingTag(tags, s[i..]).value;
    LeadersAgree(k, s[i..], t, u);
  }

  lemma LeadersAgree(k: TagSet, s: string, t: Tag, u: Tag)
    requires k.Separated() && t in k.All() && u in k.All() && t <= s && u <= s
    ensures t == u
  {
    if |t| <= |u| { SeparatedTags(t, u); } else { SeparatedTags(u, t); }
  }

  /** How much of `s` the thinking pattern matches at its start: an opener if
      there is one, then as little as possible up to a closer; without the
      opener if that attempt fails. */
  ghost function ThinkMatch(k: TagSet, s: string): Option<nat>
  {
    var attempt := OpenedMatch(k, s);
    if attempt.Some? then attempt
    else
      match FirstTag(k.closers, s)
      case None => None
      case Some((i, c)) => Some(i + |c|)
  }

  ghost function OpenedMatch(k: TagSet, s: string): Option<nat>
  {
    match LeadingTag(k.openers, s)
    case None => None
    case Some(o) =>
      match FirstTag(k.closers, s[|o|..])
      case None => None
      case Some((i, c)) => Some(|o| + i + |c|)
  }

  /** Substitute the empty string for every match, left to right. */
  ghost function DropThinking(k: TagSet, s: string): string
    decreases |s|
  {
    match ThinkMatch(k, s)
    case Some(n) => if 0 < n <= |s| then DropThinking(k, s[n..]) else s
    case None => if s == "" then "" else s[..1] + DropThinking(k, s[1..])
  }

  /** Openers and closers are told apart. */
  ghost predicate TwoSided(k: TagSet)
  {
    k.Separated() && forall o :: o in k.openers ==> o !in k.closers
  }

  lemma ModelTagsTwoSided()
    ensures TwoSided(ModelTags())
  {
    hide *;
    ModelTagsSeparated();
    forall o | o in ModelTags().openers
      ensures o !in ModelTags().closers
    {
      OpenersAreNotClosers(o);
    }
    TwoSidedBy(ModelTags());
  }

  lemma OpenersAreNotClosers(o: Tag)
    requires o in ModelTags().openers
    ensures o !in ModelTags().closers
  {
    assert o[1] == 't' && forall c :: c in ModelTags().closers ==> c[1] == '/';
  }

  lemma TwoSidedBy(k: TagSet)
    requires k.Separated() && forall o :: o in k.openers ==> o !in k.closers
    ensures TwoSided(k)
  {
  }

  lemma OpensWith(s: string, t: Tag, i: nat)
    requires WellShaped(t) && OccursAt(s, t, i)
    ensures s[i] == '<'
  {
    assert s[i] == s[i..i + |t|][0];
  }

  lemma NotOpening(s: string, t: Tag, i: nat)
    requires WellShaped(t) && i < |s| && s[i] != '<'
    ensures !OccursAt(s, t, i)
  {
    if i + |t| <= |s| { assert s[i] == s[i..i + |t|][0]; }
  }

  lemma NoCloserInOpener(k: TagSet, s: string, o: Tag)
    requires TwoSided(k) && o in k.openers && o <= s
    ensures NoTagBefore(k.closers, s, |o|)
  {
    assert o in k.All() && OccursAt(s, o, 0);
    forall i, c | 0 <= i < |o| && c in k.closers
      ensures !OccursAt(s, c, i)
    {
      assert c in k.All();
      if i == 0 {
        if c <= s { LeadersAgree(k, s, o, c); }
      } else {
        if OccursAt(s, c, i) { OpensWith(s, c, i); }
        InsideTag(s, o, 0, i);
      }
    }
  }

  /** An optional opener changes nothing: the match ends with the first closer. */
  lemma ThinkMatchEndsAtFirstCloser(k: TagSet, s: string)
    requires TwoSided(k)
    ensures ThinkMatch(k, s) == match FirstTag(k.closers, s)
                                case None => None
                                case Some((i, c)) => Some(i + |c|)
  {
    hide FirstTag;
    match LeadingTag(k.openers, s)
    case None =>
    case Some(o) =>
      NoCloserInOpener(k, s, o);
      FirstTagSkip(k.closers, s, |o|);
  }

  lemma LeadsAt(s: string, t: Tag, i: nat)
    requires OccursAt(s, t, i)
    ensures i <= |s| && t <= s[i..]
  {
    assert s[i..][..|t|] == s[i..i + |t|];
  }

  /** Removing thinking blocks keeps exactly the text after the last closer. */
  lemma {:induction false} DropThinkingKeepsTheRest(k: TagSet, s: string, i: nat, c: Tag)
    requires TwoSided(k) && c in k.closers && OccursAt(s, c, i)
    requires NoTagIn(k.closers, s[i + |c|..])
    ensures DropThinking(k, s) == s[i + |c|..]
    decreases |s|
  {
    hide ThinkMatch, FirstTag;
    ThinkMatchEndsAtFirstCloser(k, s);
    assert !NoTagIn(k.closers, s) by { assert 0 <= i < |s|; }
    FirstCloserExists(k.closers, s);
    FirstTagFound(k.closers, s);
    var (j, d) := FirstTag(k.closers, s).value;
    var rest := s[j + |d|..];
    if j == i {
      LeadsAt(s, c, i);
      LeadsAt(s, d, i);
      assert c in k.All() && d in k.All();
      LeadersAgree(k, s[i..], c, d);
      DropNothing(k, rest);
    } else {
      TagsApart(k, s, j, d, i, c);
      OccursAtShift(s, c, j + |d|, i - (j + |d|));
      assert rest[i - (j + |d|) + |c|..] == s[i + |c|..];
      DropThinkingKeepsTheRest(k, rest, i - (j + |d|), c);
    }
  }

  lemma FirstCloserExists(tags: seq<Tag>, s: string)
    requires !NoTagIn(tags, s)
    ensures FirstTag(tags, s).Some?
  {
    if FirstTag(tags, s).None? { NoFirstTag(tags, s); }
  }

  lemma {:induction false} NoFirstTag(tags: seq<Tag>, s: string)
    requires FirstTag(tags, s).None?
    ensures NoTagIn(tags, s)
  {
    NoLeader(tags, s);
    if s != "" {
      NoFirstTag(tags, s[1..]);
      forall i, t | 0 < i < |s| && t in tags
        ensures !OccursAt(s, t, i)
      {
        OccursAtShift(s, t, 1, i - 1);
      }
    }
  }

  /** Two occurrences of tags that start apart do not overlap. */
  lemma TagsApart(k: TagSet, s: string, j: nat, d: Tag, i: nat, c: Tag)
    requires k.Separated() && d in k.All() && c in k.All()
    requires OccursAt(s, d, j) && OccursAt(s, c, i) && j < i
    ensures j + |d| <= i
  {
    OpensWith(s, c, i);
    if i < j + |d| { InsideTag(s, d, j, i); }
  }

  lemma {:induction false} DropNothing(k: TagSet, s: string)
    requires TwoSided(k) && NoTagIn(k.closers, s)
    ensures DropThinking(k, s) == s
    decreases |s|
  {
    hide ThinkMatch, FirstTag;
    ThinkMatchEndsAtFirstCloser(k, s);
    FirstTagAbsent(k.closers, s);
    if s != "" {
      NoTagShift(k.closers, s, 1, |s|);
      DropNothing(k, s[1..]);
      assert s == s[..1] + s[1..];
    }
  }

  // ---- Structural tokens and leftovers -----------------------------------

  /** `open`, as little as possible, `>`, as little as possible, `close`. */
  function BlockMatch(s: string, open: string, close: string): Option<nat>
  {
    if !(open <= s) then None
    else
      var gt := FindFrom(s, ">", |open|);
      if gt == -1 then None
      else
        var end := FindFrom(s, close, gt + 1);
        if end == -1 then None else Some(end + |close|)
  }

  const STRUCTURAL_TOKENS: seq<string> :=
    ["<minimax:tool_call>", "</minimax:tool_call>", "<|im_end|>", "<|eot_id|>"]

  /** How much of `s` the structural pattern matches at its start. */
  function StructuralMatch(s: string): Option<nat>
  {
    var invoke := BlockMatch(s, "<invoke", "</invoke>");
    if invoke.Some? then invoke
    else
      var call := BlockMatch(s, "<tool_call", "</tool_call>");
      if call.Some? then call
      else if STRUCTURAL_TOKENS[0] <= s then Some(|STRUCTURAL_TOKENS[0]|)
      else if STRUCTURAL_TOKENS[1] <= s then Some(|STRUCTURAL_TOKENS[1]|)
      else if STRUCTURAL_TOKENS[2] <= s then Some(|STRUCTURAL_TOKENS[2]|)
      else if STRUCTURAL_TOKENS[3] <= s then Some(|STRUCTURAL_TOKENS[3]|)
      else None
  }

  function DropStructural(s: string): string
    decreases |s|
  {
    match StructuralMatch(s)
    case Some(n) => if 0 < n <= |s| then DropStructural(s[n..]) else s
    case None => if s == "" then "" else s[..1] + DropStructural(s[1..])
  }

  ghost function DropTags(tags: seq<Tag>, s: string): string
    decreases |s|
  {
    match LeadingTag(tags, s)
    case Some(t) => DropTags(tags, s[|t|..])
    case None => if s == "" then "" else s[..1] + DropTags(tags, s[1..])
  }

  /** The clean text of a whole response. */
  ghost function StripModelTokens(k: TagSet, s: string): string
  {
    Strip(DropTags(k.openers + k.closers, DropStructural(DropThinking(k, s))))
  }

  /** No structural match starts anywhere in `s`. */
  ghost predicate Unstructured(s: string)
  {
    forall i :: 0 <= i <= |s| ==> StructuralMatch(s[i..]).None?
  }

  /** Text a reader is meant to see: no tag and no structural token in it. */
  ghost predicate Plain(k: TagSet, s: string)
  {
    NoTagIn(k.All(), s) && Unstructured(s)
  }

  lemma StructuralOpens(s: string)
    requires StructuralMatch(s).Some?
    ensures s != "" && s[0] == '<'
  {
  }

  lemma {:induction false} DropNoStructure(s: string)
    requires Unstructured(s)
    ensures DropStructural(s) == s
  {
    assert s[0..] == s && StructuralMatch(s[0..]).None?;
    if s != "" {
      forall i | 0 <= i <= |s| - 1
        ensures StructuralMatch(s[1..][i..]).None?
      {
        assert s[1..][i..] == s[1 + i..];
      }
      DropNoStructure(s[1..]);
      assert s == s[..1] + s[1..];
    }
  }

  lemma {:induction false} DropNoTags(tags: seq<Tag>, s: string)
    requires NoTagIn(tags, s)
    ensures DropTags(tags, s) == s
  {
    NoLeader(tags, s);
    if s != "" {
      NoTagShift(tags, s, 1, |s|);
      DropNoTags(tags, s[1..]);
      assert s == s[..1] + s[1..];
    }
  }

  /** Whitespace in front of plain text leaves it plain. */
  lemma {:induction false} BlankThenPlain(k: TagSet, gap: string, s: string)
    requires k.Separated() && Blank(gap) && Plain(k, s)
    ensures Plain(k, gap + s)
  {
    if gap == "" {
      assert gap + s == s;
    } else {
      BlankThenPlain(k, gap[1..], s);
      var t := gap + s;
      assert t[1..] == gap[1..] + s;
      assert !IsSpace('<') && t[0] == gap[0] != '<';
      forall i | 0 <= i <= |t|
        ensures StructuralMatch(t[i..]).None?
      {
        if i == 0 {
          assert t[0..] == t;
          if StructuralMatch(t).Some? { StructuralOpens(t); }
        } else {
          assert t[i..] == t[1..][i - 1..];
        }
      }
      forall i, u | 0 <= i < |t| && u in k.All()
        ensures !OccursAt(t, u, i)
      {
        if i == 0 {
          NotOpening(t, u, 0);
        } else {
          OccursAtShift(t, u, 1, i - 1);
        }
      }
    }
  }

  /** The clean text of anything whose part after the last closer is plain. */
  lemma CleanOfPlain(k: TagSet, text: string, rest: string)
    requires Plain(k, rest) && DropThinking(k, text) == rest
    ensures StripModelTokens(k, text) == Strip(rest)
  {
    DropNoStructure(rest);
    forall i, t | 0 <= i < |rest| && t in k.openers + k.closers
      ensures !OccursAt(rest, t, i)
    {
      assert t in k.All();
    }
    DropNoTags(k.openers + k.closers, rest);
  }

  // ---- The stream and the batch agree ------------------------------------

  /** A thinking block and the whitespace after it. */
  datatype Block = Block(opener: Tag, body: string, closer: Tag, gap: string)

  ghost predicate WellFormed(k: TagSet, b: Block)
  {
    b.opener in k.openers && b.closer in k.closers && NoTagIn(k.closers, b.body) && Blank(b.gap)
  }

  function Text(b: Block): string
  {
    b.opener + b.body + b.closer + b.gap
  }

  function Response(blocks: seq<Block>, answer: string): string
  {
    if blocks == [] then answer else Text(blocks[0]) + Response(blocks[1..], answer)
  }

  function Gaps(blocks: seq<Block>): string
  {
    if blocks == [] then "" else blocks[0].gap + Gaps(blocks[1..])
  }

  lemma {:induction false} GapsAreBlank(blocks: seq<Block>)
    requires forall b :: b in blocks ==> Blank(b.gap)
    ensures Blank(Gaps(blocks))
  {
    if blocks != [] { GapsAreBlank(blocks[1..]); }
  }

  lemma BlankOpensNothing(k: TagSet, tags: seq<Tag>, gap: string, rest: string)
    requires k.Separated() && Blank(gap) && forall t :: t in tags ==> t in k.All()
    ensures NoTagBefore(tags, gap + rest, |gap|)
  {
    assert !IsSpace('<');
    forall i, t | 0 <= i < |gap| && t in tags
      ensures !OccursAt(gap + rest, t, i)
    {
      assert (gap + rest)[i] == gap[i];
      NotOpening(gap + rest, t, i);
    }
  }

  lemma NoCloserBeforeOwn(k: TagSet, body: string, c: Tag)
    requires k.Separated() && c in k.closers && NoTagIn(k.closers, body)
    ensures OccursAt(body + c, c, |body|) && NoTagBefore(k.closers, body + c, |body|)
  {
    var s := body + c;
    assert c in k.All();
    assert s[|body|..|body| + |c|] == c;
    forall i, t | 0 <= i < |body| && t in k.closers
      ensures !OccursAt(s, t, i)
    {
      assert t in k.All();
      if i + |t| <= |body| {
        OccursInPrefix(body, c, t, i);
      } else if OccursAt(s, t, i) {
        TagsApart(k, s, i, t, |body|, c);
      }
    }
  }

  /** The stream hides a block and shows the whitespace after it. */
  lemma BlockIsHidden(k: TagSet, b: Block, rest: string)
    requires k.Separated() && WellFormed(k, b)
    ensures Visible(k, false, Text(b) + rest) == b.gap + Visible(k, false, rest)
  {
    hide Visible;
    var s := Text(b) + rest;
    assert b.opener in k.All() && b.closer in k.All();
    assert s == b.opener + (b.body + b.closer + (b.gap + rest));
    VisibleTag(k, false, s, b.opener);
    assert s[|b.opener|..] == b.body + b.closer + (b.gap + rest);
    NoCloserBeforeOwn(k, b.body, b.closer);
    ConsumeTag(k, true, b.body + b.closer, b.gap + rest, |b.body|, b.closer);
    assert (b.body + b.closer)[|b.body| + |b.closer|..] + (b.gap + rest) == b.gap + rest;
    BlankShown(k, b.gap, rest);
  }

  lemma {:induction false} StreamOfBlocks(k: TagSet, blocks: seq<Block>, answer: string)
    requires k.Separated() && forall b :: b in blocks ==> WellFormed(k, b)
    ensures Visible(k, false, Response(blocks, answer)) == Gaps(blocks) + Visible(k, false, answer)
  {
    hide Visible;
    if blocks != [] {
      BlockIsHidden(k, blocks[0], Response(blocks[1..], answer));
      StreamOfBlocks(k, blocks[1..], answer);
    }
  }

  lemma {:induction false} ResponseSnoc(init: seq<Block>, b: Block, answer: string)
    ensures Response(init + [b], answer) == Response(init, "") + Text(b) + answer
  {
    if init == [] {
      assert (init + [b])[1..] == [];
    } else {
      assert (init + [b])[1..] == init[1..] + [b];
      ResponseSnoc(init[1..], b, answer);
    }
  }

  lemma NoCloserAfterGap(k: TagSet, gap: string, answer: string)
    requires k.Separated() && Blank(gap) && NoTagIn(k.closers, answer)
    ensures NoTagIn(k.closers, gap + answer)
  {
    var s := gap + answer;
    BlankOpensNothing(k, k.closers, gap, answer);
    forall i, t | |gap| <= i < |s| && t in k.closers
      ensures !OccursAt(s, t, i)
    {
      assert s[i..] == answer[i - |gap|..] && !OccursAt(answer, t, i - |gap|);
      OccursAtShift(s, t, |gap|, i - |gap|);
    }
  }

  lemma BatchAfterLastBlock(k: TagSet, before: string, c: Tag, gap: string, answer: string)
    requires TwoSided(k) && c in k.closers && Blank(gap) && NoTagIn(k.closers, answer)
    ensures DropThinking(k, before + c + (gap + answer)) == gap + answer
  {
    hide DropThinking;
    var text := before + c + (gap + answer);
    assert text[|before|..|before| + |c|] == c;
    assert text[|before| + |c|..] == gap + answer;
    NoCloserAfterGap(k, gap, answer);
    DropThinkingKeepsTheRest(k, text, |before|, c);
  }

  lemma Reassociate(lead: string, a: string, o: string, body: string, c: string, gap: string, answer: string)
    ensures lead + (a + (o + body + c + gap) + answer) == (lead + a + o + body) + c + (gap + answer)
  {
  }

  /** The batch keeps the last gap and the answer. */
  lemma BatchOfResponse(k: TagSet, lead: string, init: seq<Block>, b: Block, answer: string)
    requires TwoSided(k) && WellFormed(k, b) && NoTagIn(k.closers, answer)
    ensures DropThinking(k, lead + Response(init + [b], answer)) == b.gap + answer
  {
    hide DropThinking, NoTagIn, Response, TwoSided;
    ResponseSnoc(init, b, answer);
    Reassociate(lead, Response(init, ""), b.opener, b.body, b.closer, b.gap, answer);
    BatchAfterLastBlock(k, lead + Response(init, "") + b.opener + b.body, b.closer, b.gap, answer);
  }

  lemma BatchOfResult(k: TagSet, lead: string, blocks: seq<Block>, answer: string) returns (gap: string)
    requires TwoSided(k) && Blank(lead) && (forall b :: b in blocks ==> WellFormed(k, b)) && NoTagIn(k.closers, answer)
    ensures Blank(gap) && DropThinking(k, lead + Response(blocks, answer)) == gap + answer
  {
    hide DropThinking, NoTagIn, TwoSided;
    if blocks == [] {
      gap := lead;
      NoCloserAfterGap(k, lead, answer) by { assert k.Separated() by { TwoSidedIsSeparated(k); } }
      DropNothing(k, lead + answer);
    } else {
      var init, b := blocks[..|blocks| - 1], blocks[|blocks| - 1];
      assert blocks == init + [b] && b in blocks;
      gap := b.gap;
      BatchOfResponse(k, lead, init, b, answer);
    }
  }

  lemma TwoSidedIsSeparated(k: TagSet)
    requires TwoSided(k)
    ensures k.Separated()
  {
  }

  lemma StripAfterGap(gap: string, s: string)
    requires Blank(gap)
    ensures LStrip(gap + s) == LStrip(s)
  {
    LStripConcat(gap, s);
    LStripBlank(gap);
  }

  /** Leading thinking blocks, then a plain answer: the finished stream,
      right-trimmed, is the batch's clean text, and both are the answer. */
  lemma StreamAgreesWithBatch(k: TagSet, lead: string, blocks: seq<Block>, answer: string)
    requires TwoSided(k) && Blank(lead) && (forall b :: b in blocks ==> WellFormed(k, b)) && Plain(k, answer)
    ensures var text := lead + Response(blocks, answer);
            RStrip(Displayed(k, text)) == StripModelTokens(k, text) == Strip(answer)
  {
    PlainHasNoCloser(k, answer);
    hide Visible, StripModelTokens, RStrip, LStrip, Response, NoTagIn, NoTagBefore, Unstructured;
    var rest := Response(blocks, answer);
    var gap := BatchOfResult(k, lead, blocks, answer);
    BlankThenPlain(k, gap, answer);
    CleanOfPlain(k, lead + rest, gap + answer);
    StripAfterGap(gap, answer);
    BlankShown(k, lead, rest);
    StreamOfBlocks(k, blocks, answer);
    VisibleWithoutTags(k, false, answer);
    GapsAreBlank(blocks);
    StripAfterGap(Gaps(blocks), answer);
    StripAfterGap(lead, Gaps(blocks) + answer);
  }

  lemma PlainHasNoCloser(k: TagSet, answer: string)
    requires Plain(k, answer)
    ensures NoTagIn(k.closers, answer)
  {
    assert forall t :: t in k.closers ==> t in k.All();
  }

  lemma BlankShown(k: TagSet, gap: string, rest: string)
    requires k.Separated() && Blank(gap)
    ensures Visible(k, false, gap + rest) == gap + Visible(k, false, rest)
  {
    hide Visible;
    BlankOpensNothing(k, k.All(), gap, rest);
    SkipPlain(k, false, gap + rest, |gap|);
    assert (gap + rest)[..|gap|] == gap && (gap + rest)[|gap|..] == rest;
  }

  // ---- Where they differ -------------------------------------------------

  lemma {:induction false} RStripConcat(a: string, b: string)
    ensures RStrip(a + b) == (if RStrip(b) == "" then RStrip(a) else a + RStrip(b))
  {
    if b == "" {
      assert a + b == a;
    } else if IsSpace(b[|b| - 1]) {
      assert (a + b)[..|a + b| - 1] == a + b[..|b| - 1];
      RStripConcat(a, b[..|b| - 1]);
    }
  }

  lemma {:induction false} RStripPrefix(s: string)
    ensures RStrip(s) <= s && Blank(s[|RStrip(s)|..])
    ensures RStrip(s) == "" <==> Blank(s)
  {
    if s != "" && IsSpace(s[|s| - 1]) {
      var init, r := s[..|s| - 1], RStrip(s);
      RStripPrefix(init);
      assert r <= init <= s;
      forall i | |r| <= i < |s|
        ensures IsSpace(s[i])
      {
        if i < |init| { assert init[|r|..][i - |r|] == s[i]; }
      }
    } else if s != "" {
      assert !Blank(s);
    }
  }

  /** Thought text whose opening tag the model left out: the batch drops it,
      the stream shows it. They agree exactly when there was none. */
  lemma UnopenedThoughtIsShown(k: TagSet, thought: string, closer: Tag, answer: string)
    requires TwoSided(k) && closer in k.closers && NoTagIn(k.All(), thought) && Plain(k, answer)
    ensures var text := thought + closer + answer;
            && Displayed(k, text) == LStrip(thought + answer)
            && StripModelTokens(k, text) == Strip(answer)
            && (RStrip(Displayed(k, text)) == StripModelTokens(k, text) <==> Blank(thought))
  {
    hide Visible, StripModelTokens, DropThinking;
    var text := thought + closer + answer;
    assert closer in k.All();
    assert text[|thought|..|thought| + |closer|] == closer && text[|thought| + |closer|..] == answer;
    assert NoTagIn(k.closers, answer) by { assert forall t :: t in k.closers ==> t in k.All(); }
    DropThinkingKeepsTheRest(k, text, |thought|, closer);
    CleanOfPlain(k, text, answer);
    StreamPastCloser(k, thought, closer, answer);
    TrimmedPair(thought, answer);
  }

  lemma StreamPastCloser(k: TagSet, thought: string, closer: Tag, answer: string)
    requires k.Separated() && closer in k.closers && NoTagIn(k.All(), thought) && NoTagIn(k.All(), answer)
    requires forall o :: o in k.openers ==> o !in k.closers
    ensures Visible(k, false, thought + closer + answer) == thought + answer
  {
    hide Visible;
    var s := thought + closer;
    assert closer in k.All() && s[|thought|..|thought| + |closer|] == closer;
    forall i, t | 0 <= i < |thought| && t in k.All()
      ensures !OccursAt(s, t, i)
    {
      if i + |t| <= |thought| {
        OccursInPrefix(thought, closer, t, i);
      } else if OccursAt(s, t, i) {
        TagsApart(k, s, i, t, |thought|, closer);
      }
    }
    ConsumeTag(k, false, s, answer, |thought|, closer);
    VisibleWithoutTags(k, false, answer);
    assert s[..|thought|] == thought && s[|thought| + |closer|..] + answer == answer;
  }

  /** Trimming `a + b` gives the trimmed `b` just when `a` is blank. */
  lemma TrimmedPair(a: string, b: string)
    ensures RStrip(LStrip(a + b)) == Strip(b) <==> Blank(a)
  {
    hide LStrip, RStrip, Blank;
    LStripConcat(a, b);
    if Blank(a) {
      LStripBlank(a);
      assert "" + LStrip(b) == LStrip(b);
    } else {
      NotBlankLeaves(a);
      RStripConcat(LStrip(a), b);
      RStripPrefix(LStrip(a));
      TrimmedShorter(b);
    }
  }

  lemma NotBlankLeaves(a: string)
    requires !Blank(a)
    ensures LStrip(a) != "" && !Blank(LStrip(a))
  {
    hide LStrip;
    LStripSuffix(a);
    if Blank(LStrip(a)) { NotBlank(a, |a| - |LStrip(a)|); }
  }

  /** Trimming both ends leaves no more than trimming the right end. */
  lemma TrimmedShorter(b: string)
    ensures |Strip(b)| <= |RStrip(b)|
  {
    hide LStrip, RStrip;
    LStripSuffix(b);
    var y := LStrip(b);
    assert b == b[..|b| - |y|] + y;
    RStripConcat(b[..|b| - |y|], y);
  }

  lemma NotBlank(a: string, n: nat)
    requires n <= |a| && Blank(a[..n]) && Blank(a[n..])
    ensures Blank(a)
  {
    forall i | 0 <= i < |a|
      ensures IsSpace(a[i])
    {
      if i < n { assert a[i] == a[..n][i]; } else { assert a[i] == a[n..][i - n]; }
    }
  }

  // ---- The extracted thoughts ----------------------------------------------

  /** The group of the thinking pattern matched at the start of `s`: what lies
      between opener and closer, or all before the closer if no opener is there. */
  ghost function Group(k: TagSet, s: string): string
  {
    if OpenedMatch(k, s).Some? then
      var o := LeadingTag(k.openers, s).value;
      var (i, _) := FirstTag(k.closers, s[|o|..]).value;
      if |o| + i <= |s| then s[|o|..|o| + i] else ""
    else
      match FirstTag(k.closers, s)
      case None => ""
      case Some((i, _)) => if i <= |s| then s[..i] else ""
  }

  /** The list returned beside the clean text. */
  ghost function Thoughts(k: TagSet, s: string): seq<string>
    decreases |s|
  {
    match ThinkMatch(k, s)
    case Some(n) => if 0 < n <= |s| then [Strip(Group(k, s))] + Thoughts(k, s[n..]) else []
    case None => if s == "" then [] else Thoughts(k, s[1..])
  }

  /** A thought is the body of its block only if nothing stands before the
      opener; otherwise the pattern takes the opener for part of it. */
  function Extracted(lead: string, blocks: seq<Block>): seq<string>
    decreases |blocks|
  {
    if blocks == [] then []
    else
      var b := blocks[0];
      [Strip(if lead == "" then b.body else lead + b.opener + b.body)] + Extracted(b.gap, blocks[1..])
  }

  lemma CloserOfBlock(k: TagSet, lead: string, b: Block, rest: string)
    requires TwoSided(k) && Blank(lead) && WellFormed(k, b)
    ensures FirstTag(k.closers, b.body + b.closer + rest) == Some((|b.body|, b.closer))
    ensures FirstTag(k.closers, lead + (b.opener + (b.body + b.closer + rest)))
         == Some((|lead| + |b.opener| + |b.body|, b.closer))
  {
    hide FirstTag, NoTagBefore, OccursAt;
    var inner := b.body + b.closer + rest;
    var framed := b.opener + inner;
    assert k.Separated() && forall t :: t in k.closers ==> t in k.All();
    NoCloserBeforeOwn(k, b.body, b.closer);
    NoEarlierTag(k, true, b.body + b.closer, rest, |b.body|, b.closer);
    assert OccursAt(inner, b.closer, |b.body|) by { OccursInPrefix(b.body + b.closer, rest, b.closer, |b.body|); }
    FirstTagAt(k, k.closers, inner, |b.body|, b.closer);
    NoCloserInOpener(k, framed, b.opener);
    FirstTagSkip(k.closers, framed, |b.opener|);
    assert framed[|b.opener|..] == inner;
    BlankOpensNothing(k, k.closers, lead, framed);
    FirstTagSkip(k.closers, lead + framed, |lead|);
    assert (lead + framed)[|lead|..] == framed;
  }

  lemma GroupOfLeadingBlock(k: TagSet, b: Block, rest: string)
    requires TwoSided(k) && WellFormed(k, b)
    ensures Group(k, b.opener + (b.body + b.closer + rest)) == b.body
  {
    hide FirstTag, NoTagIn;
    var inner := b.body + b.closer + rest;
    var s := b.opener + inner;
    CloserOfBlock(k, "", b, rest);
    assert b.opener in k.All() && b.opener <= s;
    LeadersAgree(k, s, b.opener, LeadingTag(k.openers, s).value);
    assert s[|b.opener|..] == inner;
    assert s[|b.opener|..|b.opener| + |b.body|] == inner[..|b.body|] == b.body;
  }

  lemma GroupAfterGap(k: TagSet, lead: string, b: Block, rest: string)
    requires TwoSided(k) && Blank(lead) && lead != "" && WellFormed(k, b)
    ensures Group(k, lead + (b.opener + (b.body + b.closer + rest))) == lead + b.opener + b.body
  {
    hide FirstTag, NoTagIn;
    var s := lead + (b.opener + (b.body + b.closer + rest));
    CloserOfBlock(k, lead, b, rest);
    assert s[0] == lead[0] && !IsSpace('<');
    forall t | t in k.openers
      ensures !OccursAt(s, t, 0)
    {
      assert t in k.All();
      NotOpening(s, t, 0);
    }
    NoLeader(k.openers, s);
    hide OccursAt;
    assert s[..|lead| + |b.opener| + |b.body|] == lead + b.opener + b.body;
  }

  lemma {:induction false} NoThoughts(k: TagSet, s: string)
    requires TwoSided(k) && NoTagIn(k.closers, s)
    ensures Thoughts(k, s) == []
    decreases |s|
  {
    hide ThinkMatch, FirstTag, Group;
    ThinkMatchEndsAtFirstCloser(k, s);
    FirstTagAbsent(k.closers, s);
    if s != "" {
      NoTagShift(k.closers, s, 1, |s|);
      NoThoughts(k, s[1..]);
    }
  }

  /** The thoughts of a response, in order, one for each block. */
  lemma {:induction false} ThoughtsOfResponse(k: TagSet, lead: string, blocks: seq<Block>, answer: string)
    requires TwoSided(k) && Blank(lead) && (forall b :: b in blocks ==> WellFormed(k, b)) && NoTagIn(k.closers, answer)
    ensures Thoughts(k, lead + Response(blocks, answer)) == Extracted(lead, blocks)
    decreases |blocks|
  {
    hide ThinkMatch, FirstTag, Group, NoTagIn, Strip, Thoughts;
    if blocks == [] {
      TwoSidedIsSeparated(k);
      NoCloserAfterGap(k, lead, answer);
      NoThoughts(k, lead + answer);
    } else {
      var b, later := blocks[0], Response(blocks[1..], answer);
      assert b in blocks && Blank(b.gap);
      assert lead + Response(blocks, answer) == lead + (b.opener + (b.body + b.closer + (b.gap + later)));
      FirstThought(k, lead, b, b.gap + later);
      ThoughtsOfResponse(k, b.gap, blocks[1..], answer);
    }
  }

  lemma FirstThought(k: TagSet, lead: string, b: Block, rest: string)
    requires TwoSided(k) && Blank(lead) && WellFormed(k, b)
    ensures Thoughts(k, lead + (b.opener + (b.body + b.closer + rest)))
         == [Strip(if lead == "" then b.body else lead + b.opener + b.body)] + Thoughts(k, rest)
  {
    hide ThinkMatch, FirstTag, Group, NoTagIn, Strip, TwoSided, WellFormed, Blank;
    var s := lead + (b.opener + (b.body + b.closer + rest));
    CloserOfBlock(k, lead, b, rest);
    ThinkMatchEndsAtFirstCloser(k, s);
    CloserIsNotEmpty(k, b);
    if lead == "" {
      GroupOfLeadingBlock(k, b, rest);
      assert s == b.opener + (b.body + b.closer + rest);
    } else {
      GroupAfterGap(k, lead, b, rest);
    }
    assert s[|lead| + |b.opener| + |b.body| + |b.closer|..] == rest;
  }

  lemma CloserIsNotEmpty(k: TagSet, b: Block)
    requires TwoSided(k) && WellFormed(k, b)
    ensures b.closer != ""
  {
    assert b.closer in k.All();
  }

  /** What was thought in each block. */
  function Bodies(blocks: seq<Block>): seq<string>
  {
    if blocks == [] then [] else [Strip(blocks[0].body)] + Bodies(blocks[1..])
  }

  /** Something before the opener is taken for part of the thought, and it shows. */
  lemma OpenerShows(lead: string, b: Block)
    requires b.opener != "" && !IsSpace(b.opener[0])
    ensures Strip(if lead == "" then b.body else lead + b.opener + b.body) == Strip(b.body) <==> lead == ""
  {
    hide LStrip, RStrip;
    if lead != "" {
      var a := lead + b.opener;
      assert a[|lead|] == b.opener[0];
      assert lead + b.opener + b.body == a + b.body;
      TrimmedPair(a, b.body);
    }
  }

  /** The extracted thoughts are what was thought exactly when nothing, not even a
      line break, stands before any of the openers. */
  lemma {:induction false} ExtractedExactly(k: TagSet, lead: string, blocks: seq<Block>)
    requires TwoSided(k) && forall b :: b in blocks ==> WellFormed(k, b)
    ensures Extracted(lead, blocks) == Bodies(blocks)
       <==> blocks == [] || (lead == "" && forall i :: 0 <= i < |blocks| - 1 ==> blocks[i].gap == "")
    decreases |blocks|
  {
    hide Strip;
    if blocks != [] {
      var b, rest := blocks[0], blocks[1..];
      assert b in blocks && WellFormed(k, b) && b.opener in k.All();
      assert forall i :: 0 < i < |blocks| ==> blocks[i] == rest[i - 1];
      ExtractedExactly(k, b.gap, rest);
      OpenerShows(lead, b);
      hide TwoSided, WellFormed, IsSpace;
      assert Extracted(lead, blocks)[1..] == Extracted(b.gap, rest) && Bodies(blocks)[1..] == Bodies(rest);
      assert Extracted(lead, blocks) == Bodies(blocks)
        <==> Extracted(lead, blocks)[0] == Bodies(blocks)[0] && Extracted(b.gap, rest) == Bodies(rest);
      assert (forall i :: 0 <= i < |blocks| - 1 ==> blocks[i].gap == "")
        <==> (rest == [] || (b.gap == "" && forall i :: 0 <= i < |rest| - 1 ==> rest[i].gap == "")) by {
        GapsOfRest(blocks);
      }
    }
  }

  lemma GapsOfRest(blocks: seq<Block>)
    requires blocks != []
    ensures (forall i :: 0 <= i < |blocks| - 1 ==> blocks[i].gap == "")
       <==> (blocks[1..] == [] || (blocks[0].gap == "" && forall i :: 0 <= i < |blocks[1..]| - 1 ==>
         blocks[1..][i].gap == ""))
  {
    var rest := blocks[1..];
    if forall i :: 0 <= i < |blocks| - 1 ==> blocks[i].gap == "" {
      assert forall i :: 0 <= i < |rest| - 1 ==> rest[i].gap == blocks[i + 1].gap;
    }
    if rest != [] && blocks[0].gap == "" && forall i :: 0 <= i < |rest| - 1 ==> rest[i].gap == "" {
      forall i | 0 <= i < |blocks| - 1
        ensures blocks[i].gap == ""
      {
        if i > 0 { assert blocks[i] == rest[i - 1]; }
      }
    }
  }

  /** A line break before the first opener, and the opener is in the thought. */
  lemma OpenerIsKept()
    ensures Thoughts(ModelTags(), "\n<think>a</think>") == ["<think>a"]
  {
    hide *;
    ModelTagsTwoSided();
    OneBlock();
    OneBlockText();
    OneBlockThought();
    BreakIsBlank();
    NoTagInNothing(ModelTags().closers);
    ThoughtsOfResponse(ModelTags(), "\n", [Block("<think>", "a", "</think>", "")], "");
  }

  lemma OneBlock()
    ensures WellFormed(ModelTags(), Block("<think>", "a", "</think>", "")) && Plain(ModelTags(), "")
  {
    hide NoTagIn, Unstructured;
    NothingUnstructured();
    ModelTagsTwoCharacters();
    ShortHoldsNoTag(ModelTags().closers, "a");
    ShortHoldsNoTag(ModelTags().All(), "");
    assert "<think>" == ModelTags().openers[0] && "</think>" == ModelTags().closers[0];
  }

  lemma ModelTagsTwoCharacters()
    ensures forall t :: t in ModelTags().All() ==> |t| >= 2
    ensures forall t :: t in ModelTags().closers ==> |t| >= 2
  {
  }

  lemma OneBlockText()
    ensures "\n" + Response([Block("<think>", "a", "</think>", "")], "") == "\n<think>a</think>"
  {
    var b := Block("<think>", "a", "</think>", "");
    assert [b][1..] == [] && Response([b], "") == Text(b) + Response([], "");
  }

  lemma OneBlockThought()
    ensures Extracted("\n", [Block("<think>", "a", "</think>", "")]) == ["<think>a"]
  {
    var b := Block("<think>", "a", "</think>", "");
    hide Strip;
    assert [b][1..] == [];
    StripOneBreak();
    assert "\n" + b.opener + b.body == "\n<think>a";
  }

  lemma ShortHoldsNoTag(tags: seq<Tag>, s: string)
    requires |s| <= 1 && forall t :: t in tags ==> |t| >= 2
    ensures NoTagIn(tags, s)
  {
  }

  lemma NothingUnstructured()
    ensures Unstructured("")
  {
    hide StructuralMatch;
    if StructuralMatch("").Some? { StructuralOpens(""); }
    forall i | 0 <= i <= |""|
      ensures StructuralMatch(""[i..]).None?
    {
      assert ""[i..] == "";
    }
  }

  lemma BreakIsBlank()
    ensures Blank("\n")
  {
  }

  lemma StripOneBreak()
    ensures Strip("\n<think>a") == "<think>a"
  {
    assert "\n<think>a"[1..] == "<think>a";
  }
}
