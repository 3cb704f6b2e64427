/** The streaming filter that keeps thinking blocks and end-of-turn tokens out
    of the displayed text, against a reference meaning that sees the whole text. */
module TokenFilter {
  import opened Basics

  type Tag = t: string | t != "" witness "<"

  /** The three groups of tags the filter knows. */
  datatype TagSet = TagSet(openers: seq<Tag>, closers: seq<Tag>, dropped: seq<Tag>)
  {
    function All(): seq<Tag>
    {
      openers + closers + dropped
    }

    /** The tags that matter in a mode: only closers inside a thinking block. */
    function For(inThink: bool): seq<Tag>
    {
      if inThink then closers else All()
    }

    /** All the filter relies on about the tags it is given. */
    ghost predicate Separated()
    {
      All() != [] && forall t :: t in All() ==> WellShaped(t)
    }
  }

  /** `<` opens the tag and occurs nowhere else in it; `>` closes it likewise. */
  predicate WellShaped(t: Tag)
  {
    && 2 <= |t| && t[0] == '<' && t[|t| - 1] == '>'
    && (forall i :: 0 < i < |t| ==> t[i] != '<')
    && (forall i :: 0 <= i < |t| - 1 ==> t[i] != '>')
  }

  lemma SeparatedTags(t: Tag, u: Tag)
    requires WellShaped(t) && WellShaped(u) && t <= u
    ensures t == u
  {
    assert u[|t| - 1] == '>';
  }

  function ModelTags(): TagSet
  {
    TagSet(["<think>", "<thinking>"], ["</think>", "</thinking>"], ["<|im_end|>", "<|eot_id|>"])
  }

  lemma ModelTagsShape()
    ensures forall t :: t in ModelTags().All() ==> WellShaped(t) && |t| <= 11
  {
    OpenersShape();
    ClosersShape();
    DroppedShape();
    hide WellShaped;
  }

  lemma OpenersShape()
    ensures WellShaped("<think>") && WellShaped("<thinking>")
  {
  }

  lemma ClosersShape()
    ensures WellShaped("</think>") && WellShaped("</thinking>")
  {
  }

  lemma DroppedShape()
    ensures WellShaped("<|im_end|>") && WellShaped("<|eot_id|>")
  {
  }

  lemma ModelTagsListed()
    ensures |ModelTags().All()| == 6 && |ModelTags().All()[3]| == 11
  {
  }

  lemma ModelTagsSeparated()
    ensures ModelTags().Separated() && LongestTag(ModelTags().All()) == 11
  {
    hide ModelTags, WellShaped;
    ModelTagsShape();
    var all := ModelTags().All();
    LongestOf(all, 3, 11) by { ModelTagsListed(); }
  }

  lemma LongestOf(tags: seq<Tag>, k: nat, n: nat)
    requires k < |tags| && |tags[k]| == n && forall i :: 0 <= i < |tags| ==> |tags[i]| <= n
    ensures LongestTag(tags) == n
  {
    if tags != [] {
      var rest := tags[1..];
      assert forall i :: 0 <= i < |rest| ==> rest[i] == tags[1 + i];
      AtMost(rest, n);
      if k > 0 { LongestOf(rest, k - 1, n); }
    }
  }

  lemma AtMost(tags: seq<Tag>, n: nat)
    requires forall i :: 0 <= i < |tags| ==> |tags[i]| <= n
    ensures LongestTag(tags) <= n
  {
  }

  function LongestTag(tags: seq<Tag>): (n: nat)
    ensures forall t :: t in tags ==> |t| <= n
  {
    if tags == [] then 0
    else
      var m := LongestTag(tags[1..]);
      if |tags[0]| > m then |tags[0]| else m
  }

  predicate NoTagBefore(tags: seq<Tag>, s: string, n: int)
  {
    forall i, t :: 0 <= i < n && t in tags ==> !OccursAt(s, t, i)
  }

  predicate NoTagIn(tags: seq<Tag>, s: string)
  {
    NoTagBefore(tags, s, |s|)
  }

  lemma NoTagInNothing(tags: seq<Tag>)
    ensures NoTagIn(tags, "")
  {
  }

  // ---- The meaning of a whole text ---------------------------------------

  /** The tag that starts `s`, if one does. */
  ghost function LeadingTag(tags: seq<Tag>, s: string): (r: Option<Tag>)
    ensures r.Some? ==> r.value in tags && r.value <= s
  {
    if BeginsWithTag(tags, s) then
      var t :| t in tags && t <= s;
      Some(t)
    else None
  }

  ghost predicate BeginsWithTag(tags: seq<Tag>, s: string)
  {
    exists t :: t in tags && t <= s
  }

  /** What is visible of `s`: read it character by character, never looking
      back; a tag that starts here is consumed whole, any other character is
      shown unless a thinking block is open. */
  ghost function Visible(k: TagSet, inThink: bool, s: string): string
    decreases |s|
  {
    if s == "" then ""
    else
      match LeadingTag(k.For(inThink), s)
      case Some(t) => Visible(k, !inThink && t in k.openers, s[|t|..])
      case None => (if inThink then "" else s[..1]) + Visible(k, inThink, s[1..])
  }

  /** What a reader of the finished stream has seen. */
  ghost function Displayed(k: TagSet, s: string): string
  {
    LStrip(Visible(k, false, s))
  }

  lemma OccursAtShift(s: string, t: string, n: nat, i: int)
    requires n <= |s| && 0 <= i
    ensures OccursAt(s[n..], t, i) <==> OccursAt(s, t, n + i)
  {
    if n + i + |t| <= |s| {
      assert s[n..][i..i + |t|] == s[n + i..n + i + |t|];
    }
  }

  lemma VisibleStep(k: TagSet, inThink: bool, s: string)
    requires s != "" && NoTagBefore(k.For(inThink), s, 1)
    ensures Visible(k, inThink, s) == (if inThink then "" else s[..1]) + Visible(k, inThink, s[1..])
  {
    var tags := k.For(inThink);
    if LeadingTag(tags, s).Some? {
      assert OccursAt(s, LeadingTag(tags, s).value, 0);
    }
  }

  lemma NoTagShift(tags: seq<Tag>, s: string, n: nat, m: nat)
    requires n <= m <= |s| && NoTagBefore(tags, s, m)
    ensures NoTagBefore(tags, s[n..], m - n)
  {
    forall i, t | 0 <= i < m - n && t in tags
      ensures !OccursAt(s[n..], t, i)
    {
      OccursAtShift(s, t, n, i);
    }
  }

  /** A stretch in which no tag starts is shown or hidden as one piece. */
  lemma {:induction false} SkipPlain(k: TagSet, inThink: bool, s: string, n: nat)
    requires n <= |s|
    requires NoTagBefore(k.For(inThink), s, n)
    ensures Visible(k, inThink, s) == (if inThink then "" else s[..n]) + Visible(k, inThink, s[n..])
  {
    hide Visible;
    if n == 0 {
      assert s[..0] == "" && s[0..] == s;
    } else {
      NoTagShift(k.For(inThink), s, 1, n);
      VisibleStep(k, inThink, s);
      SkipPlain(k, inThink, s[1..], n - 1);
      assert s[1..][n - 1..] == s[n..];
      assert s[..n] == s[..1] + s[1..][..n - 1];
    }
  }

  /** Text with no tag in it is shown unchanged; hidden text stays hidden. */
  lemma VisibleWithoutTags(k: TagSet, inThink: bool, s: string)
    requires NoTagIn(k.For(inThink), s)
    ensures Visible(k, inThink, s) == if inThink then "" else s
  {
    SkipPlain(k, inThink, s, |s|);
    assert s[..|s|] == s && s[|s|..] == "" && Visible(k, inThink, "") == "";
  }

  lemma InsideTag(s: string, t: Tag, j: int, i: int)
    requires WellShaped(t) && OccursAt(s, t, j) && j < i < j + |t|
    ensures s[i] != '<'
  {
    assert s[i] == s[j..j + |t|][i - j] == t[i - j];
  }

  lemma OccursInPrefix(text: string, rest: string, t: string, j: int)
    requires 0 <= j && j + |t| <= |text|
    ensures OccursAt(text + rest, t, j) <==> OccursAt(text, t, j)
  {
    assert (text + rest)[j..j + |t|] == text[j..j + |t|];
  }

  /** A tag whose start lies before `i` in a longer text would have to contain
      the `<` at `i`, or already be complete before `i`. */
  lemma NoEarlierTag(k: TagSet, inThink: bool, text: string, rest: string, i: nat, t: Tag)
    requires k.Separated() && t in k.For(inThink) && OccursAt(text, t, i)
    requires NoTagBefore(k.For(inThink), text, i)
    ensures NoTagBefore(k.For(inThink), text + rest, i)
  {
    assert t in k.All() && WellShaped(t);
    assert (text + rest)[i] == text[i..i + |t|][0] == '<';
    forall j, u | 0 <= j < i && u in k.For(inThink)
      ensures !OccursAt(text + rest, u, j)
    {
      if i < j + |u| {
        if OccursAt(text + rest, u, j) { InsideTag(text + rest, u, j, i); }
      } else {
        OccursInPrefix(text, rest, u, j);
      }
    }
  }

  lemma VisibleTag(k: TagSet, inThink: bool, s: string, t: Tag)
    requires k.Separated() && t in k.For(inThink) && t <= s
    ensures Visible(k, inThink, s) == Visible(k, !inThink && t in k.openers, s[|t|..])
  {
    var u := LeadingTag(k.For(inThink), s).value;
    if |u| <= |t| { SeparatedTags(u, t); } else { SeparatedTags(t, u); }
  }

  /** One round of the filter that found a tag. */
  lemma ConsumeTag(k: TagSet, inThink: bool, text: string, rest: string, i: nat, t: Tag)
    requires k.Separated() && t in k.For(inThink) && OccursAt(text, t, i)
    requires NoTagBefore(k.For(inThink), text, i)
    ensures Visible(k, inThink, text + rest)
         == (if inThink then "" else text[..i])
            + Visible(k, !inThink && t in k.openers, text[i + |t|..] + rest)
  {
    hide Visible;
    var s := text + rest;
    NoEarlierTag(k, inThink, text, rest, i, t);
    SkipPlain(k, inThink, s, i);
    assert s[..i] == text[..i];
    assert s[i..][..|t|] == text[i..i + |t|];
    VisibleTag(k, inThink, s[i..], t);
    assert s[i..][|t|..] == text[i + |t|..] + rest;
  }

  // ---- Withholding -------------------------------------------------------

  /** A suffix the filter may have to hold back: it begins some tag. */
  predicate BeginsTag(tags: seq<Tag>, s: string)
  {
    exists t :: t in tags && s <= t
  }

  function Suffix(s: string, n: nat): string
    requires n <= |s|
  {
    s[|s| - n..]
  }

  /** `keep` is the longest suffix shorter than the longest tag that begins a tag. */
  predicate LongestPartial(tags: seq<Tag>, s: string, keep: string)
  {
    && |keep| <= |s| && Suffix(s, |keep|) == keep
    && |keep| <= LongestTag(tags) - 1 && BeginsTag(tags, keep)
    && forall n :: |keep| < n < LongestTag(tags) && n <= |s| ==> !BeginsTag(tags, Suffix(s, n))
  }

  /** A tag that starts in `text` and ends beyond it makes the rest of `text`
      the beginning of a tag. */
  lemma CrossingTag(tags: seq<Tag>, text: string, rest: string, t: string, j: nat)
    requires t in tags && j <= |text| < j + |t| && OccursAt(text + rest, t, j)
    ensures |text| - j < LongestTag(tags) && BeginsTag(tags, Suffix(text, |text| - j))
  {
    assert text[j..] == (text + rest)[j..j + |t|][..|text| - j] <= t;
  }

  /** One round of the filter that found no tag. */
  lemma Withhold(k: TagSet, inThink: bool, text: string, keep: string, rest: string)
    requires NoTagIn(k.For(inThink), text) && LongestPartial(k.All(), text, keep)
    ensures Visible(k, inThink, text + rest)
         == (if inThink then "" else text[..|text| - |keep|]) + Visible(k, inThink, keep + rest)
    ensures NoTagIn(k.For(inThink), keep)
  {
    hide Visible;
    var s, n := text + rest, |text| - |keep|;
    forall j, u | 0 <= j < n && u in k.For(inThink)
      ensures !OccursAt(s, u, j)
    {
      if j + |u| <= |text| {
        OccursInPrefix(text, rest, u, j);
      } else if OccursAt(s, u, j) {
        CrossingTag(k.All(), text, rest, u, j);
      }
    }
    SkipPlain(k, inThink, s, n);
    assert s[..n] == text[..n] && s[n..] == keep + rest;
    forall i, t | 0 <= i < |keep| && t in k.For(inThink)
      ensures !OccursAt(keep, t, i)
    {
      OccursAtShift(text, t, n, i);
    }
  }

  // ---- The filter --------------------------------------------------------

  /** Whatever follows, the whole stream shows `raw` and then the meaning of
      what is still held back. */
  ghost predicate Explains(k: TagSet, seen: string, raw: string, inThink: bool, held: string)
  {
    forall rest: string :: Visible(k, false, seen + rest) == raw + Visible(k, inThink, held + rest)
  }

  lemma ExplainsNow(k: TagSet, seen: string, raw: string, inThink: bool, held: string)
    requires Explains(k, seen, raw, inThink, held)
    ensures Visible(k, false, seen) == raw + Visible(k, inThink, held)
  {
    hide Visible;
    assert seen + "" == seen && held + "" == held;
    assert Visible(k, false, seen + "") == raw + Visible(k, inThink, held + "");
  }

  lemma ExplainsMore(k: TagSet, seen: string, raw: string, inThink: bool, held: string, more: string)
    requires Explains(k, seen, raw, inThink, held)
    ensures Explains(k, seen + more, raw, inThink, held + more)
  {
    hide Visible;
    forall rest: string
      ensures Visible(k, false, seen + more + rest) == raw + Visible(k, inThink, held + more + rest)
    {
      assert seen + more + rest == seen + (more + rest);
      assert held + more + rest == held + (more + rest);
    }
  }

  /** Inside `feed`: `text` is still to be read, or all that is left is `tail`. */
  ghost predicate Draining(k: TagSet, seen: string, total: string, inThink: bool, text: string, tail: string)
  {
    && k.Separated()
    && (text != "" ==> tail == "")
    && |tail| <= LongestTag(k.All()) - 1 && BeginsTag(k.All(), tail)
    && NoTagIn(k.For(inThink), tail)
    && Explains(k, seen, total, inThink, tail + text)
  }

  lemma StartDraining(k: TagSet, seen: string, raw: string, inThink: bool, tail: string, more: string)
    requires k.Separated() && Explains(k, seen, raw, inThink, tail)
    ensures Draining(k, seen + more, raw, inThink, tail + more, "")
  {
    hide Visible;
    ExplainsMore(k, seen, raw, inThink, tail, more);
    assert k.All()[0] in k.All();
    assert "" + (tail + more) == tail + more;
  }

  lemma DrainTag(k: TagSet, seen: string, total: string, inThink: bool, text: string, i: nat, t: Tag)
    requires Draining(k, seen, total, inThink, text, "")
    requires t in k.For(inThink) && OccursAt(text, t, i) && NoTagBefore(k.For(inThink), text, i)
    ensures Draining(k, seen, total + if inThink then "" else text[..i],
                     !inThink && t in k.openers, text[i + |t|..], "")
  {
    hide Visible, LongestTag, NoTagIn, NoTagBefore, TagSet.Separated;
    NoTagInNothing(k.For(!inThink && t in k.openers));
    assert "" + text == text && "" + text[i + |t|..] == text[i + |t|..];
    forall rest: string
      ensures Visible(k, false, seen + rest) == total + (if inThink then "" else text[..i])
              + Visible(k, !inThink && t in k.openers, text[i + |t|..] + rest)
    {
      ConsumeTag(k, inThink, text, rest, i, t);
    }
  }

  lemma DrainRest(k: TagSet, seen: string, total: string, inThink: bool, text: string, keep: string)
    requires Draining(k, seen, total, inThink, text, "")
    requires NoTagIn(k.For(inThink), text) && LongestPartial(k.All(), text, keep)
    ensures Draining(k, seen, total + if inThink then "" else text[..|text| - |keep|], inThink, "", keep)
  {
    hide Visible, LongestTag, OccursAt, NoTagIn, NoTagBefore, TagSet.Separated;
    assert "" + text == text && keep + "" == keep;
    forall rest: string
      ensures Visible(k, false, seen + rest)
           == total + (if inThink then "" else text[..|text| - |keep|]) + Visible(k, inThink, keep + rest)
    {
      Withhold(k, inThink, text, keep, rest);
    }
    Withhold(k, inThink, text, keep, "");
  }

  lemma DoneDraining(k: TagSet, seen: string, total: string, inThink: bool, tail: string)
    requires Draining(k, seen, total, inThink, "", tail)
    ensures k.Separated() && |tail| <= LongestTag(k.All()) - 1 && BeginsTag(k.All(), tail)
    ensures NoTagIn(k.For(inThink), tail) && Explains(k, seen, total, inThink, tail)
  {
    assert tail + "" == tail;
  }

  lemma Regroup(a: string, b: string, c: string)
    ensures (a + b) + c == a + (b + c)
  {
  }

  class StreamingTokenFilter {
    const tags: TagSet
    var tail: string
    var inThink: bool
    var emitted: bool
    ghost var seen: string   // everything fed so far
    ghost var raw: string    // everything released so far, before left-trimming
    ghost var shown: string  // everything returned so far

    ghost predicate Valid()
      reads this
    {
      && tags.Separated()
      && |tail| <= LongestTag(tags.All()) - 1 && BeginsTag(tags.All(), tail)
      && NoTagIn(tags.For(inThink), tail)
      && Explains(tags, seen, raw, inThink, tail)
      && shown == LStrip(raw)
      && emitted == (shown != "")
    }

    constructor (tags: TagSet)
      requires tags.Separated()
      ensures Valid() && this.tags == tags && seen == "" && shown == ""
    {
      this.tags := tags;
      tail, inThink, emitted := "", false, false;
      seen, raw, shown := "", "", "";
      assert tags.All()[0] in tags.All();
    }

    /** Leftmost occurrence of any of `tags`. */
    static method FindFirst(text: string, tags: seq<Tag>) returns (found: Option<(nat, Tag)>)
      ensures found.None? ==> NoTagIn(tags, text)
      ensures found.Some? ==> found.value.1 in tags && OccursAt(text, found.value.1, found.value.0)
      ensures found.Some? ==> NoTagBefore(tags, text, found.value.0)
    {
      found := None;
      for k := 0 to |tags|
        invariant found.None? ==> NoTagBefore(tags[..k], text, |text| + 1)
        invariant found.Some? ==> found.value.1 in tags && OccursAt(text, found.value.1, found.value.0)
        invariant found.Some? ==> NoTagBefore(tags[..k], text, found.value.0)
      {
        var idx := Find(text, tags[k]);
        assert tags[..k + 1] == tags[..k] + [tags[k]];
        if idx != -1 && (found.None? || idx < found.value.0) {
          found := Some((idx, tags[k]));
        }
      }
      assert tags[..|tags|] == tags;
    }

    method PartialTagTail(text: string) returns (keep: string)
      requires tags.Separated()
      ensures LongestPartial(tags.All(), text, keep)
    {
      var all := tags.All();
      assert all[0] in all && "" <= all[0];
      var length := if |text| < LongestTag(all) - 1 then |text| else LongestTag(all) - 1;
      while length > 0
        invariant 0 <= length <= |text| && length < LongestTag(all)
        invariant forall n :: length < n < LongestTag(all) && n <= |text| ==> !BeginsTag(all, Suffix(text, n))
      {
        var suffix := Suffix(text, length);
        if BeginsTag(all, suffix) {
          return suffix;
        }
        length := length - 1;
      }
      return "";
    }

    method Feed(fragment: string) returns (out: string)
      requires Valid()
      modifies this
      ensures Valid()
      ensures seen == old(seen) + fragment
      ensures shown == old(shown) + out
    {
      hide Visible, Explains, LStrip, LongestTag, NoTagIn, NoTagBefore, OccursAt, TagSet.Separated,
           LongestPartial, BeginsTag, Draining;
      var text := tail + fragment;
      out := "";
      StartDraining(tags, seen, raw, inThink, tail, fragment);
      seen := seen + fragment;
      tail := "";
      ghost var total := raw;   // everything released, this call included
      while text != ""
        invariant Draining(tags, seen, total, inThink, text, tail) && total == raw + out
        invariant text != "" ==> tail == ""
        modifies this`tail, this`inThink
        decreases |text|
      {
        if inThink {
          var found := FindFirst(text, tags.closers);
          if found.None? {
            tail := PartialTagTail(text);
            DrainRest(tags, seen, total, true, text, tail);
            text := "";
          } else {
            var (idx, closer) := found.value;
            DrainTag(tags, seen, total, true, text, idx, closer);
            text := text[idx + |closer|..];
            inThink := false;
          }
          assert total + "" == total;
        } else {
          var found := FindFirst(text, tags.openers + tags.closers + tags.dropped);
          if found.None? {
            var keep := PartialTagTail(text);
            DrainRest(tags, seen, total, false, text, keep);
            Regroup(raw, out, text[..|text| - |keep|]);
            out, total := out + text[..|text| - |keep|], total + text[..|text| - |keep|];
            tail := keep;
            text := "";
          } else {
            var (idx, tag) := found.value;
            DrainTag(tags, seen, total, false, text, idx, tag);
            Regroup(raw, out, text[..idx]);
            out, total := out + text[..idx], total + text[..idx];
            text := text[idx + |tag|..];
            inThink := tag in tags.openers;
          }
        }
      }
      DoneDraining(tags, seen, total, inThink, tail);
      LStripConcat(raw, out);
      raw := total;
      if !emitted { out := LStrip(out); }
      if out != "" { emitted := true; }
      shown := shown + out;
    }

    /** End of stream: with this last piece, exactly the displayed text of
        everything fed has been returned. */
    method Flush() returns (out: string)
      requires Valid()
      modifies this
      ensures seen == old(seen) && shown == old(shown) + out
      ensures shown == Displayed(tags, seen)
      ensures tail == ""
    {
      hide Visible, Explains, LongestTag, NoTagBefore, OccursAt, NoTagIn;
      ExplainsNow(tags, seen, raw, inThink, tail);
      VisibleWithoutTags(tags, inThink, tail);
      LStripConcat(raw, if inThink then "" else tail);
      assert LStrip("") == "";
      out, tail := tail, "";
      if inThink || out == "" {
        return "";
      }
      out := if emitted then out else LStrip(out);
      if out != "" { emitted := true; }
      shown := shown + out;
    }

    /** At any moment, whatever comes next: what was returned stays a prefix
        of the final display, and less than the longest tag is held back of
        the display of the text so far, namely the beginning of a tag. */
    lemma NeverRetracted(rest: string)
      requires Valid()
      ensures shown <= Displayed(tags, seen + rest)
      ensures shown <= Displayed(tags, seen)
      ensures |Displayed(tags, seen)| <= |shown| + LongestTag(tags.All()) - 1
      ensures Displayed(tags, seen) ==
                shown + (if inThink then "" else if shown == "" then LStrip(tail) else tail)
      ensures exists t :: t in tags.All() && tail <= t
    {
      hide Visible, LStrip, Explains, OccursAt;
      ExplainsMore(tags, seen, raw, inThink, tail, rest);
      ExplainsNow(tags, seen + rest, raw, inThink, tail + rest);
      LStripConcat(raw, Visible(tags, inThink, tail + rest));
      ExplainsNow(tags, seen, raw, inThink, tail);
      VisibleWithoutTags(tags, inThink, tail);
      LStripConcat(raw, Visible(tags, inThink, tail));
      LStripSuffix(Visible(tags, inThink, tail));
    }

    lemma IsInStep()
      requires Valid() && tags == ModelTags()
      ensures InStep(shown, seen)
    {
      ModelTagsSeparated();
      ModelTagsShape();
      hide Displayed, Explains, NoTagIn, TagSet.Separated, LongestTag, ModelTags;
      NeverRetracted("");
      var t :| t in tags.All() && tail <= t;
      if tail != "" { assert tail[0] == t[0]; }
      var d := Displayed(ModelTags(), seen);
      assert d[|shown|..] == if inThink then "" else tail;
    }
  }

  /** What was shown of a text so far is the beginning of its display; it lacks ten
      characters of it at most, and those begin a tag. */
  ghost predicate InStep(shown: string, seen: string)
  {
    var d := Displayed(ModelTags(), seen);
    shown <= d && |d| <= |shown| + 10 && BeginsTag(ModelTags().All(), d[|shown|..])
  }

  ghost predicate AllInStep(pieces: seq<string>, fragments: seq<string>)
    requires |pieces| == |fragments|
  {
    forall k :: 0 <= k <= |fragments| ==> InStep(Concat(pieces[..k]), Concat(fragments[..k]))
  }

  lemma AllInStepNext(pieces: seq<string>, fragments: seq<string>, piece: string, fragment: string)
    requires |pieces| == |fragments| && AllInStep(pieces, fragments)
    requires InStep(Concat(pieces + [piece]), Concat(fragments + [fragment]))
    ensures AllInStep(pieces + [piece], fragments + [fragment])
  {
    hide InStep, Concat;
    forall k | 0 <= k <= |fragments| + 1
      ensures InStep(Concat((pieces + [piece])[..k]), Concat((fragments + [fragment])[..k]))
    {
      if k <= |fragments| {
        assert (pieces + [piece])[..k] == pieces[..k] && (fragments + [fragment])[..k] == fragments[..k];
      } else {
        assert (pieces + [piece])[..k] == pieces + [piece] && (fragments + [fragment])[..k] == fragments + [fragment];
      }
    }
  }

  /** Feeding a text in any fragments and flushing shows the same as the whole
      text read at once; after each fragment what was shown is in step with it. */
  method FilterStream(fragments: seq<string>) returns (pieces: seq<string>, last: string)
    ensures ModelTags().Separated() && Concat(pieces + [last]) == Displayed(ModelTags(), Concat(fragments))
    ensures |pieces| == |fragments| && AllInStep(pieces, fragments)
  {
    ModelTagsSeparated();
    hide *;
    var f := new StreamingTokenFilter(ModelTags());
    pieces := [];
    NothingInStep();
    for k := 0 to |fragments|
      invariant f.Valid() && fresh(f) && f.tags == ModelTags()
      invariant f.seen == Concat(fragments[..k]) && f.shown == Concat(pieces)
      invariant |pieces| == |fragments[..k]| && AllInStep(pieces, fragments[..k])
    {
      assert fragments[..k + 1] == fragments[..k] + [fragments[k]];
      ConcatSnoc(fragments[..k], fragments[k]);
      var piece := f.Feed(fragments[k]);
      ConcatSnoc(pieces, piece);
      f.IsInStep();
      AllInStepNext(pieces, fragments[..k], piece, fragments[k]);
      pieces := pieces + [piece];
    }
    assert fragments[..|fragments|] == fragments;
    last := f.Flush();
    ConcatSnoc(pieces, last);
  }

  lemma NothingInStep()
    ensures Concat([]) == "" && AllInStep([], [])
  {
    assert ModelTags().All()[0] in ModelTags().All();
    assert Displayed(ModelTags(), "") == "";
  }
}
