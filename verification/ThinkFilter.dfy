/** agents/mars_loop.py: hiding a model's thoughts, chunk by chunk while the answer
    streams, or from the whole answer at once. */
module ThinkFilter {
  import opened Wrappers
  import PyText

  const OPEN := "<think>"
  const CLOSE := "</think>"

  predicate Opens(s: string) {
    OPEN <= s
  }

  predicate Closes(s: string) {
    CLOSE <= s
  }

  /** The tag at the start of `s`, if any, is this long. */
  function TagLength(s: string): (n: nat)
    ensures n <= |s| && (n > 0 <==> Opens(s) || Closes(s))
  {
    if Opens(s) then |OPEN| else if Closes(s) then |CLOSE| else 0
  }

  /** No tag begins inside another. */
  lemma TagsDoNotOverlap(s: string, k: nat)
    requires 0 < k < TagLength(s)
    ensures !Opens(s[k..]) && !Closes(s[k..]) && s[k] != '<'
  {
    OneTag(s);
    assert OPEN[0] == '<' && CLOSE[0] == '<';
    if Opens(s) {
      assert s[k] == OPEN[k];
    } else {
      assert s[k] == CLOSE[k];
    }
    assert s[k..] != "" ==> s[k..][0] == s[k];
  }

  lemma OneTag(s: string)
    ensures !(Opens(s) && Closes(s))
  {
    assert OPEN[1] != CLOSE[1];
    if Opens(s) { assert s[1] == OPEN[1]; }
  }

  /** A character of the answer and whether the user sees it as answer. */
  datatype Mark = Mark(c: char, shown: bool)

  /** What is left of `s` without its tags, read from a given state; and the state
      it ends in. */
  function Marks(s: string, inThink: bool): seq<Mark> {
    if s == "" then []
    else if Opens(s) then Marks(s[|OPEN|..], true)
    else if Closes(s) then Marks(s[|CLOSE|..], false)
    else [Mark(s[0], !inThink)] + Marks(s[1..], inThink)
  }

  function Ends(s: string, inThink: bool): bool {
    if s == "" then inThink
    else if Opens(s) then Ends(s[|OPEN|..], true)
    else if Closes(s) then Ends(s[|CLOSE|..], false)
    else Ends(s[1..], inThink)
  }

  function Shown(ms: seq<Mark>): string {
    if ms == [] then ""
    else if ms[0].shown then [ms[0].c] + Shown(ms[1..])
    else Shown(ms[1..])
  }

  lemma {:induction false} ShownMore(a: seq<Mark>, b: seq<Mark>)
    ensures Shown(a + b) == Shown(a) + Shown(b)
  {
    if a == [] {
      assert a + b == b;
    } else {
      assert (a + b)[1..] == a[1..] + b;
      ShownMore(a[1..], b);
    }
  }

  // ------------------------------------------------------------ chunk boundaries

  /** A tag of `a + b` that begins at `i` in `a` ends in `b`. */
  predicate CrossesAt(a: string, b: string, i: nat)
    requires i < |a|
  {
    i + TagLength((a + b)[i..]) > |a|
  }

  ghost predicate Crosses(a: string, b: string) {
    exists i: nat :: i < |a| && CrossesAt(a, b, i)
  }

  lemma CrossesLater(a: string, b: string, n: nat)
    requires n <= |a| && forall i: nat :: i < n ==> !CrossesAt(a, b, i)
    ensures Crosses(a, b) <==> Crosses(a[n..], b)
  {
    forall i: nat | i < |a| - n ensures CrossesAt(a[n..], b, i) <==> CrossesAt(a, b, n + i) {
      assert (a[n..] + b)[i..] == (a + b)[n + i..];
    }
    if Crosses(a, b) {
      var i: nat :| i < |a| && CrossesAt(a, b, i);
      assert CrossesAt(a[n..], b, i - n);
    }
    if Crosses(a[n..], b) {
      var i: nat :| i < |a| - n && CrossesAt(a[n..], b, i);
      assert CrossesAt(a, b, n + i);
    }
  }

  /** How much is left does not depend on the state. */
  lemma {:induction false} MarksLength(s: string, t: bool, u: bool)
    ensures |Marks(s, t)| == |Marks(s, u)|
    decreases |s|
  {
    if s != "" && !Opens(s) && !Closes(s) { MarksLength(s[1..], t, u); }
  }

  /** Text without '<' is left as it is. */
  lemma {:induction false} PlainMarks(s: string, rest: string, t: bool)
    requires forall i :: 0 <= i < |s| ==> s[i] != '<'
    ensures |Marks(s + rest, t)| == |s| + |Marks(rest, t)|
  {
    if s == "" {
      assert s + rest == rest;
    } else {
      assert OPEN[0] == '<' && CLOSE[0] == '<' && (s + rest)[0] == s[0];
      assert (s + rest)[1..] == s[1..] + rest;
      PlainMarks(s[1..], rest, t);
    }
  }

  lemma NoTagYet(a: string, b: string)
    requires TagLength(a + b) > |a|
    ensures !Opens(a) && !Closes(a)
  {
    OneTag(a + b);
    assert a <= a + b;
  }

  lemma AllMarked(a: string, b: string, t: bool)
    requires a != "" && TagLength(a + b) > |a| && forall i :: 1 <= i < |a| ==> (a + b)[i] != '<'
    ensures |Marks(a, t)| == |a|
  {
    NoTagYet(a, b);
    assert forall i :: 1 <= i < |a| ==> a[i] == (a + b)[i];
    PlainMarks(a[1..], "", t);
    assert a[1..] + "" == a[1..];
  }

  /** A tag cut by the boundary is shown on both sides of it. */
  lemma CutTagLeaks(a: string, b: string, t: bool)
    requires a != "" && TagLength(a + b) > |a|
    ensures |Marks(a + b, t)| < |Marks(a, t)| + |Marks(b, Ends(a, t))|
  {
    var n := TagLength(a + b);
    forall i | 1 <= i < n ensures (a + b)[i] != '<' {
      TagsDoNotOverlap(a + b, i);
    }
    AllMarked(a, b, t);
    var k := n - |a|;
    assert b == b[..k] + b[k..] && (a + b)[n..] == b[k..];
    assert forall i :: 0 <= i < k ==> b[i] == (a + b)[|a| + i];
    PlainMarks(b[..k], b[k..], Ends(a, t));
    MarksLength(b[k..], Ends(a, t), Opens(a + b));
  }

  function After(s: string, t: bool): bool {
    if Opens(s) then true else if Closes(s) then false else t
  }

  function Stride(s: string): (n: nat)
    requires s != ""
    ensures 0 < n <= |s|
  {
    if TagLength(s) == 0 then 1 else TagLength(s)
  }

  /** One step of the reading. */
  lemma MarksStep(s: string, t: bool)
    requires s != ""
    ensures Marks(s, t) == (if TagLength(s) == 0 then [Mark(s[0], !t)] else []) + Marks(s[Stride(s)..], After(s, t))
    ensures Ends(s, t) == Ends(s[Stride(s)..], After(s, t))
  {
    OneTag(s);
  }

  /** When the first tag does not cross, both readings make the same first step. */
  lemma SameStep(a: string, b: string, t: bool)
    requires a != "" && !CrossesAt(a, b, 0)
    ensures Stride(a + b) == Stride(a) <= |a| && TagLength(a + b) == TagLength(a) && After(a + b, t) == After(a, t)
    ensures (a + b)[Stride(a)..] == a[Stride(a)..] + b && (a + b)[0] == a[0]
    ensures Crosses(a, b) <==> Crosses(a[Stride(a)..], b)
  {
    assert (a + b)[0..] == a + b;
    SameTag(a, b);
    OneTag(a);
    OneTag(a + b);
    var n := Stride(a);
    forall i: nat | i < n ensures !CrossesAt(a, b, i) {
      if i > 0 { TagsDoNotOverlap(a + b, i); }
    }
    CrossesLater(a, b, n);
  }

  /** Reading `a` and then `b` gives what reading them together gives exactly when
      no tag crosses the boundary; otherwise too much is left. */
  lemma {:induction false} MarksInTwo(a: string, b: string, t: bool)
    ensures !Crosses(a, b) ==>
      Marks(a + b, t) == Marks(a, t) + Marks(b, Ends(a, t)) && Ends(a + b, t) == Ends(b, Ends(a, t))
    ensures |Marks(a + b, t)| <= |Marks(a, t)| + |Marks(b, Ends(a, t))|
    ensures Crosses(a, b) ==> |Marks(a + b, t)| < |Marks(a, t)| + |Marks(b, Ends(a, t))|
    decreases |a|
  {
    hide Marks, Ends, Crosses, CrossesAt, TagLength, Stride, After;
    if a == "" {
      assert a + b == b;
      NothingMarked(t, b);
    } else if CrossesAt(a, b, 0) {
      CrossesAtOnce(a, b);
      CutTagLeaks(a, b, t);
    } else {
      SameStep(a, b, t);
      MarksStep(a + b, t);
      MarksStep(a, t);
      var rest, u := a[Stride(a)..], After(a, t);
      MarksInTwo(rest, b, u);
      var first := if TagLength(a) == 0 then [Mark(a[0], !t)] else [];
      assert first + (Marks(rest, u) + Marks(b, Ends(rest, u))) == first + Marks(rest, u) + Marks(b, Ends(rest, u));
    }
  }

  lemma NothingMarked(t: bool, b: string)
    ensures Marks("", t) == [] && Ends("", t) == t && !Crosses("", b)
  {
  }

  lemma CrossesAtOnce(a: string, b: string)
    requires a != "" && CrossesAt(a, b, 0)
    ensures Crosses(a, b) && TagLength(a + b) > |a|
  {
    assert (a + b)[0..] == a + b;
  }

  lemma SameTag(a: string, b: string)
    requires TagLength(a + b) <= |a|
    ensures (Opens(a) <==> Opens(a + b)) && (Closes(a) <==> Closes(a + b))
  {
    OneTag(a + b);
    if Opens(a + b) { assert a[..|OPEN|] == (a + b)[..|OPEN|]; }
    if Closes(a + b) { assert a[..|CLOSE|] == (a + b)[..|CLOSE|]; }
    if Opens(a) { assert (a + b)[..|OPEN|] == a[..|OPEN|]; }
    if Closes(a) { assert (a + b)[..|CLOSE|] == a[..|CLOSE|]; }
  }

  // ------------------------------------------------------------- the whole stream

  function Concat(chunks: seq<string>): string {
    if chunks == [] then "" else chunks[0] + Concat(chunks[1..])
  }

  /** Chunk after chunk, with the state carried over. */
  function Streamed(chunks: seq<string>, t: bool): seq<Mark> {
    if chunks == [] then [] else Marks(chunks[0], t) + Streamed(chunks[1..], Ends(chunks[0], t))
  }

  function StreamEnds(chunks: seq<string>, t: bool): bool {
    if chunks == [] then t else StreamEnds(chunks[1..], Ends(chunks[0], t))
  }

  /** No tag begins in a chunk and ends behind it. */
  ghost predicate NoneCrosses(chunks: seq<string>) {
    chunks == [] || (!Crosses(chunks[0], Concat(chunks[1..])) && NoneCrosses(chunks[1..]))
  }

  lemma {:induction false} StreamedLength(chunks: seq<string>, t: bool, u: bool)
    ensures |Streamed(chunks, t)| == |Streamed(chunks, u)|
  {
    if chunks != [] {
      MarksLength(chunks[0], t, u);
      StreamedLength(chunks[1..], Ends(chunks[0], t), Ends(chunks[0], u));
    }
  }

  lemma {:induction false} StreamedSize(chunks: seq<string>, t: bool)
    ensures NoneCrosses(chunks) ==>
      Streamed(chunks, t) == Marks(Concat(chunks), t) && StreamEnds(chunks, t) == Ends(Concat(chunks), t)
    ensures |Marks(Concat(chunks), t)| <= |Streamed(chunks, t)|
    ensures !NoneCrosses(chunks) ==> |Marks(Concat(chunks), t)| < |Streamed(chunks, t)|
  {
    if chunks != [] {
      var rest := Concat(chunks[1..]);
      MarksInTwo(chunks[0], rest, t);
      StreamedSize(chunks[1..], Ends(chunks[0], t));
      hide Marks, Ends;
    }
  }

  /** The stream filter shows and hides what a filter of the whole answer would
      exactly when no tag crosses a chunk boundary. */
  lemma ChunkingIsInvisible(chunks: seq<string>, t: bool)
    ensures Streamed(chunks, t) == Marks(Concat(chunks), t) <==> NoneCrosses(chunks)
  {
    StreamedSize(chunks, t);
  }

  // ------------------------------------------------------------------ re.split

  /** Where the first tag of `s` begins, or its length. */
  function FirstTag(s: string): (n: nat)
    ensures n <= |s| && (n < |s| ==> TagLength(s[n..]) > 0)
    ensures forall i :: 0 <= i < n ==> TagLength(s[i..]) == 0
  {
    if s == "" then 0
    else
      assert s[0..] == s;
      if TagLength(s) > 0 then 0
      else
        var n := FirstTag(s[1..]);
        assert n < |s| - 1 ==> s[1..][n..] == s[n + 1..];
        assert forall i :: 1 <= i <= n ==> s[i..] == s[1..][i - 1..];
        n + 1
  }

  /** The text in front of the first tag, the tag, and what is behind it. */
  function FirstCut(s: string): (cut: (string, string, string))
    requires FirstTag(s) < |s|
    ensures |cut.2| < |s|
  {
    var n := FirstTag(s);
    var m := n + TagLength(s[n..]);
    (s[..n], s[n..m], s[m..])
  }

  /** `re.split(r'(<think>|</think>)', s)`: text and tags in turn. */
  function ReSplit(s: string): seq<string>
    decreases |s|
  {
    if FirstTag(s) == |s| then [s]
    else
      var (text, tag, rest) := FirstCut(s);
      [text, tag] + ReSplit(rest)
  }

  predicate IsTag(part: string) {
    part == OPEN || part == CLOSE
  }

  predicate TagFree(s: string) {
    forall i :: 0 <= i < |s| ==> TagLength(s[i..]) == 0
  }

  predicate Alternates(parts: seq<string>) {
    && |parts| % 2 == 1
    && forall i :: 0 <= i < |parts| ==> if i % 2 == 1 then IsTag(parts[i]) else TagFree(parts[i])
  }

  lemma AlternatesMore(text: string, tag: string, parts: seq<string>)
    requires TagFree(text) && IsTag(tag) && Alternates(parts)
    ensures Alternates([text, tag] + parts)
    ensures Concat([text, tag] + parts) == text + (tag + Concat(parts))
  {
    hide TagFree, IsTag;
    var all := [text, tag] + parts;
    assert all[1..] == [tag] + parts && all[1..][1..] == parts;
    forall i | 2 <= i < |all| ensures if i % 2 == 1 then IsTag(all[i]) else TagFree(all[i]) {
      assert all[i] == parts[i - 2];
    }
  }

  lemma TagHere(s: string, n: nat)
    requires n <= |s| && TagLength(s[n..]) > 0
    ensures IsTag(s[n..n + TagLength(s[n..])])
    ensures s[n..n + TagLength(s[n..])] == OPEN <==> Opens(s[n..])
  {
    assert s[n..][..TagLength(s[n..])] == s[n..n + TagLength(s[n..])];
  }

  lemma FrontTagFree(s: string, n: nat)
    requires n <= |s| && forall i :: 0 <= i < n ==> TagLength(s[i..]) == 0
    ensures TagFree(s[..n])
  {
    forall i | 0 <= i < n ensures TagLength(s[..n][i..]) == 0 {
      assert s[..n][i..] <= s[i..] by { assert s[i..] == s[..n][i..] + s[n..]; }
    }
  }

  lemma Glue(s: string, n: nat, m: nat)
    requires n <= m <= |s|
    ensures s == s[..n] + (s[n..m] + s[m..])
  {
  }

  lemma CutTag(s: string)
    requires FirstTag(s) < |s|
    ensures IsTag(FirstCut(s).1)
    ensures FirstCut(s).1 == OPEN <==> Opens(s[FirstTag(s)..])
  {
    var n := FirstTag(s);
    assert FirstCut(s).1 == s[n..n + TagLength(s[n..])];
    hide *;
    TagHere(s, n);
  }

  lemma CutText(s: string)
    requires FirstTag(s) < |s|
    ensures TagFree(FirstCut(s).0)
  {
    hide FirstTag, TagLength, TagFree;
    FrontTagFree(s, FirstTag(s));
  }

  lemma CutParts(s: string)
    requires FirstTag(s) < |s|
    ensures var (text, tag, rest) := FirstCut(s);
      TagFree(text) && IsTag(tag) && s == text + (tag + rest) && (tag == OPEN <==> Opens(s[FirstTag(s)..]))
  {
    CutTag(s);
    CutText(s);
    hide FirstTag, TagFree, TagLength, IsTag, Opens;
    Glue(s, FirstTag(s), FirstTag(s) + TagLength(s[FirstTag(s)..]));
  }

  /** Nothing is lost in the split, and every second part, and no other, is a tag. */
  lemma {:induction false} SplitConserves(s: string)
    ensures Concat(ReSplit(s)) == s && Alternates(ReSplit(s))
    decreases |s|
  {
    hide FirstTag, FirstCut, TagFree, IsTag;
    if FirstTag(s) == |s| {
      WholeTagFree(s);
      assert [s][1..] == [];
    } else {
      var (text, tag, rest) := FirstCut(s);
      CutParts(s);
      SplitConserves(rest);
      AlternatesMore(text, tag, ReSplit(rest));
    }
  }

  lemma WholeTagFree(s: string)
    requires FirstTag(s) == |s|
    ensures TagFree(s)
  {
    hide TagLength;
  }

  // -------------------------------------------------------------------- the code

  datatype Event = Thought(content: string) | Message(content: string)

  function TextMarks(text: string, shown: bool): seq<Mark> {
    seq(|text|, i requires 0 <= i < |text| => Mark(text[i], shown))
  }

  /** What the user interface receives, character by character. */
  function EventMarks(events: seq<Event>): seq<Mark> {
    if events == [] then []
    else EventMarks(events[..|events| - 1]) + TextMarks(events[|events| - 1].content, events[|events| - 1].Message?)
  }

  /** What the parts of a split mark. */
  function PartMarks(parts: seq<string>, t: bool): seq<Mark> {
    if parts == [] then []
    else if parts[0] == OPEN then PartMarks(parts[1..], true)
    else if parts[0] == CLOSE then PartMarks(parts[1..], false)
    else TextMarks(parts[0], !t) + PartMarks(parts[1..], t)
  }

  function PartEnds(parts: seq<string>, t: bool): bool {
    if parts == [] then t
    else PartEnds(parts[1..], if parts[0] == OPEN then true else if parts[0] == CLOSE then false else t)
  }

  lemma {:induction false} TextIsMarked(text: string, rest: string, t: bool)
    requires forall i :: 0 <= i < |text| ==> TagLength((text + rest)[i..]) == 0
    ensures Marks(text + rest, t) == TextMarks(text, !t) + Marks(rest, t) && Ends(text + rest, t) == Ends(rest, t)
  {
    if text == "" {
      assert text + rest == rest;
    } else {
      assert (text + rest)[0..] == text + rest && (text + rest)[1..] == text[1..] + rest;
      forall i | 0 <= i < |text| - 1 ensures TagLength((text[1..] + rest)[i..]) == 0 {
        assert (text[1..] + rest)[i..] == (text + rest)[i + 1..];
      }
      TextIsMarked(text[1..], rest, t);
      assert TextMarks(text, !t) == [Mark(text[0], !t)] + TextMarks(text[1..], !t);
    }
  }

  /** The text up to the first tag is marked as it stands, and the tag decides
      how what follows is. */
  lemma MarksOfCut(s: string, t: bool)
    ensures FirstTag(s) == |s| ==> Marks(s, t) == TextMarks(s, !t) && Ends(s, t) == t
    ensures FirstTag(s) < |s| ==>
      var (text, tag, rest) := FirstCut(s);
      Marks(s, t) == TextMarks(text, !t) + Marks(rest, tag == OPEN) && Ends(s, t) == Ends(rest, tag == OPEN)
  {
    var n := FirstTag(s);
    assert s[..n] + s[n..] == s;
    TextIsMarked(s[..n], s[n..], t);
    if n == |s| {
      assert s[n..] == "" && s[..n] == s;
    } else {
      CutParts(s);
      MarksStep(s[n..], t);
      hide Marks, Ends;
      assert s[n..][TagLength(s[n..])..] == FirstCut(s).2;
    }
  }

  lemma TagFreeIsNoTag(s: string)
    requires TagFree(s)
    ensures s != OPEN && s != CLOSE
  {
    assert s != "" ==> s[0..] == s && TagLength(s[0..]) == 0;
  }

  /** Handling the parts is reading the characters. */
  lemma {:induction false} PartsAreMarks(s: string, t: bool)
    ensures PartMarks(ReSplit(s), t) == Marks(s, t) && PartEnds(ReSplit(s), t) == Ends(s, t)
    decreases |s|
  {
    hide FirstTag, FirstCut, TagFree, IsTag, Marks, Ends;
    MarksOfCut(s, t);
    if FirstTag(s) == |s| {
      WholeTagFree(s);
      TagFreeIsNoTag(s);
      assert [s][1..] == [];
      assert TextMarks(s, !t) + [] == TextMarks(s, !t);
    } else {
      var (text, tag, rest) := FirstCut(s);
      CutParts(s);
      TagFreeIsNoTag(text);
      assert tag == OPEN || tag == CLOSE by { TagIsOne(tag); }
      var parts := ReSplit(rest);
      PartsAreMarks(rest, tag == OPEN);
      assert ([text, tag] + parts)[1..] == [tag] + parts && ([tag] + parts)[1..] == parts;
    }
  }

  lemma OtherParts(part: string)
    ensures part != OPEN && part != CLOSE ==> !IsTag(part)
  {
  }

  lemma TagIsOne(tag: string)
    requires IsTag(tag)
    ensures tag == OPEN || tag == CLOSE
  {
  }

  lemma {:induction false} StreamedMore(chunks: seq<string>, c: string, t: bool)
    ensures Streamed(chunks + [c], t) == Streamed(chunks, t) + Marks(c, StreamEnds(chunks, t))
    ensures StreamEnds(chunks + [c], t) == Ends(c, StreamEnds(chunks, t))
  {
    hide Marks, Ends;
    if chunks == [] {
      assert Streamed([c][1..], Ends(c, t)) == [] && [] + [c] == [c];
    } else {
      assert (chunks + [c])[1..] == chunks[1..] + [c];
      var u := Ends(chunks[0], t);
      StreamedMore(chunks[1..], c, u);
      var first, last := Marks(chunks[0], t), Marks(c, StreamEnds(chunks[1..], u));
      assert first + (Streamed(chunks[1..], u) + last) == first + Streamed(chunks[1..], u) + last;
    }
  }

  lemma EventMarksMore(events: seq<Event>, e: Event)
    ensures EventMarks(events + [e]) == EventMarks(events) + TextMarks(e.content, e.Message?)
  {
    assert (events + [e])[..|events|] == events;
  }

  lemma {:induction false} ShownText(text: string, shown: bool)
    ensures Shown(TextMarks(text, shown)) == if shown then text else ""
  {
    if text != "" {
      ShownText(text[1..], shown);
      assert TextMarks(text, shown)[1..] == TextMarks(text[1..], shown);
    }
  }

  /** The parts in front of `i` have been handled: they gave `marked` and left the
      state `now`. */
  ghost predicate Handled(parts: seq<string>, t: bool, i: nat, now: bool, marked: seq<Mark>) {
    && i <= |parts|
    && PartMarks(parts, t) == marked + PartMarks(parts[i..], now) && PartEnds(parts, t) == PartEnds(parts[i..], now)
  }

  lemma HandleOne(parts: seq<string>, t: bool, i: nat, now: bool, marked: seq<Mark>)
    requires Handled(parts, t, i, now, marked) && i < |parts|
    ensures parts[i] == OPEN ==> Handled(parts, t, i + 1, true, marked)
    ensures parts[i] == CLOSE ==> Handled(parts, t, i + 1, false, marked)
    ensures !IsTag(parts[i]) ==> Handled(parts, t, i + 1, now, marked + TextMarks(parts[i], !now))
  {
    assert parts[i..][1..] == parts[i + 1..];
  }

  /** The events and the answer carry what was marked. */
  ghost predicate Sent(response: string, events: seq<Event>, longer: string, more: seq<Event>, marked: seq<Mark>) {
    && longer == response + Shown(marked) && EventMarks(more) == EventMarks(events) + marked
    && forall i :: 0 <= i < |more| ==> more[i].content != ""
  }

  lemma SendOne(response: string, events: seq<Event>, longer: string, more: seq<Event>, marked: seq<Mark>, e: Event)
    requires Sent(response, events, longer, more, marked)
    ensures Sent(response, events, if e.Message? then longer + e.content else longer,
                 if e.content == "" then more else more + [e], marked + TextMarks(e.content, e.Message?))
  {
    hide EventMarks, TextMarks, Shown;
    var text := TextMarks(e.content, e.Message?);
    EventMarksMore(more, e);
    ShownMore(marked, text);
    ShownText(e.content, e.Message?);
    assert longer + Shown(text) == response + (Shown(marked) + Shown(text));
    assert EventMarks(more) + text == EventMarks(events) + (marked + text);
    if e.content == "" {
      NoTextNoMarks(e.Message?);
      assert marked + text == marked;
    }
  }

  lemma NothingHandled(parts: seq<string>, t: bool, response: string, events: seq<Event>)
    requires forall i :: 0 <= i < |events| ==> events[i].content != ""
    ensures Handled(parts, t, 0, t, []) && Sent(response, events, response, events, [])
  {
    assert parts[0..] == parts;
  }

  lemma AllHandled(parts: seq<string>, t: bool, now: bool, marked: seq<Mark>)
    requires Handled(parts, t, |parts|, now, marked)
    ensures PartMarks(parts, t) == marked && PartEnds(parts, t) == now
  {
    assert parts[|parts|..] == [] && marked + [] == marked;
  }

  lemma NoTextNoMarks(shown: bool)
    ensures TextMarks("", shown) == []
  {
  }

  /** One chunk of the stream: the events for its parts, and the answer so far. */
  method HandleChunk(raw: string, t: bool, response: string, events: seq<Event>)
    returns (nowThinking: bool, longer: string, more: seq<Event>)
    requires forall i :: 0 <= i < |events| ==> events[i].content != ""
    ensures nowThinking == Ends(raw, t)
    ensures Sent(response, events, longer, more, Marks(raw, t))
  {
    hide *;
    var parts := ReSplit(raw);
    PartsAreMarks(raw, t);
    nowThinking, longer, more := t, response, events;
    ghost var marked: seq<Mark> := [];
    NothingHandled(parts, t, response, events);
    var i := 0;
    while i < |parts|
      invariant 0 <= i <= |parts|
      invariant Handled(parts, t, i, nowThinking, marked)
      invariant Sent(response, events, longer, more, marked)
    {
      var part := parts[i];
      HandleOne(parts, t, i, nowThinking, marked);
      i := i + 1;
      if part == OPEN {
        nowThinking := true;
        continue;
      }
      if part == CLOSE {
        nowThinking := false;
        continue;
      }
      OtherParts(part);
      var e := if nowThinking then Thought(part) else Message(part);
      SendOne(response, events, longer, more, marked, e);
      marked := marked + TextMarks(part, !nowThinking);
      assert longer + "" == longer;
      if part == "" { continue; }
      if !nowThinking { longer := longer + part; }
      more := more + [e];
    }
    AllHandled(parts, t, nowThinking, marked);
  }

  /** `_execute_solver_pass`, streaming: `stop` tells after which chunk the clock
      ends the loop. The answer is the shown part of what was read, and the events
      carry all of it, thoughts included, in order. */
  method StreamPass(chunks: seq<string>, stop: seq<bool>) returns (response: string, events: seq<Event>, read: nat)
    requires |stop| == |chunks|
    ensures read <= |chunks| && (forall i :: 0 <= i < read - 1 ==> !stop[i])
      && (read < |chunks| ==> read > 0 && stop[read - 1])
    ensures response == Shown(Streamed(chunks[..read], false))
    ensures EventMarks(events) == Streamed(chunks[..read], false)
    ensures forall i :: 0 <= i < |events| ==> events[i].content != ""
  {
    response, events, read := "", [], 0;
    var inThink := false;
    while read < |chunks|
      invariant 0 <= read <= |chunks|
      invariant forall i :: 0 <= i < read ==> !stop[i]
      invariant inThink == StreamEnds(chunks[..read], false)
      invariant response == Shown(Streamed(chunks[..read], false))
      invariant EventMarks(events) == Streamed(chunks[..read], false)
      invariant forall i :: 0 <= i < |events| ==> events[i].content != ""
    {
      var raw := chunks[read];
      StreamedMore(chunks[..read], raw, false);
      assert chunks[..read + 1] == chunks[..read] + [raw];
      ShownMore(Streamed(chunks[..read], false), Marks(raw, inThink));
      if raw != "" {
        inThink, response, events := HandleChunk(raw, inThink, response, events);
      }
      read := read + 1;
      if stop[read - 1] { return; }
    }
  }

  // ------------------------------------------------------------ the whole answer

  /** Where the first closing tag begins. */
  function FindClose(s: string): (r: Option<nat>)
    ensures r.Some? ==> r.value + |CLOSE| <= |s|
  {
    if s == "" then None
    else if Closes(s) then Some(0)
    else
      var later := FindClose(s[1..]);
      if later.None? then None else Some(later.value + 1)
  }

  /** `re.sub(r'<think>.*?</think>', '', s)`, where '.' is any character: an opening
      tag is dropped with all up to the first closing tag behind it. */
  function Removed(s: string): string
    decreases |s|
  {
    if s == "" then ""
    else if Opens(s) && FindClose(s[|OPEN|..]).Some? then Removed(s[|OPEN| + FindClose(s[|OPEN|..]).value + |CLOSE|..])
    else [s[0]] + Removed(s[1..])
  }

  /** No closing tag outside a thought, and no thought left open. */
  predicate Balanced(s: string, inThink: bool) {
    if s == "" then !inThink
    else if Opens(s) then Balanced(s[|OPEN|..], true)
    else if Closes(s) then inThink && Balanced(s[|CLOSE|..], false)
    else Balanced(s[1..], inThink)
  }

  lemma {:induction false} NoCloseLater(s: string, n: nat)
    requires n <= |s| && FindClose(s) == None
    ensures FindClose(s[n..]) == None
    decreases n
  {
    if n == 0 {
      assert s[0..] == s;
    } else {
      NoCloseLater(s[1..], n - 1);
      assert s[1..][n - 1..] == s[n..];
    }
  }

  lemma {:induction false} CloseLater(s: string, n: nat)
    requires n <= |s| && forall i :: 0 <= i < n ==> !Closes(s[i..])
    ensures FindClose(s) == match FindClose(s[n..]) case None => None case Some(j) => Some(n + j)
    decreases n
  {
    if n == 0 {
      assert s[0..] == s;
    } else {
      assert s[0..] == s;
      forall i | 0 <= i < n - 1 ensures !Closes(s[1..][i..]) { assert s[1..][i..] == s[i + 1..]; }
      CloseLater(s[1..], n - 1);
      assert s[1..][n - 1..] == s[n..];
    }
  }

  /** Inside a thought, reading goes on to the first closing tag and shows nothing. */
  lemma {:induction false} ThoughtEnds(s: string)
    ensures FindClose(s).Some? ==>
      var rest := s[FindClose(s).value + |CLOSE|..];
      Shown(Marks(s, true)) == Shown(Marks(rest, false)) && (Balanced(s, true) <==> Balanced(rest, false))
    ensures FindClose(s).None? ==> Shown(Marks(s, true)) == "" && !Balanced(s, true)
    decreases |s|
  {
    if s == "" {
    } else if Closes(s) {
      OneTag(s);
    } else {
      var n := Stride(s);
      assert s[0..] == s;
      forall i | 0 <= i < n ensures !Closes(s[i..]) {
        if i > 0 { TagsDoNotOverlap(s, i); }
      }
      CloseLater(s, n);
      ThoughtEnds(s[n..]);
      MarksStep(s, true);
      hide Marks, FindClose;
      if FindClose(s[n..]).Some? {
        assert s[n..][FindClose(s[n..]).value + |CLOSE|..] == s[FindClose(s).value + |CLOSE|..];
      }
    }
  }

  lemma {:induction false} PlainRemoved(text: string, rest: string)
    requires forall i :: 0 <= i < |text| ==> text[i] != '<'
    ensures Removed(text + rest) == text + Removed(rest)
  {
    if text == "" {
      assert text + rest == rest;
    } else {
      assert OPEN[0] == '<' && (text + rest)[0] == text[0] && (text + rest)[1..] == text[1..] + rest;
      PlainRemoved(text[1..], rest);
    }
  }

  lemma StrayCloseStays(s: string)
    requires Closes(s)
    ensures |Removed(s)| == |CLOSE| + |Removed(s[|CLOSE|..])|
  {
    OneTag(s);
    forall i | 1 <= i < |CLOSE| ensures s[i] != '<' { TagsDoNotOverlap(s, i); }
    assert s[1..] == s[1..|CLOSE|] + s[|CLOSE|..];
    PlainRemoved(s[1..|CLOSE|], s[|CLOSE|..]);
  }

  lemma {:induction false} RemovalSize(s: string)
    ensures Balanced(s, false) ==> Removed(s) == Shown(Marks(s, false))
    ensures |Shown(Marks(s, false))| <= |Removed(s)|
    ensures !Balanced(s, false) ==> |Shown(Marks(s, false))| < |Removed(s)|
    decreases |s|
  {
    if s == "" {
    } else if Opens(s) {
      ThoughtEnds(s[|OPEN|..]);
      if FindClose(s[|OPEN|..]).Some? {
        var rest := s[|OPEN| + FindClose(s[|OPEN|..]).value + |CLOSE|..];
        assert s[|OPEN|..][FindClose(s[|OPEN|..]).value + |CLOSE|..] == rest;
        RemovalSize(rest);
      }
    } else if Closes(s) {
      StrayCloseStays(s);
      RemovalSize(s[|CLOSE|..]);
    } else {
      RemovalSize(s[1..]);
    }
  }

  /** Removing the thoughts from the whole answer shows what the filter shows
      exactly when every thought is closed and nothing else is. */
  lemma RemovalIsTheFilter(s: string)
    ensures Removed(s) == Shown(Marks(s, false)) <==> Balanced(s, false)
  {
    RemovalSize(s);
  }

  /** The answer of `_execute_solver_pass` without streaming. */
  function WholeAnswer(content: string): string {
    PyText.Strip(Removed(content))
  }

  lemma PlainText(s: string, rest: string, t: bool)
    requires forall i :: 0 <= i < |s| ==> s[i] != '<'
    ensures Marks(s + rest, t) == TextMarks(s, !t) + Marks(rest, t)
  {
    forall i | 0 <= i < |s| ensures TagLength((s + rest)[i..]) == 0 {
      assert OPEN[0] == '<' && CLOSE[0] == '<' && (s + rest)[i..][0] == s[i];
    }
    TextIsMarked(s, rest, t);
  }

  lemma TagThenText(s: string, t: bool)
    ensures Marks(OPEN + s, t) == Marks(s, true) && Marks(CLOSE + s, t) == Marks(s, false)
  {
    OneTag(OPEN + s);
    OneTag(CLOSE + s);
    assert (OPEN + s)[|OPEN|..] == s && (CLOSE + s)[|CLOSE|..] == s;
  }

  /** A thought between two texts is hidden, and the texts are shown. */
  lemma ThoughtIsHidden(a: string, thought: string, b: string)
    requires forall i :: 0 <= i < |a + thought + b| ==> (a + thought + b)[i] != '<'
    ensures Shown(Marks(a + (OPEN + (thought + (CLOSE + b))), false)) == a + b
  {
    hide Marks, TextMarks, Shown;
    forall i | 0 <= i < |a| ensures a[i] != '<' { assert (a + thought + b)[i] == a[i]; }
    forall i | 0 <= i < |thought| ensures thought[i] != '<' { assert (a + thought + b)[|a| + i] == thought[i]; }
    forall i | 0 <= i < |b| ensures b[i] != '<' { assert (a + thought + b)[|a| + |thought| + i] == b[i]; }
    PlainText(a, OPEN + (thought + (CLOSE + b)), false);
    TagThenText(thought + (CLOSE + b), false);
    PlainText(thought, CLOSE + b, true);
    TagThenText(b, true);
    PlainText(b, "", false);
    assert b + "" == b;
    ShownMore(TextMarks(a, true), TextMarks(thought, false) + (TextMarks(b, true) + Marks("", false)));
    ShownMore(TextMarks(thought, false), TextMarks(b, true) + Marks("", false));
    ShownMore(TextMarks(b, true), Marks("", false));
    ShownText(a, true);
    ShownText(thought, false);
    ShownText(b, true);
    NothingMarked(false, "");
    ShownNothing();
  }

  lemma ShownNothing()
    ensures Shown([]) == ""
  {
  }

  /** Both ways of running the solver give the same text, up to the white space at
      its ends, for a balanced answer in whose stream no tag is cut. */
  lemma TwoModesAgree(chunks: seq<string>)
    requires NoneCrosses(chunks)
    ensures Removed(Concat(chunks)) == Shown(Streamed(chunks, false)) <==> Balanced(Concat(chunks), false)
    ensures Balanced(Concat(chunks), false) ==>
      WholeAnswer(Concat(chunks)) == PyText.Strip(Shown(Streamed(chunks, false)))
  {
    StreamedSize(chunks, false);
    RemovalSize(Concat(chunks));
  }
}
