/** The loop of cli.py's parser agrees with the reference description, and
    what that means for `Parse`: which title and body it yields for tagged,
    untagged and well-formed completions. */
module ParserLemmas {
  import opened PyText
  import opened ResponseParser
  import opened ParserReference

  /** How the first `BODY:` index moves when one more line is read. */
  lemma FirstBodyIndexSnoc(init: seq<string>, x: string)
    ensures FirstBodyIndex(init + [x]) ==
              if FirstBodyIndex(init) < |init| then FirstBodyIndex(init)
              else if IsBodyLine(x) then |init|
              else |init| + 1
  {
    var lines := init + [x];
    var k := FirstBodyIndex(lines);
    var k' := FirstBodyIndex(init);
    if k' < |init| {
      assert lines[k'] == init[k'];
      assert k <= k';
    } else {
      assert forall j :: 0 <= j < |init| ==> lines[j] == init[j];
      if IsBodyLine(x) {
        assert lines[|init|] == x;
      }
    }
  }

  /** No line is both a title line and a body line. */
  lemma TagsExclusive(line: string)
    ensures !(IsTitleLine(line) && IsBodyLine(line))
  {
    if IsTitleLine(line) {
      assert line[0] == line[..|TitleTag|][0] == 'T';
      assert BodyTag[0] == 'B';
    }
  }

  /** The body has started exactly when a `BODY:` line has been seen. */
  lemma {:induction false} ScanInBody(lines: seq<string>)
    ensures Scan(lines).inBody <==> FirstBodyIndex(lines) < |lines|
    decreases |lines|
  {
    if |lines| > 0 {
      var init := lines[..|lines| - 1];
      var x := lines[|lines| - 1];
      assert lines == init + [x];
      ScanInBody(init);
      FirstBodyIndexSnoc(init, x);
      TagsExclusive(x);
      assert Scan(lines) == Step(Scan(init), x);
    }
  }

  /** Dropping a prefix of a sequence extended at the back. */
  lemma DropSnoc(init: seq<string>, x: string, k: nat)
    requires k <= |init|
    ensures (init + [x])[k..] == init[k..] + [x]
  {
  }

  /** Past the last line nothing is contributed. */
  lemma NoContributionsAtEnd(s: seq<string>)
    ensures Contributions(s[|s|..]) == []
  {
    assert s[|s|..] == [];
  }

  /** One more line adds its own contribution at the end. */
  lemma ContributionsSnoc(s: seq<string>, x: string)
    ensures Contributions(s + [x]) == Contributions(s) + Contribution(x)
  {
    assert (s + [x])[..|s|] == s;
  }

  /** What one line does to the body lines. */
  lemma StepBodyLines(st: ScanState, x: string)
    ensures Step(st, x).bodyLines ==
              if IsTitleLine(x) then st.bodyLines
              else if IsBodyLine(x) then st.bodyLines + [BodyText(x)]
              else if st.inBody then st.bodyLines + [x]
              else st.bodyLines
  {
  }

  /** The same, for the scan of a sequence extended by one line. */
  lemma ScanSnocBodyLines(init: seq<string>, x: string)
    ensures Scan(init).inBody ==> Scan(init + [x]).bodyLines == Scan(init).bodyLines + Contribution(x)
    ensures !Scan(init).inBody ==>
              Scan(init + [x]).bodyLines == Scan(init).bodyLines + (if IsBodyLine(x) then [BodyText(x)] else [])
  {
    assert (init + [x])[..|init|] == init;
    StepBodyLines(Scan(init), x);
    TagsExclusive(x);
  }

  /** A single `BODY:` line contributes its own text. */
  lemma FirstBodyContribution(init: seq<string>, x: string)
    requires IsBodyLine(x)
    ensures Contributions((init + [x])[|init|..]) == [BodyText(x)]
  {
    TagsExclusive(x);
    ContributionsSnoc([], x);
    assert (init + [x])[|init|..] == [] + [x];
  }

  /** How the contributions from the first `BODY:` line on grow when one
      more line is read: by that line's contribution once the body has
      started, by the line's text when it is the first `BODY:` line, and
      not at all before. */
  lemma ContributionsFromBodySnoc(init: seq<string>, x: string)
    ensures FirstBodyIndex(init) == |init| ==> Contributions(init[FirstBodyIndex(init)..]) == []
    ensures Contributions((init + [x])[FirstBodyIndex(init + [x])..]) ==
              if FirstBodyIndex(init) < |init| then Contributions(init[FirstBodyIndex(init)..]) + Contribution(x)
              else if IsBodyLine(x) then [BodyText(x)]
              else []
  {
    FirstBodyIndexSnoc(init, x);
    var k := FirstBodyIndex(init);
    NoContributionsAtEnd(init);
    if k < |init| {
      DropSnoc(init, x, k);
      ContributionsSnoc(init[k..], x);
    } else if IsBodyLine(x) {
      FirstBodyContribution(init, x);
    } else {
      NoContributionsAtEnd(init + [x]);
    }
  }

  /** A non-empty sequence is its front followed by its last element. */
  lemma FrontLast(lines: seq<string>)
    requires |lines| > 0
    ensures lines == lines[..|lines| - 1] + [lines[|lines| - 1]]
  {
  }

  /** The body lines are the contributions of the lines from the first
      `BODY:` line on; earlier lines add nothing. */
  lemma {:induction false} ScanBodyLines(lines: seq<string>)
    ensures Scan(lines).bodyLines == Contributions(lines[FirstBodyIndex(lines)..])
    decreases |lines|
  {
    if |lines| > 0 {
      var init := lines[..|lines| - 1];
      var x := lines[|lines| - 1];
      FrontLast(lines);
      ScanBodyLines(init);
      ScanInBody(init);
      ScanSnocBodyLines(init, x);
      ContributionsFromBodySnoc(init, x);
    }
  }

  /** The title comes from the last `TITLE:` line, and is empty when
      there is none. */
  lemma {:induction false} ScanTitle(lines: seq<string>)
    ensures Scan(lines).title ==
              if LastTitleIndex(lines) < 0 then "" else TitleText(lines[LastTitleIndex(lines)])
    decreases |lines|
  {
    if |lines| > 0 {
      var init := lines[..|lines| - 1];
      var x := lines[|lines| - 1];
      ScanTitle(init);
      if !IsTitleLine(x) && LastTitleIndex(init) >= 0 {
        assert lines[LastTitleIndex(init)] == init[LastTitleIndex(init)];
      }
    }
  }

  /** The scan agrees with the reference description on all three of its
      variables. */
  lemma ScanMatchesReference(lines: seq<string>)
    ensures Scan(lines).inBody <==> FirstBodyIndex(lines) < |lines|
    ensures Scan(lines).bodyLines == Contributions(lines[FirstBodyIndex(lines)..])
    ensures Scan(lines).title ==
              if LastTitleIndex(lines) < 0 then "" else TitleText(lines[LastTitleIndex(lines)])
  {
    ScanInBody(lines);
    ScanBodyLines(lines);
    ScanTitle(lines);
  }

  /** The title: the text of the last `TITLE:` line, unless there is no
      such line or its text is empty, in which case the placeholder. */
  lemma ParseTitle(text: string)
    ensures var lines := Split(text, LineBreak);
            var k := LastTitleIndex(lines);
            Parse(text).title ==
              if k < 0 || TitleText(lines[k]) == "" then DefaultTitle else TitleText(lines[k])
  {
    ScanMatchesReference(Split(text, LineBreak));
  }

  /** The body: the contributions of the lines from the first `BODY:` line
      on, joined with line breaks; the whole response instead when there
      are none (no `BODY:` line) or just one empty one (a bare `BODY:` as
      the last line). */
  lemma ParseBody(text: string)
    ensures var lines := Split(text, LineBreak);
            var c := Contributions(lines[FirstBodyIndex(lines)..]);
            && ((|c| == 0 || c == [""]) ==> Parse(text).body == text)
            && (!(|c| == 0 || c == [""]) ==> Parse(text).body == Join(c, [LineBreak]))
  {
    var lines := Split(text, LineBreak);
    ScanMatchesReference(lines);
    JoinEmpty(Contributions(lines[FirstBodyIndex(lines)..]), [LineBreak]);
  }

  /** A response with neither a `TITLE:` nor a `BODY:` line parses to the
      placeholder title and the whole response as the body. */
  lemma ParseUnlabelled(text: string)
    requires Untagged(Split(text, LineBreak))
    ensures Parse(text) == GeneratedPost(DefaultTitle, text)
  {
    var lines := Split(text, LineBreak);
    ScanMatchesReference(lines);
    assert lines[|lines|..] == [];
  }

  /** Two states that agree on the body stay in agreement after any
      further lines, whatever their titles. */
  lemma {:induction false} BodyIgnoresTitle(s1: ScanState, s2: ScanState, rest: seq<string>)
    requires s1.bodyLines == s2.bodyLines && s1.inBody == s2.inBody
    ensures ScanFrom(s1, rest).bodyLines == ScanFrom(s2, rest).bodyLines
    ensures ScanFrom(s1, rest).inBody == ScanFrom(s2, rest).inBody
    decreases |rest|
  {
    if |rest| > 0 {
      BodyIgnoresTitle(Step(s1, rest[0]), Step(s2, rest[0]), rest[1..]);
    }
  }

  /** The loop continued from a given state over further lines. */
  function ScanFrom(st: ScanState, rest: seq<string>): ScanState
    decreases |rest|
  {
    if |rest| == 0 then st else ScanFrom(Step(st, rest[0]), rest[1..])
  }

  /** Scanning a concatenation continues from where the first part left off. */
  lemma {:induction false} ScanAppend(init: seq<string>, rest: seq<string>)
    ensures Scan(init + rest) == ScanFrom(Scan(init), rest)
    decreases |rest|
  {
    if |rest| == 0 {
      assert init + rest == init;
    } else {
      var front := rest[..|rest| - 1];
      var x := rest[|rest| - 1];
      assert rest == front + [x];
      calc {
        Scan(init + rest);
      == { assert (init + rest)[..|init + rest| - 1] == init + front;
           assert (init + rest)[|init + rest| - 1] == x; }
        Step(Scan(init + front), x);
      == { ScanAppend(init, front); }
        Step(ScanFrom(Scan(init), front), x);
      == { ScanFromSnoc(Scan(init), front, x); }
        ScanFrom(Scan(init), front + [x]);
      }
    }
  }

  /** Running over one more line is one more step. */
  lemma {:induction false} ScanFromSnoc(st: ScanState, front: seq<string>, x: string)
    ensures ScanFrom(st, front + [x]) == Step(ScanFrom(st, front), x)
    decreases |front|
  {
    if |front| == 0 {
      assert front + [x] == [x];
    } else {
      assert (front + [x])[1..] == front[1..] + [x];
      assert (front + [x])[0] == front[0];
      ScanFromSnoc(Step(st, front[0]), front[1..], x);
    }
  }

  /** A `TITLE:` line never reaches the body, wherever it stands: taking
      it out of the response leaves the body lines unchanged. */
  lemma TitleLineNotInBody(before: seq<string>, t: string, after: seq<string>)
    requires IsTitleLine(t)
    ensures Scan(before + [t] + after).bodyLines == Scan(before + after).bodyLines
  {
    ScanAppend(before + [t], after);
    ScanAppend(before, after);
    assert (before + [t])[..|before + [t]| - 1] == before;
    BodyIgnoresTitle(Scan(before + [t]), Scan(before), after);
  }

  /** The body contributions of a concatenation are the contributions of
      its parts. */
  lemma {:induction false} ContributionsAppend(a: seq<string>, b: seq<string>)
    ensures Contributions(a + b) == Contributions(a) + Contributions(b)
    decreases |b|
  {
    if |b| == 0 {
      assert a + b == a;
    } else {
      var front := b[..|b| - 1];
      ContributionsAppend(a, front);
      assert (a + b)[..|a + b| - 1] == a + front;
      assert (a + b)[|a + b| - 1] == b[|b| - 1];
    }
  }

  /** Lines without a tag contribute themselves, unchanged. */
  lemma {:induction false} ContributionsUntagged(lines: seq<string>)
    requires Untagged(lines)
    ensures Contributions(lines) == lines
    decreases |lines|
  {
    if |lines| > 0 {
      ContributionsUntagged(lines[..|lines| - 1]);
      assert lines == lines[..|lines| - 1] + [lines[|lines| - 1]];
    }
  }

  /** A tag, one space and a text that does not contain the tag and neither
      starts nor ends with whitespace: removing the tag and stripping gives
      back the text. */
  lemma TaggedText(tag: string, w: string)
    requires |tag| > 0 && tag[0] != ' '
    requires |w| > 0 && w[0] !in Whitespace && w[|w| - 1] !in Whitespace
    requires !Contains(w, tag)
    ensures Strip(RemoveAll(tag + " " + w, tag)) == w
  {
    assert tag + " " + w == tag + (" " + w);
    RemoveAllLeading(tag, " " + w);
    SpaceAddsNoOccurrence(w, tag);
    RemoveAllAbsent(" " + w, tag);
    StripLeadingSpace(w);
  }

  /** Where the reference description puts a title line followed by a
      body line and untagged lines: the body starts at the second line,
      the title is the first line, and every later line is kept as it is. */
  lemma BodyStartsSecond(l1: string, l2: string, more: seq<string>)
    requires IsTitleLine(l1) && IsBodyLine(l2)
    ensures FirstBodyIndex([l1, l2] + more) == 1
  {
    var lines := [l1, l2] + more;
    TagsExclusive(l1);
    assert lines[0] == l1 && lines[1] == l2;
  }

  lemma TitleFirst(l1: string, l2: string, more: seq<string>)
    requires IsTitleLine(l1) && IsBodyLine(l2) && Untagged(more)
    ensures LastTitleIndex([l1, l2] + more) == 0
  {
    var lines := [l1, l2] + more;
    TagsExclusive(l2);
    assert lines[0] == l1 && lines[1] == l2;
    assert forall j :: 2 <= j < |lines| ==> lines[j] == more[j - 2];
  }

  lemma UntaggedKept(l2: string, more: seq<string>)
    requires IsBodyLine(l2) && Untagged(more)
    ensures Contributions([l2] + more) == [BodyText(l2)] + more
  {
    assert Contributions([l2]) == [BodyText(l2)] by {
      TagsExclusive(l2);
      assert [l2][..0] == [];
    }
    ContributionsUntagged(more);
    ContributionsAppend([l2], more);
  }

  /** A tag, a space and a text without line breaks make a line without
      line breaks. */
  lemma TaggedLineUnbroken(tag: string, w: string)
    requires LineBreak !in tag && LineBreak !in w
    ensures LineBreak !in tag + " " + w
  {
    assert forall i :: 0 <= i < |tag + " " + w| ==>
      (tag + " " + w)[i] == if i < |tag| then tag[i] else if i == |tag| then ' ' else w[i - |tag| - 1];
  }

  /** Dropping the title line leaves the body line and the rest. */
  lemma AfterTitleLine(l1: string, l2: string, more: seq<string>)
    ensures ([l1, l2] + more)[1..] == [l2] + more
  {
  }

  /** The scan over a title line, a body line and untagged lines. */
  lemma ScanTitleBody(l1: string, l2: string, more: seq<string>)
    requires IsTitleLine(l1) && IsBodyLine(l2) && Untagged(more)
    ensures Scan([l1, l2] + more) == ScanState(TitleText(l1), [BodyText(l2)] + more, true)
  {
    var lines := [l1, l2] + more;
    ScanMatchesReference(lines);
    BodyStartsSecond(l1, l2, more);
    TitleFirst(l1, l2, more);
    AfterTitleLine(l1, l2, more);
    UntaggedKept(l2, more);
  }

  /** A title line, then a body line, then untagged lines: the title and
      the first body line come from the first two lines, and the untagged
      lines are kept as they are. */
  lemma ParseTitleBody(l1: string, l2: string, more: seq<string>)
    requires IsTitleLine(l1) && IsBodyLine(l2) && Untagged(more)
    requires NoneContains([l1, l2] + more, LineBreak)
    requires TitleText(l1) != "" && BodyText(l2) != ""
    ensures Parse(Join([l1, l2] + more, [LineBreak]))
              == GeneratedPost(TitleText(l1), Join([BodyText(l2)] + more, [LineBreak]))
  {
    var lines := [l1, l2] + more;
    SplitJoin(lines, LineBreak);
    ScanTitleBody(l1, l2, more);
    JoinEmpty([BodyText(l2)] + more, [LineBreak]);
  }

  /** A well-formed response, a `TITLE:` line followed by a `BODY:` line
      and untagged continuation lines, parses to exactly its title and its
      body lines; "TITLE: Foo\nBODY: bar\nbaz" giving title "Foo" and
      body "bar\nbaz" is one instance. */
  lemma ParseWellFormed(title: string, body: string, more: seq<string>)
    requires |title| > 0 && title[0] !in Whitespace && title[|title| - 1] !in Whitespace
    requires |body| > 0 && body[0] !in Whitespace && body[|body| - 1] !in Whitespace
    requires !Contains(title, TitleTag) && !Contains(body, BodyTag)
    requires LineBreak !in title && LineBreak !in body
    requires Untagged(more) && NoneContains(more, LineBreak)
    ensures var lines := [TitleTag + " " + title, BodyTag + " " + body] + more;
            Parse(Join(lines, [LineBreak])) == GeneratedPost(title, Join([body] + more, [LineBreak]))
  {
    var l1 := TitleTag + " " + title;
    var l2 := BodyTag + " " + body;
    var lines := [l1, l2] + more;
    assert l1[..|TitleTag|] == TitleTag;
    assert l2[..|BodyTag|] == BodyTag;
    TaggedLineUnbroken(TitleTag, title);
    TaggedLineUnbroken(BodyTag, body);
    assert NoneContains(lines, LineBreak) by {
      assert forall j :: 2 <= j < |lines| ==> lines[j] == more[j - 2];
    }
    TaggedText(TitleTag, title);
    TaggedText(BodyTag, body);
    ParseTitleBody(l1, l2, more);
  }
}
