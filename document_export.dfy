/** The text preprocessing behind the PDF and Word download routes of both servers
    (backend/server.js and server.js): the generated text is split into lines, each line is
    trimmed, blank lines are dropped, the first kept line is the title and every later line is
    either a numbered clause heading or a body paragraph; a disclaimer closes the document. */
module DocumentExport {
  import opened Js

  const DisclaimerText := "Disclaimer: This document is AI-generated and must be reviewed by a qualified legal professional."

  function TrimAll(parts: seq<string>): (r: seq<string>)
    ensures |r| == |parts|
    ensures forall i :: 0 <= i < |parts| ==> r[i] == Trim(parts[i])
  {
    if parts == [] then [] else [Trim(parts[0])] + TrimAll(parts[1..])
  }

  /** `.filter(Boolean)` on strings */
  function NonEmpty(ls: seq<string>): (r: seq<string>)
    ensures forall i :: 0 <= i < |r| ==> r[i] != ""
  {
    if ls == [] then []
    else (if ls[0] == "" then [] else [ls[0]]) + NonEmpty(ls[1..])
  }

  lemma {:induction false} NonEmptySubsequence(ls: seq<string>)
    ensures IsSubsequence(NonEmpty(ls), ls)
    decreases |ls|
  {
    if ls != [] {
      NonEmptySubsequence(ls[1..]);
      assert ls == [ls[0]] + ls[1..];
      if ls[0] == "" {
        assert NonEmpty(ls) == NonEmpty(ls[1..]);
        SubsequenceDrop(ls[0], NonEmpty(ls[1..]), ls[1..]);
      } else {
        assert NonEmpty(ls) == [ls[0]] + NonEmpty(ls[1..]);
        SubsequenceCons(ls[0], NonEmpty(ls[1..]), ls[1..]);
      }
    }
  }

  lemma {:induction false} NonEmptyOfNonEmpty(ls: seq<string>)
    requires forall i :: 0 <= i < |ls| ==> ls[i] != ""
    ensures NonEmpty(ls) == ls
    decreases |ls|
  {
    if ls != [] {
      NonEmptyOfNonEmpty(ls[1..]);
      assert ls == [ls[0]] + ls[1..];
    }
  }

  /** `content.split('\n').map(l => l.trim()).filter(Boolean)` */
  function Lines(content: string): (ls: seq<string>)
  {
    NonEmpty(TrimAll(Split(content, '\n')))
  }

  lemma {:induction false} NonEmptyKeeps(ls: seq<string>, l: string)
    requires l in ls && l != ""
    ensures l in NonEmpty(ls)
    decreases |ls|
  {
    if ls[0] == l {
      assert NonEmpty(ls) == [l] + NonEmpty(ls[1..]);
    } else {
      assert l in ls[1..];
      NonEmptyKeeps(ls[1..], l);
      assert NonEmpty(ls) == (if ls[0] == "" then [] else [ls[0]]) + NonEmpty(ls[1..]);
    }
  }

  /** The filter keeps every non-empty string as often as it occurs and drops every empty one. */
  lemma {:induction false} NonEmptyCounts(ls: seq<string>)
    ensures multiset(NonEmpty(ls)) == multiset(ls)["" := 0]
    decreases |ls|
  {
    if ls != [] {
      NonEmptyCounts(ls[1..]);
      assert ls == [ls[0]] + ls[1..];
      assert NonEmpty(ls) == (if ls[0] == "" then [] else [ls[0]]) + NonEmpty(ls[1..]);
      assert multiset(ls) == multiset([ls[0]]) + multiset(ls[1..]);
    }
  }

  lemma {:induction false} NonEmptyFrom(ls: seq<string>, l: string)
    requires l in NonEmpty(ls)
    ensures l in ls
    decreases |ls|
  {
    assert NonEmpty(ls) == (if ls[0] == "" then [] else [ls[0]]) + NonEmpty(ls[1..]);
    if l != ls[0] {
      NonEmptyFrom(ls[1..], l);
    }
  }

  /** Every kept line is non-empty, has no surrounding whitespace and spans no line break. */
  lemma LinesWellFormed(content: string)
    ensures var ls := Lines(content);
      forall i :: 0 <= i < |ls| ==> ls[i] != "" && IsTrimmed(ls[i]) && '\n' !in ls[i]
  {
    var parts := Split(content, '\n');
    var ts := TrimAll(parts);
    var ls := NonEmpty(ts);
    forall i | 0 <= i < |ls| ensures IsTrimmed(ls[i]) && '\n' !in ls[i] {
      NonEmptyFrom(ts, ls[i]);
      var k :| 0 <= k < |ts| && ts[k] == ls[i];
    }
  }

  /** The kept lines are the trimmed source lines with some dropped, in their original order. */
  lemma LinesInOrder(content: string)
    ensures IsSubsequence(Lines(content), TrimAll(Split(content, '\n')))
  {
    NonEmptySubsequence(TrimAll(Split(content, '\n')));
  }

  /** Only blank source lines are dropped: every other one is kept, trimmed. */
  lemma LinesComplete(content: string, p: string)
    requires p in Split(content, '\n') && !Blank(p)
    ensures Trim(p) in Lines(content)
  {
    var parts := Split(content, '\n');
    var ts := TrimAll(parts);
    var k :| 0 <= k < |parts| && parts[k] == p;
    assert ts[k] == Trim(p);
    NonEmptyKeeps(ts, Trim(p));
  }

  /** Each trimmed source line that is not empty is kept as often as it occurs, and no other
      line appears. */
  lemma LinesCounts(content: string)
    ensures multiset(Lines(content)) == multiset(TrimAll(Split(content, '\n')))["" := 0]
  {
    NonEmptyCounts(TrimAll(Split(content, '\n')));
  }

  lemma TrimAllOfTrimmed(ls: seq<string>)
    requires forall i :: 0 <= i < |ls| ==> IsTrimmed(ls[i])
    ensures TrimAll(ls) == ls
  {
    forall i | 0 <= i < |ls| ensures Trim(ls[i]) == ls[i] {
      TrimOfTrimmed(ls[i]);
    }
  }

  /** An example: empty content is one empty piece, which the filter drops. */
  lemma NoLines()
    ensures Lines("") == []
  {
    assert Split("", '\n') == [""];
    assert TrimAll([""]) == [""];
  }

  /** With a whitespace separator, a join is blank exactly when every piece is. */
  lemma {:induction false} BlankJoin(ps: seq<string>, sep: char)
    requires IsSpace(sep)
    ensures Blank(Join(ps, sep)) <==> forall i :: 0 <= i < |ps| ==> Blank(ps[i])
    decreases |ps|
  {
    if |ps| > 1 {
      BlankJoin(ps[1..], sep);
      var j := Join(ps[1..], sep);
      var s := ps[0] + [sep] + j;
      assert Join(ps, sep) == s;
      assert forall k :: 0 <= k < |ps[0]| ==> s[k] == ps[0][k];
      assert forall k :: 0 <= k < |j| ==> s[|ps[0]| + 1 + k] == j[k];
      if Blank(ps[0]) && Blank(j) {
        forall k | 0 <= k < |s| ensures IsSpace(s[k]) {
          if |ps[0]| < k {
            assert s[k] == j[k - |ps[0]| - 1];
          }
        }
      }
      forall i | 0 < i < |ps| ensures ps[i] == ps[1..][i - 1] { }
    }
  }

  /** The filter drops every trimmed piece exactly when every piece is blank. */
  lemma {:induction false} NothingKept(ps: seq<string>)
    ensures NonEmpty(TrimAll(ps)) == [] <==> forall i :: 0 <= i < |ps| ==> Blank(ps[i])
    decreases |ps|
  {
    if ps != [] {
      NothingKept(ps[1..]);
      var ts := TrimAll(ps);
      assert ts[1..] == TrimAll(ps[1..]);
      assert NonEmpty(ts) == (if Trim(ps[0]) == "" then [] else [Trim(ps[0])]) + NonEmpty(TrimAll(ps[1..]));
      forall i | 0 < i < |ps| ensures ps[i] == ps[1..][i - 1] { }
    }
  }

  /** Content has no lines exactly when it is blank: such content passes the `!content` check of
      the download routes (when not empty) and yields a document without a title. */
  lemma LinesEmptyIffBlank(content: string)
    ensures Lines(content) == [] <==> Blank(content)
    ensures Blank(content) ==> Blocks(content) == [Title(None), Disclaimer]
  {
    JoinSplit(content, '\n');
    BlankJoin(Split(content, '\n'), '\n');
    NothingKept(Split(content, '\n'));
  }

  /** Joining well-formed lines with line breaks and preprocessing the result gives the lines back. */
  lemma LinesOfJoined(ls: seq<string>)
    requires forall i :: 0 <= i < |ls| ==> ls[i] != "" && IsTrimmed(ls[i]) && '\n' !in ls[i]
    ensures Lines(Join(ls, '\n')) == ls
  {
    if ls == [] {
      NoLines();
    } else {
      SplitJoin(ls, '\n');
      assert Split(Join(ls, '\n'), '\n') == ls;
      TrimAllOfTrimmed(ls);
      NonEmptyOfNonEmpty(ls);
    }
  }

  // ---------------------------------------------------------------------------
  // The clause-heading test /^\d+(\.\d+)*\./

  predicate IsDigit(c: char) {
    '0' <= c <= '9'
  }

  /** The number of leading ASCII digits. */
  function LeadingDigits(s: string): (n: nat)
    ensures n <= |s|
    ensures forall i :: 0 <= i < n ==> IsDigit(s[i])
    ensures n < |s| ==> !IsDigit(s[n])
  {
    if s != [] && IsDigit(s[0]) then 1 + LeadingDigits(s[1..]) else 0
  }

  /** A line is a heading when it starts with one or more digits followed by a dot. */
  predicate IsHeading(line: string) {
    var n := LeadingDigits(line);
    0 < n < |line| && line[n] == '.'
  }

  /** `\d+` matches all of `p` */
  ghost predicate IsNumber(p: string) {
    |p| > 0 && forall i :: 0 <= i < |p| ==> IsDigit(p[i])
  }

  /** `\d+(\.\d+)*` matches all of `p` */
  ghost predicate IsDottedNumber(p: string)
    decreases |p|
  {
    || IsNumber(p)
    || exists i :: 0 < i < |p| - 1 && p[i] == '.' && IsDottedNumber(p[..i]) && IsNumber(p[i + 1..])
  }

  /** `/^\d+(\.\d+)*\./.test(line)`: some prefix is a dotted number followed by a dot. */
  ghost predicate MatchesHeadingPattern(line: string) {
    exists k :: 0 < k < |line| && line[k] == '.' && IsDottedNumber(line[..k])
  }

  lemma {:induction false} LeadingDigitsUnique(s: string, n: nat)
    requires n <= |s|
    requires forall i :: 0 <= i < n ==> IsDigit(s[i])
    requires n < |s| ==> !IsDigit(s[n])
    ensures LeadingDigits(s) == n
    decreases |s|
  {
    if n > 0 {
      LeadingDigitsUnique(s[1..], n - 1);
    }
  }

  /** A dotted number is all digits, or its leading digits are followed by a dot. */
  lemma {:induction false} DottedNumberStart(p: string)
    requires IsDottedNumber(p)
    ensures 0 < LeadingDigits(p)
    ensures LeadingDigits(p) == |p| || p[LeadingDigits(p)] == '.'
    decreases |p|
  {
    if IsNumber(p) {
      LeadingDigitsUnique(p, |p|);
    } else {
      var i :| 0 < i < |p| - 1 && p[i] == '.' && IsDottedNumber(p[..i]) && IsNumber(p[i + 1..]);
      var q := p[..i];
      DottedNumberStart(q);
      var m := LeadingDigits(q);
      if m == |q| {
        LeadingDigitsUnique(p, i);
      } else {
        LeadingDigitsUnique(p, m);
      }
    }
  }

  /** The regex and the simple test agree on every line: the `(\.\d+)*` part never changes the
      outcome, because the first dot after the leading digits already completes a match. */
  lemma HeadingPattern(line: string)
    ensures MatchesHeadingPattern(line) <==> IsHeading(line)
  {
    var n := LeadingDigits(line);
    if IsHeading(line) {
      assert line[..n] == line[..n];
      assert IsNumber(line[..n]);
      assert IsDottedNumber(line[..n]);
    }
    if MatchesHeadingPattern(line) {
      var k :| 0 < k < |line| && line[k] == '.' && IsDottedNumber(line[..k]);
      var p := line[..k];
      DottedNumberStart(p);
      var m := LeadingDigits(p);
      if m == |p| {
        LeadingDigitsUnique(line, k);
      } else {
        LeadingDigitsUnique(line, m);
      }
    }
  }

  // ---------------------------------------------------------------------------
  // Layout

  /** What each download route emits in order: the title (absent, `lines[0]` being `undefined`,
      when no line is kept), one entry per later line, then the disclaimer. The renderers differ
      only in fonts and spacing, which are not modelled. */
  datatype Block = Title(title: Option<string>) | Heading(text: string) | Paragraph(text: string) | Disclaimer

  /** A later line is a bold heading when the heading test matches and a paragraph otherwise,
      with its text as it is. */
  function Classify(line: string): (b: Block)
    ensures (b.Heading? || b.Paragraph?) && b.text == line
    ensures b.Heading? <==> IsHeading(line)
  {
    if IsHeading(line) then Heading(line) else Paragraph(line)
  }

  /** `lines[0]`, which is `undefined` when no line was kept. */
  function Head(ls: seq<string>): (h: Option<string>)
    ensures h.None? <==> ls == []
    ensures h.Some? ==> h.value == ls[0]
  {
    if ls == [] then None else Some(ls[0])
  }

  function Body(ls: seq<string>): (r: seq<Block>)
    ensures |r| == |ls|
    ensures forall i :: 0 <= i < |ls| ==> r[i] == Classify(ls[i])
  {
    if ls == [] then [] else [Classify(ls[0])] + Body(ls[1..])
  }

  /** The blocks emitted for the kept lines `ls`: title, then every later line classified, then
      the disclaimer. With at least one line there is one entry per line plus one. */
  function Document(ls: seq<string>): (r: seq<Block>)
    ensures |r| == (if ls == [] then 2 else |ls| + 1)
    ensures r[0] == Title(Head(ls))
    ensures r[|r| - 1] == Disclaimer
    ensures forall i :: 1 <= i < |ls| ==> r[i] == Classify(ls[i])
  {
    var body := Body(if ls == [] then [] else ls[1..]);
    var r := [Title(Head(ls))] + body + [Disclaimer];
    assert forall i :: 1 <= i < |ls| ==> r[i] == body[i - 1];
    r
  }

  /** The document for `content`. */
  function Blocks(content: string): (r: seq<Block>)
    ensures var ls := Lines(content);
      && |r| == (if ls == [] then 2 else |ls| + 1)
      && r[0] == Title(Head(ls))
      && r[|r| - 1] == Disclaimer
      && (forall i :: 1 <= i < |ls| ==> r[i] == Classify(ls[i]))
  {
    Document(Lines(content))
  }

  /** The `paragraphs.push` sequence of the Word route (and the `doc.text` calls of the PDF
      route) over the kept lines: push the title, push one entry per line of `lines.slice(1)`,
      push the disclaimer. */
  method Layout(lines: seq<string>) returns (blocks: seq<Block>)
    ensures blocks == Document(lines)
  {
    blocks := [Title(if |lines| > 0 then Some(lines[0]) else None)];
    var rest := if |lines| > 0 then lines[1..] else [];
    var i := 0;
    while i < |rest|
      invariant 0 <= i <= |rest|
      invariant blocks == [Title(Head(lines))] + Body(rest[..i])
    {
      var line := rest[i];
      var isHeading := IsHeading(line);
      blocks := blocks + [if isHeading then Heading(line) else Paragraph(line)];
      assert rest[..i + 1] == rest[..i] + [line];
      BodyAppend(rest[..i], line);
      i := i + 1;
    }
    assert rest[..i] == rest;
    blocks := blocks + [Disclaimer];
  }

  lemma {:induction false} BodyAppend(ls: seq<string>, line: string)
    ensures Body(ls + [line]) == Body(ls) + [Classify(line)]
    decreases |ls|
  {
    if ls != [] {
      assert (ls + [line])[1..] == ls[1..] + [line];
      BodyAppend(ls[1..], line);
    }
  }
}
