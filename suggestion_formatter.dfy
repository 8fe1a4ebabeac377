/** How the form displays the server's free-text suggestions
    (seo-analyzer/src/SeoForm.js, lines 59-67): the text is split on line feeds
    and each line becomes a heading, a bullet point or a plain paragraph,
    decided by its first characters only. */
module SuggestionFormatter {
  import opened Runtime
  import opened JsStrings

  datatype Block = Heading(text: string) | Bullet(text: string) | Para(text: string)

  /** One line as the render shows it. `**` is tested before `*`, so a line
      starting with `**` is a heading, never a bullet. */
  function FormatLine(line: string): (b: Block)
    ensures b.Heading? <==> StartsWith(line, "**")
    ensures b.Bullet? <==> StartsWith(line, "*") && !StartsWith(line, "**")
    ensures b.Heading? ==> b.text == RemoveDoubleStars(line) && NoDoubleStar(b.text)
    ensures b.Bullet? ==> '*' !in b.text && exists i :: Surrounds(RemoveStars(line), b.text, i)
    ensures b.Para? ==> b.text == line
  {
    if StartsWith(line, "**") then Heading(RemoveDoubleStars(line))
    else if StartsWith(line, "*") then Bullet(Trim(RemoveStars(line)))
    else Para(line)
  }

  /** The blocks of the whole text, one per line, in order. */
  function Format(text: string): (blocks: seq<Block>)
    ensures |blocks| == Count(text, '\n') + 1
  {
    var lines := Split(text);
    SplitCount(text);
    seq(|lines|, i requires 0 <= i < |lines| => FormatLine(lines[i]))
  }

  function Texts(blocks: seq<Block>): (texts: seq<string>)
    ensures |texts| == |blocks|
    ensures forall i :: 0 <= i < |blocks| ==> texts[i] == blocks[i].text
  {
    if blocks == [] then [] else [blocks[0].text] + Texts(blocks[1..])
  }

  /** Block `i` is line `i` of the text: nothing is dropped, merged or
      reordered. */
  lemma FormatInOrder(text: string, i: nat)
    requires i < |Split(text)|
    ensures |Format(text)| == |Split(text)|
    ensures Format(text)[i] == FormatLine(Split(text)[i])
  {
  }

  /** The kind of a line depends on its prefix alone, and the three kinds do
      not overlap. */
  lemma LineKind(line: string)
    ensures FormatLine(line).Heading? <==> |line| >= 2 && line[0] == '*' && line[1] == '*'
    ensures FormatLine(line).Bullet? <==> |line| >= 1 && line[0] == '*' && (|line| == 1 || line[1] != '*')
    ensures FormatLine(line).Para? <==> line == [] || line[0] != '*'
  {
    if |line| >= 2 {
      assert line[..2] == [line[0], line[1]];
    }
    if |line| >= 1 {
      assert line[..1] == [line[0]];
    }
  }

  /** A heading's text is the line without any `**` pair, and nothing but
      asterisks was taken out. */
  lemma HeadingText(line: string)
    requires StartsWith(line, "**")
    ensures FormatLine(line).Heading?
    ensures FormatLine(line).text == RemoveDoubleStars(line)
    ensures NoDoubleStar(FormatLine(line).text)
    ensures RemoveStars(FormatLine(line).text) == RemoveStars(line)
  {
    RemoveDoubleStarsOnlyStars(line);
  }

  /** A bullet's text holds no asterisk and has no white space at either end. */
  lemma BulletText(line: string)
    requires StartsWith(line, "*") && !StartsWith(line, "**")
    ensures FormatLine(line).Bullet?
    ensures '*' !in FormatLine(line).text
    ensures exists i :: Surrounds(RemoveStars(line), FormatLine(line).text, i)
    ensures var t := FormatLine(line).text;
            t == [] || (!IsWhiteSpace(t[0]) && !IsWhiteSpace(t[|t| - 1]))
  {
  }

  /** A line not starting with an asterisk, the empty line included, is shown
      as it is. */
  lemma ParaUnchanged(line: string)
    requires line == [] || line[0] != '*'
    ensures FormatLine(line) == Para(line)
  {
  }

  /** When no line starts with an asterisk, the displayed texts joined with line
      feeds are the original text. */
  lemma FormatRoundTrip(text: string)
    requires forall i :: 0 <= i < |Split(text)| ==> Split(text)[i] == [] || Split(text)[i][0] != '*'
    ensures Join(Texts(Format(text))) == text
  {
    var lines := Split(text);
    var texts := Texts(Format(text));
    SplitCount(text);
    forall i | 0 <= i < |lines| ensures texts[i] == lines[i] {
      ParaUnchanged(lines[i]);
    }
    assert texts == lines;
    JoinSplit(text);
  }

  /** Only line feeds separate lines: a carriage return stays at the end of its
      line. */
  lemma CarriageReturnKept()
    ensures Format("a\r\nb") == [Para("a\r"), Para("b")]
  {
    SplitPrefix("a\r", "b");
    assert "a\r\nb" == "a\r" + "\n" + "b";
    SplitSingle("b");
  }
}
