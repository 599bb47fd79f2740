/** How both exegesis screens show a generated study: the text is split on
    line feeds, each line becomes a paragraph, some lines are set as
    headings, and the markdown marks are deleted from every line. */
module Paragraphs {
  import opened Text

  datatype Paragraph = Paragraph(heading: bool, text: string)

  /** `result.split('\n').map(line => …)` with the screen's heading test
      and the set of marks its `replace` deletes. */
  function Render(result: string, isHeading: string -> bool, marks: set<char>): (r: seq<Paragraph>)
    ensures |r| == |SplitLines(result)| >= 1
    ensures forall k :: 0 <= k < |r| ==> r[k].heading == isHeading(SplitLines(result)[k])
    ensures forall k :: 0 <= k < |r| ==> forall j :: 0 <= j < |r[k].text| ==> r[k].text[j] !in marks && r[k].text[j] != '\n'
  {
    var lines := SplitLines(result);
    seq(|lines|, k requires 0 <= k < |lines| => Paragraph(isHeading(lines[k]), Strip(lines[k], marks)))
  }

  function Texts(ps: seq<Paragraph>): (r: seq<string>)
    ensures |r| == |ps|
  {
    seq(|ps|, k requires 0 <= k < |ps| => ps[k].text)
  }

  function StripAll(lines: seq<string>, marks: set<char>): (r: seq<string>)
    ensures |r| == |lines|
  {
    seq(|lines|, k requires 0 <= k < |lines| => Strip(lines[k], marks))
  }

  /** Deleting marks line by line is deleting them from the joined text,
      as long as the line feed is not a mark. */
  lemma {:induction false} StripJoinLines(lines: seq<string>, marks: set<char>)
    requires '\n' !in marks
    ensures JoinLines(StripAll(lines, marks)) == Strip(JoinLines(lines), marks)
    decreases |lines|
  {
    if |lines| == 1 {
      assert StripAll(lines, marks) == [Strip(lines[0], marks)];
    } else if |lines| > 1 {
      var rest := lines[1..];
      var stripped := StripAll(lines, marks);
      StripJoinLines(rest, marks);
      assert stripped[1..] == StripAll(rest, marks);
      assert JoinLines(stripped) == stripped[0] + "\n" + JoinLines(stripped[1..]);
      NewlineSurvives(marks);
      StripAppend(lines[0] + "\n", JoinLines(rest), marks);
      StripAppend(lines[0], "\n", marks);
    }
  }

  /** A line feed that is not a mark survives, on its own. */
  lemma NewlineSurvives(marks: set<char>)
    requires '\n' !in marks
    ensures Strip("\n", marks) == "\n"
  {
    assert "\n"[1..] == [];
  }

  /** Read one after another, the paragraphs give back the study with its
      marks deleted: no line is lost, reordered or altered otherwise. */
  lemma RenderKeepsText(result: string, isHeading: string -> bool, marks: set<char>)
    requires '\n' !in marks
    ensures JoinLines(Texts(Render(result, isHeading, marks))) == Strip(result, marks)
  {
    var lines := SplitLines(result);
    assert Texts(Render(result, isHeading, marks)) == StripAll(lines, marks);
    StripJoinLines(lines, marks);
    JoinSplitLines(result);
  }
}
