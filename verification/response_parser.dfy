/** cli.py's reading of a structured completion: a line-by-line scan that
    picks out a `TITLE:` line and the lines from the first `BODY:` line on,
    with fallbacks when either is missing. */
module ResponseParser {
  import opened PyText

  const TitleTag := "TITLE:"
  const BodyTag := "BODY:"
  const DefaultTitle := "Untitled Seattle Post"
  const LineBreak: char := '\n'

  datatype GeneratedPost = GeneratedPost(title: string, body: string)

  /** The scan's variables (`title`, `body_lines`, `in_body`) after some
      prefix of the lines. */
  datatype ScanState = ScanState(title: string, bodyLines: seq<string>, inBody: bool)

  predicate IsTitleLine(line: string) {
    StartsWith(line, TitleTag)
  }

  predicate IsBodyLine(line: string) {
    StartsWith(line, BodyTag)
  }

  /** None of the lines carries a tag. */
  predicate Untagged(lines: seq<string>) {
    forall i :: 0 <= i < |lines| ==> !IsTitleLine(lines[i]) && !IsBodyLine(lines[i])
  }

  /** A title line with every `TITLE:` in it removed, then stripped. */
  function TitleText(line: string): string {
    Strip(RemoveAll(line, TitleTag))
  }

  /** A body line with every `BODY:` in it removed, then stripped. */
  function BodyText(line: string): string {
    Strip(RemoveAll(line, BodyTag))
  }

  const Start := ScanState("", [], false)

  /** One iteration of the loop. The `TITLE:` test comes first, so a title
      line replaces the title even after the body has started, and is not
      added to the body. */
  function Step(st: ScanState, line: string): ScanState {
    if IsTitleLine(line) then st.(title := TitleText(line))
    else if IsBodyLine(line) then st.(bodyLines := st.bodyLines + [BodyText(line)], inBody := true)
    else if st.inBody then st.(bodyLines := st.bodyLines + [line])
    else st
  }

  /** The loop run over all the lines, in order. */
  function Scan(lines: seq<string>): ScanState {
    if |lines| == 0 then Start
    else Step(Scan(lines[..|lines| - 1]), lines[|lines| - 1])
  }

  /** `generate_post`'s result: the title, or the placeholder when it is
      empty; the joined body lines, or the whole response when they join
      to nothing. */
  function Parse(text: string): (p: GeneratedPost)
    ensures p.title != ""
  {
    var st := Scan(Split(text, LineBreak));
    var body := Join(st.bodyLines, [LineBreak]);
    GeneratedPost(if st.title == "" then DefaultTitle else st.title, if body == "" then text else body)
  }
}
