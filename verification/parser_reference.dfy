/** A description of what cli.py's scan ends with that does not follow
    the loop: the last `TITLE:` line, the first `BODY:` line and what every
    line from the first `BODY:` line on contributes. */
module ParserReference {
  import opened PyText
  import opened ResponseParser

  /** The index of the last `TITLE:` line, or -1 when there is none. */
  function LastTitleIndex(lines: seq<string>): (k: int)
    ensures -1 <= k < |lines|
    ensures k >= 0 ==> IsTitleLine(lines[k])
    ensures forall j :: k < j < |lines| ==> !IsTitleLine(lines[j])
  {
    if |lines| == 0 then -1
    else if IsTitleLine(lines[|lines| - 1]) then |lines| - 1
    else LastTitleIndex(lines[..|lines| - 1])
  }

  /** The index of the first `BODY:` line, or |lines| when there is none. */
  function FirstBodyIndex(lines: seq<string>): (k: nat)
    ensures k <= |lines|
    ensures k < |lines| ==> IsBodyLine(lines[k])
    ensures forall j :: 0 <= j < k ==> !IsBodyLine(lines[j])
  {
    if |lines| == 0 then 0
    else if IsBodyLine(lines[0]) then 0
    else 1 + FirstBodyIndex(lines[1..])
  }

  /** What a line at or after the first `BODY:` line adds to the body:
      nothing for a title line, the stripped remainder for a body line,
      the line itself otherwise. */
  function Contribution(line: string): seq<string> {
    if IsTitleLine(line) then []
    else if IsBodyLine(line) then [BodyText(line)]
    else [line]
  }

  function Contributions(lines: seq<string>): seq<string> {
    if |lines| == 0 then []
    else Contributions(lines[..|lines| - 1]) + Contribution(lines[|lines| - 1])
  }
}
