/** The rubric text handed to the similarity and feedback flows:
    "Keywords: " followed by the keywords joined with ", ". */
module RubricStrings {

  const RubricPrefix: string := "Keywords: "
  const KeywordSeparator: string := ", "

  /** `Array.prototype.join`: the parts with `sep` between neighbours, the
      empty string for no parts. */
  function Join(parts: seq<string>, sep: string): string
  {
    if |parts| == 0 then ""
    else if |parts| == 1 then parts[0]
    else parts[0] + sep + Join(parts[1..], sep)
  }

  /** Sum of the lengths of the parts. */
  function TotalLength(parts: seq<string>): nat
  {
    if |parts| == 0 then 0 else |parts[0]| + TotalLength(parts[1..])
  }

  /** Joining grows from the right as well: a further part is appended after
      one more separator. */
  lemma {:induction false} JoinSnoc(parts: seq<string>, sep: string, last: string)
    requires |parts| > 0
    ensures Join(parts + [last], sep) == Join(parts, sep) + sep + last
  {
    if |parts| == 1 {
      assert (parts + [last])[1..] == [last];
    } else {
      assert (parts + [last])[1..] == parts[1..] + [last];
      JoinSnoc(parts[1..], sep, last);
    }
  }

  /** A join holds every character of every part and one separator between
      each pair of neighbours, nothing more. */
  lemma {:induction false} JoinLength(parts: seq<string>, sep: string)
    requires |parts| > 0
    ensures |Join(parts, sep)| == TotalLength(parts) + (|parts| - 1) * |sep|
  {
    if |parts| > 1 {
      JoinLength(parts[1..], sep);
      assert (|parts| - 1) * |sep| == |sep| + (|parts| - 2) * |sep|;
    }
  }

  /** With a non-empty separator, a join is empty exactly when there is no
      part, or a single empty part. */
  lemma JoinEmptyIff(parts: seq<string>, sep: string)
    requires sep != ""
    ensures Join(parts, sep) == "" <==> |parts| == 0 || (|parts| == 1 && parts[0] == "")
  {
    if |parts| > 1 {
      JoinLength(parts, sep);
    }
  }

  /** The rubric string of line 130 of page.tsx. */
  function RubricString(keywords: seq<string>): (r: string)
    ensures |r| >= |RubricPrefix| && r[..|RubricPrefix|] == RubricPrefix
  {
    RubricPrefix + Join(keywords, KeywordSeparator)
  }

  /** The rubric string is the bare prefix exactly when no keyword text
      follows it: no keywords, or one empty keyword. */
  lemma RubricStringBare(keywords: seq<string>)
    ensures RubricString(keywords) == RubricPrefix
        <==> |keywords| == 0 || (|keywords| == 1 && keywords[0] == "")
  {
    JoinEmptyIff(keywords, KeywordSeparator);
    if RubricString(keywords) == RubricPrefix {
      assert Join(keywords, KeywordSeparator) == RubricString(keywords)[|RubricPrefix|..];
    }
  }

  /** Adding a keyword adds ", " and the keyword at the end of the rubric. */
  lemma RubricStringAppend(keywords: seq<string>, keyword: string)
    requires |keywords| > 0
    ensures RubricString(keywords + [keyword]) == RubricString(keywords) + KeywordSeparator + keyword
  {
    JoinSnoc(keywords, KeywordSeparator, keyword);
  }

  /** The length of the rubric string: the prefix, every keyword, and a
      separator between each pair of keywords. */
  lemma RubricStringLength(keywords: seq<string>)
    requires |keywords| > 0
    ensures |RubricString(keywords)| == |RubricPrefix| + TotalLength(keywords) + 2 * (|keywords| - 1)
  {
    JoinLength(keywords, KeywordSeparator);
  }
}
