/**
 * The decision step of `analyzeImageWithGemini`: the text the vision model
 * returned is read out of its JSON answer and searched, case-insensitively,
 * for the expected YouTube channel name.  The HTTP request that produced the
 * answer is not modelled; the parsed answer is the input.
 */
module Gemini {
  import opened Wrappers
  import opened Text

  /** One entry of `candidates[0].content.parts`; `text` may be absent. */
  datatype Part = Part(text: Option<string>)

  datatype Content = Content(parts: Option<seq<Part>>)

  datatype Candidate = Candidate(content: Option<Content>)

  /** The parsed body of a successful `generateContent` call. */
  datatype Response = Response(candidates: Option<seq<Candidate>>)

  /** `json?.candidates?.[0]?.content?.parts`: undefined as soon as a link is missing. */
  function ReturnedParts(json: Response): (r: Option<seq<Part>>)
    ensures r.Some? <==>
              && json.candidates.Some? && |json.candidates.value| > 0
              && json.candidates.value[0].content.Some?
              && json.candidates.value[0].content.value.parts.Some?
    ensures r.Some? ==> r == json.candidates.value[0].content.value.parts
  {
    match json.candidates
    case None => None
    case Some(cs) =>
      if |cs| == 0 then None
      else match cs[0].content
        case None => None
        case Some(content) => content.parts
  }

  /** `p => p.text || ""`: "" exactly when the text is missing or empty, the text otherwise. */
  function PartText(p: Part): (r: string)
    ensures r == "" <==> p.text.None? || p.text == Some("")
    ensures r != "" ==> p.text == Some(r)
  {
    match p.text
    case None => ""
    case Some(t) => t
  }

  /** `parts.map(p => p.text || "")`. */
  function PartTexts(parts: seq<Part>): (texts: seq<string>)
    ensures |texts| == |parts|
    ensures forall i :: 0 <= i < |parts| ==> texts[i] == PartText(parts[i])
  {
    if parts == [] then [] else [PartText(parts[0])] + PartTexts(parts[1..])
  }

  /**
   * `...map(...).join("\n") || ""`: the whole extracted text of the answer.
   * It is empty exactly when no parts came back, or the parts list is empty,
   * or its only part has no text.
   */
  function ExtractedText(json: Response): (text: string)
    ensures text == "" <==>
              || ReturnedParts(json).None?
              || |ReturnedParts(json).value| == 0
              || (|ReturnedParts(json).value| == 1 && PartText(ReturnedParts(json).value[0]) == "")
  {
    match ReturnedParts(json)
    case None => ""
    case Some(parts) => Join(PartTexts(parts), "\n")
  }

  /** `text.toLowerCase().includes(expectedName.toLowerCase())`. */
  function Verdict(json: Response, expectedName: string): (ok: bool)
    ensures ok <==> Contains(Lower(ExtractedText(json)), Lower(expectedName))
  {
    IncludesIsContains(Lower(ExtractedText(json)), Lower(expectedName));
    Includes(Lower(ExtractedText(json)), Lower(expectedName))
  }

  // ---------------------------------------------------------------------
  // Properties of the decision
  // ---------------------------------------------------------------------

  /**
   * The extracted text is the parts' texts joined by newlines: when no part
   * text holds a newline, splitting it on newlines gives back exactly the
   * texts of the returned parts, a missing `text` read as "".
   */
  lemma ExtractedTextSplitsIntoParts(json: Response, parts: seq<Part>)
    requires ReturnedParts(json) == Some(parts) && |parts| >= 1
    requires forall i :: 0 <= i < |parts| ==> '\n' !in PartText(parts[i])
    ensures |Split(ExtractedText(json), '\n')| == |parts|
    ensures forall i :: 0 <= i < |parts| ==>
              Split(ExtractedText(json), '\n')[i] == (if parts[i].text.Some? then parts[i].text.value else "")
  {
    SplitJoin(PartTexts(parts), '\n');
  }

  /** An answer without candidates, content or parts yields no text at all. */
  lemma NothingReturnedMeansNoText(json: Response)
    requires json.candidates.None? || json.candidates == Some([])
             || ReturnedParts(json) == Some([])
    ensures ExtractedText(json) == ""
  {
  }

  /** With no text, only the empty name is "found"; every other name is rejected. */
  lemma NoTextRejects(json: Response, expectedName: string)
    requires ExtractedText(json) == ""
    ensures Verdict(json, expectedName) <==> expectedName == ""
  {
    if expectedName != "" {
      assert forall k: nat :: !OccursAt(Lower(ExtractedText(json)), Lower(expectedName), k);
    } else {
      assert OccursAt(Lower(ExtractedText(json)), Lower(expectedName), 0);
    }
  }

  /** An empty expected name is accepted whatever the answer says. */
  lemma EmptyNameAccepts(json: Response)
    ensures Verdict(json, "")
  {
    assert OccursAt(Lower(ExtractedText(json)), Lower(""), 0);
  }

  /** The verdict does not depend on the letter case of the expected name. */
  lemma VerdictIgnoresNameCase(json: Response, expectedName: string)
    ensures Verdict(json, expectedName) == Verdict(json, Lower(expectedName))
  {
    LowerIdempotent(expectedName);
  }

  /** Each piece lower-cased on its own. */
  function LowerEach(texts: seq<string>): (lowered: seq<string>)
    ensures |lowered| == |texts|
    ensures forall i :: 0 <= i < |texts| ==> lowered[i] == Lower(texts[i])
  {
    if texts == [] then [] else [Lower(texts[0])] + LowerEach(texts[1..])
  }

  /** Lower-casing each piece and then joining is lower-casing the joined string. */
  lemma {:induction false} LowerJoin(texts: seq<string>)
    ensures Lower(Join(texts, "\n")) == Join(LowerEach(texts), "\n")
  {
    if |texts| > 1 {
      var head, tail := texts[0], Join(texts[1..], "\n");
      var rest := LowerEach(texts[1..]);
      calc {
        Lower(Join(texts, "\n"));
        { assert Join(texts, "\n") == head + ("\n" + tail); }
        Lower(head + ("\n" + tail));
        { LowerAppend(head, "\n" + tail); }
        Lower(head) + Lower("\n" + tail);
        { LowerAppend("\n", tail); assert Lower("\n") == "\n"; }
        Lower(head) + ("\n" + Lower(tail));
        { LowerJoin(texts[1..]); }
        Lower(head) + ("\n" + Join(rest, "\n"));
        { JoinCons(Lower(head), rest, "\n"); }
        Join([Lower(head)] + rest, "\n");
        { assert LowerEach(texts) == [Lower(head)] + rest; }
        Join(LowerEach(texts), "\n");
      }
    }
  }

  /**
   * For a name without a newline the verdict is decided part by part: it is
   * true exactly when some single returned part's text, lower-cased, contains
   * the lower-cased name.
   */
  lemma VerdictPerPart(json: Response, parts: seq<Part>, expectedName: string)
    requires ReturnedParts(json) == Some(parts) && |parts| >= 1
    requires '\n' !in expectedName
    ensures Verdict(json, expectedName) <==>
            exists i :: 0 <= i < |parts| && Contains(Lower(PartText(parts[i])), Lower(expectedName))
  {
    var texts := PartTexts(parts);
    var lowered := LowerEach(texts);
    var name := Lower(expectedName);
    assert ExtractedText(json) == Join(texts, "\n");
    LowerJoin(texts);
    assert Verdict(json, expectedName) <==> Contains(Join(lowered, ['\n']), name);
    forall j | 0 <= j < |expectedName| ensures name[j] != '\n' {
      LowerCharKeeps(expectedName[j]);
    }
    ContainsJoin(lowered, '\n', name);
    forall i | 0 <= i < |parts| ensures lowered[i] == Lower(PartText(parts[i])) {
    }
  }

  /** A part whose text contains the name, in any letter case, makes the verdict true. */
  lemma PartContainingNamePasses(json: Response, parts: seq<Part>, i: nat, expectedName: string)
    requires ReturnedParts(json) == Some(parts) && i < |parts|
    requires Contains(Lower(PartText(parts[i])), Lower(expectedName))
    ensures Verdict(json, expectedName)
  {
    var texts := PartTexts(parts);
    var lowered := LowerEach(texts);
    LowerJoin(texts);
    ContainsPiece(lowered, "\n", i, Lower(expectedName));
  }

  /** A letter of the name that the text lacks in either case makes the verdict false. */
  lemma LetterMissingRejects(json: Response, expectedName: string, j: nat)
    requires j < |expectedName|
    requires forall i :: 0 <= i < |ExtractedText(json)| ==>
               LowerChar(ExtractedText(json)[i]) != LowerChar(expectedName[j])
    ensures !Verdict(json, expectedName)
  {
    MissingCharNotContained(Lower(ExtractedText(json)), Lower(expectedName), j);
  }
}
