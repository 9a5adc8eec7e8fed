/**
 * The request side of `handleSubmit` in App.tsx: the validation guard and the
 * prompt built from the form state. The fixed paragraphs of the prompt are
 * constants; what is proved is how the state's fields are spliced into them.
 */
module Composer {
  import opened Wrappers
  import opened Types
  import opened Constants
  import opened Text

  const ValidationMessage: string := "Please select at least one legal code and enter a query."

  /**
   * The submit guard: a submission is refused, with the fixed message, exactly
   * when the query is the empty string or no law is selected. A query of only
   * spaces is not refused.
   */
  function Validate(s: QueryState): (r: Option<string>)
    ensures r.Some? <==> s.query == [] || s.selectedLaws == []
    ensures r.Some? ==> r.value == ValidationMessage
  {
    if |s.query| == 0 || |s.selectedLaws| == 0 then Some(ValidationMessage) else None
  }

  /**
   * One bullet of the law list: `- ${lawOption?.fullName || law} (${lawOption?.id})`,
   * including the fallbacks for a law missing from the table.
   */
  function LawLine(law: Law): string {
    match FindLawOption(LawsOptions, law)
    case Some(o) => "- " + (if o.fullName != "" then o.fullName else LawId(law)) + " (" + LawId(o.id) + ")"
    case None => "- " + LawId(law) + " (undefined)"
  }

  /** The fallbacks never fire: each bullet names the law's full title and its id, on one line. */
  lemma LawLineNamesTitle(law: Law)
    ensures LawLine(law) == "- " + Title(law) + " (" + LawId(law) + ")"
    ensures '\n' !in LawLine(law)
  {
    LawLookupSucceeds(law);
    TitleSingleLine(law);
    LawIdSingleLine(law);
  }

  /** `selectedLaws.map(...)`. */
  function LawLines(laws: seq<Law>): (r: seq<string>)
    ensures |r| == |laws|
  {
    seq(|laws|, i requires 0 <= i < |laws| => LawLine(laws[i]))
  }

  /** `selectedLaws.map(...).join('\n')`. */
  function LawDetails(laws: seq<Law>): string {
    JoinLines(LawLines(laws))
  }

  /** The law list has exactly one line per selected law, in selection order. */
  lemma LawDetailsOneLinePerLaw(laws: seq<Law>)
    requires |laws| >= 1
    ensures |SplitLines(LawDetails(laws))| == |laws|
    ensures forall i :: 0 <= i < |laws| ==>
              SplitLines(LawDetails(laws))[i] == "- " + Title(laws[i]) + " (" + LawId(laws[i]) + ")"
  {
    var lines := LawLines(laws);
    forall i | 0 <= i < |laws| ensures '\n' !in lines[i] && lines[i] == "- " + Title(laws[i]) + " (" + LawId(laws[i]) + ")" {
      LawLineNamesTitle(laws[i]);
    }
    SplitJoin(lines);
  }

  const FocusLead: string := "\n" + "**Specific Focus:** The user is particularly interested in the **"
  const FocusTail: string := "**. Please ensure your answer emphasizes this aspect."

  /**
   * The focus clause: empty for the general focus, and otherwise a clause on a
   * line of its own that names the focus verbatim.
   */
  function FocusInstruction(focus: string): (r: string)
    ensures r == "" <==> focus == GeneralExplanation
    ensures r != "" ==> r[0] == '\n' && Contains(r, focus)
  {
    if focus != GeneralExplanation then
      ContainsMiddle(FocusLead, focus, FocusTail);
      assert (FocusLead + focus + FocusTail)[0] == FocusLead[0];
      FocusLead + focus + FocusTail
    else ""
  }

  // The fixed text of the prompt template, between the places where the state is spliced in.
  const Opening: string :=
    "\n      You are an expert legal assistant specializing in Indian law. Your task is to provide clear, accurate, and helpful explanations of Indian legal codes and procedures.\n\n"
    + "      **Audience:** Explain the concepts for a "
  const AfterAudience: string :=
    ". Tailor the language, complexity, and depth of your explanation accordingly. For a layperson, use simple terms and avoid jargon. For a legal professional, you can be more technical and detailed.\n\n"
    + "      **Legal Context:** The query is specifically about the following Indian legal codes:\n      "
  const AfterLaws: string := "\n      Base your answer primarily on these selected laws.\n      "
  const AfterFocus: string := "\n      **User's Query:**\n      "
  const Closing: string :=
    "\n\n      **Your Response:**\n"
    + "      Provide a comprehensive answer. Structure it for clarity using headings, lists, and bold text. Your response **must** adhere to the following:\n"
    + "      1.  **Cite Specific Sections:** When discussing any procedure, definition, or legal principle, you must accurately cite the specific section number from the relevant legal code (e.g., Section 154 of BNSS, Section 52 of BSA).\n"
    + "      2.  **Cite Case Law:** Support your explanation with relevant case law examples and their citations (e.g., *Party A v. Party B*, (Year) SC XXX).\n    "

  /** The query wrapped in double quotes, as the prompt carries it. */
  function Quoted(query: string): string {
    "\"" + query + "\""
  }

  /** The prompt sent for a state that passed the guard. */
  function ComposePrompt(s: QueryState): string {
    Opening + s.audience + AfterAudience + LawDetails(s.selectedLaws) + AfterLaws
      + FocusInstruction(s.queryFocus) + AfterFocus + Quoted(s.query) + Closing
  }

  /**
   * The prompt carries the audience verbatim, the law list, the focus clause
   * and the query in double quotes.
   */
  lemma PromptSplicesState(s: QueryState)
    ensures Contains(ComposePrompt(s), s.audience)
    ensures Contains(ComposePrompt(s), LawDetails(s.selectedLaws))
    ensures Contains(ComposePrompt(s), FocusInstruction(s.queryFocus))
    ensures Contains(ComposePrompt(s), "\"" + s.query + "\"")
  {
    SpliceNine(Opening, s.audience, AfterAudience, LawDetails(s.selectedLaws), AfterLaws,
               FocusInstruction(s.queryFocus), AfterFocus, Quoted(s.query), Closing);
  }

  /** The second, fourth, sixth and eighth of nine concatenated pieces are contained in the whole. */
  lemma SpliceNine(p0: string, p1: string, p2: string, p3: string, p4: string,
                   p5: string, p6: string, p7: string, p8: string)
    ensures Contains(p0 + p1 + p2 + p3 + p4 + p5 + p6 + p7 + p8, p1)
    ensures Contains(p0 + p1 + p2 + p3 + p4 + p5 + p6 + p7 + p8, p3)
    ensures Contains(p0 + p1 + p2 + p3 + p4 + p5 + p6 + p7 + p8, p5)
    ensures Contains(p0 + p1 + p2 + p3 + p4 + p5 + p6 + p7 + p8, p7)
  {
    var whole := p0 + p1 + p2 + p3 + p4 + p5 + p6 + p7 + p8;
    assert whole == p0 + p1 + (p2 + p3 + p4 + p5 + p6 + p7 + p8);
    ContainsMiddle(p0, p1, p2 + p3 + p4 + p5 + p6 + p7 + p8);
    assert whole == (p0 + p1 + p2) + p3 + (p4 + p5 + p6 + p7 + p8);
    ContainsMiddle(p0 + p1 + p2, p3, p4 + p5 + p6 + p7 + p8);
    assert whole == (p0 + p1 + p2 + p3 + p4) + p5 + (p6 + p7 + p8);
    ContainsMiddle(p0 + p1 + p2 + p3 + p4, p5, p6 + p7 + p8);
    ContainsMiddle(p0 + p1 + p2 + p3 + p4 + p5 + p6, p7, p8);
  }

  /** Each selected law's bullet line appears in the prompt. */
  lemma PromptListsEachLaw(s: QueryState, i: nat)
    requires i < |s.selectedLaws|
    ensures Contains(ComposePrompt(s), "- " + Title(s.selectedLaws[i]) + " (" + LawId(s.selectedLaws[i]) + ")")
  {
    var lines := LawLines(s.selectedLaws);
    var details := LawDetails(s.selectedLaws);
    JoinLinesContainsEach(lines, i);
    LawLineNamesTitle(s.selectedLaws[i]);
    assert lines[i] == "- " + Title(s.selectedLaws[i]) + " (" + LawId(s.selectedLaws[i]) + ")";
    PromptSplicesState(s);
    ContainsTransitive(ComposePrompt(s), details, lines[i]);
  }

  /** The output language is not read when the prompt is composed. */
  lemma PromptIgnoresOutputLanguage(s: QueryState, lang: Option<string>)
    ensures ComposePrompt(s.(outputLanguage := lang)) == ComposePrompt(s)
  {
  }
}
