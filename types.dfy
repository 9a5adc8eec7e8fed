/** The declarations of types.ts: the law enumeration and the form state. */
module Types {
  import opened Wrappers

  /** The closed set of legal codes the user can query against. */
  datatype Law = CPC | BNS | BNSS | BSA | NI | HMA | MVA | DV | MWPSC

  /** The string value each enumeration member carries at run time. */
  function LawId(law: Law): string
  {
    match law
    case CPC => "CPC"
    case BNS => "BNS"
    case BNSS => "BNSS"
    case BSA => "BSA"
    case NI => "NI"
    case HMA => "HMA"
    case MVA => "MVA"
    case DV => "DV"
    case MWPSC => "MWPSC"
  }

  /** Distinct members carry distinct strings, so comparing ids is comparing laws. */
  lemma LawIdInjective(a: Law, b: Law)
    ensures LawId(a) == LawId(b) <==> a == b
  {
  }

  /** No id contains a newline. */
  lemma LawIdSingleLine(law: Law)
    ensures '\n' !in LawId(law)
  {
  }

  /**
   * The form state. `outputLanguage` is declared as a string, but the
   * initial state leaves it out, so at run time it starts as `undefined`;
   * it is read by nothing in the model.
   */
  datatype QueryState = QueryState(
    selectedLaws: seq<Law>,
    audience: string,
    query: string,
    queryFocus: string,
    outputLanguage: Option<string>)
}
