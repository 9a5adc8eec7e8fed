/** The static lookup tables of constants.ts. */
module Constants {
  import opened Wrappers
  import opened Types

  /** One row of the law table: the enumeration member, its short label and its full title. */
  datatype LawOption = LawOption(id: Law, name: string, fullName: string)

  /** The short label shown beside each law's checkbox. */
  function Label(law: Law): string {
    match law
    case CPC => "CPC"
    case BNS => "BNS"
    case BNSS => "BNSS"
    case BSA => "BSA"
    case NI => "NI Act"
    case HMA => "HM Act"
    case MVA => "MV Act"
    case DV => "DV Act"
    case MWPSC => "MWPSC Act"
  }

  /** The full title of each law, as the prompt names it. */
  function Title(law: Law): string {
    match law
    case CPC => "Code of Civil Procedure, 1908"
    case BNS => "Bharatiya Nyaya Sanhita, 2023"
    case BNSS => "Bharatiya Nagarik Suraksha Sanhita, 2023"
    case BSA => "Bharatiya Sakshya Adhiniyam, 2023"
    case NI => "Negotiable Instruments Act, 1881"
    case HMA => "Hindu Marriage Act, 1955"
    case MVA => "Motor Vehicles Act, 1988"
    // the two longest titles are written in halves, which keeps reasoning about their characters cheap
    case DV => "Protection of Women " + "from Domestic Violence Act, 2005"
    case MWPSC => "Maintenance and Welfare of Parents " + "and Senior Citizens Act, 2007"
  }

  function Row(law: Law): LawOption {
    LawOption(law, Label(law), Title(law))
  }

  /** The law table, one row per law in declaration order. */
  const LawsOptions: seq<LawOption> :=
    [Row(CPC), Row(BNS), Row(BNSS), Row(BSA), Row(NI), Row(HMA), Row(MVA), Row(DV), Row(MWPSC)]

  const AudienceOptions: seq<string> := [
    "Layperson (in simple terms)",
    "Law Student (with details and concepts)",
    "Legal Professional (technical, with citations)"
  ]

  const QueryFocusOptions: seq<string> := [
    "General Explanation",
    "Filing Procedure",
    "Key Elements / Ingredients",
    "Punishments / Remedies"
  ]

  /** The focus value for which the prompt carries no focus clause. */
  const GeneralExplanation: string := "General Explanation"

  const OutputLanguageOptions: seq<string> := ["English", "Telugu"]

  const LanguageCodeMap: map<string, string> := map["English" := "en-US", "Telugu" := "te-IN"]

  /**
   * `Array.prototype.find` over a table of law options: the first entry
   * whose id is `law`, or nothing when no entry has it.
   */
  function FindLawOption(opts: seq<LawOption>, law: Law): (r: Option<LawOption>)
    ensures r.None? <==> forall i :: 0 <= i < |opts| ==> opts[i].id != law
    ensures r.Some? ==> r.value.id == law
    ensures r.Some? ==> exists i :: 0 <= i < |opts| && opts[i] == r.value &&
                                    forall j :: 0 <= j < i ==> opts[j].id != law
  {
    if opts == [] then None
    else if opts[0].id == law then Some(opts[0])
    else
      var r := FindLawOption(opts[1..], law);
      if r.Some? then
        var i :| 0 <= i < |opts[1..]| && opts[1..][i] == r.value &&
                 forall j :: 0 <= j < i ==> opts[1..][j].id != law;
        assert opts[i + 1] == r.value;
        assert forall j :: 0 <= j < i + 1 ==> opts[j].id != law by {
          forall j | 0 <= j < i + 1 ensures opts[j].id != law {
            if j > 0 { assert opts[j] == opts[1..][j - 1]; }
          }
        }
        r
      else
        assert forall i :: 0 <= i < |opts| ==> opts[i].id != law by {
          forall i | 0 <= i < |opts| ensures opts[i].id != law {
            if i > 0 { assert opts[i] == opts[1..][i - 1]; }
          }
        }
        r
  }

  /** The position of each law in the enumeration's declaration order. */
  function RowOf(law: Law): (i: nat)
    ensures i < 9
  {
    match law
    case CPC => 0
    case BNS => 1
    case BNSS => 2
    case BSA => 3
    case NI => 4
    case HMA => 5
    case MVA => 6
    case DV => 7
    case MWPSC => 8
  }

  /**
   * The table has one row per law, in declaration order, so every law has a
   * row and no two rows share an id.
   */
  lemma LawsOptionsOnePerLaw()
    ensures |LawsOptions| == 9
    ensures forall law: Law :: LawsOptions[RowOf(law)].id == law
    ensures forall i :: 0 <= i < |LawsOptions| ==> RowOf(LawsOptions[i].id) == i
    ensures forall i, j :: 0 <= i < j < |LawsOptions| ==> LawsOptions[i].id != LawsOptions[j].id
  {
  }

  /** `find` returns the first row with the sought id. */
  lemma FindFirst(opts: seq<LawOption>, i: nat, law: Law)
    requires i < |opts| && opts[i].id == law
    requires forall j :: 0 <= j < i ==> opts[j].id != law
    ensures FindLawOption(opts, law) == Some(opts[i])
  {
  }

  /** The lookup the prompt composer performs always finds the row of that law. */
  lemma LawLookupSucceeds(law: Law)
    ensures FindLawOption(LawsOptions, law) == Some(LawOption(law, Label(law), Title(law)))
    ensures Title(law) != ""
  {
    LawsOptionsOnePerLaw();
    FindFirst(LawsOptions, RowOf(law), law);
  }

  /** Every full title is a single line of text. */
  lemma TitleSingleLine(law: Law)
    ensures '\n' !in Title(law)
  {
    if law.CPC? || law.BNS? || law.BNSS? {
      CodeTitlesSingleLine(law);
    } else if law.BSA? || law.NI? || law.HMA? || law.MVA? {
      ActTitlesSingleLine(law);
    } else {
      LongTitlesSingleLine(law);
    }
  }

  // The titles are checked in three groups, which keeps each proof small.
  lemma CodeTitlesSingleLine(law: Law)
    requires law.CPC? || law.BNS? || law.BNSS?
    ensures '\n' !in Title(law)
  {
    match law
    case CPC => assert '\n' !in Title(CPC);
    case BNS => assert '\n' !in Title(BNS);
    case BNSS => assert '\n' !in Title(BNSS);
  }

  lemma ActTitlesSingleLine(law: Law)
    requires law.BSA? || law.NI? || law.HMA? || law.MVA?
    ensures '\n' !in Title(law)
  {
    match law
    case BSA => assert '\n' !in Title(BSA);
    case NI => assert '\n' !in Title(NI);
    case HMA => assert '\n' !in Title(HMA);
    case MVA => assert '\n' !in Title(MVA);
  }

  lemma LongTitlesSingleLine(law: Law)
    requires law.DV? || law.MWPSC?
    ensures '\n' !in Title(law)
  {
    if law.DV? {
      assert '\n' !in "Protection of Women ";
      assert '\n' !in "from Domestic Violence Act, 2005";
    } else {
      assert '\n' !in "Maintenance and Welfare of Parents ";
      assert '\n' !in "and Senior Citizens Act, 2007";
    }
  }

  /** The titles the lookup yields for the seven shorter titles. */
  lemma FullNames()
    ensures FindLawOption(LawsOptions, CPC).value.fullName == "Code of Civil Procedure, 1908"
    ensures FindLawOption(LawsOptions, BNS).value.fullName == "Bharatiya Nyaya Sanhita, 2023"
    ensures FindLawOption(LawsOptions, BNSS).value.fullName == "Bharatiya Nagarik Suraksha Sanhita, 2023"
    ensures FindLawOption(LawsOptions, BSA).value.fullName == "Bharatiya Sakshya Adhiniyam, 2023"
    ensures FindLawOption(LawsOptions, NI).value.fullName == "Negotiable Instruments Act, 1881"
    ensures FindLawOption(LawsOptions, HMA).value.fullName == "Hindu Marriage Act, 1955"
    ensures FindLawOption(LawsOptions, MVA).value.fullName == "Motor Vehicles Act, 1988"
    ensures FindLawOption(LawsOptions, NI).value.name == "NI Act"
  {
    LawLookupSucceeds(CPC);
    LawLookupSucceeds(BNS);
    LawLookupSucceeds(BNSS);
    LawLookupSucceeds(BSA);
    LawLookupSucceeds(NI);
    LawLookupSucceeds(HMA);
    LawLookupSucceeds(MVA);
  }

  /**
   * The two titles the table writes in halves are, joined, exactly the
   * titles of the Domestic Violence Act and of the Senior Citizens Act.
   */
  lemma LongFullNames()
    ensures FindLawOption(LawsOptions, DV).value.fullName == "Protection of Women from Domestic Violence Act, 2005"
    ensures FindLawOption(LawsOptions, MWPSC).value.fullName == "Maintenance and Welfare of Parents and Senior Citizens Act, 2007"
  {
    LawLookupSucceeds(DV);
    LawLookupSucceeds(MWPSC);
    DvTitle();
    MwpscTitle();
  }

  lemma DvTitle()
    ensures Title(DV) == "Protection of Women from Domestic Violence Act, 2005"
  {
    DvHalves();
  }

  lemma MwpscTitle()
    ensures Title(MWPSC) == "Maintenance and Welfare of Parents and Senior Citizens Act, 2007"
  {
    MwpscHalves();
  }

  // The halves are compared with the whole titles apart from the table, which keeps the proofs small.
  lemma DvHalves()
    ensures "Protection of Women " + "from Domestic Violence Act, 2005"
         == "Protection of Women from Domestic Violence Act, 2005"
  {
    var s := "Protection of Women from Domestic Violence Act, 2005";
    assert s == s[..20] + s[20..];
    assert s[..20] == "Protection of Women ";
    assert s[20..] == "from Domestic Violence Act, 2005";
  }

  lemma MwpscHalves()
    ensures "Maintenance and Welfare of Parents " + "and Senior Citizens Act, 2007"
         == "Maintenance and Welfare of Parents and Senior Citizens Act, 2007"
  {
    var s := "Maintenance and Welfare of Parents and Senior Citizens Act, 2007";
    assert s == s[..35] + s[35..];
    assert s[..35] == "Maintenance and Welfare of Parents ";
    assert s[35..] == "and Senior Citizens Act, 2007";
  }

  /** The first focus option is the one that suppresses the focus clause. */
  lemma DefaultFocusIsGeneral()
    ensures |QueryFocusOptions| == 4
    ensures QueryFocusOptions[0] == GeneralExplanation
    ensures forall i :: 1 <= i < |QueryFocusOptions| ==> QueryFocusOptions[i] != GeneralExplanation
  {
  }

  /** Three audience tiers, the first being the layperson one. */
  lemma AudienceTiers()
    ensures |AudienceOptions| == 3
    ensures AudienceOptions[0] == "Layperson (in simple terms)"
  {
  }

  /** The locale map is defined on exactly the output-language options. */
  lemma LanguageCodesCoverOptions()
    ensures LanguageCodeMap.Keys == set i | 0 <= i < |OutputLanguageOptions| :: OutputLanguageOptions[i]
    ensures LanguageCodeMap["English"] == "en-US" && LanguageCodeMap["Telugu"] == "te-IN"
  {
    var s := set i | 0 <= i < |OutputLanguageOptions| :: OutputLanguageOptions[i];
    assert OutputLanguageOptions[0] in s && OutputLanguageOptions[1] in s;
  }
}
