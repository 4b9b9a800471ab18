/** Reference data for the embargo feature: the set of two-letter country codes against which
    the country entered on the admin page is validated. The set is modelled as written in the
    repository, not as the ISO 3166-1 alpha-2 list it is described as. */
module CountryCodes {

  // COUNTRY_CODES is one alphabetically ordered set literal of 244 codes. Below it is written
  // as its consecutive runs of codes sharing a first letter; their union is exactly that literal.
  const StartingA: set<string> := {"AC", "AD", "AE", "AF", "AG", "AI", "AL", "AM", "AN", "AO", "AQ", "AR", "AS", "AT", "AU", "AW", "AX", "AZ"}
  const StartingB: set<string> := {"BA", "BB", "BD", "BE", "BF", "BG", "BH", "BI", "BJ", "BM", "BN", "BO", "BR", "BS", "BT", "BV", "BW", "BY", "BZ"}
  const StartingC: set<string> := {"CA", "CC", "CD", "CF", "CG", "CH", "CI", "CK", "CL", "CM", "CN", "CO", "CR", "CU", "CV", "CX", "CY", "CZ"}
  const StartingD: set<string> := {"DE", "DJ", "DK", "DM", "DO", "DZ"}
  const StartingE: set<string> := {"EC", "EE", "EG", "ER", "ES", "ET"}
  const StartingF: set<string> := {"FI", "FJ", "FK", "FM", "FO", "FR"}
  const StartingG: set<string> := {"GA", "GB", "GD", "GE", "GF", "GG", "GH", "GI", "GL", "GM", "GN", "GP", "GQ", "GR", "GS", "GT", "GU", "GW", "GY"}
  const StartingH: set<string> := {"HK", "HM", "HN", "HR", "HT", "HU"}
  const StartingI: set<string> := {"ID", "IE", "IL", "IM", "IN", "IO", "IQ", "IR", "IS", "IT"}
  const StartingJ: set<string> := {"JE", "JM", "JO", "JP"}
  const StartingK: set<string> := {"KE", "KG", "KH", "KI", "KM", "KN", "KP", "KR", "KW", "KY", "KZ"}
  const StartingL: set<string> := {"LA", "LB", "LC", "LI", "LK", "LR", "LS", "LT", "LU", "LV", "LY"}
  const StartingM: set<string> := {"MA", "MC", "MD", "ME", "MG", "MH", "MK", "ML", "MM", "MN", "MO", "MP", "MQ", "MR", "MS", "MT", "MU", "MV", "MW", "MX", "MY", "MZ"}
  const StartingN: set<string> := {"NA", "NC", "NE", "NF", "NG", "NI", "NL", "NO", "NP", "NR", "NU", "NZ"}
  const StartingO: set<string> := {"OM"}
  const StartingP: set<string> := {"PA", "PE", "PF", "PG", "PH", "PK", "PL", "PM", "PN", "PR", "PT", "PW", "PY"}
  const StartingQ: set<string> := {"QA"}
  const StartingR: set<string> := {"RE", "RO", "RS", "RU", "RW"}
  const StartingS: set<string> := {"SA", "SB", "SC", "SD", "SE", "SG", "SH", "SI", "SJ", "SK", "SL", "SM", "SN", "SO", "SR", "ST", "SV", "SY", "SZ"}
  const StartingT: set<string> := {"TA", "TC", "TD", "TF", "TG", "TH", "TJ", "TK", "TL", "TM", "TN", "TO", "TR", "TT", "TV", "TW", "TZ"}
  const StartingU: set<string> := {"UA", "UG", "UM", "US", "UY", "UZ"}
  const StartingV: set<string> := {"VA", "VC", "VE", "VG", "VI", "VN", "VU"}
  const StartingW: set<string> := {"WF", "WS"}
  const StartingY: set<string> := {"YE", "YT"}
  const StartingZ: set<string> := {"ZA", "ZM", "ZW"}

  /** The COUNTRY_CODES set. */
  const Codes: set<string> :=
    StartingA
    + StartingB
    + StartingC
    + StartingD
    + StartingE
    + StartingF
    + StartingG
    + StartingH
    + StartingI
    + StartingJ
    + StartingK
    + StartingL
    + StartingM
    + StartingN
    + StartingO
    + StartingP
    + StartingQ
    + StartingR
    + StartingS
    + StartingT
    + StartingU
    + StartingV
    + StartingW
    + StartingY
    + StartingZ

  predicate IsUpperLetter(c: char) {
    'A' <= c <= 'Z'
  }

  /** Exactly two characters, both upper-case Latin letters. */
  predicate IsAlpha2Shape(code: string) {
    |code| == 2 && IsUpperLetter(code[0]) && IsUpperLetter(code[1])
  }

  /** An entered country code passes validation exactly when it is a member of the set. */
  predicate IsValidCountryCode(code: string) {
    code in Codes
  }

  // One lemma per run keeps each proof obligation small.
  lemma StartingAShape()
    ensures forall code :: code in StartingA ==> IsAlpha2Shape(code) && code[0] == 'A'
  {
  }

  lemma StartingBShape()
    ensures forall code :: code in StartingB ==> IsAlpha2Shape(code) && code[0] == 'B'
  {
  }

  lemma StartingCShape()
    ensures forall code :: code in StartingC ==> IsAlpha2Shape(code) && code[0] == 'C'
  {
  }

  lemma StartingDShape()
    ensures forall code :: code in StartingD ==> IsAlpha2Shape(code) && code[0] == 'D'
  {
  }

  lemma StartingEShape()
    ensures forall code :: code in StartingE ==> IsAlpha2Shape(code) && code[0] == 'E'
  {
  }

  lemma StartingFShape()
    ensures forall code :: code in StartingF ==> IsAlpha2Shape(code) && code[0] == 'F'
  {
  }

  lemma StartingGShape()
    ensures forall code :: code in StartingG ==> IsAlpha2Shape(code) && code[0] == 'G'
  {
  }

  lemma StartingHShape()
    ensures forall code :: code in StartingH ==> IsAlpha2Shape(code) && code[0] == 'H'
  {
  }

  lemma StartingIShape()
    ensures forall code :: code in StartingI ==> IsAlpha2Shape(code) && code[0] == 'I'
  {
  }

  lemma StartingJShape()
    ensures forall code :: code in StartingJ ==> IsAlpha2Shape(code) && code[0] == 'J'
  {
  }

  lemma StartingKShape()
    ensures forall code :: code in StartingK ==> IsAlpha2Shape(code) && code[0] == 'K'
  {
  }

  lemma StartingLShape()
    ensures forall code :: code in StartingL ==> IsAlpha2Shape(code) && code[0] == 'L'
  {
  }

  lemma StartingMShape()
    ensures forall code :: code in StartingM ==> IsAlpha2Shape(code) && code[0] == 'M'
  {
  }

  lemma StartingNShape()
    ensures forall code :: code in StartingN ==> IsAlpha2Shape(code) && code[0] == 'N'
  {
  }

  lemma StartingOShape()
    ensures forall code :: code in StartingO ==> IsAlpha2Shape(code) && code[0] == 'O'
  {
  }

  lemma StartingPShape()
    ensures forall code :: code in StartingP ==> IsAlpha2Shape(code) && code[0] == 'P'
  {
  }

  lemma StartingQShape()
    ensures forall code :: code in StartingQ ==> IsAlpha2Shape(code) && code[0] == 'Q'
  {
  }

  lemma StartingRShape()
    ensures forall code :: code in StartingR ==> IsAlpha2Shape(code) && code[0] == 'R'
  {
  }

  lemma StartingSShape()
    ensures forall code :: code in StartingS ==> IsAlpha2Shape(code) && code[0] == 'S'
  {
  }

  lemma StartingTShape()
    ensures forall code :: code in StartingT ==> IsAlpha2Shape(code) && code[0] == 'T'
  {
  }

  lemma StartingUShape()
    ensures forall code :: code in StartingU ==> IsAlpha2Shape(code) && code[0] == 'U'
  {
  }

  lemma StartingVShape()
    ensures forall code :: code in StartingV ==> IsAlpha2Shape(code) && code[0] == 'V'
  {
  }

  lemma StartingWShape()
    ensures forall code :: code in StartingW ==> IsAlpha2Shape(code) && code[0] == 'W'
  {
  }

  lemma StartingYShape()
    ensures forall code :: code in StartingY ==> IsAlpha2Shape(code) && code[0] == 'Y'
  {
  }

  lemma StartingZShape()
    ensures forall code :: code in StartingZ ==> IsAlpha2Shape(code) && code[0] == 'Z'
  {
  }

  /** Every member of the set is two characters long and both characters are in 'A'..'Z'. */
  lemma EveryCodeHasAlpha2Shape()
    ensures forall code :: code in Codes ==> IsAlpha2Shape(code)
  {
    StartingAShape();
    StartingBShape();
    StartingCShape();
    StartingDShape();
    StartingEShape();
    StartingFShape();
    StartingGShape();
    StartingHShape();
    StartingIShape();
    StartingJShape();
    StartingKShape();
    StartingLShape();
    StartingMShape();
    StartingNShape();
    StartingOShape();
    StartingPShape();
    StartingQShape();
    StartingRShape();
    StartingSShape();
    StartingTShape();
    StartingUShape();
    StartingVShape();
    StartingWShape();
    StartingYShape();
    StartingZShape();
  }

  /** Validation is case-sensitive: a code holding any character outside 'A'..'Z' (a lower-case
      letter, say) is rejected, so "us" is rejected although "US" is accepted. */
  lemma ValidationIsCaseSensitive(code: string)
    requires exists i :: 0 <= i < |code| && !IsUpperLetter(code[i])
    ensures !IsValidCountryCode(code)
  {
    EveryCodeHasAlpha2Shape();
  }

  /** Codes that stand in the literal, including the reserved AC, AN and TA. */
  lemma ListedCodes()
    ensures IsValidCountryCode("US")
    ensures IsValidCountryCode("AC") && IsValidCountryCode("AN") && IsValidCountryCode("TA")
  {
  }

  /** The lower-case spelling of an accepted code is rejected. */
  lemma LowerCaseUsRejected()
    ensures !IsValidCountryCode("us")
  {
    assert !IsUpperLetter("us"[0]);
    ValidationIsCaseSensitive("us");
  }
}
