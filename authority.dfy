/** The user roles (constants/Authority.java): the enum names, their display text and Korean names. */
module Roles {
  datatype Authority = ROLE_A | ROLE_B | ROLE_C | ROLE_ADMIN

  /** `name()`, the constant's identifier. */
  function Name(a: Authority): (r: string)
    ensures "ROLE_" <= r
  {
    match a
    case ROLE_A => "ROLE_A"
    case ROLE_B => "ROLE_B"
    case ROLE_C => "ROLE_C"
    case ROLE_ADMIN => "ROLE_ADMIN"
  }

  /** `toString`: the identifier without the five characters of "ROLE_". */
  function ToString(a: Authority): (r: string)
    ensures Name(a) == "ROLE_" + r
  {
    Name(a)[5..]
  }

  /** `getKoreanName`, also the enum's JSON form. */
  function KoreanName(a: Authority): string
  {
    match a
    case ROLE_A => "A"
    case ROLE_B => "B"
    case ROLE_C => "C"
    case ROLE_ADMIN => "관리자"
  }

  // ---------------------------------------------------------------------------------------------
  // Properties

  /** The display texts are "A", "B", "C" and "ADMIN". */
  lemma DisplayTexts()
    ensures ToString(ROLE_A) == "A" && ToString(ROLE_B) == "B" && ToString(ROLE_C) == "C"
    ensures ToString(ROLE_ADMIN) == "ADMIN"
  {
  }

  /** Distinct roles have distinct display texts and distinct Korean names, so either identifies the role. */
  lemma Injective(a: Authority, b: Authority)
    requires a != b
    ensures ToString(a) != ToString(b)
    ensures KoreanName(a) != KoreanName(b)
  {
  }

  /** The JSON form and the display text agree for every role but the administrator. */
  lemma KoreanAndDisplay(a: Authority)
    ensures KoreanName(a) == ToString(a) <==> a != ROLE_ADMIN
  {
  }
}
