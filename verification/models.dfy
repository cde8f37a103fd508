/** The records of the eRaktKosh data model: the fixed blood-group code enumeration,
    one row of stock as the site reports it, and the cached hierarchy of codes. */
module Models {
  import opened Collections
  import opened Text

  /** The blood-group codes the site accepts, positive and negative variants of
      A, B, O, AB and Bombay, plus the sentinel meaning every group. */
  datatype BloodGroup =
    | APos | BPos | OPos | ABPos
    | ANeg | BNeg | ONeg | ABNeg
    | BombayPos | BombayNeg
    | AllGroups
  {
    /** The string value of the enumeration member. */
    function Code(): string {
      match this
      case APos => "11"
      case BPos => "13"
      case OPos => "15"
      case ABPos => "17"
      case ANeg => "12"
      case BNeg => "14"
      case ONeg => "16"
      case ABNeg => "18"
      case BombayPos => "22"
      case BombayNeg => "23"
      case AllGroups => "all"
    }
  }

  /** `BloodGroup(value)`: the member whose value is `s`, if there is one. */
  function FromCode(s: string): (g: Option<BloodGroup>)
    ensures g.Some? ==> g.value.Code() == s
  {
    if s == "11" then Some(APos)
    else if s == "13" then Some(BPos)
    else if s == "15" then Some(OPos)
    else if s == "17" then Some(ABPos)
    else if s == "12" then Some(ANeg)
    else if s == "14" then Some(BNeg)
    else if s == "16" then Some(ONeg)
    else if s == "18" then Some(ABNeg)
    else if s == "22" then Some(BombayPos)
    else if s == "23" then Some(BombayNeg)
    else if s == "all" then Some(AllGroups)
    else None
  }

  /** Every member is found again from its value, so the eleven values are pairwise distinct. */
  lemma CodesDistinct(g: BloodGroup, h: BloodGroup)
    ensures FromCode(g.Code()) == Some(g)
    ensures g.Code() == h.Code() <==> g == h
  {
  }

  /** The antigen and Rh sign that name a specific group. */
  datatype Antigen = A | B | O | AB | Bombay
  datatype Rh = Positive | Negative

  function Group(a: Antigen, rh: Rh): (g: BloodGroup)
    ensures g != AllGroups
  {
    match (a, rh)
    case (A, Positive) => APos
    case (A, Negative) => ANeg
    case (B, Positive) => BPos
    case (B, Negative) => BNeg
    case (O, Positive) => OPos
    case (O, Negative) => ONeg
    case (AB, Positive) => ABPos
    case (AB, Negative) => ABNeg
    case (Bombay, Positive) => BombayPos
    case (Bombay, Negative) => BombayNeg
  }

  /** Every specific group has a numeric code, and the negative variant's code is the
      positive variant's code plus one; "all" is the one non-numeric member. */
  lemma AdjacentCodes(a: Antigen)
    ensures AllDigits(Group(a, Positive).Code()) && AllDigits(Group(a, Negative).Code())
    ensures ParseDecimal(Group(a, Negative).Code()) == ParseDecimal(Group(a, Positive).Code()) + 1
    ensures !AllDigits(AllGroups.Code())
  {
    assert !IsDigit(AllGroups.Code()[0]);
  }

  /** One row of the stock table, as free text reported by the site. */
  datatype StockResult = StockResult(
    bloodBankName: string,
    category: string,
    availability: string,
    lastUpdated: string)

  /** The cached vocabulary: state codes to names, each state's district codes to
      names (district codes are unique only within their state), and the blood-group
      and blood-component codes to names. */
  datatype Hierarchy = Hierarchy(
    states: Dict<string>,
    districts: Dict<Dict<string>>,
    bloodGroups: Dict<string>,
    bloodComponents: Dict<string>)
}
