/** The record shapes of the `credit_cards` and `user_favorites` tables.
    Columns declared `decimal(10, 2)` hold whole hundredths (paise); a
    nullable column is an `Option`; timestamps are integers from the clock
    that the caller supplies. */
module Schema {
  import opened Wrappers
  import opened Text

  /** A row of `credit_cards`. */
  datatype CreditCard = CreditCard(
    id: nat,
    name: string,
    issuer: string,
    joiningFee: int,                 // hundredths
    annualFee: int,                  // hundredths
    rewardType: string,
    rewardRate: string,
    eligibilityCriteria: string,
    specialPerks: seq<string>,
    affiliateLink: Option<string>,
    applyLink: Option<string>,
    cardType: string,
    minCreditScore: Option<int>,
    minIncome: Option<int>,          // hundredths
    isActive: bool,
    createdAt: int)

  /** An insertable card: a row without the generated `id`, `is_active` and
      `created_at` columns, which take their defaults. */
  datatype NewCard = NewCard(
    name: string,
    issuer: string,
    joiningFee: int,
    annualFee: int,
    rewardType: string,
    rewardRate: string,
    eligibilityCriteria: string,
    specialPerks: seq<string>,
    affiliateLink: Option<string>,
    applyLink: Option<string>,
    cardType: string,
    minCreditScore: Option<int>,
    minIncome: Option<int>)

  /** The row the table stores for `n`: the given serial id, `is_active`
      defaulting to true and `created_at` defaulting to the current time. */
  function Stored(n: NewCard, id: nat, now: int): (c: CreditCard)
    ensures c.id == id && c.isActive && c.createdAt == now
    ensures c.name == n.name && c.issuer == n.issuer && c.cardType == n.cardType
    ensures c.annualFee == n.annualFee && c.joiningFee == n.joiningFee
    ensures c.minCreditScore == n.minCreditScore && c.minIncome == n.minIncome
    ensures c.rewardType == n.rewardType && c.rewardRate == n.rewardRate
    ensures c.eligibilityCriteria == n.eligibilityCriteria && c.specialPerks == n.specialPerks
    ensures c.affiliateLink == n.affiliateLink && c.applyLink == n.applyLink
  {
    CreditCard(id, n.name, n.issuer, n.joiningFee, n.annualFee, n.rewardType, n.rewardRate,
               n.eligibilityCriteria, n.specialPerks, n.affiliateLink, n.applyLink, n.cardType,
               n.minCreditScore, n.minIncome, true, now)
  }

  /** A row of `user_favorites`. */
  datatype Favorite = Favorite(id: nat, userId: string, cardId: int, createdAt: int)

  /** The absolute value of `x`. */
  function Magnitude(x: int): nat {
    if x < 0 then -x else x
  }

  /** The text in which a `decimal(10, 2)` value reaches the application:
      an optional minus sign, the integer part, a point and two decimals. */
  function DecimalText(hundredths: int): (t: string)
    ensures |t| >= 4 && t[|t| - 3] == '.'
    ensures (hundredths < 0) <==> t[0] == '-'
    ensures IsDigit(t[|t| - 2]) && IsDigit(t[|t| - 1])
    ensures DigitValue(t[|t| - 2]) * 10 + DigitValue(t[|t| - 1]) == Magnitude(hundredths) % 100
    ensures var start := if hundredths < 0 then 1 else 0;
            && start < |t| - 3
            && AllDigits(t[start..|t| - 3])
            && DigitsValue(t[start..|t| - 3]) == Magnitude(hundredths) / 100
  {
    var magnitude := Magnitude(hundredths);
    var whole := NatToString(magnitude / 100);
    var cents := magnitude % 100;
    var fraction := [DigitChar(cents / 10), DigitChar(cents % 10)];
    var sign := if hundredths < 0 then "-" else "";
    var t := sign + whole + "." + fraction;
    assert |t| == |sign| + |whole| + 3;
    assert t[0] == if hundredths < 0 then '-' else whole[0];
    assert t[|t| - 3] == '.' && t[|t| - 2] == fraction[0] && t[|t| - 1] == fraction[1];
    assert t[|sign|..|t| - 3] == whole by {
      forall k | 0 <= k < |whole| ensures t[|sign| + k] == whole[k] {
      }
    }
    t
  }

  /** A decimal column never arrives as the bare text "0"; zero arrives as
      "0.00". */
  lemma DecimalTextNeverBareZero(hundredths: int)
    ensures DecimalText(hundredths) != "0"
    ensures DecimalText(0) == "0.00"
  {
    assert NatToString(0) == "0";
  }
}
