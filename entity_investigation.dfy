/** The entity-investigation fixture: one base transaction and, for each of
    its four entities (device, IP address, merchant, card), the link record
    the entity-links page renders, with the summary's block-ratio risk level. */
module EntityInvestigation {
  import opened Common

  datatype Decision = Block | Alert | Case

  datatype RiskLevel = HighRisk | MediumRisk | LowRisk

  /** `calculateRiskLevel`: the share of blocked transactions above one half
      is high risk, above one fifth medium risk. The division is written as
      cross-multiplication, which agrees with the floating-point ratio also
      when there are no transactions (a positive count over zero is infinite,
      zero over zero is not a number and compares false). */
  function CalculateRiskLevel(blockCount: nat, totalTransactions: nat): RiskLevel
  {
    if 2 * blockCount > totalTransactions then HighRisk
    else if 5 * blockCount > totalTransactions then MediumRisk
    else LowRisk
  }

  /** The level against the ratio itself: exactly one level for every count. */
  lemma RiskLevelByRatio(blockCount: nat, totalTransactions: nat)
    ensures var r := CalculateRiskLevel(blockCount, totalTransactions);
      totalTransactions > 0 ==>
        var ratio := blockCount as real / totalTransactions as real;
        && (r == HighRisk <==> ratio > 0.5)
        && (r == MediumRisk <==> 0.2 < ratio <= 0.5)
        && (r == LowRisk <==> ratio <= 0.2)
    ensures var r := CalculateRiskLevel(blockCount, totalTransactions);
      totalTransactions == 0 ==> (r == HighRisk <==> blockCount > 0) && (r == LowRisk <==> blockCount == 0)
  {
    if totalTransactions > 0 {
      RatioAbove(blockCount, totalTransactions, 2);
      RatioAbove(blockCount, totalTransactions, 5);
    }
  }

  /** For a positive total, the ratio exceeds `1/k` exactly when `k` blocks
      outweigh the total. */
  lemma RatioAbove(b: nat, t: nat, k: nat)
    requires t > 0 && k > 0
    ensures b as real / t as real > 1.0 / k as real <==> k * b > t
  {
    var ratio := b as real / t as real;
    assert ratio * t as real == b as real;
    if k * b > t {
      assert ratio * (k as real) * (t as real) == (k * b) as real;
      assert ratio * (k as real) > 1.0;
    } else {
      assert ratio * (k as real) * (t as real) == (k * b) as real;
      assert ratio * (k as real) <= 1.0;
    }
  }

  function Rank(r: RiskLevel): nat
  {
    match r
    case LowRisk => 0
    case MediumRisk => 1
    case HighRisk => 2
  }

  /** With the total fixed, more blocks never lower the level. */
  lemma RiskMonotone(b1: nat, b2: nat, t: nat)
    requires b1 <= b2
    ensures Rank(CalculateRiskLevel(b1, t)) <= Rank(CalculateRiskLevel(b2, t))
  {
  }

  // ---------------------------------------------------------------------------
  // Fixture
  // ---------------------------------------------------------------------------

  datatype BaseTransaction = BaseTransaction(
    id: string,
    cardId: string,
    deviceId: string,
    ipAddress: string,
    merchantId: string,
    merchantName: string,
    amount: string,
    timestamp: string,
    decision: Decision,
    channel: string,
    accessChannel: string,
    transactionType: string,
    riskScore: int)

  datatype RelatedTransaction = RelatedTransaction(
    id: string,
    decision: Decision,
    amount: string,
    date: string,
    channel: string,
    ruleHits: int)

  datatype EntitySummary = EntitySummary(
    totalTransactions: nat,
    blockCount: nat,
    alertCount: nat,
    caseCount: nat,
    lastActivity: string,
    riskLevel: RiskLevel)

  datatype EntityLink = EntityLink(
    entityValue: string,
    entityLabel: Option<string>,
    summary: EntitySummary,
    transactions: seq<RelatedTransaction>)

  datatype Investigation = Investigation(
    baseTransaction: BaseTransaction,
    deviceLink: EntityLink,
    ipLink: EntityLink,
    merchantLink: EntityLink,
    cardLink: EntityLink)

  /** What a link's summary promises about the link: the three decision
      counts add up to the total, the list holds that many transactions, the
      stored level is the computed one, and the list opens with the base
      transaction. */
  predicate LinkConsistent(link: EntityLink, base: BaseTransaction)
  {
    && link.summary.totalTransactions == link.summary.blockCount + link.summary.alertCount + link.summary.caseCount
    && |link.transactions| == link.summary.totalTransactions
    && link.summary.riskLevel == CalculateRiskLevel(link.summary.blockCount, link.summary.totalTransactions)
    && |link.transactions| > 0 && link.transactions[0].id == base.id
  }

  /** One transaction binds exactly one device, IP address, merchant and card:
      each link is about the base transaction's own entity. */
  predicate Binds(inv: Investigation)
  {
    && inv.deviceLink.entityValue == inv.baseTransaction.deviceId
    && inv.ipLink.entityValue == inv.baseTransaction.ipAddress
    && inv.merchantLink.entityValue == inv.baseTransaction.merchantId
    && inv.cardLink.entityValue == inv.baseTransaction.cardId
  }

  const Base := BaseTransaction(
    "TXN-458392", "**** **** **** 1234", "D-7788", "192.168.45.12", "MERCH-1023",
    "TechStore Electronics", "$2,350.00", "2024-02-15 14:23:11 UTC", Block, "VISA", "ECOM",
    "Purchase", 87)

  const DeviceLink := EntityLink(
    "D-7788",
    Some("iPhone 12 Pro"),
    EntitySummary(15, 8, 5, 2, "2 hours ago", HighRisk),
    [
      RelatedTransaction("TXN-458392", Block, "$2,350.00", "2024-02-15 14:23", "VISA", 3),
      RelatedTransaction("TXN-458391", Block, "$1,200.00", "2024-02-15 14:15", "VISA", 2),
      RelatedTransaction("TXN-458385", Alert, "$890.00", "2024-02-15 13:45", "Mastercard", 1),
      RelatedTransaction("TXN-458370", Block, "$3,200.00", "2024-02-15 12:30", "VISA", 4),
      RelatedTransaction("TXN-458355", Alert, "$450.00", "2024-02-15 11:20", "AMEX", 1),
      RelatedTransaction("TXN-458340", Block, "$1,800.00", "2024-02-15 10:15", "VISA", 3),
      RelatedTransaction("TXN-458325", Case, "$950.00", "2024-02-15 09:45", "Mastercard", 2),
      RelatedTransaction("TXN-458310", Alert, "$670.00", "2024-02-15 08:30", "VISA", 1),
      RelatedTransaction("TXN-458295", Block, "$2,100.00", "2024-02-15 07:15", "VISA", 3),
      RelatedTransaction("TXN-458280", Alert, "$540.00", "2024-02-15 06:00", "Mastercard", 1),
      RelatedTransaction("TXN-458265", Block, "$1,950.00", "2024-02-15 04:45", "VISA", 2),
      RelatedTransaction("TXN-458250", Case, "$780.00", "2024-02-15 03:30", "Mastercard", 2),
      RelatedTransaction("TXN-458235", Alert, "$620.00", "2024-02-15 02:15", "VISA", 1),
      RelatedTransaction("TXN-458220", Block, "$1,400.00", "2024-02-15 01:00", "AMEX", 3),
      RelatedTransaction("TXN-458205", Alert, "$490.00", "2024-02-14 23:45", "VISA", 1)
    ])

  const IpLink := EntityLink(
    "192.168.45.12",
    Some("New York, US"),
    EntitySummary(23, 14, 7, 2, "1 hour ago", HighRisk),
    [
      RelatedTransaction("TXN-458392", Block, "$2,350.00", "2024-02-15 14:23", "VISA", 3),
      RelatedTransaction("TXN-458388", Block, "$1,900.00", "2024-02-15 14:00", "Mastercard", 2),
      RelatedTransaction("TXN-458380", Alert, "$750.00", "2024-02-15 13:30", "VISA", 1),
      RelatedTransaction("TXN-458375", Block, "$2,800.00", "2024-02-15 13:00", "AMEX", 4),
      RelatedTransaction("TXN-458365", Block, "$1,450.00", "2024-02-15 12:15", "VISA", 3),
      RelatedTransaction("TXN-458360", Alert, "$580.00", "2024-02-15 11:45", "Mastercard", 1),
      RelatedTransaction("TXN-458345", Case, "$1,050.00", "2024-02-15 10:30", "VISA", 2),
      RelatedTransaction("TXN-458335", Block, "$2,200.00", "2024-02-15 09:45", "VISA", 3),
      RelatedTransaction("TXN-458320", Alert, "$690.00", "2024-02-15 08:30", "Mastercard", 1),
      RelatedTransaction("TXN-458305", Block, "$1,750.00", "2024-02-15 07:15", "VISA", 2),
      RelatedTransaction("TXN-458290", Block, "$1,950.00", "2024-02-15 06:00", "AMEX", 3),
      RelatedTransaction("TXN-458275", Alert, "$520.00", "2024-02-15 04:45", "VISA", 1),
      RelatedTransaction("TXN-458260", Block, "$2,100.00", "2024-02-15 03:30", "Mastercard", 2),
      RelatedTransaction("TXN-458245", Case, "$880.00", "2024-02-15 02:15", "VISA", 2),
      RelatedTransaction("TXN-458230", Block, "$1,650.00", "2024-02-15 01:00", "VISA", 3),
      RelatedTransaction("TXN-458215", Alert, "$430.00", "2024-02-14 23:45", "Mastercard", 1),
      RelatedTransaction("TXN-458200", Block, "$1,850.00", "2024-02-14 22:30", "VISA", 2),
      RelatedTransaction("TXN-458185", Block, "$2,300.00", "2024-02-14 21:15", "AMEX", 4),
      RelatedTransaction("TXN-458170", Alert, "$590.00", "2024-02-14 20:00", "VISA", 1),
      RelatedTransaction("TXN-458155", Block, "$1,700.00", "2024-02-14 18:45", "Mastercard", 2),
      RelatedTransaction("TXN-458140", Alert, "$460.00", "2024-02-14 17:30", "VISA", 1),
      RelatedTransaction("TXN-458125", Block, "$1,950.00", "2024-02-14 16:15", "VISA", 3),
      RelatedTransaction("TXN-458110", Alert, "$380.00", "2024-02-14 15:00", "Mastercard", 1)
    ])

  const MerchantLink := EntityLink(
    "MERCH-1023",
    Some("TechStore Electronics"),
    EntitySummary(18, 10, 6, 2, "3 hours ago", HighRisk),
    [
      RelatedTransaction("TXN-458392", Block, "$2,350.00", "2024-02-15 14:23", "VISA", 3),
      RelatedTransaction("TXN-458380", Block, "$1,800.00", "2024-02-15 13:30", "Mastercard", 2),
      RelatedTransaction("TXN-458370", Alert, "$920.00", "2024-02-15 12:45", "VISA", 1),
      RelatedTransaction("TXN-458355", Block, "$2,600.00", "2024-02-15 11:30", "AMEX", 4),
      RelatedTransaction("TXN-458340", Block, "$1,400.00", "2024-02-15 10:15", "VISA", 3),
      RelatedTransaction("TXN-458325", Case, "$1,150.00", "2024-02-15 09:00", "Mastercard", 2),
      RelatedTransaction("TXN-458310", Alert, "$780.00", "2024-02-15 07:45", "VISA", 1),
      RelatedTransaction("TXN-458295", Block, "$2,100.00", "2024-02-15 06:30", "VISA", 3),
      RelatedTransaction("TXN-458280", Alert, "$640.00", "2024-02-15 05:15", "Mastercard", 1),
      RelatedTransaction("TXN-458265", Block, "$1,950.00", "2024-02-15 04:00", "VISA", 2),
      RelatedTransaction("TXN-458250", Alert, "$570.00", "2024-02-15 02:45", "AMEX", 1),
      RelatedTransaction("TXN-458235", Block, "$1,750.00", "2024-02-15 01:30", "VISA", 2),
      RelatedTransaction("TXN-458220", Case, "$890.00", "2024-02-15 00:15", "Mastercard", 2),
      RelatedTransaction("TXN-458205", Alert, "$620.00", "2024-02-14 23:00", "VISA", 1),
      RelatedTransaction("TXN-458190", Block, "$2,200.00", "2024-02-14 21:45", "VISA", 3),
      RelatedTransaction("TXN-458175", Alert, "$480.00", "2024-02-14 20:30", "Mastercard", 1),
      RelatedTransaction("TXN-458160", Block, "$1,850.00", "2024-02-14 19:15", "AMEX", 2),
      RelatedTransaction("TXN-458145", Alert, "$540.00", "2024-02-14 18:00", "VISA", 1)
    ])

  const CardLink := EntityLink(
    "**** **** **** 1234",
    Some("VISA Card ending 1234"),
    EntitySummary(27, 9, 14, 4, "30 minutes ago", MediumRisk),
    [
      RelatedTransaction("TXN-458392", Block, "$2,350.00", "2024-02-15 14:23", "VISA", 3),
      RelatedTransaction("TXN-458389", Alert, "$680.00", "2024-02-15 14:10", "VISA", 1),
      RelatedTransaction("TXN-458383", Alert, "$920.00", "2024-02-15 13:50", "VISA", 1),
      RelatedTransaction("TXN-458377", Block, "$1,800.00", "2024-02-15 13:20", "VISA", 2),
      RelatedTransaction("TXN-458368", Alert, "$550.00", "2024-02-15 12:40", "VISA", 1),
      RelatedTransaction("TXN-458358", Case, "$1,200.00", "2024-02-15 11:50", "VISA", 2),
      RelatedTransaction("TXN-458348", Alert, "$420.00", "2024-02-15 11:00", "VISA", 1),
      RelatedTransaction("TXN-458338", Block, "$1,650.00", "2024-02-15 10:10", "VISA", 2),
      RelatedTransaction("TXN-458328", Alert, "$780.00", "2024-02-15 09:20", "VISA", 1),
      RelatedTransaction("TXN-458318", Alert, "$490.00", "2024-02-15 08:30", "VISA", 1),
      RelatedTransaction("TXN-458308", Block, "$2,100.00", "2024-02-15 07:40", "VISA", 3),
      RelatedTransaction("TXN-458298", Alert, "$620.00", "2024-02-15 06:50", "VISA", 1),
      RelatedTransaction("TXN-458288", Case, "$950.00", "2024-02-15 06:00", "VISA", 2),
      RelatedTransaction("TXN-458278", Alert, "$530.00", "2024-02-15 05:10", "VISA", 1),
      RelatedTransaction("TXN-458268", Block, "$1,750.00", "2024-02-15 04:20", "VISA", 2),
      RelatedTransaction("TXN-458258", Alert, "$670.00", "2024-02-15 03:30", "VISA", 1),
      RelatedTransaction("TXN-458248", Alert, "$440.00", "2024-02-15 02:40", "VISA", 1),
      RelatedTransaction("TXN-458238", Case, "$1,100.00", "2024-02-15 01:50", "VISA", 2),
      RelatedTransaction("TXN-458228", Block, "$1,900.00", "2024-02-15 01:00", "VISA", 3),
      RelatedTransaction("TXN-458218", Alert, "$590.00", "2024-02-15 00:10", "VISA", 1),
      RelatedTransaction("TXN-458208", Alert, "$710.00", "2024-02-14 23:20", "VISA", 1),
      RelatedTransaction("TXN-458198", Block, "$1,550.00", "2024-02-14 22:30", "VISA", 2),
      RelatedTransaction("TXN-458188", Alert, "$480.00", "2024-02-14 21:40", "VISA", 1),
      RelatedTransaction("TXN-458178", Case, "$880.00", "2024-02-14 20:50", "VISA", 2),
      RelatedTransaction("TXN-458168", Alert, "$630.00", "2024-02-14 20:00", "VISA", 1),
      RelatedTransaction("TXN-458158", Block, "$1,850.00", "2024-02-14 19:10", "VISA", 2),
      RelatedTransaction("TXN-458148", Alert, "$520.00", "2024-02-14 18:20", "VISA", 1)
    ])

  const MockEntityInvestigation := Investigation(Base, DeviceLink, IpLink, MerchantLink, CardLink)

  lemma MockBindsEntities()
    ensures Binds(MockEntityInvestigation)
  {
  }

  lemma MockLinksConsistent()
    ensures LinkConsistent(MockEntityInvestigation.deviceLink, Base)
    ensures LinkConsistent(MockEntityInvestigation.ipLink, Base)
    ensures LinkConsistent(MockEntityInvestigation.merchantLink, Base)
    ensures LinkConsistent(MockEntityInvestigation.cardLink, Base)
  {
  }
}
