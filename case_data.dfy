/** The case records investigated by analysts: their status, risk level,
    assignment, notes and evidence. */
module CaseData {
  import opened Common

  datatype CaseStatus = Open | UnderReview | ConfirmedFraud | FalsePositive | Closed

  datatype RiskLevel = Low | Medium | High | Critical

  datatype CaseNote = CaseNote(id: string, analyst: string, timestamp: string, content: string)

  datatype EvidenceType = Screenshot | Document | Kyc | Note

  datatype Evidence = Evidence(
    id: string,
    evidenceType: EvidenceType,
    name: string,
    uploadedBy: string,
    uploadedAt: string,
    url: Option<string>)

  /** A case; the amount is a decimal number. */
  datatype Case = Case(
    id: string,
    transactionId: string,
    riskLevel: RiskLevel,
    status: CaseStatus,
    assignedAnalyst: string,
    createdAt: string,
    lastUpdated: string,
    amount: real,
    channel: string,
    merchantName: string,
    cardLast4: string,
    triggeredRules: seq<string>,
    notes: seq<CaseNote>,
    evidenceAttachments: seq<Evidence>)

  /** The status as the data spells it. */
  function StatusName(s: CaseStatus): string
  {
    match s
    case Open => "OPEN"
    case UnderReview => "UNDER_REVIEW"
    case ConfirmedFraud => "CONFIRMED_FRAUD"
    case FalsePositive => "FALSE_POSITIVE"
    case Closed => "CLOSED"
  }

  function RiskName(r: RiskLevel): string
  {
    match r
    case Low => "LOW"
    case Medium => "MEDIUM"
    case High => "HIGH"
    case Critical => "CRITICAL"
  }

  /** The status badge text: `status.replace(/_/g, " ")`. */
  function StatusLabel(s: CaseStatus): string
  {
    ReplaceAll(StatusName(s), '_', ' ')
  }

  /** Status names are written without spaces. */
  lemma StatusNameHasNoSpace(s: CaseStatus)
    ensures forall i :: 0 <= i < |StatusName(s)| ==> StatusName(s)[i] != ' '
  {
    match s
    case Open =>
    case UnderReview =>
    case ConfirmedFraud =>
    case FalsePositive =>
    case Closed =>
  }

  /** The badge shows no underscore. */
  lemma StatusLabelHasNoUnderscore(s: CaseStatus)
    ensures forall i :: 0 <= i < |StatusLabel(s)| ==> StatusLabel(s)[i] != '_'
  {
  }

  /** Status names differ in length, so a string of the right length names
      at most one status. */
  lemma StatusNameLengthsDiffer(a: CaseStatus, b: CaseStatus)
    requires |StatusName(a)| == |StatusName(b)|
    ensures a == b
  {
    match a
    case Open =>
    case UnderReview =>
    case ConfirmedFraud =>
    case FalsePositive =>
    case Closed =>
  }

  /** Each status keeps a badge of its own: no two statuses share a label. */
  lemma StatusLabelInjective(a: CaseStatus, b: CaseStatus)
    requires StatusLabel(a) == StatusLabel(b)
    ensures a == b
  {
    StatusNameLengthsDiffer(a, b);
  }

  /** Undoing the replacement gives the stored status name back. */
  lemma StatusLabelRoundTrip(s: CaseStatus)
    ensures ReplaceAll(StatusLabel(s), ' ', '_') == StatusName(s)
  {
    StatusNameHasNoSpace(s);
    ReplaceAllInverse(StatusName(s), '_', ' ');
  }
}
