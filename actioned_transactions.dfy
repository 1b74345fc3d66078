/** The actioned-transactions page: a table of transactions narrowed by a
    panel of filters (action, country, channel, amount range, dates and a
    free-text search), with dropdowns built from the values in the data. */
module ActionedTransactions {
  import opened Common

  datatype TxAction = Approved | Blocked | Review | Flagged

  function ActionName(a: TxAction): string
  {
    match a
    case Approved => "Approved"
    case Blocked => "Blocked"
    case Review => "Review"
    case Flagged => "Flagged"
  }

  /** A transaction row; amounts are decimal numbers. */
  datatype Transaction = Transaction(
    id: string,
    time: string,
    amount: real,
    country: string,
    channel: string,
    merchant: string,
    txType: string,
    action: TxAction,
    riskScore: int,
    cardLast4: string,
    triggeredRules: seq<string>,
    riskSignals: seq<string>)

  /** The filter panel. A dropdown holds "All" or a value; each amount box
      holds the number its text parses to, `None` when the box is empty or
      its text is not a number (both leave that side of the range open). */
  datatype Filters = Filters(
    action: string,
    country: string,
    channel: string,
    minAmount: Option<real>,
    maxAmount: Option<real>,
    dateFrom: string,
    dateTo: string,
    searchQuery: string)

  const AllOption := "All"

  const DefaultFilters := Filters(AllOption, AllOption, AllOption, None, None, "", "", "")

  // ---------------------------------------------------------------------------
  // The row test
  // ---------------------------------------------------------------------------

  /** The free-text test: id, merchant and country are compared in lower
      case, the card digits as they are against the lower-cased query. */
  predicate SearchHit(tx: Transaction, query: string)
  {
    var q := ToLower(query);
    Contains(ToLower(tx.id), q) || Contains(ToLower(tx.merchant), q)
    || Contains(ToLower(tx.country), q) || Contains(tx.cardLast4, q)
  }

  /** The callback of `filteredTransactions`, with its early returns. */
  predicate Matches(f: Filters, tx: Transaction)
  {
    if f.action != AllOption && ActionName(tx.action) != f.action then false
    else if f.country != AllOption && tx.country != f.country then false
    else if f.channel != AllOption && tx.channel != f.channel then false
    else if f.minAmount.Some? && tx.amount < f.minAmount.value then false
    else if f.maxAmount.Some? && tx.amount > f.maxAmount.value then false
    else if f.searchQuery != "" then SearchHit(tx, f.searchQuery)
    else true
  }

  /** The same test read as a conjunction of one condition per active filter. */
  predicate AllActiveFiltersHold(f: Filters, tx: Transaction)
  {
    && (f.action == AllOption || ActionName(tx.action) == f.action)
    && (f.country == AllOption || tx.country == f.country)
    && (f.channel == AllOption || tx.channel == f.channel)
    && (f.minAmount.None? || tx.amount >= f.minAmount.value)
    && (f.maxAmount.None? || tx.amount <= f.maxAmount.value)
    && (f.searchQuery == "" || SearchHit(tx, f.searchQuery))
  }

  lemma MatchesIsConjunction(f: Filters, tx: Transaction)
    ensures Matches(f, tx) <==> AllActiveFiltersHold(f, tx)
  {
  }

  function MatchesFilters(f: Filters): Transaction -> bool
  {
    tx => Matches(f, tx)
  }

  /** `filteredTransactions`: the matching rows, in table order. */
  function FilteredTransactions(txs: seq<Transaction>, f: Filters): (r: seq<Transaction>)
    ensures forall tx :: tx in r <==> tx in txs && AllActiveFiltersHold(f, tx)
    ensures forall tx :: multiset(r)[tx] == if AllActiveFiltersHold(f, tx) then multiset(txs)[tx] else 0
  {
    FilterMultiset(MatchesFilters(f), txs);
    forall tx ensures Matches(f, tx) <==> AllActiveFiltersHold(f, tx) {
      MatchesIsConjunction(f, tx);
    }
    Filter(MatchesFilters(f), txs)
  }

  lemma FilteredInTableOrder(txs: seq<Transaction>, f: Filters)
    ensures IsSubsequence(FilteredTransactions(txs, f), txs)
  {
    FilterIsSubsequence(MatchesFilters(f), txs);
  }

  /** Every shown row agrees with each dropdown that is not "All". */
  lemma ShownRowsMatchDropdowns(txs: seq<Transaction>, f: Filters, tx: Transaction)
    requires tx in FilteredTransactions(txs, f)
    ensures f.action != AllOption ==> ActionName(tx.action) == f.action
    ensures f.country != AllOption ==> tx.country == f.country
    ensures f.channel != AllOption ==> tx.channel == f.channel
  {
  }

  /** Every shown row lies within the amount bounds that are set. */
  lemma ShownRowsWithinAmounts(txs: seq<Transaction>, f: Filters, tx: Transaction)
    requires tx in FilteredTransactions(txs, f)
    ensures f.minAmount.Some? ==> tx.amount >= f.minAmount.value
    ensures f.maxAmount.Some? ==> tx.amount <= f.maxAmount.value
  {
  }

  /** With a query, every shown row has it in the id, merchant or country
      (ignoring case) or in the card digits. */
  lemma ShownRowsMatchQuery(txs: seq<Transaction>, f: Filters, tx: Transaction)
    requires tx in FilteredTransactions(txs, f) && f.searchQuery != ""
    ensures || Contains(ToLower(tx.id), ToLower(f.searchQuery))
            || Contains(ToLower(tx.merchant), ToLower(f.searchQuery))
            || Contains(ToLower(tx.country), ToLower(f.searchQuery))
            || Contains(tx.cardLast4, ToLower(f.searchQuery))
  {
    assert AllActiveFiltersHold(f, tx);
  }

  /** The date boxes are never read. */
  lemma DatesIgnored(txs: seq<Transaction>, f: Filters, from: string, to: string)
    ensures FilteredTransactions(txs, f.(dateFrom := from, dateTo := to)) == FilteredTransactions(txs, f)
  {
    var g := f.(dateFrom := from, dateTo := to);
    FilterExtensional(MatchesFilters(g), MatchesFilters(f), txs);
  }

  /** After Reset every transaction is shown again. */
  lemma ResetShowsAll(txs: seq<Transaction>)
    ensures FilteredTransactions(txs, DefaultFilters) == txs
  {
    FilterKeepsAll(MatchesFilters(DefaultFilters), txs);
  }

  // ---------------------------------------------------------------------------
  // Dropdowns and colours
  // ---------------------------------------------------------------------------

  /** `["All", ...Array.from(new Set(values))]`. */
  function DropdownOptions(values: seq<string>): (r: seq<string>)
    ensures |r| >= 1 && r[0] == AllOption
    ensures NoDuplicates(r[1..])
    ensures forall v :: v in r[1..] <==> v in values
    ensures forall i, j :: 1 <= i < j < |r| ==> FirstIndex(values, r[i]) < FirstIndex(values, r[j])
  {
    var d := Distinct(values);
    assert ([AllOption] + d)[1..] == d;
    [AllOption] + d
  }

  function Actions(txs: seq<Transaction>): (r: seq<string>)
    ensures |r| == |txs| && forall i :: 0 <= i < |txs| ==> r[i] == ActionName(txs[i].action)
  {
    seq(|txs|, i requires 0 <= i < |txs| => ActionName(txs[i].action))
  }

  function Countries(txs: seq<Transaction>): (r: seq<string>)
    ensures |r| == |txs| && forall i :: 0 <= i < |txs| ==> r[i] == txs[i].country
  {
    seq(|txs|, i requires 0 <= i < |txs| => txs[i].country)
  }

  function Channels(txs: seq<Transaction>): (r: seq<string>)
    ensures |r| == |txs| && forall i :: 0 <= i < |txs| ==> r[i] == txs[i].channel
  {
    seq(|txs|, i requires 0 <= i < |txs| => txs[i].channel)
  }

  /** Any country a row has is offered by the country dropdown, and choosing
      it keeps that row. */
  lemma CountryDropdownReachesEveryRow(txs: seq<Transaction>, k: nat)
    requires k < |txs|
    ensures txs[k].country in DropdownOptions(Countries(txs))[1..]
    ensures txs[k] in FilteredTransactions(txs, DefaultFilters.(country := txs[k].country))
  {
    assert Countries(txs)[k] == txs[k].country;
  }

  datatype RiskColor = RiskRed | RiskOrange | RiskGreen

  function RiskScoreColor(score: int): RiskColor
  {
    if score >= 80 then RiskRed else if score >= 50 then RiskOrange else RiskGreen
  }

  /** Each colour is a score interval. */
  lemma RiskScoreColorIntervals(score: int)
    ensures RiskScoreColor(score) == RiskRed <==> 80 <= score
    ensures RiskScoreColor(score) == RiskOrange <==> 50 <= score < 80
    ensures RiskScoreColor(score) == RiskGreen <==> score < 50
  {
  }

  // ---------------------------------------------------------------------------
  // Page state
  // ---------------------------------------------------------------------------

  class FilterPanel {
    var filters: Filters

    constructor ()
      ensures filters == DefaultFilters
    {
      filters := DefaultFilters;
    }

    /** One `setFilters({ ...filters, key: value })`. */
    method Update(f: Filters)
      modifies this`filters
      ensures filters == f
    {
      filters := f;
    }

    /** `handleReset`: every filter back to its default, so every row shows. */
    method Reset(txs: seq<Transaction>)
      modifies this`filters
      ensures filters == DefaultFilters
      ensures FilteredTransactions(txs, filters) == txs
    {
      filters := DefaultFilters;
      ResetShowsAll(txs);
    }

    function Shown(txs: seq<Transaction>): (r: seq<Transaction>)
      reads this
      ensures forall tx :: tx in r <==> tx in txs && AllActiveFiltersHold(filters, tx)
    {
      FilteredTransactions(txs, filters)
    }
  }
}
