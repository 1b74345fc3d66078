/** The entity-links page: four collapsible sections (device, IP address,
    merchant, card), each listing its related transactions ten to a page
    with Previous/Next buttons and a "Showing a–b of n" label. */
module EntityLinks {
  import opened Common

  const ItemsPerPage := 10

  datatype EntitySection = Device | Ip | Merchant | Card

  datatype Direction = Prev | Next

  // ---------------------------------------------------------------------------
  // Pages
  // ---------------------------------------------------------------------------

  /** `getPaginatedTransactions`: the JavaScript slice from `10 * page`. */
  function PaginatedTransactions<T>(ts: seq<T>, page: int): seq<T>
  {
    Slice(ts, page * ItemsPerPage, page * ItemsPerPage + ItemsPerPage)
  }

  /** A page is the contiguous run of at most ten items starting at `10 * page`,
      empty past the end. */
  lemma PageIsContiguousSlice<T>(ts: seq<T>, page: nat)
    ensures |PaginatedTransactions(ts, page)| <= ItemsPerPage
    ensures page * ItemsPerPage >= |ts| ==> PaginatedTransactions(ts, page) == []
    ensures page * ItemsPerPage < |ts| ==>
      PaginatedTransactions(ts, page) == ts[page * ItemsPerPage..Min(page * ItemsPerPage + ItemsPerPage, |ts|)]
  {
    var r := PaginatedTransactions(ts, page);
    if page * ItemsPerPage < |ts| {
      var want := ts[page * ItemsPerPage..Min(page * ItemsPerPage + ItemsPerPage, |ts|)];
      assert |r| == |want|;
      forall i | 0 <= i < |r| ensures r[i] == want[i] {
        assert r[i] == ts[page * ItemsPerPage + i];
      }
    }
  }

  /** `getTotalPages`: `Math.ceil(n / 10)`, the fewest pages that hold `n` items. */
  function TotalPages(n: nat): (r: nat)
    ensures r * ItemsPerPage >= n
    ensures r > 0 ==> (r - 1) * ItemsPerPage < n
  {
    (n + ItemsPerPage - 1) / ItemsPerPage
  }

  /** Pages `0 .. k-1` one after the other. */
  function Pages<T>(ts: seq<T>, k: nat): seq<T>
  {
    if k == 0 then [] else Pages(ts, k - 1) + PaginatedTransactions(ts, k - 1)
  }

  lemma {:induction false} PagesArePrefix<T>(ts: seq<T>, k: nat)
    ensures Pages(ts, k) == ts[..Min(k * ItemsPerPage, |ts|)]
  {
    if k > 0 {
      PagesArePrefix(ts, k - 1);
      PageIsContiguousSlice(ts, k - 1);
      var lo := Min((k - 1) * ItemsPerPage, |ts|);
      var hi := Min(k * ItemsPerPage, |ts|);
      if (k - 1) * ItemsPerPage < |ts| {
        assert ts[..lo] + ts[lo..hi] == ts[..hi];
      } else {
        assert lo == hi;
      }
    }
  }

  /** Reading every page in turn gives back the whole list, in order. */
  lemma PagesReassemble<T>(ts: seq<T>)
    ensures Pages(ts, TotalPages(|ts|)) == ts
  {
    PagesArePrefix(ts, TotalPages(|ts|));
    assert ts[..|ts|] == ts;
  }

  // ---------------------------------------------------------------------------
  // Navigation
  // ---------------------------------------------------------------------------

  /** `changePage`: Previous never goes below page 0, Next never past the
      last page. */
  function ChangedPage(page: int, d: Direction, totalPages: int): int
  {
    if d == Prev then Max(0, page - 1) else Min(totalPages - 1, page + 1)
  }

  predicate PrevDisabled(page: int)
  {
    page == 0
  }

  predicate NextDisabled(page: int, totalPages: int)
  {
    page >= totalPages - 1
  }

  /** The clamps only matter for a disabled button: an enabled one moves one
      page, and a page in range stays in range. */
  lemma ChangedPageInRange(page: int, d: Direction, totalPages: int)
    requires 0 <= page < totalPages
    ensures 0 <= ChangedPage(page, d, totalPages) < totalPages
    ensures d == Prev ==> ChangedPage(page, d, totalPages) == if PrevDisabled(page) then page else page - 1
    ensures d == Next ==> ChangedPage(page, d, totalPages) == if NextDisabled(page, totalPages) then page else page + 1
  {
  }

  /** The page reached by a run of clicks. */
  function AfterClicks(page: int, ds: seq<Direction>, totalPages: int): int
    decreases |ds|
  {
    if ds == [] then page else AfterClicks(ChangedPage(page, ds[0], totalPages), ds[1..], totalPages)
  }

  /** From a page in range (such as the initial page 0 of a non-empty list),
      no run of clicks leaves the page range. */
  lemma {:induction false} ClicksStayInRange(page: int, ds: seq<Direction>, totalPages: int)
    requires 0 <= page < totalPages
    ensures 0 <= AfterClicks(page, ds, totalPages) < totalPages
    decreases |ds|
  {
    if ds != [] {
      ChangedPageInRange(page, ds[0], totalPages);
      ClicksStayInRange(ChangedPage(page, ds[0], totalPages), ds[1..], totalPages);
    }
  }

  /** Next is disabled exactly when the following page would be empty. */
  lemma NextDisabledIffNoNextPage<T>(ts: seq<T>, page: nat)
    ensures NextDisabled(page, TotalPages(|ts|)) <==> PaginatedTransactions(ts, page + 1) == []
  {
    PageIsContiguousSlice(ts, page + 1);
    var t := TotalPages(|ts|);
    if (page + 1) * ItemsPerPage < |ts| {
      assert ts[(page + 1) * ItemsPerPage] == PaginatedTransactions(ts, page + 1)[0];
    }
  }

  /** The "Showing a–b of n" label. */
  function ShownRange(page: int, n: int): (int, int)
  {
    (page * ItemsPerPage + 1, Min((page + 1) * ItemsPerPage, n))
  }

  /** On a page that has items, the label names the first and the last of
      them by their 1-based position in the list. */
  lemma ShownRangeMatchesPage<T>(ts: seq<T>, page: nat)
    requires page * ItemsPerPage < |ts|
    ensures var (a, b) := ShownRange(page, |ts|);
      && 1 <= a <= b <= |ts|
      && b - a + 1 == |PaginatedTransactions(ts, page)|
      && PaginatedTransactions(ts, page)[0] == ts[a - 1]
      && PaginatedTransactions(ts, page)[b - a] == ts[b - 1]
  {
    PageIsContiguousSlice(ts, page);
  }

  // ---------------------------------------------------------------------------
  // View state
  // ---------------------------------------------------------------------------

  const AllSections: set<EntitySection> := {Device, Ip, Merchant, Card}

  class EntityLinksView {
    var expandedSections: set<EntitySection>
    var currentPages: map<EntitySection, int>

    predicate Valid()
      reads this
    {
      currentPages.Keys == AllSections
    }

    /** Every section is collapsed and on its first page. */
    constructor ()
      ensures Valid()
      ensures expandedSections == {}
      ensures forall s :: s in currentPages && currentPages[s] == 0
    {
      expandedSections := {};
      currentPages := map[Device := 0, Ip := 0, Merchant := 0, Card := 0];
      new;
      forall s ensures s in currentPages && currentPages[s] == 0 {
        match s
        case Device =>
        case Ip =>
        case Merchant =>
        case Card =>
      }
    }

    /** `toggleSection`: the section flips, no other does. */
    method ToggleSection(section: EntitySection)
      modifies this`expandedSections
      ensures expandedSections == Toggled(old(expandedSections), section)
      ensures section in expandedSections <==> section !in old(expandedSections)
    {
      expandedSections := Toggled(expandedSections, section);
    }

    /** `changePage`: one section's page moves; the other three keep theirs. */
    method ChangePage(section: EntitySection, d: Direction, totalPages: int)
      requires Valid()
      modifies this`currentPages
      ensures Valid()
      ensures currentPages == old(currentPages)[section := ChangedPage(old(currentPages)[section], d, totalPages)]
      ensures forall s :: s != section ==> currentPages[s] == old(currentPages)[s]
      ensures 0 <= old(currentPages)[section] < totalPages ==> 0 <= currentPages[section] < totalPages
    {
      if 0 <= currentPages[section] < totalPages {
        ChangedPageInRange(currentPages[section], d, totalPages);
      }
      currentPages := currentPages[section := ChangedPage(currentPages[section], d, totalPages)];
    }
  }
}
