/** The card view's query state (1-based pages, 12 cards, a fixed name
    ascending order) and its subject chips: at most three subjects are shown,
    followed by a "+n" chip for the rest. */
module TileView {
  import opened Wrappers
  import opened Strings
  import GridView

  /** The card view's variables: the page is already 1-based; an empty filter is not sent. */
  function QueryVariables(page: int, rowsPerPage: int, sortBy: string, sortOrder: string, filterName: string)
    : (v: GridView.Variables)
    ensures v.page == page && v.limit == rowsPerPage
    ensures v.sortBy == sortBy && v.sortOrder == sortOrder
    ensures v.filterName.None? <==> filterName == ""
    ensures v.filterName.Some? ==> v.filterName.value == filterName
  {
    GridView.Variables(page, rowsPerPage, sortBy, sortOrder, if filterName == "" then None else Some(filterName))
  }

  class TileViewState {
    var page: int
    var rowsPerPage: int
    var sortBy: string
    var sortOrder: string
    var filterName: string
    var searchInput: string

    /** The initial state: page 1, 12 cards, by name ascending, no filter. */
    constructor ()
      ensures page == 1 && rowsPerPage == 12 && sortBy == "name" && sortOrder == "asc"
      ensures filterName == "" && searchInput == ""
    {
      page, rowsPerPage := 1, 12;
      sortBy, sortOrder := "name", "asc";
      filterName, searchInput := "", "";
    }

    function Variables(): (v: GridView.Variables)
      reads this
      ensures v == QueryVariables(page, rowsPerPage, sortBy, sortOrder, filterName)
    {
      QueryVariables(page, rowsPerPage, sortBy, sortOrder, filterName)
    }

    /** Typing in the search box changes only the typed text. */
    method SetSearchInput(text: string)
      modifies this
      ensures searchInput == text
      ensures page == old(page) && rowsPerPage == old(rowsPerPage) && sortBy == old(sortBy)
      ensures sortOrder == old(sortOrder) && filterName == old(filterName)
    {
      searchInput := text;
    }

    /** `handleSearch`: applies the typed text and returns to page 1. */
    method HandleSearch()
      modifies this
      ensures filterName == old(searchInput) && page == 1
      ensures rowsPerPage == old(rowsPerPage) && sortBy == old(sortBy) && sortOrder == old(sortOrder)
      ensures searchInput == old(searchInput)
    {
      filterName := searchInput;
      page := 1;
    }

    /** `handlePageChange`: only the page changes. */
    method HandlePageChange(newPage: int)
      modifies this
      ensures page == newPage
      ensures rowsPerPage == old(rowsPerPage) && sortBy == old(sortBy) && sortOrder == old(sortOrder)
      ensures filterName == old(filterName) && searchInput == old(searchInput)
    {
      page := newPage;
    }
  }

  /** The chips of one card: the subjects shown and the overflow chip's label, if any. */
  datatype ChipRow = ChipRow(shown: seq<string>, overflow: Option<string>)

  const MaxChips: nat := 3

  function SubjectChips(subjects: seq<string>): (r: ChipRow)
    ensures |r.shown| <= MaxChips
    ensures |subjects| <= MaxChips ==> r.shown == subjects && r.overflow.None?
    ensures |subjects| > MaxChips ==> r.shown == subjects[..MaxChips]
    ensures r.overflow.Some? <==> |subjects| > MaxChips
    ensures r.overflow.Some? ==> r.overflow.value == "+" + NatToString(|subjects| - MaxChips)
  {
    var shown := if |subjects| <= MaxChips then subjects else subjects[..MaxChips];
    ChipRow(shown, if |subjects| > MaxChips then Some("+" + IntToString(|subjects| - MaxChips)) else None)
  }

  /** How many subjects a chip row stands for: the chips shown plus the number on the overflow chip. */
  function CountedSubjects(r: ChipRow): int {
    match r.overflow
    case None => |r.shown|
    case Some(tag) =>
      if |tag| > 1 && forall i :: 1 <= i < |tag| ==> IsDigit(tag[i])
      then |r.shown| + DigitsValue(tag[1..])
      else |r.shown|
  }

  /** No subject is lost: the shown chips and the overflow number add up to all subjects. */
  lemma ChipsAccountForAll(subjects: seq<string>)
    ensures CountedSubjects(SubjectChips(subjects)) == |subjects|
  {
    var r := SubjectChips(subjects);
    if |subjects| > MaxChips {
      var digits := NatToString(|subjects| - MaxChips);
      assert r.overflow.value[1..] == digits;
      NatToStringRoundTrip(|subjects| - MaxChips);
    }
  }
}
