/** The table view's query state: which page (0-based here), how many rows,
    the sort column and direction, the applied and the typed search text,
    and the variables of the listing query built from them. */
module GridView {
  import opened Wrappers
  import Resolvers

  /** The variables of the listing query as the client sends them; None is an omitted variable. */
  datatype Variables = Variables(page: int, limit: int, sortBy: string, sortOrder: string, filterName: Option<string>)

  /** The table's variables: the 0-based page is sent 1-based, an empty filter is not sent. */
  function QueryVariables(page: int, rowsPerPage: int, sortBy: string, sortOrder: string, filterName: string)
    : (v: Variables)
    ensures v.page == page + 1 && v.limit == rowsPerPage
    ensures v.sortBy == sortBy && v.sortOrder == sortOrder
    ensures page >= 0 ==> v.page >= 1
    ensures v.filterName.None? <==> filterName == ""
    ensures v.filterName.Some? ==> v.filterName.value == filterName
  {
    Variables(page + 1, rowsPerPage, sortBy, sortOrder, if filterName == "" then None else Some(filterName))
  }

  /** The arguments the listing resolver receives for these variables. */
  function AsListArgs(v: Variables): Resolvers.ListArgs {
    Resolvers.ListArgs(Some(v.page), Some(v.limit), Some(v.sortBy), Some(v.sortOrder), v.filterName)
  }

  /** What the table asks for is what the resolver pages by: a non-negative
      page and positive row count give valid arguments, the resolver's page
      is the table's page plus one, and the filter text it keys and filters
      by is the table's filter. */
  lemma VariablesReachResolver(page: int, rowsPerPage: int, sortBy: string, sortOrder: string, filterName: string)
    requires page >= 0 && rowsPerPage >= 1
    ensures var args := AsListArgs(QueryVariables(page, rowsPerPage, sortBy, sortOrder, filterName));
            && Resolvers.ValidListArgs(args)
            && args.Page() == page + 1 && args.Limit() == rowsPerPage
            && Resolvers.FilterText(args.filterName) == filterName
  {
  }

  datatype SortState = SortState(sortBy: string, sortOrder: string)

  /** `handleSort(property)`: the column becomes `property`; the direction is
      "desc" exactly when that column was already sorted ascending. */
  function ToggleSort(s: SortState, property: string): (t: SortState)
    ensures t.sortBy == property
    ensures t.sortOrder == "desc" <==> s.sortBy == property && s.sortOrder == "asc"
    ensures t.sortOrder == "asc" || t.sortOrder == "desc"
  {
    var isAsc := s.sortBy == property && s.sortOrder == "asc";
    SortState(property, if isAsc then "desc" else "asc")
  }

  /** After the first click on a column, further clicks alternate the
      direction, so two more clicks restore it. */
  lemma ToggleAlternates(s: SortState, property: string)
    ensures var t := ToggleSort(s, property);
            ToggleSort(t, property).sortOrder != t.sortOrder
            && ToggleSort(ToggleSort(t, property), property) == t
  {
  }

  /** A column sorted ascending comes back ascending after two clicks; a new column starts ascending. */
  lemma TwoClicksFromAscending(s: SortState, property: string)
    ensures s.sortBy != property ==> ToggleSort(s, property) == SortState(property, "asc")
    ensures s == SortState(property, "asc") ==> ToggleSort(ToggleSort(s, property), property) == s
  {
  }

  /** The resolver sorts descending after a click exactly when the clicked
      column was already sorted ascending. */
  lemma ToggledDirectionReachesResolver(s: SortState, property: string)
    ensures Resolvers.SortDirection(ToggleSort(s, property).sortOrder) == -1
            <==> s.sortBy == property && s.sortOrder == "asc"
  {
  }

  class GridViewState {
    var page: int
    var rowsPerPage: int
    var sortBy: string
    var sortOrder: string
    var filterName: string
    var searchInput: string

    /** The initial state: first page, 10 rows, by name ascending, no filter. */
    constructor ()
      ensures page == 0 && rowsPerPage == 10 && sortBy == "name" && sortOrder == "asc"
      ensures filterName == "" && searchInput == ""
    {
      page, rowsPerPage := 0, 10;
      sortBy, sortOrder := "name", "asc";
      filterName, searchInput := "", "";
    }

    function Variables(): (v: Variables)
      reads this
      ensures v == QueryVariables(page, rowsPerPage, sortBy, sortOrder, filterName)
    {
      QueryVariables(page, rowsPerPage, sortBy, sortOrder, filterName)
    }

    /** Typing in the search box changes only the typed text. */
    method SetSearchInput(text: string)
      modifies this
      ensures searchInput == text
      ensures page == old(page) && rowsPerPage == old(rowsPerPage) && sortBy == old(sortBy)
      ensures sortOrder == old(sortOrder) && filterName == old(filterName)
    {
      searchInput := text;
    }

    method HandleSort(property: string)
      modifies this
      ensures SortState(sortBy, sortOrder) == ToggleSort(old(SortState(sortBy, sortOrder)), property)
      ensures page == old(page) && rowsPerPage == old(rowsPerPage)
      ensures filterName == old(filterName) && searchInput == old(searchInput)
    {
      var isAsc := sortBy == property && sortOrder == "asc";
      sortOrder := if isAsc then "desc" else "asc";
      sortBy := property;
    }

    /** `handleSearch`: applies the typed text and returns to the first page. */
    method HandleSearch()
      modifies this
      ensures filterName == old(searchInput) && page == 0
      ensures rowsPerPage == old(rowsPerPage) && sortBy == old(sortBy) && sortOrder == old(sortOrder)
      ensures searchInput == old(searchInput)
    {
      filterName := searchInput;
      page := 0;
    }

    /** `handleChangePage`: only the page changes. */
    method HandleChangePage(newPage: int)
      modifies this
      ensures page == newPage
      ensures rowsPerPage == old(rowsPerPage) && sortBy == old(sortBy) && sortOrder == old(sortOrder)
      ensures filterName == old(filterName) && searchInput == old(searchInput)
    {
      page := newPage;
    }

    /** `handleChangeRowsPerPage`: the new row count, back to the first page. */
    method HandleChangeRowsPerPage(rows: int)
      modifies this
      ensures rowsPerPage == rows && page == 0
      ensures sortBy == old(sortBy) && sortOrder == old(sortOrder)
      ensures filterName == old(filterName) && searchInput == old(searchInput)
    {
      rowsPerPage := rows;
      page := 0;
    }
  }
}
