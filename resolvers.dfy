/** The GraphQL resolvers of the employee directory: guarded mutations over
    an in-memory employee store and user list, and the cached, paginated
    employee listing. Storage order and the name filter (a regular
    expression in the source) are parameters: `arrange` stands for the
    database's find/sort and `matches` for the case-insensitive regular
    expression test. */
module Resolvers {
  import opened Wrappers
  import opened Strings
  import opened Cache
  import opened Auth

  datatype Employee = Employee(
    id: Id,
    name: string,
    age: Option<int>,
    className: Option<string>,
    subjects: seq<string>,
    attendance: Option<real>,
    createdAt: int,
    updatedAt: int)

  /** The optional fields of an `addEmployee` / `updateEmployee` request. */
  datatype EmployeeFields = EmployeeFields(
    name: Option<string>,
    age: Option<int>,
    className: Option<string>,
    subjects: Option<seq<string>>,
    attendance: Option<real>)

  datatype ApiError =
    | Unauthenticated(message: string)   // AuthenticationError
    | Forbidden(message: string)         // ForbiddenError
    | Failure(message: string)           // a plain Error

  const NotLoggedIn: string := "You must be logged in"
  const NoPermission: string := "You don't have permission to perform this action"
  const InvalidCredentials: string := "Invalid username or password"
  const AdminOnlyRegistration: string := "Only admins can create admin accounts"
  const LoginInUse: string := "Username or email already in use"

  function EmployeeNotFound(id: Id): string {
    "Employee with ID " + id + " not found"
  }

  function UserNotFound(id: Id): string {
    "User with ID " + id + " not found"
  }

  // ---------------------------------------------------------------- guards

  /** `requireAuth(user)`: passes exactly the present users. */
  function RequireAuth(user: Option<User>): (r: Result<User, ApiError>)
    ensures r.Ok? <==> user.Some?
    ensures r.Ok? ==> r.value == user.value
    ensures r.Err? ==> r.error == Unauthenticated(NotLoggedIn)
  {
    if user.None? then Err(Unauthenticated(NotLoggedIn)) else Ok(user.value)
  }

  /** `requireRole(user, roles)`: passes exactly what `checkRole` accepts. */
  function RequireRole(user: Option<User>, roles: seq<Role>): (r: Result<User, ApiError>)
    ensures r.Ok? <==> CheckRole(user, Some(roles))
    ensures r.Ok? ==> user == Some(r.value)
    ensures r.Err? ==> r.error == Forbidden(NoPermission)
  {
    if !CheckRole(user, Some(roles)) then Err(Forbidden(NoPermission)) else Ok(user.value)
  }

  /** The guard pair every admin-only resolver runs first:
      `requireAuth(user); requireRole(user, ['ADMIN'])`. */
  function AdminGuard(user: Option<User>): (r: Result<User, ApiError>)
    ensures r.Ok? <==> user.Some? && user.value.role == ADMIN
    ensures r.Ok? ==> user == Some(r.value)
    ensures user.None? ==> r == Err(Unauthenticated(NotLoggedIn))
    ensures user.Some? && user.value.role != ADMIN ==> r == Err(Forbidden(NoPermission))
  {
    match RequireAuth(user)
    case Err(e) => Err(e)
    case Ok(_) => RequireRole(user, [ADMIN])
  }

  // ------------------------------------------------------ sorting and keys

  datatype SortField = ByName | ByAge | ByClass | ByAttendance | ByCreatedAt | ByUpdatedAt

  const AllowedSortFields: seq<string> := ["name", "age", "class", "attendance", "createdAt", "updatedAt"]

  function FieldName(f: SortField): (s: string)
    ensures s in AllowedSortFields
  {
    match f
    case ByName => "name"
    case ByAge => "age"
    case ByClass => "class"
    case ByAttendance => "attendance"
    case ByCreatedAt => "createdAt"
    case ByUpdatedAt => "updatedAt"
  }

  /** The sort field after the allow-list: a listed name is kept, anything else becomes `name`. */
  function SafeSortField(sortBy: string): (f: SortField)
    ensures sortBy in AllowedSortFields ==> FieldName(f) == sortBy
    ensures sortBy !in AllowedSortFields ==> f == ByName
  {
    if sortBy == "age" then ByAge
    else if sortBy == "class" then ByClass
    else if sortBy == "attendance" then ByAttendance
    else if sortBy == "createdAt" then ByCreatedAt
    else if sortBy == "updatedAt" then ByUpdatedAt
    else ByName
  }

  lemma SafeSortFieldRoundTrip(f: SortField)
    ensures SafeSortField(FieldName(f)) == f
  {
  }

  /** The storage sort direction: -1 exactly for the literal "desc", 1 for anything else. */
  function SortDirection(sortOrder: string): (d: int)
    ensures d == -1 || d == 1
    ensures d == -1 <==> sortOrder == "desc"
  {
    if sortOrder == "desc" then -1 else 1
  }

  /** The arguments of `Query.employees`; None is an argument the client left out. */
  datatype ListArgs = ListArgs(
    page: Option<int>,
    limit: Option<int>,
    sortBy: Option<string>,
    sortOrder: Option<string>,
    filterName: Option<string>)
  {
    function Page(): int { page.GetOr(1) }
    function Limit(): int { limit.GetOr(10) }
    function SortBy(): string { sortBy.GetOr("name") }
    function SortOrder(): string { sortOrder.GetOr("asc") }
  }

  /** The page arithmetic is defined for page >= 1 and limit >= 1. */
  predicate ValidListArgs(args: ListArgs) {
    args.Page() >= 1 && args.Limit() >= 1
  }

  /** `filterName || ''`: an absent and an empty filter are the same. */
  function FilterText(filterName: Option<string>): (f: string)
    ensures f == "" <==> filterName.None? || filterName == Some("")
    ensures f != "" ==> filterName == Some(f)
  {
    filterName.GetOr("")
  }

  const EmployeeKeyPrefix: string := "employee_"

  /** The cache key of a single-employee lookup. */
  function EmployeeKey(id: Id): (k: string)
    ensures StartsWith(k, EmployeeKeyPrefix) && k[|EmployeeKeyPrefix|..] == id
  {
    EmployeeKeyPrefix + id
  }

  /** The cache key of a listing, built from the raw arguments (before the
      allow-list and the order normalisation). */
  function ListKey(args: ListArgs): (k: string)
    ensures !StartsWith(k, EmployeeKeyPrefix)
    ensures StartsWith(k, IntToString(args.Page()) + "_")
  {
    var k := IntToString(args.Page()) + "_" + IntToString(args.Limit()) + "_" + args.SortBy() + "_"
             + args.SortOrder() + "_" + FilterText(args.filterName);
    assert k[0] == IntToString(args.Page())[0];
    assert k[..|IntToString(args.Page()) + "_"|] == IntToString(args.Page()) + "_";
    k
  }

  /** The key does not tell arguments apart: a sort order that ends in the
      filter text collides with that filter. */
  lemma ListKeyNotInjective()
    ensures var a := ListArgs(None, None, None, Some("desc"), Some("a_"));
            var b := ListArgs(None, None, None, Some("desc_a"), None);
            a != b && ListKey(a) == ListKey(b)
  {
    var a := ListArgs(None, None, None, Some("desc"), Some("a_"));
    var b := ListArgs(None, None, None, Some("desc_a"), None);
    assert NatToString(1) == "1";
    assert NatToString(10) == NatToString(1) + "0";
    assert IntToString(1) == "1" && IntToString(10) == "10";
    assert ListKey(a) == "1_10_name_desc_a_";
    assert ListKey(b) == "1_10_name_desc_a_";
  }

  // ------------------------------------------------------------ page info

  datatype PageInfo = PageInfo(
    hasNextPage: bool,
    hasPreviousPage: bool,
    totalPages: int,
    totalCount: int,
    currentPage: int)

  datatype EmployeePage = EmployeePage(employees: seq<Employee>, pageInfo: PageInfo)

  /** `Math.ceil(a / b)` for a count and a positive divisor. */
  function CeilDiv(a: nat, b: int): (q: nat)
    requires b > 0
    ensures q * b >= a
    ensures (q - 1) * b < a || a == 0
    ensures a == 0 <==> q == 0
  {
    var q := (a + b - 1) / b;
    var r := (a + b - 1) % b;
    assert a + b - 1 == q * b + r && 0 <= r < b;
    assert (q - 1) * b == q * b - b;
    q
  }

  lemma MulMono(x: int, y: int, b: int)
    requires x <= y && b >= 0
    ensures x * b <= y * b
  {
    assert y * b - x * b == (y - x) * b;
  }

  /** A page number is before the last page exactly when items lie beyond it. */
  lemma {:induction false} BeforeLastPage(count: nat, limit: int, page: int)
    requires limit > 0
    ensures page < CeilDiv(count, limit) <==> page * limit < count
  {
    var q := CeilDiv(count, limit);
    if page < q {
      MulMono(page, q as int - 1, limit);
    } else {
      MulMono(q, page, limit);
    }
  }

  function Skip(page: int, limit: int): (s: nat)
    requires page >= 1 && limit >= 1
    ensures s == (page - 1) * limit
  {
    MulMono(0, page - 1, limit);
    (page - 1) * limit
  }

  function Min(a: int, b: int): int {
    if a <= b then a else b
  }

  /** `.skip(skip).limit(limit)` over an ordered result. */
  function Window<T>(ordered: seq<T>, skip: nat, limit: nat): (r: seq<T>)
    ensures |r| <= limit
    ensures skip <= |ordered| ==> |r| == Min(limit, |ordered| - skip)
    ensures skip >= |ordered| ==> r == []
    ensures forall i :: 0 <= i < |r| ==> skip + i < |ordered| && r[i] == ordered[skip + i]
  {
    if skip >= |ordered| then [] else ordered[skip..Min(skip + limit, |ordered|)]
  }

  /** Item `j` of an ordered result lies in the index range of page `j / limit + 1` and of no other page. */
  lemma PageOfIndex(limit: int, j: nat, q: int)
    requires limit >= 1
    ensures (q - 1) * limit <= j < q * limit <==> q == j / limit + 1
  {
    var p := j / limit + 1;
    assert j == (p - 1) * limit + j % limit && 0 <= j % limit < limit;
    if q < p {
      MulMono(q, p - 1, limit);
    } else if q > p {
      MulMono(p, q - 1, limit);
    } else {
      assert q * limit == (p - 1) * limit + limit;
    }
  }

  /** Entry `r` of a window is the ordered item `skip + r`, when both exist. */
  lemma WindowEntry<T>(ordered: seq<T>, skip: nat, limit: nat, r: nat)
    requires r < limit && skip + r < |ordered|
    ensures r < |Window(ordered, skip, limit)| && Window(ordered, skip, limit)[r] == ordered[skip + r]
  {
  }

  /** Every item of an ordered result is shown on a page within the page
      count: item `j` is entry `j % limit` of page `j / limit + 1`. */
  lemma ItemOnItsPage<T>(ordered: seq<T>, limit: int, j: nat)
    requires limit >= 1 && j < |ordered|
    ensures var p := j / limit + 1;
            1 <= p <= CeilDiv(|ordered|, limit)
            && j % limit < |Window(ordered, Skip(p, limit), limit)|
            && Window(ordered, Skip(p, limit), limit)[j % limit] == ordered[j]
  {
    var p := j / limit + 1;
    IndexSplit(j, limit);
    BeforeLastPage(|ordered|, limit, p - 1);
    WindowEntry(ordered, Skip(p, limit), limit, j % limit);
  }

  /** Index `j` is the skip of page `j / limit + 1` plus the offset `j % limit`. */
  lemma IndexSplit(j: nat, limit: int)
    requires limit >= 1
    ensures j % limit < limit && (j / limit) * limit <= j
    ensures Skip(j / limit + 1, limit) + j % limit == j
  {
    var q := j / limit;
    assert j == q * limit + j % limit;
    assert (q + 1 - 1) * limit == q * limit;
  }

  /** The employee names the filter selects; an empty or absent filter selects all. */
  function Matching(employees: map<Id, Employee>, filterName: Option<string>, matches: (string, string) -> bool)
    : (m: map<Id, Employee>)
    ensures m.Keys <= employees.Keys
    ensures forall id :: id in m ==> m[id] == employees[id]
    ensures FilterText(filterName) == "" ==> m == employees
    ensures FilterText(filterName) != "" ==>
              forall id :: id in employees ==> (id in m <==> matches(FilterText(filterName), employees[id].name))
  {
    var pattern := FilterText(filterName);
    if pattern == "" then employees
    else map id | id in employees && matches(pattern, employees[id].name) :: employees[id]
  }

  /** The storage query `find(filter).sort({field: direction})`, abstracted. */
  type Arrangement = (map<Id, Employee>, SortField, int) -> seq<Employee>

  /** The `pageInfo` of a listing with `totalCount` matches. */
  function Paging(totalCount: nat, page: int, limit: int): (info: PageInfo)
    requires page >= 1 && limit >= 1
    ensures info.totalCount == totalCount && info.currentPage == page
    ensures info.totalPages * limit >= totalCount
    ensures (info.totalPages - 1) * limit < totalCount || totalCount == 0
    ensures info.totalPages == 0 <==> totalCount == 0
    ensures info.hasNextPage <==> page * limit < totalCount
    ensures info.hasPreviousPage <==> page > 1
  {
    var totalPages := CeilDiv(totalCount, limit);
    BeforeLastPage(totalCount, limit, page);
    PageInfo(page < totalPages, page > 1, totalPages, totalCount, page)
  }

  /** A listing computed from storage (the cache-miss path). */
  function ComputePage(
    employees: map<Id, Employee>, args: ListArgs,
    matches: (string, string) -> bool, arrange: Arrangement): (r: EmployeePage)
    requires ValidListArgs(args)
    ensures var matching := Matching(employees, args.filterName, matches);
            && r.pageInfo.totalCount == |matching|
            && r.pageInfo.totalPages * args.Limit() >= |matching|
            && ((r.pageInfo.totalPages - 1) * args.Limit() < |matching| || |matching| == 0)
            && r.employees == Window(arrange(matching, SafeSortField(args.SortBy()), SortDirection(args.SortOrder())),
                                     Skip(args.Page(), args.Limit()), args.Limit())
    ensures r.pageInfo.currentPage == args.Page()
    ensures r.pageInfo.hasNextPage <==> args.Page() * args.Limit() < r.pageInfo.totalCount
    ensures r.pageInfo.hasPreviousPage <==> args.Page() > 1
    ensures r.pageInfo.totalPages == 0 <==> r.pageInfo.totalCount == 0
    ensures |r.employees| <= args.Limit()
  {
    var page, limit := args.Page(), args.Limit();
    var matching := Matching(employees, args.filterName, matches);
    var ordered := arrange(matching, SafeSortField(args.SortBy()), SortDirection(args.SortOrder()));
    EmployeePage(Window(ordered, Skip(page, limit), limit), Paging(|matching|, page, limit))
  }

  /** A sort field outside the allow-list lists exactly like `name`. */
  lemma SortFieldInjectionResistance(
    employees: map<Id, Employee>, args: ListArgs, bad: string,
    matches: (string, string) -> bool, arrange: Arrangement)
    requires ValidListArgs(args) && bad !in AllowedSortFields
    ensures ComputePage(employees, args.(sortBy := Some(bad)), matches, arrange)
         == ComputePage(employees, args.(sortBy := Some("name")), matches, arrange)
  {
  }

  // ----------------------------------------------------------------- cache

  /** What the resolver cache holds: listing pages and single employees. */
  datatype Cached = CachedPage(page: EmployeePage) | CachedEmployee(employee: Employee)

  /** Single employees sit exactly under `employee_` keys, each under its
      own id's key, and pages under the others. */
  predicate CacheTyped(entries: map<string, Entry<Cached>>) {
    forall k :: k in entries ==>
      && (entries[k].value.CachedEmployee? <==> StartsWith(k, EmployeeKeyPrefix))
      && (entries[k].value.CachedEmployee? ==> k == EmployeeKey(entries[k].value.employee.id))
  }

  lemma EmployeeKeyInjective(a: Id, b: Id)
    requires EmployeeKey(a) == EmployeeKey(b)
    ensures a == b
  {
    assert EmployeeKey(a)[|EmployeeKeyPrefix|..] == a;
  }

  /** `Query.employees`: the cached page while fresh, otherwise a page
      computed from storage and cached under the listing key. The result and
      the new cache. */
  function ListQuery(
    entries: map<string, Entry<Cached>>, employees: map<Id, Employee>, args: ListArgs, now: int,
    matches: (string, string) -> bool, arrange: Arrangement): (res: (EmployeePage, map<string, Entry<Cached>>))
    requires ValidListArgs(args) && CacheTyped(entries)
    ensures CacheTyped(res.1)
    ensures Lookup(entries, ListKey(args), now).Some? ==>
              res.1 == entries && res.0 == Lookup(entries, ListKey(args), now).value.page
    ensures Lookup(entries, ListKey(args), now).None? ==>
              res.0 == ComputePage(employees, args, matches, arrange)
              && res.1 == entries[ListKey(args) := Entry(CachedPage(res.0), now)]
  {
    var key := ListKey(args);
    var hit := Lookup(entries, key, now);
    if hit.Some? then
      (hit.value.page, entries)
    else
      var p := ComputePage(employees, args, matches, arrange);
      (p, AfterLookup(entries, key, now)[key := Entry(CachedPage(p), now)])
  }

  /** A hit answers without storage: the listing is the same whatever the
      store, the filter test and the order then are. */
  lemma ListHitIgnoresStorage(
    entries: map<string, Entry<Cached>>, args: ListArgs, now: int,
    employees1: map<Id, Employee>, matches1: (string, string) -> bool, arrange1: Arrangement,
    employees2: map<Id, Employee>, matches2: (string, string) -> bool, arrange2: Arrangement)
    requires ValidListArgs(args) && CacheTyped(entries)
    requires Lookup(entries, ListKey(args), now).Some?
    ensures ListQuery(entries, employees1, args, now, matches1, arrange1)
         == ListQuery(entries, employees2, args, now, matches2, arrange2)
  {
  }

  /** A listing that missed the cache at t1 is answered identically at any
      t2 up to Ttl later, even if storage changed in between. */
  lemma RepeatedListingWithinTtl(
    entries: map<string, Entry<Cached>>, args: ListArgs, t1: int, t2: int,
    employees1: map<Id, Employee>, matches1: (string, string) -> bool, arrange1: Arrangement,
    employees2: map<Id, Employee>, matches2: (string, string) -> bool, arrange2: Arrangement)
    requires ValidListArgs(args) && CacheTyped(entries)
    requires Lookup(entries, ListKey(args), t1).None?
    requires t2 - t1 <= Ttl
    ensures var first := ListQuery(entries, employees1, args, t1, matches1, arrange1);
            ListQuery(first.1, employees2, args, t2, matches2, arrange2) == first
  {
    var first := ListQuery(entries, employees1, args, t1, matches1, arrange1);
    StoreThenLookup(entries, ListKey(args), CachedPage(first.0), t1, t2);
  }

  /** More than Ttl after the cache was filled, the listing is recomputed from storage. */
  lemma StaleListingRecomputed(
    entries: map<string, Entry<Cached>>, args: ListArgs, t1: int, t2: int,
    employees1: map<Id, Employee>, matches1: (string, string) -> bool, arrange1: Arrangement,
    employees2: map<Id, Employee>, matches2: (string, string) -> bool, arrange2: Arrangement)
    requires ValidListArgs(args) && CacheTyped(entries)
    requires Lookup(entries, ListKey(args), t1).None?
    requires t2 - t1 > Ttl
    ensures var first := ListQuery(entries, employees1, args, t1, matches1, arrange1);
            ListQuery(first.1, employees2, args, t2, matches2, arrange2).0
            == ComputePage(employees2, args, matches2, arrange2)
  {
    var first := ListQuery(entries, employees1, args, t1, matches1, arrange1);
    StoreThenLookup(entries, ListKey(args), CachedPage(first.0), t1, t2);
  }

  /** `Query.employee`: the cached record while fresh, otherwise the stored
      one (cached under `employee_<id>`), or None when there is none. */
  function EmployeeQuery(entries: map<string, Entry<Cached>>, employees: map<Id, Employee>, id: Id, now: int)
    : (res: (Option<Employee>, map<string, Entry<Cached>>))
    requires CacheTyped(entries) && Keyed(employees)
    ensures CacheTyped(res.1)
    ensures res.0.Some? ==> res.0.value.id == id
    ensures Lookup(entries, EmployeeKey(id), now).Some? ==>
              res.1 == entries && res.0 == Some(Lookup(entries, EmployeeKey(id), now).value.employee)
    ensures Lookup(entries, EmployeeKey(id), now).None? ==>
              (res.0.Some? <==> id in employees)
              && (id in employees ==>
                    res.0 == Some(employees[id])
                    && res.1 == entries[EmployeeKey(id) := Entry(CachedEmployee(employees[id]), now)])
              && (id !in employees ==> res.1 == AfterLookup(entries, EmployeeKey(id), now))
  {
    var key := EmployeeKey(id);
    var hit := Lookup(entries, key, now);
    if hit.Some? then
      EmployeeKeyInjective(entries[key].value.employee.id, id);
      (Some(hit.value.employee), entries)
    else if id in employees then
      var e := employees[id];
      (Some(e), AfterLookup(entries, key, now)[key := Entry(CachedEmployee(e), now)])
    else
      (None, AfterLookup(entries, key, now))
  }

  /** After any write has emptied the cache, the next listing reflects storage. */
  lemma ListingAfterWriteIsFresh(
    employees: map<Id, Employee>, args: ListArgs, now: int,
    matches: (string, string) -> bool, arrange: Arrangement)
    requires ValidListArgs(args)
    ensures ListQuery(map[], employees, args, now, matches, arrange).0 == ComputePage(employees, args, matches, arrange)
  {
  }

  // ----------------------------------------------------------------- users

  datatype AuthPayload = AuthPayload(token: string, user: User)

  /** Ids, usernames and emails are each unique among the users. */
  ghost predicate UniqueUsers(users: seq<User>) {
    forall i, j :: 0 <= i < j < |users| ==>
      users[i].id != users[j].id && users[i].username != users[j].username && users[i].email != users[j].email
  }

  /** `User.findOne({username})`. */
  function FindByUsername(users: seq<User>, username: string): (r: Option<User>)
    ensures r.Some? ==> r.value in users && r.value.username == username
    ensures r.None? ==> forall u :: u in users ==> u.username != username
  {
    FindUser(users, (u: User) => u.username == username)
  }

  /** With unique usernames, looking a stored user's username up finds that user. */
  lemma {:induction false} FindOwnUsername(users: seq<User>, u: User)
    requires UniqueUsers(users) && u in users
    ensures FindByUsername(users, u.username) == Some(u)
  {
    if users[0] != u {
      var j :| 0 <= j < |users| && users[j] == u;
      assert j > 0;
      assert users[0].username != u.username;
      assert users[1..][j - 1] == u;
      assert UniqueUsers(users[1..]) by {
        forall i, k | 0 <= i < k < |users[1..]|
          ensures users[1..][i].id != users[1..][k].id
          ensures users[1..][i].username != users[1..][k].username
          ensures users[1..][i].email != users[1..][k].email
        {
          assert users[1..][i] == users[i + 1] && users[1..][k] == users[k + 1];
        }
      }
      FindOwnUsername(users[1..], u);
    }
  }

  /** `login(username, password)`: a token for the user whose stored digest
      matches, or one and the same error whichever of the two was wrong.
      `compare` stands for the hash library's verify and `sign` for token issuance. */
  function Login(users: seq<User>, username: string, password: string,
                 compare: (string, string) -> bool, sign: Id -> string): (r: Result<AuthPayload, ApiError>)
    ensures r.Err? ==> r.error == Unauthenticated(InvalidCredentials)
    ensures r.Ok? ==> r.value.user in users && r.value.user.username == username
                      && compare(password, r.value.user.password) && r.value.token == sign(r.value.user.id)
    ensures (forall u :: u in users ==> u.username != username) ==> r.Err?
  {
    match FindByUsername(users, username)
    case None => Err(Unauthenticated(InvalidCredentials))
    case Some(u) =>
      if !compare(password, u.password) then Err(Unauthenticated(InvalidCredentials))
      else Ok(AuthPayload(sign(u.id), u))
  }

  /** With unique usernames, login succeeds exactly for a stored user whose digest matches. */
  lemma LoginExactly(users: seq<User>, username: string, password: string,
                     compare: (string, string) -> bool, sign: Id -> string)
    requires UniqueUsers(users)
    ensures Login(users, username, password, compare, sign).Ok?
            <==> exists u :: u in users && u.username == username && compare(password, u.password)
  {
    if u :| u in users && u.username == username && compare(password, u.password) {
      FindOwnUsername(users, u);
    }
  }

  /** Users filtered by an optional role, in storage order (`User.find(filter)`). */
  function UsersWithRole(users: seq<User>, role: Option<Role>): (r: seq<User>)
    ensures |r| <= |users|
    ensures forall u :: u in r <==> u in users && (role.None? || u.role == role.value)
    ensures role.None? ==> r == users
  {
    if users == [] then []
    else
      var rest := UsersWithRole(users[1..], role);
      assert forall u :: u in users <==> u == users[0] || u in users[1..];
      if role.None? || users[0].role == role.value then [users[0]] + rest else rest
  }

  /** `Query.users(role)`: admin only. */
  function ListUsers(users: seq<User>, caller: Option<User>, role: Option<Role>): (r: Result<seq<User>, ApiError>)
    ensures r.Ok? <==> AdminGuard(caller).Ok?
    ensures r.Err? ==> r.error == AdminGuard(caller).error
    ensures r.Ok? ==> forall u :: u in r.value <==> u in users && (role.None? || u.role == role.value)
  {
    match AdminGuard(caller)
    case Err(e) => Err(e)
    case Ok(_) => Ok(UsersWithRole(users, role))
  }

  /** Position of the user with id `id`, if any. */
  function UserIndex(users: seq<User>, id: Id): (r: Option<nat>)
    ensures r.Some? ==> r.value < |users| && users[r.value].id == id
    ensures r.None? ==> forall u :: u in users ==> u.id != id
  {
    if users == [] then None
    else if users[0].id == id then Some(0)
    else match UserIndex(users[1..], id)
      case None => None
      case Some(i) => Some(i + 1)
  }

  /** Replacing a user by one with the same id, username and email keeps the users unique. */
  lemma ReplaceKeepsUnique(users: seq<User>, i: nat, u: User)
    requires UniqueUsers(users) && i < |users|
    requires u.id == users[i].id && u.username == users[i].username && u.email == users[i].email
    ensures UniqueUsers(users[i := u])
  {
  }

  /** Registration after a successful `register` can log straight in, given
      that the hash library verifies a password against its own digest. */
  lemma LoginAfterRegister(users: seq<User>, nu: User, password: string,
                           hash: string -> string, compare: (string, string) -> bool, sign: Id -> string)
    requires UniqueUsers(users + [nu])
    requires nu.password == hash(password) && compare(password, hash(password))
    ensures Login(users + [nu], nu.username, password, compare, sign) == Ok(AuthPayload(sign(nu.id), nu))
  {
    FindOwnUsername(users + [nu], nu);
  }

  // ------------------------------------------------------------- employees

  /** Stored employees are filed under their own id. */
  ghost predicate Keyed(employees: map<Id, Employee>) {
    forall id :: id in employees ==> employees[id].id == id
  }

  /** The record `new Employee(args).save()` creates. */
  function NewEmployee(id: Id, fields: EmployeeFields, now: int): (e: Employee)
    requires fields.name.Some?
    ensures e.id == id && e.name == fields.name.value && e.createdAt == now && e.updatedAt == now
    ensures e.age == fields.age && e.className == fields.className && e.attendance == fields.attendance
    ensures e.subjects == fields.subjects.GetOr([])
  {
    Employee(id, fields.name.value, fields.age, fields.className, fields.subjects.GetOr([]),
             fields.attendance, now, now)
  }

  /** The record after a partial update: given fields replace, absent ones are kept. */
  function ApplyUpdate(e: Employee, updates: EmployeeFields, now: int): (r: Employee)
    ensures r.id == e.id && r.createdAt == e.createdAt && r.updatedAt == now
    ensures r.name == updates.name.GetOr(e.name) && r.age == (if updates.age.Some? then updates.age else e.age)
    ensures r.className == (if updates.className.Some? then updates.className else e.className)
    ensures r.subjects == updates.subjects.GetOr(e.subjects)
    ensures r.attendance == (if updates.attendance.Some? then updates.attendance else e.attendance)
    ensures updates == EmployeeFields(None, None, None, None, None) ==> r == e.(updatedAt := now)
  {
    e.(name := updates.name.GetOr(e.name),
       age := if updates.age.Some? then updates.age else e.age,
       className := if updates.className.Some? then updates.className else e.className,
       subjects := updates.subjects.GetOr(e.subjects),
       attendance := if updates.attendance.Some? then updates.attendance else e.attendance,
       updatedAt := now)
  }

  /** The resolver state: the employee and user collections and the result cache. */
  class Api {
    var employees: map<Id, Employee>
    var users: seq<User>
    const cache: ResultCache<Cached>

    ghost predicate Valid()
      reads this, cache
    {
      CacheTyped(cache.entries) && Keyed(employees) && UniqueUsers(users)
    }

    constructor ()
      ensures Valid() && fresh(cache)
      ensures employees == map[] && users == [] && cache.entries == map[]
    {
      employees := map[];
      users := [];
      cache := new ResultCache();
    }

    /** `Query.employees`. */
    method Employees(args: ListArgs, now: int, matches: (string, string) -> bool, arrange: Arrangement)
      returns (result: EmployeePage)
      requires Valid() && ValidListArgs(args)
      modifies cache
      ensures Valid()
      ensures (result, cache.entries) == ListQuery(old(cache.entries), employees, args, now, matches, arrange)
    {
      var key := ListKey(args);
      var cached := cache.Get(key, now);
      if cached.Some? {
        return cached.value.page;
      }
      result := ComputePage(employees, args, matches, arrange);
      cache.Set(key, CachedPage(result), now);
    }

    /** `Query.employee(id)`. */
    method EmployeeById(id: Id, now: int) returns (result: Option<Employee>)
      requires Valid()
      modifies cache
      ensures Valid()
      ensures (result, cache.entries) == EmployeeQuery(old(cache.entries), employees, id, now)
      ensures result.Some? ==> result.value.id == id
    {
      var key := EmployeeKey(id);
      var cached := cache.Get(key, now);
      if cached.Some? {
        return Some(cached.value.employee);
      }
      if id in employees {
        var e := employees[id];
        cache.Set(key, CachedEmployee(e), now);
        return Some(e);
      }
      return None;
    }

    /** `User.employee`: the linked employee record, if the link is set and resolves. */
    function LinkedEmployee(user: User): (r: Option<Employee>)
      requires Valid()
      reads this, cache
      ensures r.Some? ==> user.employeeId == Some(r.value.id) && r.value.id in employees
      ensures user.employeeId.None? ==> r.None?
      ensures user.employeeId.Some? && user.employeeId.value in employees ==>
                r == Some(employees[user.employeeId.value])
      ensures user.employeeId.Some? && user.employeeId.value !in employees ==> r.None?
    {
      match user.employeeId
      case None => None
      case Some(eid) => if eid in employees then Some(employees[eid]) else None
    }

    /** `Mutation.addEmployee`: guards, then the insert, then a full cache flush. */
    method AddEmployee(caller: Option<User>, fields: EmployeeFields, newId: Id, now: int)
      returns (r: Result<Employee, ApiError>)
      requires Valid() && fields.name.Some? && newId !in employees
      modifies this, cache
      ensures Valid() && users == old(users)
      ensures AdminGuard(caller).Err? ==>
                r == Err(AdminGuard(caller).error)
                && employees == old(employees) && cache.entries == old(cache.entries)
      ensures AdminGuard(caller).Ok? ==>
                r == Ok(NewEmployee(newId, fields, now))
                && employees == old(employees)[newId := r.value] && cache.entries == map[]
    {
      var auth := RequireAuth(caller);
      if auth.Err? { return Err(auth.error); }
      var role := RequireRole(caller, [ADMIN]);
      if role.Err? { return Err(role.error); }
      var e := NewEmployee(newId, fields, now);
      employees := employees[newId := e];
      cache.InvalidateAll();
      return Ok(e);
    }

    /** `Mutation.updateEmployee`: guards, the update, the not-found check,
        then the single-key and the full invalidation. */
    method UpdateEmployee(caller: Option<User>, id: Id, updates: EmployeeFields, now: int)
      returns (r: Result<Employee, ApiError>)
      requires Valid()
      modifies this, cache
      ensures Valid() && users == old(users)
      ensures AdminGuard(caller).Err? ==>
                r == Err(AdminGuard(caller).error)
                && employees == old(employees) && cache.entries == old(cache.entries)
      ensures AdminGuard(caller).Ok? && id !in old(employees) ==>
                r == Err(Failure(EmployeeNotFound(id)))
                && employees == old(employees) && cache.entries == old(cache.entries)
      ensures AdminGuard(caller).Ok? && id in old(employees) ==>
                r == Ok(ApplyUpdate(old(employees)[id], updates, now))
                && employees == old(employees)[id := r.value] && cache.entries == map[]
    {
      var auth := RequireAuth(caller);
      if auth.Err? { return Err(auth.error); }
      var role := RequireRole(caller, [ADMIN]);
      if role.Err? { return Err(role.error); }
      if id !in employees {
        return Err(Failure(EmployeeNotFound(id)));
      }
      var e := ApplyUpdate(employees[id], updates, now);
      employees := employees[id := e];
      cache.Invalidate(EmployeeKey(id));
      cache.InvalidateAll();
      return Ok(e);
    }

    /** `Mutation.deleteEmployee`: guards, the delete, the not-found check,
        then the invalidation; answers true. */
    method DeleteEmployee(caller: Option<User>, id: Id) returns (r: Result<bool, ApiError>)
      requires Valid()
      modifies this, cache
      ensures Valid() && users == old(users)
      ensures AdminGuard(caller).Err? ==>
                r == Err(AdminGuard(caller).error)
                && employees == old(employees) && cache.entries == old(cache.entries)
      ensures AdminGuard(caller).Ok? && id !in old(employees) ==>
                r == Err(Failure(EmployeeNotFound(id)))
                && employees == old(employees) && cache.entries == old(cache.entries)
      ensures AdminGuard(caller).Ok? && id in old(employees) ==>
                r == Ok(true) && employees == old(employees) - {id} && cache.entries == map[]
    {
      var auth := RequireAuth(caller);
      if auth.Err? { return Err(auth.error); }
      var role := RequireRole(caller, [ADMIN]);
      if role.Err? { return Err(role.error); }
      if id !in employees {
        return Err(Failure(EmployeeNotFound(id)));
      }
      employees := employees - {id};
      cache.Invalidate(EmployeeKey(id));
      cache.InvalidateAll();
      return Ok(true);
    }

    /** `Mutation.register`: an ADMIN account needs an admin caller; the
        username and email must be unused; the new user is saved through the
        pre-save hook (so stored with the digest) and gets a token at once. */
    method Register(caller: Option<User>, username: string, password: string, email: string, name: string,
                    role: Option<Role>, newId: Id, hash: string -> string, sign: Id -> string)
      returns (r: Result<AuthPayload, ApiError>)
      requires Valid()
      requires forall u :: u in users ==> u.id != newId
      modifies this
      ensures Valid() && employees == old(employees)
      ensures role == Some(ADMIN) && !(caller.Some? && caller.value.role == ADMIN) ==>
                r == Err(Forbidden(AdminOnlyRegistration)) && users == old(users)
      ensures !(role == Some(ADMIN) && !(caller.Some? && caller.value.role == ADMIN))
              && (exists u :: u in old(users) && (u.username == username || u.email == email)) ==>
                r == Err(Failure(LoginInUse)) && users == old(users)
      ensures r.Ok? ==>
                r.value.user == User(newId, username, hash(password), email, name, role.GetOr(EMPLOYEE), None)
                && r.value.token == sign(newId)
                && users == old(users) + [r.value.user]
      ensures r.Err? ==> users == old(users)
      ensures r.Err? <==>
                (role == Some(ADMIN) && !(caller.Some? && caller.value.role == ADMIN))
                || (exists u :: u in old(users) && (u.username == username || u.email == email))
    {
      var requested := role.GetOr(EMPLOYEE);
      if requested == ADMIN {
        if caller.None? || caller.value.role != ADMIN {
          return Err(Forbidden(AdminOnlyRegistration));
        }
      }
      if exists u :: u in users && (u.username == username || u.email == email) {
        return Err(Failure(LoginInUse));
      }
      var doc := new UserDocument.Create(newId, username, password, email, name, Some(requested));
      var stored := doc.Save(hash);
      users := users + [stored];
      return Ok(AuthPayload(sign(newId), stored));
    }

    /** `Mutation.assignEmployeeToUser`: admin only; links the user to an
        employee id (not checked to exist). */
    method AssignEmployeeToUser(caller: Option<User>, userId: Id, employeeId: Id)
      returns (r: Result<User, ApiError>)
      requires Valid()
      modifies this
      ensures Valid() && employees == old(employees)
      ensures AdminGuard(caller).Err? ==> r == Err(AdminGuard(caller).error) && users == old(users)
      ensures AdminGuard(caller).Ok? && UserIndex(old(users), userId).None? ==>
                r == Err(Failure(UserNotFound(userId))) && users == old(users)
      ensures AdminGuard(caller).Ok? && UserIndex(old(users), userId).Some? ==>
                var i := UserIndex(old(users), userId).value;
                r == Ok(old(users)[i].(employeeId := Some(employeeId))) && users == old(users)[i := r.value]
    {
      var auth := RequireAuth(caller);
      if auth.Err? { return Err(auth.error); }
      var role := RequireRole(caller, [ADMIN]);
      if role.Err? { return Err(role.error); }
      var found := UserIndex(users, userId);
      if found.None? {
        return Err(Failure(UserNotFound(userId)));
      }
      var i := found.value;
      var updated := users[i].(employeeId := Some(employeeId));
      ReplaceKeepsUnique(users, i, updated);
      users := users[i := updated];
      return Ok(updated);
    }

    /** `Mutation.updateUserRole`: admin only; the stored digest is untouched. */
    method UpdateUserRole(caller: Option<User>, userId: Id, newRole: Role)
      returns (r: Result<User, ApiError>)
      requires Valid()
      modifies this
      ensures Valid() && employees == old(employees)
      ensures AdminGuard(caller).Err? ==> r == Err(AdminGuard(caller).error) && users == old(users)
      ensures AdminGuard(caller).Ok? && UserIndex(old(users), userId).None? ==>
                r == Err(Failure(UserNotFound(userId))) && users == old(users)
      ensures AdminGuard(caller).Ok? && UserIndex(old(users), userId).Some? ==>
                var i := UserIndex(old(users), userId).value;
                r == Ok(old(users)[i].(role := newRole)) && users == old(users)[i := r.value]
                && r.value.password == old(users)[i].password
    {
      var auth := RequireAuth(caller);
      if auth.Err? { return Err(auth.error); }
      var role := RequireRole(caller, [ADMIN]);
      if role.Err? { return Err(role.error); }
      var found := UserIndex(users, userId);
      if found.None? {
        return Err(Failure(UserNotFound(userId)));
      }
      var i := found.value;
      var updated := users[i].(role := newRole);
      ReplaceKeepsUnique(users, i, updated);
      users := users[i := updated];
      return Ok(updated);
    }
  }
}
