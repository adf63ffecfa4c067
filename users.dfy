/** The users page: the expandable-row set, the all-fields search, fixed page-size pagination
    with Previous and Next, the latest-record health cell and the statistic cards. */
module Users {
  import opened Wrappers
  import opened Seqs
  import Text
  import opened JsNumber
  import opened JsValue
  import opened MockData

  // ---------------------------------------------------------------- expanded rows

  /** The expanded-row set after toggling `id`: removed when present, added when absent. */
  function Toggled(rows: set<string>, id: string): (r: set<string>)
    ensures id in r <==> id !in rows
    ensures forall x :: x != id ==> (x in r <==> x in rows)
  {
    if id in rows then rows - {id} else rows + {id}
  }

  /** Toggling the same row twice restores the set. */
  lemma ToggleTwice(rows: set<string>, id: string)
    ensures Toggled(Toggled(rows, id), id) == rows
  {
  }

  /** Toggles of two different rows commute. */
  lemma TogglesCommute(rows: set<string>, a: string, b: string)
    ensures Toggled(Toggled(rows, a), b) == Toggled(Toggled(rows, b), a)
  {
  }

  // ---------------------------------------------------------------- search

  /** `Object.values(user)`, in the order the seed objects list their keys. */
  function UserValues(u: User): (vs: seq<Value>)
    ensures |vs| == 9
    ensures forall k :: 0 <= k < |vs| ==> vs[k].Str?
  {
    [Str(u.id), Str(u.name), Str(u.email), Str(u.phone), Str(u.role), Str(u.avatar),
     Str(u.employeeId), Str(u.department), Str(u.joiningDate)]
  }

  /** Some field value, converted with `String()` and lowercased, includes the lowercased term. */
  predicate UserMatches(u: User, term: string, lower: Text.CaseMap)
  {
    exists k :: 0 <= k < |UserValues(u)| && Text.Contains(lower(ToJsString(UserValues(u)[k])), lower(term))
  }

  /** The users the table's search keeps, in their original order. */
  function FilterUsers(users: seq<User>, term: string, lower: Text.CaseMap): (r: seq<User>)
    ensures IsSubsequence(r, users)
    ensures forall u :: u in r ==> u in users && UserMatches(u, term, lower)
    ensures forall i :: 0 <= i < |users| && UserMatches(users[i], term, lower) ==> users[i] in r
    ensures forall i {:trigger multiset(r)[users[i]]} :: 0 <= i < |users| ==>
      multiset(r)[users[i]] == if UserMatches(users[i], term, lower) then multiset(users)[users[i]] else 0
  {
    Filter(users, (u: User) => UserMatches(u, term, lower))
  }

  /** An empty term keeps every user, as long as lowercasing maps the empty string to itself. */
  lemma EmptyTermKeepsAll(users: seq<User>, lower: Text.CaseMap)
    requires lower("") == ""
    ensures FilterUsers(users, "", lower) == users
  {
    forall u | u in users
      ensures UserMatches(u, "", lower)
    {
      Text.ContainsEmpty(lower(ToJsString(UserValues(u)[0])));
    }
    FilterAll(users, (u: User) => UserMatches(u, "", lower));
  }

  /** The user fields, as keys of `User`. */
  datatype UserField = Id | Name | Email | Phone | Role | Avatar | EmployeeId | Department | JoiningDate

  /** The position of a key in `Object.values(user)`. */
  function FieldIndex(f: UserField): (k: nat)
    ensures k < 9
  {
    match f
    case Id => 0 case Name => 1 case Email => 2 case Phone => 3 case Role => 4
    case Avatar => 5 case EmployeeId => 6 case Department => 7 case JoiningDate => 8
  }

  /** `user[field]`. */
  function UserValue(u: User, f: UserField): Value
  {
    UserValues(u)[FieldIndex(f)]
  }

  const AllUserFields: seq<UserField> :=
    [UserField.Id, UserField.Name, UserField.Email, UserField.Phone, Role, UserField.Avatar,
     EmployeeId, Department, JoiningDate]

  /** The field list is in the order of `Object.values`. */
  lemma AllFieldsInOrder()
    ensures |AllUserFields| == 9
    ensures forall k :: 0 <= k < |AllUserFields| ==> FieldIndex(AllUserFields[k]) == k
  {
  }

  /** For one user, the table's match and the generic field match agree. */
  lemma UserMatchesIsItemMatches(u: User, term: string, lower: Text.CaseMap)
    ensures UserMatches(u, term, lower) == ItemMatches(u, term, AllUserFields, UserValue, lower)
  {
    AllFieldsInOrder();
    if UserMatches(u, term, lower) {
      var k :| 0 <= k < |UserValues(u)| && Text.Contains(lower(ToJsString(UserValues(u)[k])), lower(term));
      assert UserValue(u, AllUserFields[k]) == UserValues(u)[k];
    }
    if ItemMatches(u, term, AllUserFields, UserValue, lower) {
      var k :| 0 <= k < |AllUserFields| && FieldMatches(UserValue(u, AllUserFields[k]), term, lower);
      assert UserValue(u, AllUserFields[k]) == UserValues(u)[k];
    }
  }

  /** Every user field holds a string, so coercing with `String()` changes nothing: for a non-empty
      term the table's search is the generic field search over all fields. */
  lemma FilterUsersIsSearchData(users: seq<User>, term: string, lower: Text.CaseMap)
    requires term != ""
    ensures FilterUsers(users, term, lower) == SearchData(users, term, AllUserFields, UserValue, lower)
  {
    forall i | 0 <= i < |users|
      ensures UserMatches(users[i], term, lower) == ItemMatches(users[i], term, AllUserFields, UserValue, lower)
    {
      UserMatchesIsItemMatches(users[i], term, lower);
    }
    FilterCongruent(users, (u: User) => UserMatches(u, term, lower),
      (u: User) => ItemMatches(u, term, AllUserFields, UserValue, lower));
  }

  // ---------------------------------------------------------------- pagination

  const ItemsPerPage: nat := 10

  /** `Math.ceil(n / itemsPerPage)`: the fewest pages of ten that hold `n` rows (none for none). */
  function TotalPages(n: nat): (t: nat)
    ensures t * ItemsPerPage >= n
    ensures t > 0 ==> (t - 1) * ItemsPerPage < n
    ensures t == 0 <==> n == 0
  {
    (n + ItemsPerPage - 1) / ItemsPerPage
  }

  /** `Array.prototype.slice(start, end)` for non-negative bounds. */
  function Slice<T>(s: seq<T>, start: nat, end: nat): (r: seq<T>)
    ensures |r| == if start < end && start < |s| then (if end < |s| then end else |s|) - start else 0
    ensures r != [] ==> start + |r| <= |s|
    ensures forall i :: 0 <= i < |r| ==> r[i] == s[start + i]
  {
    var e := if end < |s| then end else |s|;
    if start < e then s[start..e] else []
  }

  /** The rows page `page` shows: the slice from `(page - 1) * 10` to `page * 10`. */
  function PageRows<T>(rows: seq<T>, page: nat): (r: seq<T>)
    requires page >= 1
    ensures |r| <= ItemsPerPage
    ensures r != [] ==> (page - 1) * ItemsPerPage + |r| <= |rows|
    ensures forall i :: 0 <= i < |r| ==> r[i] == rows[(page - 1) * ItemsPerPage + i]
    ensures (page - 1) * ItemsPerPage < |rows| ==> r != []
  {
    var start := (page - 1) * ItemsPerPage;
    Slice(rows, start, start + ItemsPerPage)
  }

  /** Pages 1 to `k`, one after the other. */
  function FirstPages<T>(rows: seq<T>, k: nat): seq<T>
  {
    if k == 0 then [] else FirstPages(rows, k - 1) + PageRows(rows, k)
  }

  /** Page `k` is the stretch of rows between the ends of pages `k - 1` and `k`. */
  lemma PageRowsSlice<T>(rows: seq<T>, k: nat)
    requires k >= 1
    ensures var lo := if (k - 1) * ItemsPerPage < |rows| then (k - 1) * ItemsPerPage else |rows|;
      var hi := if k * ItemsPerPage < |rows| then k * ItemsPerPage else |rows|;
      lo <= hi && PageRows(rows, k) == rows[lo..hi]
  {
    assert (k - 1) * ItemsPerPage + ItemsPerPage == k * ItemsPerPage;
  }

  /** The first `k` pages hold exactly the first `10 k` rows. */
  lemma {:induction false} FirstPagesPrefix<T>(rows: seq<T>, k: nat)
    ensures FirstPages(rows, k) == rows[..if k * ItemsPerPage < |rows| then k * ItemsPerPage else |rows|]
  {
    if k > 0 {
      FirstPagesPrefix(rows, k - 1);
      PageRowsSlice(rows, k);
      var lo := if (k - 1) * ItemsPerPage < |rows| then (k - 1) * ItemsPerPage else |rows|;
      var hi := if k * ItemsPerPage < |rows| then k * ItemsPerPage else |rows|;
      assert rows[..lo] + rows[lo..hi] == rows[..hi];
    }
  }

  /** The pages 1 to `TotalPages` cover the rows exactly once, in order. */
  lemma PagesCoverRows<T>(rows: seq<T>)
    ensures FirstPages(rows, TotalPages(|rows|)) == rows
  {
    FirstPagesPrefix(rows, TotalPages(|rows|));
  }

  /** Row `i` is shown on page `i / 10 + 1`, at position `i % 10`. */
  lemma RowOnItsPage<T>(rows: seq<T>, i: nat)
    requires i < |rows|
    ensures i / ItemsPerPage + 1 <= TotalPages(|rows|)
    ensures var p := PageRows(rows, i / ItemsPerPage + 1); i % ItemsPerPage < |p| && p[i % ItemsPerPage] == rows[i]
  {
  }

  /** A page past the last one is empty. */
  lemma PagePastLastIsEmpty<T>(rows: seq<T>, page: nat)
    requires page > TotalPages(|rows|)
    ensures PageRows(rows, page) == []
  {
  }

  /** The Previous and Next buttons are rendered only when there is more than one page. */
  predicate ControlsShown(n: nat)
  {
    TotalPages(n) > 1
  }

  lemma ControlsShownIff(n: nat)
    ensures ControlsShown(n) <==> n > ItemsPerPage
  {
  }

  /** Previous: `Math.max(1, currentPage - 1)`. */
  function PreviousPage(current: int): (p: int)
    ensures p >= 1
    ensures current > 1 ==> p == current - 1
    ensures current <= 1 ==> p == 1
  {
    if current - 1 > 1 then current - 1 else 1
  }

  /** Next: `Math.min(totalPages, currentPage + 1)`. */
  function NextPage(current: int, total: nat): (p: int)
    ensures p <= total
    ensures current < total ==> p == current + 1
    ensures current >= total ==> p == total
  {
    if current + 1 < total then current + 1 else total
  }

  /** Twenty-five rows make three pages; the third shows the last five. */
  lemma PaginationScenario<T>(rows: seq<T>)
    requires |rows| == 25
    ensures TotalPages(|rows|) == 3 && ControlsShown(|rows|)
    ensures PageRows(rows, 3) == rows[20..]
  {
  }

  /** The four seed users fit on one page whatever the search, so the controls never show. */
  lemma SeedFitsOnePage(term: string, lower: Text.CaseMap)
    ensures TotalPages(|FilterUsers(MockUsers, term, lower)|) <= 1
    ensures !ControlsShown(|FilterUsers(MockUsers, term, lower)|)
  {
  }

  // ---------------------------------------------------------------- health status cell

  datatype BPStatus = BPNormal | BPHigh | BPVeryHigh
  {
    function Label(): string
    {
      match this
      case BPNormal => "Normal" case BPHigh => "High" case BPVeryHigh => "Very High"
    }
    function Color(): string
    {
      match this
      case BPNormal => "green" case BPHigh => "yellow" case BPVeryHigh => "red"
    }
    function Rank(): nat
    {
      match this
      case BPNormal => 0 case BPHigh => 1 case BPVeryHigh => 2
    }
  }

  datatype SugarStatus = SugarNormal | PreDiabetic | Diabetic
  {
    function Label(): string
    {
      match this
      case SugarNormal => "Normal" case PreDiabetic => "Pre-diabetic" case Diabetic => "Diabetic"
    }
    function Color(): string
    {
      match this
      case SugarNormal => "green" case PreDiabetic => "yellow" case Diabetic => "red"
    }
    function Rank(): nat
    {
      match this
      case SugarNormal => 0 case PreDiabetic => 1 case Diabetic => 2
    }
  }

  /** Blood pressure: normal when both readings are under 120/80; otherwise high when either
      reading is under 140/90; otherwise very high. */
  function GetBPStatus(systolic: int, diastolic: int): (r: BPStatus)
    ensures r == BPNormal <==> systolic < 120 && diastolic < 80
    ensures r == BPHigh <==> !(systolic < 120 && diastolic < 80) && (systolic < 140 || diastolic < 90)
    ensures r == BPVeryHigh <==> systolic >= 140 && diastolic >= 90
  {
    if systolic < 120 && diastolic < 80 then BPNormal
    else if systolic < 140 || diastolic < 90 then BPHigh
    else BPVeryHigh
  }

  /** Raising either reading never makes the blood-pressure class less severe. */
  lemma BPStatusMonotone(s1: int, d1: int, s2: int, d2: int)
    requires s1 <= s2 && d1 <= d2
    ensures GetBPStatus(s1, d1).Rank() <= GetBPStatus(s2, d2).Rank()
  {
  }

  /** Sugar: normal under 100, pre-diabetic from 100 to 125, diabetic from 126. */
  function GetSugarStatus(sugar: int): (r: SugarStatus)
    ensures r == SugarNormal <==> sugar < 100
    ensures r == PreDiabetic <==> 100 <= sugar < 126
    ensures r == Diabetic <==> sugar >= 126
  {
    if sugar < 100 then SugarNormal
    else if sugar < 126 then PreDiabetic
    else Diabetic
  }

  lemma SugarStatusMonotone(a: int, b: int)
    requires a <= b
    ensures GetSugarStatus(a).Rank() <= GetSugarStatus(b).Rank()
  {
  }

  /** `getUserHealthRecords(id)[0]`: the user's first record in seed order, if any. */
  function LatestRecord(userId: string): (r: Option<HealthRecord>)
    ensures r.None? <==> forall rec :: rec in MockHealthRecords ==> rec.userId != userId
    ensures r.Some? ==> r.value.userId == userId
    ensures r.Some? ==> exists i :: 0 <= i < |MockHealthRecords| && MockHealthRecords[i] == r.value &&
                          forall j :: 0 <= j < i ==> MockHealthRecords[j].userId != userId
  {
    var p := (rec: HealthRecord) => rec.userId == userId;
    FindIsFilterHead(MockHealthRecords, p);
    var records := GetUserHealthRecords(userId);
    if |records| > 0 then Some(records[0]) else None
  }

  datatype HealthCell = NoRecords | Statuses(bp: BPStatus, sugar: SugarStatus)

  /** The table's health-status cell for one user. */
  function HealthCellOf(userId: string): (c: HealthCell)
    ensures c.NoRecords? <==> LatestRecord(userId).None?
    ensures c.Statuses? ==> (var rec := LatestRecord(userId).value;
      c.bp == GetBPStatus(rec.systolic, rec.diastolic) && c.sugar == GetSugarStatus(rec.sugarLevel))
  {
    match LatestRecord(userId)
    case None => NoRecords
    case Some(rec) => Statuses(GetBPStatus(rec.systolic, rec.diastolic), GetSugarStatus(rec.sugarLevel))
  }

  /** User 1's latest record is the July checkup at 120/80 and sugar 110: high, pre-diabetic. */
  lemma HealthCellScenario()
    ensures HealthCellOf("1") == Statuses(BPHigh, PreDiabetic)
    ensures HealthCellOf("3") == NoRecords
  {
    var recs := MockHealthRecords;
    assert recs[0].userId == "1";
    assert recs[0].systolic == 120 && recs[0].diastolic == 80 && recs[0].sugarLevel == 110;
    assert recs[0].userId != "3" && recs[1].userId != "3" && recs[2].userId != "3" && recs[3].userId != "3";
  }

  // ---------------------------------------------------------------- statistic cards

  function DepartmentOf(u: User): string
  {
    u.department
  }

  /** The "Departments" card: the number of distinct departments. */
  function DepartmentCount(users: seq<User>): (n: nat)
    ensures n <= |users|
    ensures users != [] ==> n >= 1
  {
    DistinctCount(users, DepartmentOf)
  }

  /** The "Admins" card: the users whose role is `admin`. */
  function AdminCount(users: seq<User>): (n: nat)
    ensures n <= |users|
    ensures n == |users| - |Filter(users, (u: User) => u.role != "admin")|
  {
    FilterPartition(users, (u: User) => u.role == "admin", (u: User) => u.role != "admin");
    |Filter(users, (u: User) => u.role == "admin")|
  }

  lemma ImageOfFour<T>(s: seq<T>, f: T -> string)
    requires |s| == 4
    ensures Image(s, f) == {f(s[0]), f(s[1]), f(s[2]), f(s[3])}
  {
    assert s[1..][1..] == s[2..];
    assert s[2..][1..] == s[3..];
    assert s[3..][1..] == [];
  }

  /** On the seed: four departments. */
  lemma SeedDepartmentsScenario()
    ensures DepartmentCount(MockUsers) == 4
  {
    var us := MockUsers;
    ImageOfFour(us, DepartmentOf);
    assert DepartmentOf(us[0]) == "IT" && DepartmentOf(us[1]) == "HR";
    assert DepartmentOf(us[2]) == "Admin" && DepartmentOf(us[3]) == "Finance";
    var departments := Image(us, DepartmentOf);
    assert departments == {"IT", "HR", "Admin", "Finance"};
    SeedDepartmentNames();
  }

  lemma SeedDepartmentNames()
    ensures |{"IT", "HR", "Admin", "Finance"}| == 4
  {
  }

  /** On the seed: one admin. */
  lemma SeedAdminsScenario()
    ensures AdminCount(MockUsers) == 1
  {
    var us := MockUsers;
    var isAdmin := (u: User) => u.role == "admin";
    assert Filter(us[3..], isAdmin) == [] by {
      assert us[3..][1..] == [];
    }
    assert Filter(us[2..], isAdmin) == [us[2]] by {
      assert us[2..][1..] == us[3..];
    }
    assert Filter(us[1..], isAdmin) == [us[2]] by {
      assert us[1..][1..] == us[2..];
    }
    assert |Filter(us, isAdmin)| == 1;
  }

  // ---------------------------------------------------------------- page state

  /** The page's state. `EnhancedDataTable` is declared inside the page component, so every
      re-render of the page (a row toggle) mounts a fresh table whose page and search start over. */
  class UsersPage {
    var expandedRows: set<string>
    var currentPage: int
    var searchTerm: string
    const users: seq<User>
    const lower: Text.CaseMap

    ghost predicate Valid()
      reads this
    {
      currentPage >= 1
    }

    /** The users the search keeps: the matching users in their order, every copy of each. */
    function FilteredData(): (r: seq<User>)
      reads this
      ensures IsSubsequence(r, users)
      ensures forall u :: u in r ==> UserMatches(u, searchTerm, lower)
      ensures forall i {:trigger multiset(r)[users[i]]} :: 0 <= i < |users| ==>
        multiset(r)[users[i]] == if UserMatches(users[i], searchTerm, lower) then multiset(users)[users[i]] else 0
    {
      FilterUsers(users, searchTerm, lower)
    }

    /** The rows of the current page: at most ten, the run of the search's result that starts
        at row `(currentPage - 1) * 10`. */
    function CurrentData(): (r: seq<User>)
      reads this
      requires Valid()
      ensures |r| <= ItemsPerPage
      ensures forall j :: 0 <= j < |r| ==>
        (currentPage - 1) * ItemsPerPage + j < |FilteredData()| && r[j] == FilteredData()[(currentPage - 1) * ItemsPerPage + j]
      ensures (currentPage - 1) * ItemsPerPage < |FilteredData()| <==> r != []
    {
      PageRows(FilteredData(), currentPage)
    }

    /** The table's rows are `users`; the page passes the seed users. */
    constructor (users: seq<User>, lower: Text.CaseMap)
      ensures Valid()
      ensures expandedRows == {} && currentPage == 1 && searchTerm == ""
      ensures this.users == users && this.lower == lower
    {
      this.users := users;
      expandedRows := {};
      currentPage := 1;
      searchTerm := "";
      this.lower := lower;
    }

    /** `toggleRowExpansion`: copy the set, delete or add the id, store the copy. */
    method ToggleRowExpansion(userId: string)
      modifies this
      ensures Valid()
      ensures expandedRows == Toggled(old(expandedRows), userId)
      ensures currentPage == 1 && searchTerm == ""
    {
      var newExpandedRows := expandedRows;
      if userId in newExpandedRows {
        newExpandedRows := newExpandedRows - {userId};
      } else {
        newExpandedRows := newExpandedRows + {userId};
      }
      expandedRows := newExpandedRows;
      currentPage := 1;
      searchTerm := "";
    }

    /** Typing in the search box; the current page is left as it is. */
    method SetSearchTerm(term: string)
      modifies this`searchTerm
      ensures searchTerm == term
    {
      searchTerm := term;
    }

    /** Clicking Previous: only possible while the controls are shown and the button is enabled. */
    method ClickPrevious()
      requires Valid()
      modifies this
      ensures expandedRows == old(expandedRows) && searchTerm == old(searchTerm)
      ensures Valid()
      ensures var total := TotalPages(|FilteredData()|);
        currentPage == if total > 1 && old(currentPage) != 1 then PreviousPage(old(currentPage)) else old(currentPage)
      ensures currentPage <= old(currentPage)
    {
      var total := TotalPages(|FilteredData()|);
      if total > 1 && currentPage != 1 {
        currentPage := PreviousPage(currentPage);
      }
    }

    /** Clicking Next: only possible while the controls are shown and the button is enabled. */
    method ClickNext()
      requires Valid()
      modifies this
      ensures expandedRows == old(expandedRows) && searchTerm == old(searchTerm)
      ensures Valid()
      ensures var total := TotalPages(|FilteredData()|);
        currentPage == if total > 1 && old(currentPage) != total then NextPage(old(currentPage), total) else old(currentPage)
      ensures old(currentPage) <= TotalPages(|FilteredData()|) ==> currentPage <= TotalPages(|FilteredData()|)
    {
      var total := TotalPages(|FilteredData()|);
      if total > 1 && currentPage != total {
        currentPage := NextPage(currentPage, total);
      }
    }
  }
}
