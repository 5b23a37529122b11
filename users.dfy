/**
 * `getUser` of src/controllers/userController.js: a customer is refused;
 * otherwise a query filter is built step by step (vendors only ever search
 * customers; id, email and name constrain it only when given) and the
 * matching users are counted and paged.  The name is a case-insensitive
 * regular expression in the source; here it is an uninterpreted matcher.
 */
module UserSearch {
  import opened Common
  import opened Paging
  import opened Auth

  const DefaultSortBy: string := "createdAt"
  const DefaultOrder: string := "desc"
  const Ascending: string := "asc"

  /** The `User.find` query: equality constraints, an optional name pattern, the sort and the page window. */
  datatype UserQuery = UserQuery(filter: map<string, string>, namePattern: Option<string>,
                                 sortBy: string, ascending: bool, skip: nat, limit: nat)

  /** The answer's counts: the matching users, the page asked for and the number of pages. */
  datatype SearchAnswer = SearchAnswer(matched: set<Id>, total: nat, page: nat, totalPages: nat)

  /** A user satisfies every constraint of the query. */
  predicate Matches(id: Id, u: User, q: UserQuery, nameMatches: (string, string) -> bool) {
    && ("role" in q.filter ==> u.role == q.filter["role"])
    && ("_id" in q.filter ==> id == q.filter["_id"])
    && ("email" in q.filter ==> u.email == q.filter["email"])
    && (q.namePattern.Some? ==> nameMatches(q.namePattern.value, u.name))
  }

  function MatchingUsers(users: map<Id, User>, q: UserQuery, nameMatches: (string, string) -> bool): (m: set<Id>)
    ensures forall id :: id in m <==> id in users && Matches(id, users[id], q, nameMatches)
  {
    set id | id in users && Matches(id, users[id], q, nameMatches)
  }

  method GetUser(callerRole: Option<string>, id: Option<string>, email: Option<string>, name: Option<string>,
                 page: Option<Pos>, limit: Option<Pos>, sortBy: Option<string>, order: Option<string>,
                 users: map<Id, User>, nameMatches: (string, string) -> bool)
    returns (code: nat, query: Option<UserQuery>, answer: Option<SearchAnswer>)
    ensures callerRole == Some(Customer) ==> code == Forbidden && query == None && answer == None
    ensures callerRole != Some(Customer) ==> code == Ok && query.Some? && answer.Some?
    ensures query.Some? ==>
      var f := query.value.filter;
      && f.Keys <= {"role", "_id", "email"}
      && ("role" in f <==> callerRole == Some(Vendor))
      && ("role" in f ==> f["role"] == Customer)
      && ("_id" in f <==> Truthy(id)) && ("_id" in f ==> f["_id"] == id.value)
      && ("email" in f <==> Truthy(email)) && ("email" in f ==> f["email"] == email.value)
      && (query.value.namePattern.Some? <==> Truthy(name))
      && (query.value.namePattern.Some? ==> query.value.namePattern == name)
    ensures query.Some? ==>
      && query.value.sortBy == sortBy.GetOr(DefaultSortBy)
      && (query.value.ascending <==> order == Some(Ascending))
      && query.value.limit == limit.GetOr(DefaultLimit as Pos)
      && query.value.skip == Skip(page.GetOr(DefaultPage as Pos), limit.GetOr(DefaultLimit as Pos))
    ensures answer.Some? ==>
      && query.Some?
      && answer.value.matched == MatchingUsers(users, query.value, nameMatches)
      && answer.value.total == |answer.value.matched|
      && answer.value.page == page.GetOr(DefaultPage as Pos)
      && answer.value.totalPages == TotalPages(answer.value.total, limit.GetOr(DefaultLimit as Pos))
    ensures answer.Some? && callerRole == Some(Vendor) ==>
      forall uid :: uid in answer.value.matched ==> users[uid].role == Customer
  {
    if callerRole == Some(Customer) {
      return Forbidden, None, None;
    }
    var filter: map<string, string> := map[];
    if callerRole == Some(Vendor) {
      filter := filter["role" := Customer];
    }
    if Truthy(id) {
      filter := filter["_id" := id.value];
    }
    if Truthy(email) {
      filter := filter["email" := email.value];
    }
    var pattern: Option<string> := None;
    if Truthy(name) {
      pattern := name;
    }
    var p: Pos := page.GetOr(DefaultPage as Pos);
    var l: Pos := limit.GetOr(DefaultLimit as Pos);
    var q := UserQuery(filter, pattern, sortBy.GetOr(DefaultSortBy), order.GetOr(DefaultOrder) == Ascending, Skip(p, l), l);
    var matched := MatchingUsers(users, q, nameMatches);
    var total := |matched|;
    return Ok, Some(q), Some(SearchAnswer(matched, total, p, TotalPages(total, l)));
  }

  /**
   * A caller with no role (no `req.user`) or an admin, giving no id, email or
   * name, has every user counted, admins included.
   */
  method UnconstrainedSearchSeesAll(callerRole: Option<string>, users: map<Id, User>, nameMatches: (string, string) -> bool)
    returns (answer: Option<SearchAnswer>)
    requires callerRole == None || callerRole == Some(Admin)
    ensures answer.Some? && answer.value.matched == users.Keys && answer.value.total == |users|
  {
    var code, query;
    code, query, answer := GetUser(callerRole, None, None, None, None, None, None, None, users, nameMatches);
    assert answer.value.matched == users.Keys;
  }
}
