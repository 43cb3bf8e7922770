/**
 * The network table behind the `/networks` routes: the visibility rule,
 * the paginated listing ordered by creation time, and deletion of a
 * network's row and backing file.
 */
module Networks {
  import opened Wrappers

  type UserId = string
  type NetworkId = string

  /** One row of the network table. `userId == None` marks a legacy network without owner. */
  datatype Network = Network(
    id: NetworkId,
    userId: Option<UserId>,
    isPublic: bool,
    createdAt: int,
    filePath: string,
    filename: string)

  /** Pagination metadata returned with a listing. */
  datatype Meta = Meta(total: nat, skip: nat, limit: nat, count: nat)

  datatype NetworkListResponse = NetworkListResponse(data: seq<Network>, meta: Meta)

  /** Errors the two routes can produce. */
  datatype ApiError =
    | UserRequired              // `user.id` read on a missing user while building the filter
    | Forbidden(detail: string) // HTTP 403

  const ForbiddenDetail := "You don't have permission to delete this network"

  // ---------------------------------------------------------------------------
  // Visibility
  // ---------------------------------------------------------------------------

  /** With authentication on, a network is listed if the caller owns it, it is public, or it has no owner. */
  predicate Visible(n: Network, user: UserId) {
    n.userId == Some(user) || n.isPublic || n.userId == None
  }

  /** The rows that satisfy the visibility filter, in table order. */
  function FilterVisible(rows: seq<Network>, user: UserId): (r: seq<Network>)
    ensures |r| <= |rows|
    ensures forall n :: n in r <==> n in rows && Visible(n, user)
  {
    if rows == [] then []
    else (if Visible(rows[0], user) then [rows[0]] else []) + FilterVisible(rows[1..], user)
  }

  /** The filter keeps every visible row exactly as often as the table holds it, and drops the rest. */
  lemma {:induction false} FilterVisibleCounts(rows: seq<Network>, user: UserId, n: Network)
    ensures multiset(FilterVisible(rows, user))[n] == if Visible(n, user) then multiset(rows)[n] else 0
  {
    if rows != [] {
      FilterVisibleCounts(rows[1..], user, n);
      assert rows == [rows[0]] + rows[1..];
    }
  }

  /** The query the route builds: filtered when authentication is on, the whole table otherwise. */
  function Query(rows: seq<Network>, user: UserId, enableAuth: bool): seq<Network> {
    if enableAuth then FilterVisible(rows, user) else rows
  }

  // ---------------------------------------------------------------------------
  // Ordering by `created_at` descending
  // ---------------------------------------------------------------------------

  predicate SortedDesc(s: seq<Network>) {
    forall i, j :: 0 <= i < j < |s| ==> s[i].createdAt >= s[j].createdAt
  }

  function Insert(n: Network, s: seq<Network>): (r: seq<Network>)
    ensures |r| == |s| + 1
  {
    if s == [] || n.createdAt >= s[0].createdAt then [n] + s
    else [s[0]] + Insert(n, s[1..])
  }

  /**
   * Some ordering of the rows by `createdAt`, newest first. Ties are resolved
   * one particular way here, the same way on every call; only
   * `ListReachesEveryVisibleRow` depends on that.
   */
  function SortByCreatedDesc(s: seq<Network>): (r: seq<Network>)
    ensures |r| == |s|
  {
    if s == [] then [] else Insert(s[0], SortByCreatedDesc(s[1..]))
  }

  lemma {:induction false} InsertPermutes(n: Network, s: seq<Network>)
    ensures multiset(Insert(n, s)) == multiset(s) + multiset{n}
  {
    if s != [] && n.createdAt < s[0].createdAt {
      InsertPermutes(n, s[1..]);
      assert s == [s[0]] + s[1..];
    }
  }

  lemma {:induction false} InsertSorted(n: Network, s: seq<Network>)
    requires SortedDesc(s)
    ensures SortedDesc(Insert(n, s))
  {
    if s != [] && n.createdAt < s[0].createdAt {
      var tail := s[1..];
      InsertSorted(n, tail);
      InsertPermutes(n, tail);
      var t := Insert(n, tail);
      forall k | 0 <= k < |t| ensures s[0].createdAt >= t[k].createdAt {
        assert t[k] in multiset(t);
        assert t[k] == n || t[k] in multiset(tail);
      }
    }
  }

  /** The ordering is sorted newest first and holds exactly the rows it was given. */
  lemma {:induction false} SortByCreatedDescCorrect(s: seq<Network>)
    ensures SortedDesc(SortByCreatedDesc(s))
    ensures multiset(SortByCreatedDesc(s)) == multiset(s)
  {
    if s != [] {
      SortByCreatedDescCorrect(s[1..]);
      InsertSorted(s[0], SortByCreatedDesc(s[1..]));
      InsertPermutes(s[0], SortByCreatedDesc(s[1..]));
      assert s == [s[0]] + s[1..];
    }
  }

  // ---------------------------------------------------------------------------
  // Offset and limit
  // ---------------------------------------------------------------------------

  function Min(a: int, b: int): int { if a <= b then a else b }

  /** The `[skip, skip + limit)` window of `s`, clipped to its length (SQL OFFSET / LIMIT). */
  function Page(s: seq<Network>, skip: nat, limit: nat): (r: seq<Network>)
    ensures |r| == if skip >= |s| then 0 else Min(limit, |s| - skip)
    ensures forall i :: 0 <= i < |r| ==> r[i] == s[skip + i]
  {
    var lo := Min(skip, |s|);
    var hi := Min(skip + limit, |s|);
    s[lo..hi]
  }

  /** Two consecutive pages together are the page of their combined size. */
  lemma PageConsecutive(s: seq<Network>, skip: nat, limit1: nat, limit2: nat)
    ensures Page(s, skip, limit1) + Page(s, skip + limit1, limit2) == Page(s, skip, limit1 + limit2)
  {
  }

  /** A window of a newest-first sequence is itself newest first. */
  lemma PageSorted(s: seq<Network>, skip: nat, limit: nat)
    requires SortedDesc(s)
    ensures SortedDesc(Page(s, skip, limit))
  {
  }

  // ---------------------------------------------------------------------------
  // list_networks
  // ---------------------------------------------------------------------------

  /**
   * GET /networks: filter (when authentication is on), count, order newest
   * first, then apply offset and limit. The filter reads `user.id`, so with
   * authentication on and no user the route fails.
   */
  function ListNetworks(rows: seq<Network>, skip: nat, limit: nat, user: Option<UserId>, enableAuth: bool)
    : (r: Result<NetworkListResponse, ApiError>)
    ensures r.Failure? <==> enableAuth && user.None?
    ensures r.Failure? ==> r.error == UserRequired
    ensures r.Success? ==>
      && r.value.meta.count == |r.value.data|
      && r.value.meta.count <= limit
      && r.value.meta.count <= r.value.meta.total
      && r.value.meta.total <= |rows|
      && r.value.meta.skip == skip
      && r.value.meta.limit == limit
  {
    if enableAuth && user.None? then Failure(UserRequired)
    else
      var query := Query(rows, if user.Some? then user.value else "", enableAuth);
      var page := Page(SortByCreatedDesc(query), skip, limit);
      Success(NetworkListResponse(page, Meta(|query|, skip, limit, |page|)))
  }

  /** With authentication on, every listed network is the caller's, public, or ownerless, and no other user's private network is listed. */
  lemma ListOnlyVisible(rows: seq<Network>, skip: nat, limit: nat, user: UserId)
    ensures ListNetworks(rows, skip, limit, Some(user), true).Success?
    ensures forall n :: n in ListNetworks(rows, skip, limit, Some(user), true).value.data ==>
      n in rows && Visible(n, user)
    ensures forall n :: n in ListNetworks(rows, skip, limit, Some(user), true).value.data ==>
      !(n.userId.Some? && n.userId != Some(user) && !n.isPublic)
  {
    var q := FilterVisible(rows, user);
    var sorted := SortByCreatedDesc(q);
    SortByCreatedDescCorrect(q);
    var data := ListNetworks(rows, skip, limit, Some(user), true).value.data;
    forall n | n in data ensures n in rows && Visible(n, user) {
      var i :| 0 <= i < |data| && data[i] == n;
      assert n == sorted[skip + i];
      assert n in multiset(sorted);
    }
  }

  /** With authentication off nothing is filtered: `total` is the size of the whole table. */
  lemma ListWithoutAuth(rows: seq<Network>, skip: nat, limit: nat, user: Option<UserId>)
    ensures ListNetworks(rows, skip, limit, user, false).Success?
    ensures ListNetworks(rows, skip, limit, user, false).value.meta.total == |rows|
    ensures ListNetworks(rows, skip, limit, user, false).value.data == Page(SortByCreatedDesc(rows), skip, limit)
  {
  }

  /**
   * `total` counts the filtered set before offset and limit, and `data` is
   * the `[skip, skip + limit)` window of that set ordered newest first.
   */
  lemma ListIsOrderedWindow(rows: seq<Network>, skip: nat, limit: nat, user: Option<UserId>, enableAuth: bool)
    requires !enableAuth || user.Some?
    ensures var q := Query(rows, if user.Some? then user.value else "", enableAuth);
      var r := ListNetworks(rows, skip, limit, user, enableAuth);
      && r.Success?
      && r.value.meta.total == |q|
      && multiset(SortByCreatedDesc(q)) == multiset(q)
      && SortedDesc(SortByCreatedDesc(q))
      && r.value.data == Page(SortByCreatedDesc(q), skip, limit)
      && SortedDesc(r.value.data)
  {
    var q := Query(rows, if user.Some? then user.value else "", enableAuth);
    SortByCreatedDescCorrect(q);
    PageSorted(SortByCreatedDesc(q), skip, limit);
  }

  /**
   * Every visible row is listed on the page that starts at its position in
   * the ordering, provided every request orders equal `createdAt` values the
   * same way (as the model does).
   */
  lemma ListReachesEveryVisibleRow(rows: seq<Network>, user: UserId, n: Network)
    requires n in rows && Visible(n, user)
    ensures exists skip: nat :: n in ListNetworks(rows, skip, 1, Some(user), true).value.data
  {
    var q := FilterVisible(rows, user);
    var sorted := SortByCreatedDesc(q);
    SortByCreatedDescCorrect(q);
    assert n in multiset(q);
    assert n in multiset(sorted);
    var k :| 0 <= k < |sorted| && sorted[k] == n;
    assert ListNetworks(rows, k, 1, Some(user), true).value.data == [n];
  }

  // ---------------------------------------------------------------------------
  // delete_network
  // ---------------------------------------------------------------------------

  /** The 403 rule: auth on, a user present, and the network owned by somebody else. */
  predicate DeleteForbidden(network: Network, user: Option<UserId>, enableAuth: bool) {
    enableAuth && user.Some? && network.userId != Some(user.value) && network.userId.Some?
  }

  /** Deletion is stricter than visibility: whatever the caller may delete, the caller may also see. */
  lemma DeletePermittedIsVisible(network: Network, user: UserId)
    requires !DeleteForbidden(network, Some(user), true)
    ensures Visible(network, user)
  {
  }

  /** A public network owned by someone else is listed for the caller but cannot be deleted by the caller. */
  lemma PublicButNotDeletable(network: Network, user: UserId)
    requires network.isPublic && network.userId.Some? && network.userId.value != user
    ensures Visible(network, user) && DeleteForbidden(network, Some(user), true)
  {
  }

  /** The text of the success message. */
  function DeletedMessage(id: NetworkId, filename: string): string {
    "Network " + id + " and file " + filename + " deleted successfully"
  }

  predicate Contains(s: string, part: string) {
    exists i :: 0 <= i <= |s| && part <= s[i..]
  }

  /** The success message names the deleted network's id and its filename. */
  lemma DeletedMessageNames(id: NetworkId, filename: string)
    ensures Contains(DeletedMessage(id, filename), id)
    ensures Contains(DeletedMessage(id, filename), filename)
  {
    var m := DeletedMessage(id, filename);
    var prefix := "Network " + id + " and file ";
    assert m == "Network " + id + (" and file " + filename + " deleted successfully");
    assert id <= m[8..];
    assert m == prefix + (filename + " deleted successfully");
    assert filename <= m[|prefix|..];
  }

  predicate UniqueIds(rows: seq<Network>) {
    forall i, j :: 0 <= i < j < |rows| ==> rows[i].id != rows[j].id
  }

  /** The table without the row whose id is `id`, other rows in their order. */
  function WithoutId(rows: seq<Network>, id: NetworkId): (r: seq<Network>)
    ensures forall n :: n in r <==> n in rows && n.id != id
  {
    if rows == [] then []
    else (if rows[0].id == id then [] else [rows[0]]) + WithoutId(rows[1..], id)
  }

  /** The row with the given id, if there is one. */
  function FindById(rows: seq<Network>, id: NetworkId): (r: Option<Network>)
    ensures r.Some? ==> r.value in rows && r.value.id == id
    ensures r.None? ==> forall n :: n in rows ==> n.id != id
  {
    if rows == [] then None
    else if rows[0].id == id then Some(rows[0])
    else FindById(rows[1..], id)
  }

  /** Removing a present id from a table with unique ids drops exactly one row and keeps the ids unique. */
  lemma {:induction false} WithoutIdRemovesOne(rows: seq<Network>, id: NetworkId)
    requires UniqueIds(rows)
    requires exists n :: n in rows && n.id == id
    ensures |WithoutId(rows, id)| == |rows| - 1
    ensures UniqueIds(WithoutId(rows, id))
    ensures FindById(WithoutId(rows, id), id) == None
  {
    if rows[0].id == id {
      WithoutIdAbsent(rows[1..], id);
    } else {
      var n :| n in rows && n.id == id;
      assert n in rows[1..];
      WithoutIdRemovesOne(rows[1..], id);
      UniqueIdsCons(rows[0], WithoutId(rows[1..], id));
      assert rows == [rows[0]] + rows[1..];
    }
  }

  lemma {:induction false} WithoutIdAbsent(rows: seq<Network>, id: NetworkId)
    requires forall n :: n in rows ==> n.id != id
    ensures WithoutId(rows, id) == rows
  {
    if rows != [] {
      WithoutIdAbsent(rows[1..], id);
      assert rows == [rows[0]] + rows[1..];
    }
  }

  lemma UniqueIdsCons(n: Network, rows: seq<Network>)
    requires UniqueIds(rows)
    requires forall m :: m in rows ==> m.id != n.id
    ensures UniqueIds([n] + rows)
  {
  }

  /** The network table and the set of file paths present on disk. */
  class NetworkStore {
    var rows: seq<Network>
    var files: set<string>

    ghost predicate Valid()
      reads this
    {
      UniqueIds(rows)
    }

    constructor (rows0: seq<Network>, files0: set<string>)
      requires UniqueIds(rows0)
      ensures Valid() && rows == rows0 && files == files0
    {
      rows := rows0;
      files := files0;
    }

    /**
     * DELETE /networks/{id}. The network has already been looked up (a missing
     * one is answered with 404 before this runs). A forbidden call changes
     * nothing; a permitted one unlinks the file if it is on disk, then removes
     * the row.
     */
    method Delete(network: Network, user: Option<UserId>, enableAuth: bool)
      returns (r: Result<string, ApiError>)
      requires Valid() && network in rows
      modifies this
      ensures Valid()
      ensures r.Failure? <==> DeleteForbidden(network, user, enableAuth)
      ensures r.Failure? ==>
        r.error == Forbidden(ForbiddenDetail) && rows == old(rows) && files == old(files)
      ensures r.Success? ==>
        && r.value == DeletedMessage(network.id, network.filename)
        && files == old(files) - {network.filePath}
        && rows == WithoutId(old(rows), network.id)
        && |rows| == |old(rows)| - 1
        && FindById(rows, network.id) == None
    {
      if enableAuth && user.Some? {
        if network.userId != Some(user.value) && network.userId.Some? {
          return Failure(Forbidden(ForbiddenDetail));
        }
      }
      if network.filePath in files {
        files := files - {network.filePath};
      }
      WithoutIdRemovesOne(rows, network.id);
      rows := WithoutId(rows, network.id);
      r := Success(DeletedMessage(network.id, network.filename));
    }
  }
}
