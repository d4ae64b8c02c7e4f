/** Keyset pagination of a wallet's requests, newest first. */
module History {
  import opened Wrappers
  import opened Tables

  type Requests = map<RequestId, SponsorshipRequest>

  /** A request's place in the listing. */
  datatype Place = Place(requestedAt: Time, id: RequestId)

  /** `p` is listed before `q`. */
  predicate Newer(p: Place, q: Place) {
    p.requestedAt > q.requestedAt || (p.requestedAt == q.requestedAt && p.id > q.id)
  }

  function PlacesOf(requests: Requests, walletId: WalletId): set<Place> {
    set r | r in requests && requests[r].walletId == walletId :: Place(requests[r].requestedAt, r)
  }

  function OlderThan(s: set<Place>, bound: Option<Place>): set<Place> {
    set p | p in s && (bound.Some? ==> Newer(bound.value, p))
  }

  // ---------------------------------------------------------------- the sorted listing

  ghost predicate Descending(ps: seq<Place>) {
    forall i, j | 0 <= i < j < |ps| :: Newer(ps[i], ps[j])
  }

  ghost predicate IsNewest(s: set<Place>, p: Place) {
    p in s && forall q | q in s && q != p :: Newer(p, q)
  }

  lemma NewestExists(s: set<Place>)
    requires s != {}
    ensures exists p :: IsNewest(s, p)
  {
    var x :| x in s;
    if s == {x} {
      assert IsNewest(s, x);
    } else {
      NewestExists(s - {x});
      var y :| IsNewest(s - {x}, y);
      var p := if Newer(x, y) then x else y;
      forall q | q in s && q != p
        ensures Newer(p, q)
      {
        assert q == x || q in s - {x};
      }
      assert IsNewest(s, p);
    }
  }

  ghost function Newest(s: set<Place>): (p: Place)
    requires s != {}
    ensures IsNewest(s, p)
  {
    NewestExists(s);
    var p :| IsNewest(s, p);
    p
  }

  /** All places of a set, newest first. */
  ghost function Listing(s: set<Place>): (ps: seq<Place>)
    ensures Descending(ps) && |ps| == |s|
    ensures forall p :: p in ps <==> p in s
  {
    if s == {} then []
    else
      var p := Newest(s);
      assert s == {p} + (s - {p});
      [p] + Listing(s - {p})
  }

  lemma HasMember(ps: seq<Place>)
    ensures ps != [] ==> exists p :: p in ps
  {
    if ps != [] { assert ps[0] in ps; }
  }

  lemma HeadIsNewest(s: set<Place>, ps: seq<Place>, p: Place)
    requires Descending(ps) && ps != [] && ps[0] in s && p in ps && IsNewest(s, p)
    ensures ps[0] == p
  {
    var i :| 0 <= i < |ps| && ps[i] == p;
    if i > 0 {
      assert Newer(ps[0], ps[i]);
    }
  }

  lemma TailListsRest(s: set<Place>, ps: seq<Place>)
    requires Descending(ps) && ps != [] && forall q :: q in ps <==> q in s
    ensures Descending(ps[1..]) && forall q :: q in ps[1..] <==> q in s - {ps[0]}
  {
    assert ps == [ps[0]] + ps[1..];
    forall q | q in ps[1..]
      ensures q != ps[0]
    {
      var i :| 0 <= i < |ps[1..]| && ps[1..][i] == q;
      assert Newer(ps[0], ps[i + 1]);
    }
  }

  /** There is only one such listing. */
  lemma {:induction false} ListingIsUnique(s: set<Place>, ps: seq<Place>)
    requires Descending(ps) && forall p :: p in ps <==> p in s
    ensures ps == Listing(s)
    decreases |s|
  {
    HasMember(ps);
    if s != {} {
      var p := Newest(s);
      assert p in ps;
      assert ps[0] in s;
      HeadIsNewest(s, ps, p);
      TailListsRest(s, ps);
      hide Descending, Newer, IsNewest;
      ListingIsUnique(s - {p}, ps[1..]);
    }
  }

  // ---------------------------------------------------------------- one page

  datatype Page = Page(data: seq<Place>, cursor: Option<RequestId>, hasMore: bool, limit: nat)

  function PageSize(limit: int): (n: nat)
    ensures 1 <= n <= 100
  {
    var atLeastOne := if limit < 1 then 1 else limit;
    if atLeastOne > 100 then 100 else atLeastOne
  }

  /** Where a cursor points. An unknown id is ignored, as the query then has no bound. */
  function BoundOf(requests: Requests, cursor: Option<RequestId>): Option<Place> {
    if cursor.Some? && cursor.value in requests then
      Some(Place(requests[cursor.value].requestedAt, cursor.value))
    else None
  }

  ghost function GetWalletHistory(requests: Requests, walletId: WalletId, cursor: Option<RequestId>, limit: int): Page {
    var pageSize := PageSize(limit);
    var matching := Listing(OlderThan(PlacesOf(requests, walletId), BoundOf(requests, cursor)));
    var found := if |matching| > pageSize + 1 then matching[..pageSize + 1] else matching;
    var hasMore := |found| > pageSize;
    var data := if hasMore then found[..pageSize] else found;
    Page(data, if hasMore then Some(data[|data| - 1].id) else None, hasMore, pageSize)
  }

  // ---------------------------------------------------------------- following the cursors

  /** Rows are only ever added: the places of old rows stay what they were. */
  ghost predicate Grows(requests: Requests, requests': Requests) {
    forall r | r in requests :: r in requests' && requests'[r].walletId == requests[r].walletId
                                && requests'[r].requestedAt == requests[r].requestedAt
  }

  /** The pages a client fetches, each against the table as it stands then, until one has no more. */
  ghost predicate IsWalk(tables: seq<Requests>, pages: seq<Page>, walletId: WalletId, cursor: Option<RequestId>,
                         limit: int)
  {
    && |tables| == |pages| > 0
    && pages[0] == GetWalletHistory(tables[0], walletId, cursor, limit)
    && if |pages| == 1 then !pages[0].hasMore
       else
         && pages[0].hasMore && Grows(tables[0], tables[1])
         && IsWalk(tables[1..], pages[1..], walletId, pages[0].cursor, limit)
  }

  function AllData(pages: seq<Page>): seq<Place> {
    if pages == [] then [] else pages[0].data + AllData(pages[1..])
  }

  /** One page is the newest part of what lies beyond the bound. */
  lemma PageTakesNewest(requests: Requests, walletId: WalletId, cursor: Option<RequestId>, limit: int)
    ensures var page := GetWalletHistory(requests, walletId, cursor, limit);
      var beyond := OlderThan(PlacesOf(requests, walletId), BoundOf(requests, cursor));
      var n := PageSize(limit);
      && page.data == Listing(beyond)[..|page.data|] && |page.data| == (if |beyond| <= n then |beyond| else n)
      && (page.hasMore <==> |beyond| > n)
      && (page.hasMore ==> page.cursor == Some(page.data[n - 1].id))
  {
  }

  /**
   How much a page holds: the limit asked for, but at least 1 and at most 100 requests; fewer only when
   there are no more, and then there is no cursor.
   */
  lemma PageHolds(requests: Requests, walletId: WalletId, cursor: Option<RequestId>, limit: int)
    ensures var page := GetWalletHistory(requests, walletId, cursor, limit);
      var beyond := OlderThan(PlacesOf(requests, walletId), BoundOf(requests, cursor));
      && page.limit == PageSize(limit) && |page.data| <= page.limit
      && (limit < 1 ==> page.limit == 1) && (1 <= limit <= 100 ==> page.limit == limit)
      && (limit > 100 ==> page.limit == 100)
      && (page.hasMore ==> |page.data| == page.limit && page.cursor.Some?)
      && (!page.hasMore ==> page.data == Listing(beyond) && page.cursor == None)
  {
    PageTakesNewest(requests, walletId, cursor, limit);
  }

  /** A cursor that is no request's id bounds nothing: the page is the first one. */
  lemma UnknownCursorStartsOver(requests: Requests, walletId: WalletId, cursor: RequestId, limit: int)
    requires cursor !in requests
    ensures GetWalletHistory(requests, walletId, Some(cursor), limit)
            == GetWalletHistory(requests, walletId, None, limit)
  {
    hide Listing;
  }

  /**
   The listing in plain terms: every request of the wallet and nothing else, later ones before earlier
   ones, and among requests made at the same moment the greater id first.
   */
  lemma ListingIsNewestFirst(requests: Requests, walletId: WalletId)
    ensures var ps := Listing(PlacesOf(requests, walletId));
      && (forall i, j | 0 <= i < j < |ps| ::
            ps[i].requestedAt >= ps[j].requestedAt && (ps[i].requestedAt == ps[j].requestedAt ==> ps[i].id > ps[j].id))
      && (forall i | 0 <= i < |ps| ::
            ps[i].id in requests && requests[ps[i].id].walletId == walletId
            && requests[ps[i].id].requestedAt == ps[i].requestedAt)
      && (forall r | r in requests && requests[r].walletId == walletId :: Place(requests[r].requestedAt, r) in ps)
  {
    var ps := Listing(PlacesOf(requests, walletId));
    forall i | 0 <= i < |ps|
      ensures ps[i] in PlacesOf(requests, walletId)
    {
      assert ps[i] in ps;
    }
    forall r | r in requests && requests[r].walletId == walletId
      ensures Place(requests[r].requestedAt, r) in ps
    {
      assert Place(requests[r].requestedAt, r) in PlacesOf(requests, walletId);
    }
    assert Descending(ps);
    hide Listing;
  }

  lemma RestMembers(ps: seq<Place>, k: nat, p: Place)
    requires Descending(ps) && 0 < k <= |ps|
    ensures p in ps[k..] <==> p in ps && Newer(ps[k - 1], p)
  {
    if i :| 0 <= i < |ps| && ps[i] == p {
      if k <= i {
        assert ps[k..][i - k] == p && Newer(ps[k - 1], ps[i]);
      } else if i < k - 1 {
        assert Newer(ps[i], ps[k - 1]);
      }
    }
  }

  /** The rows beyond the first k of a listing are those older than its k-th. */
  lemma RestOfListing(s: set<Place>, k: nat)
    requires 0 < k <= |s|
    ensures Listing(OlderThan(s, Some(Listing(s)[k - 1]))) == Listing(s)[k..]
  {
    var ps, d := Listing(s), Listing(s)[k - 1];
    hide Listing;
    assert Descending(ps[k..]);
    hide Descending, Newer;
    forall p
      ensures p in ps[k..] <==> p in OlderThan(s, Some(d))
    {
      RestMembers(ps, k, p);
    }
    ListingIsUnique(OlderThan(s, Some(d)), ps[k..]);
  }

  /** The cursor of a page leads exactly to what the page left out, in any later table too. */
  lemma CursorIsLastPlace(requests: Requests, requests': Requests, walletId: WalletId, cursor: Option<RequestId>,
                          limit: int)
    requires Grows(requests, requests') && GetWalletHistory(requests, walletId, cursor, limit).hasMore
    ensures var page := GetWalletHistory(requests, walletId, cursor, limit);
      BoundOf(requests', page.cursor) == Some(page.data[|page.data| - 1])
  {
    var page, s := GetWalletHistory(requests, walletId, cursor, limit), PlacesOf(requests, walletId);
    PageTakesNewest(requests, walletId, cursor, limit);
    hide GetWalletHistory, Listing;
    var last := page.data[|page.data| - 1];
    assert last in Listing(OlderThan(s, BoundOf(requests, cursor)));
    assert last in s;
  }

  lemma PlacesGrow(requests: Requests, requests': Requests, walletId: WalletId)
    requires Grows(requests, requests')
    ensures PlacesOf(requests, walletId) <= PlacesOf(requests', walletId)
  {
    forall p | p in PlacesOf(requests, walletId)
      ensures p in PlacesOf(requests', walletId)
    {
      assert p.id in requests && p.id in requests';
    }
  }

  /** A first page and a complete walk from its last place make a complete walk from the page's own bound. */
  lemma ExtendsWalk(s: set<Place>, s': set<Place>, bound: Option<Place>, k: nat, rest: seq<Place>)
    requires s <= s' && 0 < k <= |OlderThan(s, bound)| && Descending(rest)
    requires forall p | p in rest :: Newer(Listing(OlderThan(s, bound))[k - 1], p)
    requires forall p | p in OlderThan(s', Some(Listing(OlderThan(s, bound))[k - 1])) :: p in rest
    ensures var all := Listing(OlderThan(s, bound))[..k] + rest;
      && Descending(all)
      && (forall p | p in all && bound.Some? :: Newer(bound.value, p))
      && (forall p | p in OlderThan(s, bound) :: p in all)
  {
    var beyond := OlderThan(s, bound);
    var data := Listing(beyond)[..k];
    var last := data[k - 1];
    JoinPages(data, rest);
    assert last in beyond;
    forall p | p in data + rest && bound.Some?
      ensures Newer(bound.value, p)
    {
      if p in data {
        assert p in Listing(beyond);
      } else {
        assert p in rest;
      }
    }
    forall p | p in beyond
      ensures p in data + rest
    {
      BeyondIsListed(beyond, k, p);
    }
  }

  /**
   The walk from any cursor: everything it lists lies beyond the bound, newest first, and nothing
   that was there is missed.
   */
  lemma {:induction false} WalkFromBound(tables: seq<Requests>, pages: seq<Page>, walletId: WalletId,
                                         cursor: Option<RequestId>, limit: int)
    requires IsWalk(tables, pages, walletId, cursor, limit)
    ensures var all, bound := AllData(pages), BoundOf(tables[0], cursor);
      && Descending(all)
      && (forall p | p in all && bound.Some? :: Newer(bound.value, p))
      && (forall p | p in OlderThan(PlacesOf(tables[0], walletId), bound) :: p in all)
    decreases |pages|
  {
    var page, bound := pages[0], BoundOf(tables[0], cursor);
    var s, n := PlacesOf(tables[0], walletId), PageSize(limit);
    PageTakesNewest(tables[0], walletId, cursor, limit);
    if |pages| == 1 {
      assert AllData(pages[1..]) == [];
      assert AllData(pages) == Listing(OlderThan(s, bound));
    } else {
      WalkFromBound(tables[1..], pages[1..], walletId, page.cursor, limit);
      CursorIsLastPlace(tables[0], tables[1], walletId, cursor, limit);
      PlacesGrow(tables[0], tables[1], walletId);
      ExtendsWalk(s, PlacesOf(tables[1], walletId), bound, n, AllData(pages[1..]));
    }
  }

  lemma BeyondIsListed(s: set<Place>, k: nat, p: Place)
    requires 0 < k <= |s| && p in s
    ensures p in Listing(s)[..k] || Newer(Listing(s)[k - 1], p)
  {
    var i :| 0 <= i < |Listing(s)| && Listing(s)[i] == p;
    if i < k { assert Listing(s)[..k][i] == p; }
  }

  lemma JoinPages(data: seq<Place>, rest: seq<Place>)
    requires data != [] && Descending(data) && Descending(rest)
    requires forall p | p in rest :: Newer(data[|data| - 1], p)
    ensures Descending(data + rest)
  {
    var all := data + rest;
    forall i, j | 0 <= i < j < |all|
      ensures Newer(all[i], all[j])
    {
      if i < |data| <= j {
        assert all[j] in rest;
        if i < |data| - 1 { assert Newer(data[i], data[|data| - 1]); }
      }
    }
  }

  function Only(ps: seq<Place>, s: set<Place>): seq<Place> {
    if ps == [] then [] else (if ps[0] in s then [ps[0]] else []) + Only(ps[1..], s)
  }

  lemma {:induction false} OnlyMembers(ps: seq<Place>, s: set<Place>)
    ensures forall p :: p in Only(ps, s) <==> p in ps && p in s
  {
    if ps != [] {
      OnlyMembers(ps[1..], s);
      assert ps == [ps[0]] + ps[1..];
    }
  }

  lemma DescendingCons(p: Place, rest: seq<Place>)
    requires Descending(rest) && forall q | q in rest :: Newer(p, q)
    ensures Descending([p] + rest)
  {
    assert forall i | 0 <= i < |rest| :: rest[i] in rest;
  }

  lemma {:induction false} OnlyKeepsOrder(ps: seq<Place>, s: set<Place>)
    requires Descending(ps)
    ensures Descending(Only(ps, s))
  {
    if ps != [] {
      OnlyKeepsOrder(ps[1..], s);
      OnlyMembers(ps[1..], s);
      hide Newer;
      assert forall p | p in ps[1..] :: Newer(ps[0], p);
      DescendingCons(ps[0], Only(ps[1..], s));
    }
  }

  /**
   Following the cursors from the first page until there are no more lists every request that the
   wallet had at the start exactly once, newest first, however many new requests are inserted
   between the pages; nothing at all is listed twice.
   */
  lemma WalkIsComplete(tables: seq<Requests>, pages: seq<Page>, walletId: WalletId, limit: int)
    requires IsWalk(tables, pages, walletId, None, limit)
    ensures Only(AllData(pages), PlacesOf(tables[0], walletId)) == Listing(PlacesOf(tables[0], walletId))
    ensures Descending(AllData(pages))
  {
    WalkFromBound(tables, pages, walletId, None, limit);
    var s := PlacesOf(tables[0], walletId);
    assert OlderThan(s, None) == s;
    OnlyKeepsOrder(AllData(pages), s);
    OnlyMembers(AllData(pages), s);
    ListingIsUnique(s, Only(AllData(pages), s));
  }

  // ---------------------------------------------------------------- how many pages

  /** `m` is max(1, ceil(n / pageSize)): the least number of pages, at least one, that holds n requests. */
  predicate IsPageCount(m: nat, n: nat, pageSize: nat) {
    m >= 1 && (m - 1) * pageSize < (if n == 0 then 1 else n) <= m * pageSize
  }

  lemma PageCountStep(m: nat, n: nat, pageSize: nat)
    requires 0 < pageSize < n && IsPageCount(m, n - pageSize, pageSize)
    ensures IsPageCount(m + 1, n, pageSize)
  {
    assert (m - 1) * pageSize + pageSize == m * pageSize && m * pageSize + pageSize == (m + 1) * pageSize;
  }

  /** The table has the starting requests of the wallet, and otherwise only requests newer than all of them. */
  ghost predicate OnlyNewerAdded(start: set<Place>, requests: Requests, walletId: WalletId) {
    && start <= PlacesOf(requests, walletId)
    && forall p, q | p in PlacesOf(requests, walletId) && p !in start && q in start :: Newer(p, q)
  }

  ghost predicate AddingOnlyNewer(start: set<Place>, tables: seq<Requests>, walletId: WalletId) {
    forall i | 0 <= i < |tables| :: OnlyNewerAdded(start, tables[i], walletId)
  }

  /** What was added lies before any starting request, so never beyond it. */
  lemma SameBeyond(start: set<Place>, requests: Requests, walletId: WalletId, last: Place)
    requires OnlyNewerAdded(start, requests, walletId) && last in start
    ensures OlderThan(PlacesOf(requests, walletId), Some(last)) == OlderThan(start, Some(last))
  {
    hide PlacesOf;
  }

  /** A full first page leaves exactly the rest of the listing for the next. */
  lemma RestAfterPage(s: set<Place>, bound: Option<Place>, n: nat)
    requires 0 < n <= |OlderThan(s, bound)|
    ensures var beyond := OlderThan(s, bound);
      Listing(OlderThan(s, Some(Listing(beyond)[n - 1]))) == Listing(beyond)[n..]
  {
    hide Listing;
    var beyond := OlderThan(s, bound);
    var last := Listing(beyond)[n - 1];
    assert last in Listing(beyond);
    RestOfListing(beyond, n);
    assert last in beyond;
    assert OlderThan(s, Some(last)) == OlderThan(beyond, Some(last));
  }

  /** What lies beyond the cursor in the table is what lies beyond it among the starting requests. */
  ghost predicate StartsFrom(start: set<Place>, requests: Requests, walletId: WalletId, cursor: Option<RequestId>) {
    OlderThan(PlacesOf(requests, walletId), BoundOf(requests, cursor)) == OlderThan(start, BoundOf(requests, cursor))
  }

  /** A first page with more to come is full, and leaves exactly the rest for the next, in any later table. */
  lemma AfterFirstPage(start: set<Place>, requests: Requests, requests': Requests, walletId: WalletId,
                       cursor: Option<RequestId>, limit: int)
    requires Grows(requests, requests') && OnlyNewerAdded(start, requests', walletId)
    requires StartsFrom(start, requests, walletId, cursor)
             && GetWalletHistory(requests, walletId, cursor, limit).hasMore
    ensures var page, n := GetWalletHistory(requests, walletId, cursor, limit), PageSize(limit);
      var beyond := OlderThan(start, BoundOf(requests, cursor));
      && |beyond| > n && page.data == Listing(beyond)[..n]
      && StartsFrom(start, requests', walletId, page.cursor)
      && Listing(OlderThan(start, BoundOf(requests', page.cursor))) == Listing(beyond)[n..]
  {
    var page, n := GetWalletHistory(requests, walletId, cursor, limit), PageSize(limit);
    var beyond := OlderThan(start, BoundOf(requests, cursor));
    PageTakesNewest(requests, walletId, cursor, limit);
    CursorIsLastPlace(requests, requests', walletId, cursor, limit);
    hide Listing, GetWalletHistory, BoundOf, OnlyNewerAdded, PlacesOf;
    var last := Listing(beyond)[n - 1];
    assert last in Listing(beyond) && last in beyond && last in start;
    SameBeyond(start, requests', walletId, last);
    RestAfterPage(start, BoundOf(requests, cursor), n);
  }

  lemma OnlyPage(tables: seq<Requests>, pages: seq<Page>, walletId: WalletId, cursor: Option<RequestId>, limit: int)
    requires IsWalk(tables, pages, walletId, cursor, limit) && |pages| == 1
    ensures var beyond := OlderThan(PlacesOf(tables[0], walletId), BoundOf(tables[0], cursor));
      |beyond| <= PageSize(limit) && AllData(pages) == Listing(beyond)
  {
    PageTakesNewest(tables[0], walletId, cursor, limit);
    assert AllData(pages[1..]) == [];
    assert AllData(pages) == pages[0].data + [];
  }

  /** The pages are this listing, cut at every page size. */
  ghost predicate Paginates(pages: seq<Page>, listing: seq<Place>, pageSize: nat) {
    IsPageCount(|pages|, |listing|, pageSize) && AllData(pages) == listing
  }

  lemma PaginatesCons(pages: seq<Page>, listing: seq<Place>, pageSize: nat)
    requires |pages| > 1 && 0 < pageSize < |listing| && pages[0].data == listing[..pageSize]
    requires Paginates(pages[1..], listing[pageSize..], pageSize)
    ensures Paginates(pages, listing, pageSize)
  {
    PageCountStep(|pages| - 1, |listing|, pageSize);
    assert listing == listing[..pageSize] + listing[pageSize..];
  }

  lemma {:induction false} PagesFromBound(start: set<Place>, tables: seq<Requests>, pages: seq<Page>,
                                          walletId: WalletId, cursor: Option<RequestId>, limit: int)
    requires IsWalk(tables, pages, walletId, cursor, limit)
    requires AddingOnlyNewer(start, tables, walletId) && StartsFrom(start, tables[0], walletId, cursor)
    ensures Paginates(pages, Listing(OlderThan(start, BoundOf(tables[0], cursor))), PageSize(limit))
    decreases |pages|
  {
    hide Listing, GetWalletHistory, OnlyNewerAdded, BoundOf;
    if |pages| == 1 {
      OnlyPage(tables, pages, walletId, cursor, limit);
    } else {
      AfterFirstPage(start, tables[0], tables[1], walletId, cursor, limit);
      PagesFromBound(start, tables[1..], pages[1..], walletId, pages[0].cursor, limit);
      PaginatesCons(pages, Listing(OlderThan(start, BoundOf(tables[0], cursor))), PageSize(limit));
    }
  }

  /**
   When the requests inserted between the pages are newer than those at the start, as their time makes
   them, the walk lists exactly the requests at the start, newest first, in max(1, ceil(n / pageSize)) pages.
   */
  lemma WalkIgnoresNewer(tables: seq<Requests>, pages: seq<Page>, walletId: WalletId, limit: int)
    requires IsWalk(tables, pages, walletId, None, limit)
    requires AddingOnlyNewer(PlacesOf(tables[0], walletId), tables, walletId)
    ensures IsPageCount(|pages|, |PlacesOf(tables[0], walletId)|, PageSize(limit))
    ensures AllData(pages) == Listing(PlacesOf(tables[0], walletId))
  {
    PagesFromBound(PlacesOf(tables[0], walletId), tables, pages, walletId, None, limit);
    assert OlderThan(PlacesOf(tables[0], walletId), None) == PlacesOf(tables[0], walletId);
  }

  /** With no inserts at all in particular. */
  lemma QuietWalk(tables: seq<Requests>, pages: seq<Page>, walletId: WalletId, limit: int)
    requires IsWalk(tables, pages, walletId, None, limit)
    requires forall i | 0 <= i < |tables| :: tables[i] == tables[0]
    ensures IsPageCount(|pages|, |PlacesOf(tables[0], walletId)|, PageSize(limit))
    ensures AllData(pages) == Listing(PlacesOf(tables[0], walletId))
  {
    WalkIgnoresNewer(tables, pages, walletId, limit);
  }

  /** A walk that has not come to its end: every page so far has more. */
  ghost predicate IsUnfinished(tables: seq<Requests>, pages: seq<Page>, walletId: WalletId, cursor: Option<RequestId>,
                               limit: int)
  {
    && |tables| == |pages| > 0
    && pages[0] == GetWalletHistory(tables[0], walletId, cursor, limit) && pages[0].hasMore
    && (|pages| > 1 ==>
          Grows(tables[0], tables[1]) && IsUnfinished(tables[1..], pages[1..], walletId, pages[0].cursor, limit))
  }

  /** More requests than k full pages hold. */
  predicate Overfills(n: nat, k: nat, pageSize: nat) {
    k * pageSize < n
  }

  lemma OneMorePage(n: nat, k: nat, pageSize: nat)
    requires k > 0 && n > pageSize && Overfills(n - pageSize, k - 1, pageSize)
    ensures Overfills(n, k, pageSize)
  {
    assert k * pageSize == (k - 1) * pageSize + pageSize;
  }

  lemma AfterFullPage(start: set<Place>, requests: Requests, requests': Requests, walletId: WalletId,
                      cursor: Option<RequestId>, limit: int)
    requires Grows(requests, requests') && OnlyNewerAdded(start, requests', walletId)
    requires StartsFrom(start, requests, walletId, cursor)
             && GetWalletHistory(requests, walletId, cursor, limit).hasMore
    ensures var cursor' := GetWalletHistory(requests, walletId, cursor, limit).cursor;
      var n, n' := |OlderThan(start, BoundOf(requests, cursor))|, |OlderThan(start, BoundOf(requests', cursor'))|;
      StartsFrom(start, requests', walletId, cursor') && n > PageSize(limit) && n' == n - PageSize(limit)
  {
    AfterFirstPage(start, requests, requests', walletId, cursor, limit);
  }

  lemma {:induction false} UnfinishedFromBound(start: set<Place>, tables: seq<Requests>, pages: seq<Page>,
                                               walletId: WalletId, cursor: Option<RequestId>, limit: int)
    requires IsUnfinished(tables, pages, walletId, cursor, limit)
    requires AddingOnlyNewer(start, tables, walletId) && StartsFrom(start, tables[0], walletId, cursor)
    ensures Overfills(|OlderThan(start, BoundOf(tables[0], cursor))|, |pages|, PageSize(limit))
    decreases |pages|
  {
    hide GetWalletHistory, OnlyNewerAdded, BoundOf, Overfills, OlderThan, Grows, StartsFrom;
    var n := PageSize(limit);
    if |pages| == 1 {
      FullPageLeavesMore(start, tables[0], walletId, cursor, limit);
    } else {
      AfterFullPage(start, tables[0], tables[1], walletId, cursor, limit);
      UnfinishedFromBound(start, tables[1..], pages[1..], walletId, pages[0].cursor, limit);
      OneMorePage(|OlderThan(start, BoundOf(tables[0], cursor))|, |pages|, n);
    }
  }

  lemma FullPageLeavesMore(start: set<Place>, requests: Requests, walletId: WalletId, cursor: Option<RequestId>,
                           limit: int)
    requires StartsFrom(start, requests, walletId, cursor)
             && GetWalletHistory(requests, walletId, cursor, limit).hasMore
    ensures Overfills(|OlderThan(start, BoundOf(requests, cursor))|, 1, PageSize(limit))
  {
    PageTakesNewest(requests, walletId, cursor, limit);
  }

  /** With only newer inserts an unfinished walk has fetched fewer pages than the starting requests fill. */
  lemma WalkPastNewerEnds(tables: seq<Requests>, pages: seq<Page>, walletId: WalletId, limit: int)
    requires IsUnfinished(tables, pages, walletId, None, limit)
    requires AddingOnlyNewer(PlacesOf(tables[0], walletId), tables, walletId)
    ensures Overfills(|PlacesOf(tables[0], walletId)|, |pages|, PageSize(limit))
  {
    UnfinishedFromBound(PlacesOf(tables[0], walletId), tables, pages, walletId, None, limit);
    assert OlderThan(PlacesOf(tables[0], walletId), None) == PlacesOf(tables[0], walletId);
  }

  lemma DisjointParts(whole: set<Place>, part: set<Place>, part': set<Place>)
    requires part <= whole && part' <= whole && part !! part'
    ensures |part| + |part'| <= |whole|
  {
    assert |part + part'| == |part| + |part'|;
    SubsetSize(part + part', whole);
  }

  lemma {:induction false} SubsetSize(part: set<Place>, whole: set<Place>)
    requires part <= whole
    ensures |part| <= |whole|
    decreases part
  {
    if p :| p in part {
      SubsetSize(part - {p}, whole - {p});
    }
  }

  lemma {:induction false} PlacesAsSet(ps: seq<Place>)
    requires Descending(ps)
    ensures |(set p | p in ps)| == |ps|
  {
    if ps != [] {
      assert forall p | p in ps[1..] :: Newer(ps[0], p);
      PlacesAsSet(ps[1..]);
      assert (set p | p in ps) == {ps[0]} + (set p | p in ps[1..]);
    }
  }

  /** A page and what lies beyond it, in any later table, are apart, and both lie beyond the page's bound. */
  lemma PageAndRest(s: set<Place>, s': set<Place>, bound: Option<Place>, k: nat)
    requires s <= s' && 0 < k <= |OlderThan(s, bound)|
    ensures k + |OlderThan(s', Some(Listing(OlderThan(s, bound))[k - 1]))| <= |OlderThan(s', bound)|
  {
    var ps := Listing(OlderThan(s, bound));
    var data, last := ps[..k], ps[k - 1];
    hide Listing;
    assert last in ps;
    var page := set p | p in data;
    PlacesAsSet(data);
    forall p | p in page
      ensures p in OlderThan(s', bound) && !Newer(last, p)
    {
      assert p in ps;
      var i :| 0 <= i < k && data[i] == p;
      if i < k - 1 { assert Newer(ps[i], ps[k - 1]); }
    }
    DisjointParts(OlderThan(s', bound), page, OlderThan(s', Some(last)));
  }

  lemma {:induction false} GrowsAlong(tables: seq<Requests>, pages: seq<Page>, walletId: WalletId,
                                      cursor: Option<RequestId>, limit: int)
    requires IsUnfinished(tables, pages, walletId, cursor, limit)
    ensures PlacesOf(tables[0], walletId) <= PlacesOf(tables[|tables| - 1], walletId)
    decreases |pages|
  {
    hide GetWalletHistory, PlacesOf, Grows;
    if |pages| > 1 {
      PlacesGrow(tables[0], tables[1], walletId);
      GrowsAlong(tables[1..], pages[1..], walletId, pages[0].cursor, limit);
    }
  }

  lemma {:induction false} UnfinishedIsBounded(tables: seq<Requests>, pages: seq<Page>, walletId: WalletId,
                                               cursor: Option<RequestId>, limit: int)
    requires IsUnfinished(tables, pages, walletId, cursor, limit)
    ensures var all := PlacesOf(tables[|tables| - 1], walletId);
      Overfills(|OlderThan(all, BoundOf(tables[0], cursor))|, |pages|, PageSize(limit))
    decreases |pages|
  {
    var n, s, all := PageSize(limit), PlacesOf(tables[0], walletId), PlacesOf(tables[|tables| - 1], walletId);
    var bound := BoundOf(tables[0], cursor);
    PageTakesNewest(tables[0], walletId, cursor, limit);
    if |pages| > 1 {
      hide GetWalletHistory, Listing, PlacesOf, Grows, Overfills, OlderThan;
      GrowsAlong(tables, pages, walletId, cursor, limit);
      CursorIsLastPlace(tables[0], tables[1], walletId, cursor, limit);
      PageAndRest(s, all, bound, n);
      UnfinishedIsBounded(tables[1..], pages[1..], walletId, pages[0].cursor, limit);
      var last := Listing(OlderThan(s, bound))[n - 1];
      assert BoundOf(tables[1], pages[0].cursor) == Some(last);
      OneMorePageThan(|OlderThan(all, bound)|, |OlderThan(all, Some(last))|, |pages|, n);
    }
  }

  lemma OneMorePageThan(n: nat, rest: nat, k: nat, pageSize: nat)
    requires k > 0 && pageSize + rest <= n && Overfills(rest, k - 1, pageSize)
    ensures Overfills(n, k, pageSize)
  {
    assert k * pageSize == (k - 1) * pageSize + pageSize;
  }

  /**
   Whatever is inserted, a walk that is not at its end has fetched fewer pages than all the wallet's
   requests so far fill: it goes on only while requests keep being inserted.
   */
  lemma EveryWalkEnds(tables: seq<Requests>, pages: seq<Page>, walletId: WalletId, limit: int)
    requires IsUnfinished(tables, pages, walletId, None, limit)
    ensures Overfills(|PlacesOf(tables[|tables| - 1], walletId)|, |pages|, PageSize(limit))
  {
    UnfinishedIsBounded(tables, pages, walletId, None, limit);
    assert OlderThan(PlacesOf(tables[|tables| - 1], walletId), None) == PlacesOf(tables[|tables| - 1], walletId);
  }
}
