/** Lists of routes: distinctness, lookup by hostname, and the order `ORDER BY hostname` gives. */
module Listing {
  import opened Text
  import opened Domain

  function Ids(routes: seq<Route>): set<string> {
    set route | route in routes :: route.id
  }

  function Hosts(routes: seq<Route>): set<string> {
    set route | route in routes :: route.hostname
  }

  predicate DistinctIds(routes: seq<Route>) {
    forall i, j :: 0 <= i < j < |routes| ==> routes[i].id != routes[j].id
  }

  predicate DistinctHosts(routes: seq<Route>) {
    forall i, j :: 0 <= i < j < |routes| ==> routes[i].hostname != routes[j].hostname
  }

  /** The two UNIQUE constraints of the routes table. */
  predicate IsTable(rows: seq<Route>) {
    DistinctIds(rows) && DistinctHosts(rows)
  }

  ghost predicate SameRoutes(a: seq<Route>, b: seq<Route>) {
    forall route :: route in a <==> route in b
  }

  predicate Sorted(routes: seq<Route>) {
    forall i, j :: 0 <= i < j < |routes| ==> StrLess(routes[i].hostname, routes[j].hostname)
  }

  lemma SortedHasDistinctHosts(routes: seq<Route>)
    requires Sorted(routes)
    ensures DistinctHosts(routes)
  {
    forall i, j | 0 <= i < j < |routes| ensures routes[i].hostname != routes[j].hostname {
      StrLessIrreflexive(routes[i].hostname);
    }
  }

  /** Among rows with distinct ids, distinctness passes to any list of some of them. */
  lemma DistinctIdsTransfer(rows: seq<Route>, list: seq<Route>)
    requires DistinctIds(rows) && DistinctHosts(list)
    requires forall route :: route in list ==> route in rows
    ensures DistinctIds(list)
  {
    forall i, j | 0 <= i < j < |list| ensures list[i].id != list[j].id {
      assert list[i] in rows && list[j] in rows;
    }
  }

  // ----- Sorting -----

  function InsertByHost(route: Route, sorted: seq<Route>): seq<Route> {
    if sorted != [] && StrLess(sorted[0].hostname, route.hostname) then
      [sorted[0]] + InsertByHost(route, sorted[1..])
    else [route] + sorted
  }

  function SortByHost(routes: seq<Route>): seq<Route> {
    if routes == [] then [] else InsertByHost(routes[0], SortByHost(routes[1..]))
  }

  lemma {:induction false} InsertKeeps(route: Route, sorted: seq<Route>)
    ensures forall r :: r in InsertByHost(route, sorted) <==> r == route || r in sorted
    ensures |InsertByHost(route, sorted)| == |sorted| + 1
  {
    if sorted != [] && StrLess(sorted[0].hostname, route.hostname) {
      InsertKeeps(route, sorted[1..]);
      assert sorted == [sorted[0]] + sorted[1..];
    }
  }

  lemma {:induction false} InsertSorts(route: Route, sorted: seq<Route>)
    requires Sorted(sorted) && route.hostname !in Hosts(sorted)
    ensures Sorted(InsertByHost(route, sorted))
  {
    if sorted != [] {
      StrLessTotal(sorted[0].hostname, route.hostname);
      assert sorted[0].hostname in Hosts(sorted);
      if StrLess(sorted[0].hostname, route.hostname) {
        InsertSorts(route, sorted[1..]);
        InsertKeeps(route, sorted[1..]);
        var rest := InsertByHost(route, sorted[1..]);
        forall j | 0 <= j < |rest| ensures StrLess(sorted[0].hostname, rest[j].hostname) {
          assert rest[j] in rest;
        }
      } else {
        forall j | 0 <= j < |sorted| ensures StrLess(route.hostname, sorted[j].hostname) {
          if j > 0 {
            StrLessTransitive(route.hostname, sorted[0].hostname, sorted[j].hostname);
          }
        }
      }
    }
  }

  /** Sorting keeps the routes and, when their hostnames are distinct, orders them strictly. */
  lemma {:induction false} SortCorrect(routes: seq<Route>)
    ensures SameRoutes(SortByHost(routes), routes)
    ensures |SortByHost(routes)| == |routes|
    ensures DistinctHosts(routes) ==> Sorted(SortByHost(routes))
  {
    if routes != [] {
      var tail := routes[1..];
      SortCorrect(tail);
      InsertKeeps(routes[0], SortByHost(tail));
      assert routes == [routes[0]] + tail;
      if DistinctHosts(routes) {
        assert routes[0].hostname !in Hosts(SortByHost(tail));
        InsertSorts(routes[0], SortByHost(tail));
      }
    }
  }

  lemma NonEmptyHasMember(routes: seq<Route>)
    ensures routes != [] ==> exists route :: route in routes
  {
    if routes != [] {
      assert routes[0] in routes;
    }
  }

  /** A strictly sorted list is determined by the routes in it. */
  lemma {:induction false} SortedUnique(a: seq<Route>, b: seq<Route>)
    requires Sorted(a) && Sorted(b) && SameRoutes(a, b)
    ensures a == b
  {
    NonEmptyHasMember(a);
    NonEmptyHasMember(b);
    if a != [] && b != [] {
      assert a[0] in b && b[0] in a;
      var i :| 0 <= i < |b| && b[i] == a[0];
      var j :| 0 <= j < |a| && a[j] == b[0];
      if i > 0 && j > 0 {
        StrLessTransitive(a[0].hostname, a[j].hostname, b[i].hostname);
        StrLessIrreflexive(a[0].hostname);
      }
      SortedHasDistinctHosts(a);
      SortedHasDistinctHosts(b);
      assert a[0] == b[0];
      assert a == [a[0]] + a[1..] && b == [b[0]] + b[1..];
      assert a[0] !in a[1..] && b[0] !in b[1..];
      forall route ensures route in a[1..] <==> route in b[1..] {
        assert route in a <==> route in b;
      }
      SortedUnique(a[1..], b[1..]);
    }
  }

  /** Any rearrangement of a table lists the same way. */
  lemma SortDependsOnContent(a: seq<Route>, b: seq<Route>)
    requires DistinctHosts(a) && DistinctHosts(b) && SameRoutes(a, b)
    ensures SortByHost(a) == SortByHost(b)
  {
    SortCorrect(a);
    SortCorrect(b);
    SortedUnique(SortByHost(a), SortByHost(b));
  }

  lemma SortOfSorted(routes: seq<Route>)
    requires Sorted(routes)
    ensures SortByHost(routes) == routes
  {
    SortedHasDistinctHosts(routes);
    SortCorrect(routes);
    SortedUnique(SortByHost(routes), routes);
  }

  lemma SortedTable(rows: seq<Route>)
    requires IsTable(rows)
    ensures IsTable(SortByHost(rows)) && Sorted(SortByHost(rows))
    ensures Ids(SortByHost(rows)) == Ids(rows) && Hosts(SortByHost(rows)) == Hosts(rows)
  {
    SortCorrect(rows);
    SortedHasDistinctHosts(SortByHost(rows));
    DistinctIdsTransfer(rows, SortByHost(rows));
  }

  // ----- Lookup -----

  /** The map the source fills in a loop over a list of routes. */
  function ByHost(routes: seq<Route>): map<string, Route> {
    if routes == [] then map[]
    else
      var last := routes[|routes| - 1];
      ByHost(routes[..|routes| - 1])[last.hostname := last]
  }

  lemma {:induction false} ByHostFinds(routes: seq<Route>)
    ensures ByHost(routes).Keys == Hosts(routes)
    ensures forall h :: h in ByHost(routes) ==> ByHost(routes)[h] in routes && ByHost(routes)[h].hostname == h
    ensures DistinctHosts(routes) ==> forall route :: route in routes ==> ByHost(routes)[route.hostname] == route
  {
    if routes != [] {
      var front, last := routes[..|routes| - 1], routes[|routes| - 1];
      ByHostFinds(front);
      assert routes == front + [last];
      assert Hosts(routes) == Hosts(front) + {last.hostname};
      if DistinctHosts(routes) {
        assert forall route :: route in front ==> route.hostname != last.hostname;
      }
    }
  }

  lemma {:induction false} HostCount(routes: seq<Route>)
    requires DistinctHosts(routes)
    ensures |Hosts(routes)| == |routes|
  {
    if routes != [] {
      var front, last := routes[..|routes| - 1], routes[|routes| - 1];
      HostCount(front);
      assert routes == front + [last];
      assert Hosts(routes) == Hosts(front) + {last.hostname};
      assert last.hostname !in Hosts(front);
    }
  }

  /** The position of the row with this id; the length of the table when there is none. */
  function IndexOf(rows: seq<Route>, id: string): (i: nat)
    ensures i <= |rows|
    ensures i < |rows| ==> rows[i].id == id
    ensures i < |rows| <==> id in Ids(rows)
  {
    if rows == [] then 0
    else if rows[0].id == id then
      assert rows[0] in rows;
      0
    else
      assert rows == [rows[0]] + rows[1..];
      assert Ids(rows) == {rows[0].id} + Ids(rows[1..]);
      1 + IndexOf(rows[1..], id)
  }
}
