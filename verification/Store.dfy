/** The routes table of internal/store/store.go: rows in rowid order under two UNIQUE constraints. */
module Store {
  import opened Results
  import opened Domain
  import opened Listing

  /** How the database misbehaves during one statement: not at all, by refusing it with nothing
      changed, or by failing the read that follows the statement. */
  datatype SqlFault = NoFault | WriteFault | ReadFault

  /** The health of a route is not a column; scanning a row sets it to unknown. */
  function AsRow(route: Route): Route {
    route.(health := HealthUnknown)
  }

  function AsRows(routes: seq<Route>): seq<Route> {
    seq(|routes|, i requires 0 <= i < |routes| => AsRow(routes[i]))
  }

  predicate AreRows(rows: seq<Route>) {
    forall i :: 0 <= i < |rows| ==> rows[i].health == HealthUnknown
  }

  // ----- One statement each: the new table, or why the database refuses -----

  function InsertRow(rows: seq<Route>, route: Route): Result<seq<Route>, Error> {
    if route.id in Ids(rows) || route.hostname in Hosts(rows) then Err(HostnameConflict)
    else Ok(rows + [AsRow(route)])
  }

  function UpdatedRow(row: Route, route: Route, now: Time): Route {
    AsRow(route).(id := row.id, revision := row.revision + 1, createdAt := row.createdAt, updatedAt := now)
  }

  /** The compare-and-swap on the revision, then the UNIQUE check against the other rows. */
  function UpdateRow(rows: seq<Route>, route: Route, expected: int, now: Time): Result<seq<Route>, Error> {
    var i := IndexOf(rows, route.id);
    if i == |rows| then Err(NotFound)
    else if rows[i].revision != expected then Err(RevisionConflict)
    else if exists j :: 0 <= j < |rows| && j != i && rows[j].hostname == route.hostname then Err(HostnameConflict)
    else Ok(rows[i := UpdatedRow(rows[i], route, now)])
  }

  function DeleteRow(rows: seq<Route>, id: string, expected: int): Result<seq<Route>, Error> {
    var i := IndexOf(rows, id);
    if i == |rows| then Err(NotFound)
    else if rows[i].revision != expected then Err(RevisionConflict)
    else Ok(rows[..i] + rows[i + 1..])
  }

  function ReplaceRows(routes: seq<Route>): Result<seq<Route>, Error> {
    if IsTable(routes) then Ok(AsRows(routes)) else Err(SqlFailure)
  }

  /** The error reported when no row matched: the follow-up read tells a missing row from a stale one,
      and a failed follow-up read passes for a stale one. */
  function Unmatched(error: Error, fault: SqlFault): Error {
    if fault == ReadFault && error == NotFound then RevisionConflict else error
  }

  // ----- The table, updated in place -----

  class Store {
    const zone: string
    var rows: seq<Route>

    ghost predicate Valid()
      reads this
    {
      IsTable(rows) && AreRows(rows)
    }

    constructor (zone: string)
      ensures Valid() && rows == [] && this.zone == zone
    {
      this.zone := zone;
      this.rows := [];
    }

    method CreateRoute(route: Route, fault: SqlFault) returns (error: Option<Error>)
      requires Valid()
      modifies this`rows
      ensures Valid()
      ensures fault == WriteFault ==> error == Some(SqlFailure) && rows == old(rows)
      ensures fault != WriteFault ==>
                match InsertRow(old(rows), route)
                case Ok(after) => error == None && rows == after
                case Err(e) => error == Some(e) && rows == old(rows)
    {
      if fault == WriteFault {
        return Some(SqlFailure);
      }
      for i := 0 to |rows|
        invariant rows == old(rows)
        invariant forall k :: 0 <= k < i ==> rows[k].id != route.id && rows[k].hostname != route.hostname
      {
        if rows[i].id == route.id || rows[i].hostname == route.hostname {
          assert rows[i] in rows;
          return Some(HostnameConflict);
        }
      }
      rows := rows + [AsRow(route)];
      return None;
    }

    method GetRoute(id: string, fault: SqlFault) returns (result: Result<Route, Error>)
      ensures fault == ReadFault ==> result == Err(SqlFailure)
      ensures fault != ReadFault && id !in Ids(rows) ==> result == Err(NotFound)
      ensures fault != ReadFault && id in Ids(rows) ==> result.Ok? && result.value in rows && result.value.id == id
    {
      if fault == ReadFault {
        return Err(SqlFailure);
      }
      var i := IndexOf(rows, id);
      if i == |rows| {
        return Err(NotFound);
      }
      return Ok(rows[i]);
    }

    method UpdateRoute(route: Route, expected: int, now: Time, fault: SqlFault) returns (result: Result<Route, Error>)
      requires Valid()
      modifies this`rows
      ensures Valid()
      ensures fault == WriteFault ==> result == Err(SqlFailure) && rows == old(rows)
      ensures fault != WriteFault ==>
                match UpdateRow(old(rows), route, expected, now)
                case Err(e) => result == Err(Unmatched(e, fault)) && rows == old(rows)
                case Ok(after) =>
                  && rows == after
                  && (fault == ReadFault ==> result == Err(SqlFailure))
                  && (fault == NoFault ==> result.Ok? && result.value in rows && result.value.id == route.id)
    {
      if fault == WriteFault {
        return Err(SqlFailure);
      }
      var i := IndexOf(rows, route.id);
      if i == |rows| || rows[i].revision != expected {
        var found := GetRoute(route.id, fault);
        return Err(if found == Err(NotFound) then NotFound else RevisionConflict);
      }
      for j := 0 to |rows|
        invariant rows == old(rows)
        invariant forall k :: 0 <= k < j && k != i ==> rows[k].hostname != route.hostname
      {
        if j != i && rows[j].hostname == route.hostname {
          return Err(HostnameConflict);
        }
      }
      rows := rows[i := UpdatedRow(rows[i], route, now)];
      assert rows[i] in rows;
      result := GetRoute(route.id, fault);
    }

    method DeleteRoute(id: string, expected: int, fault: SqlFault) returns (error: Option<Error>)
      requires Valid()
      modifies this`rows
      ensures Valid()
      ensures fault == WriteFault ==> error == Some(SqlFailure) && rows == old(rows)
      ensures fault != WriteFault ==>
                match DeleteRow(old(rows), id, expected)
                case Err(e) => error == Some(Unmatched(e, fault)) && rows == old(rows)
                case Ok(after) => error == None && rows == after
    {
      if fault == WriteFault {
        return Some(SqlFailure);
      }
      var i := IndexOf(rows, id);
      if i == |rows| || rows[i].revision != expected {
        var found := GetRoute(id, fault);
        return Some(if found == Err(NotFound) then NotFound else RevisionConflict);
      }
      rows := rows[..i] + rows[i + 1..];
      return None;
    }

    /** The transaction: clear the table, insert one route after another, commit. The statement
        numbered `failAt` fails, counting BEGIN as 0 and COMMIT as the last. */
    method ReplaceRoutes(routes: seq<Route>, failAt: nat) returns (error: Option<Error>)
      requires Valid()
      modifies this`rows
      ensures Valid()
      ensures error.Some? ==> rows == old(rows) && error == Some(SqlFailure)
      ensures error.None? ==> ReplaceRows(routes) == Ok(rows)
      ensures error.None? <==> failAt > |routes| + 2 && IsTable(routes)
    {
      if failAt <= 1 {
        return Some(SqlFailure);
      }
      var work: seq<Route> := [];
      for i := 0 to |routes|
        invariant rows == old(rows)
        invariant failAt > i + 1
        invariant IsTable(routes[..i]) && work == AsRows(routes[..i])
      {
        if failAt == i + 2 {
          return Some(SqlFailure);
        }
        var inserted := InsertRow(work, routes[i]);
        if inserted.Err? {
          SameKeys(routes[..i]);
          Clash(routes, i);
          return Some(SqlFailure);
        }
        SameKeys(routes[..i]);
        assert routes[..i + 1] == routes[..i] + [routes[i]];
        NoClash(routes[..i], routes[i]);
        work := inserted.value;
      }
      assert routes[..|routes|] == routes;
      if failAt == |routes| + 2 {
        return Some(SqlFailure);
      }
      rows := work;
      return None;
    }

    method ListRoutes(fault: SqlFault) returns (result: Result<seq<Route>, Error>)
      requires Valid()
      ensures fault == ReadFault ==> result == Err(SqlFailure)
      ensures fault != ReadFault ==> result == Ok(SortByHost(rows))
    {
      if fault == ReadFault {
        return Err(SqlFailure);
      }
      var ordered := SortByHost(rows);
      SortCorrect(rows);
      var routes: seq<Route> := [];
      for i := 0 to |ordered|
        invariant routes == ordered[..i]
      {
        assert ordered[i] in rows;
        routes := routes + [AsRow(ordered[i])];
      }
      assert routes == ordered;
      return Ok(routes);
    }
  }

  lemma SameKeys(routes: seq<Route>)
    ensures Ids(AsRows(routes)) == Ids(routes) && Hosts(AsRows(routes)) == Hosts(routes)
  {
    var rows := AsRows(routes);
    forall id ensures id in Ids(rows) <==> id in Ids(routes) {
      if id in Ids(rows) {
        var i :| 0 <= i < |rows| && rows[i].id == id;
        assert routes[i] in routes;
      }
      if id in Ids(routes) {
        var i :| 0 <= i < |routes| && routes[i].id == id;
        assert rows[i] in rows;
      }
    }
    forall h ensures h in Hosts(rows) <==> h in Hosts(routes) {
      if h in Hosts(rows) {
        var i :| 0 <= i < |rows| && rows[i].hostname == h;
        assert routes[i] in routes;
      }
      if h in Hosts(routes) {
        var i :| 0 <= i < |routes| && routes[i].hostname == h;
        assert rows[i] in rows;
      }
    }
  }

  lemma NoClash(routes: seq<Route>, route: Route)
    requires IsTable(routes) && route.id !in Ids(routes) && route.hostname !in Hosts(routes)
    ensures IsTable(routes + [route])
  {
    forall i | 0 <= i < |routes| ensures routes[i].id != route.id && routes[i].hostname != route.hostname {
      assert routes[i] in routes;
    }
  }

  lemma Clash(routes: seq<Route>, i: nat)
    requires i < |routes|
    requires routes[i].id in Ids(routes[..i]) || routes[i].hostname in Hosts(routes[..i])
    ensures !IsTable(routes)
  {
    var front := routes[..i];
    if routes[i].id in Ids(front) {
      var k :| 0 <= k < |front| && front[k].id == routes[i].id;
    } else {
      var k :| 0 <= k < |front| && front[k].hostname == routes[i].hostname;
    }
  }

  /** After a replacement the next listing returns the given list, in its own order. */
  lemma ReplacedListing(routes: seq<Route>)
    requires IsTable(routes) && Sorted(routes) && AreRows(routes)
    ensures ReplaceRows(routes).Ok? && SortByHost(ReplaceRows(routes).value) == routes
  {
    assert AsRows(routes) == routes;
    SortOfSorted(routes);
  }
}
