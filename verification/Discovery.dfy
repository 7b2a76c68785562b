/**
 The tool listing behind its cache: how old a listing can be, what a `discover` guarantees, and what a
 category does to a cache key that leaves the category out.
 */
module Discovery {
  import opened Common
  import Text
  import opened TtlStore

  /** Identifiers are UUIDs, so they have no colon. */
  type Id = s: string | Text.Free(s, ':')

  datatype Row = Row(id: nat, org: Id, project: Option<Id>, category: string)

  /** An organisation, or one of its projects. */
  datatype Scope = Scope(org: Id, project: Option<Id>)

  const TTL_TOOLS := 300

  function KeyPartsOf(scope: Scope): (parts: seq<string>)
    ensures Text.AllFree(parts, ':')
  {
    if scope.project.None? then ["mcp", scope.org, "tools"] else ["mcp", scope.org, "project", scope.project.value, "tools"]
  }

  /** `MCPKeys.org_tools` and `MCPKeys.project_tools`. */
  function KeyOf(scope: Scope): Key {
    Text.Join(KeyPartsOf(scope), ':')
  }

  lemma OrgKeyText(org: Id)
    ensures KeyOf(Scope(org, None)) == "mcp:" + org + ":tools"
  {
    var parts := KeyPartsOf(Scope(org, None));
    assert parts[1..] == [org, "tools"] && [org, "tools"][1..] == ["tools"];
    assert Text.Join([org, "tools"], ':') == org + ":tools";
  }

  lemma ProjectKeyText(org: Id, project: Id)
    ensures KeyOf(Scope(org, Some(project))) == "mcp:" + org + ":project:" + project + ":tools"
  {
    var parts := KeyPartsOf(Scope(org, Some(project)));
    assert parts[1..] == [org, "project", project, "tools"];
    assert [org, "project", project, "tools"][1..] == ["project", project, "tools"];
    assert ["project", project, "tools"][1..] == [project, "tools"] && [project, "tools"][1..] == ["tools"];
    var last := project + ":tools";
    assert Text.Join([project, "tools"], ':') == last;
    assert Text.Join(["project", project, "tools"], ':') == "project:" + last;
    assert Text.Join([org, "project", project, "tools"], ':') == org + ":" + ("project:" + last);
    assert Text.Join(parts, ':') == "mcp:" + (org + ":" + ("project:" + last));
  }

  /** Different scopes have different keys. */
  lemma KeysAreInjective(a: Scope, b: Scope)
    requires KeyOf(a) == KeyOf(b)
    ensures a == b
  {
    Text.JoinInjective(KeyPartsOf(a), KeyPartsOf(b), ':');
    assert KeyPartsOf(a)[1] == a.org && KeyPartsOf(b)[1] == b.org;
    assert |KeyPartsOf(a)| == |KeyPartsOf(b)|;
    assert a.project.Some? ==> KeyPartsOf(a)[3] == a.project.value;
    assert b.project.Some? ==> KeyPartsOf(b)[3] == b.project.value;
  }

  /** The rows that the database query selects. */
  predicate Selected(row: Row, scope: Scope, category: Option<string>) {
    && row.org == scope.org
    && (scope.project.Some? ==> row.project == scope.project || row.project.None?)
    && (category.Some? && category.value != "" ==> row.category == category.value)
  }

  function Query(db: seq<Row>, scope: Scope, category: Option<string>): seq<Row> {
    if db == [] then []
    else (if Selected(db[0], scope, category) then [db[0]] else []) + Query(db[1..], scope, category)
  }

  /** The row is of the organisation, of the project or of none if a project is asked for, and of the category if one is
      named. */
  ghost predicate Belongs(row: Row, scope: Scope, category: Option<string>) {
    && row.org == scope.org
    && (scope.project.None? || row.project.None? || row.project.value == scope.project.value)
    && (category.None? || category.value == "" || row.category == category.value)
  }

  lemma QueryOne(row: Row, scope: Scope, category: Option<string>)
    ensures Query([row], scope, category) == if Belongs(row, scope, category) then [row] else []
  {
    assert [row][1..] == [];
  }

  /** A query keeps the order of the table. */
  lemma {:induction false} QueryConcat(a: seq<Row>, b: seq<Row>, scope: Scope, category: Option<string>)
    ensures Query(a + b, scope, category) == Query(a, scope, category) + Query(b, scope, category)
  {
    if a == [] {
      assert a + b == b;
    } else {
      QueryConcat(a[1..], b, scope, category);
      assert (a + b)[0] == a[0] && (a + b)[1..] == a[1..] + b;
      var head := if Selected(a[0], scope, category) then [a[0]] else [];
      assert Query(a + b, scope, category) == head + Query(a[1..] + b, scope, category);
      assert head + (Query(a[1..], scope, category) + Query(b, scope, category)) == (head + Query(a[1..], scope, category)) + Query(b, scope, category);
    }
  }

  /** It has each row that belongs as often as the table, and no other. */
  lemma {:induction false} QueryExactly(db: seq<Row>, scope: Scope, category: Option<string>, row: Row)
    ensures multiset(Query(db, scope, category))[row] == if Belongs(row, scope, category) then multiset(db)[row] else 0
  {
    if db != [] {
      QueryExactly(db[1..], scope, category, row);
      QueryOne(db[0], scope, category);
      assert db == [db[0]] + db[1..];
      QueryConcat([db[0]], db[1..], scope, category);
    }
  }

  /** JSON: an encoding of listings as text. */
  datatype Codec = Codec(encode: seq<Row> -> string, decode: string -> seq<Row>)

  ghost predicate RoundTrips(c: Codec) {
    forall rows :: c.decode(c.encode(rows)) == rows
  }

  datatype Request =
    | Listing(scope: Scope, category: Option<string>)
    | Discover(org: Id, rows: seq<Row>)        // the table after the discovery
    | DbWrite(rows: seq<Row>)                  // any other change of the table

  datatype Event = Event(request: Request, at: Time)

  datatype State = State(db: seq<Row>, store: map<Key, Entry>)

  /** `list_tools`: an empty cached list is falsy, so it counts as a miss. */
  function Listed(s: State, scope: Scope, category: Option<string>, now: Time, c: Codec): (State, seq<Row>) {
    var (store, got) := Step(s.store, Get(KeyOf(scope)), now);
    if got.Value? && c.decode(got.value) != [] then (s.(store := store), c.decode(got.value))
    else
      var rows := Query(s.db, scope, category);
      (s.(store := Step(store, Put(KeyOf(scope), c.encode(rows), Some(TTL_TOOLS)), now).0), rows)
  }

  function Apply(s: State, e: Event, c: Codec): State {
    match e.request
    case Listing(scope, category) => Listed(s, scope, category, e.at, c).0
    case Discover(org, rows) => State(rows, Step(s.store, Delete([KeyOf(Scope(org, None))]), e.at).0)
    case DbWrite(rows) => s.(db := rows)
  }

  function After(events: seq<Event>, c: Codec): State {
    if events == [] then State([], map[]) else Apply(After(events[..|events| - 1], c), events[|events| - 1], c)
  }

  /** `list_tools` on the shared store. */
  method ListTools(store: MemoryStore, db: seq<Row>, scope: Scope, category: Option<string>, now: Time, c: Codec) returns (rows: seq<Row>)
    modifies store
    ensures (State(db, store.store), rows) == Listed(State(db, old(store.store)), scope, category, now, c)
  {
    var cached := store.GetValue(KeyOf(scope), now);
    if cached.Some? && c.decode(cached.value) != [] { return c.decode(cached.value); }
    rows := Query(db, scope, category);
    store.CacheSet(KeyOf(scope), c.encode(rows), Some(TTL_TOOLS), now);
  }

  /******* Where listings come from, told from the history alone *******/

  /** The table after some events: what a `discover` or another write made of it. */
  function DbAfter(events: seq<Event>): seq<Row> {
    if events == [] then []
    else if events[|events| - 1].request.Listing? then DbAfter(events[..|events| - 1])
    else events[|events| - 1].request.rows
  }

  /** The listing that last asked the database for a scope and is not forgotten, by its number. */
  datatype Fill = NoFill | Fill(i: nat)

  /** What listing number `i` got from the database. */
  function QueryAt(events: seq<Event>, i: nat, scope: Scope): seq<Row>
    requires i < |events| && events[i].request.Listing?
  {
    Query(DbAfter(events[..i]), scope, events[i].request.category)
  }

  predicate IsListing(events: seq<Event>, scope: Scope, f: Fill) {
    f.Fill? ==> f.i < |events| && events[f.i].request.Listing? && events[f.i].request.scope == scope
  }

  /** Its answer still stands: it is not too old, and not empty. */
  predicate Stands(events: seq<Event>, scope: Scope, f: Fill, now: Time)
    requires IsListing(events, scope, f)
  {
    f.Fill? && now < events[f.i].at + TTL_TOOLS as real && QueryAt(events, f.i, scope) != []
  }

  function LastFill(events: seq<Event>, scope: Scope): (f: Fill)
    ensures IsListing(events, scope, f)
    ensures f.Fill? && scope.project.None? ==> LastDiscover(events, scope.org) <= f.i
  {
    if events == [] then NoFill
    else
      var before, e := events[..|events| - 1], events[|events| - 1];
      var f := LastFill(before, scope);
      match e.request
      case DbWrite(_) => f
      case Discover(org, _) => if scope == Scope(org, None) then NoFill else f
      case Listing(other, _) => if other != scope || Stands(before, scope, f, e.at) then f else Fill(|before|)
  }

  /** The last `discover` of an organisation, as the number of events up to it. */
  function LastDiscover(events: seq<Event>, org: Id): (n: nat)
    ensures n <= |events|
    ensures forall i :: 0 <= i < |events| && events[i].request.Discover? && events[i].request.org == org ==> i < n
  {
    if events == [] then 0
    else if var r := events[|events| - 1].request; r.Discover? && r.org == org then |events|
    else LastDiscover(events[..|events| - 1], org)
  }

  lemma {:induction false} DbIsDbAfter(events: seq<Event>, c: Codec)
    ensures After(events, c).db == DbAfter(events)
  {
    if events != [] { DbIsDbAfter(events[..|events| - 1], c); }
  }

  function EntryOf(events: seq<Event>, i: nat, scope: Scope, c: Codec): Entry
    requires i < |events| && events[i].request.Listing?
  {
    Entry(c.encode(QueryAt(events, i, scope)), Some(events[i].at + TTL_TOOLS as real))
  }

  /** The store holds an entry for a scope exactly when some listing filled it, and holds what that listing got. */
  ghost predicate Holds(events: seq<Event>, scope: Scope, store: map<Key, Entry>, c: Codec) {
    match LastFill(events, scope)
    case NoFill => KeyOf(scope) !in store
    case Fill(i) => KeyOf(scope) in store && store[KeyOf(scope)] == EntryOf(events, i, scope, c)
  }

  lemma EarlierQuery(events: seq<Event>, i: nat, scope: Scope)
    requires i < |events| - 1 && events[i].request.Listing?
    ensures QueryAt(events[..|events| - 1], i, scope) == QueryAt(events, i, scope)
  {
    assert events[..|events| - 1][..i] == events[..i];
  }

  /** One event changes the entry of a scope as it changes the last fill. */
  lemma EventKeepsHolds(events: seq<Event>, scope: Scope, c: Codec)
    requires RoundTrips(c) && events != [] && Holds(events[..|events| - 1], scope, After(events[..|events| - 1], c).store, c)
    ensures Holds(events, scope, After(events, c).store, c)
  {
    var e := events[|events| - 1];
    match e.request
    case DbWrite(_) => SameFillHolds(events, scope, After(events[..|events| - 1], c).store, After(events, c).store, c);
    case Discover(org, _) => DiscoverKeepsHolds(events, scope, c);
    case Listing(other, _) =>
      if other == scope {
        OwnListingKeepsHolds(events, scope, c);
      } else {
        if KeyOf(scope) == KeyOf(other) { KeysAreInjective(scope, other); }
        ListingWrites(After(events[..|events| - 1], c), other, e.request.category, e.at, c);
        SameFillHolds(events, scope, After(events[..|events| - 1], c).store, After(events, c).store, c);
      }
  }

  /** The last fill and the entry are as before. */
  lemma SameFillHolds(events: seq<Event>, scope: Scope, before: map<Key, Entry>, after: map<Key, Entry>, c: Codec)
    requires events != [] && Holds(events[..|events| - 1], scope, before, c)
    requires LastFill(events, scope) == LastFill(events[..|events| - 1], scope)
    requires KeyOf(scope) in after <==> KeyOf(scope) in before
    requires KeyOf(scope) in before ==> after[KeyOf(scope)] == before[KeyOf(scope)]
    ensures Holds(events, scope, after, c)
  {
    var f := LastFill(events, scope);
    if f.Fill? { EarlierQuery(events, f.i, scope); }
  }

  lemma DiscoverKeepsHolds(events: seq<Event>, scope: Scope, c: Codec)
    requires events != [] && events[|events| - 1].request.Discover?
    requires Holds(events[..|events| - 1], scope, After(events[..|events| - 1], c).store, c)
    ensures Holds(events, scope, After(events, c).store, c)
  {
    var e, s := events[|events| - 1], After(events[..|events| - 1], c);
    var whole := Scope(e.request.org, None);
    DiscoverForgets(s, e.request.org, e.request.rows, e.at, c);
    if scope != whole {
      if KeyOf(scope) == KeyOf(whole) { KeysAreInjective(scope, whole); }
      SameFillHolds(events, scope, s.store, After(events, c).store, c);
    }
  }

  lemma OwnListingKeepsHolds(events: seq<Event>, scope: Scope, c: Codec)
    requires RoundTrips(c) && events != [] && events[|events| - 1].request.Listing? && events[|events| - 1].request.scope == scope
    requires Holds(events[..|events| - 1], scope, After(events[..|events| - 1], c).store, c)
    ensures Holds(events, scope, After(events, c).store, c)
  {
    var before, e := events[..|events| - 1], events[|events| - 1];
    UsableIffStands(before, scope, After(before, c).store, e.at, c);
    LastFillOfListing(events, scope);
    ListingStores(events, scope, c);
    if Usable(After(before, c).store, scope, e.at, c) {
      SameFillHolds(events, scope, After(before, c).store, After(events, c).store, c);
    } else {
      FreshFillHolds(events, scope, After(events, c).store, c);
    }
  }

  /** What the last listing leaves in the store. */
  lemma ListingStores(events: seq<Event>, scope: Scope, c: Codec)
    requires events != [] && events[|events| - 1].request.Listing? && events[|events| - 1].request.scope == scope
    ensures var before, e := events[..|events| - 1], events[|events| - 1]; var store := After(events, c).store;
      if Usable(After(before, c).store, scope, e.at, c) then store == After(before, c).store
      else KeyOf(scope) in store &&
           store[KeyOf(scope)] == Entry(c.encode(Query(DbAfter(before), scope, e.request.category)), Some(e.at + TTL_TOOLS as real))
  {
    var before, e := events[..|events| - 1], events[|events| - 1];
    AfterListing(events, c);
    ListingFills(After(before, c), scope, e.request.category, e.at, c);
    DbIsDbAfter(before, c);
  }

  lemma LastFillOfListing(events: seq<Event>, scope: Scope)
    requires events != [] && events[|events| - 1].request.Listing? && events[|events| - 1].request.scope == scope
    ensures var before := events[..|events| - 1]; var f := LastFill(before, scope);
      LastFill(events, scope) == if Stands(before, scope, f, events[|events| - 1].at) then f else Fill(|events| - 1)
  {}

  lemma AfterListing(events: seq<Event>, c: Codec)
    requires events != [] && events[|events| - 1].request.Listing?
    ensures var e := events[|events| - 1];
      After(events, c) == Listed(After(events[..|events| - 1], c), e.request.scope, e.request.category, e.at, c).0
  {}

  /** The cached entry is live and not empty. */
  predicate Usable(store: map<Key, Entry>, scope: Scope, now: Time, c: Codec) {
    KeyOf(scope) in store && !Dead(store[KeyOf(scope)], now) && c.decode(store[KeyOf(scope)].value) != []
  }

  lemma UsableIffStands(events: seq<Event>, scope: Scope, store: map<Key, Entry>, now: Time, c: Codec)
    requires RoundTrips(c) && Holds(events, scope, store, c)
    ensures Usable(store, scope, now, c) <==> Stands(events, scope, LastFill(events, scope), now)
  {}

  lemma FreshFillHolds(events: seq<Event>, scope: Scope, store: map<Key, Entry>, c: Codec)
    requires events != [] && events[|events| - 1].request.Listing? && LastFill(events, scope) == Fill(|events| - 1)
    requires var n := |events| - 1; var rows := Query(DbAfter(events[..n]), scope, events[n].request.category);
      KeyOf(scope) in store && store[KeyOf(scope)] == Entry(c.encode(rows), Some(events[n].at + TTL_TOOLS as real))
    ensures Holds(events, scope, store, c)
  {}

  lemma {:induction false} StoreHoldsFills(events: seq<Event>, scope: Scope, c: Codec)
    requires RoundTrips(c)
    ensures Holds(events, scope, After(events, c).store, c)
  {
    if events != [] {
      StoreHoldsFills(events[..|events| - 1], scope, c);
      EventKeepsHolds(events, scope, c);
    }
  }

  lemma DeleteIsMinus(store: map<Key, Entry>, key: Key, now: Time)
    ensures Step(store, Delete([key]), now).0 == store - {key}
  {
    assert KeySet([key]) == {key};
  }

  lemma DiscoverForgets(s: State, org: Id, rows: seq<Row>, at: Time, c: Codec)
    ensures Apply(s, Event(Discover(org, rows), at), c) == State(rows, s.store - {KeyOf(Scope(org, None))})
  {
    DeleteIsMinus(s.store, KeyOf(Scope(org, None)), at);
  }

  /** Entries of other scopes stay. */
  lemma ListingWrites(s: State, scope: Scope, category: Option<string>, now: Time, c: Codec)
    ensures var r := Listed(s, scope, category, now, c).0;
      forall k :: k != KeyOf(scope) ==> (k in r.store <==> k in s.store) && (k in s.store ==> r.store[k] == s.store[k])
  {}

  /** The entry of the scope itself stays if it is used, and is replaced otherwise. */
  lemma ListingFills(s: State, scope: Scope, category: Option<string>, now: Time, c: Codec)
    ensures var (r, rows) := Listed(s, scope, category, now, c); var key := KeyOf(scope);
      if Usable(s.store, scope, now, c) then
        r.store == s.store && rows == c.decode(s.store[key].value)
      else
        && rows == Query(s.db, scope, category)
        && key in r.store && r.store[key] == Entry(c.encode(rows), Some(now + TTL_TOOLS as real))
  {}

  /******* How old a listing can be *******/

  /** The listing that a request at the end of the history returns. */
  function ListingAfter(events: seq<Event>, scope: Scope, category: Option<string>, now: Time, c: Codec): seq<Row> {
    Listed(After(events, c), scope, category, now, c).1
  }

  /** The listing that answers such a request, by its number; `|events|` is the request itself. */
  function Source(events: seq<Event>, scope: Scope, now: Time): (i: nat)
    ensures i <= |events|
    ensures i < |events| ==> events[i].request.Listing? && events[i].request.scope == scope && now < events[i].at + 300.0
    ensures scope.project.None? ==> LastDiscover(events, scope.org) <= i
  {
    var f := LastFill(events, scope);
    if Stands(events, scope, f, now) then f.i else |events|
  }

  function SourceCategory(events: seq<Event>, scope: Scope, category: Option<string>, now: Time): Option<string> {
    var i := Source(events, scope, now);
    if i < |events| then events[i].request.category else category
  }

  /** Over every history, each listing is what its source asked of the database: a listing of the same scope, made less
      than `TTL_TOOLS` seconds ago and, for a whole organisation, after the last `discover`. */
  lemma ListingIsItsSource(events: seq<Event>, scope: Scope, category: Option<string>, now: Time, c: Codec)
    requires RoundTrips(c)
    ensures ListingAfter(events, scope, category, now, c) ==
            Query(DbAfter(events[..Source(events, scope, now)]), scope, SourceCategory(events, scope, category, now))
  {
    StoreHoldsFills(events, scope, c);
    DbIsDbAfter(events, c);
    UsableIffStands(events, scope, After(events, c).store, now, c);
    ListingFills(After(events, c), scope, category, now, c);
    assert events[..|events|] == events;
  }

  /******* Categories *******/

  /** An empty category is falsy, so it counts as none. */
  predicate Unnamed(category: Option<string>) {
    category.None? || category.value == ""
  }

  /** Every row of the scope has the category, if one is named. */
  ghost predicate Covers(db: seq<Row>, scope: Scope, category: Option<string>) {
    Unnamed(category) || forall i :: 0 <= i < |db| && Belongs(db[i], scope, None) ==> db[i].category == category.value
  }

  lemma {:induction false} QueryShrinks(db: seq<Row>, scope: Scope, category: Option<string>)
    ensures |Query(db, scope, category)| <= |Query(db, scope, None)|
  {
    if db != [] { QueryShrinks(db[1..], scope, category); }
  }

  /** A query with a category is the full query exactly when the category covers the scope. */
  lemma {:induction false} FullExactlyIfCovers(db: seq<Row>, scope: Scope, category: Option<string>)
    ensures Query(db, scope, category) == Query(db, scope, None) <==> Covers(db, scope, category)
  {
    if db != [] {
      FullExactlyIfCovers(db[1..], scope, category);
      QueryShrinks(db[1..], scope, category);
      var some, all, row := Query(db[1..], scope, category), Query(db[1..], scope, None), db[0];
      var same := Selected(row, scope, None) ==> Selected(row, scope, category);
      assert Covers(db, scope, category) <==> Covers(db[1..], scope, category) && same by {
        assert forall i :: 0 <= i < |db| - 1 ==> db[1..][i] == db[i + 1];
      }
      if Selected(row, scope, category) {
        assert ([row] + some)[1..] == some && ([row] + all)[1..] == all;
      } else if Selected(row, scope, None) {
        assert |[] + some| < |[row] + all|;
      } else {
        assert [] + some == some && [] + all == all;
      }
    }
  }

  /** Over every history, a listing without a category is the full query at the instant of its source, if and only if
      the category of the source, if it named one, covers the scope at that instant. */
  lemma ListingIsFullExactly(events: seq<Event>, scope: Scope, now: Time, c: Codec)
    requires RoundTrips(c)
    ensures var db := DbAfter(events[..Source(events, scope, now)]);
      ListingAfter(events, scope, None, now, c) == Query(db, scope, None) <==> Covers(db, scope, SourceCategory(events, scope, None, now))
  {
    ListingIsItsSource(events, scope, None, now, c);
    FullExactlyIfCovers(DbAfter(events[..Source(events, scope, now)]), scope, SourceCategory(events, scope, None, now));
  }

  /** No request so far has named a category. */
  ghost predicate NoCategories(events: seq<Event>) {
    forall i :: 0 <= i < |events| && events[i].request.Listing? ==> Unnamed(events[i].request.category)
  }

  /** So without categories every listing in every history is the full query at the instant of its source. */
  lemma PlainListingIsRecent(events: seq<Event>, scope: Scope, category: Option<string>, now: Time, c: Codec)
    requires RoundTrips(c) && NoCategories(events) && Unnamed(category)
    ensures ListingAfter(events, scope, category, now, c) == Query(DbAfter(events[..Source(events, scope, now)]), scope, None)
  {
    ListingIsItsSource(events, scope, category, now, c);
    FullExactlyIfCovers(DbAfter(events[..Source(events, scope, now)]), scope, SourceCategory(events, scope, category, now));
  }

  /** Over every history, each row of a listing is a row of the table at its source, of the organisation asked for and of
      the project or of none; and if the source named no category, no such row is missing. */
  lemma ListingRowsExactly(events: seq<Event>, scope: Scope, category: Option<string>, now: Time, c: Codec, row: Row)
    requires RoundTrips(c)
    ensures var rows, db := ListingAfter(events, scope, category, now, c), DbAfter(events[..Source(events, scope, now)]);
      && (row in rows ==> row in db && row.org == scope.org && (scope.project.Some? ==> row.project == None || row.project == scope.project))
      && (Unnamed(SourceCategory(events, scope, category, now)) ==>
           (row in rows <==> row in db && row.org == scope.org && (scope.project.Some? ==> row.project == None || row.project == scope.project)))
  {
    var rows, db := ListingAfter(events, scope, category, now, c), DbAfter(events[..Source(events, scope, now)]);
    ListingIsItsSource(events, scope, category, now, c);
    QueryExactly(db, scope, SourceCategory(events, scope, category, now), row);
    assert row in rows <==> multiset(rows)[row] > 0;
    assert row in db <==> multiset(db)[row] > 0;
  }

  /** An empty listing is never out of date: an empty cached list counts as a miss. */
  lemma EmptyListingIsCurrent(events: seq<Event>, scope: Scope, category: Option<string>, now: Time, c: Codec)
    requires RoundTrips(c) && ListingAfter(events, scope, category, now, c) == []
    ensures Source(events, scope, now) == |events| && Query(DbAfter(events), scope, category) == []
  {
    ListingIsItsSource(events, scope, category, now, c);
    assert events[..|events|] == events;
  }

  /******* Two short histories *******/

  /** After a request with a category, the next one without sees the whole list exactly when the category has no rows or
      covers the scope. */
  lemma CategoryPoisonsCache(db: seq<Row>, scope: Scope, category: string, at: Time, now: Time, c: Codec)
    requires RoundTrips(c) && at <= now < at + TTL_TOOLS as real
    ensures
      var events := [Event(DbWrite(db), at), Event(Listing(scope, Some(category)), at)];
      ListingAfter(events, scope, None, now, c) == Query(db, scope, None) <==>
      Query(db, scope, Some(category)) == [] || Covers(db, scope, Some(category))
  {
    var first, second := Event(DbWrite(db), at), Event(Listing(scope, Some(category)), at);
    var events := [first, second];
    assert events[..1] == [first] && [first][..0] == [] && events[..2] == events;
    assert LastFill([first], scope) == NoFill && LastFill(events, scope) == Fill(1);
    assert DbAfter(events[..1]) == db && DbAfter(events) == db;
    ListingIsItsSource(events, scope, None, now, c);
    FullExactlyIfCovers(db, scope, Some(category));
  }

  /** A project's listing is not invalidated by a `discover`: it still shows the old rows, if there were any. */
  lemma ProjectListingMissesDiscover(org: Id, project: Id, before: seq<Row>, after: seq<Row>, at: Time, now: Time, c: Codec)
    requires RoundTrips(c) && at <= now < at + TTL_TOOLS as real
    ensures
      var scope := Scope(org, Some(project));
      var events := [Event(DbWrite(before), at), Event(Listing(scope, None), at), Event(Discover(org, after), at)];
      ListingAfter(events, scope, None, now, c) ==
      if Query(before, scope, None) == [] then Query(after, scope, None) else Query(before, scope, None)
  {
    var scope := Scope(org, Some(project));
    var first, second, third := Event(DbWrite(before), at), Event(Listing(scope, None), at), Event(Discover(org, after), at);
    var events := [first, second, third];
    assert events[..1] == [first] && events[..3] == events;
    ProjectFill(first, second, third, scope);
    ListingIsItsSource(events, scope, None, now, c);
  }

  lemma ProjectFill(first: Event, second: Event, third: Event, scope: Scope)
    requires first.request.DbWrite? && second.request == Listing(scope, None) && third.request.Discover? && scope.project.Some?
    ensures LastFill([first, second, third], scope) == Fill(1)
  {
    var events := [first, second, third];
    assert events[..2] == [first, second] && [first, second][..1] == [first] && [first][..0] == [];
    assert LastFill([first], scope) == NoFill;
    assert LastFill([first, second], scope) == Fill(1);
  }
}
