/** The runner list of a user: one query per batch of accessible repositories,
    each cut to its first rows, merged, sorted and sliced. The result is the slice
    one query over everything accessible would have given, and following the
    "next" links (the Link header, section 3 of RFC 8288) reads it page by page. */
module Paging {
  import opened Common
  import opened Sorting
  import opened Text

  const MAX_QUERY_PARAMETERS: nat := 900
  const MAX_INT: int := 0x7fff_ffff_ffff_ffff
  const MAX_PAGE: nat := 500

  datatype Record = Record(id: string, queuedAt: int, installation: int, repository: string)

  datatype Access = Access(installation: int, repositories: seq<string>)

  datatype Batch = Batch(installation: int, repositories: seq<string>)

  /** ids are the table's primary key */
  ghost predicate UniqueIds(table: set<Record>) {
    forall r, s :: r in table && s in table && r.id == s.id ==> r == s
  }

  /** queued_at DESC, id ASC */
  predicate Newer(a: Record, b: Record) {
    a.queuedAt > b.queuedAt || (a.queuedAt == b.queuedAt && Precedes(a.id, b.id))
  }

  lemma NewerOrders(rows: set<Record>)
    requires UniqueIds(rows)
    ensures Orders(Newer, rows)
  {
    forall x ensures !Newer(x, x) { PrecedesIsStrict(x.id); }
    forall x, y | x in rows && y in rows && x != y ensures Newer(x, y) || Newer(y, x) { PrecedesIsTotal(x.id, y.id); }
    forall x, y, z | Newer(x, y) && Newer(y, z) ensures Newer(x, z) {
      if x.queuedAt == y.queuedAt == z.queuedAt { PrecedesIsTransitive(x.id, y.id, z.id); }
    }
  }

  // ---- What the caller may see -----------------------------------------------------

  ghost predicate Names(repositories: seq<string>, repository: string) {
    repository != "" && exists p :: p in repositories && Fold(p) == repository
  }

  /** `repository` is in lower case. */
  ghost predicate Grants(access: seq<Access>, installation: int, repository: string) {
    installation > 0 && exists a :: a in access && a.installation == installation && Names(a.repositories, repository)
  }

  ghost function Visible(table: set<Record>, access: seq<Access>): set<Record> {
    set r | r in table && Grants(access, r.installation, Lower(r.repository))
  }

  // ---- Normalising the access list -----------------------------------------------------

  method UniqueLowerTrimmed(values: seq<string>) returns (out: seq<string>)
    ensures Distinct(out)
    ensures forall x :: x in out <==> Names(values, x)
  {
    var seen: set<string> := {};
    out := [];
    for i := 0 to |values|
      invariant seen == Elements(out) && Distinct(out)
      invariant forall x :: x in out <==> Names(values[..i], x)
    {
      var value := Fold(values[i]);
      assert values[..i + 1] == values[..i] + [values[i]];
      if value != "" && value !in seen {
        seen := seen + {value};
        out := out + [value];
      }
    }
    assert values[..|values|] == values;
  }

  predicate Holds(byInstallation: map<int, set<string>>, installation: int, repository: string) {
    installation in byInstallation && repository in byInstallation[installation]
  }

  method Collect(access: seq<Access>) returns (byInstallation: map<int, set<string>>)
    ensures forall i, r :: Holds(byInstallation, i, r) <==> Grants(access, i, r)
  {
    byInstallation := map[];
    for k := 0 to |access|
      invariant forall i, r :: Holds(byInstallation, i, r) <==> Grants(access[..k], i, r)
    {
      var item := access[k];
      assert access[..k + 1] == access[..k] + [item];
      AccessAdded(access[..k], item);
      if item.installation > 0 {
        var names := UniqueLowerTrimmed(item.repositories);
        var known := if item.installation in byInstallation then byInstallation[item.installation] else {};
        byInstallation := byInstallation[item.installation := known + Elements(names)];
      }
    }
    assert access[..|access|] == access;
  }

  lemma AccessAdded(access: seq<Access>, item: Access)
    ensures forall i, r ::
              Grants(access + [item], i, r) <==> Grants(access, i, r) || (i > 0 && item.installation == i && Names(item.repositories, r))
  {
    assert forall a :: a in access + [item] <==> a in access || a == item;
  }

  predicate InBatch(b: Batch, installation: int, repository: string) {
    b.installation == installation && repository in b.repositories
  }

  ghost predicate SomeBatch(batches: seq<Batch>, installation: int, repository: string) {
    exists b :: b in batches && InBatch(b, installation, repository)
  }

  /** No installation and repository is in two batches. */
  ghost predicate Disjoint(batches: seq<Batch>) {
    forall i, j :: 0 <= i < j < |batches| && batches[i].installation == batches[j].installation ==>
      Elements(batches[i].repositories) !! Elements(batches[j].repositories)
  }

  ghost predicate WellSized(batches: seq<Batch>, maxParameters: int) {
    forall b :: b in batches ==> b.repositories != [] && 1 + |b.repositories| <= Max(2, maxParameters)
  }

  /** One installation's repositories, in batches that fit into one query each. */
  method Chunks(installation: int, repositories: seq<string>, maxParameters: int) returns (batches: seq<Batch>)
    requires maxParameters >= 2 && Distinct(repositories)
    ensures WellSized(batches, maxParameters) && Disjoint(batches)
    ensures forall b :: b in batches ==> b.installation == installation
    ensures forall r :: SomeBatch(batches, installation, r) <==> r in repositories
  {
    batches := [];
    var rest := repositories;
    ghost var done: seq<string> := [];
    while rest != []
      invariant repositories == done + rest
      invariant WellSized(batches, maxParameters) && Disjoint(batches)
      invariant forall b :: b in batches ==> b.installation == installation && Elements(b.repositories) <= Elements(done)
      invariant forall r :: SomeBatch(batches, installation, r) <==> r in done
    {
      var count := Min(|rest|, maxParameters - 1);
      var chunk := Batch(installation, rest[..count]);
      assert rest == rest[..count] + rest[count..];
      assert forall r :: r in done && r in chunk.repositories ==> false by { HalvesDiffer(done, rest); }
      ElementsOfConcat(done, chunk.repositories);
      BatchAdded(batches, chunk);
      batches := batches + [chunk];
      done := done + chunk.repositories;
      rest := rest[count..];
    }
    assert done == repositories;
  }

  lemma HalvesDiffer(a: seq<string>, b: seq<string>)
    requires Distinct(a + b)
    ensures forall x :: x in a && x in b ==> false
  {
    forall x | x in a ensures x !in b {
      var i :| 0 <= i < |a| && a[i] == x;
      forall j | 0 <= j < |b| ensures b[j] != x {
        assert (a + b)[i] != (a + b)[|a| + j];
      }
    }
  }

  lemma BatchAdded(batches: seq<Batch>, b: Batch)
    ensures forall i, r :: SomeBatch(batches + [b], i, r) <==> SomeBatch(batches, i, r) || InBatch(b, i, r)
  {
    assert forall c :: c in batches + [b] <==> c in batches || c == b;
  }

  /** githubInstallationRepositoryAccessQueryBatches over the normalised access:
      installations in ascending order, their repositories sorted and cut up. */
  method QueryBatches(access: seq<Access>, maxParameters: int) returns (batches: seq<Batch>)
    ensures WellSized(batches, maxParameters) && Disjoint(batches)
    ensures forall i, r :: SomeBatch(batches, i, r) <==> Grants(access, i, r)
  {
    var limit := Max(2, maxParameters);
    var byInstallation := Collect(access);
    var ids := SortedIds(set i | i in byInstallation && byInstallation[i] != {});
    batches := [];
    for k := 0 to |ids|
      invariant WellSized(batches, limit) && Disjoint(batches)
      invariant forall b :: b in batches ==> b.installation in ids[..k]
      invariant forall i, r :: SomeBatch(batches, i, r) <==> i in ids[..k] && Holds(byInstallation, i, r)
    {
      assert ids[..k + 1] == ids[..k] + [ids[k]];
      assert ids[k] in ids;
      var repositories := SortedNames(byInstallation[ids[k]]);
      var chunks := Chunks(ids[k], repositories, limit);
      BatchesJoined(batches, chunks, ids[k], limit);
      batches := batches + chunks;
    }
    assert ids[..|ids|] == ids;
  }

  method SortedIds(installations: set<int>) returns (ids: seq<int>)
    ensures forall i :: i in ids <==> i in installations
    ensures forall i, j :: 0 <= i < j < |ids| ==> ids[i] < ids[j]
  {
    var less := (a: int, b: int) => a < b;
    ids := SortSet(less, installations);
    SortSpec(less, installations);
    assert forall i :: i in ids <==> i in Elements(ids);
    assert forall i, j :: 0 <= i < j < |ids| ==> less(ids[i], ids[j]);
  }

  method SortedNames(names: set<string>) returns (sorted: seq<string>)
    ensures forall r :: r in sorted <==> r in names
    ensures Distinct(sorted) && Ascending(Precedes, sorted)
  {
    PrecedesOrders(names);
    sorted := SortSet(Precedes, names);
    SortSpec(Precedes, names);
    assert forall r :: r in sorted <==> r in Elements(sorted);
  }

  lemma BatchesJoined(a: seq<Batch>, b: seq<Batch>, installation: int, limit: int)
    requires Disjoint(a) && Disjoint(b) && WellSized(a, limit) && WellSized(b, limit)
    requires (forall x :: x in a ==> x.installation != installation) && (forall x :: x in b ==> x.installation == installation)
    ensures Disjoint(a + b) && WellSized(a + b, limit)
    ensures forall i, r :: SomeBatch(a + b, i, r) <==> SomeBatch(a, i, r) || SomeBatch(b, i, r)
  {
    assert forall c :: c in a + b <==> c in a || c in b;
    assert forall i :: 0 <= i < |a| ==> (a + b)[i] == a[i] && a[i] in a;
    assert forall j :: |a| <= j < |a + b| ==> (a + b)[j] == b[j - |a|] && b[j - |a|] in b;
  }

  // ---- Querying the table ----------------------------------------------------------------

  function BatchRows(table: set<Record>, b: Batch): set<Record> {
    set r | r in table && InBatch(b, r.installation, Lower(r.repository))
  }

  ghost function Rows(table: set<Record>, batches: seq<Batch>): set<Record> {
    set r | r in table && SomeBatch(batches, r.installation, Lower(r.repository))
  }

  lemma RowsGrow(table: set<Record>, batches: seq<Batch>, i: nat)
    requires i < |batches| && Disjoint(batches)
    ensures Rows(table, batches[..i + 1]) == Rows(table, batches[..i]) + BatchRows(table, batches[i])
    ensures Rows(table, batches[..i]) !! BatchRows(table, batches[i])
  {
    assert batches[..i + 1] == batches[..i] + [batches[i]];
    BatchAdded(batches[..i], batches[i]);
    forall r | r in Rows(table, batches[..i]) ensures r !in BatchRows(table, batches[i]) {
      var b :| b in batches[..i] && InBatch(b, r.installation, Lower(r.repository));
      var j :| 0 <= j < i && batches[j] == b;
      assert Lower(r.repository) in Elements(batches[j].repositories);
      assert b.installation == batches[i].installation ==> Elements(batches[j].repositories) !! Elements(batches[i].repositories);
      assert Lower(r.repository) in batches[i].repositories <==> Lower(r.repository) in Elements(batches[i].repositories);
    }
  }

  /** SELECT … ORDER BY queued_at DESC, id ASC LIMIT limit */
  method Select(table: set<Record>, b: Batch, limit: nat) returns (rows: seq<Record>)
    requires UniqueIds(table)
    ensures Orders(Newer, BatchRows(table, b)) && rows == Top(Newer, BatchRows(table, b), limit)
  {
    NewerOrders(BatchRows(table, b));
    var all := SortSet(Newer, BatchRows(table, b));
    rows := all[..Min(limit, |all|)];
  }

  /** The rows merged by id so far contain the first `k` of each of the batches. */
  ghost predicate Merged(table: set<Record>, batches: seq<Batch>, k: nat, byId: map<string, Record>)
    requires UniqueIds(table)
  {
    && (forall id :: id in byId ==> byId[id].id == id && byId[id] in Rows(table, batches))
    && (forall b, x :: b in batches && x in Firsts(table, b, k) ==> x.id in byId && byId[x.id] == x)
  }

  ghost function Firsts(table: set<Record>, b: Batch, k: nat): seq<Record>
    requires UniqueIds(table)
  {
    NewerOrders(BatchRows(table, b));
    Top(Newer, BatchRows(table, b), k)
  }

  function Slice<T>(s: seq<T>, offset: int, limit: int): seq<T>
    requires 0 <= offset && 0 <= limit
  {
    s[Min(offset, |s|)..Min(offset + limit, |s|)]
  }

  lemma MergedIsEnough(table: set<Record>, batches: seq<Batch>, k: nat, byId: map<string, Record>)
    requires UniqueIds(table) && Merged(table, batches, k, byId)
    ensures
      var all, merged := Rows(table, batches), set id | id in byId :: byId[id];
      && Orders(Newer, all) && Orders(Newer, merged) && merged <= all
      && Top(Newer, merged, k) == Top(Newer, all, k)
      && (k <= |all| ==> k <= |merged|)
  {
    var all, merged := Rows(table, batches), set id | id in byId :: byId[id];
    NewerOrders(all);
    NewerOrders(merged);
    forall x | x in Top(Newer, all, k) ensures x in merged {
      TopIsInitial(Newer, all, k);
      assert x in Elements(Top(Newer, all, k));
      var b :| b in batches && InBatch(b, x.installation, Lower(x.repository));
      TopOfPart(Newer, all, BatchRows(table, b), k, x);
      assert x in Firsts(table, b, k);
    }
    TopOfMerged(Newer, all, merged, k);
  }

  lemma SliceByPrefix<T>(s: seq<T>, t: seq<T>, offset: nat, limit: nat, k: nat)
    requires k <= |s| <= |t| && s[..k] == t[..k]
    requires k == if limit <= |t| - offset then offset + limit else |t|
    ensures Slice(s, offset, limit) == Slice(t, offset, limit)
  {
    assert forall i :: 0 <= i < k ==> s[i] == s[..k][i] == t[..k][i] == t[i];
  }

  lemma SliceOfMerged(all: set<Record>, merged: set<Record>, offset: nat, limit: nat, k: nat)
    requires Orders(Newer, all) && Orders(Newer, merged) && merged <= all && k <= |merged|
    requires Top(Newer, merged, k) == Top(Newer, all, k)
    requires k == if limit <= |all| - offset then offset + limit else |all|
    ensures Slice(Sort(Newer, merged), offset, limit) == Slice(Sort(Newer, all), offset, limit)
  {
    SortElements(Newer, all);
    SortElements(Newer, merged);
    SubsetSize(merged, all);
    SliceByPrefix(Sort(Newer, merged), Sort(Newer, all), offset, limit, k);
  }

  method PutAll(byId: map<string, Record>, rows: seq<Record>) returns (merged: map<string, Record>)
    requires forall id :: id in byId ==> byId[id].id == id
    requires forall x, y :: x in rows && (y in rows || y in byId.Values) && x.id == y.id ==> x == y
    ensures forall id :: id in merged ==> merged[id].id == id && (merged[id] in rows || merged[id] in byId.Values)
    ensures forall id :: id in byId ==> id in merged && merged[id] == byId[id]
    ensures forall x :: x in rows ==> x.id in merged && merged[x.id] == x
  {
    merged := byId;
    for n := 0 to |rows|
      invariant forall id :: id in merged ==> merged[id].id == id && (merged[id] in rows || merged[id] in byId.Values)
      invariant forall id :: id in byId ==> id in merged && merged[id] == byId[id]
      invariant forall x :: x in rows[..n] ==> x.id in merged && merged[x.id] == x
    {
      var row := rows[n];
      assert row in rows;
      assert rows[..n + 1] == rows[..n] + [row];
      assert row.id in byId ==> byId[row.id] in byId.Values;
      merged := merged[row.id := row];
    }
    assert rows[..|rows|] == rows;
  }

  method MergeBatch(table: set<Record>, batches: seq<Batch>, i: nat, k: nat, byId: map<string, Record>) returns (merged: map<string, Record>)
    requires UniqueIds(table) && i < |batches| && Merged(table, batches[..i], k, byId)
    ensures Merged(table, batches[..i + 1], k, merged)
  {
    var rows := Select(table, batches[i], k);
    FirstsAreRows(table, batches[i], k);
    assert forall y :: y in byId.Values ==> y in Rows(table, batches[..i]);
    assert rows == Firsts(table, batches[i], k);
    merged := PutAll(byId, rows);
    MergedGrows(table, batches, i, k, byId, merged);
  }

  lemma FirstsAreRows(table: set<Record>, b: Batch, k: nat)
    requires UniqueIds(table)
    ensures forall x :: x in Firsts(table, b, k) ==> x in BatchRows(table, b)
  {
    NewerOrders(BatchRows(table, b));
    SortElements(Newer, BatchRows(table, b));
    assert forall x :: x in Firsts(table, b, k) ==> x in Elements(Sort(Newer, BatchRows(table, b)));
  }

  lemma MergedGrows(table: set<Record>, batches: seq<Batch>, i: nat, k: nat, byId: map<string, Record>, merged: map<string, Record>)
    requires UniqueIds(table) && i < |batches| && Merged(table, batches[..i], k, byId)
    requires forall id :: id in merged ==>
               merged[id].id == id && (merged[id] in Firsts(table, batches[i], k) || merged[id] in byId.Values)
    requires forall id :: id in byId ==> id in merged && merged[id] == byId[id]
    requires forall x :: x in Firsts(table, batches[i], k) ==> x.id in merged && merged[x.id] == x
    ensures Merged(table, batches[..i + 1], k, merged)
  {
    var more := batches[..i + 1];
    assert more == batches[..i] + [batches[i]];
    BatchAdded(batches[..i], batches[i]);
    FirstsAreRows(table, batches[i], k);
    forall id | id in merged ensures merged[id] in Rows(table, more) {
      assert merged[id] in Rows(table, batches[..i]) || merged[id] in BatchRows(table, batches[i]);
    }
  }

  method Count(table: set<Record>, batches: seq<Batch>) returns (total: nat)
    requires Disjoint(batches)
    ensures total == |Rows(table, batches)|
  {
    total := 0;
    for i := 0 to |batches|
      invariant total == |Rows(table, batches[..i])|
    {
      RowsGrow(table, batches, i);
      total := total + |BatchRows(table, batches[i])|;
    }
    assert batches[..|batches|] == batches;
  }

  method Merge(table: set<Record>, batches: seq<Batch>, k: nat) returns (byId: map<string, Record>)
    requires UniqueIds(table)
    ensures Merged(table, batches, k, byId)
  {
    byId := map[];
    for i := 0 to |batches|
      invariant Merged(table, batches[..i], k, byId)
    {
      byId := MergeBatch(table, batches, i, k, byId);
    }
    assert batches[..|batches|] == batches;
  }

  function PageSize(limit: int): nat {
    if limit <= 0 || limit > MAX_PAGE then MAX_PAGE else limit
  }

  /** Latest queued first, and by id where two were queued at once. */
  predicate NewestFirst(rows: seq<Record>) {
    forall i, j :: 0 <= i < j < |rows| ==>
      rows[i].queuedAt > rows[j].queuedAt || (rows[i].queuedAt == rows[j].queuedAt && Precedes(rows[i].id, rows[j].id))
  }

  lemma SortedIsNewestFirst(rows: set<Record>)
    requires Orders(Newer, rows)
    ensures NewestFirst(Sort(Newer, rows)) && |Sort(Newer, rows)| == |rows|
  {
    SortSpec(Newer, rows);
    var sorted := Sort(Newer, rows);
    forall i, j | 0 <= i < j < |sorted| ensures Newer(sorted[i], sorted[j]) {
    }
  }

  lemma PageIsOrdered(table: set<Record>, access: seq<Access>, offset: nat, limit: nat)
    requires UniqueIds(table)
    ensures
      var all := Visible(table, access);
      && Orders(Newer, all)
      && var page := Slice(Sort(Newer, all), offset, limit);
      && |page| == Max(0, Min(limit, |all| - offset))
      && NewestFirst(page)
      && (offset >= |all| ==> page == [])
  {
    var all := Visible(table, access);
    NewerOrders(all);
    SortedIsNewestFirst(all);
  }

  /** ListStatesForGitHubInstallationRepositories: exactly the rows of one global
      sort and slice over everything the access list grants, and their number. */
  method List(table: set<Record>, access: seq<Access>, limit: int, offset: int) returns (page: seq<Record>, total: nat)
    requires UniqueIds(table) && |table| <= MAX_INT
    ensures total == |Visible(table, access)|
    ensures Orders(Newer, Visible(table, access))
    ensures page == Slice(Sort(Newer, Visible(table, access)), Max(0, offset), PageSize(limit))
    ensures NewestFirst(page)
    ensures |page| == Max(0, Min(if 0 < limit <= 500 then limit else 500, total - Max(0, offset)))
  {
    PageIsOrdered(table, access, Max(0, offset), PageSize(limit));
    var batches := QueryBatches(access, MAX_QUERY_PARAMETERS);
    ghost var all := Visible(table, access);
    assert all == Rows(table, batches);
    SubsetSize(all, table);
    if batches == [] {
      assert all == {};
      return [], 0;
    }
    var size: nat := PageSize(limit);
    var start: nat := Max(0, offset);
    total := Count(table, batches);
    if start >= total { return [], total; }
    var k: nat := Min(if size <= total - start then start + size else total, MAX_INT);
    var byId := Merge(table, batches, k);
    page := PageOf(table, batches, k, byId, start, size);
  }

  method PageOf(table: set<Record>, batches: seq<Batch>, k: nat, byId: map<string, Record>, start: nat, size: nat) returns (page: seq<Record>)
    requires UniqueIds(table) && Merged(table, batches, k, byId)
    requires start < |Rows(table, batches)| && k == if size <= |Rows(table, batches)| - start then start + size else |Rows(table, batches)|
    ensures Orders(Newer, Rows(table, batches))
    ensures page == Slice(Sort(Newer, Rows(table, batches)), start, size)
  {
    var records := set id | id in byId :: byId[id];
    PageOfMerged(table, batches, k, byId, start, size);
    var sorted := SortSet(Newer, records);
    page := Slice(sorted, start, size);
  }

  lemma PageOfMerged(table: set<Record>, batches: seq<Batch>, k: nat, byId: map<string, Record>, start: nat, size: nat)
    requires UniqueIds(table) && Merged(table, batches, k, byId)
    requires start < |Rows(table, batches)| && k == if size <= |Rows(table, batches)| - start then start + size else |Rows(table, batches)|
    ensures
      var all, merged := Rows(table, batches), set id | id in byId :: byId[id];
      && Orders(Newer, all) && Orders(Newer, merged)
      && Slice(Sort(Newer, merged), start, size) == Slice(Sort(Newer, all), start, size)
  {
    MergedIsEnough(table, batches, k, byId);
    var merged := set id | id in byId :: byId[id];
    SliceOfMerged(Rows(table, batches), merged, start, size, k);
  }

  // ---- Following the next links -------------------------------------------------------------

  const DEFAULT_LIMIT: nat := 100
  const WINDOW: nat := 500

  datatype Link = Link(limit: nat, offset: nat)

  /** parsePagination, for a request whose parameters are integers if present. */
  function ParsePagination(limit: Option<int>, offset: Option<int>): Option<Link> {
    if (limit.Some? && limit.value <= 0) || (offset.Some? && offset.value < 0) then None
    else Some(Link(Min(if limit.Some? then limit.value else DEFAULT_LIMIT, MAX_PAGE), if offset.Some? then offset.value else 0))
  }

  /** handleUserListRunners does not refuse the page. */
  predicate WithinWindow(page: Link) {
    page.offset <= WINDOW - page.limit
  }

  /** The "next" link of writePaginationHeadersWithinWindow. */
  function NextLink(total: nat, limit: nat, offset: nat, window: nat): Option<Link> {
    var linkTotal := if window > 0 && total > window then window else total;
    var next := offset + limit;
    if next >= linkTotal then None
    else
      var nextLimit := if window > 0 && next + limit > window then window - next else limit;
      if nextLimit > 0 then Some(Link(nextLimit, next)) else None
  }

  /** What a client reads that starts at `page` and follows "next" to the end. */
  function Crawl<T>(rows: seq<T>, page: Link): seq<T>
    requires page.limit > 0
    decreases WINDOW - page.offset
  {
    var next := NextLink(|rows|, page.limit, page.offset, WINDOW);
    Slice(rows, page.offset, page.limit) + (if next.None? then [] else Crawl(rows, next.value))
  }

  /** The pages it asks for. */
  function Visited(total: nat, page: Link): seq<Link>
    requires page.limit > 0
    decreases WINDOW - page.offset
  {
    var next := NextLink(total, page.limit, page.offset, WINDOW);
    [page] + (if next.None? then [] else Visited(total, next.value))
  }

  lemma SlicesJoin<T>(s: seq<T>, a: nat, b: nat, c: nat)
    requires a <= b <= c
    ensures Slice(s, a, b - a) + Slice(s, b, c - b) == Slice(s, a, c - a)
  {
  }

  /** From any page the handler accepts, following "next" to the end reads every
      later row of the window once and in order, and never asks for a page that
      would be refused or parsed differently. */
  lemma {:induction false} CrawlReadsTheRest<T>(rows: seq<T>, page: Link)
    requires 0 < page.limit && WithinWindow(page)
    ensures Crawl(rows, page) == Slice(rows, page.offset, WINDOW - page.offset)
    ensures forall p :: p in Visited(|rows|, page) ==>
              WithinWindow(p) && ParsePagination(Some(p.limit), Some(p.offset)) == Some(p)
    decreases WINDOW - page.offset
  {
    var next := NextLink(|rows|, page.limit, page.offset, WINDOW);
    if next.Some? {
      CrawlReadsTheRest(rows, next.value);
      SlicesJoin(rows, page.offset, next.value.offset, WINDOW);
    }
  }

  /** Any first request without an offset that is accepted leads to exactly the
      first min(total, 500) rows. */
  lemma CrawlReadsTheWindow<T>(rows: seq<T>, limit: Option<int>)
    requires limit.None? || limit.value > 0
    ensures
      var first := ParsePagination(limit, None);
      && first.Some? && first.value.limit > 0 && WithinWindow(first.value)
      && Crawl(rows, first.value) == rows[..Min(|rows|, WINDOW)]
  {
    CrawlReadsTheRest(rows, ParsePagination(limit, None).value);
  }
}
