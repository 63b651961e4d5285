/** `export_url_index` of `scripts/application_schema_registry.py`. */
module UrlIndex {
  import opened Wrappers

  /** One backend of the inventory with its raw URLs, in file order. */
  datatype Group = Group(backend: string, urls: seq<string>)

  /** One row once its URL is in canonical form. */
  datatype Row = Row(url: string, backend: string)

  datatype Export = Export(index: map<string, string>, indexed: nat, repeated: nat, omitted: nat)

  datatype Error = InvalidBackend | InvalidUrl

  predicate Lead(c: char) { 'a' <= c <= 'z' || '0' <= c <= '9' }

  /** `^[a-z0-9][a-z0-9_-]{0,79}$` */
  predicate BackendOk(name: string) {
    && 1 <= |name| <= 80
    && Lead(name[0])
    && forall i :: 0 <= i < |name| ==> Lead(name[i]) || name[i] == '_' || name[i] == '-'
  }

  // ---- Specification ------------------------------------------------------------------------------

  function RowsOf(g: Group, urls: seq<string>, canonical: string -> Option<string>): Result<seq<Row>, Error> {
    if urls == [] then Success([])
    else
      var n := |urls| - 1;
      var before := RowsOf(g, urls[..n], canonical);
      if before.Failure? then before
      else
        match canonical(urls[n])
        case None => Failure(InvalidUrl)
        case Some(url) => Success(before.value + [Row(url, g.backend)])
  }

  /** The rows in file order, or the first error met on the way. */
  function Rows(inventory: seq<Group>, canonical: string -> Option<string>): Result<seq<Row>, Error> {
    if inventory == [] then Success([])
    else
      var n := |inventory| - 1;
      var before := Rows(inventory[..n], canonical);
      if before.Failure? then before
      else if !BackendOk(inventory[n].backend) then Failure(InvalidBackend)
      else
        match RowsOf(inventory[n], inventory[n].urls, canonical)
        case Failure(e) => Failure(e)
        case Success(more) => Success(before.value + more)
  }

  /** What the pass knows: the last backend of each URL, the URLs seen to conflict, the repeats. */
  datatype Pass = Seen(index: map<string, string>, conflicts: set<string>, repeated: nat)

  function ScanRow(s: Pass, row: Row): Pass {
    Seen(
      s.index[row.url := row.backend],
      if row.url in s.index && s.index[row.url] != row.backend then s.conflicts + {row.url} else s.conflicts,
      if row.url in s.index then s.repeated + 1 else s.repeated)
  }

  function Scan(rows: seq<Row>): Pass {
    if rows == [] then Seen(map[], {}, 0)
    else var n := |rows| - 1; ScanRow(Scan(rows[..n]), rows[n])
  }

  function Exported(s: Pass): Export {
    var kept := s.index - s.conflicts;
    Export(kept, |kept|, s.repeated, |s.conflicts|)
  }

  // ---- The single pass -------------------------------------------------------------------------------

  method ExportUrlIndex(inventory: seq<Group>, canonical: string -> Option<string>)
    returns (result: Result<Export, Error>)
    ensures match Rows(inventory, canonical)
            case Failure(e) => result == Failure(e)
            case Success(rows) => result == Success(Exported(Scan(rows)))
  {
    var index: map<string, string> := map[];
    var conflicts: set<string> := {};
    var repeated := 0;
    ghost var rows: seq<Row> := [];
    for g := 0 to |inventory|
      invariant Rows(inventory[..g], canonical) == Success(rows)
      invariant Seen(index, conflicts, repeated) == Scan(rows)
    {
      SliceStep(inventory, g);
      RowsStep(inventory, canonical, g);
      if !BackendOk(inventory[g].backend) { return Failure(InvalidBackend); }
      var refused;
      refused, index, conflicts, repeated := ScanGroup(inventory[g], canonical, index, conflicts, repeated, rows);
      if refused { return Failure(InvalidUrl); }
      rows := rows + RowsOf(inventory[g], inventory[g].urls, canonical).value;
    }
    assert inventory[..|inventory|] == inventory;
    var kept := DropConflicts(index, conflicts);
    result := Success(Export(kept, |kept|, repeated, |conflicts|));
  }

  method ScanGroup(group: Group, canonical: string -> Option<string>,
                   index0: map<string, string>, conflicts0: set<string>, repeated0: nat, ghost before: seq<Row>)
    returns (refused: bool, index: map<string, string>, conflicts: set<string>, repeated: nat)
    requires Seen(index0, conflicts0, repeated0) == Scan(before)
    ensures refused <==> RowsOf(group, group.urls, canonical).Failure?
    ensures refused ==> RowsOf(group, group.urls, canonical) == Failure(InvalidUrl)
    ensures !refused ==> Seen(index, conflicts, repeated) == Scan(before + RowsOf(group, group.urls, canonical).value)
  {
    refused, index, conflicts, repeated := false, index0, conflicts0, repeated0;
    ghost var added: seq<Row> := [];
    var backend, urls := group.backend, group.urls;
    assert before + [] == before;
    for i := 0 to |urls|
      invariant RowsOf(group, urls[..i], canonical) == Success(added) && !refused
      invariant Seen(index, conflicts, repeated) == Scan(before + added)
    {
      SliceStep(urls, i);
      GroupStep(group, urls, canonical, i);
      var url := canonical(urls[i]);
      if url.None? {
        refused := true;
        return;
      }
      ghost var row := Row(url.value, backend);
      ScanOne(before, added, row);
      if url.value in index {
        repeated := repeated + 1;
        if index[url.value] != backend {
          conflicts := conflicts + {url.value};
        }
      }
      index := index[url.value := backend];
      added := added + [row];
    }
    assert urls[..|urls|] == urls;
  }

  lemma ScanMore(rows: seq<Row>, row: Row)
    ensures Scan(rows + [row]) == ScanRow(Scan(rows), row)
  {
  }

  lemma ScanOne(before: seq<Row>, added: seq<Row>, row: Row)
    ensures Scan(before + (added + [row])) == ScanRow(Scan(before + added), row)
  {
    ScanMore(before + added, row);
    assert before + (added + [row]) == before + added + [row];
  }

  lemma SliceStep<T>(s: seq<T>, k: nat)
    requires k < |s|
    ensures s[..k + 1][..k] == s[..k] && s[..k + 1][k] == s[k]
  {
  }

  lemma {:induction false} RowsStep(inventory: seq<Group>, canonical: string -> Option<string>, g: nat)
    requires g < |inventory|
    ensures Rows(inventory[..g + 1], canonical).Failure? ==> Rows(inventory, canonical) == Rows(inventory[..g + 1], canonical)
  {
    if Rows(inventory[..g + 1], canonical).Failure? { FailsEarly(inventory, canonical, g + 1); }
  }

  lemma GroupStep(g: Group, urls: seq<string>, canonical: string -> Option<string>, i: nat)
    requires i < |urls|
    ensures RowsOf(g, urls[..i + 1], canonical).Failure? ==> RowsOf(g, urls, canonical) == RowsOf(g, urls[..i + 1], canonical)
  {
    if RowsOf(g, urls[..i + 1], canonical).Failure? { RowsFailEarly(g, urls, canonical, i + 1); }
  }

  method DropConflicts(index: map<string, string>, conflicts: set<string>) returns (kept: map<string, string>)
    ensures kept == index - conflicts
  {
    kept := index;
    var left := conflicts;
    while left != {}
      invariant left <= conflicts
      invariant kept == index - (conflicts - left)
    {
      var url :| url in left;
      kept := kept - {url};
      left := left - {url};
    }
  }

  lemma {:induction false} FailsEarly(inventory: seq<Group>, canonical: string -> Option<string>, n: nat)
    requires n <= |inventory| && Rows(inventory[..n], canonical).Failure?
    ensures Rows(inventory, canonical) == Rows(inventory[..n], canonical)
  {
    if n == |inventory| {
      assert inventory[..n] == inventory;
    } else {
      var m := |inventory| - 1;
      assert inventory[..m][..n] == inventory[..n];
      FailsEarly(inventory[..m], canonical, n);
    }
  }

  lemma {:induction false} RowsFailEarly(g: Group, urls: seq<string>, canonical: string -> Option<string>, n: nat)
    requires n <= |urls| && RowsOf(g, urls[..n], canonical).Failure?
    ensures RowsOf(g, urls, canonical) == RowsOf(g, urls[..n], canonical)
  {
    if n == |urls| {
      assert urls[..n] == urls;
    } else {
      var m := |urls| - 1;
      assert urls[..m][..n] == urls[..n];
      RowsFailEarly(g, urls[..m], canonical, n);
    }
  }

  // ---- What the export means ----------------------------------------------------------------------------

  predicate Named(rows: seq<Row>, url: string) {
    exists r :: r in rows && r.url == url
  }

  /** Every row of the URL names this backend. */
  predicate AllName(rows: seq<Row>, url: string, backend: string) {
    forall r :: r in rows && r.url == url ==> r.backend == backend
  }

  predicate Means(s: Pass, rows: seq<Row>, url: string) {
    && (url in s.index <==> Named(rows, url))
    && (url in s.index ==> Row(url, s.index[url]) in rows && (url !in s.conflicts <==> AllName(rows, url, s.index[url])))
    && (url in s.conflicts ==> url in s.index)
  }

  lemma MeansElsewhere(s: Pass, rows: seq<Row>, row: Row, url: string)
    requires Means(s, rows, url) && url != row.url
    ensures Means(ScanRow(s, row), rows + [row], url)
  {
  }

  lemma MeansHere(s: Pass, rows: seq<Row>, row: Row)
    requires Means(s, rows, row.url)
    ensures Means(ScanRow(s, row), rows + [row], row.url)
  {
  }

  lemma {:induction false} ScanMeans(rows: seq<Row>, url: string)
    ensures Means(Scan(rows), rows, url)
  {
    if rows != [] {
      var n := |rows| - 1;
      ScanMeans(rows[..n], url);
      assert rows == rows[..n] + [rows[n]];
      if url == rows[n].url { MeansHere(Scan(rows[..n]), rows[..n], rows[n]); }
      else { MeansElsewhere(Scan(rows[..n]), rows[..n], rows[n], url); }
    }
  }

  lemma {:induction false} RepeatsAreTheRest(rows: seq<Row>)
    ensures Scan(rows).repeated + |Scan(rows).index.Keys| == |rows|
  {
    if rows != [] {
      var n := |rows| - 1;
      var s, row := Scan(rows[..n]), rows[n];
      RepeatsAreTheRest(rows[..n]);
      assert s.index[row.url := row.backend].Keys == s.index.Keys + {row.url};
      if row.url in s.index { assert s.index.Keys + {row.url} == s.index.Keys; }
    }
  }

  predicate Maps(index: map<string, string>, url: string, backend: string) {
    url in index && index[url] == backend
  }

  /** A URL maps to a backend exactly if some row lists it and all its rows name that backend. */
  lemma {:induction false} IndexExactly(rows: seq<Row>, url: string, backend: string)
    ensures Maps(Exported(Scan(rows)).index, url, backend) <==> Named(rows, url) && AllName(rows, url, backend)
  {
    ScanMeans(rows, url);
    if url in Scan(rows).index { assert Row(url, Scan(rows).index[url]) in rows; }
  }

  /** Every row is counted once: as indexed, as conflicting or as a repeat. */
  lemma {:induction false} CountsAddUp(rows: seq<Row>)
    ensures var e := Exported(Scan(rows)); e.indexed + e.omitted + e.repeated == |rows|
  {
    var s := Scan(rows);
    forall url | url in s.conflicts ensures url in s.index { ScanMeans(rows, url); }
    RepeatsAreTheRest(rows);
    KeysSplit(s.index, s.conflicts);
  }

  lemma KeysSplit(m: map<string, string>, dropped: set<string>)
    requires dropped <= m.Keys
    ensures |m - dropped| + |dropped| == |m.Keys|
  {
  }

  /** The URLs left out are exactly those whose rows disagree. */
  lemma OmittedExactly(rows: seq<Row>, url: string)
    ensures url in Scan(rows).conflicts <==> exists r, q :: r in rows && q in rows && r.url == q.url == url && r.backend != q.backend
  {
    ScanMeans(rows, url);
    if url in Scan(rows).conflicts {
      var r := Row(url, Scan(rows).index[url]);
      var q :| q in rows && q.url == url && q.backend != r.backend;
      assert r in rows && r.url == q.url == url;
    } else if url in Scan(rows).index {
      assert AllName(rows, url, Scan(rows).index[url]);
    }
  }

  /** The index and every count are the same whatever order the rows come in. */
  lemma {:induction false} OrderDoesNotMatter(rows: seq<Row>, shuffled: seq<Row>)
    requires multiset(rows) == multiset(shuffled)
    ensures Exported(Scan(rows)) == Exported(Scan(shuffled))
  {
    var a, b := Exported(Scan(rows)), Exported(Scan(shuffled));
    SameMembers(rows, shuffled);
    forall url, backend ensures Maps(a.index, url, backend) <==> Maps(b.index, url, backend) {
      IndexExactly(rows, url, backend);
      IndexExactly(shuffled, url, backend);
      SameReading(rows, shuffled, url, backend);
    }
    SameMaps(a.index, b.index);
    forall url ensures url in Scan(rows).conflicts <==> url in Scan(shuffled).conflicts { SameConflicts(rows, shuffled, url); }
    assert Scan(rows).conflicts == Scan(shuffled).conflicts;
    CountsAddUp(rows);
    CountsAddUp(shuffled);
    assert |rows| == |multiset(rows)| == |multiset(shuffled)| == |shuffled|;
  }

  lemma SameMaps(a: map<string, string>, b: map<string, string>)
    requires forall url, backend :: Maps(a, url, backend) <==> Maps(b, url, backend)
    ensures a == b
  {
    forall url | url in a ensures url in b && b[url] == a[url] { assert Maps(a, url, a[url]); }
    forall url | url in b ensures url in a { assert Maps(b, url, b[url]); }
  }

  lemma SameReading(a: seq<Row>, b: seq<Row>, url: string, backend: string)
    requires forall r :: r in a <==> r in b
    ensures Named(a, url) <==> Named(b, url)
    ensures AllName(a, url, backend) <==> AllName(b, url, backend)
  {
  }

  lemma SameConflicts(a: seq<Row>, b: seq<Row>, url: string)
    requires forall r :: r in a <==> r in b
    ensures url in Scan(a).conflicts <==> url in Scan(b).conflicts
  {
    OmittedExactly(a, url);
    OmittedExactly(b, url);
  }

  lemma SameMembers(a: seq<Row>, b: seq<Row>)
    requires multiset(a) == multiset(b)
    ensures forall r :: r in a <==> r in b
  {
    forall r ensures r in a <==> r in b {
      assert r in a <==> r in multiset(a);
      assert r in b <==> r in multiset(b);
    }
  }

  /** The export is refused exactly if some backend name or some URL on the way is invalid. */
  lemma {:induction false} RefusedExactly(inventory: seq<Group>, canonical: string -> Option<string>)
    ensures Rows(inventory, canonical).Failure?
            <==> exists g :: 0 <= g < |inventory| && GroupRefused(inventory[g], canonical)
  {
    if inventory != [] {
      var n := |inventory| - 1;
      RefusedExactly(inventory[..n], canonical);
      GroupRefusedExactly(inventory[n], inventory[n].urls, canonical);
      assert forall g :: 0 <= g < n ==> inventory[..n][g] == inventory[g];
    }
  }

  predicate GroupRefused(g: Group, canonical: string -> Option<string>) {
    !BackendOk(g.backend) || exists u :: u in g.urls && canonical(u).None?
  }

  lemma {:induction false} GroupRefusedExactly(g: Group, urls: seq<string>, canonical: string -> Option<string>)
    ensures RowsOf(g, urls, canonical).Failure? <==> exists u :: u in urls && canonical(u).None?
  {
    if urls != [] {
      var n := |urls| - 1;
      GroupRefusedExactly(g, urls[..n], canonical);
      assert forall u :: u in urls <==> u in urls[..n] || u == urls[n] by { assert urls == urls[..n] + [urls[n]]; }
    }
  }

  // ---- From the inventory to the export ---------------------------------------------------------------

  /** The backend lists the URL, in some form of it. */
  predicate Lists(g: Group, canonical: string -> Option<string>, url: string) {
    exists raw :: raw in g.urls && canonical(raw) == Some(url)
  }

  lemma {:induction false} RowsOfAre(g: Group, urls: seq<string>, canonical: string -> Option<string>, url: string, backend: string)
    requires RowsOf(g, urls, canonical).Success?
    ensures |RowsOf(g, urls, canonical).value| == |urls|
    ensures Row(url, backend) in RowsOf(g, urls, canonical).value
            <==> backend == g.backend && exists raw :: raw in urls && canonical(raw) == Some(url)
  {
    if urls != [] {
      var n := |urls| - 1;
      RowsOfAre(g, urls[..n], canonical, url, backend);
      assert urls == urls[..n] + [urls[n]];
      assert forall raw :: raw in urls <==> raw in urls[..n] || raw == urls[n];
    }
  }

  function Total(inventory: seq<Group>): nat {
    if inventory == [] then 0 else var n := |inventory| - 1; Total(inventory[..n]) + |inventory[n].urls|
  }

  /** There is a row for every URL of every backend, and no other. */
  lemma {:induction false} RowsAre(inventory: seq<Group>, canonical: string -> Option<string>, url: string, backend: string)
    requires Rows(inventory, canonical).Success?
    ensures |Rows(inventory, canonical).value| == Total(inventory)
    ensures Row(url, backend) in Rows(inventory, canonical).value
            <==> exists g :: g in inventory && g.backend == backend && Lists(g, canonical, url)
  {
    if inventory != [] {
      var n := |inventory| - 1;
      RowsAre(inventory[..n], canonical, url, backend);
      RowsOfAre(inventory[n], inventory[n].urls, canonical, url, backend);
      assert inventory == inventory[..n] + [inventory[n]];
      assert forall g :: g in inventory <==> g in inventory[..n] || g == inventory[n];
    }
  }

  /** The URL is exported for the backend exactly if some entry of that backend lists it and no entry of
      another backend does. */
  lemma {:induction false} ExportExactly(inventory: seq<Group>, canonical: string -> Option<string>, url: string, backend: string)
    requires Rows(inventory, canonical).Success?
    ensures Maps(Exported(Scan(Rows(inventory, canonical).value)).index, url, backend)
            <==> && (exists g :: g in inventory && g.backend == backend && Lists(g, canonical, url))
                 && (forall g :: g in inventory && Lists(g, canonical, url) ==> g.backend == backend)
  {
    var rows := Rows(inventory, canonical).value;
    IndexExactly(rows, url, backend);
    RowsAre(inventory, canonical, url, backend);
    if Named(rows, url) && AllName(rows, url, backend) {
      forall g | g in inventory && Lists(g, canonical, url) ensures g.backend == backend {
        RowsAre(inventory, canonical, url, g.backend);
      }
    }
    forall r | r in rows && r.url == url
      ensures r == Row(url, r.backend) && exists g :: g in inventory && g.backend == r.backend && Lists(g, canonical, url)
    {
      RowsAre(inventory, canonical, url, r.backend);
    }
  }

  function UrlsOf(rows: seq<Row>): set<string> {
    set r | r in rows :: r.url
  }

  /** The URLs that some rows give to one backend and some to another. */
  function Disputed(rows: seq<Row>): set<string> {
    set url | url in UrlsOf(rows) && exists r, q :: r in rows && q in rows && r.url == q.url == url && r.backend != q.backend
  }

  lemma {:induction false} IndexedAre(rows: seq<Row>)
    ensures Scan(rows).index.Keys == UrlsOf(rows)
  {
    forall url ensures url in Scan(rows).index <==> url in UrlsOf(rows) { ScanMeans(rows, url); }
  }

  lemma {:induction false} ConflictsAre(rows: seq<Row>)
    ensures Scan(rows).conflicts == Disputed(rows)
  {
    forall url ensures url in Scan(rows).conflicts <==> url in Disputed(rows) { OmittedExactly(rows, url); }
  }

  /** Each count is what it is named for: the URLs exported, the URLs left out, and the rows beyond the
      first of each URL. */
  lemma {:induction false} CountsAre(rows: seq<Row>)
    ensures var e := Exported(Scan(rows));
            && e.indexed == |UrlsOf(rows) - Disputed(rows)| && e.omitted == |Disputed(rows)|
            && e.repeated == |rows| - |UrlsOf(rows)|
  {
    var s := Scan(rows);
    IndexedAre(rows);
    ConflictsAre(rows);
    RepeatsAreTheRest(rows);
    var kept := s.index - s.conflicts;
    assert kept.Keys == s.index.Keys - s.conflicts;
    assert |kept| == |kept.Keys|;
  }

  predicate Clear(g: Group, canonical: string -> Option<string>) {
    BackendOk(g.backend) && forall u :: u in g.urls ==> canonical(u).Some?
  }

  predicate ErrorAt(inventory: seq<Group>, canonical: string -> Option<string>, e: Error, g: nat) {
    && g < |inventory| && !Clear(inventory[g], canonical)
    && (e == if BackendOk(inventory[g].backend) then InvalidUrl else InvalidBackend)
    && forall h :: 0 <= h < g ==> Clear(inventory[h], canonical)
  }

  lemma {:induction false} ErrorAtPrefix(inventory: seq<Group>, canonical: string -> Option<string>, e: Error, n: nat, g: nat)
    requires n <= |inventory| && g < n
    ensures ErrorAt(inventory, canonical, e, g) <==> ErrorAt(inventory[..n], canonical, e, g)
  {
    assert forall h :: 0 <= h < n ==> inventory[..n][h] == inventory[h];
  }

  /** The first entry that is not in order decides the error: its name is looked at before its URLs. */
  lemma {:induction false} ErrorExactly(inventory: seq<Group>, canonical: string -> Option<string>, e: Error)
    ensures Rows(inventory, canonical) == Failure(e) <==> exists g: nat :: ErrorAt(inventory, canonical, e, g)
  {
    if inventory != [] {
      var n := |inventory| - 1;
      ErrorExactly(inventory[..n], canonical, e);
      forall g: nat | g < n ensures ErrorAt(inventory, canonical, e, g) <==> ErrorAt(inventory[..n], canonical, e, g) {
        ErrorAtPrefix(inventory, canonical, e, n, g);
      }
      ClearSoFar(inventory, canonical, n);
      GroupRefusedExactly(inventory[n], inventory[n].urls, canonical);
      RowsOfRefuses(inventory[n], inventory[n].urls, canonical);
      if Rows(inventory, canonical) == Failure(e) && Rows(inventory[..n], canonical).Success? {
        assert ErrorAt(inventory, canonical, e, n);
      }
    }
  }

  lemma {:induction false} ClearSoFar(inventory: seq<Group>, canonical: string -> Option<string>, n: nat)
    requires n <= |inventory|
    ensures Rows(inventory[..n], canonical).Success? <==> forall h :: 0 <= h < n ==> Clear(inventory[h], canonical)
  {
    RefusedExactly(inventory[..n], canonical);
    if forall h :: 0 <= h < n ==> Clear(inventory[h], canonical) {
      forall h | 0 <= h < n ensures !GroupRefused(inventory[..n][h], canonical) { assert Clear(inventory[h], canonical); }
    } else {
      var h :| 0 <= h < n && !Clear(inventory[h], canonical);
      assert GroupRefused(inventory[..n][h], canonical);
    }
  }

  lemma {:induction false} RowsOfRefuses(g: Group, urls: seq<string>, canonical: string -> Option<string>)
    ensures RowsOf(g, urls, canonical).Failure? ==> RowsOf(g, urls, canonical) == Failure(InvalidUrl)
  {
    if urls != [] { RowsOfRefuses(g, urls[..|urls| - 1], canonical); }
  }
}
