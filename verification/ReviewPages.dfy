/** The review list of `apps/web/lib/preparation.ts`: answers grouped by form page. */
module ReviewPages {
  import opened Wrappers

  /** What the service reports as an answer's page: any JavaScript value. */
  datatype Reported = Whole(n: int) | Unusable

  /** `confidence` is none when the reported value is not a finite number. */
  datatype Item = Item(page: Reported, confidence: Option<real>, answer: string)

  /** A 1-based page, or none when the service reported no usable one. */
  type Page = Option<nat>

  datatype Group = Group(page: Page, items: seq<Item>)

  function PageOf(item: Item): Page {
    if item.page.Whole? && item.page.n >= 1 then Some(item.page.n) else None
  }

  // ---- Specification --------------------------------------------------------------------------------

  /** The answers of one page, in form order. */
  function OnPage(items: seq<Item>, page: Page): (r: seq<Item>)
    ensures forall x :: x in r <==> x in items && PageOf(x) == page
  {
    if items == [] then []
    else
      var n := |items| - 1;
      OnPage(items[..n], page) + (if PageOf(items[n]) == page then [items[n]] else [])
  }

  /** Earlier pages first, the unknown page last. */
  predicate Before(a: Page, b: Page) {
    a.Some? && (b.None? || a.value < b.value)
  }

  ghost predicate Ordered(groups: seq<Group>) {
    forall i, j :: 0 <= i < j < |groups| ==> Before(groups[i].page, groups[j].page)
  }

  /** Each group holds all answers of its page in form order; no page is missing, none is empty. */
  ghost predicate Complete(items: seq<Item>, groups: seq<Group>) {
    && (forall i :: 0 <= i < |groups| ==> groups[i].items == OnPage(items, groups[i].page) && groups[i].items != [])
    && (forall x :: x in items ==> exists i :: 0 <= i < |groups| && groups[i].page == PageOf(x))
  }

  ghost predicate Grouping(items: seq<Item>, groups: seq<Group>) {
    Ordered(groups) && Complete(items, groups)
  }

  // ---- The two passes ----------------------------------------------------------------------------------

  predicate Holds(table: map<Page, seq<Item>>, items: seq<Item>, page: Page) {
    if OnPage(items, page) == [] then page !in table else page in table && table[page] == OnPage(items, page)
  }

  /** What the map holds after some answers: its keys in insertion order, and each key's group. */
  ghost predicate Collected(keys: seq<Page>, table: map<Page, seq<Item>>, items: seq<Item>) {
    && (forall i, j :: 0 <= i < j < |keys| ==> keys[i] != keys[j])
    && (forall p :: p in keys <==> p in table)
    && (forall p :: Holds(table, items, p))
  }

  lemma OnPageMore(items: seq<Item>, x: Item, page: Page)
    ensures OnPage(items + [x], page) == OnPage(items, page) + (if PageOf(x) == page then [x] else [])
  {
  }

  lemma HoldsMore(table: map<Page, seq<Item>>, items: seq<Item>, x: Item, page: Page)
    requires Holds(table, items, page) && Holds(table, items, PageOf(x))
    ensures Holds(table[PageOf(x) := OnPage(items, PageOf(x)) + [x]], items + [x], page)
  {
  }

  lemma CollectMore(keys: seq<Page>, table: map<Page, seq<Item>>, items: seq<Item>, x: Item)
    requires Collected(keys, table, items)
    ensures var p := PageOf(x);
            if p in table then Collected(keys, table[p := table[p] + [x]], items + [x])
            else Collected(keys + [p], table[p := [x]], items + [x])
  {
    var p := PageOf(x);
    assert Holds(table, items, p);
    var more := table[p := OnPage(items, p) + [x]];
    forall q ensures Holds(more, items + [x], q) {
      assert Holds(table, items, q);
      HoldsMore(table, items, x, q);
    }
    if p !in table { assert OnPage(items, p) + [x] == [x]; }
  }

  method GroupReviewByPage(items: seq<Item>) returns (groups: seq<Group>)
    ensures Grouping(items, groups)
  {
    var keys: seq<Page> := [];
    var table: map<Page, seq<Item>> := map[];
    for k := 0 to |items|
      invariant Collected(keys, table, items[..k])
    {
      assert items[..k + 1] == items[..k] + [items[k]];
      CollectMore(keys, table, items[..k], items[k]);
      var page := PageOf(items[k]);
      if page in table {
        table := table[page := table[page] + [items[k]]];
      } else {
        keys, table := keys + [page], table[page := [items[k]]];
      }
    }
    assert items[..|items|] == items;
    var pages := Sorted(keys);
    groups := [];
    for k := 0 to |pages|
      invariant |groups| == k
      invariant forall i :: 0 <= i < k ==> pages[i] in table && groups[i] == Group(pages[i], table[pages[i]])
    {
      assert pages[k] in pages;
      groups := groups + [Group(pages[k], table[pages[k]])];
    }
    SortedCompletes(keys, pages, table, items, groups);
  }

  lemma SortedCompletes(keys: seq<Page>, pages: seq<Page>, table: map<Page, seq<Item>>, items: seq<Item>, groups: seq<Group>)
    requires Collected(keys, table, items) && (forall p :: p in pages <==> p in keys)
    requires forall i, j :: 0 <= i < j < |pages| ==> Before(pages[i], pages[j])
    requires |groups| == |pages| && forall i :: 0 <= i < |pages| ==> pages[i] in table && groups[i] == Group(pages[i], table[pages[i]])
    ensures Grouping(items, groups)
  {
    forall i | 0 <= i < |groups| ensures groups[i].items == OnPage(items, groups[i].page) && groups[i].items != [] {
      assert Holds(table, items, pages[i]);
    }
    forall x | x in items ensures exists i :: 0 <= i < |groups| && groups[i].page == PageOf(x) {
      assert x in OnPage(items, PageOf(x)) && Holds(table, items, PageOf(x));
      var i :| 0 <= i < |pages| && pages[i] == PageOf(x);
      assert groups[i].page == PageOf(x);
    }
  }

  /** Distinct pages in order. The source sorts with the library's `sort`. */
  method Sorted(keys: seq<Page>) returns (pages: seq<Page>)
    requires forall i, j :: 0 <= i < j < |keys| ==> keys[i] != keys[j]
    ensures forall p :: p in pages <==> p in keys
    ensures forall i, j :: 0 <= i < j < |pages| ==> Before(pages[i], pages[j])
  {
    pages := [];
    for k := 0 to |keys|
      invariant forall p :: p in pages <==> p in keys[..k]
      invariant forall i, j :: 0 <= i < j < |pages| ==> Before(pages[i], pages[j])
    {
      var at := 0;
      while at < |pages| && Before(pages[at], keys[k])
        invariant at <= |pages|
        invariant forall i :: 0 <= i < at ==> Before(pages[i], keys[k])
      {
        at := at + 1;
      }
      assert keys[k] !in keys[..k];
      Insert(pages, keys[k], at);
      pages := pages[..at] + [keys[k]] + pages[at..];
      assert keys[..k + 1] == keys[..k] + [keys[k]];
    }
    assert keys[..|keys|] == keys;
  }

  lemma Insert(pages: seq<Page>, page: Page, at: nat)
    requires at <= |pages| && page !in pages
    requires forall i, j :: 0 <= i < j < |pages| ==> Before(pages[i], pages[j])
    requires forall i :: 0 <= i < at ==> Before(pages[i], page)
    requires at < |pages| ==> !Before(pages[at], page)
    ensures var more := pages[..at] + [page] + pages[at..];
            && (forall i, j :: 0 <= i < j < |more| ==> Before(more[i], more[j]))
            && (forall p :: p in more <==> p in pages || p == page)
  {
  }

  // ---- What a grouping means -----------------------------------------------------------------------------

  /** Every item is on one page, so the groups of a complete grouping hold each exactly once. */
  function Answers(groups: seq<Group>): seq<Item> {
    if groups == [] then [] else groups[0].items + Answers(groups[1..])
  }

  function Elsewhere(items: seq<Item>, page: Page): (r: seq<Item>)
    ensures forall x :: x in r <==> x in items && PageOf(x) != page
  {
    if items == [] then []
    else
      var n := |items| - 1;
      Elsewhere(items[..n], page) + (if PageOf(items[n]) == page then [] else [items[n]])
  }

  lemma {:induction false} OnePageApart(items: seq<Item>, page: Page)
    ensures multiset(items) == multiset(OnPage(items, page)) + multiset(Elsewhere(items, page))
  {
    if items != [] {
      var n := |items| - 1;
      OnePageApart(items[..n], page);
      assert items == items[..n] + [items[n]];
    }
  }

  lemma {:induction false} OtherPagesKept(items: seq<Item>, page: Page, other: Page)
    requires page != other
    ensures OnPage(Elsewhere(items, page), other) == OnPage(items, other)
  {
    if items != [] {
      var n := |items| - 1;
      OtherPagesKept(items[..n], page, other);
      OnPageMore(Elsewhere(items[..n], page), items[n], other);
      if PageOf(items[n]) == page { assert Elsewhere(items[..n], page) + [] == Elsewhere(items[..n], page); }
    }
  }

  lemma {:induction false} FirstGroupApart(items: seq<Item>, groups: seq<Group>)
    requires Grouping(items, groups) && groups != []
    ensures Grouping(Elsewhere(items, groups[0].page), groups[1..])
  {
    var page, rest := groups[0].page, groups[1..];
    forall i | 0 <= i < |rest| ensures rest[i].items == OnPage(Elsewhere(items, page), rest[i].page) && rest[i].items != [] {
      assert rest[i] == groups[i + 1] && Before(page, rest[i].page);
      OtherPagesKept(items, page, rest[i].page);
    }
    forall x | x in Elsewhere(items, page) ensures exists i :: 0 <= i < |rest| && rest[i].page == PageOf(x) {
      var i :| 0 <= i < |groups| && groups[i].page == PageOf(x);
      assert rest[i - 1].page == PageOf(x);
    }
  }

  lemma SomethingGrouped(items: seq<Item>)
    requires items != []
    ensures !Grouping(items, [])
  {
    assert items[0] in items;
  }

  /** Every answer appears in the list exactly as often as it was given. */
  lemma {:induction false} EveryAnswerOnce(items: seq<Item>, groups: seq<Group>)
    requires Grouping(items, groups)
    ensures multiset(Answers(groups)) == multiset(items)
    decreases |groups|
  {
    if groups == [] {
      if items != [] { SomethingGrouped(items); }
    } else {
      var page := groups[0].page;
      FirstGroupApart(items, groups);
      EveryAnswerOnce(Elsewhere(items, page), groups[1..]);
      OnePageApart(items, page);
    }
  }

  lemma FirstPageIsFirst(items: seq<Item>, a: seq<Group>, b: seq<Group>)
    requires Grouping(items, a) && Grouping(items, b) && a != []
    ensures b != [] && !Before(a[0].page, b[0].page)
  {
    var x := a[0].items[0];
    assert x in a[0].items && x in items && PageOf(x) == a[0].page;
    var i :| 0 <= i < |b| && b[i].page == PageOf(x);
    if i > 0 { assert Before(b[0].page, b[i].page); }
  }

  /** The grouping is determined by the answers: their pages, their order and nothing else. */
  lemma {:induction false} OneGrouping(items: seq<Item>, a: seq<Group>, b: seq<Group>)
    requires Grouping(items, a) && Grouping(items, b)
    ensures a == b
    decreases |a|
  {
    if a == [] {
      if b != [] { FirstPageIsFirst(items, b, a); }
    } else {
      FirstPageIsFirst(items, a, b);
      FirstPageIsFirst(items, b, a);
      assert a[0] == b[0];
      FirstGroupApart(items, a);
      FirstGroupApart(items, b);
      OneGrouping(Elsewhere(items, a[0].page), a[1..], b[1..]);
      assert a == [a[0]] + a[1..] && b == [b[0]] + b[1..];
    }
  }

  const LOW_CONFIDENCE := 0.9

  datatype Summary = Summary(total: nat, pages: nat, toCheck: nat)

  predicate NeedsCheck(item: Item) { item.confidence.Some? && item.confidence.value < LOW_CONFIDENCE }

  function ToCheck(items: seq<Item>): seq<Item> {
    if items == [] then []
    else (if NeedsCheck(items[0]) then [items[0]] else []) + ToCheck(items[1..])
  }

  function Pages(items: seq<Item>): set<Page> {
    set x | x in items :: PageOf(x)
  }

  function ReviewSummary(items: seq<Item>): Summary {
    Summary(|items|, |Pages(items)|, |ToCheck(items)|)
  }

  /** The summary counts one page for each group shown, and one answer for each shown in them. */
  lemma SummaryMatchesGroups(items: seq<Item>, groups: seq<Group>)
    requires Grouping(items, groups)
    ensures ReviewSummary(items).pages == |groups|
    ensures ReviewSummary(items).total == |Answers(groups)|
  {
    SummaryCountsGroups(items, groups);
    EveryAnswerOnce(items, groups);
    assert |multiset(items)| == |items| && |multiset(Answers(groups))| == |Answers(groups)|;
  }

  lemma {:induction false} SummaryCountsGroups(items: seq<Item>, groups: seq<Group>)
    requires Grouping(items, groups)
    ensures |Pages(items)| == |groups|
    decreases |groups|
  {
    if groups == [] {
      if items != [] { SomethingGrouped(items); }
    } else {
      var page := groups[0].page;
      FirstGroupApart(items, groups);
      SummaryCountsGroups(Elsewhere(items, page), groups[1..]);
      var x := groups[0].items[0];
      assert x in groups[0].items && x in items && PageOf(x) == page;
      assert Pages(items) == Pages(Elsewhere(items, page)) + {page};
      assert page !in Pages(Elsewhere(items, page));
    }
  }

  /** A group of a page holds answers that report just this page, counted from 1; the last group, of the
      unknown page, those that report none. */
  lemma {:induction false} GroupsArePages(items: seq<Item>, groups: seq<Group>, i: nat, x: Item)
    requires Grouping(items, groups) && i < |groups| && x in groups[i].items
    ensures match groups[i].page
            case Some(n) => n >= 1 && x.page == Whole(n)
            case None => x.page.Unusable? || x.page.n < 1
  {
    assert x in OnPage(items, groups[i].page);
  }
}
