/**
 * The header of the notebook's layout: the notification feed with its "smart" grouping of
 * unread notifications by category, the three mutators of the notification list, the
 * relative-time label, the search suggestions and the recent-search list.
 *
 * Timestamps are milliseconds since the epoch.
 */
module Notifications {
  import Types
  import opened JsString
  import opened Seqs

  datatype Category = Equipment | Experiment | Inventory | System

  /** The notification's `type`: its severity. */
  datatype Kind = Alert | Success | Warning | Info

  /** A call to action: a labelled navigation request. */
  datatype Cta = Cta(caption: string, view: Types.ViewState, params: Types.NavParams)

  datatype Notification = Notification(
    id: string,
    category: Category,
    kind: Kind,
    title: string,
    message: string,
    timestamp: int,
    read: bool,
    cta: Types.Option<Cta>)

  /** One row of the feed: a notification shown as it is, or a cluster of unread ones. */
  datatype DisplayItem =
    | Single(notification: Notification)
    | Cluster(id: string, category: Category, count: nat, items: seq<Notification>,
              timestamp: int, kind: Kind, cta: Types.Option<Cta>)

  function CategoryName(c: Category): string {
    match c
    case Equipment => "equipment"
    case Experiment => "experiment"
    case Inventory => "inventory"
    case System => "system"
  }

  function CategoryOf(e: DisplayItem): Category {
    if e.Single? then e.notification.category else e.category
  }

  function Time(e: DisplayItem): int {
    if e.Single? then e.notification.timestamp else e.timestamp
  }

  /** Sort key of a newest-first sort. */
  function NewestFirst(e: DisplayItem): int {
    -Time(e)
  }

  /** The same key on a bare notification. */
  function Recency(n: Notification): int {
    -n.timestamp
  }

  /** The notifications a row stands for. */
  function ItemsOf(e: DisplayItem): seq<Notification> {
    if e.Single? then [e.notification] else e.items
  }

  /** How many notifications a row reports: one, or the cluster's count. */
  function Size(e: DisplayItem): nat {
    if e.Single? then 1 else e.count
  }

  // ---------------------------------------------------------------------------------
  // Partitioning and grouping

  predicate IsUnread(n: Notification) { !n.read }

  predicate IsRead(n: Notification) { n.read }

  function Unread(ns: seq<Notification>): seq<Notification> {
    Filter(ns, IsUnread)
  }

  function ReadItems(ns: seq<Notification>): seq<Notification> {
    Filter(ns, IsRead)
  }

  /** The badge number on the bell. */
  function UnreadCount(ns: seq<Notification>): (r: nat)
    ensures r <= |ns|
  {
    |Unread(ns)|
  }

  /** The notifications of one category, in list order. */
  function OfCategory(ns: seq<Notification>, c: Category): (r: seq<Notification>)
    ensures |r| <= |ns|
    ensures forall i :: 0 <= i < |r| ==> r[i].category == c
  {
    if ns == [] then []
    else OfCategory(ns[..|ns| - 1], c) + (if ns[|ns| - 1].category == c then [ns[|ns| - 1]] else [])
  }

  /** The notifications of a category are exactly those of the list that belong to it. */
  lemma {:induction false} OfCategoryMembers(ns: seq<Notification>, c: Category)
    ensures forall m :: m in OfCategory(ns, c) <==> m in ns && m.category == c
  {
    if ns != [] {
      var init := ns[..|ns| - 1];
      OfCategoryMembers(init, c);
      assert ns == init + [ns[|ns| - 1]];
    }
  }

  /** The categories present, in order of first appearance (the key order of the grouping record). */
  function Categories(ns: seq<Notification>): seq<Category> {
    if ns == [] then []
    else
      var cs := Categories(ns[..|ns| - 1]);
      if ns[|ns| - 1].category in cs then cs else cs + [ns[|ns| - 1].category]
  }

  ghost predicate NoDuplicates<T>(s: seq<T>) {
    forall i, j :: 0 <= i < j < |s| ==> s[i] != s[j]
  }

  lemma {:induction false} OfCategoryAppend(ns: seq<Notification>, x: Notification, c: Category)
    ensures OfCategory(ns + [x], c) == OfCategory(ns, c) + (if x.category == c then [x] else [])
  {
    assert (ns + [x])[..|ns|] == ns;
  }

  /** A category is listed exactly when it has a notification, and at most once. */
  lemma {:induction false} CategoriesFacts(ns: seq<Notification>)
    ensures forall c :: c in Categories(ns) <==> OfCategory(ns, c) != []
    ensures NoDuplicates(Categories(ns))
  {
    if ns != [] {
      var init := ns[..|ns| - 1];
      var x := ns[|ns| - 1];
      CategoriesFacts(init);
      assert ns == init + [x];
      forall c ensures OfCategory(ns, c) == OfCategory(init, c) + (if x.category == c then [x] else []) {
        OfCategoryAppend(init, x, c);
      }
    }
  }

  /** The generic call to action of a cluster. */
  function ClusterCta(c: Category): Types.Option<Cta> {
    match c
    case Experiment => Types.Some(Cta("View Experiments", Types.Experiments, Types.NoParams))
    case Inventory => Types.Some(Cta("Check Inventory", Types.Inventory, Types.NoParams))
    case Equipment => Types.Some(Cta("Check Equipment", Types.Inventory,
      Types.NavParams(Types.Some(Types.EquipmentTab), Types.None, Types.None, false)))
    case System => Types.None
  }

  /**
   * Where a cluster's call to action leads: experiments to the experiment list, inventory
   * to the inventory, equipment to the inventory's equipment tab; system clusters have none.
   */
  lemma ClusterCtaTargets(c: Category)
    ensures ClusterCta(c).Some? <==> c != System
    ensures c == Experiment ==> ClusterCta(c).value.view == Types.Experiments && ClusterCta(c).value.params == Types.NoParams
    ensures c == Inventory ==> ClusterCta(c).value.view == Types.Inventory && ClusterCta(c).value.params == Types.NoParams
    ensures c == Equipment ==> ClusterCta(c).value.view == Types.Inventory
                               && ClusterCta(c).value.params.tab == Types.Some(Types.EquipmentTab)
  {
  }

  /** The row for one category of the unread notifications: a cluster when it has more than one. */
  function EntryFor(unread: seq<Notification>, c: Category): (r: DisplayItem)
    requires OfCategory(unread, c) != []
    ensures CategoryOf(r) == c
    ensures ItemsOf(r) == OfCategory(unread, c)
  {
    RowFor(c, OfCategory(unread, c))
  }

  /** What the loop emits for a category's list: a cluster record for several items, else the item. */
  function RowFor(c: Category, items: seq<Notification>): DisplayItem
    requires items != []
  {
    if |items| > 1 then
      Cluster("cluster-" + CategoryName(c), c, |items|, items, items[0].timestamp, items[0].kind, ClusterCta(c))
    else
      Single(items[0])
  }

  /**
   * A category gets a cluster exactly when it has more than one unread notification; the
   * cluster counts them, is named after the category, and takes its time and severity from
   * the first of them; a lone notification is shown unwrapped.
   */
  lemma {:induction false} EntryShape(unread: seq<Notification>, c: Category)
    requires OfCategory(unread, c) != []
    ensures var r := EntryFor(unread, c);
      && (r.Cluster? <==> |OfCategory(unread, c)| > 1)
      && (r.Single? ==> r.notification == OfCategory(unread, c)[0])
      && Time(r) == OfCategory(unread, c)[0].timestamp
      && (r.Cluster? ==> r.count == |r.items| && r.id == "cluster-" + CategoryName(c)
                         && r.kind == r.items[0].kind && r.cta == ClusterCta(c))
  {
  }

  /** Every category in `cats` has an unread notification. */
  ghost predicate AllPresent(unread: seq<Notification>, cats: seq<Category>) {
    forall k :: 0 <= k < |cats| ==> OfCategory(unread, cats[k]) != []
  }

  /** The rows of the categories `cats`, in that order: the k-th row is the row of the k-th category. */
  function EntriesOf(unread: seq<Notification>, cats: seq<Category>): (r: seq<DisplayItem>)
    requires AllPresent(unread, cats)
    ensures |r| == |cats|
    ensures forall k :: 0 <= k < |cats| ==> r[k] == EntryFor(unread, cats[k])
  {
    if cats == [] then [] else EntriesOf(unread, cats[..|cats| - 1]) + [EntryFor(unread, cats[|cats| - 1])]
  }

  /** The unsorted block of rows for a list of unread notifications. */
  function Entries(unread: seq<Notification>): seq<DisplayItem> {
    CategoriesFacts(unread);
    EntriesOf(unread, Categories(unread))
  }

  function Singles(ns: seq<Notification>): (r: seq<DisplayItem>)
    ensures |r| == |ns| && forall i :: 0 <= i < |ns| ==> r[i] == Single(ns[i])
  {
    seq(|ns|, i requires 0 <= i < |ns| => Single(ns[i]))
  }

  /**
   * The feed: one row per category with unread notifications, newest first, followed by
   * the read notifications, newest first.
   */
  function SmartNotifications(ns: seq<Notification>): seq<DisplayItem> {
    UnreadBlock(ns) + ReadBlock(ns)
  }

  function UnreadBlock(ns: seq<Notification>): seq<DisplayItem> {
    SortedBy(Entries(Unread(ns)), NewestFirst)
  }

  function ReadBlock(ns: seq<Notification>): seq<DisplayItem> {
    SortedBy(Singles(ReadItems(ns)), NewestFirst)
  }

  /** The category record after the notifications `seen`: their lists, keys in first-seen order. */
  ghost predicate Grouped(seen: seq<Notification>, clusters: map<Category, seq<Notification>>, order: seq<Category>) {
    && order == Categories(seen)
    && (forall c :: c in clusters <==> c in order)
    && (forall c :: c in clusters ==> clusters[c] == OfCategory(seen, c))
    && (forall c :: c !in clusters ==> OfCategory(seen, c) == [])
  }

  /** A grouping step for a category seen before: its list grows by the notification. */
  lemma {:induction false} GroupedPushKnown(seen: seq<Notification>, n: Notification,
                                            clusters: map<Category, seq<Notification>>, order: seq<Category>)
    requires Grouped(seen, clusters, order)
    requires n.category in clusters
    ensures Grouped(seen + [n], clusters[n.category := clusters[n.category] + [n]], order)
  {
    assert (seen + [n])[..|seen|] == seen;
    forall c ensures OfCategory(seen + [n], c) == OfCategory(seen, c) + (if n.category == c then [n] else []) {
      OfCategoryAppend(seen, n, c);
    }
  }

  /** A grouping step for a new category: it gets a key of its own, holding the notification. */
  lemma {:induction false} GroupedPushNew(seen: seq<Notification>, n: Notification,
                                          clusters: map<Category, seq<Notification>>, order: seq<Category>)
    requires Grouped(seen, clusters, order)
    requires n.category !in clusters
    ensures Grouped(seen + [n], clusters[n.category := [n]], order + [n.category])
  {
    assert (seen + [n])[..|seen|] == seen;
    forall c ensures OfCategory(seen + [n], c) == OfCategory(seen, c) + (if n.category == c then [n] else []) {
      OfCategoryAppend(seen, n, c);
    }
  }

  /** Fills the category record: each category's unread notifications, keys in first-seen order. */
  method GroupByCategory(unread: seq<Notification>) returns (clusters: map<Category, seq<Notification>>, order: seq<Category>)
    ensures order == Categories(unread)
    ensures forall c :: c in clusters <==> c in order
    ensures forall c :: c in clusters ==> clusters[c] == OfCategory(unread, c)
  {
    clusters := map[];
    order := [];
    var i := 0;
    while i < |unread|
      invariant 0 <= i <= |unread|
      invariant Grouped(unread[..i], clusters, order)
    {
      var n := unread[i];
      assert unread[..i + 1] == unread[..i] + [n];
      if n.category !in clusters {
        GroupedPushNew(unread[..i], n, clusters, order);
        ghost var pushed := clusters[n.category := [n]];
        clusters := clusters[n.category := []];
        order := order + [n.category];
        assert clusters[n.category := clusters[n.category] + [n]] == pushed;
      } else {
        GroupedPushKnown(unread[..i], n, clusters, order);
      }
      clusters := clusters[n.category := clusters[n.category] + [n]];
      i := i + 1;
    }
    assert unread[..i] == unread;
  }

  /** Turns each entry of the category record into a row: a cluster or its one notification. */
  method RowsOf(unread: seq<Notification>, clusters: map<Category, seq<Notification>>, order: seq<Category>)
    returns (smart: seq<DisplayItem>)
    requires forall k :: 0 <= k < |order| ==>
      order[k] in clusters && clusters[order[k]] == OfCategory(unread, order[k]) && clusters[order[k]] != []
    ensures smart == EntriesOf(unread, order)
  {
    smart := [];
    var k := 0;
    while k < |order|
      invariant 0 <= k <= |order|
      invariant |smart| == k
      invariant forall j :: 0 <= j < k ==> smart[j] == EntryFor(unread, order[j])
    {
      var cat := order[k];
      var items := clusters[cat];
      smart := smart + [RowFor(cat, items)];
      k := k + 1;
    }
    assert AllPresent(unread, order);
  }

  /** Sorts rows newest first, in an array. */
  method SortNewestFirst(rows: seq<DisplayItem>) returns (r: seq<DisplayItem>)
    ensures r == SortedBy(rows, NewestFirst)
  {
    var a := new DisplayItem[|rows|](j requires 0 <= j < |rows| => rows[j]);
    assert a[..] == rows;
    SortInPlace(a, NewestFirst);
    r := a[..];
  }

  /**
   * getSmartNotifications as the component runs it: fill a category record with the
   * unread notifications, turn each entry into a row, sort the rows, append the sorted
   * read notifications.
   */
  method GetSmartNotifications(ns: seq<Notification>) returns (r: seq<DisplayItem>)
    ensures r == SmartNotifications(ns)
  {
    var unread := Unread(ns);
    var readRows := SortNewestFirst(Singles(ReadItems(ns)));
    var clusters, order := GroupByCategory(unread);
    CategoriesFacts(unread);
    var smart := RowsOf(unread, clusters, order);
    var smartRows := SortNewestFirst(smart);
    r := smartRows + readRows;
  }

  // ---------------------------------------------------------------------------------
  // What the feed shows

  /** The notifications behind a list of rows, row by row. */
  function Members(es: seq<DisplayItem>): seq<Notification> {
    if es == [] then [] else Members(es[..|es| - 1]) + ItemsOf(es[|es| - 1])
  }

  /** The sum of the rows' sizes: one per single row, the count of each cluster. */
  function TotalSize(es: seq<DisplayItem>): nat {
    if es == [] then 0 else TotalSize(es[..|es| - 1]) + Size(es[|es| - 1])
  }

  /** The set of categories the rows belong to. */
  function CategoriesOf(es: seq<DisplayItem>): set<Category> {
    set e | e in es :: CategoryOf(e)
  }

  /** Every cluster among the rows reports its own number of members. */
  ghost predicate CountsAgree(es: seq<DisplayItem>) {
    forall i :: 0 <= i < |es| ==> Size(es[i]) == |ItemsOf(es[i])|
  }

  lemma {:induction false} MembersAppendRow(es: seq<DisplayItem>, e: DisplayItem)
    ensures Members(es + [e]) == Members(es) + ItemsOf(e)
    ensures TotalSize(es + [e]) == TotalSize(es) + Size(e)
  {
    assert (es + [e])[..|es|] == es;
  }

  lemma {:induction false} MembersInsert(s: seq<DisplayItem>, x: DisplayItem)
    ensures multiset(Members(Insert(s, x, NewestFirst))) == multiset(Members(s)) + multiset(ItemsOf(x))
  {
    if s == [] || NewestFirst(s[|s| - 1]) <= NewestFirst(x) {
      MembersAppendRow(s, x);
    } else {
      var init := s[..|s| - 1];
      var last := s[|s| - 1];
      assert s == init + [last];
      assert Insert(s, x, NewestFirst) == Insert(init, x, NewestFirst) + [last];
      MembersInsert(init, x);
      MembersAppendRow(Insert(init, x, NewestFirst), last);
      MembersAppendRow(init, last);
    }
  }

  /** Sorting the rows moves them but not the notifications they stand for. */
  lemma {:induction false} MembersSorted(s: seq<DisplayItem>)
    ensures multiset(Members(SortedBy(s, NewestFirst))) == multiset(Members(s))
  {
    if s != [] {
      var init := s[..|s| - 1];
      var last := s[|s| - 1];
      assert s == init + [last];
      MembersSorted(init);
      MembersInsert(SortedBy(init, NewestFirst), last);
      MembersAppendRow(init, last);
    }
  }

  lemma {:induction false} TotalSizeIsMembers(es: seq<DisplayItem>)
    requires CountsAgree(es)
    ensures TotalSize(es) == |Members(es)|
  {
    if es != [] {
      var init := es[..|es| - 1];
      assert CountsAgree(init) by {
        forall i | 0 <= i < |init| ensures Size(init[i]) == |ItemsOf(init[i])| {
          assert init[i] == es[i];
        }
      }
      TotalSizeIsMembers(init);
    }
  }

  lemma {:induction false} MembersOfSingles(ns: seq<Notification>)
    ensures Members(Singles(ns)) == ns
  {
    if ns != [] {
      var init := ns[..|ns| - 1];
      MembersOfSingles(init);
      assert Singles(ns)[..|ns| - 1] == Singles(init);
      assert ns == init + [ns[|ns| - 1]];
    }
  }

  /** The per-category lists of `cats`, one after another. */
  function Gather(u: seq<Notification>, cats: seq<Category>): seq<Notification> {
    if cats == [] then [] else Gather(u, cats[..|cats| - 1]) + OfCategory(u, cats[|cats| - 1])
  }

  lemma {:induction false} MembersOfEntriesOf(u: seq<Notification>, cats: seq<Category>)
    requires AllPresent(u, cats)
    ensures Members(EntriesOf(u, cats)) == Gather(u, cats)
  {
    if cats != [] {
      var init := cats[..|cats| - 1];
      var c := cats[|cats| - 1];
      MembersOfEntriesOf(u, init);
      MembersAppendRow(EntriesOf(u, init), EntryFor(u, c));
    }
  }

  /** Adding one notification at the end of the list adds it to its category's list and no other. */
  /** The multiset bookkeeping of one step of `GatherGrows`. */
  lemma GatherStep(before: seq<Notification>, after: seq<Notification>, last: seq<Notification>,
                   last': seq<Notification>, x: Notification, earlier: bool, here: bool)
    requires multiset(after) == multiset(before) + (if earlier then multiset{x} else multiset{})
    requires last' == last + (if here then [x] else [])
    requires !(earlier && here)
    ensures multiset(after + last') == multiset(before + last) + (if earlier || here then multiset{x} else multiset{})
  {
  }

  /** Dropping the last of a list without repeats leaves a list without repeats, and without it. */
  lemma NoDuplicatesInit<T>(s: seq<T>)
    requires s != [] && NoDuplicates(s)
    ensures NoDuplicates(s[..|s| - 1]) && s[|s| - 1] !in s[..|s| - 1]
  {
    var init := s[..|s| - 1];
    forall j | 0 <= j < |init| ensures init[j] != s[|s| - 1] {
      assert s[j] == init[j];
    }
  }

  /**
   * When `w` is `v` with `x` added to its category's list (and to no other), gathering
   * `cats` from `w` gives the notifications gathered from `v`, plus `x` if its category is listed.
   */
  lemma {:induction false} GatherGrows(v: seq<Notification>, w: seq<Notification>, x: Notification, cats: seq<Category>)
    requires NoDuplicates(cats)
    requires forall d :: OfCategory(w, d) == OfCategory(v, d) + (if x.category == d then [x] else [])
    ensures multiset(Gather(w, cats))
            == multiset(Gather(v, cats)) + (if x.category in cats then multiset{x} else multiset{})
  {
    if cats != [] {
      var init := cats[..|cats| - 1];
      var c := cats[|cats| - 1];
      NoDuplicatesInit(cats);
      GatherGrows(v, w, x, init);
      GatherStep(Gather(v, init), Gather(w, init), OfCategory(v, c), OfCategory(w, c),
                 x, x.category in init, x.category == c);
      assert cats == init + [c];
      assert x.category in cats <==> x.category in init || x.category == c;
    }
  }

  /** Gathering the lists of all categories present gives back the notifications. */
  lemma {:induction false} GatherCategories(u: seq<Notification>)
    ensures multiset(Gather(u, Categories(u))) == multiset(u)
  {
    if u != [] {
      var v := u[..|u| - 1];
      var x := u[|u| - 1];
      assert u == v + [x];
      GatherCategories(v);
      CategoriesFacts(v);
      var cats := Categories(v);
      forall d ensures OfCategory(u, d) == OfCategory(v, d) + (if x.category == d then [x] else []) {
        OfCategoryAppend(v, x, d);
      }
      GatherGrows(v, u, x, cats);
      if x.category !in cats {
        assert Categories(u) == cats + [x.category];
        assert (cats + [x.category])[..|cats|] == cats;
      }
    }
  }

  /** The rows built from a list of unread notifications stand for exactly those notifications. */
  lemma EntriesMembers(u: seq<Notification>)
    ensures multiset(Members(Entries(u))) == multiset(u)
  {
    CategoriesFacts(u);
    MembersOfEntriesOf(u, Categories(u));
    GatherCategories(u);
  }

  lemma {:induction false} RowOfSorted(rows: seq<DisplayItem>, i: int)
    requires 0 <= i < |SortedBy(rows, NewestFirst)|
    ensures SortedBy(rows, NewestFirst)[i] in rows
  {
    SortedByPermutesAndOrders(rows, NewestFirst);
    assert SortedBy(rows, NewestFirst)[i] in multiset(rows);
  }

  /** A row of the unread block is the row of its category: the notification itself, or the cluster. */
  ghost predicate IsEntryOf(u: seq<Notification>, e: DisplayItem) {
    OfCategory(u, CategoryOf(e)) != [] && e == EntryFor(u, CategoryOf(e))
  }

  lemma {:induction false} UnreadBlockRows(ns: seq<Notification>)
    ensures forall i :: 0 <= i < |UnreadBlock(ns)| ==> IsEntryOf(Unread(ns), UnreadBlock(ns)[i])
  {
    var u := Unread(ns);
    CategoriesFacts(u);
    var es := Entries(u);
    forall i | 0 <= i < |UnreadBlock(ns)| ensures IsEntryOf(u, UnreadBlock(ns)[i]) {
      RowOfSorted(es, i);
      var k :| 0 <= k < |es| && es[k] == UnreadBlock(ns)[i];
    }
  }

  /** Every category with an unread notification has its row in the unread block. */
  lemma {:induction false} UnreadBlockHasEntries(ns: seq<Notification>)
    ensures forall c :: OfCategory(Unread(ns), c) != [] ==> EntryFor(Unread(ns), c) in UnreadBlock(ns)
  {
    var u := Unread(ns);
    var cats := Categories(u);
    CategoriesFacts(u);
    var es := Entries(u);
    SortedByPermutesAndOrders(es, NewestFirst);
    forall c | OfCategory(u, c) != [] ensures EntryFor(u, c) in UnreadBlock(ns) {
      var k :| 0 <= k < |cats| && cats[k] == c;
      assert es[k] in multiset(es);
    }
  }

  /** A category has a row in the unread block exactly when it has an unread notification. */
  lemma {:induction false} UnreadBlockCategories(ns: seq<Notification>)
    ensures forall c :: c in CategoriesOf(UnreadBlock(ns)) <==> OfCategory(Unread(ns), c) != []
  {
    var u := Unread(ns);
    var block := UnreadBlock(ns);
    UnreadBlockRows(ns);
    UnreadBlockHasEntries(ns);
    forall c ensures c in CategoriesOf(block) <==> OfCategory(u, c) != [] {
      if c in CategoriesOf(block) {
        var e :| e in block && CategoryOf(e) == c;
        var i :| 0 <= i < |block| && block[i] == e;
        assert IsEntryOf(u, block[i]);
      }
      if OfCategory(u, c) != [] {
        assert EntryFor(u, c) in block;
      }
    }
  }

  /**
   * The unread block stands for every unread notification exactly once, and the cluster
   * counts plus the single rows add up to the badge number.
   */
  lemma {:induction false} UnreadBlockMembers(ns: seq<Notification>)
    ensures multiset(Members(UnreadBlock(ns))) == multiset(Unread(ns))
    ensures TotalSize(UnreadBlock(ns)) == UnreadCount(ns)
  {
    var u := Unread(ns);
    var es := Entries(u);
    EntriesMembers(u);
    MembersSorted(es);
    UnreadBlockRows(ns);
    var block := UnreadBlock(ns);
    forall i | 0 <= i < |block| ensures Size(block[i]) == |ItemsOf(block[i])| {
      EntryShape(u, CategoryOf(block[i]));
    }
    TotalSizeIsMembers(block);
    assert |multiset(Members(block))| == |multiset(u)|;
  }

  /** At most one row per category, newest first. */
  lemma {:induction false} UnreadBlockOrder(ns: seq<Notification>)
    ensures DistinctBy(UnreadBlock(ns), CategoryOf)
    ensures Ascending(UnreadBlock(ns), NewestFirst)
  {
    var u := Unread(ns);
    var es := Entries(u);
    SortedByPermutesAndOrders(es, NewestFirst);
    CategoriesFacts(u);
    assert DistinctBy(es, CategoryOf);
    SortedByDistinct(es, NewestFirst, CategoryOf);
  }

  /** No read notification is clustered or listed among the unread rows. */
  lemma {:induction false} UnreadBlockIsUnread(ns: seq<Notification>)
    ensures forall i :: 0 <= i < |UnreadBlock(ns)| ==> forall m :: m in ItemsOf(UnreadBlock(ns)[i]) ==> !m.read
  {
    UnreadBlockRows(ns);
    forall i, m | 0 <= i < |UnreadBlock(ns)| && m in ItemsOf(UnreadBlock(ns)[i]) ensures !m.read {
      OfCategoryMembers(Unread(ns), CategoryOf(UnreadBlock(ns)[i]));
      var k :| 0 <= k < |Unread(ns)| && Unread(ns)[k] == m;
    }
  }

  /** The read block holds every read notification once. */
  lemma {:induction false} ReadBlockMembers(ns: seq<Notification>)
    ensures multiset(Members(ReadBlock(ns))) == multiset(ReadItems(ns))
  {
    MembersOfSingles(ReadItems(ns));
    MembersSorted(Singles(ReadItems(ns)));
  }

  /** The read block is as long as the read list and newest first. */
  lemma {:induction false} ReadBlockOrder(ns: seq<Notification>)
    ensures |ReadBlock(ns)| == |ReadItems(ns)|
    ensures Ascending(ReadBlock(ns), NewestFirst)
  {
    SortedByPermutesAndOrders(Singles(ReadItems(ns)), NewestFirst);
  }

  /** No read notification is clustered: each row of the read block is one read notification. */
  lemma {:induction false} ReadBlockRows(ns: seq<Notification>)
    ensures forall i :: 0 <= i < |ReadBlock(ns)| ==> ReadBlock(ns)[i].Single? && ReadBlock(ns)[i].notification.read
  {
    forall i | 0 <= i < |ReadBlock(ns)| ensures ReadBlock(ns)[i].Single? && ReadBlock(ns)[i].notification.read {
      RowOfSorted(Singles(ReadItems(ns)), i);
    }
  }

  lemma {:induction false} UnreadAndRead(ns: seq<Notification>)
    ensures multiset(Unread(ns)) + multiset(ReadItems(ns)) == multiset(ns)
  {
    if ns != [] {
      var init := ns[..|ns| - 1];
      var x := ns[|ns| - 1];
      assert ns == init + [x];
      UnreadAndRead(init);
      FilterAppend(init, x, IsUnread);
      FilterAppend(init, x, IsRead);
    }
  }

  lemma {:induction false} MembersAppend(a: seq<DisplayItem>, b: seq<DisplayItem>)
    ensures Members(a + b) == Members(a) + Members(b)
    decreases |b|
  {
    if b != [] {
      var init := b[..|b| - 1];
      var y := b[|b| - 1];
      assert b == init + [y];
      assert a + b == (a + init) + [y];
      MembersAppend(a, init);
      MembersAppendRow(a + init, y);
      MembersAppendRow(init, y);
    } else {
      assert a + b == a;
    }
  }

  /** Every notification of the list appears in the feed exactly once. */
  lemma {:induction false} FeedConservesNotifications(ns: seq<Notification>)
    ensures multiset(Members(SmartNotifications(ns))) == multiset(ns)
  {
    MembersAppend(UnreadBlock(ns), ReadBlock(ns));
    UnreadBlockMembers(ns);
    ReadBlockMembers(ns);
    UnreadAndRead(ns);
  }

  lemma {:induction false} OfCategoryAscending(ns: seq<Notification>, c: Category)
    requires Ascending(ns, Recency)
    ensures Ascending(OfCategory(ns, c), Recency)
  {
    if ns != [] {
      var init := ns[..|ns| - 1];
      var x := ns[|ns| - 1];
      assert Ascending(init, Recency);
      OfCategoryAscending(init, c);
      OfCategoryMembers(init, c);
      forall m | m in OfCategory(init, c) ensures Recency(m) <= Recency(x) {
        var k :| 0 <= k < |init| && init[k] == m;
        assert ns[k] == m;
      }
    }
  }

  /**
   * A row takes its time and severity from its first member in list order. When the list
   * is newest first, as prepending new notifications keeps it, that member is the newest.
   */
  lemma {:induction false} RowTimeIsNewest(ns: seq<Notification>, i: nat)
    requires Ascending(ns, Recency)
    requires i < |UnreadBlock(ns)|
    ensures forall m :: m in ItemsOf(UnreadBlock(ns)[i]) ==> m.timestamp <= Time(UnreadBlock(ns)[i])
  {
    UnreadBlockRows(ns);
    var u := Unread(ns);
    var e := UnreadBlock(ns)[i];
    FilterAscending(ns, IsUnread, Recency);
    OfCategoryAscending(u, CategoryOf(e));
  }

  // ---------------------------------------------------------------------------------
  // The three mutators of the notification list

  function Ids(ms: seq<Notification>): (r: seq<string>)
    ensures |r| == |ms| && forall k :: 0 <= k < |ms| ==> r[k] == ms[k].id
  {
    seq(|ms|, k requires 0 <= k < |ms| => ms[k].id)
  }

  /** Every member's id is among the ids of a list, and every id listed is a member's. */
  lemma {:induction false} IdsMembers(ms: seq<Notification>)
    ensures forall m :: m in ms ==> m.id in Ids(ms)
    ensures forall id :: id in Ids(ms) ==> exists m :: m in ms && m.id == id
  {
    forall m | m in ms ensures m.id in Ids(ms) {
      var k :| 0 <= k < |ms| && ms[k] == m;
      assert Ids(ms)[k] == m.id;
    }
    forall id | id in Ids(ms) ensures exists m :: m in ms && m.id == id {
      var k :| 0 <= k < |ms| && Ids(ms)[k] == id;
      assert ms[k] in ms && ms[k].id == id;
    }
  }

  /** The ids a click on a row marks read: the notification's own, or every member's. */
  function RowIds(e: DisplayItem): (r: seq<string>)
    ensures r == Ids(ItemsOf(e))
  {
    if e.Cluster? then Ids(e.items) else [e.notification.id]
  }

  /** markAsRead: exactly the notifications whose id is listed become read; nothing else changes. */
  function MarkedRead(ns: seq<Notification>, ids: seq<string>): (r: seq<Notification>)
    ensures |r| == |ns|
    ensures forall i :: 0 <= i < |ns| ==> r[i] == ns[i].(read := ns[i].read || ns[i].id in ids)
  {
    seq(|ns|, i requires 0 <= i < |ns| => if ns[i].id in ids then ns[i].(read := true) else ns[i])
  }

  /** A click on a row marks read exactly the notifications that share an id with one of its members. */
  lemma {:induction false} ClickMarksRowMembers(ns: seq<Notification>, e: DisplayItem)
    ensures forall i :: 0 <= i < |ns| ==>
      (MarkedRead(ns, RowIds(e))[i].read <==> ns[i].read || exists m :: m in ItemsOf(e) && m.id == ns[i].id)
  {
    IdsMembers(ItemsOf(e));
  }

  /** markAllAsRead: every notification becomes read; nothing else changes. */
  function AllMarkedRead(ns: seq<Notification>): (r: seq<Notification>)
    ensures |r| == |ns|
    ensures forall i :: 0 <= i < |ns| ==> r[i] == ns[i].(read := true) && r[i].read
  {
    seq(|ns|, i requires 0 <= i < |ns| => ns[i].(read := true))
  }

  /** Marking every id of the list is marking all. */
  lemma {:induction false} AllMarkedReadIsMarkedReadOfAll(ns: seq<Notification>)
    ensures AllMarkedRead(ns) == MarkedRead(ns, Ids(ns))
  {
    forall i | 0 <= i < |ns| ensures ns[i].id in Ids(ns) {
      assert Ids(ns)[i] == ns[i].id;
    }
  }

  /** After markAllAsRead the badge is zero, nothing is grouped and every notification is a read row. */
  lemma {:induction false} MarkAllClearsBadge(ns: seq<Notification>)
    ensures UnreadCount(AllMarkedRead(ns)) == 0
    ensures UnreadBlock(AllMarkedRead(ns)) == []
    ensures |SmartNotifications(AllMarkedRead(ns))| == |ns|
  {
    var r := AllMarkedRead(ns);
    FilterNone(r, IsUnread);
    FilterAll(r, IsRead);
    ReadBlockOrder(r);
  }

  /** Marking every id of a category's unread notifications leaves that category nothing unread. */
  lemma {:induction false} MarkingCategoryEmptiesIt(ns: seq<Notification>, ids: seq<string>, c: Category)
    requires forall m :: m in OfCategory(Unread(ns), c) ==> m.id in ids
    ensures OfCategory(Unread(MarkedRead(ns, ids)), c) == []
  {
    var after := MarkedRead(ns, ids);
    OfCategoryMembers(Unread(ns), c);
    forall k | 0 <= k < |after| && after[k].category == c ensures after[k].read {
      if !ns[k].read {
        assert ns[k] in Unread(ns);
      }
    }
    var left := Unread(after);
    forall i | 0 <= i < |left| ensures left[i].category != c {
      var j :| 0 <= j < |after| && after[j] == left[i];
    }
    NoneOfCategory(left, c);
  }

  lemma {:induction false} NoneOfCategory(ns: seq<Notification>, c: Category)
    requires forall i :: 0 <= i < |ns| ==> ns[i].category != c
    ensures OfCategory(ns, c) == []
  {
    if ns != [] {
      NoneOfCategory(ns[..|ns| - 1], c);
    }
  }

  /**
   * Clicking a row of the unread block marks its notifications read, and with them the
   * row's category leaves the unread block.
   */
  lemma {:induction false} ClickDismissesRow(ns: seq<Notification>, i: nat)
    requires i < |UnreadBlock(ns)|
    ensures var e := UnreadBlock(ns)[i];
      var after := MarkedRead(ns, RowIds(e));
      OfCategory(Unread(after), CategoryOf(e)) == [] && CategoryOf(e) !in CategoriesOf(UnreadBlock(after))
  {
    var e := UnreadBlock(ns)[i];
    var ids := RowIds(e);
    UnreadBlockRows(ns);
    forall m | m in OfCategory(Unread(ns), CategoryOf(e)) ensures m.id in ids {
      var k :| 0 <= k < |ItemsOf(e)| && ItemsOf(e)[k] == m;
      assert ids[k] == m.id;
    }
    MarkingCategoryEmptiesIt(ns, ids, CategoryOf(e));
    UnreadBlockCategories(MarkedRead(ns, ids));
  }

  /** clearRead keeps the unread notifications; a second clear changes nothing. */
  lemma {:induction false} ClearReadIdempotent(ns: seq<Notification>)
    ensures Unread(Unread(ns)) == Unread(ns)
    ensures UnreadCount(Unread(ns)) == UnreadCount(ns)
  {
    FilterIdempotent(ns, IsUnread);
  }

  /** After clearRead the feed is the unread block as it was, with no read rows behind it. */
  lemma {:induction false} ClearReadKeepsUnreadBlock(ns: seq<Notification>)
    ensures SmartNotifications(Unread(ns)) == UnreadBlock(ns)
  {
    FilterIdempotent(ns, IsUnread);
    FilterNone(Unread(ns), IsRead);
  }

  /**
   * The header's state: the notification list, the recent searches, the search box, and
   * whether the two dropdowns are open.
   */
  class Header {
    var notifications: seq<Notification>
    var recentSearches: seq<string>
    var searchQuery: string
    var showSuggestions: bool
    var showNotifications: bool

    /** At most five recent searches, none twice. */
    ghost predicate Valid()
      reads this
    {
      |recentSearches| <= 5 && NoDuplicates(recentSearches)
    }

    constructor(initial: seq<Notification>)
      ensures Valid()
      ensures notifications == initial && recentSearches == ["CRISPR", "HEK293T", "Protocol A"]
      ensures searchQuery == [] && !showSuggestions && !showNotifications
    {
      notifications := initial;
      recentSearches := ["CRISPR", "HEK293T", "Protocol A"];
      searchQuery := [];
      showSuggestions := false;
      showNotifications := false;
    }

    method MarkAsRead(ids: seq<string>)
      requires Valid()
      modifies this
      ensures Valid()
      ensures notifications == MarkedRead(old(notifications), ids)
      ensures recentSearches == old(recentSearches) && searchQuery == old(searchQuery)
      ensures showSuggestions == old(showSuggestions) && showNotifications == old(showNotifications)
    {
      notifications := MarkedRead(notifications, ids);
    }

    method MarkAllAsRead()
      requires Valid()
      modifies this
      ensures Valid()
      ensures notifications == AllMarkedRead(old(notifications))
      ensures recentSearches == old(recentSearches) && searchQuery == old(searchQuery)
      ensures showSuggestions == old(showSuggestions) && showNotifications == old(showNotifications)
    {
      notifications := AllMarkedRead(notifications);
    }

    method ClearRead()
      requires Valid()
      modifies this
      ensures Valid()
      ensures notifications == Unread(old(notifications))
      ensures recentSearches == old(recentSearches) && searchQuery == old(searchQuery)
      ensures showSuggestions == old(showSuggestions) && showNotifications == old(showNotifications)
    {
      notifications := Filter(notifications, IsUnread);
    }

    /** A click on a row of the feed marks what it stands for read. */
    method ClickRow(e: DisplayItem)
      requires Valid()
      modifies this
      ensures Valid()
      ensures notifications == MarkedRead(old(notifications), RowIds(e))
      ensures recentSearches == old(recentSearches) && searchQuery == old(searchQuery)
      ensures showSuggestions == old(showSuggestions) && showNotifications == old(showNotifications)
    {
      MarkAsRead(RowIds(e));
    }

    /**
     * The call-to-action button of a row: marks the row read, closes the dropdown and
     * returns the navigation request. A row without a call to action shows no button.
     */
    method FollowCta(e: DisplayItem) returns (request: Types.Option<Cta>)
      requires Valid()
      modifies this
      ensures Valid()
      ensures request == (if e.Single? then e.notification.cta else e.cta)
      ensures request.Some? ==> notifications == MarkedRead(old(notifications), RowIds(e)) && !showNotifications
      ensures request.None? ==> notifications == old(notifications) && showNotifications == old(showNotifications)
      ensures recentSearches == old(recentSearches) && searchQuery == old(searchQuery)
      ensures showSuggestions == old(showSuggestions)
    {
      request := if e.Single? then e.notification.cta else e.cta;
      if request.Some? {
        MarkAsRead(RowIds(e));
        showNotifications := false;
      }
    }

    /**
     * Choosing a suggestion: remember its term, close and clear the search box, and return
     * where to navigate.
     */
    method SelectSuggestion(item: Suggestion) returns (view: Types.ViewState, params: Types.NavParams)
      requires Valid()
      modifies this
      ensures Valid()
      ensures recentSearches == RememberSearch(old(recentSearches), SearchTerm(item))
      ensures SearchTerm(item) in recentSearches
      ensures (view, params) == SuggestionTarget(item)
      ensures searchQuery == [] && !showSuggestions
      ensures notifications == old(notifications) && showNotifications == old(showNotifications)
    {
      RememberSearchKeepsBound(recentSearches, SearchTerm(item));
      recentSearches := RememberSearch(recentSearches, SearchTerm(item));
      showSuggestions := false;
      searchQuery := [];
      view, params := SuggestionTarget(item).0, SuggestionTarget(item).1;
    }
  }

  // ---------------------------------------------------------------------------------
  // Relative time

  /** "<n><unit> ago", as the template literal builds it. */
  function AgoLabel(n: nat, unit: char): (r: string)
    ensures |r| >= 6 && r[..|r| - 5] == NatToString(n) && r[|r| - 5] == unit && r[|r| - 4..] == " ago"
  {
    NatToString(n) + [unit] + " ago"
  }

  /** Different numbers, or different units, give different labels. */
  lemma {:induction false} AgoLabelInjective(n: nat, u: char, m: nat, v: char)
    requires AgoLabel(n, u) == AgoLabel(m, v)
    ensures n == m && u == v
  {
    var r := AgoLabel(n, u);
    assert NatToString(n) == r[..|r| - 5] == NatToString(m);
    NatToStringInjective(n, m);
  }

  /** The label for a notification's age: floor division into minutes, hours or days. */
  function FormatTime(now: int, timestamp: int): (r: string)
    ensures r == "Just now" <==> now - timestamp < 60000
  {
    var elapsed := now - timestamp;
    if elapsed < 60000 then "Just now"
    else if elapsed < 3600000 then AgoLabel(elapsed / 60000, 'm')
    else if elapsed < 86400000 then AgoLabel(elapsed / 3600000, 'h')
    else AgoLabel(elapsed / 86400000, 'd')
  }

  /** Under an hour: the whole minutes elapsed, from 1 to 59. */
  lemma {:induction false} MinutesLabel(now: int, timestamp: int, m: nat)
    requires m * 60000 <= now - timestamp < (m + 1) * 60000
    requires 1 <= m < 60
    ensures FormatTime(now, timestamp) == AgoLabel(m, 'm')
  {
  }

  /** Under a day: the whole hours elapsed, from 1 to 23. */
  lemma {:induction false} HoursLabel(now: int, timestamp: int, h: nat)
    requires h * 3600000 <= now - timestamp < (h + 1) * 3600000
    requires 1 <= h < 24
    ensures FormatTime(now, timestamp) == AgoLabel(h, 'h')
  {
  }

  /** From a day on: the whole days elapsed. */
  lemma {:induction false} DaysLabel(now: int, timestamp: int, d: nat)
    requires d * 86400000 <= now - timestamp < (d + 1) * 86400000
    requires 1 <= d
    ensures FormatTime(now, timestamp) == AgoLabel(d, 'd')
  {
  }

  /** The number and the unit letter of the label for an age of at least a minute. */
  function AgeReading(elapsed: int): (nat, char)
    requires elapsed >= 60000
  {
    if elapsed < 3600000 then (elapsed / 60000, 'm')
    else if elapsed < 86400000 then (elapsed / 3600000, 'h')
    else (elapsed / 86400000, 'd')
  }

  /**
   * Two ages with the same label lie in the same bucket, minutes, hours or days, and have
   * the same whole number of that unit: the label reads back as the number.
   */
  lemma {:induction false} FormatTimeReadsBack(now: int, t1: int, t2: int)
    requires now - t1 >= 60000 && now - t2 >= 60000
    requires FormatTime(now, t1) == FormatTime(now, t2)
    ensures now - t1 < 3600000 <==> now - t2 < 3600000
    ensures now - t1 < 86400000 <==> now - t2 < 86400000
    ensures now - t1 < 3600000 ==> (now - t1) / 60000 == (now - t2) / 60000
    ensures 3600000 <= now - t1 < 86400000 ==> (now - t1) / 3600000 == (now - t2) / 3600000
    ensures now - t1 >= 86400000 ==> (now - t1) / 86400000 == (now - t2) / 86400000
  {
    var p, q := AgeReading(now - t1), AgeReading(now - t2);
    assert FormatTime(now, t1) == AgoLabel(p.0, p.1);
    assert FormatTime(now, t2) == AgoLabel(q.0, q.1);
    AgoLabelInjective(p.0, p.1, q.0, q.1);
  }

  // ---------------------------------------------------------------------------------
  // Search

  /** A search suggestion: the matching record, from one of the three seed collections. */
  datatype Suggestion =
    | ExperimentHit(experiment: Types.Experiment)
    | SampleHit(sample: Types.Sample)
    | EquipmentHit(machine: Types.LabMachine)

  /** Experiments first, then samples, then machines. */
  function Rank(s: Suggestion): nat {
    match s
    case ExperimentHit(_) => 0
    case SampleHit(_) => 1
    case EquipmentHit(_) => 2
  }

  /** Title or id contains the lower-cased query, ignoring case. */
  predicate ExperimentMatches(q: string, e: Types.Experiment) {
    Contains(ToLower(e.title), q) || Contains(ToLower(e.id), q)
  }

  /** Name contains the lower-cased query ignoring case, or the barcode contains it as it is. */
  predicate SampleMatches(q: string, s: Types.Sample) {
    Contains(ToLower(s.name), q) || Contains(s.barcode, q)
  }

  predicate MachineMatches(q: string, m: Types.LabMachine) {
    Contains(ToLower(m.name), q)
  }

  predicate Matches(q: string, s: Suggestion) {
    match s
    case ExperimentHit(e) => ExperimentMatches(q, e)
    case SampleHit(x) => SampleMatches(q, x)
    case EquipmentHit(m) => MachineMatches(q, m)
  }

  function ExperimentHits(q: string, exps: seq<Types.Experiment>): (r: seq<Suggestion>)
    ensures |r| <= |exps|
    ensures forall i :: 0 <= i < |r| ==> r[i].ExperimentHit? && Matches(q, r[i])
    ensures forall i :: 0 <= i < |exps| && ExperimentMatches(q, exps[i]) ==> ExperimentHit(exps[i]) in r
  {
    if exps == [] then []
    else
      var init := exps[..|exps| - 1];
      var e := exps[|exps| - 1];
      assert exps == init + [e];
      ExperimentHits(q, init) + (if ExperimentMatches(q, e) then [ExperimentHit(e)] else [])
  }

  function SampleHits(q: string, samples: seq<Types.Sample>): (r: seq<Suggestion>)
    ensures |r| <= |samples|
    ensures forall i :: 0 <= i < |r| ==> r[i].SampleHit? && Matches(q, r[i])
    ensures forall i :: 0 <= i < |samples| && SampleMatches(q, samples[i]) ==> SampleHit(samples[i]) in r
  {
    if samples == [] then []
    else
      var init := samples[..|samples| - 1];
      var x := samples[|samples| - 1];
      assert samples == init + [x];
      SampleHits(q, init) + (if SampleMatches(q, x) then [SampleHit(x)] else [])
  }

  function MachineHits(q: string, machines: seq<Types.LabMachine>): (r: seq<Suggestion>)
    ensures |r| <= |machines|
    ensures forall i :: 0 <= i < |r| ==> r[i].EquipmentHit? && Matches(q, r[i])
    ensures forall i :: 0 <= i < |machines| && MachineMatches(q, machines[i]) ==> EquipmentHit(machines[i]) in r
  {
    if machines == [] then []
    else
      var init := machines[..|machines| - 1];
      var m := machines[|machines| - 1];
      assert machines == init + [m];
      MachineHits(q, init) + (if MachineMatches(q, m) then [EquipmentHit(m)] else [])
  }

  /** Every match, experiments first, then samples, then machines. */
  function AllHits(q: string, exps: seq<Types.Experiment>, samples: seq<Types.Sample>,
                   machines: seq<Types.LabMachine>): seq<Suggestion> {
    ExperimentHits(q, exps) + SampleHits(q, samples) + MachineHits(q, machines)
  }

  /** The ranks of the matches by position: the experiment block, then the samples, then the machines. */
  lemma {:induction false} AllHitsBlocks(q: string, exps: seq<Types.Experiment>, samples: seq<Types.Sample>,
                                         machines: seq<Types.LabMachine>)
    ensures var all, es, ss := AllHits(q, exps, samples, machines), ExperimentHits(q, exps), SampleHits(q, samples);
      forall i :: 0 <= i < |all| ==> Rank(all[i]) == if i < |es| then 0 else if i < |es| + |ss| then 1 else 2
  {
    var es, ss, ms := ExperimentHits(q, exps), SampleHits(q, samples), MachineHits(q, machines);
    var all := AllHits(q, exps, samples, machines);
    forall i | 0 <= i < |all|
      ensures Rank(all[i]) == if i < |es| then 0 else if i < |es| + |ss| then 1 else 2
    {
      if i < |es| {
        assert all[i] == es[i];
      } else if i < |es| + |ss| {
        assert all[i] == ss[i - |es|];
      } else {
        assert all[i] == ms[i - |es| - |ss|];
      }
    }
  }

  /** The matches come in rank order. */
  lemma {:induction false} AllHitsRanked(q: string, exps: seq<Types.Experiment>, samples: seq<Types.Sample>,
                                         machines: seq<Types.LabMachine>)
    ensures var all := AllHits(q, exps, samples, machines);
      forall i, j :: 0 <= i < j < |all| ==> Rank(all[i]) <= Rank(all[j])
  {
    AllHitsBlocks(q, exps, samples, machines);
  }

  /** getSuggestions: nothing for an empty query; otherwise at most six matches, in rank order. */
  function Suggestions(query: string, exps: seq<Types.Experiment>, samples: seq<Types.Sample>,
                       machines: seq<Types.LabMachine>): (r: seq<Suggestion>)
    ensures query == [] ==> r == []
    ensures |r| <= 6
    ensures forall i :: 0 <= i < |r| ==> Matches(ToLower(query), r[i])
    ensures forall i, j :: 0 <= i < j < |r| ==> Rank(r[i]) <= Rank(r[j])
  {
    if query == [] then []
    else
      var all := AllHits(ToLower(query), exps, samples, machines);
      AllHitsRanked(ToLower(query), exps, samples, machines);
      all[..if |all| < 6 then |all| else 6]
  }

  /** The case of the query does not matter: a query and its lower-cased form suggest the same. */
  lemma SuggestionsIgnoreQueryCase(query: string, exps: seq<Types.Experiment>, samples: seq<Types.Sample>,
                                   machines: seq<Types.LabMachine>)
    ensures Suggestions(ToLower(query), exps, samples, machines) == Suggestions(query, exps, samples, machines)
  {
    ToLowerIdempotent(query);
  }

  /** An experiment whose title contains the query as typed matches, whatever the case of either. */
  lemma ExperimentFoundIgnoringCase(query: string, e: Types.Experiment)
    requires Contains(e.title, query)
    ensures ExperimentMatches(ToLower(query), e)
  {
    ContainsToLower(e.title, query);
  }

  /** With fewer than six suggestions, every match is among them. */
  lemma {:induction false} SuggestionsComplete(query: string, exps: seq<Types.Experiment>,
                                               samples: seq<Types.Sample>, machines: seq<Types.LabMachine>)
    requires query != [] && |Suggestions(query, exps, samples, machines)| < 6
    ensures var r, q := Suggestions(query, exps, samples, machines), ToLower(query);
      && (forall i :: 0 <= i < |exps| && ExperimentMatches(q, exps[i]) ==> ExperimentHit(exps[i]) in r)
      && (forall i :: 0 <= i < |samples| && SampleMatches(q, samples[i]) ==> SampleHit(samples[i]) in r)
      && (forall i :: 0 <= i < |machines| && MachineMatches(q, machines[i]) ==> EquipmentHit(machines[i]) in r)
  {
    var all := AllHits(ToLower(query), exps, samples, machines);
    assert Suggestions(query, exps, samples, machines) == all;
  }

  /**
   * The cap cuts from the end: a sample is suggested only when every matching experiment
   * is, and a machine only when every matching sample is.
   */
  lemma {:induction false} SuggestionsPriority(query: string, exps: seq<Types.Experiment>,
                                               samples: seq<Types.Sample>, machines: seq<Types.LabMachine>, k: nat)
    requires k < |Suggestions(query, exps, samples, machines)|
    ensures var r, q := Suggestions(query, exps, samples, machines), ToLower(query);
      && (Rank(r[k]) > 0 ==> forall i :: 0 <= i < |exps| && ExperimentMatches(q, exps[i]) ==> ExperimentHit(exps[i]) in r)
      && (Rank(r[k]) > 1 ==> forall i :: 0 <= i < |samples| && SampleMatches(q, samples[i]) ==> SampleHit(samples[i]) in r)
  {
    var q := ToLower(query);
    var r := Suggestions(query, exps, samples, machines);
    var es, ss := ExperimentHits(q, exps), SampleHits(q, samples);
    var all := AllHits(q, exps, samples, machines);
    AllHitsBlocks(q, exps, samples, machines);
    assert all[..|es|] == es;
    assert all[|es|..|es| + |ss|] == ss;
    CapKeepsEarlierBlocks(all, r, es, ss, k);
  }

  /**
   * A prefix of a list made of three rank blocks that reaches into a later block holds
   * every earlier block whole.
   */
  lemma {:induction false} CapKeepsEarlierBlocks(all: seq<Suggestion>, r: seq<Suggestion>,
                                                 es: seq<Suggestion>, ss: seq<Suggestion>, k: nat)
    requires |r| <= |all| && r == all[..|r|] && k < |r|
    requires |es| + |ss| <= |all| && all[..|es|] == es && all[|es|..|es| + |ss|] == ss
    requires forall i :: 0 <= i < |all| ==> Rank(all[i]) == if i < |es| then 0 else if i < |es| + |ss| then 1 else 2
    ensures Rank(r[k]) > 0 ==> forall x :: x in es ==> x in r
    ensures Rank(r[k]) > 1 ==> forall x :: x in ss ==> x in r
  {
    assert r[k] == all[k];
    if Rank(r[k]) > 0 {
      assert r[..|es|] == es;
    }
    if Rank(r[k]) > 1 {
      assert r[|es|..|es| + |ss|] == ss;
    }
  }

  /** The term a chosen suggestion records: an experiment's title, otherwise the record's name. */
  function SearchTerm(s: Suggestion): string {
    match s
    case ExperimentHit(e) => e.title
    case SampleHit(x) => x.name
    case EquipmentHit(m) => m.name
  }

  /** The recent-search update: a new term goes in front, keeping five at most; a known term changes nothing. */
  function RememberSearch(recent: seq<string>, term: string): (r: seq<string>)
    ensures term in r
    ensures term in recent ==> r == recent
    ensures term !in recent ==> |r| == if |recent| < 5 then |recent| + 1 else 5
    ensures term !in recent ==> r[0] == term && r[1..] == recent[..|r| - 1]
  {
    if term in recent then recent
    else
      var grown := [term] + recent;
      var r := grown[..if |grown| < 5 then |grown| else 5];
      assert r[0] == term;
      r
  }

  /** The recent searches stay at most five and free of repeats. */
  lemma {:induction false} RememberSearchKeepsBound(recent: seq<string>, term: string)
    requires |recent| <= 5 && NoDuplicates(recent)
    ensures |RememberSearch(recent, term)| <= 5 && NoDuplicates(RememberSearch(recent, term))
  {
    var r := RememberSearch(recent, term);
    if term !in recent {
      forall i, j | 0 <= i < j < |r| ensures r[i] != r[j] {
        assert r[j] == recent[j - 1];
        if i > 0 {
          assert r[i] == recent[i - 1];
        }
      }
    }
  }

  /** Where a chosen suggestion leads, by the kind of record it is. */
  function SuggestionTarget(s: Suggestion): (r: (Types.ViewState, Types.NavParams))
    ensures r.0 == (if s.ExperimentHit? then Types.Experiments else Types.Inventory)
    ensures s.ExperimentHit? ==> r.1 == Types.NavParams(Types.None, Types.Some(s.experiment.id), Types.None, false)
    ensures !s.ExperimentHit? ==> r.1.search == Types.Some(SearchTerm(s)) && r.1.id == Types.None && !r.1.openCreate
    ensures s.SampleHit? ==> r.1.tab == Types.Some(Types.ListTab)
    ensures s.EquipmentHit? ==> r.1.tab == Types.Some(Types.EquipmentTab)
  {
    match s
    case ExperimentHit(e) =>
      (Types.Experiments, Types.NavParams(Types.None, Types.Some(e.id), Types.None, false))
    case SampleHit(x) =>
      (Types.Inventory, Types.NavParams(Types.Some(Types.ListTab), Types.None, Types.Some(x.name), false))
    case EquipmentHit(m) =>
      (Types.Inventory, Types.NavParams(Types.Some(Types.EquipmentTab), Types.None, Types.Some(m.name), false))
  }

  /**
   * The suggestion's `type` property as the record literal leaves it: the literal puts the
   * kind first and spreads the record after it, so a sample's or machine's own `type`
   * field overwrites the kind; experiments have no such field.
   */
  function SpreadType(s: Suggestion): string {
    match s
    case ExperimentHit(_) => "Experiment"
    case SampleHit(x) => x.sampleType
    case EquipmentHit(m) => m.machineType
  }

  function TargetByType(kind: string, id: string, name: string): Types.Option<(Types.ViewState, Types.NavParams)> {
    if kind == "Experiment" then
      Types.Some((Types.Experiments, Types.NavParams(Types.None, Types.Some(id), Types.None, false)))
    else if kind == "Sample" then
      Types.Some((Types.Inventory, Types.NavParams(Types.Some(Types.ListTab), Types.None, Types.Some(name), false)))
    else if kind == "Equipment" then
      Types.Some((Types.Inventory, Types.NavParams(Types.Some(Types.EquipmentTab), Types.None, Types.Some(name), false)))
    else Types.None
  }

  /** The selection handler as written: it dispatches on that overwritten `type`. */
  function SelectTargetAsWritten(s: Suggestion): Types.Option<(Types.ViewState, Types.NavParams)> {
    match s
    case ExperimentHit(e) => TargetByType(SpreadType(s), e.id, e.title)
    case SampleHit(x) => TargetByType(SpreadType(s), x.id, x.name)
    case EquipmentHit(m) => TargetByType(SpreadType(s), m.id, m.name)
  }

  /**
   * As written, choosing a sample or machine navigates nowhere unless its own type happens
   * to be one of the three kind names; the seed sample "Lipofectamine 3000", whose type is "Reagent",
   * is such a sample.
   */
  lemma {:induction false} SampleSelectionAsWritten(x: Types.Sample)
    requires x.sampleType != "Experiment" && x.sampleType != "Sample" && x.sampleType != "Equipment"
    ensures SelectTargetAsWritten(SampleHit(x)) == Types.None
    ensures SuggestionTarget(SampleHit(x)).0 == Types.Inventory
  {
  }

  lemma {:induction false} MachineSelectionAsWritten(m: Types.LabMachine)
    requires m.machineType != "Experiment" && m.machineType != "Sample" && m.machineType != "Equipment"
    ensures SelectTargetAsWritten(EquipmentHit(m)) == Types.None
    ensures SuggestionTarget(EquipmentHit(m)).0 == Types.Inventory
  {
  }

  /** Where the kind survives the spread, the handler as written and the intended routing agree. */
  lemma {:induction false} SelectTargetAgrees(s: Suggestion)
    requires SpreadType(s) == (if s.ExperimentHit? then "Experiment" else if s.SampleHit? then "Sample" else "Equipment")
    ensures SelectTargetAsWritten(s) == Types.Some(SuggestionTarget(s))
  {
  }
}
