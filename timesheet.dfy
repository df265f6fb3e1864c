/// The routed timesheet view: every entry joined with its task and client,
/// grouped by top-level parent (find_parent) and then by client.
module Timesheet {
  import opened Records
  import opened Keys
  import opened Hierarchy

  /** One row of the merged Timesheet -> Tasks -> Clients frame. */
  datatype SheetRow = SheetRow(entry: Entry, clientId: string, shortName: string, taskDescription: string, clientName: Option<string>)

  datatype ChildGroup = ChildGroup(clientId: string, clientName: string, entries: seq<SheetRow>)

  datatype ParentGroup = ParentGroup(parentId: string, parentName: string, children: seq<ChildGroup>)

  /** The merged row of one entry; None when its task is missing (its
      ClientID is then NaN and groupby drops it). */
  function JoinSheet(e: Entry, tasks: seq<Task>, clients: seq<Client>): Option<SheetRow>
  {
    match FindTask(tasks, e.taskId)
    case None => None
    case Some(t) =>
      var name := match FindClient(clients, t.clientId)
                  case Some(c) => Some(c.name)
                  case None => None;
      Some(SheetRow(e, t.clientId, t.shortName, t.description, name))
  }

  /** The rows that reach the grouping, in timesheet order. */
  function SheetRows(entries: seq<Entry>, tasks: seq<Task>, clients: seq<Client>): (rows: seq<SheetRow>)
    ensures |rows| <= |entries|
    ensures forall e :: e in entries && JoinSheet(e, tasks, clients).Some? ==> JoinSheet(e, tasks, clients).value in rows
    ensures forall r :: r in rows ==> r.entry in entries && JoinSheet(r.entry, tasks, clients) == Some(r)
  {
    if |entries| == 0 then []
    else
      var head := match JoinSheet(entries[0], tasks, clients)
                  case Some(r) => [r]
                  case None => [];
      head + SheetRows(entries[1..], tasks, clients)
  }

  function ParentsOf(rows: seq<SheetRow>, clients: seq<Client>): (r: seq<string>)
    ensures |r| == |rows|
    ensures forall i :: 0 <= i < |rows| ==> r[i] == FindParent(clients, rows[i].clientId)
  {
    seq(|rows|, i requires 0 <= i < |rows| => FindParent(clients, rows[i].clientId))
  }

  function ClientIdsOf(rows: seq<SheetRow>): (r: seq<string>)
    ensures |r| == |rows|
    ensures forall i :: 0 <= i < |rows| ==> r[i] == rows[i].clientId
  {
    seq(|rows|, i requires 0 <= i < |rows| => rows[i].clientId)
  }

  /** The rows whose top-level parent is `p` (pdf), in order. */
  function UnderParent(rows: seq<SheetRow>, clients: seq<Client>, p: string): (r: seq<SheetRow>)
    ensures forall x :: x in r <==> x in rows && FindParent(clients, x.clientId) == p
  {
    if |rows| == 0 then []
    else (if FindParent(clients, rows[0].clientId) == p then [rows[0]] else []) + UnderParent(rows[1..], clients, p)
  }

  /** The rows of client `c` (cdf), in order. */
  function RowsOf(rows: seq<SheetRow>, c: string): (r: seq<SheetRow>)
    ensures forall x :: x in r <==> x in rows && x.clientId == c
  {
    if |rows| == 0 then []
    else (if rows[0].clientId == c then [rows[0]] else []) + RowsOf(rows[1..], c)
  }

  /** The entries the rows come from, in order. */
  function RowEntries(rows: seq<SheetRow>): (es: seq<Entry>)
    ensures |es| == |rows|
    ensures forall i :: 0 <= i < |rows| ==> es[i] == rows[i].entry
  {
    seq(|rows|, i requires 0 <= i < |rows| => rows[i].entry)
  }

  /** The merge keeps timesheet order: the rows of two stretches of the
      timesheet are the rows of the first, then those of the second. */
  lemma {:induction false} SheetRowsAppend(a: seq<Entry>, b: seq<Entry>, tasks: seq<Task>, clients: seq<Client>)
    ensures SheetRows(a + b, tasks, clients) == SheetRows(a, tasks, clients) + SheetRows(b, tasks, clients)
    decreases |a|
  {
    if |a| == 0 {
      assert a + b == b;
    } else {
      var head := match JoinSheet(a[0], tasks, clients)
                  case Some(r) => [r]
                  case None => [];
      assert (a + b)[0] == a[0] && (a + b)[1..] == a[1..] + b;
      assert SheetRows(a + b, tasks, clients) == head + SheetRows(a[1..] + b, tasks, clients);
      assert SheetRows(a, tasks, clients) == head + SheetRows(a[1..], tasks, clients);
      SheetRowsAppend(a[1..], b, tasks, clients);
      ConcatAssoc(head, SheetRows(a[1..], tasks, clients), SheetRows(b, tasks, clients));
    }
  }

  lemma RowEntriesCons(r: SheetRow, rest: seq<SheetRow>)
    ensures multiset(RowEntries([r] + rest)) == multiset{r.entry} + multiset(RowEntries(rest))
  {
    assert RowEntries([r] + rest) == [r.entry] + RowEntries(rest);
  }

  lemma SheetRowsCountSplit(entries: seq<Entry>, tasks: seq<Task>, clients: seq<Client>, e: Entry)
    requires |entries| > 0
    ensures var rest := multiset(RowEntries(SheetRows(entries[1..], tasks, clients)))[e];
      multiset(RowEntries(SheetRows(entries, tasks, clients)))[e]
      == if JoinSheet(entries[0], tasks, clients).Some? then multiset{entries[0]}[e] + rest else rest
  {
    var j := JoinSheet(entries[0], tasks, clients);
    var rest := SheetRows(entries[1..], tasks, clients);
    if j.Some? {
      assert SheetRows(entries, tasks, clients) == [j.value] + rest;
      RowEntriesCons(j.value, rest);
    } else {
      assert SheetRows(entries, tasks, clients) == rest;
    }
  }

  /** Each entry whose task exists is shown as often as it occurs in the
      timesheet, and no other entry is shown. */
  lemma {:induction false} SheetRowsCount(entries: seq<Entry>, tasks: seq<Task>, clients: seq<Client>, e: Entry)
    ensures multiset(RowEntries(SheetRows(entries, tasks, clients)))[e]
         == if JoinSheet(e, tasks, clients).Some? then multiset(entries)[e] else 0
    decreases |entries|
  {
    if |entries| > 0 {
      SheetRowsCount(entries[1..], tasks, clients, e);
      HeadCount(entries, e);
      SheetRowsCountSplit(entries, tasks, clients, e);
    }
  }

  /** pdf keeps the order of the rows it selects. */
  lemma {:induction false} UnderParentAppend(a: seq<SheetRow>, b: seq<SheetRow>, clients: seq<Client>, p: string)
    ensures UnderParent(a + b, clients, p) == UnderParent(a, clients, p) + UnderParent(b, clients, p)
    decreases |a|
  {
    if |a| == 0 {
      assert a + b == b;
    } else {
      assert (a + b)[0] == a[0] && (a + b)[1..] == a[1..] + b;
      UnderParentAppend(a[1..], b, clients, p);
    }
  }

  /** pdf holds each row of parent `p` as often as the frame does, and no
      other row. */
  lemma {:induction false} UnderParentCount(rows: seq<SheetRow>, clients: seq<Client>, p: string, x: SheetRow)
    ensures multiset(UnderParent(rows, clients, p))[x]
         == if FindParent(clients, x.clientId) == p then multiset(rows)[x] else 0
    decreases |rows|
  {
    if |rows| > 0 {
      UnderParentCount(rows[1..], clients, p, x);
      HeadCount(rows, x);
    }
  }

  /** cdf keeps the order of the rows it selects. */
  lemma {:induction false} RowsOfAppend(a: seq<SheetRow>, b: seq<SheetRow>, c: string)
    ensures RowsOf(a + b, c) == RowsOf(a, c) + RowsOf(b, c)
    decreases |a|
  {
    if |a| == 0 {
      assert a + b == b;
    } else {
      assert (a + b)[0] == a[0] && (a + b)[1..] == a[1..] + b;
      RowsOfAppend(a[1..], b, c);
    }
  }

  /** cdf holds each row of client `c` as often as pdf does, and no other
      row. */
  lemma {:induction false} RowsOfCount(rows: seq<SheetRow>, c: string, x: SheetRow)
    ensures multiset(RowsOf(rows, c))[x] == if x.clientId == c then multiset(rows)[x] else 0
    decreases |rows|
  {
    if |rows| > 0 {
      RowsOfCount(rows[1..], c, x);
      HeadCount(rows, x);
    }
  }

  function ChildGroupFor(pdf: seq<SheetRow>, clients: seq<Client>, c: string): ChildGroup
  {
    ChildGroup(c, NameOr(clients, c, "—"), RowsOf(pdf, c))
  }

  function ChildGroups(pdf: seq<SheetRow>, clients: seq<Client>, cs: seq<string>): (r: seq<ChildGroup>)
    ensures |r| == |cs|
    ensures forall i :: 0 <= i < |cs| ==> r[i] == ChildGroupFor(pdf, clients, cs[i])
  {
    if |cs| == 0 then []
    else ChildGroups(pdf, clients, cs[..|cs| - 1]) + [ChildGroupFor(pdf, clients, cs[|cs| - 1])]
  }

  function GroupFor(rows: seq<SheetRow>, clients: seq<Client>, p: string): ParentGroup
  {
    var pdf := UnderParent(rows, clients, p);
    ParentGroup(p, NameOr(clients, p, "—"), ChildGroups(pdf, clients, SortedKeys(ClientIdsOf(pdf))))
  }

  function Groups(rows: seq<SheetRow>, clients: seq<Client>, ps: seq<string>): (r: seq<ParentGroup>)
    ensures |r| == |ps|
    ensures forall i :: 0 <= i < |ps| ==> r[i] == GroupFor(rows, clients, ps[i])
  {
    if |ps| == 0 then []
    else Groups(rows, clients, ps[..|ps| - 1]) + [GroupFor(rows, clients, ps[|ps| - 1])]
  }

  /** The nested groups of the view, one per distinct top-level parent in
      ascending order. */
  function Nested(rows: seq<SheetRow>, clients: seq<Client>): seq<ParentGroup>
  {
    Groups(rows, clients, SortedKeys(ParentsOf(rows, clients)))
  }

  /** The inner loop of view_timesheet: one child group per client id. */
  method NestChildren(pdf: seq<SheetRow>, clients: seq<Client>, kids: seq<string>) returns (children: seq<ChildGroup>)
    ensures children == ChildGroups(pdf, clients, kids)
  {
    children := [];
    var j := 0;
    while j < |kids|
      invariant 0 <= j <= |kids|
      invariant children == ChildGroups(pdf, clients, kids[..j])
    {
      var childId := kids[j];
      children := children + [ChildGroup(childId, NameOr(clients, childId, "—"), RowsOf(pdf, childId))];
      assert kids[..j + 1][..j] == kids[..j];
      j := j + 1;
    }
    assert kids[..j] == kids;
  }

  /** The nesting loops of view_timesheet. */
  method NestTimesheet(rows: seq<SheetRow>, clients: seq<Client>) returns (nested: seq<ParentGroup>)
    ensures nested == Nested(rows, clients)
  {
    var parents := SortedKeys(ParentsOf(rows, clients));
    nested := [];
    var i := 0;
    while i < |parents|
      invariant 0 <= i <= |parents|
      invariant nested == Groups(rows, clients, parents[..i])
    {
      var parentId := parents[i];
      var pdf := UnderParent(rows, clients, parentId);
      var children := NestChildren(pdf, clients, SortedKeys(ClientIdsOf(pdf)));
      nested := nested + [ParentGroup(parentId, NameOr(clients, parentId, "—"), children)];
      assert parents[..i + 1][..i] == parents[..i];
      i := i + 1;
    }
    assert parents[..i] == parents;
  }

  /** Parents appear in ascending order and once each, and so do the
      clients within each parent. */
  lemma NestedIsOrdered(rows: seq<SheetRow>, clients: seq<Client>)
    ensures forall i, j :: 0 <= i < j < |Nested(rows, clients)| ==>
      Below(Nested(rows, clients)[i].parentId, Nested(rows, clients)[j].parentId)
    ensures forall g, i, j :: g in Nested(rows, clients) && 0 <= i < j < |g.children| ==>
      Below(g.children[i].clientId, g.children[j].clientId)
  {
    var ps := SortedKeys(ParentsOf(rows, clients));
    var N := Nested(rows, clients);
    forall g, i, j | g in N && 0 <= i < j < |g.children|
      ensures Below(g.children[i].clientId, g.children[j].clientId)
    {
      var gi :| 0 <= gi < |N| && N[gi] == g;
      var pdf := UnderParent(rows, clients, ps[gi]);
      var kids := SortedKeys(ClientIdsOf(pdf));
      assert g.children == ChildGroups(pdf, clients, kids);
      assert g.children[i].clientId == kids[i] && g.children[j].clientId == kids[j];
    }
  }

  /** No group of the view is empty, and every child group holds only rows
      of its own client whose top-level parent is the group's parent. */
  lemma NestedIsConsistent(rows: seq<SheetRow>, clients: seq<Client>, gi: nat, ci: nat)
    requires gi < |Nested(rows, clients)|
    ensures |Nested(rows, clients)[gi].children| > 0
    ensures ci < |Nested(rows, clients)[gi].children| ==>
      var g := Nested(rows, clients)[gi];
      && |g.children[ci].entries| > 0
      && forall r :: r in g.children[ci].entries ==>
           r in rows && r.clientId == g.children[ci].clientId && FindParent(clients, r.clientId) == g.parentId
  {
    var ps := SortedKeys(ParentsOf(rows, clients));
    var p := ps[gi];
    var g := Nested(rows, clients)[gi];
    var pdf := UnderParent(rows, clients, p);
    var kids := SortedKeys(ClientIdsOf(pdf));
    assert g.children == ChildGroups(pdf, clients, kids);
    assert p in ParentsOf(rows, clients);
    var ri :| 0 <= ri < |rows| && ParentsOf(rows, clients)[ri] == p;
    assert rows[ri] in pdf;
    assert ClientIdsOf(pdf)[0] in kids;
    if ci < |g.children| {
      var c := kids[ci];
      assert c in ClientIdsOf(pdf);
      var xi :| 0 <= xi < |pdf| && ClientIdsOf(pdf)[xi] == c;
      assert g.children[ci] == ChildGroupFor(pdf, clients, c);
      assert pdf[xi].clientId == c && pdf[xi] in pdf;
      assert pdf[xi] in RowsOf(pdf, c);
      assert g.parentId == p;
      forall r | r in g.children[ci].entries
        ensures r in rows && r.clientId == c && FindParent(clients, r.clientId) == p
      {
        assert r in RowsOf(pdf, c);
        assert r in pdf;
      }
    }
  }

  /** The parent group a row falls in. */
  lemma GroupOfRow(rows: seq<SheetRow>, clients: seq<Client>, r: SheetRow) returns (gi: nat)
    requires r in rows
    ensures gi < |Nested(rows, clients)|
    ensures Nested(rows, clients)[gi] == GroupFor(rows, clients, FindParent(clients, r.clientId))
  {
    var ps := SortedKeys(ParentsOf(rows, clients));
    var p := FindParent(clients, r.clientId);
    var ri :| 0 <= ri < |rows| && rows[ri] == r;
    assert ParentsOf(rows, clients)[ri] == p;
    assert p in ParentsOf(rows, clients);
    gi :| 0 <= gi < |ps| && ps[gi] == p;
  }

  /** The child group a row of a parent group falls in. */
  lemma ChildOfRow(pdf: seq<SheetRow>, clients: seq<Client>, r: SheetRow) returns (ci: nat)
    requires r in pdf
    ensures ci < |SortedKeys(ClientIdsOf(pdf))|
    ensures ChildGroups(pdf, clients, SortedKeys(ClientIdsOf(pdf)))[ci] == ChildGroupFor(pdf, clients, r.clientId)
  {
    var kids := SortedKeys(ClientIdsOf(pdf));
    var xi :| 0 <= xi < |pdf| && pdf[xi] == r;
    assert ClientIdsOf(pdf)[xi] == r.clientId;
    assert r.clientId in kids;
    ci :| 0 <= ci < |kids| && kids[ci] == r.clientId;
  }

  /** Every row that reaches the grouping is listed under its top-level
      parent and its own client. */
  lemma NestedCoversRows(rows: seq<SheetRow>, clients: seq<Client>, r: SheetRow) returns (gi: nat, ci: nat)
    requires r in rows
    ensures gi < |Nested(rows, clients)| && ci < |Nested(rows, clients)[gi].children|
    ensures Nested(rows, clients)[gi].parentId == FindParent(clients, r.clientId)
    ensures Nested(rows, clients)[gi].children[ci].clientId == r.clientId
    ensures r in Nested(rows, clients)[gi].children[ci].entries
  {
    gi := GroupOfRow(rows, clients, r);
    var pdf := UnderParent(rows, clients, FindParent(clients, r.clientId));
    ci := ChildOfRow(pdf, clients, r);
  }
}
