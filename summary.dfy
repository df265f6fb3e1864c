/// The monthly report (monthly_summary): for every month of the
/// aggregation and every top-level client that the filters let through,
/// one row with the client's own bucket, one child row per child client
/// with a bucket that month, and their totals; then the grand totals and
/// their conversion to euros.
module Summary {
  import opened Records
  import opened Keys
  import opened Hierarchy
  import opened Billing

  /** One entry of a row's Children list. */
  datatype ChildRow = ChildRow(clientName: string, hours: real, earnings: real, paid: real)

  /** One row of the report. */
  datatype SummaryRow = SummaryRow(
    month: string, parentName: string, children: seq<ChildRow>,
    ownHours: real, ownEarnings: real, ownPaid: real,
    totalHours: real, totalEarnings: real, totalPaid: real, totalPending: real)

  /** What the report page is rendered with. */
  datatype Report = Report(
    summary: seq<SummaryRow>, monthList: seq<string>, parentNames: seq<string>,
    totalEarnings: real, totalPaid: real, totalPending: real,
    totalEarningsEur: real, totalPaidEur: real, totalPendingEur: real)

  /** The report cannot be rendered: no row was built, so no rate was ever
      fetched and `eur_rate` is unbound. */
  datatype ReportError = RateUnbound

  /** A filter from the query string: empty lets everything through. */
  predicate Passes(sel: seq<string>, x: string)
  {
    |sel| == 0 || x in sel
  }

  function ChildValue(c: ChildRow, f: Measure): real
  {
    match f
    case Hours => c.hours
    case Earnings => c.earnings
    case Paid => c.paid
  }

  function RowValue(r: SummaryRow, f: Measure): real
  {
    match f
    case Hours => r.totalHours
    case Earnings => r.totalEarnings
    case Paid => r.totalPaid
  }

  /** The month filter of the query string. */
  function MonthPasses(selMonths: seq<string>): string -> bool
  {
    m => Passes(selMonths, m)
  }

  /** The client filter of the query string, on the parent's name. */
  function ParentPasses(selClients: seq<string>): Client -> bool
  {
    (p: Client) => Passes(selClients, p.name)
  }

  /** mdf.ClientID.isin(children.get(p, [])) */
  function InChildren(clients: seq<Client>, p: string): Bucket -> bool
  {
    (b: Bucket) => ChildOf(clients, b.clientId, p)
  }

  /** mdf.ClientID == p */
  function IsClient(p: string): Bucket -> bool
  {
    (b: Bucket) => b.clientId == p
  }

  function ChildRowOf(b: Bucket, clients: seq<Client>): ChildRow
  {
    ChildRow(NameOr(clients, b.clientId, ""), b.hours, b.earnings, b.paid)
  }

  /** children_list: one entry per bucket, in mdf order. */
  function ChildRowsOf(bs: seq<Bucket>, clients: seq<Client>): (r: seq<ChildRow>)
    ensures |r| == |bs|
    ensures forall i :: 0 <= i < |bs| ==> r[i] == ChildRowOf(bs[i], clients)
  {
    seq(|bs|, i requires 0 <= i < |bs| => ChildRowOf(bs[i], clients))
  }

  /** sum(c[...] for c in children_list) */
  function ChildTotal(cs: seq<ChildRow>, f: Measure): real
  {
    if |cs| == 0 then 0.0
    else ChildTotal(cs[..|cs| - 1], f) + ChildValue(cs[|cs| - 1], f)
  }

  /** The row of top-level client `p` in month `m`, built from the month's
      buckets `mdf`. */
  function RowFor(mdf: seq<Bucket>, clients: seq<Client>, m: string, p: Client): SummaryRow
  {
    var children := ChildRowsOf(Filter(mdf, InChildren(clients, p.id)), clients);
    var own := Filter(mdf, IsClient(p.id));
    var ownHours, ownEarnings, ownPaid := BucketsTotal(own, Hours), BucketsTotal(own, Earnings), BucketsTotal(own, Paid);
    var hours := ownHours + ChildTotal(children, Hours);
    var earnings := ownEarnings + ChildTotal(children, Earnings);
    var paid := ownPaid + ChildTotal(children, Paid);
    SummaryRow(m, p.name, children, ownHours, ownEarnings, ownPaid, hours, earnings, paid, earnings - paid)
  }

  /** The rows of one month, one per parent in `ps`. */
  function Block(mdf: seq<Bucket>, clients: seq<Client>, m: string, ps: seq<Client>): (r: seq<SummaryRow>)
    ensures |r| == |ps|
    ensures forall j :: 0 <= j < |ps| ==> r[j] == RowFor(mdf, clients, m, ps[j])
  {
    seq(|ps|, j requires 0 <= j < |ps| => RowFor(mdf, clients, m, ps[j]))
  }

  lemma BlockAppend(mdf: seq<Bucket>, clients: seq<Client>, m: string, ps: seq<Client>, p: Client)
    ensures Block(mdf, clients, m, ps + [p]) == Block(mdf, clients, m, ps) + [RowFor(mdf, clients, m, p)]
  {
    var a, b := Block(mdf, clients, m, ps + [p]), Block(mdf, clients, m, ps) + [RowFor(mdf, clients, m, p)];
    forall j | 0 <= j < |a|
      ensures a[j] == b[j]
    {
      if j < |ps| {
        assert (ps + [p])[j] == ps[j];
      }
    }
  }

  /** The rows of the months `ms`, month by month. */
  function Grid(ls: seq<Line>, clients: seq<Client>, ms: seq<string>, ps: seq<Client>): seq<SummaryRow>
  {
    if |ms| == 0 then []
    else Grid(ls, clients, ms[..|ms| - 1], ps) + Block(MonthAgg(ls, ms[|ms| - 1]), clients, ms[|ms| - 1], ps)
  }

  lemma GridAppend(ls: seq<Line>, clients: seq<Client>, ms: seq<string>, m: string, ps: seq<Client>)
    ensures Grid(ls, clients, ms + [m], ps) == Grid(ls, clients, ms, ps) + Block(MonthAgg(ls, m), clients, m, ps)
  {
    assert (ms + [m])[..|ms + [m]| - 1] == ms;
  }

  function SelectedMonths(ls: seq<Line>, selMonths: seq<string>): seq<string>
  {
    Filter(AggMonths(ls), MonthPasses(selMonths))
  }

  function SelectedParents(clients: seq<Client>, selClients: seq<string>): seq<Client>
  {
    Filter(TopLevel(clients), ParentPasses(selClients))
  }

  /** The summary list of the report. */
  function SummaryRows(ls: seq<Line>, clients: seq<Client>, selMonths: seq<string>, selClients: seq<string>): seq<SummaryRow>
  {
    Grid(ls, clients, SelectedMonths(ls, selMonths), SelectedParents(clients, selClients))
  }

  function EntryMonths(entries: seq<Entry>, monthOf: string -> string): (r: seq<string>)
    ensures |r| == |entries|
    ensures forall i :: 0 <= i < |entries| ==> r[i] == monthOf(entries[i].date)
  {
    seq(|entries|, i requires 0 <= i < |entries| => monthOf(entries[i].date))
  }

  /** month_list: every month with an entry, whether or not its task
      exists, newest first. */
  function MonthList(entries: seq<Entry>, monthOf: string -> string): (r: seq<string>)
    ensures Descending(r)
    ensures forall m :: m in r <==> exists e :: e in entries && monthOf(e.date) == m
  {
    var ms := EntryMonths(entries, monthOf);
    assert forall e :: e in entries ==> monthOf(e.date) in ms by {
      forall e | e in entries ensures monthOf(e.date) in ms {
        var i :| 0 <= i < |entries| && entries[i] == e;
        assert ms[i] == monthOf(e.date);
      }
    }
    DescendingKeys(ms)
  }

  /** parent_names: the names of the top-level clients, in table order. */
  function ParentNames(clients: seq<Client>): (r: seq<string>)
    ensures |r| == |TopLevel(clients)|
    ensures forall i :: 0 <= i < |r| ==> r[i] == TopLevel(clients)[i].name
  {
    var ps := TopLevel(clients);
    seq(|ps|, i requires 0 <= i < |ps| => ps[i].name)
  }

  /** The name of the top-level client at table position i comes after
      exactly the names of the top-level clients before it. */
  lemma ParentNamesRank(clients: seq<Client>, i: nat)
    requires i < |clients| && clients[i].parentId == ""
    ensures |TopLevel(clients[..i])| < |ParentNames(clients)|
    ensures ParentNames(clients)[|TopLevel(clients[..i])|] == clients[i].name
  {
    TopLevelRank(clients, i);
  }

  /** sum(item[...] for item in summary) */
  function RowsTotal(rows: seq<SummaryRow>, f: Measure): real
  {
    if |rows| == 0 then 0.0
    else RowsTotal(rows[..|rows| - 1], f) + RowValue(rows[|rows| - 1], f)
  }

  function PendingTotal(rows: seq<SummaryRow>): real
  {
    if |rows| == 0 then 0.0
    else PendingTotal(rows[..|rows| - 1]) + rows[|rows| - 1].totalPending
  }

  /** The rendered report for the rows built and the rate fetched: the
      grand totals of monthly_summary and their conversion to euros. */
  function ReportOf(rows: seq<SummaryRow>, entries: seq<Entry>, clients: seq<Client>, monthOf: string -> string, rate: real): Report
  {
    var earnings := RowsTotal(rows, Earnings);
    var paid := RowsTotal(rows, Paid);
    Report(rows, MonthList(entries, monthOf), ParentNames(clients),
           earnings, paid, earnings - paid, earnings * rate, paid * rate, (earnings - paid) * rate)
  }

  /** The report as monthly_summary renders it: built from the rows when
      there are any, and unrenderable when there are none. */
  function AsWritten(entries: seq<Entry>, tasks: seq<Task>, clients: seq<Client>, monthOf: string -> string,
                     selMonths: seq<string>, selClients: seq<string>, fetched: Option<real>): Result<Report, ReportError>
  {
    var rows := SummaryRows(Lines(entries, tasks, clients, monthOf), clients, selMonths, selClients);
    if rows == [] then Failure(RateUnbound) else Success(ReportOf(rows, entries, clients, monthOf, fetched.GetOr(1.0)))
  }

  /** One pass of the inner loop of monthly_summary: parent `j` is skipped
      by the client filter, or the rate is fetched and its row appended.
      `start` is the rate as the month began. */
  method AppendRow(mdf: seq<Bucket>, clients: seq<Client>, month: string, parents: seq<Client>, j: nat,
                   selClients: seq<string>, fetched: Option<real>, rows0: seq<SummaryRow>, eurRate0: Option<real>,
                   ghost start: Option<real>)
    returns (rows: seq<SummaryRow>, eurRate: Option<real>)
    requires j < |parents|
    requires rows0 == Block(mdf, clients, month, Filter(parents[..j], ParentPasses(selClients)))
    requires eurRate0 == if rows0 == [] then start else Some(fetched.GetOr(1.0))
    ensures rows == Block(mdf, clients, month, Filter(parents[..j + 1], ParentPasses(selClients)))
    ensures eurRate == if rows == [] then start else Some(fetched.GetOr(1.0))
  {
    var parent := parents[j];
    ghost var kept := Filter(parents[..j], ParentPasses(selClients));
    FilterPrefix(parents, j, ParentPasses(selClients));
    if !Passes(selClients, parent.name) {
      assert Filter(parents[..j + 1], ParentPasses(selClients)) == kept;
      return rows0, eurRate0;
    }
    assert Filter(parents[..j + 1], ParentPasses(selClients)) == kept + [parent];
    eurRate := Some(fetched.GetOr(1.0));
    var row := RowFor(mdf, clients, month, parent);
    BlockAppend(mdf, clients, month, kept, parent);
    rows := rows0 + [row];
  }

  /** The rows of one month: the inner loop of monthly_summary. */
  method MonthRows(mdf: seq<Bucket>, clients: seq<Client>, month: string, parents: seq<Client>, selClients: seq<string>,
                   fetched: Option<real>, eurRate0: Option<real>)
    returns (rows: seq<SummaryRow>, eurRate: Option<real>)
    ensures rows == Block(mdf, clients, month, Filter(parents, ParentPasses(selClients)))
    ensures eurRate == if rows == [] then eurRate0 else Some(fetched.GetOr(1.0))
  {
    rows, eurRate := [], eurRate0;
    var j := 0;
    while j < |parents|
      invariant 0 <= j <= |parents|
      invariant rows == Block(mdf, clients, month, Filter(parents[..j], ParentPasses(selClients)))
      invariant eurRate == if rows == [] then eurRate0 else Some(fetched.GetOr(1.0))
    {
      rows, eurRate := AppendRow(mdf, clients, month, parents, j, selClients, fetched, rows, eurRate, eurRate0);
      j := j + 1;
    }
    assert parents[..j] == parents;
  }

  /** One pass of the outer loop of monthly_summary: month `i` of the
      aggregation is skipped by the month filter, or its rows are appended
      to those of the months before it. */
  method AppendMonth(ls: seq<Line>, clients: seq<Client>, months: seq<string>, i: nat, selMonths: seq<string>,
                     parents: seq<Client>, selClients: seq<string>, fetched: Option<real>,
                     summary0: seq<SummaryRow>, eurRate0: Option<real>)
    returns (summary: seq<SummaryRow>, eurRate: Option<real>)
    requires i < |months|
    requires summary0 == Grid(ls, clients, Filter(months[..i], MonthPasses(selMonths)), Filter(parents, ParentPasses(selClients)))
    requires eurRate0 == if summary0 == [] then None else Some(fetched.GetOr(1.0))
    ensures summary == Grid(ls, clients, Filter(months[..i + 1], MonthPasses(selMonths)), Filter(parents, ParentPasses(selClients)))
    ensures eurRate == if summary == [] then None else Some(fetched.GetOr(1.0))
  {
    var month := months[i];
    ghost var before, ps := Filter(months[..i], MonthPasses(selMonths)), Filter(parents, ParentPasses(selClients));
    FilterPrefix(months, i, MonthPasses(selMonths));
    if !Passes(selMonths, month) {
      assert Filter(months[..i + 1], MonthPasses(selMonths)) == before;
      return summary0, eurRate0;
    }
    assert Filter(months[..i + 1], MonthPasses(selMonths)) == before + [month];
    var mdf := MonthAgg(ls, month);
    var rows;
    rows, eurRate := MonthRows(mdf, clients, month, parents, selClients, fetched, eurRate0);
    GridAppend(ls, clients, before, month, ps);
    summary := summary0 + rows;
  }

  /** The nested loops of monthly_summary over the aggregation's months and
      the top-level clients. */
  method BuildSummary(ls: seq<Line>, clients: seq<Client>, selMonths: seq<string>, selClients: seq<string>, fetched: Option<real>)
    returns (summary: seq<SummaryRow>, eurRate: Option<real>)
    ensures summary == SummaryRows(ls, clients, selMonths, selClients)
    ensures eurRate == if summary == [] then None else Some(fetched.GetOr(1.0))
  {
    var months := AggMonths(ls);
    var parents := TopLevel(clients);
    summary := [];
    eurRate := None;
    var i := 0;
    while i < |months|
      invariant 0 <= i <= |months|
      invariant summary == Grid(ls, clients, Filter(months[..i], MonthPasses(selMonths)), Filter(parents, ParentPasses(selClients)))
      invariant eurRate == if summary == [] then None else Some(fetched.GetOr(1.0))
    {
      summary, eurRate := AppendMonth(ls, clients, months, i, selMonths, parents, selClients, fetched, summary, eurRate);
      i := i + 1;
    }
    assert months[..i] == months;
  }

  /** monthly_summary: the rows, then the grand totals. Every row uses the
      same fetch outcome; a failed fetch means a rate of 1.0. */
  method MonthlySummary(entries: seq<Entry>, tasks: seq<Task>, clients: seq<Client>, monthOf: string -> string,
                        selMonths: seq<string>, selClients: seq<string>, fetched: Option<real>)
    returns (result: Result<Report, ReportError>)
    ensures result == AsWritten(entries, tasks, clients, monthOf, selMonths, selClients, fetched)
  {
    var ls := Lines(entries, tasks, clients, monthOf);
    var summary, eurRate := BuildSummary(ls, clients, selMonths, selClients, fetched);
    if eurRate.None? {
      return Failure(RateUnbound);
    }
    result := Success(ReportOf(summary, entries, clients, monthOf, eurRate.value));
  }

  /** The client ids kept by children[p], as a filter on keys. */
  function IsChildOf(clients: seq<Client>, p: string): string -> bool
  {
    c => ChildOf(clients, c, p)
  }

  function IsId(p: string): string -> bool
  {
    c => c == p
  }

  lemma {:induction false} ChildRowsTotal(bs: seq<Bucket>, clients: seq<Client>, f: Measure)
    ensures ChildTotal(ChildRowsOf(bs, clients), f) == BucketsTotal(bs, f)
    decreases |bs|
  {
    if |bs| > 0 {
      var init := bs[..|bs| - 1];
      ChildRowsTotal(init, clients, f);
      var cs := ChildRowsOf(bs, clients);
      assert cs[..|cs| - 1] == ChildRowsOf(init, clients);
    }
  }

  /** A row's totals are its own bucket plus its children's buckets. */
  lemma RowSplit(mdf: seq<Bucket>, clients: seq<Client>, m: string, p: Client, f: Measure)
    ensures RowValue(RowFor(mdf, clients, m, p), f)
         == BucketsTotal(Filter(mdf, IsClient(p.id)), f) + BucketsTotal(Filter(mdf, InChildren(clients, p.id)), f)
  {
    ChildRowsTotal(Filter(mdf, InChildren(clients, p.id)), clients, f);
  }

  /** The clients of a month that are `p` itself or one of its children are
      exactly those whose top-level parent is `p`, and no client is both. */
  lemma FamilyKeys(ls: seq<Line>, clients: seq<Client>, m: string, p: Client, f: Measure)
    requires UniqueClientIds(clients) && p in clients && p.parentId == ""
    ensures Sum(ls, Both(Is(ByMonth, m), Among(ByClient, Filter(MonthClients(ls, m), IsId(p.id)))), f)
          + Sum(ls, Both(Is(ByMonth, m), Among(ByClient, Filter(MonthClients(ls, m), IsChildOf(clients, p.id)))), f)
         == Sum(ls, Both(Is(ByMonth, m), Is(ByTop(clients), p.id)), f)
  {
    var cs := MonthClients(ls, m);
    var own, kids := Filter(cs, IsId(p.id)), Filter(cs, IsChildOf(clients, p.id));
    var base := Is(ByMonth, m);
    assert !ChildOf(clients, p.id, p.id);
    SumAmongUnion(ls, base, ByClient, own, kids, f);
    forall c | c in cs
      ensures c in own + kids <==> FindParent(clients, c) == p.id
    {
      FindParentOfFamily(clients, c, p);
    }
    FamilyCongruence(ls, clients, m, p, own + kids, f);
  }

  /** Keys that pick, among the month's clients, exactly those under `p`
      select the same lines as `p`'s top-level key. */
  lemma FamilyCongruence(ls: seq<Line>, clients: seq<Client>, m: string, p: Client, ks: seq<string>, f: Measure)
    requires forall c :: c in MonthClients(ls, m) ==> (c in ks <==> FindParent(clients, c) == p.id)
    ensures Sum(ls, Both(Is(ByMonth, m), Among(ByClient, ks)), f) == Sum(ls, Both(Is(ByMonth, m), Is(ByTop(clients), p.id)), f)
  {
    forall l | l in ls
      ensures Matches(l, Both(Is(ByMonth, m), Among(ByClient, ks))) <==> Matches(l, Both(Is(ByMonth, m), Is(ByTop(clients), p.id)))
    {
      if l.month == m {
        assert l.clientId in MonthClients(ls, m);
      }
    }
    SumCongruent(ls, Both(Is(ByMonth, m), Among(ByClient, ks)), Both(Is(ByMonth, m), Is(ByTop(clients), p.id)), f);
  }

  /** A row's totals are the month's lines of the parent and of its
      children, that is of every client whose top-level parent (find_parent)
      is the row's client. */
  lemma RowIsFamilyTotal(ls: seq<Line>, clients: seq<Client>, m: string, p: Client, f: Measure)
    requires UniqueClientIds(clients) && p in clients && p.parentId == ""
    ensures RowValue(RowFor(MonthAgg(ls, m), clients, m, p), f) == Sum(ls, Both(Is(ByMonth, m), Is(ByTop(clients), p.id)), f)
  {
    RowSplit(MonthAgg(ls, m), clients, m, p, f);
    KeptShare(ls, m, IsClient(p.id), IsId(p.id), f);
    KeptShare(ls, m, InChildren(clients, p.id), IsChildOf(clients, p.id), f);
    FamilyKeys(ls, clients, m, p, f);
  }

  lemma {:induction false} RowsTotalAppend(a: seq<SummaryRow>, b: seq<SummaryRow>, f: Measure)
    ensures RowsTotal(a + b, f) == RowsTotal(a, f) + RowsTotal(b, f)
    decreases |b|
  {
    if |b| == 0 {
      assert a + b == a;
    } else {
      var init := b[..|b| - 1];
      assert (a + b)[..|a + b| - 1] == a + init;
      RowsTotalAppend(a, init, f);
    }
  }

  /** The rows of one month for distinct top-level clients add up to the
      month's lines under those clients. */
  lemma {:induction false} BlockTotal(ls: seq<Line>, clients: seq<Client>, m: string, ps: seq<Client>, f: Measure)
    requires UniqueClientIds(clients)
    requires forall p :: p in ps ==> p in clients && p.parentId == ""
    requires Distinct(Ids(ps))
    ensures RowsTotal(Block(MonthAgg(ls, m), clients, m, ps), f) == Sum(ls, Both(Is(ByMonth, m), Among(ByTop(clients), Ids(ps))), f)
    decreases |ps|
  {
    var base := Is(ByMonth, m);
    if |ps| == 0 {
      SumOfNothing(ls, Both(base, Among(ByTop(clients), Ids(ps))), f);
    } else {
      var init, p := ps[..|ps| - 1], ps[|ps| - 1];
      var mdf := MonthAgg(ls, m);
      var ids := Ids(ps);
      assert Ids(init) == ids[..|ps| - 1];
      assert ids == Ids(init) + [p.id];
      assert Distinct(Ids(init));
      BlockTotal(ls, clients, m, init, f);
      var rows := Block(mdf, clients, m, ps);
      assert rows[..|ps| - 1] == Block(mdf, clients, m, init);
      RowIsFamilyTotal(ls, clients, m, p, f);
      SumSplit(ls, base, ByTop(clients), Ids(init), p.id, f);
    }
  }

  lemma {:induction false} GridKeyTotals(ls: seq<Line>, clients: seq<Client>, ms: seq<string>, ps: seq<Client>, f: Measure)
    requires UniqueClientIds(clients)
    requires forall p :: p in ps ==> p in clients && p.parentId == ""
    requires Distinct(Ids(ps))
    ensures RowsTotal(Grid(ls, clients, ms, ps), f) == KeyTotals(ls, Among(ByTop(clients), Ids(ps)), ByMonth, ms, f)
    decreases |ms|
  {
    if |ms| > 0 {
      var init, m := ms[..|ms| - 1], ms[|ms| - 1];
      var tops := Among(ByTop(clients), Ids(ps));
      GridKeyTotals(ls, clients, init, ps, f);
      RowsTotalAppend(Grid(ls, clients, init, ps), Block(MonthAgg(ls, m), clients, m, ps), f);
      BlockTotal(ls, clients, m, ps, f);
      SumBothSwap(ls, Is(ByMonth, m), tops, f);
    }
  }

  /** The rows of distinct months and distinct top-level clients add up to
      the lines of those months under those clients. */
  lemma GridTotal(ls: seq<Line>, clients: seq<Client>, ms: seq<string>, ps: seq<Client>, f: Measure)
    requires UniqueClientIds(clients)
    requires forall p :: p in ps ==> p in clients && p.parentId == ""
    requires Distinct(Ids(ps)) && Distinct(ms)
    ensures RowsTotal(Grid(ls, clients, ms, ps), f) == Sum(ls, Both(Among(ByTop(clients), Ids(ps)), Among(ByMonth, ms)), f)
  {
    GridKeyTotals(ls, clients, ms, ps, f);
    Partition(ls, Among(ByTop(clients), Ids(ps)), ByMonth, ms, f);
  }

  /** Under any filters, the report's rows add up to the lines of the
      selected months whose top-level client is a selected one. */
  lemma SummaryTotal(ls: seq<Line>, clients: seq<Client>, selMonths: seq<string>, selClients: seq<string>, f: Measure)
    requires UniqueClientIds(clients)
    ensures RowsTotal(SummaryRows(ls, clients, selMonths, selClients), f)
         == Sum(ls, Both(Among(ByTop(clients), Ids(SelectedParents(clients, selClients))), Among(ByMonth, SelectedMonths(ls, selMonths))), f)
  {
    var ms, ps := SelectedMonths(ls, selMonths), SelectedParents(clients, selClients);
    TopLevelIdsDistinct(clients);
    FilterAscending(AggMonths(ls), MonthPasses(selMonths));
    AscendingDistinct(ms);
    var top := TopLevel(clients);
    forall i, j | 0 <= i < j < |top|
      ensures top[i] != top[j]
    {
      assert Ids(top)[i] == top[i].id && Ids(top)[j] == top[j].id;
    }
    FilterDistinct(top, ParentPasses(selClients));
    var ids := Ids(ps);
    forall i, j | 0 <= i < j < |ids|
      ensures ids[i] != ids[j]
    {
      assert ids[i] == ps[i].id && ids[j] == ps[j].id;
      assert ps[i] in top && ps[j] in top;
      FindClientUnique(clients, ps[i]);
      FindClientUnique(clients, ps[j]);
    }
    GridTotal(ls, clients, ms, ps, f);
  }

  /** With no filters, in a two-level hierarchy where every line's client
      exists, the report's rows add up to every line of the timesheet:
      nothing is dropped and nothing is counted twice. */
  lemma ReportCoversEverything(ls: seq<Line>, clients: seq<Client>, f: Measure)
    requires UniqueClientIds(clients) && TwoLevel(clients)
    requires forall l :: l in ls ==> exists k :: k in clients && k.id == l.clientId
    ensures RowsTotal(SummaryRows(ls, clients, [], []), f) == Sum(ls, All, f)
  {
    SummaryTotal(ls, clients, [], [], f);
    assert SelectedMonths(ls, []) == AggMonths(ls);
    assert SelectedParents(clients, []) == TopLevel(clients);
    var s := Both(Among(ByTop(clients), Ids(TopLevel(clients))), Among(ByMonth, AggMonths(ls)));
    forall l | l in ls
      ensures Matches(l, s)
    {
      FindParentIsTopLevel(clients, l.clientId);
      UnderListedTop(clients, l, Ids(TopLevel(clients)));
      assert l.month in AggMonths(ls);
    }
    SumCongruent(ls, s, All, f);
  }

  lemma BlockRows(mdf: seq<Bucket>, clients: seq<Client>, m: string, ps: seq<Client>, r: SummaryRow)
    ensures r in Block(mdf, clients, m, ps) <==> exists p :: p in ps && r == RowFor(mdf, clients, m, p)
  {
    var block := Block(mdf, clients, m, ps);
    if r in block {
      var j :| 0 <= j < |block| && block[j] == r;
      assert ps[j] in ps;
    }
    if exists p :: p in ps && r == RowFor(mdf, clients, m, p) {
      var p :| p in ps && r == RowFor(mdf, clients, m, p);
      var j :| 0 <= j < |ps| && ps[j] == p;
      assert block[j] == r;
    }
  }

  /** Every row of the grid is the row of one of the months and one of the
      clients, and every such pair has its row. */
  lemma {:induction false} GridRows(ls: seq<Line>, clients: seq<Client>, ms: seq<string>, ps: seq<Client>, r: SummaryRow)
    ensures r in Grid(ls, clients, ms, ps) <==> exists m, p :: m in ms && p in ps && r == RowFor(MonthAgg(ls, m), clients, m, p)
    decreases |ms|
  {
    if |ms| > 0 {
      var init, last := ms[..|ms| - 1], ms[|ms| - 1];
      GridRows(ls, clients, init, ps, r);
      BlockRows(MonthAgg(ls, last), clients, last, ps, r);
      InitMembers(ms);
    }
  }

  /** The grid is empty exactly when there is no month or no client. */
  lemma {:induction false} GridEmpty(ls: seq<Line>, clients: seq<Client>, ms: seq<string>, ps: seq<Client>)
    ensures Grid(ls, clients, ms, ps) == [] <==> |ms| == 0 || |ps| == 0
    decreases |ms|
  {
    if |ms| > 0 {
      GridEmpty(ls, clients, ms[..|ms| - 1], ps);
      var block := Block(MonthAgg(ls, ms[|ms| - 1]), clients, ms[|ms| - 1], ps);
      assert |Grid(ls, clients, ms, ps)| >= |block|;
    }
  }

  /** Summed over rows whose pending is their earnings less their paid
      part, pending is total earnings less total paid. */
  lemma {:induction false} PendingIsEarningsLessPaid(rows: seq<SummaryRow>)
    requires forall r :: r in rows ==> r.totalPending == r.totalEarnings - r.totalPaid
    ensures PendingTotal(rows) == RowsTotal(rows, Earnings) - RowsTotal(rows, Paid)
    decreases |rows|
  {
    if |rows| > 0 {
      var init := rows[..|rows| - 1];
      assert forall r :: r in init ==> r in rows;
      PendingIsEarningsLessPaid(init);
    }
  }

  /** The grand pending amount of the report is the sum of its rows'
      pending amounts. */
  lemma ReportPendingIsRowsPending(entries: seq<Entry>, tasks: seq<Task>, clients: seq<Client>, monthOf: string -> string,
                                   selMonths: seq<string>, selClients: seq<string>, rate: real)
    ensures var rows := SummaryRows(Lines(entries, tasks, clients, monthOf), clients, selMonths, selClients);
      ReportOf(rows, entries, clients, monthOf, rate).totalPending == PendingTotal(rows)
  {
    var ls := Lines(entries, tasks, clients, monthOf);
    var rows := SummaryRows(ls, clients, selMonths, selClients);
    forall r | r in rows
      ensures r.totalPending == r.totalEarnings - r.totalPaid
    {
      GridRows(ls, clients, SelectedMonths(ls, selMonths), SelectedParents(clients, selClients), r);
    }
    PendingIsEarningsLessPaid(rows);
  }

  /** As written, the report fails exactly when the filters leave no month
      or no top-level client: no row is built, so no rate is fetched. */
  lemma AsWrittenFailsIff(entries: seq<Entry>, tasks: seq<Task>, clients: seq<Client>, monthOf: string -> string,
                          selMonths: seq<string>, selClients: seq<string>, fetched: Option<real>)
    ensures var ls := Lines(entries, tasks, clients, monthOf);
      AsWritten(entries, tasks, clients, monthOf, selMonths, selClients, fetched).Failure?
      <==> SelectedMonths(ls, selMonths) == [] || SelectedParents(clients, selClients) == []
  {
    var ls := Lines(entries, tasks, clients, monthOf);
    GridEmpty(ls, clients, SelectedMonths(ls, selMonths), SelectedParents(clients, selClients));
  }

  /** As written, asking for a month that has no entries fails to render. */
  lemma UnknownMonthFails(entries: seq<Entry>, tasks: seq<Task>, clients: seq<Client>, monthOf: string -> string,
                          selMonths: seq<string>, selClients: seq<string>, fetched: Option<real>)
    requires |selMonths| > 0
    requires forall m :: m in selMonths ==> m !in AggMonths(Lines(entries, tasks, clients, monthOf))
    ensures AsWritten(entries, tasks, clients, monthOf, selMonths, selClients, fetched) == Failure(RateUnbound)
  {
    var ls := Lines(entries, tasks, clients, monthOf);
    FilterNone(AggMonths(ls), MonthPasses(selMonths));
    AsWrittenFailsIff(entries, tasks, clients, monthOf, selMonths, selClients, fetched);
  }

  /** The report as evidently intended: the rate is fetched once, and the
      page renders whatever the filters select. */
  function CorrectedReport(entries: seq<Entry>, tasks: seq<Task>, clients: seq<Client>, monthOf: string -> string,
                           selMonths: seq<string>, selClients: seq<string>, fetched: Option<real>): Report
  {
    var rows := SummaryRows(Lines(entries, tasks, clients, monthOf), clients, selMonths, selClients);
    ReportOf(rows, entries, clients, monthOf, fetched.GetOr(1.0))
  }

  /** Where the code as written renders, the corrected report is the same
      page. */
  lemma CorrectedAgrees(entries: seq<Entry>, tasks: seq<Task>, clients: seq<Client>, monthOf: string -> string,
                        selMonths: seq<string>, selClients: seq<string>, fetched: Option<real>)
    ensures var r := AsWritten(entries, tasks, clients, monthOf, selMonths, selClients, fetched);
      r.Success? ==> r.value == CorrectedReport(entries, tasks, clients, monthOf, selMonths, selClients, fetched)
  {
  }

  /** The corrected report's grand totals are the sums over the selected
      months of the lines under the selected top-level clients, which is
      zero when nothing is selected. */
  lemma CorrectedReportTotals(entries: seq<Entry>, tasks: seq<Task>, clients: seq<Client>, monthOf: string -> string,
                              selMonths: seq<string>, selClients: seq<string>, fetched: Option<real>)
    requires UniqueClientIds(clients)
    ensures var ls := Lines(entries, tasks, clients, monthOf);
      var s := Both(Among(ByTop(clients), Ids(SelectedParents(clients, selClients))), Among(ByMonth, SelectedMonths(ls, selMonths)));
      var r := CorrectedReport(entries, tasks, clients, monthOf, selMonths, selClients, fetched);
      && r.totalEarnings == Sum(ls, s, Earnings)
      && r.totalPaid == Sum(ls, s, Paid)
      && r.totalPending == Sum(ls, s, Earnings) - Sum(ls, s, Paid)
  {
    var ls := Lines(entries, tasks, clients, monthOf);
    SummaryTotal(ls, clients, selMonths, selClients, Earnings);
    SummaryTotal(ls, clients, selMonths, selClients, Paid);
  }
  /** The Children list holds, in ascending ClientID order, the bucket of
      every client of the month whose ParentID is the row's client. */
  lemma RowChildren(ls: seq<Line>, clients: seq<Client>, m: string, p: Client)
    ensures RowFor(MonthAgg(ls, m), clients, m, p).children
         == ChildRowsOf(MonthBuckets(ls, m, Filter(MonthClients(ls, m), IsChildOf(clients, p.id))), clients)
  {
    FilterMonthBuckets(ls, m, MonthClients(ls, m), InChildren(clients, p.id), IsChildOf(clients, p.id));
  }

  /** A top-level client with no line that month under it still gets its
      row, and the row's totals are zero. */
  lemma RowWithoutLinesIsZero(ls: seq<Line>, clients: seq<Client>, m: string, p: Client, f: Measure)
    requires UniqueClientIds(clients) && p in clients && p.parentId == ""
    requires forall l :: l in ls && l.month == m ==> FindParent(clients, l.clientId) != p.id
    ensures RowValue(RowFor(MonthAgg(ls, m), clients, m, p), f) == 0.0
  {
    var s := Both(Is(ByMonth, m), Is(ByTop(clients), p.id));
    forall l | l in ls
      ensures !Matches(l, s)
    {
    }
    SumOfNothing(ls, s, f);
    RowIsFamilyTotal(ls, clients, m, p, f);
  }
}
