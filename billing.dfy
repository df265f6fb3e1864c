/// The billing arithmetic of the monthly report: the earnings rule
/// (compute_earn), the paid share, the timesheet joined with tasks and
/// clients, sums over selections of those joined lines, and the
/// (Month, ClientID) buckets of the aggregation.
module Billing {
  import opened Records
  import opened Keys
  import opened Hierarchy

  /** A client's PaymentType and PaymentAmount. */
  datatype Pricing = Pricing(paymentType: string, amount: real)

  /** Monthly and Project clients are paid a flat amount. */
  predicate IsFlatRate(paymentType: string)
  {
    paymentType == "Monthly" || paymentType == "Project"
  }

  /** compute_earn: a flat-rate client earns its amount for any entry with
      hours; everyone else earns hours times the amount. */
  function Earn(p: Pricing, hours: real): real
  {
    if IsFlatRate(p.paymentType) && hours > 0.0 then p.amount else hours * p.amount
  }

  /** PaidEarnings: the earnings of a paid entry, nothing for an unpaid one. */
  function PaidShare(earnings: real, paid: bool): real
  {
    if paid then earnings else 0.0
  }

  /** With a non-negative rate and hours, earnings are not negative and the
      paid share lies between nothing and all of them. */
  lemma PaidShareBounded(p: Pricing, hours: real, paid: bool)
    requires p.amount >= 0.0 && hours >= 0.0
    ensures 0.0 <= PaidShare(Earn(p, hours), paid) <= Earn(p, hours)
  {
  }

  /** One row of the merged frame whose task was found (the others have a
      NaN ClientID and no group). `pricing` is None when its task's client
      is missing: its earnings are NaN and pandas' sum skips them. */
  datatype Line = Line(entry: Entry, month: string, clientId: string, pricing: Option<Pricing>)

  /** The pricing the second merge brings in for a client id. */
  function PricingFor(clients: seq<Client>, cid: string): Option<Pricing>
  {
    match FindClient(clients, cid)
    case Some(c) => Some(Pricing(c.paymentType, c.paymentAmount))
    case None => None
  }

  function JoinEntry(e: Entry, tasks: seq<Task>, clients: seq<Client>, monthOf: string -> string): Option<Line>
  {
    match FindTask(tasks, e.taskId)
    case None => None
    case Some(t) => Some(Line(e, monthOf(e.date), t.clientId, PricingFor(clients, t.clientId)))
  }

  /** The joined lines that reach the aggregation, in timesheet order. */
  function Lines(entries: seq<Entry>, tasks: seq<Task>, clients: seq<Client>, monthOf: string -> string): (ls: seq<Line>)
    ensures |ls| <= |entries|
    ensures forall e :: e in entries && JoinEntry(e, tasks, clients, monthOf).Some? ==>
      JoinEntry(e, tasks, clients, monthOf).value in ls
    ensures forall l :: l in ls ==> l.entry in entries && JoinEntry(l.entry, tasks, clients, monthOf) == Some(l)
    ensures forall l :: l in ls ==> l.pricing == PricingFor(clients, l.clientId)
  {
    if |entries| == 0 then []
    else
      var head := match JoinEntry(entries[0], tasks, clients, monthOf)
                  case Some(l) => [l]
                  case None => [];
      head + Lines(entries[1..], tasks, clients, monthOf)
  }

  /** The entries the lines come from, in order. */
  function EntriesOf(ls: seq<Line>): (es: seq<Entry>)
    ensures |es| == |ls|
    ensures forall i :: 0 <= i < |ls| ==> es[i] == ls[i].entry
  {
    seq(|ls|, i requires 0 <= i < |ls| => ls[i].entry)
  }

  /** Each entry whose task exists reaches the aggregation as often as it
      occurs in the timesheet, and no other entry does. */
  lemma EntriesOfCons(l: Line, rest: seq<Line>)
    ensures multiset(EntriesOf([l] + rest)) == multiset{l.entry} + multiset(EntriesOf(rest))
  {
    assert EntriesOf([l] + rest) == [l.entry] + EntriesOf(rest);
  }

  lemma LinesCountSplit(entries: seq<Entry>, tasks: seq<Task>, clients: seq<Client>, monthOf: string -> string, e: Entry)
    requires |entries| > 0
    ensures var rest := multiset(EntriesOf(Lines(entries[1..], tasks, clients, monthOf)))[e];
      multiset(EntriesOf(Lines(entries, tasks, clients, monthOf)))[e]
      == if JoinEntry(entries[0], tasks, clients, monthOf).Some? then multiset{entries[0]}[e] + rest else rest
  {
    var j := JoinEntry(entries[0], tasks, clients, monthOf);
    var rest := Lines(entries[1..], tasks, clients, monthOf);
    if j.Some? {
      assert Lines(entries, tasks, clients, monthOf) == [j.value] + rest;
      EntriesOfCons(j.value, rest);
    } else {
      assert Lines(entries, tasks, clients, monthOf) == rest;
    }
  }

  lemma {:induction false} LinesCount(entries: seq<Entry>, tasks: seq<Task>, clients: seq<Client>, monthOf: string -> string, e: Entry)
    ensures multiset(EntriesOf(Lines(entries, tasks, clients, monthOf)))[e]
         == if JoinEntry(e, tasks, clients, monthOf).Some? then multiset(entries)[e] else 0
    decreases |entries|
  {
    if |entries| > 0 {
      LinesCount(entries[1..], tasks, clients, monthOf, e);
      HeadCount(entries, e);
      LinesCountSplit(entries, tasks, clients, monthOf, e);
    }
  }

  /** The three summed columns of the aggregation. */
  datatype Measure = Hours | Earnings | Paid

  /** A line's contribution to a column; NaN earnings count as nothing. */
  function Amount(l: Line, f: Measure): real
  {
    match f
    case Hours => l.entry.hours
    case Earnings => (match l.pricing case Some(p) => Earn(p, l.entry.hours) case None => 0.0)
    case Paid => (match l.pricing case Some(p) => PaidShare(Earn(p, l.entry.hours), l.entry.paid) case None => 0.0)
  }

  /** The keys a line is grouped or filtered by. */
  datatype Axis = ByMonth | ByClient | ByTop(clients: seq<Client>)

  function Key(l: Line, ax: Axis): string
  {
    match ax
    case ByMonth => l.month
    case ByClient => l.clientId
    case ByTop(clients) => FindParent(clients, l.clientId)
  }

  /** A selection of lines: all, one key, a list of keys, or both of two. */
  datatype Sel = All | Is(ax: Axis, k: string) | Among(ax: Axis, ks: seq<string>) | Both(a: Sel, b: Sel)

  predicate Matches(l: Line, s: Sel)
  {
    match s
    case All => true
    case Is(ax, k) => Key(l, ax) == k
    case Among(ax, ks) => Key(l, ax) in ks
    case Both(a, b) => Matches(l, a) && Matches(l, b)
  }

  /** The sum of a column over the selected lines. */
  function Sum(ls: seq<Line>, s: Sel, f: Measure): real
  {
    if |ls| == 0 then 0.0
    else (if Matches(ls[0], s) then Amount(ls[0], f) else 0.0) + Sum(ls[1..], s, f)
  }

  /** The number of selected lines. */
  function Count(ls: seq<Line>, s: Sel): nat
  {
    if |ls| == 0 then 0
    else (if Matches(ls[0], s) then 1 else 0) + Count(ls[1..], s)
  }

  lemma {:induction false} SumAppend(a: seq<Line>, b: seq<Line>, s: Sel, f: Measure)
    ensures Sum(a + b, s, f) == Sum(a, s, f) + Sum(b, s, f)
    decreases |a|
  {
    if |a| == 0 {
      assert a + b == b;
    } else {
      assert (a + b)[0] == a[0] && (a + b)[1..] == a[1..] + b;
      SumAppend(a[1..], b, s, f);
    }
  }

  lemma {:induction false} SumOfNothing(ls: seq<Line>, s: Sel, f: Measure)
    requires forall l :: l in ls ==> !Matches(l, s)
    ensures Sum(ls, s, f) == 0.0
    decreases |ls|
  {
    if |ls| > 0 {
      assert ls[0] in ls;
      SumOfNothing(ls[1..], s, f);
    }
  }

  /** Selections that pick the same lines have the same sums. */
  lemma {:induction false} SumCongruent(ls: seq<Line>, a: Sel, b: Sel, f: Measure)
    requires forall l :: l in ls ==> (Matches(l, a) <==> Matches(l, b))
    ensures Sum(ls, a, f) == Sum(ls, b, f)
    decreases |ls|
  {
    if |ls| > 0 {
      assert ls[0] in ls;
      SumCongruent(ls[1..], a, b, f);
    }
  }

  /** A line whose top-level parent is listed matches the list. */
  lemma UnderListedTop(clients: seq<Client>, l: Line, ids: seq<string>)
    requires FindParent(clients, l.clientId) in ids
    ensures Matches(l, Among(ByTop(clients), ids))
  {
  }

  /** The order of the two halves of a selection does not matter. */
  lemma SumBothSwap(ls: seq<Line>, a: Sel, b: Sel, f: Measure)
    ensures Sum(ls, Both(a, b), f) == Sum(ls, Both(b, a), f)
  {
    SumCongruent(ls, Both(a, b), Both(b, a), f);
  }

  /** Adding a key that is not yet listed adds exactly that key's sum. */
  lemma {:induction false} SumSplit(ls: seq<Line>, base: Sel, ax: Axis, ks: seq<string>, k: string, f: Measure)
    requires k !in ks
    ensures Sum(ls, Both(base, Among(ax, ks + [k])), f)
         == Sum(ls, Both(base, Among(ax, ks)), f) + Sum(ls, Both(base, Is(ax, k)), f)
    decreases |ls|
  {
    if |ls| > 0 {
      var l, key := ls[0], Key(ls[0], ax);
      assert key in ks + [k] <==> key in ks || key == k;
      assert Matches(l, Among(ax, ks + [k])) <==> key in ks + [k];
      assert Matches(l, Among(ax, ks)) <==> key in ks;
      assert Matches(l, Is(ax, k)) <==> key == k;
      SumSplit(ls[1..], base, ax, ks, k, f);
    }
  }

  /** Two lists of keys with nothing in common select disjoint lines. */
  lemma {:induction false} SumAmongUnion(ls: seq<Line>, base: Sel, ax: Axis, a: seq<string>, b: seq<string>, f: Measure)
    requires forall k :: k in a ==> k !in b
    ensures Sum(ls, Both(base, Among(ax, a + b)), f)
         == Sum(ls, Both(base, Among(ax, a)), f) + Sum(ls, Both(base, Among(ax, b)), f)
    decreases |ls|
  {
    if |ls| > 0 {
      var l, key := ls[0], Key(ls[0], ax);
      assert key in a + b <==> key in a || key in b;
      assert Matches(l, Among(ax, a + b)) <==> key in a + b;
      assert Matches(l, Among(ax, a)) <==> key in a;
      assert Matches(l, Among(ax, b)) <==> key in b;
      SumAmongUnion(ls[1..], base, ax, a, b, f);
    }
  }

  /** The sums of the keys `ks` one by one, added up. */
  function KeyTotals(ls: seq<Line>, base: Sel, ax: Axis, ks: seq<string>, f: Measure): real
  {
    if |ks| == 0 then 0.0
    else KeyTotals(ls, base, ax, ks[..|ks| - 1], f) + Sum(ls, Both(base, Is(ax, ks[|ks| - 1])), f)
  }

  /** Summing key by key over distinct keys is summing over all of them at
      once: no line is counted twice. */
  lemma {:induction false} Partition(ls: seq<Line>, base: Sel, ax: Axis, ks: seq<string>, f: Measure)
    requires Distinct(ks)
    ensures KeyTotals(ls, base, ax, ks, f) == Sum(ls, Both(base, Among(ax, ks)), f)
    decreases |ks|
  {
    if |ks| == 0 {
      SumOfNothing(ls, Both(base, Among(ax, ks)), f);
    } else {
      var init, k := ks[..|ks| - 1], ks[|ks| - 1];
      assert ks == init + [k];
      assert Distinct(init);
      Partition(ls, base, ax, init, f);
      SumSplit(ls, base, ax, init, k, f);
    }
  }

  lemma Distribute(x: real, y: real, a: real)
    ensures (x + y) * a == x * a + y * a
  {
  }

  /** `a` added up `n` times. */
  function Repeat(n: nat, a: real): real
  {
    if n == 0 then 0.0 else Repeat(n - 1, a) + a
  }

  lemma {:induction false} RepeatIsProduct(n: nat, a: real)
    ensures Repeat(n, a) == n as real * a
  {
    if n > 0 {
      RepeatIsProduct(n - 1, a);
      Distribute((n - 1) as real, 1.0, a);
    }
  }

  /** Every selected line of a flat-rate client with hours earns the full
      amount, so the sum is the amount once per entry (not once a month):
      with RepeatIsProduct, Count(ls, s) times the amount. */
  lemma {:induction false} FlatRatePerEntry(ls: seq<Line>, s: Sel, p: Pricing)
    requires IsFlatRate(p.paymentType)
    requires forall l :: l in ls && Matches(l, s) ==> l.pricing == Some(p) && l.entry.hours > 0.0
    ensures Sum(ls, s, Earnings) == Repeat(Count(ls, s), p.amount)
    decreases |ls|
  {
    if |ls| > 0 {
      assert ls[0] in ls;
      FlatRatePerEntry(ls[1..], s, p);
    }
  }

  /** The selected lines' hours, each priced at `a`. */
  function RatedHours(ls: seq<Line>, s: Sel, a: real): real
  {
    if |ls| == 0 then 0.0
    else (if Matches(ls[0], s) then ls[0].entry.hours * a else 0.0) + RatedHours(ls[1..], s, a)
  }

  lemma {:induction false} RatedHoursIsProduct(ls: seq<Line>, s: Sel, a: real)
    ensures RatedHours(ls, s, a) == Sum(ls, s, Hours) * a
    decreases |ls|
  {
    if |ls| > 0 {
      RatedHoursIsProduct(ls[1..], s, a);
      if Matches(ls[0], s) {
        Distribute(ls[0].entry.hours, Sum(ls[1..], s, Hours), a);
      }
    }
  }

  lemma {:induction false} HourlySum(ls: seq<Line>, s: Sel, p: Pricing)
    requires !IsFlatRate(p.paymentType)
    requires forall l :: l in ls && Matches(l, s) ==> l.pricing == Some(p)
    ensures Sum(ls, s, Earnings) == RatedHours(ls, s, p.amount)
    decreases |ls|
  {
    if |ls| > 0 {
      assert ls[0] in ls;
      HourlySum(ls[1..], s, p);
    }
  }

  /** For a client paid by the hour the sum is the hours times the rate. */
  lemma {:induction false} HourlyEarnings(ls: seq<Line>, s: Sel, p: Pricing)
    requires !IsFlatRate(p.paymentType)
    requires forall l :: l in ls && Matches(l, s) ==> l.pricing == Some(p)
    ensures Sum(ls, s, Earnings) == Sum(ls, s, Hours) * p.amount
  {
    RatedHoursIsProduct(ls, s, p.amount);
    HourlySum(ls, s, p);
  }

  /** One row of agg: a month, a client and its three sums. */
  datatype Bucket = Bucket(month: string, clientId: string, hours: real, earnings: real, paid: real)

  function BucketSel(m: string, c: string): Sel
  {
    Both(Is(ByMonth, m), Is(ByClient, c))
  }

  function BucketOf(ls: seq<Line>, m: string, c: string): Bucket
  {
    Bucket(m, c, Sum(ls, BucketSel(m, c), Hours), Sum(ls, BucketSel(m, c), Earnings), Sum(ls, BucketSel(m, c), Paid))
  }

  function Value(b: Bucket, f: Measure): real
  {
    match f
    case Hours => b.hours
    case Earnings => b.earnings
    case Paid => b.paid
  }

  function MonthsOf(ls: seq<Line>): (r: seq<string>)
    ensures |r| == |ls|
    ensures forall i :: 0 <= i < |ls| ==> r[i] == ls[i].month
  {
    seq(|ls|, i requires 0 <= i < |ls| => ls[i].month)
  }

  /** The client ids of the lines of month `m`, with repetitions. */
  function ClientsIn(ls: seq<Line>, m: string): (r: seq<string>)
    ensures forall l :: l in ls && l.month == m ==> l.clientId in r
    ensures forall c :: c in r ==> exists l :: l in ls && l.month == m && l.clientId == c
  {
    if |ls| == 0 then []
    else (if ls[0].month == m then [ls[0].clientId] else []) + ClientsIn(ls[1..], m)
  }

  /** The months of the aggregation, ascending (agg.groupby('Month')). */
  function AggMonths(ls: seq<Line>): (r: seq<string>)
    ensures Ascending(r)
    ensures forall m :: m in r <==> exists l :: l in ls && l.month == m
  {
    var r := SortedKeys(MonthsOf(ls));
    assert forall l :: l in ls ==> l.month in MonthsOf(ls) by {
      forall l | l in ls ensures l.month in MonthsOf(ls) {
        var i :| 0 <= i < |ls| && ls[i] == l;
        assert MonthsOf(ls)[i] == l.month;
      }
    }
    r
  }

  /** The clients with a bucket in month `m`, ascending (mdf's row order). */
  function MonthClients(ls: seq<Line>, m: string): (r: seq<string>)
    ensures Ascending(r)
    ensures forall c :: c in r <==> exists l :: l in ls && l.month == m && l.clientId == c
  {
    SortedKeys(ClientsIn(ls, m))
  }

  function MonthBuckets(ls: seq<Line>, m: string, cs: seq<string>): (r: seq<Bucket>)
    ensures |r| == |cs|
    ensures forall i :: 0 <= i < |cs| ==> r[i] == BucketOf(ls, m, cs[i])
  {
    if |cs| == 0 then []
    else MonthBuckets(ls, m, cs[..|cs| - 1]) + [BucketOf(ls, m, cs[|cs| - 1])]
  }

  /** mdf: the buckets of month `m`, in agg order. */
  function MonthAgg(ls: seq<Line>, m: string): seq<Bucket>
  {
    MonthBuckets(ls, m, MonthClients(ls, m))
  }

  /** A filter on buckets that looks only at their client ids is the same
      filter on the keys. */
  lemma {:induction false} FilterMonthBuckets(ls: seq<Line>, m: string, cs: seq<string>, keepB: Bucket -> bool, keep: string -> bool)
    requires forall c :: keepB(BucketOf(ls, m, c)) == keep(c)
    ensures Filter(MonthBuckets(ls, m, cs), keepB) == MonthBuckets(ls, m, Filter(cs, keep))
    decreases |cs|
  {
    if |cs| > 0 {
      var init, last := cs[..|cs| - 1], cs[|cs| - 1];
      var bs, b := MonthBuckets(ls, m, init), BucketOf(ls, m, last);
      FilterMonthBuckets(ls, m, init, keepB, keep);
      assert MonthBuckets(ls, m, cs) == bs + [b];
      FilterAppend(bs, b, keepB);
      assert Filter(cs, keep) == Filter(init, keep) + (if keep(last) then [last] else []);
      var ks := Filter(init, keep);
      assert keepB(b) == keep(last);
      if keep(last) {
        assert (ks + [last])[..|ks|] == ks;
        assert MonthBuckets(ls, m, ks + [last]) == MonthBuckets(ls, m, ks) + [b];
      }
    }
  }

  /** The buckets of month `m` that a filter on client ids keeps add up to
      the month's lines of the kept clients. */
  lemma KeptShare(ls: seq<Line>, m: string, keepB: Bucket -> bool, keep: string -> bool, f: Measure)
    requires forall c :: keepB(BucketOf(ls, m, c)) == keep(c)
    ensures BucketsTotal(Filter(MonthAgg(ls, m), keepB), f)
         == Sum(ls, Both(Is(ByMonth, m), Among(ByClient, Filter(MonthClients(ls, m), keep))), f)
  {
    var cs := MonthClients(ls, m);
    var ks := Filter(cs, keep);
    FilterMonthBuckets(ls, m, cs, keepB, keep);
    MonthBucketsTotal(ls, m, ks, f);
    FilterAscending(cs, keep);
    AscendingDistinct(ks);
    Partition(ls, Is(ByMonth, m), ByClient, ks, f);
  }

  function AggOver(ls: seq<Line>, ms: seq<string>): seq<Bucket>
  {
    if |ms| == 0 then []
    else AggOver(ls, ms[..|ms| - 1]) + MonthBuckets(ls, ms[|ms| - 1], MonthClients(ls, ms[|ms| - 1]))
  }

  /** agg: one bucket per (Month, ClientID) pair present, ordered by month
      and then by client id. */
  function Agg(ls: seq<Line>): seq<Bucket>
  {
    AggOver(ls, AggMonths(ls))
  }

  function BucketsTotal(bs: seq<Bucket>, f: Measure): real
  {
    if |bs| == 0 then 0.0
    else BucketsTotal(bs[..|bs| - 1], f) + Value(bs[|bs| - 1], f)
  }

  lemma {:induction false} BucketsTotalAppend(a: seq<Bucket>, b: seq<Bucket>, f: Measure)
    ensures BucketsTotal(a + b, f) == BucketsTotal(a, f) + BucketsTotal(b, f)
    decreases |b|
  {
    if |b| == 0 {
      assert a + b == a;
    } else {
      var init := b[..|b| - 1];
      assert (a + b)[..|a + b| - 1] == a + init;
      BucketsTotalAppend(a, init, f);
    }
  }

  lemma {:induction false} MonthBucketsTotal(ls: seq<Line>, m: string, cs: seq<string>, f: Measure)
    ensures BucketsTotal(MonthBuckets(ls, m, cs), f) == KeyTotals(ls, Is(ByMonth, m), ByClient, cs, f)
    decreases |cs|
  {
    if |cs| > 0 {
      var init := cs[..|cs| - 1];
      MonthBucketsTotal(ls, m, init, f);
      var bs := MonthBuckets(ls, m, cs);
      assert bs[..|bs| - 1] == MonthBuckets(ls, m, init);
    }
  }

  lemma MonthClientsCover(ls: seq<Line>, m: string)
    ensures forall l :: l in ls ==>
      (Matches(l, Both(Is(ByMonth, m), Among(ByClient, MonthClients(ls, m)))) <==> Matches(l, Both(All, Is(ByMonth, m))))
  {
    var cs := MonthClients(ls, m);
    forall l | l in ls && l.month == m
      ensures l.clientId in cs
    {
    }
  }

  /** The buckets of one month add up to that month's lines. */
  lemma MonthTotal(ls: seq<Line>, m: string, f: Measure)
    ensures BucketsTotal(MonthBuckets(ls, m, MonthClients(ls, m)), f) == Sum(ls, Both(All, Is(ByMonth, m)), f)
  {
    var cs := MonthClients(ls, m);
    MonthBucketsTotal(ls, m, cs, f);
    AscendingDistinct(cs);
    Partition(ls, Is(ByMonth, m), ByClient, cs, f);
    MonthClientsCover(ls, m);
    SumCongruent(ls, Both(Is(ByMonth, m), Among(ByClient, cs)), Both(All, Is(ByMonth, m)), f);
  }

  lemma {:induction false} AggOverTotal(ls: seq<Line>, ms: seq<string>, f: Measure)
    ensures BucketsTotal(AggOver(ls, ms), f) == KeyTotals(ls, All, ByMonth, ms, f)
    decreases |ms|
  {
    if |ms| > 0 {
      var init, m := ms[..|ms| - 1], ms[|ms| - 1];
      AggOverTotal(ls, init, f);
      BucketsTotalAppend(AggOver(ls, init), MonthBuckets(ls, m, MonthClients(ls, m)), f);
      MonthTotal(ls, m, f);
    }
  }

  /** Conservation: the buckets of agg add up, column by column, to the sum
      over every line that reaches the aggregation. */
  lemma AggConservation(ls: seq<Line>, f: Measure)
    ensures BucketsTotal(Agg(ls), f) == Sum(ls, All, f)
  {
    var ms := AggMonths(ls);
    AggOverTotal(ls, ms, f);
    AscendingDistinct(ms);
    Partition(ls, All, ByMonth, ms, f);
    forall l | l in ls
      ensures Matches(l, Both(All, Among(ByMonth, ms)))
    {
      assert l.month in ms;
    }
    SumCongruent(ls, Both(All, Among(ByMonth, ms)), All, f);
  }

  /** The number of buckets with a given key. */
  function BucketCount(bs: seq<Bucket>, m: string, c: string): nat
  {
    if |bs| == 0 then 0
    else BucketCount(bs[..|bs| - 1], m, c) + (if bs[|bs| - 1].month == m && bs[|bs| - 1].clientId == c then 1 else 0)
  }

  lemma {:induction false} BucketCountAppend(a: seq<Bucket>, b: seq<Bucket>, m: string, c: string)
    ensures BucketCount(a + b, m, c) == BucketCount(a, m, c) + BucketCount(b, m, c)
    decreases |b|
  {
    if |b| == 0 {
      assert a + b == a;
    } else {
      var init := b[..|b| - 1];
      assert (a + b)[..|a + b| - 1] == a + init;
      BucketCountAppend(a, init, m, c);
    }
  }

  lemma {:induction false} MonthBucketsCount(ls: seq<Line>, m0: string, cs: seq<string>, m: string, c: string)
    requires Distinct(cs)
    ensures BucketCount(MonthBuckets(ls, m0, cs), m, c) == if m0 == m && c in cs then 1 else 0
    decreases |cs|
  {
    if |cs| > 0 {
      var init := cs[..|cs| - 1];
      assert cs == init + [cs[|cs| - 1]];
      assert Distinct(init);
      MonthBucketsCount(ls, m0, init, m, c);
      var bs := MonthBuckets(ls, m0, cs);
      assert bs[..|bs| - 1] == MonthBuckets(ls, m0, init);
    }
  }

  lemma {:induction false} AggOverCount(ls: seq<Line>, ms: seq<string>, m: string, c: string)
    requires Distinct(ms)
    ensures BucketCount(AggOver(ls, ms), m, c) == if m in ms && c in MonthClients(ls, m) then 1 else 0
    decreases |ms|
  {
    if |ms| > 0 {
      var init, last := ms[..|ms| - 1], ms[|ms| - 1];
      assert ms == init + [last];
      assert Distinct(init);
      AggOverCount(ls, init, m, c);
      var cs := MonthClients(ls, last);
      BucketCountAppend(AggOver(ls, init), MonthBuckets(ls, last, cs), m, c);
      AscendingDistinct(cs);
      MonthBucketsCount(ls, last, cs, m, c);
    }
  }

  /** agg has exactly one bucket for each (Month, ClientID) pair that some
      line has, and none for any other pair. */
  lemma AggKeysUnique(ls: seq<Line>, m: string, c: string)
    ensures BucketCount(Agg(ls), m, c) == if exists l :: l in ls && l.month == m && l.clientId == c then 1 else 0
  {
    var ms := AggMonths(ls);
    AscendingDistinct(ms);
    AggOverCount(ls, ms, m, c);
  }

  lemma {:induction false} AggOverBuckets(ls: seq<Line>, ms: seq<string>, i: nat)
    requires i < |AggOver(ls, ms)|
    ensures AggOver(ls, ms)[i] == BucketOf(ls, AggOver(ls, ms)[i].month, AggOver(ls, ms)[i].clientId)
    ensures AggOver(ls, ms)[i].month in ms
    ensures AggOver(ls, ms)[i].clientId in MonthClients(ls, AggOver(ls, ms)[i].month)
    decreases |ms|
  {
    var init, last := ms[..|ms| - 1], ms[|ms| - 1];
    var front, cs := AggOver(ls, init), MonthClients(ls, last);
    var b := AggOver(ls, ms)[i];
    if i < |front| {
      AggOverBuckets(ls, init, i);
      assert b == front[i];
      assert b.month in ms by {
        InitMembers(ms);
      }
    } else {
      var k := i - |front|;
      assert b == MonthBuckets(ls, last, cs)[k];
      assert cs[k] in cs;
    }
  }

  /** Every bucket of agg holds the sums of its own month and client, and
      that pair occurs in the lines. */
  lemma AggBucketIsItsSum(ls: seq<Line>, i: nat)
    requires i < |Agg(ls)|
    ensures Agg(ls)[i] == BucketOf(ls, Agg(ls)[i].month, Agg(ls)[i].clientId)
    ensures exists l :: l in ls && l.month == Agg(ls)[i].month && l.clientId == Agg(ls)[i].clientId
  {
    AggOverBuckets(ls, AggMonths(ls), i);
  }
}
