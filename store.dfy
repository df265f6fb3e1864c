/// The record store behind the form handlers: the three tables held in
/// place, the mutations of add_client, edit_client, add_task,
/// update_status, log_hours and mark_paid, and the pending_count query.
/// Form fields arrive as parameters; a fresh uuid and the current time are
/// parameters too.
module Store {
  import opened Records
  import opened Keys
  import opened Hierarchy

  /** Python's str.isspace for one character. */
  predicate IsSpace(c: char)
  {
    || c == ' ' || c == '\t' || c == '\n' || c == '\r' || c == '\U{B}' || c == '\U{C}'
    || ('\U{1C}' <= c <= '\U{1F}') || c == '\U{85}' || c == '\U{A0}' || c == '\U{1680}'
    || ('\U{2000}' <= c <= '\U{200A}') || c == '\U{2028}' || c == '\U{2029}'
    || c == '\U{202F}' || c == '\U{205F}' || c == '\U{3000}'
  }

  /** `s` without its leading whitespace. */
  function StripLeft(s: string): (r: string)
    ensures |r| <= |s| && r == s[|s| - |r|..]
    ensures |r| > 0 ==> !IsSpace(r[0])
    ensures forall i :: 0 <= i < |s| - |r| ==> IsSpace(s[i])
  {
    if |s| > 0 && IsSpace(s[0]) then StripLeft(s[1..]) else s
  }

  /** `s` without its trailing whitespace. */
  function StripRight(s: string): (r: string)
    ensures |r| <= |s| && r == s[..|r|]
    ensures |r| > 0 ==> !IsSpace(r[|r| - 1])
    ensures forall i :: |r| <= i < |s| ==> IsSpace(s[i])
  {
    if |s| > 0 && IsSpace(s[|s| - 1]) then StripRight(s[..|s| - 1]) else s
  }

  /** str.strip() */
  function Strip(s: string): string
  {
    StripRight(StripLeft(s))
  }

  /** Where the stripped text of `s` begins and ends. */
  lemma StripBounds(s: string) returns (a: nat, b: nat)
    ensures a <= b <= |s| && Strip(s) == s[a..b]
    ensures forall i :: 0 <= i < a ==> IsSpace(s[i])
    ensures forall i :: b <= i < |s| ==> IsSpace(s[i])
  {
    var l := StripLeft(s);
    var r := StripRight(l);
    a := |s| - |l|;
    b := a + |r|;
    SuffixTail(s, a, |r|);
  }

  /** Facts about the part of `s` after position `a + n`, read through the
      suffix `s[a..]`. */
  lemma SuffixTail(s: string, a: nat, n: nat)
    requires a <= |s| && n <= |s| - a
    ensures s[a..][..n] == s[a..a + n]
    ensures (forall k :: n <= k < |s| - a ==> IsSpace(s[a..][k])) ==> forall i :: a + n <= i < |s| ==> IsSpace(s[i])
  {
    if forall k :: n <= k < |s| - a ==> IsSpace(s[a..][k]) {
      forall i | a + n <= i < |s|
        ensures IsSpace(s[i])
      {
        assert s[i] == s[a..][i - a];
      }
    }
  }

  /** The stripped text is the part of `s` between its leading and trailing
      whitespace: it neither starts nor ends with whitespace. */
  lemma StripIsTrimmedSlice(s: string)
    ensures exists a, b ::
      && 0 <= a <= b <= |s| && Strip(s) == s[a..b]
      && (forall i :: 0 <= i < a ==> IsSpace(s[i]))
      && (forall i :: b <= i < |s| ==> IsSpace(s[i]))
    ensures |Strip(s)| > 0 ==> !IsSpace(Strip(s)[0]) && !IsSpace(Strip(s)[|Strip(s)| - 1])
  {
    var a, b := StripBounds(s);
  }

  /** A field is empty after strip() exactly when it is all whitespace. */
  lemma StripEmptyIff(s: string)
    ensures Strip(s) == [] <==> forall i :: 0 <= i < |s| ==> IsSpace(s[i])
  {
  }

  /** Stripping twice is stripping once. */
  lemma StripIdempotent(s: string)
    ensures Strip(Strip(s)) == Strip(s)
  {
    var r := Strip(s);
    StripIsTrimmedSlice(s);
    assert StripLeft(r) == r;
  }

  /** Why a form is turned away; the store is then left as it was. */
  datatype StoreError =
    | NameRequired          // the client name is empty after strip()
    | BadAmount             // rate_amount is not a number (float() raises)
    | ClientNotFound
    | DescriptionRequired   // a task description that is empty after strip()
    | TaskNotFound
    | InvalidTask           // no task has the chosen "client – description" text
    | InvalidHours          // hours are not a number, or not above zero

  /** The payment of a new or edited client: a client with no parent is
      Hourly at 0.0 whatever the form says; a child takes the form's rate
      type (Hourly when absent) and amount. `rateAmount` is the parsed
      field, with an empty or missing field read as 0 and None for text
      that is not a number. */
  function PaymentFor(parentId: string, rateType: Option<string>, rateAmount: Option<real>): Result<(string, real), StoreError>
  {
    if parentId == "" then Success(("Hourly", 0.0))
    else match rateAmount
      case None => Failure(BadAmount)
      case Some(a) => Success((rateType.GetOr("Hourly"), a))
  }

  /** The client add_client appends, or why it refuses. */
  function NewClient(name: string, parentId: string, rateType: Option<string>, rateAmount: Option<real>, freshId: string): Result<Client, StoreError>
  {
    var n := Strip(name);
    if n == [] then Failure(NameRequired)
    else match PaymentFor(parentId, rateType, rateAmount)
      case Failure(e) => Failure(e)
      case Success(pay) => Success(Client(freshId, n, parentId, pay.0, pay.1))
  }

  /** add_client accepts exactly a name that is not all whitespace with, for
      a child, a numeric amount; a top-level client is never billed. */
  lemma NewClientOutcome(name: string, parentId: string, rateType: Option<string>, rateAmount: Option<real>, freshId: string)
    ensures var r := NewClient(name, parentId, rateType, rateAmount, freshId);
      && (r.Success? <==> (exists i :: 0 <= i < |name| && !IsSpace(name[i])) && (parentId == "" || rateAmount.Some?))
      && (r.Success? ==> r.value.id == freshId && r.value.name == Strip(name) && r.value.parentId == parentId)
      && (r.Success? && parentId == "" ==> r.value.paymentType == "Hourly" && r.value.paymentAmount == 0.0)
      && (r.Success? && parentId != "" ==> r.value.paymentType == rateType.GetOr("Hourly") && r.value.paymentAmount == rateAmount.value)
  {
    StripEmptyIff(name);
  }

  /** The parents offered when a client is added: the top-level clients. */
  function AddParentChoices(clients: seq<Client>): seq<Client>
  {
    TopLevel(clients)
  }

  function IsOtherTopLevel(clientId: string): Client -> bool
  {
    (c: Client) => c.parentId == "" && c.id != clientId
  }

  /** The parents offered when client `clientId` is edited: the top-level
      clients other than itself. */
  function EditParentChoices(clients: seq<Client>, clientId: string): (r: seq<Client>)
    ensures forall c :: c in r <==> c in clients && c.parentId == "" && c.id != clientId
  {
    Filter(clients, IsOtherTopLevel(clientId))
  }

  /** The clients with the edit of `clientId` applied to every row with that
      id; the other rows are left alone. */
  function EditRows(clients: seq<Client>, clientId: string, name: string, parentId: string, pay: (string, real)): (r: seq<Client>)
    ensures |r| == |clients|
    ensures forall i :: 0 <= i < |clients| ==>
      r[i] == (if clients[i].id == clientId then Client(clientId, name, parentId, pay.0, pay.1) else clients[i])
  {
    seq(|clients|, i requires 0 <= i < |clients| =>
      if clients[i].id == clientId then Client(clientId, name, parentId, pay.0, pay.1) else clients[i])
  }

  /** Tasks with the status of every row with id `taskId` replaced. */
  function SetStatus(tasks: seq<Task>, taskId: string, status: string): (r: seq<Task>)
    ensures |r| == |tasks|
    ensures forall i :: 0 <= i < |tasks| ==> r[i] == if tasks[i].id == taskId then tasks[i].(status := status) else tasks[i]
  {
    seq(|tasks|, i requires 0 <= i < |tasks| => if tasks[i].id == taskId then tasks[i].(status := status) else tasks[i])
  }

  /** The entries with every row with id `entryId` marked paid. */
  function MarkedPaid(entries: seq<Entry>, entryId: string): (r: seq<Entry>)
    ensures |r| == |entries|
    ensures forall i :: 0 <= i < |entries| ==> r[i] == if entries[i].id == entryId then entries[i].(paid := true) else entries[i]
  {
    seq(|entries|, i requires 0 <= i < |entries| => if entries[i].id == entryId then entries[i].(paid := true) else entries[i])
  }

  /** The text log_hours offers for a task: its client's name (the string
      "nan" when the client is missing) and its description. */
  function Display(t: Task, clients: seq<Client>): string
  {
    var client := match FindClient(clients, t.clientId)
                  case Some(c) => c.name
                  case None => "nan";
    client + " – " + t.description
  }

  /** No task before position `i` has the display text `selected`. */
  predicate NoneBefore(tasks: seq<Task>, clients: seq<Client>, selected: string, i: nat)
    requires i <= |tasks|
  {
    forall j :: 0 <= j < i ==> Display(tasks[j], clients) != selected
  }

  /** The first task whose display text is `selected`. */
  function TaskByDisplay(tasks: seq<Task>, clients: seq<Client>, selected: string): (r: Option<Task>)
    ensures r.Some? ==> r.value in tasks && Display(r.value, clients) == selected
    ensures r.None? <==> forall t :: t in tasks ==> Display(t, clients) != selected
  {
    if |tasks| == 0 then None
    else if Display(tasks[0], clients) == selected then Some(tasks[0])
    else TaskByDisplay(tasks[1..], clients, selected)
  }

  /** The task TaskByDisplay finds is the first with that display text:
      `.iloc[0]` of the mask. */
  lemma {:induction false} FirstByDisplay(tasks: seq<Task>, clients: seq<Client>, selected: string) returns (i: nat)
    requires TaskByDisplay(tasks, clients, selected).Some?
    ensures i < |tasks| && tasks[i] == TaskByDisplay(tasks, clients, selected).value
    ensures Display(tasks[i], clients) == selected && NoneBefore(tasks, clients, selected, i)
    decreases |tasks|
  {
    if Display(tasks[0], clients) == selected {
      i := 0;
    } else {
      var k := FirstByDisplay(tasks[1..], clients, selected);
      i := k + 1;
      forall j | 0 <= j < i
        ensures Display(tasks[j], clients) != selected
      {
        if j > 0 {
          assert tasks[j] == tasks[1..][j - 1];
        }
      }
    }
  }

  /** The entry log_hours appends, or why it refuses. An empty date means
      `today`; `hours` is the parsed field, None when it is not a number. */
  function NewEntry(tasks: seq<Task>, clients: seq<Client>, selected: string, date: string, hours: Option<real>,
                    description: string, freshId: string, today: string): Result<Entry, StoreError>
  {
    match TaskByDisplay(tasks, clients, Strip(selected))
    case None => Failure(InvalidTask)
    case Some(t) =>
      if hours.None? || hours.value <= 0.0 then Failure(InvalidHours)
      else Success(Entry(freshId, t.id, if date == "" then today else date, hours.value, Strip(description), false))
  }

  /** log_hours accepts exactly a task that is offered and a positive number
      of hours. The entry it makes is unpaid, carries the stripped
      description, and belongs to the first task whose display text is the
      stripped selection. */
  lemma NewEntryOutcome(tasks: seq<Task>, clients: seq<Client>, selected: string, date: string, hours: Option<real>,
                        description: string, freshId: string, today: string)
    ensures var r := NewEntry(tasks, clients, selected, date, hours, description, freshId, today);
      r.Success? ==> TaskByDisplay(tasks, clients, Strip(selected)).Some?
                     && r.value.taskId == TaskByDisplay(tasks, clients, Strip(selected)).value.id
    ensures var r := NewEntry(tasks, clients, selected, date, hours, description, freshId, today);
      && (r.Success? <==> (exists t :: t in tasks && Display(t, clients) == Strip(selected)) && hours.Some? && hours.value > 0.0)
      && (r.Success? ==> r.value.id == freshId && !r.value.paid && r.value.hours == hours.value && r.value.hours > 0.0
                         && r.value.description == Strip(description)
                         && r.value.date == (if date == "" then today else date))
      && (r.Success? ==> exists i :: 0 <= i < |tasks| && tasks[i].id == r.value.taskId
                           && Display(tasks[i], clients) == Strip(selected) && NoneBefore(tasks, clients, Strip(selected), i))
  {
    if TaskByDisplay(tasks, clients, Strip(selected)).Some? {
      var i := FirstByDisplay(tasks, clients, Strip(selected));
    }
  }

  /** pending_count: how many tasks have a status other than "Completed". */
  function PendingCount(tasks: seq<Task>): (n: nat)
    ensures n <= |tasks|
  {
    if |tasks| == 0 then 0
    else (if tasks[0].status != "Completed" then 1 else 0) + PendingCount(tasks[1..])
  }

  lemma {:induction false} PendingCountAppend(a: seq<Task>, b: seq<Task>)
    ensures PendingCount(a + b) == PendingCount(a) + PendingCount(b)
    decreases |a|
  {
    if |a| == 0 {
      assert a + b == b;
    } else {
      assert (a + b)[1..] == a[1..] + b;
      PendingCountAppend(a[1..], b);
    }
  }

  /** The number of tasks with id `taskId`, and of those that are pending. */
  function WithId(tasks: seq<Task>, taskId: string): nat
  {
    if |tasks| == 0 then 0
    else (if tasks[0].id == taskId then 1 else 0) + WithId(tasks[1..], taskId)
  }

  function PendingWithId(tasks: seq<Task>, taskId: string): nat
  {
    if |tasks| == 0 then 0
    else (if tasks[0].id == taskId && tasks[0].status != "Completed" then 1 else 0) + PendingWithId(tasks[1..], taskId)
  }

  /** Setting a status changes the pending count only through those tasks
      with that id: the pending ones stop counting, and all of them count
      again unless the new status is "Completed". */
  lemma {:induction false} SetStatusPendingCount(tasks: seq<Task>, taskId: string, status: string)
    ensures PendingCount(SetStatus(tasks, taskId, status))
         == PendingCount(tasks) - PendingWithId(tasks, taskId) + (if status != "Completed" then WithId(tasks, taskId) else 0)
    decreases |tasks|
  {
    if |tasks| > 0 {
      assert SetStatus(tasks, taskId, status)[1..] == SetStatus(tasks[1..], taskId, status);
      SetStatusPendingCount(tasks[1..], taskId, status);
    }
  }

  lemma {:induction false} PendingWithIdBounded(tasks: seq<Task>, taskId: string)
    ensures PendingWithId(tasks, taskId) <= PendingCount(tasks)
    ensures PendingWithId(tasks, taskId) <= WithId(tasks, taskId)
    decreases |tasks|
  {
    if |tasks| > 0 {
      PendingWithIdBounded(tasks[1..], taskId);
    }
  }

  /** Completing a task never raises the pending count. */
  lemma CompletingNeverRaisesPending(tasks: seq<Task>, taskId: string)
    ensures PendingCount(SetStatus(tasks, taskId, "Completed")) <= PendingCount(tasks)
  {
    SetStatusPendingCount(tasks, taskId, "Completed");
    PendingWithIdBounded(tasks, taskId);
  }

  /** Adding a top-level client, or a child of a top-level client, keeps the
      hierarchy two levels deep. */
  lemma AddKeepsTwoLevel(clients: seq<Client>, c: Client)
    requires TwoLevel(clients)
    requires c.parentId == "" || exists q :: q in AddParentChoices(clients) && q.id == c.parentId
    ensures TwoLevel(clients + [c])
  {
    var all := clients + [c];
    forall k | k in all && k.parentId != ""
      ensures exists q :: q in all && q.id == k.parentId && q.parentId == ""
    {
      if k in clients {
        var q :| q in clients && q.id == k.parentId && q.parentId == "";
        assert q in all;
      } else {
        var q :| q in AddParentChoices(clients) && q.id == c.parentId;
        assert q in all;
      }
    }
  }

  /** Editing a client that has no children, with a parent from the offered
      choices, keeps the hierarchy two levels deep. */
  lemma EditKeepsTwoLevel(clients: seq<Client>, clientId: string, name: string, parentId: string, pay: (string, real))
    requires TwoLevel(clients)
    requires forall k :: k in clients ==> k.parentId != clientId
    requires parentId == "" || exists q :: q in EditParentChoices(clients, clientId) && q.id == parentId
    ensures TwoLevel(EditRows(clients, clientId, name, parentId, pay))
  {
    var r := EditRows(clients, clientId, name, parentId, pay);
    forall k | k in r && k.parentId != ""
      ensures exists q :: q in r && q.id == k.parentId && q.parentId == ""
    {
      var i :| 0 <= i < |r| && r[i] == k;
      var pid := k.parentId;
      var q: Client;
      if clients[i].id == clientId {
        q :| q in EditParentChoices(clients, clientId) && q.id == parentId;
      } else {
        q :| q in clients && q.id == pid && q.parentId == "";
      }
      var j :| 0 <= j < |clients| && clients[j] == q;
      assert q.id != clientId;
      assert r[j] == q;
    }
  }

  /** The three sheets, updated in place by the form handlers. */
  class Store {
    var clients: seq<Client>
    var tasks: seq<Task>
    var entries: seq<Entry>

    /** Every record has its own id (each comes from a fresh uuid). */
    ghost predicate Valid()
      reads this
    {
      UniqueClientIds(clients) && UniqueTaskIds(tasks) && UniqueEntryIds(entries)
    }

    /** The tables as load_data returns them, with the ids they were
        created with. */
    constructor (t: Tables)
      requires UniqueClientIds(t.clients) && UniqueTaskIds(t.tasks) && UniqueEntryIds(t.entries)
      ensures Valid()
      ensures clients == t.clients && tasks == t.tasks && entries == t.entries
    {
      clients, tasks, entries := t.clients, t.tasks, t.entries;
    }

    /** add_client */
    method AddClient(name: string, parentId: string, rateType: Option<string>, rateAmount: Option<real>, freshId: string)
      returns (r: Result<Client, StoreError>)
      requires Valid()
      requires forall c :: c in clients ==> c.id != freshId
      modifies this
      ensures Valid()
      ensures r == NewClient(name, parentId, rateType, rateAmount, freshId)
      ensures clients == if r.Success? then old(clients) + [r.value] else old(clients)
      ensures tasks == old(tasks) && entries == old(entries)
    {
      r := NewClient(name, parentId, rateType, rateAmount, freshId);
      if r.Success? {
        clients := clients + [r.value];
      }
    }

    /** edit_client */
    method EditClient(clientId: string, name: string, parentId: string, rateType: Option<string>, rateAmount: Option<real>)
      returns (r: Result<(), StoreError>)
      requires Valid()
      modifies this
      ensures Valid()
      ensures (forall c :: c in old(clients) ==> c.id != clientId) ==> r == Failure(ClientNotFound)
      ensures (exists c :: c in old(clients) && c.id == clientId) ==>
        match NewClient(name, parentId, rateType, rateAmount, clientId)
        case Failure(e) => r == Failure(e)
        case Success(c) => r == Success(())
      ensures clients == if r.Success?
        then EditRows(old(clients), clientId, Strip(name), parentId, PaymentFor(parentId, rateType, rateAmount).value)
        else old(clients)
      ensures tasks == old(tasks) && entries == old(entries)
    {
      if FindClient(clients, clientId).None? {
        return Failure(ClientNotFound);
      }
      var n := Strip(name);
      if n == [] {
        return Failure(NameRequired);
      }
      var pay := PaymentFor(parentId, rateType, rateAmount);
      if pay.Failure? {
        return Failure(pay.error);
      }
      var edited := EditRows(clients, clientId, n, parentId, pay.value);
      assert forall i :: 0 <= i < |clients| ==> edited[i].id == clients[i].id;
      clients := edited;
      r := Success(());
    }

    /** add_task: a new task is Pending. */
    method AddTask(clientId: string, shortName: string, description: string, freshId: string, now: string)
      returns (r: Result<Task, StoreError>)
      requires Valid()
      requires forall t :: t in tasks ==> t.id != freshId
      modifies this
      ensures Valid()
      ensures r == if Strip(description) == [] then Failure(DescriptionRequired)
                   else Success(Task(freshId, clientId, Strip(description), now, "Pending", Strip(shortName)))
      ensures tasks == if r.Success? then old(tasks) + [r.value] else old(tasks)
      ensures r.Success? ==> PendingCount(tasks) == old(PendingCount(tasks)) + 1
      ensures clients == old(clients) && entries == old(entries)
    {
      var desc := Strip(description);
      if desc == [] {
        return Failure(DescriptionRequired);
      }
      var t := Task(freshId, clientId, desc, now, "Pending", Strip(shortName));
      PendingCountAppend(tasks, [t]);
      tasks := tasks + [t];
      r := Success(t);
    }

    /** update_status: any status may be set, without transition rules. */
    method UpdateStatus(taskId: string, status: string) returns (r: Result<(), StoreError>)
      requires Valid()
      modifies this
      ensures Valid()
      ensures r.Failure? <==> forall t :: t in old(tasks) ==> t.id != taskId
      ensures r.Failure? ==> r.error == TaskNotFound
      ensures tasks == if r.Success? then SetStatus(old(tasks), taskId, status) else old(tasks)
      ensures clients == old(clients) && entries == old(entries)
    {
      if FindTask(tasks, taskId).None? {
        return Failure(TaskNotFound);
      }
      var updated := SetStatus(tasks, taskId, status);
      assert forall i :: 0 <= i < |tasks| ==> updated[i].id == tasks[i].id;
      tasks := updated;
      r := Success(());
    }

    /** log_hours */
    method LogHours(selected: string, date: string, hours: Option<real>, description: string, freshId: string, today: string)
      returns (r: Result<Entry, StoreError>)
      requires Valid()
      requires forall e :: e in entries ==> e.id != freshId
      modifies this
      ensures Valid()
      ensures r == NewEntry(old(tasks), old(clients), selected, date, hours, description, freshId, today)
      ensures entries == if r.Success? then old(entries) + [r.value] else old(entries)
      ensures clients == old(clients) && tasks == old(tasks)
    {
      r := NewEntry(tasks, clients, selected, date, hours, description, freshId, today);
      if r.Success? {
        entries := entries + [r.value];
      }
    }

    /** mark_paid: every entry with the id becomes paid; an unknown id
        changes nothing. */
    method MarkPaid(entryId: string)
      requires Valid()
      modifies this
      ensures Valid()
      ensures entries == MarkedPaid(old(entries), entryId)
      ensures clients == old(clients) && tasks == old(tasks)
    {
      var marked := MarkedPaid(entries, entryId);
      assert forall i :: 0 <= i < |entries| ==> marked[i].id == entries[i].id;
      entries := marked;
    }
  }

  /** Marking paid only ever raises the Paid flag, and only on the entries
      with that id; every other field and row stays as it was. */
  lemma MarkPaidOnlyRaises(entries: seq<Entry>, entryId: string, i: nat)
    requires i < |entries|
    ensures MarkedPaid(entries, entryId)[i].paid == (entries[i].paid || entries[i].id == entryId)
    ensures MarkedPaid(entries, entryId)[i].(paid := entries[i].paid) == entries[i]
  {
  }
}
