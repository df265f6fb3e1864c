/// load_data's normalisation of the three sheets as they come out of the
/// workbook, and save_data's writing of them. A sheet records which
/// columns it has; an empty cell (NaN) is None. Reading and writing the
/// file itself is not modelled: the workbook is a value.
module Loading {
  import opened Records

  /** A Clients row as read: ParentID, PaymentType and PaymentAmount may be
      empty cells. */
  datatype RawClient = RawClient(id: string, name: string, parentId: Option<string>, paymentType: Option<string>, paymentAmount: Option<real>)

  datatype ClientSheet = ClientSheet(hasParentId: bool, hasPaymentType: bool, hasPaymentAmount: bool, rows: seq<RawClient>)

  /** A Tasks row as read. */
  datatype RawTask = RawTask(id: string, clientId: string, description: string, createdDate: string, status: string, shortName: string)

  datatype TaskSheet = TaskSheet(hasStatus: bool, hasShortName: bool, hasCreatedDate: bool, rows: seq<RawTask>)

  /** A Timesheet row as read: Date and Description may be empty cells. */
  datatype RawEntry = RawEntry(id: string, taskId: string, date: Option<string>, hours: real, description: Option<string>, paid: bool)

  datatype EntrySheet = EntrySheet(hasPaid: bool, hasHours: bool, hasDescription: bool, hasDate: bool, rows: seq<RawEntry>)

  /** The workbook: a sheet is None when the workbook lacks it. */
  datatype Workbook = Workbook(clients: Option<ClientSheet>, tasks: Option<TaskSheet>, entries: Option<EntrySheet>)

  /** Why load_data raises: a column read with [] is missing (KeyError), or
      a column read with .get(col, '') is missing and the '' it returns has
      no fillna (AttributeError). */
  datatype LoadError = KeyError(column: string) | NoFillna(column: string)

  /** The empty Clients frame load_data starts from when the sheet or the
      file is missing: its columns are ClientID, ClientName, ParentID,
      PaymentType and ProjectRate, so it has no PaymentAmount. */
  const EmptyClients := ClientSheet(true, true, false, [])

  const EmptyTasks := TaskSheet(true, true, true, [])

  const EmptyEntries := EntrySheet(true, true, true, true, [])

  /** One client with its empty cells filled: no parent, Hourly, 0.0. */
  function NormClient(r: RawClient): Client
  {
    Client(r.id, r.name, r.parentId.GetOr(""), r.paymentType.GetOr("Hourly"), r.paymentAmount.GetOr(0.0))
  }

  function NormClients(rows: seq<RawClient>): (r: seq<Client>)
    ensures |r| == |rows|
    ensures forall i :: 0 <= i < |rows| ==> r[i] == NormClient(rows[i])
  {
    seq(|rows|, i requires 0 <= i < |rows| => NormClient(rows[i]))
  }

  function LoadClients(sh: ClientSheet): Result<seq<Client>, LoadError>
  {
    if !sh.hasParentId then Failure(NoFillna("ParentID"))
    else if !sh.hasPaymentType then Failure(KeyError("PaymentType"))
    else if !sh.hasPaymentAmount then Failure(KeyError("PaymentAmount"))
    else Success(NormClients(sh.rows))
  }

  /** One task with its missing columns filled: Pending, no short name, no
      creation date. */
  function NormTask(sh: TaskSheet, r: RawTask): Task
  {
    Task(r.id, r.clientId, r.description,
         if sh.hasCreatedDate then r.createdDate else "",
         if sh.hasStatus then r.status else "Pending",
         if sh.hasShortName then r.shortName else "")
  }

  function LoadTasks(sh: TaskSheet): (r: seq<Task>)
    ensures |r| == |sh.rows|
    ensures forall i :: 0 <= i < |sh.rows| ==> r[i] == NormTask(sh, sh.rows[i])
  {
    seq(|sh.rows|, i requires 0 <= i < |sh.rows| => NormTask(sh, sh.rows[i]))
  }

  /** One entry with its missing columns and empty cells filled: unpaid,
      no hours, no description, no date. */
  function NormEntry(sh: EntrySheet, r: RawEntry): Entry
  {
    Entry(r.id, r.taskId, r.date.GetOr(""), if sh.hasHours then r.hours else 0.0, r.description.GetOr(""),
          if sh.hasPaid then r.paid else false)
  }

  function NormEntries(sh: EntrySheet): (r: seq<Entry>)
    ensures |r| == |sh.rows|
    ensures forall i :: 0 <= i < |sh.rows| ==> r[i] == NormEntry(sh, sh.rows[i])
  {
    seq(|sh.rows|, i requires 0 <= i < |sh.rows| => NormEntry(sh, sh.rows[i]))
  }

  function LoadEntries(sh: EntrySheet): Result<seq<Entry>, LoadError>
  {
    if !sh.hasDescription then Failure(NoFillna("Description"))
    else if !sh.hasDate then Failure(NoFillna("Date"))
    else Success(NormEntries(sh))
  }

  /** load_data after the sheets are read, with `emptyClients` as the frame
      used for a missing Clients sheet. */
  function LoadWith(file: Option<Workbook>, emptyClients: ClientSheet): Result<Tables, LoadError>
  {
    var wb := file.GetOr(Workbook(None, None, None));
    match LoadClients(wb.clients.GetOr(emptyClients))
    case Failure(e) => Failure(e)
    case Success(clients) =>
      var tasks := LoadTasks(wb.tasks.GetOr(EmptyTasks));
      match LoadEntries(wb.entries.GetOr(EmptyEntries))
      case Failure(e) => Failure(e)
      case Success(entries) => Success(Tables(clients, tasks, entries))
  }

  /** load_data as written. */
  function LoadData(file: Option<Workbook>): Result<Tables, LoadError>
  {
    LoadWith(file, EmptyClients)
  }

  /** The empty Clients frame with the PaymentAmount column the rest of the
      program reads. */
  const EmptyClientsCorrected := ClientSheet(true, true, true, [])

  /** load_data as evidently intended: a missing Clients sheet is an empty
      table. */
  function LoadDataCorrected(file: Option<Workbook>): Result<Tables, LoadError>
  {
    LoadWith(file, EmptyClientsCorrected)
  }

  /** As written, the first start, before any workbook exists, fails with a
      KeyError on PaymentAmount, and so does a workbook without a Clients
      sheet. */
  lemma FreshInstallFails(file: Option<Workbook>)
    requires file.None? || file.value.clients.None?
    ensures LoadData(file) == Failure(KeyError("PaymentAmount"))
  {
  }

  /** Corrected, the first start loads three empty tables, and wherever the
      workbook has a Clients sheet nothing changes. */
  lemma CorrectedLoad(file: Option<Workbook>)
    ensures LoadDataCorrected(None) == Success(Tables([], [], []))
    ensures file.Some? && file.value.clients.Some? ==> LoadDataCorrected(file) == LoadData(file)
  {
  }

  /** A Clients row as save_data writes it; an empty text is an empty cell. */
  function Cell(s: string): Option<string>
  {
    if s == "" then None else Some(s)
  }

  function SaveClient(c: Client): RawClient
  {
    RawClient(c.id, c.name, Cell(c.parentId), Cell(c.paymentType), Some(c.paymentAmount))
  }

  function SaveTask(t: Task): RawTask
  {
    RawTask(t.id, t.clientId, t.description, t.createdDate, t.status, t.shortName)
  }

  function SaveEntry(e: Entry): RawEntry
  {
    RawEntry(e.id, e.taskId, Cell(e.date), e.hours, Cell(e.description), e.paid)
  }

  /** save_data: the three tables with all their columns. */
  function SaveData(t: Tables): Workbook
  {
    Workbook(
      Some(ClientSheet(true, true, true, seq(|t.clients|, i requires 0 <= i < |t.clients| => SaveClient(t.clients[i])))),
      Some(TaskSheet(true, true, true, seq(|t.tasks|, i requires 0 <= i < |t.tasks| => SaveTask(t.tasks[i])))),
      Some(EntrySheet(true, true, true, true, seq(|t.entries|, i requires 0 <= i < |t.entries| => SaveEntry(t.entries[i])))))
  }

  /** What save_data writes, load_data reads back unchanged, provided no
      client has an empty PaymentType (an empty cell would load as
      Hourly). */
  lemma SaveLoadRoundTrip(t: Tables)
    requires forall c :: c in t.clients ==> c.paymentType != ""
    ensures LoadData(Some(SaveData(t))) == Success(t)
  {
    var wb := SaveData(t);
    var cs := NormClients(wb.clients.value.rows);
    assert cs == t.clients by {
      forall i | 0 <= i < |cs|
        ensures cs[i] == t.clients[i]
      {
        assert t.clients[i] in t.clients;
      }
    }
    var ts := LoadTasks(wb.tasks.value);
    assert ts == t.tasks;
    var es := NormEntries(wb.entries.value);
    assert es == t.entries;
  }

  /** Loading fills every gap: a loaded client's missing parent is "", a
      missing rate is Hourly at 0.0, and a task without a Status column is
      Pending. */
  lemma LoadDefaults(file: Option<Workbook>, i: nat)
    requires LoadData(file).Success?
    ensures var wb := file.GetOr(Workbook(None, None, None));
      var sh := wb.clients.GetOr(EmptyClients);
      i < |sh.rows| ==>
        && LoadData(file).value.clients[i].parentId == sh.rows[i].parentId.GetOr("")
        && (sh.rows[i].paymentType.None? ==> LoadData(file).value.clients[i].paymentType == "Hourly")
        && (sh.rows[i].paymentAmount.None? ==> LoadData(file).value.clients[i].paymentAmount == 0.0)
    ensures var wb := file.GetOr(Workbook(None, None, None));
      var sh := wb.tasks.GetOr(EmptyTasks);
      i < |sh.rows| && !sh.hasStatus ==> LoadData(file).value.tasks[i].status == "Pending"
  {
  }
}
