/// The three tables of the freelance organizer (Clients, Tasks, Timesheet)
/// as typed records, and the id lookups that the left merges perform.
module Records {

  datatype Option<T> = None | Some(value: T) {
    /** The value, or `default` when there is none. */
    function GetOr(default: T): T
    {
      match this
      case Some(v) => v
      case None => default
    }
  }

  datatype Result<T, E> = Success(value: T) | Failure(error: E)

  /** A row of the Clients sheet. An empty `parentId` marks a top-level client. */
  datatype Client = Client(id: string, name: string, parentId: string, paymentType: string, paymentAmount: real)

  /** A Tasks sheet row. */
  datatype Task = Task(id: string, clientId: string, description: string, createdDate: string, status: string, shortName: string)

  /** A row of the Timesheet sheet. */
  datatype Entry = Entry(id: string, taskId: string, date: string, hours: real, description: string, paid: bool)

  /** The three sheets together, as load_data returns them. */
  datatype Tables = Tables(clients: seq<Client>, tasks: seq<Task>, entries: seq<Entry>)

  /** Which Tasks row a timesheet row refers to (the first with that id). */
  function FindTask(tasks: seq<Task>, id: string): (r: Option<Task>)
    ensures r.Some? ==> r.value in tasks && r.value.id == id
    ensures r.None? <==> forall t :: t in tasks ==> t.id != id
  {
    if |tasks| == 0 then None
    else if tasks[0].id == id then Some(tasks[0])
    else FindTask(tasks[1..], id)
  }

  /** The client a task or a lookup refers to (the first with that id). */
  function FindClient(clients: seq<Client>, id: string): (r: Option<Client>)
    ensures r.Some? ==> r.value in clients && r.value.id == id
    ensures r.None? <==> forall c :: c in clients ==> c.id != id
  {
    if |clients| == 0 then None
    else if clients[0].id == id then Some(clients[0])
    else FindClient(clients[1..], id)
  }

  /** name_map.get(id, default): the client's name, or `default` for an id
      no client has. */
  function NameOr(clients: seq<Client>, id: string, default: string): string
  {
    match FindClient(clients, id)
    case Some(c) => c.name
    case None => default
  }

  /** No two clients share an id (every id comes from a fresh uuid). */
  predicate UniqueClientIds(clients: seq<Client>)
  {
    forall i, j :: 0 <= i < j < |clients| ==> clients[i].id != clients[j].id
  }

  predicate UniqueTaskIds(tasks: seq<Task>)
  {
    forall i, j :: 0 <= i < j < |tasks| ==> tasks[i].id != tasks[j].id
  }

  predicate UniqueEntryIds(entries: seq<Entry>)
  {
    forall i, j :: 0 <= i < j < |entries| ==> entries[i].id != entries[j].id
  }

  /** With unique ids, the lookup finds the one record that has the id. */
  lemma FindClientUnique(clients: seq<Client>, c: Client)
    requires UniqueClientIds(clients) && c in clients
    ensures FindClient(clients, c.id) == Some(c)
  {
    var k :| 0 <= k < |clients| && clients[k] == c;
    var r := FindClient(clients, c.id);
    var j :| 0 <= j < |clients| && clients[j] == r.value;
    assert j == k;
  }
}
