/// The two-level client hierarchy: top-level clients (empty ParentID), the
/// children map of monthly_summary and the find_parent resolver of the
/// timesheet view.
module Hierarchy {
  import opened Records
  import opened Keys

  /** The top-level clients in table order (parent_ids, and the parent
      choices offered when a client is added). */
  function TopLevel(clients: seq<Client>): (r: seq<Client>)
    ensures |r| <= |clients|
    ensures forall c :: c in r <==> c in clients && c.parentId == ""
  {
    if |clients| == 0 then []
    else
      var init, last := clients[..|clients| - 1], clients[|clients| - 1];
      assert clients == init + [last];
      TopLevel(init) + (if last.parentId == "" then [last] else [])
  }

  /** Selecting the top-level clients of two stretches of the table, one
      after the other, is selecting them from the whole table. */
  lemma {:induction false} TopLevelAppend(a: seq<Client>, b: seq<Client>)
    ensures TopLevel(a + b) == TopLevel(a) + TopLevel(b)
    decreases |b|
  {
    if |b| == 0 {
      assert a + b == a;
    } else {
      var init, last := b[..|b| - 1], b[|b| - 1];
      assert b == init + [last];
      var tail := if last.parentId == "" then [last] else [];
      assert (a + b)[..|a + b| - 1] == a + init && (a + b)[|a + b| - 1] == last;
      assert TopLevel(a + b) == TopLevel(a + init) + tail;
      assert TopLevel(b) == TopLevel(init) + tail;
      TopLevelAppend(a, init);
      ConcatAssoc(TopLevel(a), TopLevel(init), tail);
    }
  }

  /** The top-level client at table position i comes after exactly the
      top-level clients before it: the selection keeps table order. */
  lemma TopLevelRank(clients: seq<Client>, i: nat)
    requires i < |clients| && clients[i].parentId == ""
    ensures |TopLevel(clients[..i])| < |TopLevel(clients)|
    ensures TopLevel(clients)[|TopLevel(clients[..i])|] == clients[i]
  {
    assert clients == clients[..i] + ([clients[i]] + clients[i + 1..]);
    TopLevelAppend(clients[..i], [clients[i]] + clients[i + 1..]);
    TopLevelAppend([clients[i]], clients[i + 1..]);
    assert [clients[i]] == [] + [clients[i]];
  }

  function Ids(cs: seq<Client>): (r: seq<string>)
    ensures |r| == |cs|
    ensures forall i :: 0 <= i < |cs| ==> r[i] == cs[i].id
  {
    seq(|cs|, i requires 0 <= i < |cs| => cs[i].id)
  }

  /** `c` is in children[p]: some client with id `c` names `p` as its
      (non-empty) ParentID. */
  predicate ChildOf(clients: seq<Client>, c: string, p: string)
  {
    p != "" && exists k :: k in clients && k.id == c && k.parentId == p
  }

  /** find_parent: the client's ParentID when it is non-empty, otherwise the
      client's own id; an id that no client has also maps to itself. */
  function FindParent(clients: seq<Client>, cid: string): (r: string)
    ensures FindClient(clients, cid).Some? && FindClient(clients, cid).value.parentId != "" ==>
      r == FindClient(clients, cid).value.parentId
    ensures FindClient(clients, cid).None? || FindClient(clients, cid).value.parentId == "" ==> r == cid
  {
    match FindClient(clients, cid)
    case Some(c) => if c.parentId != "" then c.parentId else cid
    case None => cid
  }

  /** Every non-empty ParentID names a top-level client: the hierarchy has
      exactly two levels. */
  ghost predicate TwoLevel(clients: seq<Client>)
  {
    forall k :: k in clients && k.parentId != "" ==>
      exists q :: q in clients && q.id == k.parentId && q.parentId == ""
  }

  /** The ids of the top-level clients are distinct when all ids are. */
  lemma {:induction false} TopLevelIdsDistinct(clients: seq<Client>)
    requires UniqueClientIds(clients)
    ensures Distinct(Ids(TopLevel(clients)))
    decreases |clients|
  {
    if |clients| > 0 {
      var init, last := clients[..|clients| - 1], clients[|clients| - 1];
      assert UniqueClientIds(init);
      TopLevelIdsDistinct(init);
      var t := TopLevel(init);
      forall k | k in t
        ensures k.id != last.id
      {
        var i :| 0 <= i < |init| && init[i] == k;
        assert clients[i] == k;
      }
      var ids := Ids(t + (if last.parentId == "" then [last] else []));
      forall i, j | 0 <= i < j < |ids|
        ensures ids[i] != ids[j]
      {
        if j == |t| {
          assert ids[i] == t[i].id && t[i] in t;
        } else {
          assert ids[i] == Ids(t)[i] && ids[j] == Ids(t)[j];
        }
      }
    }
  }

  /** The monthly rollup and the timesheet view agree on the hierarchy: for a
      top-level client p, find_parent yields p exactly for p itself and for
      the clients listed in children[p]. */
  lemma FindParentOfFamily(clients: seq<Client>, c: string, p: Client)
    requires UniqueClientIds(clients) && p in clients && p.parentId == ""
    ensures FindParent(clients, c) == p.id <==> c == p.id || ChildOf(clients, c, p.id)
  {
    FindClientUnique(clients, p);
    if ChildOf(clients, c, p.id) {
      var k :| k in clients && k.id == c && k.parentId == p.id;
      FindClientUnique(clients, k);
    }
  }

  /** In a two-level hierarchy find_parent always lands on a top-level
      client or on an unknown id, so applying it twice changes nothing. */
  lemma FindParentIdempotent(clients: seq<Client>, c: string)
    requires UniqueClientIds(clients) && TwoLevel(clients)
    ensures FindParent(clients, FindParent(clients, c)) == FindParent(clients, c)
  {
    match FindClient(clients, c)
    case None =>
    case Some(k) =>
      if k.parentId != "" {
        var q :| q in clients && q.id == k.parentId && q.parentId == "";
        FindClientUnique(clients, q);
      }
  }

  /** In a two-level hierarchy every known client resolves to a top-level
      client. */
  lemma FindParentIsTopLevel(clients: seq<Client>, cid: string)
    requires UniqueClientIds(clients) && TwoLevel(clients)
    requires exists k :: k in clients && k.id == cid
    ensures FindParent(clients, cid) in Ids(TopLevel(clients))
  {
    var k :| k in clients && k.id == cid;
    FindClientUnique(clients, k);
    var top := TopLevel(clients);
    var q := k;
    if k.parentId != "" {
      q :| q in clients && q.id == k.parentId && q.parentId == "";
    }
    assert q in top;
    var i :| 0 <= i < |top| && top[i] == q;
    assert Ids(top)[i] == q.id;
  }
}
