/**
  The worker registry: a doubly linked list with a static head, a thread-local lookup cache, the flags of each worker,
  and the loops that search it, count flags, combine reports and join the workers.
 */
module Registry {
  import opened TalkModel
  import opened WorkerLife
  import Reports

  class Current {
    const id: nat
    var flags: set<Flag>
    var results: seq<Record>  // report.results[0..2].collected
    var next: Current?
    var prev: Current?

    constructor (id: nat)
      ensures this.id == id && flags == {} && results == [EMPTY_RECORD, EMPTY_RECORD]
      ensures next == null && prev == null
    {
      this.id := id;
      flags, results := {}, [EMPTY_RECORD, EMPTY_RECORD];
      next, prev := null, null;
    }
  }

  /** The nodes are distinct and linked both ways, from a first node without predecessor to a last one without successor. */
  ghost predicate Linked(nodes: seq<Current>)
    reads nodes`next, nodes`prev
  {
    && (forall i, j :: 0 <= i < j < |nodes| ==> nodes[i] != nodes[j])
    && |nodes| > 0 && nodes[0].prev == null && nodes[|nodes| - 1].next == null
    && (forall i :: 0 <= i < |nodes| - 1 ==> nodes[i].next == nodes[i + 1])
    && (forall i :: 0 < i < |nodes| ==> nodes[i].prev == nodes[i - 1])
  }

  /** Ids are distinct; the head is no worker, all others are. */
  ghost predicate Labelled(nodes: seq<Current>)
    reads nodes`flags, nodes`results
  {
    Flagged(nodes) && Sized(nodes)
  }

  ghost predicate Flagged(nodes: seq<Current>)
    reads nodes`flags
  {
    && |nodes| > 0 && nodes[0].flags == {}
    && (forall i, j :: 0 <= i < j < |nodes| ==> nodes[i].id != nodes[j].id)
    && (forall i :: 0 < i < |nodes| ==> Child in nodes[i].flags)
  }

  /** Every node has a record for each direction. */
  ghost predicate Sized(nodes: seq<Current>)
    reads nodes`results
  {
    forall i :: 0 <= i < |nodes| ==> |nodes[i].results| == 2
  }

  /** What the registry shows of its nodes. */
  ghost function Entries(nodes: seq<Current>): (r: seq<Entry>)
    reads nodes`flags
    ensures |r| == |nodes| && forall i :: 0 <= i < |r| ==> r[i] == Entry(nodes[i].id, nodes[i].flags)
  {
    if nodes == [] then [] else [Entry(nodes[0].id, nodes[0].flags)] + Entries(nodes[1..])
  }

  /** The workers' records of direction d, in list order. */
  ghost function Records(nodes: seq<Current>, d: nat): (r: seq<Record>)
    requires d < 2 && forall i :: 0 <= i < |nodes| ==> |nodes[i].results| == 2
    reads nodes`results
    ensures |r| == |nodes| && forall i :: 0 <= i < |r| ==> r[i] == nodes[i].results[d]
  {
    if nodes == [] then [] else Records(nodes[..|nodes| - 1], d) + [nodes[|nodes| - 1].results[d]]
  }

  /** The nodes of a list without the k-th one. */
  ghost function Without(nodes: seq<Current>, k: nat): seq<Current>
    requires k < |nodes|
  {
    nodes[..k] + nodes[k + 1..]
  }

  /** The nodes of a list with one more behind the head. */
  ghost function With(nodes: seq<Current>, c: Current): (r: seq<Current>)
    requires |nodes| > 0
    ensures |r| == |nodes| + 1 && r[0] == nodes[0]
  {
    [nodes[0], c] + nodes[1..]
  }

  lemma LabelledWith(nodes: seq<Current>, c: Current)
    requires Labelled(nodes) && Child in c.flags && |c.results| == 2
    requires forall i :: 0 <= i < |nodes| ==> nodes[i].id != c.id
    ensures Labelled(With(nodes, c))
  {}

  lemma LabelledWithout(nodes: seq<Current>, k: nat)
    requires Labelled(nodes) && 0 < k < |nodes|
    ensures Labelled(Without(nodes, k))
  {}

  /** Links a new node behind the head. */
  method Insert(head: Current, c: Current, ghost nodes: seq<Current>)
    requires Linked(nodes) && head == nodes[0] && c !in nodes && Labelled(With(nodes, c))
    modifies nodes`next, nodes`prev, c`next, c`prev
    ensures Linked(With(nodes, c)) && Labelled(With(nodes, c))
  {
    c.prev := head;
    c.next := head.next;
    if c.next != null {
      assert c.next == nodes[1];
      c.next.prev := c;
    }
    head.next := c;
  }

  /** Takes a node other than the head out of the links. */
  method Unlink(c: Current, ghost nodes: seq<Current>, ghost k: nat)
    requires Linked(nodes) && 0 < k < |nodes| && c == nodes[k] && Labelled(Without(nodes, k))
    modifies nodes`next, nodes`prev
    ensures Linked(Without(nodes, k)) && Labelled(Without(nodes, k))
  {
    hide Labelled, Flagged, Sized;
    assert c.prev == nodes[k - 1];
    if c.prev != null && c.next != null {
      assert c.next == nodes[k + 1];
      c.prev.next := c.next;
      c.next.prev := c.prev;
    } else if c.prev != null {
      c.prev.next := null;
    } else {
      assert false;
    }
  }

  /** Every cached node is the one with the id of the thread that looked it up. */
  ghost predicate CacheFits(cache: map<nat, Current>, nodes: seq<Current>) {
    forall w :: w in cache ==> exists i :: 0 < i < |nodes| && nodes[i] == cache[w] && nodes[i].id == w
  }

  lemma CacheWith(cache: map<nat, Current>, nodes: seq<Current>, c: Current)
    requires CacheFits(cache, nodes) && |nodes| > 0
    ensures CacheFits(cache, With(nodes, c))
  {
    forall w | w in cache ensures exists i :: 0 < i < |nodes| + 1 && With(nodes, c)[i] == cache[w] && With(nodes, c)[i].id == w {
      var i :| 0 < i < |nodes| && nodes[i] == cache[w] && nodes[i].id == w;
      assert With(nodes, c)[i + 1] == nodes[i];
    }
  }

  lemma CacheWithout(cache: map<nat, Current>, nodes: seq<Current>, k: nat)
    requires CacheFits(cache, nodes) && 0 < k < |nodes|
    ensures CacheFits(cache - {nodes[k].id}, Without(nodes, k))
  {
    var rest, left := Without(nodes, k), cache - {nodes[k].id};
    forall w | w in left ensures exists i :: 0 < i < |rest| && rest[i] == left[w] && rest[i].id == w {
      var i :| 0 < i < |nodes| && nodes[i] == cache[w] && nodes[i].id == w;
      assert rest[if i < k then i else i - 1] == nodes[i];
    }
  }

  /** The workers still hold the given records. */
  ghost predicate Holding(records: seq<seq<Record>>, nodes: seq<Current>)
    reads nodes`results
  {
    && |records| == 2 && |records[0]| == |records[1]| == |nodes| - 1
    && forall i :: 0 < i < |nodes| ==> nodes[i].results == [records[0][i - 1], records[1][i - 1]]
  }

  class Table {
    const head: Current
    ghost var nodes: seq<Current>
    var cache: map<nat, Current>  // by the thread that looked up; the main thread has no entry

    ghost predicate Valid()
      reads this, nodes
    {
      |nodes| > 0 && nodes[0] == head && Linked(nodes) && Labelled(nodes) && CacheFits(cache, nodes)
    }

    constructor (main: nat)
      ensures Valid() && fresh(nodes) && |nodes| == 1 && head.id == main && cache == map[]
      ensures head.results == [EMPTY_RECORD, EMPTY_RECORD]
    {
      var c := new Current(main);
      head := c;
      nodes, cache := [c], map[];
    }

    /** A new worker is linked behind the head. */
    method Fork(id: nat) returns (c: Current)
      requires Valid() && forall i :: 0 <= i < |nodes| ==> nodes[i].id != id
      modifies this`nodes, nodes`next, nodes`prev
      ensures Valid() && fresh(c) && nodes == With(old(nodes), c)
      ensures c.id == id && c.flags == FORKED == {Child, Ready} && c.results == [EMPTY_RECORD, EMPTY_RECORD]
    {
      hide Linked, Labelled, CacheFits, With;
      c := new Current(id);
      c.flags := FORKED;
      ghost var all := With(nodes, c);
      LabelledWith(nodes, c);
      CacheWith(cache, nodes, c);
      Insert(head, c, nodes);
      nodes := all;
    }

    /** The linear search of current_get and current_join. */
    method Search(id: nat) returns (c: Current?)
      requires Valid()
      ensures if c != null then c in nodes && c.id == id else forall n :: n in nodes ==> n.id != id
    {
      c := head;
      ghost var i := 0;
      while c != null && c.id != id
        invariant 0 <= i <= |nodes|
        invariant c == if i < |nodes| then nodes[i] else null
        invariant forall j :: 0 <= j < i ==> nodes[j].id != id
        decreases |nodes| - i
      {
        c := c.next;
        i := i + 1;
      }
    }

    /** A thread looks itself up; a worker's first search is cached for its next ones. Either way it gets the node with its id. */
    method Get(me: nat) returns (c: Current)
      requires Valid() && exists n :: n in nodes && n.id == me
      modifies `cache
      ensures Valid() && c in nodes && c.id == me
      ensures cache == if me == head.id then old(cache) else old(cache)[me := c]
    {
      if me != head.id && me in cache {
        c := cache[me];
        return;
      }
      var found := Search(me);
      c := found;
      if me != head.id { cache := cache[me := c]; }
    }

    /** worker_task_running_set, by the worker itself. */
    method RunningSet(c: Current)
      requires Valid() && c in nodes && c != head
      modifies c`flags
      ensures Valid() && c.flags == Effect(old(c.flags), Init) == old(c.flags) + {Running}
    {
      c.flags := c.flags + {Running};
    }

    /** worker_task_running_unset, by the worker itself. */
    method RunningUnset(c: Current)
      requires Valid() && c in nodes && c != head
      modifies c`flags
      ensures Valid() && c.flags == Effect(old(c.flags), Destroy) == old(c.flags) - {Running}
    {
      c.flags := c.flags - {Running};
    }

    /** worker_task_exit, by the worker itself. */
    method TaskExit(c: Current)
      requires Valid() && c in nodes && c != head
      modifies c`flags
      ensures Valid() && c.flags == Effect(old(c.flags), Exit) == old(c.flags) - {Running} + {Joinable}
    {
      c.flags := c.flags - {Running};
      c.flags := c.flags + {Joinable};
    }

    // Takes the k-th node out of the list and its id out of the cache.
    method Remove(c: Current, ghost k: nat)
      requires Valid() && 0 < k < |nodes| && nodes[k] == c
      modifies this`nodes, this`cache, nodes`next, nodes`prev
      ensures Valid() && nodes == Without(old(nodes), k) && cache == old(cache) - {c.id}
    {
      ghost var rest := Without(nodes, k);
      assert rest[0] == head;
      LabelledWithout(nodes, k);
      CacheWithout(cache, nodes, k);
      hide Linked, Without, Labelled, CacheFits;
      Unlink(c, nodes, k);
      cache := cache - {c.id};
      nodes := rest;
    }

    /** Removes exactly the named worker, the k-th of the list, which must have stopped. */
    method Join(id: nat, self: nat, ghost k: nat)
      requires Valid() && 0 < k < |nodes| && nodes[k].id == id != self && Running !in nodes[k].flags && Joinable in nodes[k].flags
      modifies this`nodes, this`cache, nodes`next, nodes`prev
      ensures Valid() && nodes == Without(old(nodes), k) && cache == old(cache) - {id}
    {
      var c := Search(id);
      assert c == nodes[k];
      hide Linked, Without, Labelled, CacheFits;
      Remove(c, k);
    }

    /** True exactly when at least `count` workers have the flag; the loop skips the head and stops early. */
    method ChildrenHaveFlag(flag: Flag, count: nat) returns (r: bool)
      requires Valid() && count > 0
      ensures r <==> Having(Entries(nodes[1..]), flag) >= count
    {
      hide Having, Entries, CacheFits, Sized;
      ghost var list := Entries(nodes[1..]);
      var c: Current? := head;
      var left := count;
      ghost var i := 0;
      assert list[0..] == list;
      while c != null && left > 0
        invariant 0 <= i <= |nodes| && (i < |nodes| ==> c == nodes[i]) && (i == |nodes| ==> c == null)
        invariant Having(list, flag) >= count <==> Having(list[Passed(i)..], flag) >= left
        decreases |nodes| - i
      {
        if i > 0 {
          assert list[i - 1] == Entry(c.id, c.flags);
          HavingFrom(list, flag, i - 1);
        }
        if Child in c.flags && flag in c.flags { left := left - 1; }
        c := c.next;
        i := i + 1;
      }
      if left > 0 { HavingNothing(list[Passed(i)..], flag); }
      return left == 0;
    }

    // Applies one combining step to both of the head's records.
    method MergeResults(results: seq<Record>)
      requires |head.results| == 2 && |results| == 2
      modifies head`results
      ensures head.results == [Reports.Merge(old(head.results[0]), results[0]), Reports.Merge(old(head.results[1]), results[1])]
    {
      var j := 0;
      while j < 2
        invariant 0 <= j <= 2 && |head.results| == 2
        invariant forall d :: 0 <= d < 2 ==>
                    head.results[d] == if d < j then Reports.Merge(old(head.results[d]), results[d]) else old(head.results[d])
      {
        head.results := head.results[j := Reports.Merge(head.results[j], results[j])];
        j := j + 1;
      }
    }

    // Divides both of the head's latencies.
    method AverageResults(share: nat)
      requires |head.results| == 2 && share > 0
      modifies head`results
      ensures |head.results| == 2
      ensures forall d :: 0 <= d < 2 ==> head.results[d] == old(head.results[d]).(latency := old(head.results[d]).latency / share)
    {
      var j := 0;
      while j < 2
        invariant 0 <= j <= 2 && |head.results| == 2
        invariant forall d :: 0 <= d < 2 ==>
                    head.results[d] == var r := old(head.results[d]); if d < j then r.(latency := r.latency / share) else r
      {
        head.results := head.results[j := head.results[j].(latency := head.results[j].latency / share)];
        j := j + 1;
      }
    }

    // The first loop of report_worker_combine: over the list and both directions; n is the number of workers.
    method MergeAll(ghost records: seq<seq<Record>>) returns (n: nat)
      requires Valid() && Holding(records, nodes)
      modifies head`results
      ensures |head.results| == 2 && n == |nodes| - 1
      ensures head.results == [Reports.Merged(old(head.results[0]), records[0]), Reports.Merged(old(head.results[1]), records[1])]
    {
      ghost var was := head.results;
      MergedNothing(was[0], records[0]);
      MergedNothing(was[1], records[1]);
      hide Reports.Merged, Reports.Merge, CacheFits, Labelled;
      var c := head.next;
      n := 0;
      while c != null
        invariant 0 <= n < |nodes| && (n + 1 < |nodes| ==> c == nodes[n + 1]) && (n + 1 == |nodes| ==> c == null)
        invariant |head.results| == 2 && Holding(records, nodes)
        invariant head.results == [Reports.Merged(was[0], records[0][..n]), Reports.Merged(was[1], records[1][..n])]
        decreases |nodes| - n
      {
        MergedSnoc(was[0], records[0], n);
        MergedSnoc(was[1], records[1], n);
        MergeResults(c.results);
        c := c.next;
        n := n + 1;
      }
      assert records[0][..n] == records[0] && records[1][..n] == records[1];
    }

    /** report_worker_combine: the head's record of each direction becomes the combination of the workers' records. */
    method CombineReports(asynchronous: bool)
      requires Valid() && (asynchronous ==> |nodes| != 2)
      modifies head`results
      ensures Valid()
      ensures forall d :: 0 <= d < 2 ==>
                head.results[d] == Reports.Combined(asynchronous, old(head.results[d]), old(Records(nodes[1..], d)))
    {
      ghost var records := [Records(nodes[1..], 0), Records(nodes[1..], 1)];
      assert Holding(records, nodes);
      hide Linked, CacheFits, Records, Reports.Merged, Flagged;
      var n := MergeAll(records);
      if n > 0 { AverageResults(Reports.Share(asynchronous, n)); }
      assert Sized(nodes);
      hide Holding, Sized;
      assert |records[0]| == |records[1]| == n;
    }

    /** The nodes of the list, as a set. */
    ghost function Cells(): set<Current>
      reads this`nodes
    {
      set n | n in nodes
    }

    /** The workers are those of the first n thread ids, newest first. */
    ghost predicate Numbered(ids: seq<nat>, n: nat)
      reads this`nodes
    {
      n <= |ids| && |nodes| == n + 1 && forall j :: 0 < j < |nodes| ==> nodes[j].id == ids[n - j]
    }

    // One round of a start loop.
    method StartNext(tid: array<nat>, ids: seq<nat>, i: nat)
      requires Valid() && Numbered(ids, i) && i < |ids| == tid.Length && tid[..i] == ids[..i]
      requires Different(ids) && head.id !in ids
      modifies this`nodes, nodes`next, nodes`prev, tid
      ensures Valid() && Numbered(ids, i + 1) && tid[..i + 1] == ids[..i + 1]
      ensures fresh(nodes[1]) && nodes[1].flags == FORKED && nodes == With(old(nodes), nodes[1])
    {
      assert forall j :: 0 <= j < |nodes| ==> nodes[j].id != ids[i];
      hide Linked, Labelled, CacheFits;
      var c := Fork(ids[i]);
      tid[i] := ids[i];
    }

    /** A start loop of runtime_do: one new worker for each thread id of its group, newest first, remembered for the join
        loop; the workers already there stay as they are. */
    method StartGroup(tid: array<nat>, ids: seq<nat>, from: nat, to: nat) returns (ghost group: seq<Current>)
      requires Valid() && Numbered(ids, from) && from <= to <= |ids| == tid.Length && tid[..from] == ids[..from]
      requires Different(ids) && head.id !in ids
      modifies this`nodes, nodes`next, nodes`prev, tid
      ensures Valid() && Numbered(ids, to) && tid[..to] == ids[..to]
      ensures |group| == to - from && nodes == [head] + group + old(nodes)[1..]
      ensures forall n :: n in group ==> fresh(n) && n.flags == {Child, Ready}
    {
      group := [];
      ghost var rest := nodes[1..];
      assert nodes == [head] + group + rest;
      hide Valid, Numbered, Different;
      var i := from;
      while i < to
        invariant from <= i <= to && Valid() && Numbered(ids, i) && tid[..i] == ids[..i]
        invariant |group| == i - from && nodes == [head] + group + rest
        invariant forall n :: n in group ==> fresh(n) && n.flags == FORKED
      {
        StartNext(tid, ids, i);
        GroupWith(head, group, rest, nodes[1]);
        group := [nodes[1]] + group;
        i := i + 1;
      }
    }

    // One round of the join loop.
    method JoinNext(id: nat, ghost ids: seq<nat>, ghost i: nat)
      requires Valid() && i < |ids| && id == ids[i] && JoinReady(Entries(nodes[1..]), ids, i)
      modifies this`nodes, this`cache, Cells()`next, Cells()`prev
      ensures Valid() && |nodes| == old(|nodes|) - 1 > 0 && nodes[0] == head && JoinReady(Entries(nodes[1..]), ids, i + 1)
      ensures Cells() <= old(Cells())
    {
      hide Linked, CacheFits, Entries, JoinReady, Labelled, Flagged, Sized;
      ghost var at := NodeToJoin(nodes, ids, i);
      ghost var rest := Without(nodes, at)[1..];
      WithoutWithin(nodes, at);
      hide Without;
      Join(id, head.id, at);
      assert nodes[1..] == rest && Entries(rest) == old(Entries(rest));
    }

    /** The join loop of runtime_do: when all workers have stopped, every join is legal and only the head is left. */
    method JoinAll(tid: array<nat>)
      requires Valid() && JoinReady(Entries(nodes[1..]), tid[..], 0)
      modifies this`nodes, this`cache, Cells()`next, Cells()`prev
      ensures Valid() && nodes == [head]
    {
      ghost var ids := tid[..];
      assert nodes[0] == head;
      hide *;
      var i := 0;
      while i < tid.Length
        invariant 0 <= i <= tid.Length && Valid()
        invariant |nodes| > 0 && nodes[0] == head && JoinReady(Entries(nodes[1..]), ids, i)
        invariant Cells() <= old(Cells())
      {
        JoinNext(tid[i], ids, i);
        i := i + 1;
      }
      JoinSize(Entries(nodes[1..]), ids, i);
    }
  }

  // How many workers the search has passed when it stands at the i-th node.
  ghost function Passed(i: nat): nat { if i == 0 then 0 else i - 1 }

  lemma HavingFrom(list: seq<Entry>, flag: Flag, k: nat)
    requires k < |list|
    ensures Having(list[k..], flag) == Having(list[k + 1..], flag) + if flag in list[k].flags then 1 else 0
  {
    assert list[k..][1..] == list[k + 1..];
  }

  lemma HavingNothing(list: seq<Entry>, flag: Flag)
    ensures list == [] ==> Having(list, flag) == 0
  {}

  lemma GroupWith(head: Current, group: seq<Current>, rest: seq<Current>, c: Current)
    ensures With([head] + group + rest, c) == [head] + ([c] + group) + rest
  {}

  lemma WithoutWithin(nodes: seq<Current>, at: nat)
    requires at < |nodes|
    ensures forall n :: n in Without(nodes, at) ==> n in nodes
  {}

  // Where the worker to be joined next stands in the list of nodes.
  lemma NodeToJoin(nodes: seq<Current>, ids: seq<nat>, i: nat) returns (at: nat)
    requires Labelled(nodes) && JoinReady(Entries(nodes[1..]), ids, i) && i < |ids|
    ensures 0 < at < |nodes| && nodes[at].id == ids[i] != nodes[0].id && Running !in nodes[at].flags && Joinable in nodes[at].flags
    ensures |Without(nodes, at)| == |nodes| - 1 && JoinReady(Entries(Without(nodes, at)[1..]), ids, i + 1)
  {
    var list := Entries(nodes[1..]);
    var j := JoinNext(list, ids, i);
    at := j + 1;
    assert nodes[1..][j] == nodes[at];
    EntriesWithout(nodes, at);
  }

  lemma EntriesWithout(nodes: seq<Current>, at: nat)
    requires 0 < at < |nodes|
    ensures Entries(Without(nodes, at)[1..]) == Except(Entries(nodes[1..]), at - 1)
  {
    var rest := Without(nodes, at)[1..];
    forall k | 0 <= k < |rest| ensures rest[k] == nodes[1..][if k < at - 1 then k else k + 1] {}
    hide Entries, Without;
  }

  lemma MergedNothing(a: Record, rs: seq<Record>)
    ensures Reports.Merged(a, rs[..0]) == a
  {}

  lemma {:induction false} MergedSnoc(a: Record, rs: seq<Record>, i: nat)
    requires i < |rs|
    ensures Reports.Merged(a, rs[..i + 1]) == Reports.Merge(Reports.Merged(a, rs[..i]), rs[i])
    decreases i
  {
    if i == 0 {
      assert rs[..1][1..] == [];
    } else {
      MergedSnoc(Reports.Merge(a, rs[0]), rs[1..], i - 1);
      assert rs[1..][..i] == rs[..i + 1][1..] && rs[1..][..i - 1] == rs[..i][1..];
    }
  }
}
