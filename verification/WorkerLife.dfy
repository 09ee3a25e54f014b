/** The events of a worker's life, their effect on its flags, and what the main thread may conclude from the flags. */
module WorkerLife {
  datatype Flag = Child | Ready | Running | Joinable

  /** talk_init, one talk phase with its direction and role, talk_destroy, worker_task_exit. */
  datatype Event = Init | Talk(direction: nat, sender: bool) | Destroy | Exit

  const FORKED: set<Flag> := {Child, Ready}

  /** What an event does to the flags of the worker that performs it. */
  function Effect(flags: set<Flag>, ev: Event): set<Flag> {
    match ev
    case Init => flags + {Running}
    case Talk(_, _) => flags
    case Destroy => flags - {Running}
    case Exit => flags - {Running} + {Joinable}
  }

  /** A worker as the registry shows it. */
  datatype Entry = Entry(id: nat, flags: set<Flag>)

  /** How many workers have a flag. */
  function Having(list: seq<Entry>, flag: Flag): (n: nat)
    ensures n <= |list|
  {
    if list == [] then 0 else Having(list[1..], flag) + if flag in list[0].flags then 1 else 0
  }

  predicate AllHave(list: seq<Entry>, flag: Flag) { forall j :: 0 <= j < |list| ==> flag in list[j].flags }

  /** All workers have a flag exactly when their number has it. */
  lemma {:induction false} HavingAll(list: seq<Entry>, flag: Flag)
    ensures Having(list, flag) == |list| <==> AllHave(list, flag)
    decreases |list|
  {
    if list != [] {
      HavingAll(list[1..], flag);
      assert forall j :: 0 < j < |list| ==> list[j] == list[1..][j - 1];
    }
  }

  predicate Different(ids: seq<nat>) { forall k, l :: 0 <= k < l < |ids| ==> ids[k] != ids[l] }

  predicate Listed(list: seq<Entry>, id: nat) { exists j :: 0 <= j < |list| && list[j].id == id }

  /** The two flag asserts of a join hold for the worker. */
  predicate Stopped(w: Entry) { Running !in w.flags && Joinable in w.flags }

  /** What the join loop needs: the ids from the k-th on are those of all workers, each once, and every worker has stopped. */
  predicate JoinReady(list: seq<Entry>, ids: seq<nat>, k: nat) {
    && Different(ids) && k <= |ids| && |list| == |ids| - k
    && (forall l :: k <= l < |ids| ==> Listed(list, ids[l]))
    && (forall j :: 0 <= j < |list| ==> Stopped(list[j]))
  }

  lemma JoinSize(list: seq<Entry>, ids: seq<nat>, k: nat)
    requires JoinReady(list, ids, k)
    ensures k <= |ids| && |list| == |ids| - k
  {}

  function Except(list: seq<Entry>, j: nat): (r: seq<Entry>)
    requires j < |list|
    ensures |r| == |list| - 1 && forall i :: 0 <= i < |r| ==> r[i] == if i < j then list[i] else list[i + 1]
  {
    list[..j] + list[j + 1..]
  }

  /** The worker to be joined next has stopped, and without it the others are still ready to be joined. */
  lemma JoinNext(list: seq<Entry>, ids: seq<nat>, k: nat) returns (j: nat)
    requires JoinReady(list, ids, k) && k < |ids|
    ensures j < |list| && list[j].id == ids[k] && Stopped(list[j]) && JoinReady(Except(list, j), ids, k + 1)
  {
    assert Listed(list, ids[k]);
    j :| 0 <= j < |list| && list[j].id == ids[k];
    var rest := Except(list, j);
    forall l | k < l < |ids| ensures Listed(rest, ids[l]) {
      ListedExcept(list, j, ids[l]);
    }
  }

  lemma ListedExcept(list: seq<Entry>, j: nat, id: nat)
    requires j < |list| && Listed(list, id) && list[j].id != id
    ensures Listed(Except(list, j), id)
  {
    var m :| 0 <= m < |list| && list[m].id == id;
    assert Except(list, j)[if m < j then m else m - 1].id == id;
  }
}
