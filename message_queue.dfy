/** The in-memory, per-SIM outbound command queue that devices drain by polling.
    Each SIM number maps to its pending commands in arrival order; a list never
    holds more than `Capacity` commands, the oldest being dropped first. */
module MessageQueueService {
  import opened Js
  import opened Models

  /** The most commands a SIM's list retains. */
  const Capacity: nat := 20

  /** A queued command with the time it was queued. */
  datatype QueuedMessage = QueuedMessage(message: string, timestamp: Time)

  /** `list.slice(-Capacity)` when the list is longer than `Capacity`: the
      latest `Capacity` entries, in their original order. */
  function KeepLatest<T>(l: seq<T>): seq<T>
  {
    if |l| > Capacity then l[|l| - Capacity..] else l
  }

  /** A SIM's list after one more command is pushed and the list is cut back. */
  function Appended<T>(l: seq<T>, x: T): (r: seq<T>)
    requires |l| <= Capacity
    ensures |r| <= Capacity
  {
    KeepLatest(l + [x])
  }

  /** A push onto a list with room appends; a push onto a full list drops
      the oldest command. Either way the new command is last. */
  lemma AppendedSpec<T>(l: seq<T>, x: T)
    requires |l| <= Capacity
    ensures var r := Appended(l, x);
            r != [] && r[|r| - 1] == x
            && (|l| < Capacity ==> r == l + [x])
            && (|l| == Capacity ==> r == l[1..] + [x])
  {
  }

  /** A list after the commands of `xs` are pushed one by one. */
  function EnqueueAll<T>(l: seq<T>, xs: seq<T>): seq<T>
    requires |l| <= Capacity
    decreases |xs|
  {
    if xs == [] then l else EnqueueAll(Appended(l, xs[0]), xs[1..])
  }

  /** Cutting back early loses nothing that cutting back late would keep. */
  lemma KeepLatestAbsorbs<T>(a: seq<T>, b: seq<T>)
    ensures KeepLatest(KeepLatest(a) + b) == KeepLatest(a + b)
  {
    var k := KeepLatest(a);
    var d := |a| - |k|;
    assert k + b == (a + b)[d..];
    var r1, r2 := KeepLatest(k + b), KeepLatest(a + b);
    assert |r1| == |r2|;
    forall i | 0 <= i < |r1| ensures r1[i] == r2[i] {
      assert r1[i] == (k + b)[|k + b| - |r1| + i];
      assert r2[i] == (a + b)[|a + b| - |r2| + i];
    }
  }

  /** Any run of pushes onto a list leaves exactly the latest `Capacity`
      commands of the old list followed by the pushed ones, in order. */
  lemma {:induction false} EnqueueAllKeepsLatest<T>(l: seq<T>, xs: seq<T>)
    requires |l| <= Capacity
    ensures EnqueueAll(l, xs) == KeepLatest(l + xs)
    decreases |xs|
  {
    if xs == [] {
      assert l + xs == l;
    } else {
      var l' := Appended(l, xs[0]);
      EnqueueAllKeepsLatest(l', xs[1..]);
      calc {
        EnqueueAll(l, xs);
        EnqueueAll(l', xs[1..]);
        KeepLatest(KeepLatest(l + [xs[0]]) + xs[1..]);
        { KeepLatestAbsorbs(l + [xs[0]], xs[1..]); }
        KeepLatest(l + [xs[0]] + xs[1..]);
        { assert l + [xs[0]] + xs[1..] == l + xs; }
        KeepLatest(l + xs);
      }
    }
  }

  /** Starting from no entry, the queue holds the last `Capacity` commands pushed. */
  lemma {:induction false} EnqueueFromEmpty<T>(xs: seq<T>)
    ensures EnqueueAll([], xs) == if |xs| <= Capacity then xs else xs[|xs| - Capacity..]
  {
    var empty: seq<T> := [];
    assert empty + xs == xs;
    EnqueueAllKeepsLatest(empty, xs);
  }

  class MessageQueue {
    /** SIM number to its pending commands, oldest first. */
    var queue: map<string, seq<QueuedMessage>>

    ghost predicate Valid()
      reads this
    {
      forall sim :: sim in queue ==> |queue[sim]| <= Capacity
    }

    /** The commands pending for `sim`: none when it has no entry. */
    function Pending(sim: string): (l: seq<QueuedMessage>)
      reads this
      requires Valid()
      ensures |l| <= Capacity
    {
      if sim in queue then queue[sim] else []
    }

    constructor ()
      ensures Valid() && queue == map[]
    {
      queue := map[];
    }

    /** Queues `message` for `sim`, timestamped `now`; false, and no change,
        when `sim` is empty. */
    method AddMessage(sim: string, message: string, now: Time) returns (ok: bool)
      requires Valid()
      modifies this
      ensures Valid()
      ensures ok <==> Truthy(sim)
      ensures ok ==> queue == old(queue)[sim := Appended(old(Pending(sim)), QueuedMessage(message, now))]
      ensures !ok ==> queue == old(queue)
    {
      if !Truthy(sim) {
        return false;
      }
      if sim !in queue {
        queue := queue[sim := []];
      }
      queue := queue[sim := queue[sim] + [QueuedMessage(message, now)]];
      var messages := queue[sim];
      if |messages| > Capacity {
        queue := queue[sim := messages[|messages| - Capacity..]];
      }
      return true;
    }

    /** The pending commands of `sim`, oldest first; nothing for an empty or
        unknown SIM. */
    method GetMessages(sim: string) returns (messages: seq<QueuedMessage>)
      requires Valid()
      ensures |messages| <= Capacity
      ensures messages == if Truthy(sim) && sim in queue then queue[sim] else []
    {
      if !Truthy(sim) {
        return [];
      }
      messages := if sim in queue then queue[sim] else [];
    }

    /** Empties the list of a known SIM and answers true; answers false and
        changes nothing for an empty or unknown SIM. */
    method ClearMessages(sim: string) returns (ok: bool)
      requires Valid()
      modifies this
      ensures Valid()
      ensures ok <==> Truthy(sim) && sim in old(queue)
      ensures queue == if ok then old(queue)[sim := []] else old(queue)
    {
      if !Truthy(sim) {
        return false;
      }
      if sim in queue {
        queue := queue[sim := []];
        return true;
      }
      return false;
    }

    /** Whether a poll by `sim` would find commands. */
    method HasMessages(sim: string) returns (has: bool)
      ensures has <==> Truthy(sim) && sim in queue && |queue[sim]| > 0
    {
      if !Truthy(sim) {
        return false;
      }
      has := sim in queue && |queue[sim]| > 0;
    }
  }
}
