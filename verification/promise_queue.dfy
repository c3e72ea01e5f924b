/** The ordered step queue (`PromiseQueue` in src/promise-queue.js).

    A queue holds `(alias, producer)` entries. `Start` only arms the queue;
    each `Dequeue` is one run of `_dequeue`: it shifts the head entry, invokes
    its producer and settles on the producer's outcome. Producer outcomes are
    inputs: the i-th outcome handed to `Drain` is the settled value of the
    i-th producer invoked. */
module PromiseQueue {
  import opened Values

  datatype Entry<P> = Entry(alias: string, producer: P)

  /** Building: entries are being added. Draining: `start` was called.
      Completed / Failed: `onComplete` / `onError` fired. */
  datatype Phase<V, E> = Building | Draining | Completed(result: map<string, V>) | Failed(error: E)

  /** `pending` is `this.promises`, `result` is `this.result`; `invoked` records
      every entry whose producer was called, in call order, and `settlements`
      counts the calls of `onComplete` and `onError`. */
  datatype Queue<P, V, E> = Queue(
    pending: seq<Entry<P>>,
    result: map<string, V>,
    phase: Phase<V, E>,
    invoked: seq<Entry<P>>,
    settlements: nat)

  /** The states the operations below can reach. */
  ghost predicate Valid<P, V, E>(q: Queue<P, V, E>) {
    && (q.phase.Draining? ==> |q.pending| > 0)
    && ((q.phase.Building? || q.phase.Draining?) <==> q.settlements == 0)
    && (q.phase.Completed? ==> q.settlements == 1 && q.phase.result == q.result)
    && (q.phase.Failed? ==> q.settlements == 1)
  }

  /** The aliases of a sequence of entries. */
  function Aliases<P>(entries: seq<Entry<P>>): set<string> {
    set i | 0 <= i < |entries| :: entries[i].alias
  }

  /** A freshly constructed queue. */
  function Empty<P, V, E>(): (q: Queue<P, V, E>)
    ensures Valid(q) && q.phase.Building?
    ensures q.pending == [] && q.invoked == [] && q.result == map[]
  {
    Queue([], map[], Building, [], 0)
  }

  /** `add`: one entry goes to the end; what was queued keeps its place. */
  function Add<P, V, E>(q: Queue<P, V, E>, alias: string, producer: P): (r: Queue<P, V, E>)
    ensures |r.pending| == |q.pending| + 1
    ensures r.pending[..|q.pending|] == q.pending
    ensures r.pending[|q.pending|] == Entry(alias, producer)
    ensures r.result == q.result && r.phase == q.phase
    ensures r.invoked == q.invoked && r.settlements == q.settlements
    ensures Valid(q) ==> Valid(r)
  {
    q.(pending := q.pending + [Entry(alias, producer)])
  }

  /** `add` applied to each entry in turn. */
  function AddAll<P, V, E>(q: Queue<P, V, E>, entries: seq<Entry<P>>): (r: Queue<P, V, E>)
    decreases |entries|
  {
    if |entries| == 0 then q
    else AddAll(Add(q, entries[0].alias, entries[0].producer), entries[1..])
  }

  /** Adding entries one by one queues exactly them, after the old ones, in order. */
  lemma {:induction false} AddAllAppends<P, V, E>(q: Queue<P, V, E>, entries: seq<Entry<P>>)
    ensures AddAll(q, entries).pending == q.pending + entries
    ensures AddAll(q, entries).phase == q.phase && AddAll(q, entries).result == q.result
    ensures AddAll(q, entries).invoked == q.invoked && AddAll(q, entries).settlements == q.settlements
    ensures Valid(q) ==> Valid(AddAll(q, entries))
    decreases |entries|
  {
    if |entries| > 0 {
      var q' := Add(q, entries[0].alias, entries[0].producer);
      AddAllAppends(q', entries[1..]);
      assert q'.pending + entries[1..] == q.pending + entries;
    }
  }

  /** `start`: arms the queue and returns; no producer runs inside the call.
      The source dereferences the head entry unconditionally, so an empty
      queue is not a legal argument. */
  function Start<P, V, E>(q: Queue<P, V, E>): (r: Queue<P, V, E>)
    requires Valid(q) && q.phase.Building? && |q.pending| > 0
    ensures Valid(r) && r.phase.Draining?
    ensures r.pending == q.pending && r.result == q.result
    ensures r.invoked == q.invoked && r.settlements == 0
  {
    q.(phase := Draining)
  }

  /** One `_dequeue`: shift the head, invoke it, and act on its outcome `o`. */
  function Dequeue<P, V, E>(q: Queue<P, V, E>, o: Result<V, E>): (r: Queue<P, V, E>)
    requires Valid(q) && q.phase.Draining?
    ensures Valid(r)
    ensures r.invoked == q.invoked + [q.pending[0]]
    ensures o.Err? ==> r.phase == Failed(o.error) && r.pending == [] && r.result == q.result
    ensures o.Ok? ==> r.result == q.result[q.pending[0].alias := o.value] && r.pending == q.pending[1..]
    ensures o.Ok? ==> (r.phase.Completed? <==> |q.pending| == 1)
    ensures o.Ok? && |q.pending| > 1 ==> r.phase.Draining? && r.settlements == q.settlements
  {
    var head := q.pending[0];
    var invoked := q.invoked + [head];
    match o
    case Ok(v) =>
      var result := q.result[head.alias := v];
      if |q.pending| == 1 then Queue([], result, Completed(result), invoked, q.settlements + 1)
      else Queue(q.pending[1..], result, Draining, invoked, q.settlements)
    case Err(e) =>
      Queue([], q.result, Failed(e), invoked, q.settlements + 1)
  }

  /** Runs `_dequeue` while the queue is draining and outcomes remain. */
  function Drain<P, V, E>(q: Queue<P, V, E>, outcomes: seq<Result<V, E>>): (r: Queue<P, V, E>)
    requires Valid(q)
    ensures Valid(r)
    ensures |q.invoked| <= |r.invoked| <= |q.invoked| + |outcomes|
    ensures r.invoked[..|q.invoked|] == q.invoked
    ensures r.settlements >= q.settlements
    decreases |outcomes|
  {
    if q.phase.Draining? && |outcomes| > 0 then Drain(Dequeue(q, outcomes[0]), outcomes[1..])
    else q
  }

  /** The index of the first rejected outcome, or `|outcomes|` if none is. */
  function FirstError<V, E>(outcomes: seq<Result<V, E>>): (k: nat)
    ensures k <= |outcomes|
    ensures k < |outcomes| ==> outcomes[k].Err?
    decreases |outcomes|
  {
    if |outcomes| == 0 || outcomes[0].Err? then 0 else 1 + FirstError(outcomes[1..])
  }

  /** The fulfilled values before the first rejection: every outcome before
      `FirstError` is fulfilled. */
  function OkPrefix<V, E>(outcomes: seq<Result<V, E>>): (vs: seq<V>)
    ensures |vs| == FirstError(outcomes)
    ensures forall i :: 0 <= i < |vs| ==> outcomes[i] == Ok(vs[i])
    decreases |outcomes|
  {
    if |outcomes| == 0 || outcomes[0].Err? then [] else [outcomes[0].value] + OkPrefix(outcomes[1..])
  }

  /** The result map after writing `values[i]` under `entries[i].alias`, in order, onto `acc`. */
  function Accumulate<P, V>(acc: map<string, V>, entries: seq<Entry<P>>, values: seq<V>): (r: map<string, V>)
    requires |entries| == |values|
    ensures r.Keys == acc.Keys + Aliases(entries)
    ensures forall a :: a in acc && a !in Aliases(entries) ==> r[a] == acc[a]
    decreases |entries|
  {
    if |entries| == 0 then acc
    else
      assert Aliases(entries) == {entries[0].alias} + Aliases(entries[1..]) by {
        forall a | a in Aliases(entries) ensures a in {entries[0].alias} + Aliases(entries[1..]) {
          var i :| 0 <= i < |entries| && entries[i].alias == a;
          if i > 0 { assert entries[1..][i - 1].alias == a; }
        }
      }
      Accumulate(acc[entries[0].alias := values[0]], entries[1..], values[1..])
  }

  /** A later step with the same alias overwrites an earlier one: the final
      value under an alias is the value of the last entry carrying it. */
  lemma {:induction false} LastWriterWins<P, V>(acc: map<string, V>, entries: seq<Entry<P>>, values: seq<V>, j: nat)
    requires |entries| == |values| && j < |entries|
    requires forall i :: j < i < |entries| ==> entries[i].alias != entries[j].alias
    ensures entries[j].alias in Accumulate(acc, entries, values)
    ensures Accumulate(acc, entries, values)[entries[j].alias] == values[j]
    decreases |entries|
  {
    var acc' := acc[entries[0].alias := values[0]];
    if j == 0 {
      var a := entries[0].alias;
      forall i | 0 <= i < |entries[1..]| ensures entries[1..][i].alias != a {
        assert entries[1..][i] == entries[i + 1];
      }
    } else {
      LastWriterWins(acc', entries[1..], values[1..], j - 1);
      assert entries[1..][j - 1] == entries[j];
    }
  }

  /** One fulfilled `_dequeue` on a queue with more than one entry moves the
      head from `pending` to `invoked`: seen from the original queue, the
      first `m` entries are still the next ones invoked, in order. */
  lemma ShiftInvoked<P, V, E>(q: Queue<P, V, E>, v: V, m: nat)
    requires Valid(q) && q.phase.Draining? && |q.pending| > 1
    requires 1 <= m <= |q.pending|
    ensures var q' := Dequeue(q, Ok(v));
      q.invoked + q.pending[..m] == q'.invoked + q'.pending[..m - 1]
  {
    var q' := Dequeue(q, Ok(v));
    assert q.pending[..m] == [q.pending[0]] + q'.pending[..m - 1];
  }

  /** ... and moves its value into `result`: accumulating the next `m`
      values onto the original result, or the next `m - 1` onto the new one,
      gives the same map. */
  lemma ShiftResult<P, V, E>(q: Queue<P, V, E>, v: V, vs: seq<V>, m: nat)
    requires Valid(q) && q.phase.Draining? && |q.pending| > 1
    requires 1 <= m <= |q.pending| && m <= |vs| + 1
    ensures var q' := Dequeue(q, Ok(v));
      Accumulate(q.result, q.pending[..m], ([v] + vs)[..m])
      == Accumulate(q'.result, q'.pending[..m - 1], vs[..m - 1])
  {
    var q' := Dequeue(q, Ok(v));
    assert q.pending[..m][1..] == q'.pending[..m - 1];
    assert ([v] + vs)[..m][1..] == vs[..m - 1];
  }

  /** If producer k rejects before the queue runs out (`k` the first rejected
      outcome), exactly the producers of entries 0..k were invoked, the queue
      is emptied, the error is the k-th outcome's own error, the result holds
      only what entries before k wrote, and `onError` fired once. */
  lemma {:induction false} DrainFails<P, V, E>(q: Queue<P, V, E>, outcomes: seq<Result<V, E>>)
    requires Valid(q) && q.phase.Draining?
    requires FirstError(outcomes) < |q.pending| && FirstError(outcomes) < |outcomes|
    ensures var k, r := FirstError(outcomes), Drain(q, outcomes);
      && r.phase == Failed(outcomes[k].error)
      && r.pending == []
      && r.invoked == q.invoked + q.pending[..k + 1]
      && r.result == Accumulate(q.result, q.pending[..k], OkPrefix(outcomes))
      && r.settlements == 1
    decreases |outcomes|
  {
    var k := FirstError(outcomes);
    if outcomes[0].Err? {
      assert Drain(q, outcomes) == Drain(Dequeue(q, outcomes[0]), outcomes[1..]);
      assert q.pending[..1] == [q.pending[0]];
    } else {
      var v := outcomes[0].value;
      var q' := Dequeue(q, outcomes[0]);
      var vs := OkPrefix(outcomes[1..]);
      assert OkPrefix(outcomes) == [v] + vs;
      DrainFails(q', outcomes[1..]);
      ShiftResult(q, v, vs, k);
      ShiftInvoked(q, v, k + 1);
      assert ([v] + vs)[..k] == [v] + vs && vs[..k - 1] == vs;
    }
  }

  /** A fulfilled `_dequeue` of the last pending entry completes the queue. */
  lemma CompletesOnLast<P, V, E>(q: Queue<P, V, E>, v: V)
    requires Valid(q) && q.phase.Draining? && |q.pending| == 1
    ensures var r := Dequeue(q, Ok(v));
      && r.phase == Completed(r.result)
      && r.pending == []
      && r.invoked == q.invoked + q.pending
      && r.result == Accumulate(q.result, q.pending, [v])
      && r.settlements == 1
  {
    var r := Dequeue(q, Ok(v));
    assert q.pending[1..] == [] && [v][1..] == [];
    assert Accumulate(q.result, q.pending, [v]) == Accumulate(r.result, q.pending[1..], [v][1..]);
  }

  /** If the first `n` outcomes all fulfil (`n` pending entries), every
      producer was invoked once in insertion order, the queue completed with
      every entry's value written in order, and `onComplete` fired once. */
  lemma {:induction false} DrainCompletes<P, V, E>(q: Queue<P, V, E>, outcomes: seq<Result<V, E>>)
    requires Valid(q) && q.phase.Draining?
    requires |q.pending| <= FirstError(outcomes)
    ensures var n, r := |q.pending|, Drain(q, outcomes);
      && r.phase == Completed(r.result)
      && r.pending == []
      && r.invoked == q.invoked + q.pending
      && r.result == Accumulate(q.result, q.pending, OkPrefix(outcomes)[..n])
      && r.settlements == 1
    decreases |outcomes|
  {
    var q' := Dequeue(q, outcomes[0]);
    if |q.pending| == 1 {
      CompletesOnFirst(q, outcomes);
    } else {
      assert FirstError(outcomes) == 1 + FirstError(outcomes[1..]);
      DrainCompletes(q', outcomes[1..]);
      CompletesAfterHead(q, outcomes);
    }
  }

  /** The base case of `DrainCompletes`: one entry left and its outcome fulfils. */
  lemma CompletesOnFirst<P, V, E>(q: Queue<P, V, E>, outcomes: seq<Result<V, E>>)
    requires Valid(q) && q.phase.Draining? && |q.pending| == 1 <= FirstError(outcomes)
    ensures var r := Drain(q, outcomes);
      && r.phase == Completed(r.result)
      && r.pending == []
      && r.invoked == q.invoked + q.pending
      && r.result == Accumulate(q.result, q.pending, OkPrefix(outcomes)[..1])
      && r.settlements == 1
  {
    var v := outcomes[0].value;
    var q' := Dequeue(q, outcomes[0]);
    assert OkPrefix(outcomes) == [v] + OkPrefix(outcomes[1..]);
    assert OkPrefix(outcomes)[..1] == [v];
    CompletesOnLast(q, v);
    assert Drain(q, outcomes) == Drain(q', outcomes[1..]) == q';
  }

  /** The inductive step of `DrainCompletes`: if the queue left after the
      fulfilled head completes on the remaining outcomes, the original queue
      completes on all of them, with the head invoked and written first. */
  lemma CompletesAfterHead<P, V, E>(q: Queue<P, V, E>, outcomes: seq<Result<V, E>>)
    requires Valid(q) && q.phase.Draining? && 1 < |q.pending| <= FirstError(outcomes)
    requires var q', n := Dequeue(q, outcomes[0]), |q.pending| - 1;
      var r := Drain(q', outcomes[1..]);
      && r.phase == Completed(r.result)
      && r.pending == []
      && r.invoked == q'.invoked + q'.pending
      && r.result == Accumulate(q'.result, q'.pending, OkPrefix(outcomes[1..])[..n])
      && r.settlements == 1
    ensures var n, r := |q.pending|, Drain(q, outcomes);
      && r.phase == Completed(r.result)
      && r.pending == []
      && r.invoked == q.invoked + q.pending
      && r.result == Accumulate(q.result, q.pending, OkPrefix(outcomes)[..n])
      && r.settlements == 1
  {
    var v := outcomes[0].value;
    var q' := Dequeue(q, outcomes[0]);
    var vs := OkPrefix(outcomes[1..]);
    assert OkPrefix(outcomes) == [v] + vs;
    assert FirstError(outcomes) == 1 + FirstError(outcomes[1..]);
    assert Drain(q, outcomes) == Drain(q', outcomes[1..]);
    ShiftAll(q, v, vs, Drain(q', outcomes[1..]));
  }

  /** `ShiftInvoked` and `ShiftResult` applied to the whole pending sequence. */
  lemma ShiftAll<P, V, E>(q: Queue<P, V, E>, v: V, vs: seq<V>, r: Queue<P, V, E>)
    requires Valid(q) && q.phase.Draining? && |q.pending| > 1 && |q.pending| - 1 <= |vs|
    requires var q' := Dequeue(q, Ok(v));
      && r.invoked == q'.invoked + q'.pending
      && r.result == Accumulate(q'.result, q'.pending, vs[..|q.pending| - 1])
    ensures r.invoked == q.invoked + q.pending
    ensures r.result == Accumulate(q.result, q.pending, ([v] + vs)[..|q.pending|])
  {
    var n := |q.pending|;
    var q' := Dequeue(q, Ok(v));
    ShiftInvoked(q, v, n);
    ShiftResult(q, v, vs, n);
    assert q.pending[..n] == q.pending && q'.pending[..n - 1] == q'.pending;
  }

  /** If the outcomes run out before any rejection and before the queue
      does, the queue is still draining, one producer was invoked per
      outcome, in order, and no settlement callback has fired. */
  lemma {:induction false} DrainPartial<P, V, E>(q: Queue<P, V, E>, outcomes: seq<Result<V, E>>)
    requires Valid(q) && q.phase.Draining?
    requires FirstError(outcomes) == |outcomes| < |q.pending|
    ensures var r := Drain(q, outcomes);
      && r.phase.Draining?
      && r.pending == q.pending[|outcomes|..]
      && r.invoked == q.invoked + q.pending[..|outcomes|]
      && r.result == Accumulate(q.result, q.pending[..|outcomes|], OkPrefix(outcomes))
      && r.settlements == 0
    decreases |outcomes|
  {
    var m := |outcomes|;
    if m == 0 {
      assert q.pending[..0] == [] && q.pending[0..] == q.pending;
    } else {
      var v := outcomes[0].value;
      var q' := Dequeue(q, outcomes[0]);
      var vs := OkPrefix(outcomes[1..]);
      assert OkPrefix(outcomes) == [v] + vs;
      DrainPartial(q', outcomes[1..]);
      ShiftInvoked(q, v, m);
      ShiftResult(q, v, vs, m);
      assert ([v] + vs)[..m] == [v] + vs && vs[..m - 1] == vs;
      assert q'.pending[m - 1..] == q.pending[m..];
    }
  }

  /** A queue built from `entries` and started. */
  function Started<P, V, E>(entries: seq<Entry<P>>): (q: Queue<P, V, E>)
    requires |entries| > 0
    ensures Valid(q) && q.phase.Draining?
    ensures q.pending == entries && q.result == map[] && q.invoked == [] && q.settlements == 0
  {
    AddAllAppends(Empty<P, V, E>(), entries);
    assert [] + entries == entries;
    Start(AddAll(Empty(), entries))
  }

  /** A started queue whose producers all fulfil settles exactly once, through
      `onComplete`, with one key per step alias; the producers ran in
      insertion order, each exactly once. */
  lemma QueueCompletes<P, V, E>(entries: seq<Entry<P>>, outcomes: seq<Result<V, E>>)
    requires |entries| > 0
    requires |entries| <= FirstError(outcomes)
    ensures var r := Drain(Started<P, V, E>(entries), outcomes);
      && r.phase.Completed?
      && r.settlements == 1
      && r.invoked == entries
      && r.result.Keys == Aliases(entries)
      && forall j :: 0 <= j < |entries| && (forall i :: j < i < |entries| ==> entries[i].alias != entries[j].alias)
           ==> outcomes[j] == Ok(r.result[entries[j].alias])
  {
    var q := Started<P, V, E>(entries);
    DrainCompletes(q, outcomes);
    var vs := OkPrefix(outcomes)[..|entries|];
    forall j | 0 <= j < |entries| && (forall i :: j < i < |entries| ==> entries[i].alias != entries[j].alias)
      ensures outcomes[j] == Ok(Drain(q, outcomes).result[entries[j].alias])
    {
      LastWriterWins(map[], entries, vs, j);
    }
  }

  /** When producer k is the first to reject, settlement happens once,
      through `onError`, with exactly that error; producers after k never run;
      and the result holds only aliases of the steps before k. */
  lemma QueueFailsAtFirstError<P, V, E>(entries: seq<Entry<P>>, outcomes: seq<Result<V, E>>)
    requires |entries| > 0
    requires FirstError(outcomes) < |entries| && FirstError(outcomes) < |outcomes|
    ensures var k, r := FirstError(outcomes), Drain(Started<P, V, E>(entries), outcomes);
      && r.phase == Failed(outcomes[k].error)
      && r.settlements == 1
      && r.pending == []
      && r.invoked == entries[..k + 1]
      && r.result.Keys == Aliases(entries[..k])
  {
    DrainFails(Started<P, V, E>(entries), outcomes);
  }

  /** A started queue that has settled after consuming every outcome it was
      given settled exactly once: on the first rejection if it falls within
      the entries, otherwise on the last entry's fulfilment. */
  lemma SettledDrain<P, V, E>(q: Queue<P, V, E>, outcomes: seq<Result<V, E>>)
    requires Valid(q) && q.phase.Draining? && q.invoked == [] && q.result == map[]
    requires !Drain(q, outcomes).phase.Draining? && |Drain(q, outcomes).invoked| == |outcomes|
    ensures var k, r := FirstError(outcomes), Drain(q, outcomes);
      && r.settlements == 1
      && (k < |q.pending| ==>
            && |outcomes| == k + 1
            && r.phase == Failed(outcomes[k].error)
            && r.invoked == q.pending[..k + 1]
            && r.result.Keys == Aliases(q.pending[..k]))
      && (k >= |q.pending| ==>
            && |outcomes| == |q.pending|
            && r.phase.Completed?
            && r.invoked == q.pending
            && r.result.Keys == Aliases(q.pending))
  {
    var k := FirstError(outcomes);
    if k < |q.pending| {
      if k < |outcomes| {
        DrainFails(q, outcomes);
        assert [] + q.pending[..k + 1] == q.pending[..k + 1];
      } else {
        DrainPartial(q, outcomes);
        assert false;
      }
    } else {
      DrainCompletes(q, outcomes);
      assert [] + q.pending == q.pending;
    }
  }

  /** Once settled, no further outcome changes the queue: settlement is final. */
  lemma SettledIsFinal<P, V, E>(q: Queue<P, V, E>, outcomes: seq<Result<V, E>>)
    requires Valid(q) && (q.phase.Completed? || q.phase.Failed?)
    ensures Drain(q, outcomes) == q
  {
  }
}
