/** `BlePeripheralDatabase`: the registry of running peripherals under
    fresh ids, with stop-one and stop-all. The dictionary is kept as its
    entries in insertion order, the order in which `stop_all` visits them. */
module Registry {
  import opened Att
  import opened Peripherals

  /** Ids are drawn from a counter: never a key before, never issued twice. */
  type Id = nat

  datatype Entry = Entry(id: Id, peripheral: Peripheral)

  /** A stop either tears the entry down or fails with the exception the
      source raises: a KeyError for an unknown id, or the AssertionError of
      one of its two asserts. */
  datatype StopResult = StopOk | NotFound | TransportNotSet | WaitTaskNotSet

  /** What a stop reads and changes of a peripheral: its transport and its
      wait task. */
  type PeripheralState = (Option<TransportHandle>, Option<WaitTask>)

  /** The two asserts of a stop, in order, on a peripheral's state. */
  function PrecheckOf(s: PeripheralState): (r: StopResult)
    ensures r == StopOk <==> s.0.Some? && s.1.Some?
    ensures s.0.None? ==> r == TransportNotSet
    ensures s.0.Some? && s.1.None? ==> r == WaitTaskNotSet
    ensures r != NotFound
  {
    if s.0.None? then TransportNotSet
    else if s.1.None? then WaitTaskNotSet
    else StopOk
  }

  /** The two asserts of a stop, in order, on the peripheral itself. */
  function Precheck(p: Peripheral): (r: StopResult)
    reads p
    ensures r == StopOk <==> p.transport.Some? && p.waitTask.Some?
    ensures p.transport.None? ==> r == TransportNotSet
    ensures p.transport.Some? && p.waitTask.None? ==> r == WaitTaskNotSet
    ensures r != NotFound
  {
    PrecheckOf((p.transport, p.waitTask))
  }

  /** The first `n` recorded states all pass the asserts. */
  predicate Ready(before: seq<PeripheralState>, n: nat)
    requires n <= |before|
  {
    forall k :: 0 <= k < n ==> PrecheckOf(before[k]) == StopOk
  }

  /** What a successful stop leaves of a peripheral whose transport was
      `before`: the wait task cancelled and the transport closed once more. */
  ghost predicate TornDown(p: Peripheral, before: Option<TransportHandle>)
    reads p
  {
    && before.Some?
    && p.transport == Some(TransportHandle(before.value.closeCount + 1))
    && p.waitTask == Some(WaitTask(true))
  }

  /** A stored peripheral during a stop-all: torn down once its turn has
      come, its transport and wait task as they were before, otherwise. */
  ghost predicate Progress(p: Peripheral, before: PeripheralState, done: bool)
    reads p
  {
    if done then TornDown(p, before.0) else p.transport == before.0 && p.waitTask == before.1
  }

  /** The peripherals of the entries. */
  ghost function PeripheralSet(es: seq<Entry>): (ps: set<object>)
    ensures forall k :: 0 <= k < |es| ==> es[k].peripheral in ps
  {
    if es == [] then {} else {es[0].peripheral as object} + PeripheralSet(es[1..])
  }

  /** The peripherals of the entries and nothing else: an object outside
      the entries is outside what a stop-all may change. */
  lemma {:induction false} PeripheralSetExact(es: seq<Entry>, o: object)
    ensures o in PeripheralSet(es) <==> exists k :: 0 <= k < |es| && es[k].peripheral == o
  {
    if es != [] && o in PeripheralSet(es) && o != es[0].peripheral {
      PeripheralSetExact(es[1..], o);
      var k :| 0 <= k < |es[1..]| && es[1..][k].peripheral == o;
      assert es[k + 1].peripheral == o;
    }
  }

  /** Logging the next entry of a snapshot extends the logged prefix. */
  lemma LogStep(base: seq<Entry>, snapshot: seq<Entry>, n: nat)
    requires n < |snapshot|
    ensures base + snapshot[..n] + [snapshot[n]] == base + snapshot[..n + 1]
  {
    assert snapshot[..n + 1] == snapshot[..n] + [snapshot[n]];
  }

  /** No peripheral appears in two entries. */
  predicate DistinctPeripherals(es: seq<Entry>) {
    forall k, l :: 0 <= k < l < |es| ==> es[k].peripheral != es[l].peripheral
  }

  /** The transports and wait tasks of the entries' peripherals, in order. */
  ghost function StatesOf(es: seq<Entry>): (t: seq<PeripheralState>)
    reads set k | 0 <= k < |es| :: es[k].peripheral
    ensures |t| == |es|
    ensures forall k :: 0 <= k < |es| ==>
      t[k] == (es[k].peripheral.transport, es[k].peripheral.waitTask)
  {
    if es == [] then []
    else [(es[0].peripheral.transport, es[0].peripheral.waitTask)] + StatesOf(es[1..])
  }

  /** Dictionary lookup: the position of the entry with this id, or -1. */
  function IndexOf(es: seq<Entry>, id: Id): (k: int)
    ensures -1 <= k < |es|
    ensures k >= 0 ==> es[k].id == id && forall j :: 0 <= j < k ==> es[j].id != id
    ensures k < 0 <==> forall j :: 0 <= j < |es| ==> es[j].id != id
  {
    if es == [] then -1
    else if es[0].id == id then 0
    else
      var k := IndexOf(es[1..], id);
      if k < 0 then -1 else k + 1
  }

  /** Ids that strictly increase along a sequence of entries. */
  predicate Increasing(es: seq<Entry>) {
    forall k, l :: 0 <= k < l < |es| ==> es[k].id < es[l].id
  }

  /** Every id lies below the counter. */
  predicate Below(es: seq<Entry>, bound: Id) {
    forall k :: 0 <= k < |es| ==> es[k].id < bound
  }

  /** Deleting an entry from increasing entries leaves no entry under its
      id, so a second stop of that id fails at the lookup. */
  lemma RemovedIdAbsent(es: seq<Entry>, k: nat)
    requires Increasing(es) && k < |es|
    ensures Increasing(es[..k] + es[k + 1..])
    ensures IndexOf(es[..k] + es[k + 1..], es[k].id) < 0
    ensures |es[..k] + es[k + 1..]| == |es| - 1
  {
    var rest := es[..k] + es[k + 1..];
    forall j | 0 <= j < |rest|
      ensures rest[j] == if j < k then es[j] else es[j + 1]
    {
    }
    forall j | 0 <= j < |rest|
      ensures rest[j].id != es[k].id
    {
      if j < k {
        assert es[j].id < es[k].id;
      } else {
        assert es[k].id < es[j + 1].id;
      }
    }
  }

  class Database {
    var entries: seq<Entry>
    var nextId: Id
    /** The entries stopped so far, in the order they were torn down. */
    ghost var stopped: seq<Entry>

    /** Ids increase along the insertion order (so no id is stored twice)
        and all lie below the counter. */
    ghost predicate Valid()
      reads this
    {
      && Increasing(entries)
      && Below(entries, nextId)
    }

    /** The stored peripherals: what a stop-all may change. */
    ghost function Peripherals(): set<object>
      reads this
    {
      PeripheralSet(entries)
    }

    /** What stopping `id` may change: that entry's peripheral. */
    ghost function Target(id: Id): set<object>
      reads this
    {
      var k := IndexOf(entries, id);
      if k >= 0 then {entries[k].peripheral} else {}
    }

    /** No peripheral is stored under two ids (`add_peripheral` does not
        prevent it). */
    ghost predicate Distinct()
      reads this
    {
      DistinctPeripherals(entries)
    }

    constructor ()
      ensures Valid() && entries == [] && stopped == []
    {
      entries := [];
      nextId := 0;
      stopped := [];
    }

    /** `add_peripheral`: store the peripheral under a new id. */
    method AddPeripheral(p: Peripheral) returns (id: Id)
      requires Valid()
      modifies this
      ensures Valid()
      ensures IndexOf(old(entries), id) < 0 && id >= old(nextId) && id < nextId
      ensures entries == old(entries) + [Entry(id, p)]
      ensures stopped == old(stopped)
    {
      id := nextId;
      nextId := nextId + 1;
      entries := entries + [Entry(id, p)];
    }

    /** `stop_peripheral`: look the entry up, check its transport and task,
        cancel the task, close the transport, then delete the entry. */
    method StopPeripheral(id: Id) returns (r: StopResult)
      requires Valid()
      modifies this, Target(id)
      ensures Valid() && nextId == old(nextId)
      ensures var k := IndexOf(old(entries), id);
        r == if k < 0 then NotFound else old(Precheck(entries[k].peripheral))
      ensures r != StopOk ==> entries == old(entries) && stopped == old(stopped)
      ensures r != StopOk ==> forall o :: o in old(Target(id)) ==> unchanged(o)
      ensures var k := IndexOf(old(entries), id); r == StopOk ==>
        && 0 <= k
        && entries == old(entries[..k] + entries[k + 1..])
        && stopped == old(stopped) + [old(entries[k])]
        && IndexOf(entries, id) < 0
      ensures var k := IndexOf(old(entries), id); r == StopOk ==>
        var p := old(entries[k].peripheral);
        && TornDown(p, old(p.transport))
        && p.trace == old(p.trace) + [WaitTaskCancelled, TransportClosed]
    {
      var k := IndexOf(entries, id);
      if k < 0 {
        return NotFound;
      }
      var p := entries[k].peripheral;
      if p.transport.None? {
        return TransportNotSet;
      }
      if p.waitTask.None? {
        return WaitTaskNotSet;
      }
      p.CancelWaitTask();
      p.CloseTransport();
      RemovedIdAbsent(entries, k);
      stopped := stopped + [entries[k]];
      entries := entries[..k] + entries[k + 1..];
      r := StopOk;
    }

    /** One round of `stop_all`'s loop: stop the first remaining entry,
        the `n`-th of the snapshot taken when the loop began. With no
        peripheral stored twice, it tears that one down and no other. */
    method StopFirst(ghost snapshot: seq<Entry>, ghost n: nat, ghost before: seq<PeripheralState>,
                     ghost distinct: bool, ghost base: seq<Entry>) returns (r: StopResult)
      requires Valid() && n < |snapshot| == |before| && entries == snapshot[n..]
      requires stopped == base + snapshot[..n]
      requires distinct ==> DistinctPeripherals(snapshot)
      requires distinct ==> forall k :: 0 <= k < |snapshot| ==> Progress(snapshot[k].peripheral, before[k], k < n)
      requires distinct ==> Ready(before, n)
      modifies this, entries[0].peripheral
      ensures Valid() && nextId == old(nextId)
      ensures r == old(Precheck(entries[0].peripheral)) && r != NotFound
      ensures r != StopOk ==>
        && entries == old(entries) && stopped == old(stopped)
        && unchanged(old(entries[0].peripheral))
        && r == Precheck(entries[0].peripheral)
      ensures r != StopOk && distinct ==>
        forall k :: 0 <= k < |snapshot| ==> Progress(snapshot[k].peripheral, before[k], k < n)
      ensures r != StopOk && distinct ==> r == PrecheckOf(before[n])
      ensures r == StopOk && distinct ==> Ready(before, n + 1)
      ensures r == StopOk ==> entries == snapshot[n + 1..] && stopped == base + snapshot[..n + 1]
      ensures r == StopOk && distinct ==>
        forall k :: 0 <= k < |snapshot| ==> Progress(snapshot[k].peripheral, before[k], k < n + 1)
    {
      var e := entries[0];
      if distinct {
        assert Progress(snapshot[n].peripheral, before[n], false);
      }
      assert IndexOf(entries, e.id) == 0;
      assert entries[..0] + entries[1..] == entries[1..];
      r := StopPeripheral(e.id);
      if r == StopOk {
        LogStep(base, snapshot, n);
      }
      if distinct {
        ghost var m := if r == StopOk then n + 1 else n;
        forall k | 0 <= k < |snapshot|
          ensures Progress(snapshot[k].peripheral, before[k], k < m)
        {
          if k != n {
            assert snapshot[k].peripheral != e.peripheral;
          }
        }
      }
    }

    /** `stop_all`: stop the entries of a snapshot of the dictionary, in its
        insertion order; the first failing stop ends the loop and its error
        propagates. */
    method StopAll() returns (r: StopResult, ghost failedAt: nat, ghost before: seq<PeripheralState>)
      requires Valid()
      modifies this, Peripherals()
      ensures Valid() && nextId == old(nextId)
      ensures r != NotFound
      ensures |before| == |old(entries)| && forall k :: 0 <= k < |before| ==>
        before[k] == (old(entries[k].peripheral.transport), old(entries[k].peripheral.waitTask))
      ensures r == StopOk ==> entries == [] && stopped == old(stopped) + old(entries)
      ensures r != StopOk ==>
        && failedAt < |old(entries)|
        && entries == old(entries)[failedAt..]
        && stopped == old(stopped) + old(entries)[..failedAt]
        && r == Precheck(entries[0].peripheral)
      ensures r != StopOk && old(Distinct()) ==>
        && r == PrecheckOf(before[failedAt])
        && Ready(before, failedAt)
        && forall k :: 0 <= k < |before| ==> Progress(old(entries)[k].peripheral, before[k], k < failedAt)
      ensures old(Distinct()) ==> (r == StopOk <==> Ready(before, |before|))
      ensures r == StopOk && old(Distinct()) ==>
        && Ready(before, |before|)
        && forall k :: 0 <= k < |before| ==> Progress(old(entries)[k].peripheral, before[k], true)
    {
      var snapshot := entries;
      ghost var distinct := Distinct();
      before := StatesOf(snapshot);
      var n := 0;
      r, failedAt := StopOk, 0;
      while n < |snapshot|
        invariant 0 <= n <= |snapshot|
        invariant Valid() && nextId == old(nextId) && r == StopOk
        invariant entries == snapshot[n..]
        invariant stopped == old(stopped) + snapshot[..n]
        invariant distinct ==> forall k :: 0 <= k < |snapshot| ==>
          Progress(snapshot[k].peripheral, before[k], k < n)
        invariant distinct ==> Ready(before, n)
      {
        r := StopFirst(snapshot, n, before, distinct, old(stopped));
        if r != StopOk {
          failedAt := n;
          return;
        }
        n := n + 1;
      }
      assert snapshot[..n] == snapshot;
    }
  }

  /** Two stops of one id: once the first has torn the peripheral down, the
      second fails at the lookup, so that transport is closed exactly once. */
  method StopTwice(db: Database, id: Id) returns (first: StopResult, second: StopResult)
    requires db.Valid()
    modifies db, db.Target(id)
    ensures db.Valid()
    ensures first == StopOk ==> second == NotFound
    ensures first != StopOk ==> second == first
    ensures first == StopOk ==> IndexOf(old(db.entries), id) >= 0
    ensures first == StopOk ==>
      var p := old(db.entries[IndexOf(db.entries, id)].peripheral);
      TornDown(p, old(p.transport))
  {
    first := db.StopPeripheral(id);
    second := db.StopPeripheral(id);
  }

  /** A peripheral started on a working host, registered, then stopped
      twice: the first stop succeeds, the second finds no entry, and the
      transport has been closed once. */
  method StopTwiceScenario() returns (first: StopResult, second: StopResult, closes: nat)
    ensures first == StopOk && second == NotFound && closes == 1
  {
    var p := new Peripheral(PeripheralKinds.Example, "Bumble", "F0:F1:F2:F3:F4:F5");
    var outcome := p.Start(HostBehaviour(true, true, true, true));
    var db := new Database();
    var id := db.AddPeripheral(p);
    first := db.StopPeripheral(id);
    second := db.StopPeripheral(id);
    closes := p.transport.value.closeCount;
  }

  /** A peripheral started on a working host: its transport is open and
      never closed, and its wait task is running. */
  method StartedPeripheral(kind: PeripheralKinds.Kind, name: string, address: string) returns (p: Peripheral)
    ensures fresh(p) && p.transport == Some(TransportHandle(0)) && p.waitTask == Some(WaitTask(false))
  {
    p := new Peripheral(kind, name, address);
    var outcome := p.Start(HostBehaviour(true, true, true, true));
  }

  /** Two peripherals started on a working host, registered, then stopped
      together: every stop succeeds, the registry ends empty, and each
      transport has been closed once. */
  method StopAllScenario() returns (r: StopResult, closes1: nat, closes2: nat, remaining: nat)
    ensures r == StopOk && closes1 == 1 && closes2 == 1 && remaining == 0
  {
    var p1 := StartedPeripheral(PeripheralKinds.Example, "Bumble", "F0:F1:F2:F3:F4:F5");
    var p2 := StartedPeripheral(PeripheralKinds.BatteryService, "Bumble Battery", "F0:F1:F2:F3:F4:F6");
    var db := new Database();
    var id1 := db.AddPeripheral(p1);
    var id2 := db.AddPeripheral(p2);
    forall o | o in db.Peripherals()
      ensures o == p1 || o == p2
    {
      PeripheralSetExact(db.entries, o);
    }
    ghost var failedAt, before;
    r, failedAt, before := db.StopAll();
    assert Progress(p1, before[0], true) && Progress(p2, before[1], true);
    closes1 := p1.transport.value.closeCount;
    closes2 := p2.transport.value.closeCount;
    remaining := |db.entries|;
  }
}
