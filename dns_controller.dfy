/**
  * DnsController: the single select loop. Each pass first drains the invocation queue,
  * running the submitted tasks in order, then waits for readiness and, for every selected
  * key, calls the connection's read, write and connect handlers that its ready set asks for,
  * removing the key once handled. Tasks and connections are identified by numbers; the
  * work they do is not part of this model, only the order in which it is started.
  */
module DnsControllerModel {
  import opened Common
  import opened Nio

  /** A Runnable passed to invoke. */
  type Task = nat

  /** The Connection attached to a selection key. */
  type ConnId = nat

  /** A selected key: its connection and `readyOps()`. */
  datatype ReadyKey = ReadyKey(conn: ConnId, readyOps: bv32)

  /** A handler call made by the dispatch loop. */
  datatype Call = DoRead(conn: ConnId) | DoWrite(conn: ConnId) | DoConnect(conn: ConnId)

  /** Position of a handler in the fixed read, write, connect order. */
  function Rank(call: Call): nat
  {
    match call
    case DoRead(_) => 0
    case DoWrite(_) => 1
    case DoConnect(_) => 2
  }

  /** The select thread: its identity and whether it is alive. */
  datatype Thread = Thread(id: nat, alive: bool)

  /** The handler calls made for one selected key. */
  function KeyCalls(k: ReadyKey): (calls: seq<Call>)
    ensures |calls| <= 3
  {
    (if HasOp(k.readyOps, OP_READ) then [DoRead(k.conn)] else []) +
    (if HasOp(k.readyOps, OP_WRITE) then [DoWrite(k.conn)] else []) +
    (if HasOp(k.readyOps, OP_CONNECT) then [DoConnect(k.conn)] else [])
  }

  /**
    * For one key, doRead is called iff the READ bit is ready, doWrite iff WRITE is, doConnect
    * iff CONNECT is; all go to the key's connection, each at most once, read before write
    * before connect.
    */
  lemma KeyCallsFollowReadyOps(k: ReadyKey)
    ensures DoRead(k.conn) in KeyCalls(k) <==> HasOp(k.readyOps, OP_READ)
    ensures DoWrite(k.conn) in KeyCalls(k) <==> HasOp(k.readyOps, OP_WRITE)
    ensures DoConnect(k.conn) in KeyCalls(k) <==> HasOp(k.readyOps, OP_CONNECT)
    ensures forall call :: call in KeyCalls(k) ==> call.conn == k.conn
    ensures forall i, j :: 0 <= i < j < |KeyCalls(k)| ==> Rank(KeyCalls(k)[i]) < Rank(KeyCalls(k)[j])
  {
  }

  /** The handler calls made for a sequence of selected keys, key by key. */
  function DispatchAll(keys: seq<ReadyKey>): (calls: seq<Call>)
    ensures |calls| <= 3 * |keys|
  {
    if keys == [] then [] else KeyCalls(keys[0]) + DispatchAll(keys[1..])
  }

  /** Dispatching two batches of keys in turn is dispatching them together. */
  lemma {:induction false} DispatchAllAppend(a: seq<ReadyKey>, b: seq<ReadyKey>)
    ensures DispatchAll(a + b) == DispatchAll(a) + DispatchAll(b)
    decreases |a|
  {
    if a != [] {
      assert (a + b)[0] == a[0];
      assert (a + b)[1..] == a[1..] + b;
      DispatchAllAppend(a[1..], b);
      calc {
        DispatchAll(a + b);
        KeyCalls(a[0]) + DispatchAll(a[1..] + b);
        KeyCalls(a[0]) + (DispatchAll(a[1..]) + DispatchAll(b));
        (KeyCalls(a[0]) + DispatchAll(a[1..])) + DispatchAll(b);
      }
    } else {
      assert a + b == b;
    }
  }

  /** Every handler call goes to the connection of some selected key. */
  lemma {:induction false} DispatchOnlySelected(keys: seq<ReadyKey>, call: Call)
    requires call in DispatchAll(keys)
    ensures exists k :: k in keys && call.conn == k.conn
    decreases |keys|
  {
    if call in KeyCalls(keys[0]) {
      assert keys[0] in keys;
    } else {
      DispatchOnlySelected(keys[1..], call);
      var k :| k in keys[1..] && call.conn == k.conn;
      assert k in keys;
    }
  }

  class DnsController {
    var invocations: seq<Task>       // INVOCATIONS
    var ran: seq<Task>               // tasks run by the select thread, oldest first
    var selectedKeys: seq<ReadyKey>  // selector.selectedKeys(), in iteration order
    var dispatched: seq<Call>        // handler calls made, oldest first
    var wakeupPending: bool          // selector.wakeup() called since the last select
    var selectThread: Option<Thread>

    /** initialise(): an empty invocation queue and a started select thread. */
    constructor (threadId: nat)
      ensures invocations == [] && ran == [] && selectedKeys == [] && dispatched == []
      ensures !wakeupPending
      ensures selectThread == Some(Thread(threadId, true))
      ensures IsSelectThreadRunning() && IsSelectThread(threadId)
    {
      invocations := [];
      ran := [];
      selectedKeys := [];
      dispatched := [];
      wakeupPending := false;
      selectThread := Some(Thread(threadId, true));
    }

    /** Queues a task behind every task already queued and wakes the selector. */
    method Invoke(task: Task)
      modifies this
      ensures invocations == old(invocations) + [task]
      ensures wakeupPending
      ensures ran == old(ran) && selectedKeys == old(selectedKeys) && dispatched == old(dispatched)
      ensures selectThread == old(selectThread)
    {
      invocations := invocations + [task];
      wakeupPending := true;
    }

    /** The do-while at the top of the select loop: runs every queued task, oldest first. */
    method DrainInvocations()
      modifies this
      ensures ran == old(ran) + old(invocations)
      ensures invocations == []
      ensures selectedKeys == old(selectedKeys) && dispatched == old(dispatched)
      ensures wakeupPending == old(wakeupPending) && selectThread == old(selectThread)
    {
      while |invocations| > 0
        invariant ran + invocations == old(ran) + old(invocations)
        invariant selectedKeys == old(selectedKeys) && dispatched == old(dispatched)
        invariant wakeupPending == old(wakeupPending) && selectThread == old(selectThread)
        decreases |invocations|
      {
        var task := invocations[0];
        invocations := invocations[1..];
        ran := ran + [task];
      }
    }

    /**
      * selector.select() returns with the keys that are ready. The selected-key set holds
      * each key once, and a channel has one key per selector.
      */
    method Select(ready: seq<ReadyKey>)
      requires forall i, j :: 0 <= i < j < |ready| ==> ready[i].conn != ready[j].conn
      modifies this
      ensures selectedKeys == ready
      ensures !wakeupPending
      ensures invocations == old(invocations) && ran == old(ran) && dispatched == old(dispatched)
      ensures selectThread == old(selectThread)
    {
      selectedKeys := ready;
      wakeupPending := false;
    }

    /** The body of the iterator loop for one key: read, then write, then connect, as its ready set asks. */
    method DispatchKey(key: ReadyKey)
      modifies this
      ensures dispatched == old(dispatched) + KeyCalls(key)
      ensures selectedKeys == old(selectedKeys) && invocations == old(invocations) && ran == old(ran)
      ensures wakeupPending == old(wakeupPending) && selectThread == old(selectThread)
    {
      ghost var r := if HasOp(key.readyOps, OP_READ) then [DoRead(key.conn)] else [];
      ghost var w := if HasOp(key.readyOps, OP_WRITE) then [DoWrite(key.conn)] else [];
      ghost var c := if HasOp(key.readyOps, OP_CONNECT) then [DoConnect(key.conn)] else [];
      if HasOp(key.readyOps, OP_READ) {
        dispatched := dispatched + [DoRead(key.conn)];
      }
      assert dispatched == old(dispatched) + r;
      if HasOp(key.readyOps, OP_WRITE) {
        dispatched := dispatched + [DoWrite(key.conn)];
      }
      assert dispatched == old(dispatched) + r + w;
      if HasOp(key.readyOps, OP_CONNECT) {
        dispatched := dispatched + [DoConnect(key.conn)];
      }
      assert dispatched == old(dispatched) + r + w + c;
      assert old(dispatched) + r + w + c == old(dispatched) + (r + w + c);
    }

    /** The iterator loop over the selected keys: dispatch each, then remove it. */
    method DispatchSelected()
      modifies this
      ensures dispatched == old(dispatched) + DispatchAll(old(selectedKeys))
      ensures selectedKeys == []
      ensures invocations == old(invocations) && ran == old(ran)
      ensures wakeupPending == old(wakeupPending) && selectThread == old(selectThread)
    {
      ghost var handled: seq<ReadyKey> := [];
      while |selectedKeys| > 0
        invariant handled + selectedKeys == old(selectedKeys)
        invariant dispatched == old(dispatched) + DispatchAll(handled)
        invariant invocations == old(invocations) && ran == old(ran)
        invariant wakeupPending == old(wakeupPending) && selectThread == old(selectThread)
        decreases |selectedKeys|
      {
        var key := selectedKeys[0];
        DispatchKey(key);
        DispatchAllAppend(handled, [key]);
        assert [key][1..] == [];
        assert DispatchAll([key]) == KeyCalls(key);
        assert handled + [key] + selectedKeys[1..] == handled + selectedKeys;
        assert dispatched == old(dispatched) + DispatchAll(handled + [key]);
        handled := handled + [key];
        selectedKeys := selectedKeys[1..];
      }
      assert handled == old(selectedKeys);
    }

    /** One pass of the select loop, with `ready` the keys the selector reports. */
    method SelectLoopPass(ready: seq<ReadyKey>)
      requires forall i, j :: 0 <= i < j < |ready| ==> ready[i].conn != ready[j].conn
      modifies this
      ensures ran == old(ran) + old(invocations) && invocations == []
      ensures dispatched == old(dispatched) + DispatchAll(ready) && selectedKeys == []
      ensures !wakeupPending && selectThread == old(selectThread)
    {
      DrainInvocations();
      Select(ready);
      DispatchSelected();
    }

    /** Whether the calling thread is the select thread. */
    function IsSelectThread(current: nat): (isSelect: bool)
      reads this
      ensures isSelect ==> selectThread.Some?
      ensures selectThread.Some? ==> (isSelect <==> selectThread.value.id == current)
    {
      selectThread.Some? && selectThread.value.id == current
    }

    /** Running only if a select thread exists and is alive. */
    function IsSelectThreadRunning(): (running: bool)
      reads this
      ensures selectThread.None? ==> !running
      ensures selectThread.Some? ==> (running <==> selectThread.value.alive)
    {
      if selectThread.Some? then selectThread.value.alive else false
    }
  }
}
