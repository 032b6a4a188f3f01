/** The wait table that is updated in place: a map from keys to shared entry objects. Every method
    is one critical section of the waiter lock. */
module WaitTableClass {
  import opened WaitTables

  class WaitTableEntry {
    /** The key that the entry is filed under. */
    ghost const key: string
    var listeners: int
    const channel: nat
    var channelClosed: bool
    var aborted: bool
    var earliestBlock: int

    constructor (channel: nat, earliestBlock: int, ghost key: string)
      ensures this.key == key && Value() == Entry(0, channel, false, false, earliestBlock)
    {
      this.channel, this.earliestBlock, this.key := channel, earliestBlock, key;
      listeners, channelClosed, aborted := 0, false, false;
    }

    function Value(): Entry
      reads this
    {
      Entry(listeners, channel, channelClosed, aborted, earliestBlock)
    }
  }

  class WaitTable {
    var table: map<string, WaitTableEntry>
    /** The next channel to make, and the channels closed so far. */
    var nextChan: nat
    var closed: set<nat>
    /** The table as a value; Valid ties it to the objects. */
    ghost var model: Waiter

    ghost predicate Valid()
      reads this, table.Values
    {
      && closed == model.closed && nextChan == model.nextChan && !model.panicked
      && table.Keys == model.table.Keys
      && (forall k :: k in table ==> table[k].key == k && table[k].Value() == model.table[k])
    }

    constructor ()
      ensures Valid() && model == EmptyWaiter
    {
      table, nextChan, closed, model := map[], 0, {}, EmptyWaiter;
    }

    /** Closing a closed channel would panic. */
    method Close(channel: nat)
      requires channel !in closed
      modifies this`closed
      ensures closed == old(closed) + {channel}
    {
      closed := closed + {channel};
    }

    /** Adds a listener, making the entry and its channel on first use. */
    method RegisterListener(key: string, height: int)
      requires Valid()
      modifies this, table.Values
      ensures Valid() && model == Register(old(model), key, height)
    {
      var val;
      if key in table {
        val := table[key];
      } else {
        val := new WaitTableEntry(nextChan, height, key);
        nextChan := nextChan + 1;
      }
      if val.earliestBlock > height {
        val.earliestBlock := height;
      }
      val.listeners := val.listeners + 1;
      table := table[key := val];
      model := Register(model, key, height);
    }

    /** Drops one listener and reports whether the wait was aborted; ok is false, and nothing
        changes, when key has no entry. */
    method ReleaseListener(key: string) returns (ok: bool, aborted: bool)
      requires Valid()
      modifies this, table.Values
      ensures Valid() && ok == (key in old(model).table)
      ensures ok ==> aborted == old(model).table[key].aborted && model == Release(old(model), key)
      ensures !ok ==> !aborted && model == old(model)
    {
      if key !in table {
        return false, false;
      }
      var val := table[key];
      ok, aborted := true, val.aborted;
      val.listeners := val.listeners - 1;
      model := Release(model, key);
      if val.listeners == 0 {
        table := table - {key};
      } else {
        table := table[key := val];
      }
    }

    /** Closes the entry of key if it is there and open. */
    method CloseOne(key: string, abort: bool)
      requires Valid() && Closable(model, key)
      modifies this`closed, this`model, table.Values
      ensures Valid() && table == old(table) && model == CloseAll(old(model), {key}, abort)
    {
      if key in table && !table[key].channelClosed {
        var val := table[key];
        val.channelClosed := true;
        if abort {
          val.aborted := true;
        }
        Close(val.channel);
        assert OpenAmong(model, {key}) == {key};
      } else {
        CloseNothing(model, key, abort);
      }
      model := CloseAll(model, {key}, abort);
    }

    /** BlockSeen's section: wakes the listeners of every transaction of a seen block. */
    method CloseSeen(txHashes: seq<string>)
      requires Valid() && Consistent(model)
      modifies this`closed, this`model, table.Values
      ensures Valid() && model == CloseAll(old(model), (set h | h in txHashes), false)
    {
      ghost var was := model;
      ghost var done: set<string> := {};
      CloseNone(was, false);
      for i := 0 to |txHashes|
        invariant Valid()
        invariant done == (set h | h in txHashes[..i])
        invariant model == CloseAll(was, done, false)
      {
        CloseAllNext(was, done, txHashes[i], false);
        CloseOne(txHashes[i], false);
        done := done + {txHashes[i]};
      }
      assert txHashes[..|txHashes|] == txHashes;
    }

    /** Aborts the entry of key if it is stale; before, the stale entries outside of todo were aborted. */
    method AbortIfStale(key: string, index: int, ghost was: Waiter, ghost todo: set<string>)
      requires Valid() && Consistent(was) && key in todo && todo <= table.Keys
      requires model == AbortedBut(was, index, todo)
      modifies this`closed, this`model, table.Values
      ensures Valid() && table == old(table) && model == AbortedBut(was, index, todo - {key})
    {
      AbortNext(was, index, todo, key);
      if table[key].earliestBlock == index + 1 {
        CloseOne(key, true);
      }
    }

    /** BlockAdded's section: aborts every open wait of the block that follows index. */
    method AbortStale(index: int)
      requires Valid() && Consistent(model)
      modifies this`closed, this`model, table.Values
      ensures Valid() && model == CloseAll(old(model), StaleAt(old(model), index), true)
    {
      ghost var was := model;
      var todo := table.Keys;
      AbortFirst(was, index);
      while todo != {}
        invariant Valid() && table == old(table) && todo <= table.Keys
        invariant model == AbortedBut(was, index, todo)
        decreases todo
      {
        var key :| key in todo;
        AbortIfStale(key, index, was, todo);
        todo := todo - {key};
      }
      assert StaleAt(was, index) - {} == StaleAt(was, index);
    }
  }

  /** The table when the stale entries outside of todo have been aborted. */
  function AbortedBut(w: Waiter, index: int, todo: set<string>): Waiter {
    CloseAll(w, StaleAt(w, index) - todo, true)
  }

  lemma AbortFirst(w: Waiter, index: int)
    requires Consistent(w)
    ensures AbortedBut(w, index, w.table.Keys) == w
  {
    assert StaleAt(w, index) - w.table.Keys == {};
    CloseNone(w, true);
  }

  /** Looking at one more key: it is aborted if it is stale. */
  lemma AbortNext(w: Waiter, index: int, todo: set<string>, key: string)
    requires Consistent(w) && todo <= w.table.Keys && key in todo
    ensures var now := AbortedBut(w, index, todo);
            && Closable(now, key) && key in now.table
            && AbortedBut(w, index, todo - {key}) == if now.table[key].earliestBlock == index + 1 then CloseAll(now, {key}, true) else now
  {
    var stale := StaleAt(w, index);
    CloseAllNext(w, stale - todo, key, true);
    if key in stale {
      assert stale - (todo - {key}) == stale - todo + {key};
    } else {
      assert stale - (todo - {key}) == stale - todo;
    }
  }

  /** The entry of key, if it is open, has a channel that nobody closed. */
  predicate Closable(w: Waiter, key: string) {
    key in w.table && !w.table[key].channelClosed ==> w.table[key].chan !in w.closed
  }

  /** The next key may be closed on its own. */
  lemma CloseAllNext(w: Waiter, keys: set<string>, key: string, abort: bool)
    requires Consistent(w)
    ensures Closable(CloseAll(w, keys, abort), key)
    ensures CloseAll(CloseAll(w, keys, abort), {key}, abort) == CloseAll(w, keys + {key}, abort)
  {
    CloseAllKeeps(w, keys, abort);
    CloseAllStep(w, keys, key, abort);
    var one := CloseAll(w, keys, abort);
    assert key in one.table ==> EntryConsistent(one, one.table[key]);
  }

  lemma CloseNone(w: Waiter, abort: bool)
    requires !w.panicked
    ensures CloseAll(w, {}, abort) == w
  {
    assert OpenAmong(w, {}) == {};
    assert CloseAll(w, {}, abort).table == w.table;
    assert CloseAll(w, {}, abort).closed == w.closed;
  }

  /** Closing a key that is absent or already closed changes nothing. */
  lemma CloseNothing(w: Waiter, key: string, abort: bool)
    requires !w.panicked && (key in w.table ==> w.table[key].channelClosed)
    ensures CloseAll(w, {key}, abort) == w
  {
    assert OpenAmong(w, {key}) == {};
    assert CloseAll(w, {key}, abort).table == w.table;
    assert CloseAll(w, {key}, abort).closed == w.closed;
  }
}
