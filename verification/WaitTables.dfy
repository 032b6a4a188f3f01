/** The wait table as a value: what each critical section of the indexer does to it, and what
    every one of them keeps. WaitTableClass holds the table that is updated in place. */
module WaitTables {

  /** One entry. chan identifies the Go channel the entry was made with. */
  datatype Entry = Entry(
    listeners: int,
    chan: nat,
    channelClosed: bool,
    aborted: bool,
    earliestBlock: int)

  /** The table, the channels that have been closed, the next unused channel, and whether some
      channel was closed twice (a run-time panic in Go). */
  datatype Waiter = Waiter(table: map<string, Entry>, closed: set<nat>, nextChan: nat, panicked: bool)

  const EmptyWaiter := Waiter(map[], {}, 0, false)

  /** Adds a listener for key on behalf of a block at height. */
  function Register(w: Waiter, key: string, height: int): Waiter {
    if key in w.table then
      var e := w.table[key];
      var earliest := if e.earliestBlock > height then height else e.earliestBlock;
      w.(table := w.table[key := e.(listeners := e.listeners + 1, earliestBlock := earliest)])
    else
      w.(table := w.table[key := Entry(1, w.nextChan, false, false, height)], nextChan := w.nextChan + 1)
  }

  /** Drops one listener of key, and the entry with its last listener. */
  function Release(w: Waiter, key: string): Waiter
    requires key in w.table
  {
    var e := w.table[key];
    if e.listeners - 1 == 0 then w.(table := w.table - {key})
    else w.(table := w.table[key := e.(listeners := e.listeners - 1)])
  }

  /** The keys among keys whose entry is still open. */
  function OpenAmong(w: Waiter, keys: set<string>): set<string> {
    set k | k in keys && k in w.table && !w.table[k].channelClosed
  }

  function CloseEntry(e: Entry, abort: bool): Entry {
    e.(channelClosed := true, aborted := e.aborted || abort)
  }

  /** Closes every open entry among keys, marking it aborted if abort is set. */
  function CloseAll(w: Waiter, keys: set<string>, abort: bool): Waiter {
    var open := OpenAmong(w, keys);
    Waiter(
      map k | k in w.table :: if k in open then CloseEntry(w.table[k], abort) else w.table[k],
      w.closed + (set k | k in open :: w.table[k].chan),
      w.nextChan,
      w.panicked || ClosesTwice(w, open))
  }

  /** Closing the channels of open would close some channel a second time. */
  predicate ClosesTwice(w: Waiter, open: set<string>)
    requires open <= w.table.Keys
  {
    || (exists k :: k in open && w.table[k].chan in w.closed)
    || (exists j, k :: j in open && k in open && j != k && w.table[j].chan == w.table[k].chan)
  }

  /** The keys of the entries that only the next block could still serve. */
  function StaleAt(w: Waiter, index: int): set<string> {
    set k | k in w.table && w.table[k].earliestBlock == index + 1
  }

  // ---------- what every section keeps ----------

  /** Flags and channels agree, entries do not share channels, nothing was closed twice. */
  predicate Consistent(w: Waiter) {
    && !w.panicked
    && (forall k :: k in w.table ==> EntryConsistent(w, w.table[k]))
    && (forall j, k :: j in w.table && k in w.table && j != k ==> w.table[j].chan != w.table[k].chan)
    && (forall c :: c in w.closed ==> c < w.nextChan)
  }

  predicate EntryConsistent(w: Waiter, e: Entry) {
    && e.chan < w.nextChan
    && (e.channelClosed <==> e.chan in w.closed)
    && (e.aborted ==> e.channelClosed)
  }

  /** How a table may look later: a channel that was already made sits under the same key as
      before, its flags are never reset, and its earliest block never grows. */
  predicate Evolves(w: Waiter, w': Waiter) {
    && w.nextChan <= w'.nextChan
    && w.closed <= w'.closed
    && forall k :: k in w'.table && w'.table[k].chan < w.nextChan ==>
                     k in w.table && EntryEvolves(w.table[k], w'.table[k])
  }

  predicate EntryEvolves(e: Entry, e': Entry) {
    && e'.chan == e.chan
    && (e.channelClosed ==> e'.channelClosed)
    && (e.aborted ==> e'.aborted)
    && e'.earliestBlock <= e.earliestBlock
  }

  lemma RegisterKeeps(w: Waiter, key: string, height: int)
    requires Consistent(w)
    ensures Consistent(Register(w, key, height)) && Evolves(w, Register(w, key, height))
  {
    var w' := Register(w, key, height);
    forall k | k in w'.table
      ensures EntryConsistent(w', w'.table[k])
    {
      assert k in w.table ==> EntryConsistent(w, w.table[k]);
    }
    assert forall k :: k in w.table ==> EntryConsistent(w, w.table[k]);
  }

  lemma ReleaseKeeps(w: Waiter, key: string)
    requires Consistent(w) && key in w.table
    ensures Consistent(Release(w, key)) && Evolves(w, Release(w, key))
  {
    var w' := Release(w, key);
    forall k | k in w'.table
      ensures EntryConsistent(w', w'.table[k])
    {
      assert EntryConsistent(w, w.table[k]);
    }
  }

  lemma CloseAllKeeps(w: Waiter, keys: set<string>, abort: bool)
    requires Consistent(w)
    ensures Consistent(CloseAll(w, keys, abort)) && Evolves(w, CloseAll(w, keys, abort))
  {
    var open, w' := OpenAmong(w, keys), CloseAll(w, keys, abort);
    forall k | k in w.table
      ensures EntryConsistent(w', w'.table[k])
    {
      assert EntryConsistent(w, w.table[k]);
      if w.table[k].chan in w'.closed && w.table[k].chan !in w.closed {
        var j :| j in open && w.table[j].chan == w.table[k].chan;
        assert j == k;
      }
    }
    forall c | c in w'.closed
      ensures c < w'.nextChan
    {
      if c !in w.closed {
        var j :| j in open && w.table[j].chan == c;
        assert EntryConsistent(w, w.table[j]);
      }
    }
    forall k | k in open
      ensures w.table[k].chan !in w.closed
    {
      assert EntryConsistent(w, w.table[k]);
    }
  }

  lemma EvolvesTransitive(a: Waiter, b: Waiter, c: Waiter)
    requires Evolves(a, b) && Evolves(b, c)
    ensures Evolves(a, c)
  {
    forall k | k in c.table && c.table[k].chan < a.nextChan
      ensures k in a.table && EntryEvolves(a.table[k], c.table[k])
    {
      assert k in b.table && EntryEvolves(b.table[k], c.table[k]);
      assert EntryEvolves(a.table[k], b.table[k]);
    }
  }

  /** Closing key by key gives the same table as closing the whole set at once. */
  lemma CloseAllStep(w: Waiter, keys: set<string>, key: string, abort: bool)
    requires Consistent(w)
    ensures CloseAll(CloseAll(w, keys, abort), {key}, abort) == CloseAll(w, keys + {key}, abort)
  {
    CloseAllStepTable(w, keys, key, abort);
    CloseAllStepChannels(w, keys, key, abort);
    CloseAllStepCalm(w, keys, key, abort);
  }

  lemma CloseAllStepCalm(w: Waiter, keys: set<string>, key: string, abort: bool)
    requires Consistent(w)
    ensures !CloseAll(CloseAll(w, keys, abort), {key}, abort).panicked
    ensures !CloseAll(w, keys + {key}, abort).panicked
  {
    CloseAllKeeps(w, keys, abort);
    CloseAllKeeps(w, keys + {key}, abort);
    CloseAllKeeps(CloseAll(w, keys, abort), {key}, abort);
  }

  lemma CloseAllStepTable(w: Waiter, keys: set<string>, key: string, abort: bool)
    ensures CloseAll(CloseAll(w, keys, abort), {key}, abort).table == CloseAll(w, keys + {key}, abort).table
  {
    var one := CloseAll(w, keys, abort);
    OpenAmongStep(w, keys, key, abort);
    var two, all := CloseAll(one, {key}, abort).table, CloseAll(w, keys + {key}, abort).table;
    assert two.Keys == w.table.Keys == all.Keys;
    forall k | k in w.table
      ensures two[k] == all[k]
    {
      assert k in OpenAmong(w, keys) ==> one.table[k].channelClosed;
    }
  }

  lemma OpenAmongStep(w: Waiter, keys: set<string>, key: string, abort: bool)
    ensures OpenAmong(w, keys + {key}) == OpenAmong(w, keys) + OpenAmong(CloseAll(w, keys, abort), {key})
  {
    var one := CloseAll(w, keys, abort);
    assert one.table.Keys == w.table.Keys;
    if key in w.table {
      assert key in OpenAmong(w, keys) ==> one.table[key].channelClosed;
    }
  }

  lemma CloseAllStepChannels(w: Waiter, keys: set<string>, key: string, abort: bool)
    ensures CloseAll(CloseAll(w, keys, abort), {key}, abort).closed == CloseAll(w, keys + {key}, abort).closed
  {
    var one := CloseAll(w, keys, abort);
    OpenAmongStep(w, keys, key, abort);
    var first, second, both := OpenAmong(w, keys), OpenAmong(one, {key}), OpenAmong(w, keys + {key});
    assert forall k :: k in w.table ==> one.table[k].chan == w.table[k].chan;
    assert (set k | k in second :: one.table[k].chan) == (set k | k in second :: w.table[k].chan);
    assert (set k | k in both :: w.table[k].chan)
        == (set k | k in first :: w.table[k].chan) + (set k | k in second :: w.table[k].chan);
  }
}
