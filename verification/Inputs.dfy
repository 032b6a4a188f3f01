/** Which boxes must be looked up before a list of transactions can be converted. */
module Inputs {
  import opened Types

  function OutputIds(tx: ErgoTransaction): set<string> {
    set o | o in tx.outputs :: o.boxId
  }

  /** The boxes that some transactions create. */
  function OutputsOf(txs: seq<ErgoTransaction>): set<string> {
    if txs == [] then {}
    else OutputsOf(txs[..|txs| - 1]) + OutputIds(txs[|txs| - 1])
  }

  /** The inputs of tx, in order, whose box is not among known. */
  function ExternalInputs(id: string, inputs: seq<ErgoInput>, known: set<string>): seq<InputCtx> {
    if inputs == [] then []
    else
      var rest := ExternalInputs(id, inputs[..|inputs| - 1], known);
      var box := inputs[|inputs| - 1].boxId;
      if box in known then rest else rest + [InputCtx(id, box)]
  }

  /** What GetInputsForTxs computes: a transaction's own outputs already count as known. */
  function RequiredInputs(txs: seq<ErgoTransaction>): seq<InputCtx> {
    if txs == [] then []
    else
      var tx := txs[|txs| - 1];
      RequiredInputs(txs[..|txs| - 1]) + ExternalInputs(tx.id, tx.inputs, OutputsOf(txs))
  }

  function InputIds(inputs: seq<InputCtx>): set<string> {
    set c | c in inputs :: c.inputId
  }

  /** Gathers the inputs that have to be fetched, keeping a running list of the outputs. */
  method GetInputsForTxs(txs: seq<ErgoTransaction>) returns (inputCoins: seq<InputCtx>)
    ensures inputCoins == RequiredInputs(txs)
  {
    inputCoins := [];
    var outputs: seq<string> := [];
    for t := 0 to |txs|
      invariant inputCoins == RequiredInputs(txs[..t])
      invariant forall id :: id in outputs <==> id in OutputsOf(txs[..t])
    {
      var tx := txs[t];
      assert txs[..t + 1][..t] == txs[..t];
      for o := 0 to |tx.outputs|
        invariant forall id :: id in outputs <==>
                                 id in OutputsOf(txs[..t]) || exists j :: 0 <= j < o && tx.outputs[j].boxId == id
      {
        outputs := outputs + [tx.outputs[o].boxId];
      }
      assert forall id :: id in OutputIds(tx) <==> exists j :: 0 <= j < |tx.outputs| && tx.outputs[j].boxId == id;
      for i := 0 to |tx.inputs|
        invariant inputCoins == RequiredInputs(txs[..t]) + ExternalInputs(tx.id, tx.inputs[..i], OutputsOf(txs[..t + 1]))
      {
        assert tx.inputs[..i + 1][..i] == tx.inputs[..i];
        if tx.inputs[i].boxId !in outputs {
          inputCoins := inputCoins + [InputCtx(tx.id, tx.inputs[i].boxId)];
        }
      }
      assert tx.inputs[..|tx.inputs|] == tx.inputs;
    }
    assert txs[..|txs|] == txs;
  }

  // ---------- what the result means ----------

  /** A place where some transaction spends a box: the input at position i of transaction t. */
  datatype Occurrence = Occurrence(t: nat, i: nat)

  predicate IsOccurrence(txs: seq<ErgoTransaction>, o: Occurrence) {
    o.t < |txs| && o.i < |txs[o.t].inputs|
  }

  function BoxAt(txs: seq<ErgoTransaction>, o: Occurrence): string
    requires IsOccurrence(txs, o)
  {
    txs[o.t].inputs[o.i].boxId
  }

  /** No transaction up to and including the spending one creates the box. */
  predicate External(txs: seq<ErgoTransaction>, o: Occurrence)
    requires IsOccurrence(txs, o)
  {
    forall t :: 0 <= t <= o.t ==> BoxAt(txs, o) !in OutputIds(txs[t])
  }

  predicate Before(o: Occurrence, o': Occurrence) {
    o.t < o'.t || (o.t == o'.t && o.i < o'.i)
  }

  /** origin[k] is where result[k] comes from: external places only, all of them, in block order. */
  ghost predicate ListsExternals(txs: seq<ErgoTransaction>, result: seq<InputCtx>, origin: seq<Occurrence>) {
    && |origin| == |result|
    && (forall k :: 0 <= k < |origin| ==>
                      && IsOccurrence(txs, origin[k]) && External(txs, origin[k])
                      && result[k] == InputCtx(txs[origin[k].t].id, BoxAt(txs, origin[k])))
    && (forall j, k :: 0 <= j < k < |origin| ==> Before(origin[j], origin[k]))
    && (forall o :: IsOccurrence(txs, o) && External(txs, o) ==> o in origin)
  }

  lemma {:induction false} OutputsOfMembers(txs: seq<ErgoTransaction>)
    ensures forall id :: id in OutputsOf(txs) <==> exists t :: 0 <= t < |txs| && id in OutputIds(txs[t])
  {
    if txs != [] {
      var init := txs[..|txs| - 1];
      OutputsOfMembers(init);
      assert forall t :: 0 <= t < |init| ==> init[t] == txs[t];
    }
  }

  /** The places in the first n inputs of the last transaction that are external. */
  lemma {:induction false} LastExternals(txs: seq<ErgoTransaction>, n: nat) returns (origin: seq<Occurrence>)
    requires txs != [] && n <= |txs[|txs| - 1].inputs|
    ensures var tx := txs[|txs| - 1];
            var result := ExternalInputs(tx.id, tx.inputs[..n], OutputsOf(txs));
            && |origin| == |result|
            && (forall k :: 0 <= k < |origin| ==>
                              && origin[k].t == |txs| - 1 && origin[k].i < n && External(txs, origin[k])
                              && result[k] == InputCtx(tx.id, BoxAt(txs, origin[k])))
    ensures forall j, k :: 0 <= j < k < |origin| ==> origin[j].i < origin[k].i
    ensures forall o: Occurrence :: o.t == |txs| - 1 && o.i < n && External(txs, o) ==> o in origin
  {
    var tx := txs[|txs| - 1];
    if n == 0 {
      return [];
    }
    origin := LastExternals(txs, n - 1);
    OutputsOfMembers(txs);
    assert tx.inputs[..n][..n - 1] == tx.inputs[..n - 1];
    var o := Occurrence(|txs| - 1, n - 1);
    assert External(txs, o) <==> BoxAt(txs, o) !in OutputsOf(txs);
    if BoxAt(txs, o) !in OutputsOf(txs) {
      origin := origin + [o];
    }
  }

  /** The result lists, in block order and with multiplicity, exactly the inputs whose box no
      transaction up to the spending one creates. */
  lemma {:induction false} RequiredInputsExact(txs: seq<ErgoTransaction>) returns (origin: seq<Occurrence>)
    ensures ListsExternals(txs, RequiredInputs(txs), origin)
  {
    if txs == [] {
      return [];
    }
    var init, tx := txs[..|txs| - 1], txs[|txs| - 1];
    var first := RequiredInputsExact(init);
    var second := LastExternals(txs, |tx.inputs|);
    assert tx.inputs[..|tx.inputs|] == tx.inputs;
    origin := first + second;
    forall k | 0 <= k < |origin|
      ensures && IsOccurrence(txs, origin[k]) && External(txs, origin[k])
              && RequiredInputs(txs)[k] == InputCtx(txs[origin[k].t].id, BoxAt(txs, origin[k]))
    {
      if k < |first| {
        OccurrenceOfInit(txs, first[k]);
      } else {
        assert origin[k] == second[k - |first|];
      }
    }
    forall o | IsOccurrence(txs, o) && External(txs, o)
      ensures o in origin
    {
      if o.t < |init| {
        OccurrenceOfInit(txs, o);
        assert o in first;
      } else {
        assert o in second;
      }
    }
  }

  lemma OccurrenceOfInit(txs: seq<ErgoTransaction>, o: Occurrence)
    requires txs != [] && IsOccurrence(txs, o) && o.t < |txs| - 1
    ensures var init := txs[..|txs| - 1];
            IsOccurrence(init, o) && BoxAt(init, o) == BoxAt(txs, o) && External(init, o) == External(txs, o)
  {
    assert forall t :: 0 <= t <= o.t ==> txs[..|txs| - 1][t] == txs[t];
  }

  /** Every input that some transaction of the list creates is created by the spending
      transaction or an earlier one. */
  predicate NoForwardSpend(txs: seq<ErgoTransaction>) {
    forall t, i :: 0 <= t < |txs| && 0 <= i < |txs[t].inputs| && txs[t].inputs[i].boxId in OutputsOf(txs) ==>
                     exists s :: 0 <= s <= t && txs[t].inputs[i].boxId in OutputIds(txs[s])
  }

  function AllInputIds(txs: seq<ErgoTransaction>): set<string> {
    set t, i | 0 <= t < |txs| && 0 <= i < |txs[t].inputs| :: txs[t].inputs[i].boxId
  }

  /** As a set, the result is every input of the list that the list does not create, exactly when
      no transaction spends a box that only a later one creates. */
  lemma RequiredIsInputsMinusOutputs(txs: seq<ErgoTransaction>)
    ensures InputIds(RequiredInputs(txs)) == AllInputIds(txs) - OutputsOf(txs) <==> NoForwardSpend(txs)
  {
    OutputsOfMembers(txs);
    RequiredIds(txs);
    var required := InputIds(RequiredInputs(txs));
    if NoForwardSpend(txs) {
      forall id
        ensures id in required <==> id in AllInputIds(txs) - OutputsOf(txs)
      {
        if id in required {
          var o :| IsOccurrence(txs, o) && External(txs, o) && BoxAt(txs, o) == id;
          assert txs[o.t].inputs[o.i].boxId == id;
        }
        if id in AllInputIds(txs) - OutputsOf(txs) {
          var t, i :| 0 <= t < |txs| && 0 <= i < |txs[t].inputs| && txs[t].inputs[i].boxId == id;
          var o := Occurrence(t, i);
          assert IsOccurrence(txs, o) && External(txs, o) && BoxAt(txs, o) == id;
        }
      }
    }
    if required == AllInputIds(txs) - OutputsOf(txs) {
      forall t, i | 0 <= t < |txs| && 0 <= i < |txs[t].inputs| && txs[t].inputs[i].boxId in OutputsOf(txs)
        ensures exists s :: 0 <= s <= t && txs[t].inputs[i].boxId in OutputIds(txs[s])
      {
        var o := Occurrence(t, i);
        assert IsOccurrence(txs, o);
        assert BoxAt(txs, o) !in required;
      }
    }
  }

  /** A box that is spent before the transaction that creates it is listed, although it is an output. */
  lemma ForwardSpendIsListed()
    ensures var txs := [ErgoTransaction("tx0", [ErgoInput("b")], []), ErgoTransaction("tx1", [], [ErgoOutput("b", 1, "tree", 0)])];
            && RequiredInputs(txs) == [InputCtx("tx0", "b")]
            && AllInputIds(txs) - OutputsOf(txs) == {}
            && !NoForwardSpend(txs)
  {
    var tx0, tx1 := ErgoTransaction("tx0", [ErgoInput("b")], []), ErgoTransaction("tx1", [], [ErgoOutput("b", 1, "tree", 0)]);
    var txs := [tx0, tx1];
    assert txs[..1] == [tx0] && [tx0][..0] == [];
    assert OutputIds(tx0) == {} && OutputsOf([tx0]) == {};
    assert tx0.inputs[..0] == [];
    assert ExternalInputs("tx0", tx0.inputs, {}) == [InputCtx("tx0", "b")];
    assert RequiredInputs([tx0]) == [InputCtx("tx0", "b")];
    assert tx1.outputs[0] in tx1.outputs && "b" in OutputIds(tx1);
    assert OutputsOf(txs) == OutputsOf([tx0]) + OutputIds(tx1);
    forall id | id in AllInputIds(txs)
      ensures id == "b"
    {
    }
    RequiredIsInputsMinusOutputs(txs);
    assert InputCtx("tx0", "b") in RequiredInputs(txs) && "b" in InputIds(RequiredInputs(txs));
  }

  /** An identifier has to be fetched exactly when some external place spends it. */
  lemma RequiredIds(txs: seq<ErgoTransaction>)
    ensures forall id :: id in InputIds(RequiredInputs(txs)) <==>
                           exists o :: IsOccurrence(txs, o) && External(txs, o) && BoxAt(txs, o) == id
  {
    var origin := RequiredInputsExact(txs);
    var result := RequiredInputs(txs);
    forall id
      ensures id in InputIds(result) <==>
                exists o :: IsOccurrence(txs, o) && External(txs, o) && BoxAt(txs, o) == id
    {
      if id in InputIds(result) {
        var k :| 0 <= k < |result| && result[k].inputId == id;
        assert IsOccurrence(txs, origin[k]) && External(txs, origin[k]) && BoxAt(txs, origin[k]) == id;
      }
      if o :| IsOccurrence(txs, o) && External(txs, o) && BoxAt(txs, o) == id {
        var k :| 0 <= k < |origin| && origin[k] == o;
        assert result[k] in result && result[k].inputId == id;
      }
    }
  }
}
