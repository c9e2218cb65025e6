/** What one scheduler tick takes out of a Redis result list. Each tick pops
    up to a batch size of entries from the head of the list and stops early at
    the first pop that finds nothing (the list is empty, or the entry is the
    empty text, which is falsy); every popped entry is gone for good. The SMS
    tick skips entries it cannot turn into a row, the webhook tick gives up on
    the first one. */
module ResultBuffer {
  import opened Wrappers

  /** The outcome of a tick's loop: how many entries it popped, the rows it
      built in pop order, and whether it stopped at an entry it could not
      read. */
  datatype Drain<R> = Drain(popped: nat, rows: seq<R>, aborted: bool)

  /** The batch size a configured value allows: a loop `for (i = 0; i < max; i++)`. */
  function Budget(maxBatchSize: int): nat {
    if maxBatchSize < 0 then 0 else maxBatchSize
  }

  /** The SMS tick: unreadable entries are dropped and the loop goes on. */
  function DrainSkipping<R>(list: seq<string>, budget: nat, toRow: string -> Option<R>): (d: Drain<R>)
    ensures d.popped <= budget && d.popped <= |list| && |d.rows| <= d.popped && !d.aborted
    decreases budget
  {
    if budget == 0 || list == [] then Drain(0, [], false)
    else if list[0] == "" then Drain(1, [], false)
    else
      var rest := DrainSkipping(list[1..], budget - 1, toRow);
      Drain(rest.popped + 1, (match toRow(list[0]) case Some(r) => [r] case None => []) + rest.rows, false)
  }

  /** The row an entry contributes, if any. */
  function RowsOf<R>(row: Option<R>): seq<R> {
    match row
    case Some(r) => [r]
    case None => []
  }

  /** What is left of a skipping tick after `i` pops: `batch` holds the rows
      so far and the rest of the list is drained with the rest of the budget. */
  ghost predicate SkipProgress<R>(list: seq<string>, budget: nat, toRow: string -> Option<R>, i: nat, batch: seq<R>)
    requires i <= budget && i <= |list|
  {
    var whole, rest := DrainSkipping(list, budget, toRow), DrainSkipping(list[i..], budget - i, toRow);
    batch + rest.rows == whole.rows && i + rest.popped == whole.popped
  }

  /** A pop that finds a non-empty entry adds that entry's row, if any. */
  lemma SkipProgressStep<R>(list: seq<string>, budget: nat, toRow: string -> Option<R>, i: nat, batch: seq<R>)
    requires i < budget && i < |list| && list[i] != ""
    requires SkipProgress(list, budget, toRow, i, batch)
    ensures SkipProgress(list, budget, toRow, i + 1, batch + RowsOf(toRow(list[i])))
  {
    assert list[i..][1..] == list[i + 1..];
    var rest := DrainSkipping(list[i + 1..], budget - i - 1, toRow).rows;
    assert batch + (RowsOf(toRow(list[i])) + rest) == (batch + RowsOf(toRow(list[i]))) + rest;
  }

  /** A pop that finds nothing, or finds the empty text, ends the tick. */
  lemma SkipProgressStop<R>(list: seq<string>, budget: nat, toRow: string -> Option<R>, i: nat, batch: seq<R>)
    requires i <= budget && i <= |list|
    requires SkipProgress(list, budget, toRow, i, batch)
    requires i == budget || i == |list| || list[i] == ""
    ensures batch == DrainSkipping(list, budget, toRow).rows
    ensures DrainSkipping(list, budget, toRow).popped == (if i < budget && i < |list| then i + 1 else i)
  {
  }

  /** The webhook tick: the first unreadable entry ends the tick. */
  function DrainAborting<R>(list: seq<string>, budget: nat, toRow: string -> Option<R>): (d: Drain<R>)
    ensures d.popped <= budget && d.popped <= |list| && |d.rows| <= d.popped
    decreases budget
  {
    if budget == 0 || list == [] then Drain(0, [], false)
    else if list[0] == "" then Drain(1, [], false)
    else
      match toRow(list[0])
      case None => Drain(1, [], true)
      case Some(r) =>
        var rest := DrainAborting(list[1..], budget - 1, toRow);
        Drain(rest.popped + 1, [r] + rest.rows, rest.aborted)
  }

  /** What is left of an aborting tick after `i` pops. */
  ghost predicate AbortProgress<R>(list: seq<string>, budget: nat, toRow: string -> Option<R>, i: nat, batch: seq<R>)
    requires i <= budget && i <= |list|
  {
    var whole, rest := DrainAborting(list, budget, toRow), DrainAborting(list[i..], budget - i, toRow);
    batch + rest.rows == whole.rows && i + rest.popped == whole.popped && rest.aborted == whole.aborted
  }

  /** A pop that finds a readable entry adds its row. */
  lemma AbortProgressStep<R>(list: seq<string>, budget: nat, toRow: string -> Option<R>, i: nat, batch: seq<R>)
    requires i < budget && i < |list| && list[i] != "" && toRow(list[i]).Some?
    requires AbortProgress(list, budget, toRow, i, batch)
    ensures AbortProgress(list, budget, toRow, i + 1, batch + [toRow(list[i]).value])
  {
    assert list[i..][1..] == list[i + 1..];
    var rest := DrainAborting(list[i + 1..], budget - i - 1, toRow).rows;
    assert batch + ([toRow(list[i]).value] + rest) == (batch + [toRow(list[i]).value]) + rest;
  }

  /** A pop that finds an unreadable entry ends the tick as aborted. */
  lemma AbortProgressAbort<R>(list: seq<string>, budget: nat, toRow: string -> Option<R>, i: nat, batch: seq<R>)
    requires i < budget && i < |list| && list[i] != "" && toRow(list[i]).None?
    requires AbortProgress(list, budget, toRow, i, batch)
    ensures var whole := DrainAborting(list, budget, toRow);
      whole.aborted && whole.popped == i + 1 && whole.rows == batch
  {
  }

  /** A pop that finds nothing, or finds the empty text, ends the tick normally. */
  lemma AbortProgressStop<R>(list: seq<string>, budget: nat, toRow: string -> Option<R>, i: nat, batch: seq<R>)
    requires i <= budget && i <= |list|
    requires AbortProgress(list, budget, toRow, i, batch)
    requires i == budget || i == |list| || list[i] == ""
    ensures var whole := DrainAborting(list, budget, toRow);
      !whole.aborted && whole.rows == batch
      && whole.popped == (if i < budget && i < |list| then i + 1 else i)
  {
  }

  /** The rows of the readable entries, in order. */
  function FilterMap<R>(entries: seq<string>, toRow: string -> Option<R>): seq<R> {
    if entries == [] then []
    else (match toRow(entries[0]) case Some(r) => [r] case None => []) + FilterMap(entries[1..], toRow)
  }

  function Min(a: nat, b: nat): nat {
    if a <= b then a else b
  }

  /** Without empty entries a tick pops the batch size or the whole list,
      whichever is smaller, and batches every readable one of them in order. */
  lemma {:induction false} DrainSkippingPops<R>(list: seq<string>, budget: nat, toRow: string -> Option<R>)
    requires "" !in list
    ensures DrainSkipping(list, budget, toRow).popped == Min(budget, |list|)
    ensures DrainSkipping(list, budget, toRow).rows == FilterMap(list[..Min(budget, |list|)], toRow)
    decreases budget
  {
    if budget != 0 && list != [] {
      assert list[0] in list;
      assert "" !in list[1..] by {
        forall i | 0 <= i < |list[1..]| ensures list[1..][i] != "" {
          assert list[1..][i] == list[i + 1];
        }
      }
      DrainSkippingPops(list[1..], budget - 1, toRow);
      var k := Min(budget, |list|);
      assert list[..k][1..] == list[1..][..Min(budget - 1, |list| - 1)];
    }
  }

  /** 1500 buffered results and a batch size of 1000 leave exactly 500. */
  lemma DrainLeavesRest<R>(list: seq<string>, toRow: string -> Option<R>)
    requires |list| == 1500 && "" !in list
    ensures |list[DrainSkipping(list, 1000, toRow).popped..]| == 500
  {
    DrainSkippingPops(list, 1000, toRow);
  }

  /** The index of the first entry that cannot be read, if any. */
  function FirstUnreadable<R>(entries: seq<string>, toRow: string -> Option<R>): (r: Option<nat>)
    ensures r.Some? ==>
      (r.value < |entries| && toRow(entries[r.value]).None?
       && forall i :: 0 <= i < r.value ==> toRow(entries[i]).Some?)
    ensures r.None? ==> forall i :: 0 <= i < |entries| ==> toRow(entries[i]).Some?
  {
    if entries == [] then None
    else if toRow(entries[0]).None? then Some(0)
    else
      match FirstUnreadable(entries[1..], toRow)
      case Some(i) => Some(i + 1)
      case None => None
  }

  /** Without empty entries the webhook tick gives up exactly when one of the
      entries within the batch size cannot be read, and then it has popped
      everything up to and including that entry; otherwise it pops as much as
      the skipping tick and batches every entry. */
  lemma {:induction false} DrainAbortingOutcome<R>(list: seq<string>, budget: nat, toRow: string -> Option<R>)
    requires "" !in list
    ensures var d := DrainAborting(list, budget, toRow);
      var first := FirstUnreadable(list[..Min(budget, |list|)], toRow);
      (d.aborted <==> first.Some?)
      && (first.Some? ==> d.popped == first.value + 1)
      && (first.None? ==> d.popped == Min(budget, |list|) && d.rows == FilterMap(list[..d.popped], toRow))
    decreases budget
  {
    if budget == 0 || list == [] {
      assert list[..Min(budget, |list|)] == [];
    } else {
      NoEmptyTail(list);
      PrefixTail(list, Min(budget, |list|));
      if toRow(list[0]).Some? {
        DrainAbortingOutcome(list[1..], budget - 1, toRow);
        AbortingStep(list, budget, toRow);
      }
    }
  }

  /** The step of `DrainAbortingOutcome` for a readable first entry. */
  lemma AbortingStep<R>(list: seq<string>, budget: nat, toRow: string -> Option<R>)
    requires budget > 0 && list != [] && list[0] != "" && toRow(list[0]).Some?
    requires Min(budget, |list|) > 0 && list[..Min(budget, |list|)][1..] == list[1..][..Min(budget - 1, |list| - 1)]
    requires list[..Min(budget, |list|)][0] == list[0]
    requires var d := DrainAborting(list[1..], budget - 1, toRow);
      var first := FirstUnreadable(list[1..][..Min(budget - 1, |list| - 1)], toRow);
      (d.aborted <==> first.Some?)
      && (first.Some? ==> d.popped == first.value + 1)
      && (first.None? ==> d.popped == Min(budget - 1, |list| - 1) && d.rows == FilterMap(list[1..][..d.popped], toRow))
    ensures var d := DrainAborting(list, budget, toRow);
      var first := FirstUnreadable(list[..Min(budget, |list|)], toRow);
      (d.aborted <==> first.Some?)
      && (first.Some? ==> d.popped == first.value + 1)
      && (first.None? ==> d.popped == Min(budget, |list|) && d.rows == FilterMap(list[..d.popped], toRow))
  {
    var k := Min(budget, |list|);
    AbortingCons(list, budget, toRow);
    ReadableCons(list[..k], toRow);
  }

  lemma NoEmptyTail(list: seq<string>)
    requires "" !in list && list != []
    ensures list[0] != "" && "" !in list[1..]
  {
    assert list[0] in list;
    forall i | 0 <= i < |list[1..]| ensures list[1..][i] != "" {
      assert list[1..][i] == list[i + 1];
    }
  }

  lemma PrefixTail(list: seq<string>, k: nat)
    requires 0 < k <= |list|
    ensures list[..k][0] == list[0] && list[..k][1..] == list[1..][..k - 1]
  {
  }

  /** An aborting tick that reads its first entry goes on with the rest. */
  lemma AbortingCons<R>(list: seq<string>, budget: nat, toRow: string -> Option<R>)
    requires budget > 0 && list != [] && list[0] != "" && toRow(list[0]).Some?
    ensures var d, rest := DrainAborting(list, budget, toRow), DrainAborting(list[1..], budget - 1, toRow);
      d.popped == rest.popped + 1 && d.rows == [toRow(list[0]).value] + rest.rows && d.aborted == rest.aborted
  {
  }

  /** A readable first entry shifts the first unreadable one by one and adds
      its row in front. */
  lemma ReadableCons<R>(entries: seq<string>, toRow: string -> Option<R>)
    requires entries != [] && toRow(entries[0]).Some?
    ensures var first, rest := FirstUnreadable(entries, toRow), FirstUnreadable(entries[1..], toRow);
      (first.Some? <==> rest.Some?) && (first.Some? ==> first.value == rest.value + 1)
    ensures FilterMap(entries, toRow) == [toRow(entries[0]).value] + FilterMap(entries[1..], toRow)
  {
  }
}
