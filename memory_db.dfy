/**
 * The wallet's in-memory output-manager backend: one object holding three
 * lists of outputs, two maps of pending transactions and the key-manager
 * state, updated in place by each backend call. Every method is proved to
 * compute exactly the operation of the same name in OutputSpec.
 */
module MemoryDb {
  import opened Wrappers
  import opened OutputTypes
  import opened OutputSpec

  /** `iter().position(|v| v.spending_key == k)` on a list of outputs. */
  method FindPosition(s: seq<UnblindedOutput>, k: SpendingKey) returns (pos: Option<nat>)
    ensures pos == IndexOfKey(s, k)
  {
    var i := 0;
    while i < |s|
      invariant 0 <= i <= |s|
      invariant forall j :: 0 <= j < i ==> s[j].spendingKey != k
    {
      if s[i].spendingKey == k {
        return Some(i);
      }
      i := i + 1;
    }
    return None;
  }

  /** The keys of a hash map, in the unspecified order its iterator yields them. */
  method MapKeys(m: map<TxId, PendingTransactionOutputs>) returns (ids: seq<TxId>)
    ensures Enumerates(ids, m.Keys)
  {
    ids := [];
    var rest := m.Keys;
    while rest != {}
      invariant rest <= m.Keys
      invariant Distinct(ids)
      invariant forall t :: t in ids <==> t in m.Keys && t !in rest
      decreases |rest|
    {
      var t :| t in rest;
      ids := ids + [t];
      rest := rest - {t};
    }
  }

  /** A copy of the long-term map with every short-term entry inserted into it, as `fetch` builds it. */
  method MergePending(long: map<TxId, PendingTransactionOutputs>, short: map<TxId, PendingTransactionOutputs>)
    returns (all: map<TxId, PendingTransactionOutputs>)
    ensures all.Keys == long.Keys + short.Keys
    ensures forall t :: t in short ==> all[t] == short[t]
    ensures forall t :: t in long && t !in short ==> all[t] == long[t]
  {
    all := long;
    var ids := MapKeys(short);
    for i := 0 to |ids|
      invariant forall t :: t in all <==> t in long || t in ids[..i]
      invariant forall t :: t in all ==> all[t] == if t in ids[..i] then short[t] else long[t]
    {
      assert forall t :: t in ids[..i + 1] <==> t in ids[..i] || t == ids[i];
      all := all[ids[i] := short[ids[i]]];
    }
    assert ids[..|ids|] == ids;
  }

  /**
   * One collecting loop of `timeout_pending_transactions`: the ids, visited in
   * the order `ids`, whose entry in `m` has expired. The period is converted
   * to a chrono duration inside the loop, so a period too long to convert
   * fails as soon as there is one entry to look at.
   */
  method CollectExpired(m: map<TxId, PendingTransactionOutputs>, ids: seq<TxId>, period: nat, now: Timestamp)
    returns (r: Result<seq<TxId>>)
    requires forall i :: 0 <= i < |ids| ==> ids[i] in m
    ensures r.Err? <==> PeriodTooLong(period) && ids != []
    ensures r.Err? ==> r.error == DurationOutOfRange
    ensures r.Ok? ==> r.value == ExpiredIds(m, ids, period, now)
  {
    var expired: seq<TxId> := [];
    for i := 0 to |ids|
      invariant expired == ExpiredIds(m, ids[..i], period, now)
      invariant PeriodTooLong(period) ==> i == 0
    {
      if PeriodTooLong(period) {
        return Err(DurationOutOfRange);
      }
      assert ids[..i + 1][..i] == ids[..i];
      if m[ids[i]].timestamp + period < now {
        expired := expired + [ids[i]];
      }
    }
    assert ids[..|ids|] == ids;
    r := Ok(expired);
  }

  class OutputManagerMemoryDatabase {
    var unspentOutputs: seq<UnblindedOutput>
    var spentOutputs: seq<UnblindedOutput>
    var invalidOutputs: seq<UnblindedOutput>
    var pendingTransactions: map<TxId, PendingTransactionOutputs>
    var shortTermPendingTransactions: map<TxId, PendingTransactionOutputs>
    var keyManagerState: Option<KeyManagerState>

    /** The database's contents as a value. */
    function State(): DbState
      reads this
    {
      DbState(unspentOutputs, spentOutputs, invalidOutputs,
              pendingTransactions, shortTermPendingTransactions, keyManagerState)
    }

    constructor ()
      ensures State() == EmptyDb
    {
      unspentOutputs, spentOutputs, invalidOutputs := [], [], [];
      pendingTransactions, shortTermPendingTransactions := map[], map[];
      keyManagerState := None;
    }

    method Fetch(key: DbKey) returns (r: Result<Option<DbValue>>)
      ensures r == Ok(OutputSpec.Fetch(State(), key))
    {
      match key
      case SpentOutput(k) =>
        var pos := FindPosition(spentOutputs, k);
        r := Ok(if pos.Some? then Some(DbValue.SpentOutput(spentOutputs[pos.value])) else None);
      case UnspentOutput(k) =>
        var pos := FindPosition(unspentOutputs, k);
        r := Ok(if pos.Some? then Some(DbValue.UnspentOutput(unspentOutputs[pos.value])) else None);
      case PendingTransactionOutputs(t) =>
        var found: Option<PendingTransactionOutputs> := None;
        if t in pendingTransactions {
          found := Some(pendingTransactions[t]);
        }
        if found.None? && t in shortTermPendingTransactions {
          found := Some(shortTermPendingTransactions[t]);
        }
        r := Ok(if found.Some? then Some(DbValue.PendingTransactionOutputs(found.value)) else None);
      case UnspentOutputs =>
        r := Ok(Some(DbValue.UnspentOutputs(unspentOutputs)));
      case SpentOutputs =>
        r := Ok(Some(DbValue.SpentOutputs(spentOutputs)));
      case AllPendingTransactionOutputs =>
        var all := MergePending(pendingTransactions, shortTermPendingTransactions);
        assert all == pendingTransactions + shortTermPendingTransactions;
        r := Ok(Some(DbValue.AllPendingTransactionOutputs(all)));
      case KeyManagerState =>
        r := Ok(if keyManagerState.Some? then Some(DbValue.KeyManagerState(keyManagerState.value)) else None);
      case InvalidOutputs =>
        r := Ok(Some(DbValue.InvalidOutputs(invalidOutputs)));
    }

    method Write(op: WriteOperation) returns (r: Result<Option<DbValue>>)
      modifies this
      ensures Step(State(), r) == OutputSpec.Write(old(State()), op)
    {
      match op
      case Insert(pair) =>
        match pair {
          case SpentOutput(k, o) =>
            var inSpent := FindPosition(spentOutputs, k);
            var inUnspent := FindPosition(unspentOutputs, k);
            if inSpent.Some? || inUnspent.Some? {
              return Err(DuplicateOutput);
            }
            spentOutputs := spentOutputs + [o];
          case UnspentOutput(k, o) =>
            var inUnspent := FindPosition(unspentOutputs, k);
            var inSpent := FindPosition(spentOutputs, k);
            if inUnspent.Some? || inSpent.Some? {
              return Err(DuplicateOutput);
            }
            unspentOutputs := unspentOutputs + [o];
          case PendingTransactionOutputs(t, p) =>
            pendingTransactions := pendingTransactions[t := p];
          case KeyManagerState(km) =>
            keyManagerState := Some(km);
        }
        r := Ok(None);
      case Remove(key) =>
        match key {
          case SpentOutput(k) =>
            var pos := FindPosition(spentOutputs, k);
            if pos.None? {
              return Err(ValueNotFound(key));
            }
            var o := spentOutputs[pos.value];
            spentOutputs := RemoveAt(spentOutputs, pos.value);
            return Ok(Some(DbValue.SpentOutput(o)));
          case UnspentOutput(k) =>
            var pos := FindPosition(unspentOutputs, k);
            if pos.None? {
              return Err(ValueNotFound(key));
            }
            var o := unspentOutputs[pos.value];
            unspentOutputs := RemoveAt(unspentOutputs, pos.value);
            return Ok(Some(DbValue.UnspentOutput(o)));
          case PendingTransactionOutputs(t) =>
            // Only the long-term map is searched.
            if t in pendingTransactions {
              var p := pendingTransactions[t];
              pendingTransactions := pendingTransactions - {t};
              return Ok(Some(DbValue.PendingTransactionOutputs(p)));
            }
            return Err(ValueNotFound(key));
          case UnspentOutputs => return Err(OperationNotSupported);
          case SpentOutputs => return Err(OperationNotSupported);
          case AllPendingTransactionOutputs => return Err(OperationNotSupported);
          case KeyManagerState => return Err(OperationNotSupported);
          case InvalidOutputs => return Err(OperationNotSupported);
        }
    }

    /** Removes `tx` from the long-term map, or failing that from the short-term map. */
    method TakePendingTransaction(tx: TxId) returns (p: Option<PendingTransactionOutputs>)
      modifies this
      ensures p.None? <==> TakePending(old(State()), tx).None?
      ensures p.None? ==> State() == old(State())
      ensures p.Some? ==> TakePending(old(State()), tx) == Some((p.value, State()))
    {
      p := None;
      if tx in pendingTransactions {
        p := Some(pendingTransactions[tx]);
        pendingTransactions := pendingTransactions - {tx};
      }
      if p.None? && tx in shortTermPendingTransactions {
        p := Some(shortTermPendingTransactions[tx]);
        shortTermPendingTransactions := shortTermPendingTransactions - {tx};
      }
    }

    method ConfirmTransaction(tx: TxId) returns (r: Result<()>)
      modifies this
      ensures Step(State(), r) == OutputSpec.ConfirmTransaction(old(State()), tx)
    {
      var taken := TakePendingTransaction(tx);
      if taken.None? {
        return Err(ValueNotFound(DbKey.PendingTransactionOutputs(tx)));
      }
      var p := taken.value;
      ghost var s1 := State();
      for i := 0 to |p.outputsToBeSpent|
        invariant State() == s1.(spent := s1.spent + p.outputsToBeSpent[..i])
      {
        spentOutputs := spentOutputs + [p.outputsToBeSpent[i]];
      }
      assert p.outputsToBeSpent[..|p.outputsToBeSpent|] == p.outputsToBeSpent;
      ghost var s2 := State();
      for i := 0 to |p.outputsToBeReceived|
        invariant State() == s2.(unspent := s2.unspent + p.outputsToBeReceived[..i])
      {
        unspentOutputs := unspentOutputs + [p.outputsToBeReceived[i]];
      }
      assert p.outputsToBeReceived[..|p.outputsToBeReceived|] == p.outputsToBeReceived;
      r := Ok(());
    }

    /**
     * The loop of `short_term_encumber_outputs`: removes the requested outputs
     * from the unspent list one by one, stopping at the first one not found.
     */
    method TakeUnspentOutputs(requested: seq<UnblindedOutput>) returns (taken: seq<UnblindedOutput>, complete: bool)
      modifies this`unspentOutputs
      ensures TakeOutputs(old(unspentOutputs), requested) == Encumbrance(unspentOutputs, taken, complete)
    {
      taken := [];
      for i := 0 to |requested|
        invariant TakeOutputs(old(unspentOutputs), requested) ==
                  AfterTaking(taken, TakeOutputs(unspentOutputs, requested[i..]))
      {
        var pos := FindPosition(unspentOutputs, requested[i].spendingKey);
        TakeOutputsStep(unspentOutputs, requested, i);
        if pos.None? {
          // The outputs already taken are not put back.
          return taken, false;
        }
        taken := taken + [unspentOutputs[pos.value]];
        unspentOutputs := RemoveAt(unspentOutputs, pos.value);
      }
      assert requested[|requested|..] == [];
      complete := true;
    }

    method ShortTermEncumberOutputs(tx: TxId, outputsToSend: seq<UnblindedOutput>,
                                    changeOutput: Option<UnblindedOutput>, now: Timestamp)
      returns (r: Result<()>)
      modifies this
      ensures Step(State(), r) == ShortTermEncumber(old(State()), tx, outputsToSend, changeOutput, now)
    {
      var outputsToBeSpent, complete := TakeUnspentOutputs(outputsToSend);
      if !complete {
        return Err(ValuesNotFound);
      }
      var received: seq<UnblindedOutput> := [];
      if changeOutput.Some? {
        received := received + [changeOutput.value];
      }
      assert received == OptionToSeq(changeOutput);
      var entry := PendingTransactionOutputs.PendingTransactionOutputs(tx, outputsToBeSpent, received, now);
      shortTermPendingTransactions := shortTermPendingTransactions[tx := entry];
      r := Ok(());
    }

    method ConfirmEncumberedOutputs(tx: TxId) returns (r: Result<()>)
      modifies this
      ensures Step(State(), r) == ConfirmEncumbered(old(State()), tx)
    {
      if tx !in shortTermPendingTransactions {
        return Err(ValueNotFound(DbKey.PendingTransactionOutputs(tx)));
      }
      var p := shortTermPendingTransactions[tx];
      shortTermPendingTransactions := shortTermPendingTransactions - {tx};
      pendingTransactions := pendingTransactions[p.txId := p];
      r := Ok(());
    }

    method CancelPendingTransaction(tx: TxId) returns (r: Result<()>)
      modifies this
      ensures Step(State(), r) == Cancel(old(State()), tx)
    {
      var taken := TakePendingTransaction(tx);
      if taken.None? {
        return Err(ValueNotFound(DbKey.PendingTransactionOutputs(tx)));
      }
      var p := taken.value;
      ghost var s1 := State();
      for i := 0 to |p.outputsToBeSpent|
        invariant State() == s1.(unspent := s1.unspent + p.outputsToBeSpent[..i])
      {
        unspentOutputs := unspentOutputs + [p.outputsToBeSpent[i]];
      }
      assert p.outputsToBeSpent[..|p.outputsToBeSpent|] == p.outputsToBeSpent;
      r := Ok(());
    }

    /** Cancels `ids` in order, giving up at the first failure. */
    method CancelEach(ids: seq<TxId>) returns (r: Result<()>)
      modifies this
      ensures Step(State(), r) == CancelAll(old(State()), ids)
    {
      for i := 0 to |ids|
        invariant CancelAll(old(State()), ids) == CancelAll(State(), ids[i..])
      {
        assert ids[i..][0] == ids[i] && ids[i..][1..] == ids[i + 1..];
        var c := CancelPendingTransaction(ids[i]);
        if c.Err? {
          return c;
        }
      }
      assert ids[|ids|..] == [];
      r := Ok(());
    }

    /**
     * Cancels every short-term entry of a snapshot taken first, in the
     * snapshot's iteration order `order`.
     */
    method ClearShortTermEncumberances() returns (r: Result<()>, ghost order: seq<TxId>)
      modifies this
      ensures Enumerates(order, old(shortTermPendingTransactions).Keys)
      ensures Step(State(), r) == CancelAll(old(State()), order)
    {
      var snapshot := shortTermPendingTransactions;
      var ids := MapKeys(snapshot);
      order := ids;
      r := CancelEach(ids);
    }

    /**
     * Collects the expired entries of both maps, long-term first, each in its
     * map's iteration order (`longIds`, `shortIds`), then cancels them.
     */
    method TimeoutPendingTransactions(period: nat, now: Timestamp)
      returns (r: Result<()>, ghost longIds: seq<TxId>, ghost shortIds: seq<TxId>)
      modifies this
      ensures Enumerates(longIds, old(pendingTransactions).Keys)
      ensures Enumerates(shortIds, old(shortTermPendingTransactions).Keys)
      ensures Step(State(), r) == Timeout(old(State()), period, now, longIds, shortIds)
    {
      var longKeys := MapKeys(pendingTransactions);
      var shortKeys := MapKeys(shortTermPendingTransactions);
      longIds, shortIds := longKeys, shortKeys;
      var fromLong := CollectExpired(pendingTransactions, longKeys, period, now);
      if fromLong.Err? {
        return Err(fromLong.error), longIds, shortIds;
      }
      var fromShort := CollectExpired(shortTermPendingTransactions, shortKeys, period, now);
      if fromShort.Err? {
        return Err(fromShort.error), longIds, shortIds;
      }
      if PeriodTooLong(period) {
        assert pendingTransactions == map[] && shortTermPendingTransactions == map[];
      }
      r := CancelEach(fromLong.value + fromShort.value);
    }

    method InvalidateUnspentOutput(output: UnblindedOutput) returns (r: Result<()>)
      modifies this
      ensures Step(State(), r) == Invalidate(old(State()), output)
    {
      var pos := FindPosition(unspentOutputs, output.spendingKey);
      if pos.None? {
        return Err(ValuesNotFound);
      }
      var o := unspentOutputs[pos.value];
      unspentOutputs := RemoveAt(unspentOutputs, pos.value);
      invalidOutputs := invalidOutputs + [o];
      r := Ok(());
    }

    method IncrementKeyIndex() returns (r: Result<()>)
      modifies this
      ensures Step(State(), r) == OutputSpec.IncrementKeyIndex(old(State()))
    {
      if keyManagerState.None? {
        return Err(KeyManagerNotInitialized);
      }
      var km := keyManagerState.value;
      keyManagerState := Some(km.(primaryKeyIndex := km.primaryKeyIndex + 1));
      r := Ok(());
    }
  }
}
