/**
 * What the output database's operations promise together: cancelling a
 * fresh encumbrance whose id is not in the long-term map puts the taken
 * outputs back (as a multiset), a transaction's life from encumbrance to
 * confirmation moves exactly its outputs, a timeout cancels exactly the
 * expired entries when no id is in both maps, and the source's quirks
 * (non-atomic encumbering, the long-term map taking precedence) are stated
 * as they are.
 */
module OutputProperties {
  import opened Wrappers
  import opened OutputTypes
  import opened OutputSpec

  // ---------------------------------------------------------------------------
  // Helpers about lists of outputs

  lemma RemoveAtKeepsOtherKeys(s: seq<UnblindedOutput>, p: nat, k: SpendingKey)
    requires p < |s|
    ensures s[p].spendingKey != k ==> (HasKey(RemoveAt(s, p), k) <==> HasKey(s, k))
    ensures !HasKey(s, k) ==> !HasKey(RemoveAt(s, p), k)
  {
    var r := RemoveAt(s, p);
    if HasKey(r, k) {
      var i :| 0 <= i < |r| && r[i].spendingKey == k;
      assert i < p ==> s[i] == r[i];
      assert i >= p ==> s[i + 1] == r[i];
    }
    if s[p].spendingKey != k && HasKey(s, k) {
      var i :| 0 <= i < |s| && s[i].spendingKey == k;
      assert i != p;
      assert i < p ==> r[i].spendingKey == k;
      assert i > p ==> r[i - 1].spendingKey == k;
    }
  }

  lemma IndexOfKeyAppend(s: seq<UnblindedOutput>, o: UnblindedOutput)
    requires !HasKey(s, o.spendingKey)
    ensures IndexOfKey(s + [o], o.spendingKey) == Some(|s|)
  {
    var t := s + [o];
    assert t[|s|].spendingKey == o.spendingKey;
    var i := IndexOfKey(t, o.spendingKey);
    assert i.Some?;
  }

  // ---------------------------------------------------------------------------
  // Insert and remove

  /** Inserting a fresh unspent output and then removing its key gives the output back and restores the database. */
  lemma InsertThenRemoveUnspent(s: DbState, o: UnblindedOutput)
    requires !HasKey(s.spent, o.spendingKey) && !HasKey(s.unspent, o.spendingKey)
    ensures var ins := Write(s, Insert(DbKeyValuePair.UnspentOutput(o.spendingKey, o)));
            && ins.result == Ok(None)
            && Write(ins.state, Remove(DbKey.UnspentOutput(o.spendingKey))) == Step(s, Ok(Some(DbValue.UnspentOutput(o))))
  {
    IndexOfKeyAppend(s.unspent, o);
    assert RemoveAt(s.unspent + [o], |s.unspent|) == s.unspent;
  }

  /** Removing a pending transaction looks only at the long-term map. */
  lemma RemoveIgnoresShortTerm(s: DbState, tx: TxId)
    requires tx !in s.pending && tx in s.shortTerm
    ensures Write(s, Remove(DbKey.PendingTransactionOutputs(tx))) ==
            Step(s, Err(ValueNotFound(DbKey.PendingTransactionOutputs(tx))))
  {
  }

  /** Fetching one transaction prefers the long-term map; fetching all of them prefers the short-term map. */
  lemma FetchPrecedence(s: DbState, tx: TxId)
    requires tx in s.pending && tx in s.shortTerm
    ensures Fetch(s, DbKey.PendingTransactionOutputs(tx)) == Some(DbValue.PendingTransactionOutputs(s.pending[tx]))
    ensures Fetch(s, DbKey.AllPendingTransactionOutputs).value.pending[tx] == s.shortTerm[tx]
  {
  }

  // ---------------------------------------------------------------------------
  // Encumbering

  /** The encumbering loop only moves outputs: what remains and what was taken make up the unspent list. */
  lemma {:induction false} TakeOutputsConserves(unspent: seq<UnblindedOutput>, requested: seq<UnblindedOutput>)
    ensures var e := TakeOutputs(unspent, requested);
            multiset(e.remaining) + multiset(e.taken) == multiset(unspent)
  {
    if requested != [] {
      match IndexOfKey(unspent, requested[0].spendingKey)
      case None =>
      case Some(p) =>
        TakeOutputsConserves(RemoveAt(unspent, p), requested[1..]);
        RemoveAtMultiset(unspent, p);
    }
  }

  /** `f` sends each position of `a` to a position of `b` holding the same element, in increasing order. */
  ghost predicate Embeds<T>(a: seq<T>, b: seq<T>, f: seq<int>) {
    && |f| == |a|
    && (forall i :: 0 <= i < |f| ==> 0 <= f[i] < |b| && a[i] == b[f[i]])
    && (forall i, j :: 0 <= i < j < |f| ==> f[i] < f[j])
  }

  /** `a` is `b` with some elements left out and the others in their original order. */
  ghost predicate Subsequence<T>(a: seq<T>, b: seq<T>) {
    exists f :: Embeds(a, b, f)
  }

  lemma SubsequenceRefl<T>(s: seq<T>)
    ensures Subsequence(s, s)
  {
    var f := seq(|s|, k => k);
    assert Embeds(s, s, f);
  }

  lemma SubsequenceTrans<T>(a: seq<T>, b: seq<T>, c: seq<T>)
    requires Subsequence(a, b) && Subsequence(b, c)
    ensures Subsequence(a, c)
  {
    var f :| Embeds(a, b, f);
    var g :| Embeds(b, c, g);
    var h := seq(|f|, k requires 0 <= k < |f| => g[f[k]]);
    assert Embeds(a, c, h);
  }

  lemma RemoveAtSubsequence<T>(s: seq<T>, i: nat)
    requires i < |s|
    ensures Subsequence(RemoveAt(s, i), s)
  {
    var f := seq(|s| - 1, k => if k < i then k else k + 1);
    assert Embeds(RemoveAt(s, i), s, f);
  }

  /** Encumbering keeps the outputs it does not take in their original order. */
  lemma {:induction false} TakeOutputsKeepsOrder(unspent: seq<UnblindedOutput>, requested: seq<UnblindedOutput>)
    ensures Subsequence(TakeOutputs(unspent, requested).remaining, unspent)
  {
    if requested == [] {
      SubsequenceRefl(unspent);
    } else {
      match IndexOfKey(unspent, requested[0].spendingKey)
      case None => SubsequenceRefl(unspent);
      case Some(p) =>
        TakeOutputsKeepsOrder(RemoveAt(unspent, p), requested[1..]);
        RemoveAtSubsequence(unspent, p);
        SubsequenceTrans(TakeOutputs(unspent, requested).remaining, RemoveAt(unspent, p), unspent);
    }
  }

  /** A request whose spending key is not among the unspent outputs makes encumbering fail. */
  lemma {:induction false} MissingRequestFails(unspent: seq<UnblindedOutput>, requested: seq<UnblindedOutput>, i: nat)
    requires i < |requested| && !HasKey(unspent, requested[i].spendingKey)
    ensures !TakeOutputs(unspent, requested).complete
  {
    match IndexOfKey(unspent, requested[0].spendingKey)
    case None =>
    case Some(p) =>
      assert i != 0;
      RemoveAtKeepsOtherKeys(unspent, p, requested[i].spendingKey);
      assert requested[1..][i - 1] == requested[i];
      MissingRequestFails(RemoveAt(unspent, p), requested[1..], i - 1);
  }

  predicate DistinctKeys(outputs: seq<UnblindedOutput>) {
    forall i, j :: 0 <= i < j < |outputs| ==> outputs[i].spendingKey != outputs[j].spendingKey
  }

  /** Requests with pairwise different keys, all among the unspent outputs, are all taken. */
  lemma {:induction false} PresentRequestsSucceed(unspent: seq<UnblindedOutput>, requested: seq<UnblindedOutput>)
    requires DistinctKeys(requested)
    requires forall i :: 0 <= i < |requested| ==> HasKey(unspent, requested[i].spendingKey)
    ensures TakeOutputs(unspent, requested).complete
  {
    if requested != [] {
      var p := IndexOfKey(unspent, requested[0].spendingKey).value;
      var rest := requested[1..];
      forall i | 0 <= i < |rest|
        ensures HasKey(RemoveAt(unspent, p), rest[i].spendingKey)
      {
        assert rest[i] == requested[i + 1];
        RemoveAtKeepsOtherKeys(unspent, p, rest[i].spendingKey);
      }
      PresentRequestsSucceed(RemoveAt(unspent, p), rest);
    }
  }

  /**
   * Encumbering is not atomic: when a later request is missing, the outputs
   * taken for the earlier ones are neither put back nor recorded anywhere.
   */
  lemma FailedEncumberLosesOutputs()
    ensures var a := UnblindedOutput(1, []);
            var b := UnblindedOutput(2, []);
            var s := EmptyDb.(unspent := [a]);
            var r := ShortTermEncumber(s, 7, [a, b], None, 0);
            && r.result == Err(ValuesNotFound)
            && r.state == EmptyDb
  {
    var a := UnblindedOutput(1, []);
    var b := UnblindedOutput(2, []);
    assert IndexOfKey([a], 1) == Some(0);
    assert RemoveAt([a], 0) == [];
    assert [a, b][1..] == [b];
  }

  /**
   * Cancelling a fresh encumbrance whose id is not in the long-term map puts
   * the taken outputs back at the end of the unspent list: the multiset is
   * restored, the order need not be.
   */
  lemma EncumberThenCancel(s: DbState, tx: TxId, outputsToSend: seq<UnblindedOutput>,
                           change: Option<UnblindedOutput>, now: Timestamp)
    requires ShortTermEncumber(s, tx, outputsToSend, change, now).result.Ok?
    requires tx !in s.pending
    ensures var c := Cancel(ShortTermEncumber(s, tx, outputsToSend, change, now).state, tx);
            var e := TakeOutputs(s.unspent, outputsToSend);
            && c.result == Ok(())
            && c.state.unspent == e.remaining + e.taken
            && multiset(c.state.unspent) == multiset(s.unspent)
            && c.state.shortTerm == s.shortTerm - {tx}
            && c.state.(unspent := s.unspent, shortTerm := s.shortTerm) == s
  {
    var e := TakeOutputs(s.unspent, outputsToSend);
    TakeOutputsConserves(s.unspent, outputsToSend);
    var entry := PendingTransactionOutputs.PendingTransactionOutputs(tx, e.taken, OptionToSeq(change), now);
    assert s.shortTerm[tx := entry] - {tx} == s.shortTerm - {tx};
  }

  /** Cancelling after encumbering puts a taken output back at the end of the list, not where it was. */
  lemma EncumberThenCancelReorders()
    ensures var a := UnblindedOutput(1, []);
            var b := UnblindedOutput(2, []);
            var s := EmptyDb.(unspent := [a, b]);
            var e := ShortTermEncumber(s, 7, [a], None, 5);
            var c := Cancel(e.state, 7);
            && e.result == Ok(()) && c.result == Ok(())
            && c.state.unspent == [b, a]
  {
    var a := UnblindedOutput(1, []);
    var b := UnblindedOutput(2, []);
    assert IndexOfKey([a, b], 1) == Some(0);
    assert RemoveAt([a, b], 0) == [b];
  }

  /**
   * Encumbering under an id that is already in the long-term map and then
   * cancelling takes the long-term entry: its outputs go back, and the
   * encumbered ones stay in the short-term entry.
   */
  lemma EncumberOverLongTermCancelsLongTerm()
    ensures var a := UnblindedOutput(1, []);
            var b := UnblindedOutput(2, []);
            var older := PendingTransactionOutputs.PendingTransactionOutputs(7, [b], [], 0);
            var s := EmptyDb.(unspent := [a], pending := map[7 := older]);
            var e := ShortTermEncumber(s, 7, [a], None, 5);
            var c := Cancel(e.state, 7);
            && e.result == Ok(()) && c.result == Ok(())
            && c.state.unspent == [b]
            && c.state.pending == map[]
            && c.state.shortTerm == map[7 := PendingTransactionOutputs.PendingTransactionOutputs(7, [a], [], 5)]
  {
    var a := UnblindedOutput(1, []);
    var b := UnblindedOutput(2, []);
    var older := PendingTransactionOutputs.PendingTransactionOutputs(7, [b], [], 0);
    var s := EmptyDb.(unspent := [a], pending := map[7 := older]);
    assert IndexOfKey([a], 1) == Some(0);
    assert RemoveAt([a], 0) == [];
    assert TakeOutputs([a], [a]).taken == [a];
    assert map[7 := older] - {7} == map[];
    var e := ShortTermEncumber(s, 7, [a], None, 5);
    assert e.state.unspent == [];
    assert [] + [b] == [b];
  }

  /** Encumbering and then confirming the encumbrance files the new entry under `tx` in the long-term map. */
  lemma EncumberThenConfirm(s: DbState, tx: TxId, outputsToSend: seq<UnblindedOutput>,
                            change: Option<UnblindedOutput>, now: Timestamp)
    requires ShortTermEncumber(s, tx, outputsToSend, change, now).result.Ok?
    ensures var e := TakeOutputs(s.unspent, outputsToSend);
            var entry := PendingTransactionOutputs.PendingTransactionOutputs(tx, e.taken, OptionToSeq(change), now);
            ConfirmEncumbered(ShortTermEncumber(s, tx, outputsToSend, change, now).state, tx) ==
              Step(s.(unspent := e.remaining, shortTerm := s.shortTerm - {tx}, pending := s.pending[tx := entry]), Ok(()))
  {
    var e := TakeOutputs(s.unspent, outputsToSend);
    var entry := PendingTransactionOutputs.PendingTransactionOutputs(tx, e.taken, OptionToSeq(change), now);
    assert s.shortTerm[tx := entry] - {tx} == s.shortTerm - {tx};
  }

  /**
   * The whole life of a transaction: encumber, confirm the encumbrance, then
   * confirm the transaction. Exactly the requested outputs end up spent and
   * the change output unspent. For an id in neither map no output is lost or
   * duplicated; an id already pending has its entry overwritten (see
   * `ReusedIdLosesOutputs`).
   */
  lemma EncumberConfirmLifecycle(s: DbState, tx: TxId, outputsToSend: seq<UnblindedOutput>,
                                 change: Option<UnblindedOutput>, now: Timestamp)
    requires ShortTermEncumber(s, tx, outputsToSend, change, now).result.Ok?
    ensures var s2 := ConfirmEncumbered(ShortTermEncumber(s, tx, outputsToSend, change, now).state, tx);
            var s3 := ConfirmTransaction(s2.state, tx);
            var e := TakeOutputs(s.unspent, outputsToSend);
            && s2.result == Ok(()) && s3.result == Ok(())
            && s3.state == s.(spent := s.spent + e.taken, unspent := e.remaining + OptionToSeq(change),
                              pending := s.pending - {tx}, shortTerm := s.shortTerm - {tx})
            && |e.taken| == |outputsToSend|
            && (forall i :: 0 <= i < |e.taken| ==> e.taken[i].spendingKey == outputsToSend[i].spendingKey)
            && multiset(s3.state.unspent) + multiset(s3.state.spent) ==
               multiset(s.unspent) + multiset(s.spent) + multiset(OptionToSeq(change))
            && (tx !in s.pending && tx !in s.shortTerm ==>
                  s3.state.pending == s.pending && s3.state.shortTerm == s.shortTerm)
  {
    var e := TakeOutputs(s.unspent, outputsToSend);
    var entry := PendingTransactionOutputs.PendingTransactionOutputs(tx, e.taken, OptionToSeq(change), now);
    EncumberThenConfirm(s, tx, outputsToSend, change, now);
    var s2 := s.(unspent := e.remaining, shortTerm := s.shortTerm - {tx}, pending := s.pending[tx := entry]);
    assert s2.pending - {tx} == s.pending - {tx};
    TakeOutputsConserves(s.unspent, outputsToSend);
    assert multiset(e.remaining + OptionToSeq(change)) == multiset(e.remaining) + multiset(OptionToSeq(change));
    assert multiset(s.spent + e.taken) == multiset(s.spent) + multiset(e.taken);
  }

  /**
   * Encumbering under an id that is already long-term overwrites the older
   * entry when the encumbrance is confirmed: after the whole life of the new
   * transaction, the older entry's output is in no list and no map.
   */
  lemma ReusedIdLosesOutputs()
    ensures var a := UnblindedOutput(1, []);
            var x := UnblindedOutput(2, []);
            var older := PendingTransactionOutputs.PendingTransactionOutputs(7, [x], [], 0);
            var s := EmptyDb.(unspent := [a], pending := map[7 := older]);
            var s1 := ShortTermEncumber(s, 7, [a], None, 5);
            var s2 := ConfirmEncumbered(s1.state, 7);
            var s3 := ConfirmTransaction(s2.state, 7);
            && s1.result == Ok(()) && s2.result == Ok(()) && s3.result == Ok(())
            && s3.state == EmptyDb.(spent := [a])
  {
    var a := UnblindedOutput(1, []);
    var x := UnblindedOutput(2, []);
    var older := PendingTransactionOutputs.PendingTransactionOutputs(7, [x], [], 0);
    var entry := PendingTransactionOutputs.PendingTransactionOutputs(7, [a], [], 5);
    var s := EmptyDb.(unspent := [a], pending := map[7 := older]);
    assert IndexOfKey([a], 1) == Some(0);
    assert RemoveAt([a], 0) == [];
    assert TakeOutputs([a], [a]).taken == [a];
    var s1 := ShortTermEncumber(s, 7, [a], None, 5);
    assert s1.state == s.(unspent := [], shortTerm := map[7 := entry]);
    assert map[7 := entry] - {7} == map[];
    assert map[7 := older][7 := entry] == map[7 := entry];
    var s2 := ConfirmEncumbered(s1.state, 7);
    assert s2.state == EmptyDb.(pending := map[7 := entry]);
    assert [] + [a] == [a];
  }

  // ---------------------------------------------------------------------------
  // Keys of the short-term map

  /** Every short-term entry is stored under its own transaction id. */
  ghost predicate ShortTermKeyed(s: DbState) {
    forall t :: t in s.shortTerm ==> s.shortTerm[t].txId == t
  }

  lemma {:induction false} CancelAllKeepsShortTermKeyed(s: DbState, ids: seq<TxId>)
    requires ShortTermKeyed(s)
    ensures ShortTermKeyed(CancelAll(s, ids).state)
    decreases |ids|
  {
    if ids != [] {
      var c := Cancel(s, ids[0]);
      assert ShortTermKeyed(c.state);
      if c.result.Ok? {
        CancelAllKeepsShortTermKeyed(c.state, ids[1..]);
      }
    }
  }

  /** Writes, invalidation and the key index leave the short-term map alone. */
  lemma ShortTermUntouched(s: DbState)
    ensures forall op :: Write(s, op).state.shortTerm == s.shortTerm
    ensures forall output :: Invalidate(s, output).state.shortTerm == s.shortTerm
    ensures IncrementKeyIndex(s).state.shortTerm == s.shortTerm
  {
    forall op ensures Write(s, op).state.shortTerm == s.shortTerm {
      match op
      case Insert(pair) =>
      case Remove(key) =>
    }
  }

  /**
   * Every operation keeps short-term entries under their own ids, so
   * confirming an encumbrance files it in the long-term map under the id it
   * was confirmed by.
   */
  lemma ShortTermKeyedInvariant(s: DbState, tx: TxId, outputsToSend: seq<UnblindedOutput>,
                                change: Option<UnblindedOutput>, now: Timestamp)
    requires ShortTermKeyed(s)
    ensures ShortTermKeyed(EmptyDb)
    ensures ShortTermKeyed(ShortTermEncumber(s, tx, outputsToSend, change, now).state)
    ensures ShortTermKeyed(ConfirmEncumbered(s, tx).state)
    ensures ShortTermKeyed(ConfirmTransaction(s, tx).state)
    ensures ShortTermKeyed(Cancel(s, tx).state)
    ensures forall op :: ShortTermKeyed(Write(s, op).state)
    ensures forall output :: ShortTermKeyed(Invalidate(s, output).state)
    ensures ShortTermKeyed(IncrementKeyIndex(s).state)
    ensures tx in s.shortTerm ==>
              ConfirmEncumbered(s, tx).state.pending == s.pending[tx := s.shortTerm[tx]]
  {
    ShortTermUntouched(s);
  }

  // ---------------------------------------------------------------------------
  // Cancelling

  /** A transaction held in one map can be cancelled once; a second cancel fails and changes nothing. */
  lemma CancelOnce(s: DbState, tx: TxId)
    requires (tx in s.pending) != (tx in s.shortTerm)
    ensures Cancel(s, tx).result == Ok(())
    ensures var s1 := Cancel(s, tx).state;
            Cancel(s1, tx) == Step(s1, Err(ValueNotFound(DbKey.PendingTransactionOutputs(tx))))
  {
  }

  /** The outputs cancelling `t` puts back: those of its long-term entry if there is one, else of its short-term entry. */
  function EntryReleased(s: DbState, t: TxId): seq<UnblindedOutput> {
    if t in s.pending then s.pending[t].outputsToBeSpent
    else if t in s.shortTerm then s.shortTerm[t].outputsToBeSpent
    else []
  }

  /** The outputs each of `ids`, in order, puts back, each looked up in `s`. */
  function Released(s: DbState, ids: seq<TxId>): seq<UnblindedOutput>
    decreases |ids|
  {
    if ids == [] then [] else EntryReleased(s, ids[0]) + Released(s, ids[1..])
  }

  lemma {:induction false} ReleasedFrame(s: DbState, c: DbState, ids: seq<TxId>)
    requires forall t :: t in ids ==> EntryReleased(s, t) == EntryReleased(c, t)
    ensures Released(s, ids) == Released(c, ids)
    decreases |ids|
  {
    if ids != [] {
      assert ids[0] in ids;
      assert forall t :: t in ids[1..] ==> t in ids;
      ReleasedFrame(s, c, ids[1..]);
    }
  }

  lemma DistinctTail(ids: seq<TxId>)
    requires ids != [] && Distinct(ids)
    ensures Distinct(ids[1..]) && ids[0] !in ids[1..]
    ensures forall u :: u in ids <==> u == ids[0] || u in ids[1..]
  {
    var rest := ids[1..];
    assert forall j :: 0 <= j < |rest| ==> rest[j] == ids[j + 1];
  }

  lemma CancelAllCons(s: DbState, ids: seq<TxId>)
    requires ids != [] && Cancel(s, ids[0]).result.Ok?
    ensures CancelAll(s, ids) == CancelAll(Cancel(s, ids[0]).state, ids[1..])
  {
  }

  /**
   * Cancelling distinct ids that are all pending somewhere succeeds. Each id
   * leaves the long-term map if it is there, and the short-term map
   * otherwise.
   */
  lemma {:induction false} CancelAllDistinct(s: DbState, ids: seq<TxId>)
    requires Distinct(ids)
    requires forall t :: t in ids ==> t in s.pending || t in s.shortTerm
    ensures var r := CancelAll(s, ids);
            && r.result == Ok(())
            && r.state.pending == s.pending - (set t | t in ids)
            && r.state.shortTerm == s.shortTerm - (set t | t in ids && t !in s.pending)
    decreases |ids|
  {
    if ids != [] {
      var t := ids[0];
      var rest := ids[1..];
      var c := Cancel(s, t).state;
      DistinctTail(ids);
      CancelAllCons(s, ids);
      CancelAllDistinct(c, rest);
      var r := CancelAll(c, rest);
      assert r.state.pending == s.pending - (set u | u in ids);
      assert r.state.shortTerm == s.shortTerm - (set u | u in ids && u !in s.pending);
    }
  }

  /**
   * Cancelling distinct ids that are all pending somewhere puts the outputs of
   * each id's entry back at the end of the unspent list, id after id.
   */
  lemma {:induction false} CancelAllReleases(s: DbState, ids: seq<TxId>)
    requires Distinct(ids)
    requires forall t :: t in ids ==> t in s.pending || t in s.shortTerm
    ensures CancelAll(s, ids).state.unspent == s.unspent + Released(s, ids)
    decreases |ids|
  {
    if ids != [] {
      var t := ids[0];
      var rest := ids[1..];
      var c := Cancel(s, t).state;
      DistinctTail(ids);
      CancelAllCons(s, ids);
      assert c.unspent == s.unspent + EntryReleased(s, t);
      forall u | u in rest
        ensures EntryReleased(s, u) == EntryReleased(c, u) && (u in c.pending || u in c.shortTerm)
      {
        assert u != t;
      }
      ReleasedFrame(s, c, rest);
      CancelAllReleases(c, rest);
      assert s.unspent + Released(s, ids) == c.unspent + Released(c, rest);
    }
  }

  /**
   * Clearing the short-term encumbrances, in any iteration order: every
   * short-term id is cancelled and its outputs go back to the unspent list.
   * An id that is also in the long-term map cancels the long-term entry,
   * whose outputs go back instead, and its short-term entry stays.
   */
  lemma ClearReleasesShortTerm(s: DbState, order: seq<TxId>)
    requires Enumerates(order, s.shortTerm.Keys)
    ensures var r := CancelAll(s, order);
            && r.result == Ok(())
            && r.state.unspent == s.unspent + Released(s, order)
            && r.state.pending == s.pending - s.shortTerm.Keys
            && r.state.shortTerm == (map t | t in s.shortTerm && t in s.pending :: s.shortTerm[t])
            && r.state.spent == s.spent && r.state.invalid == s.invalid && r.state.keyManager == s.keyManager
  {
    CancelAllDistinct(s, order);
    CancelAllReleases(s, order);
    var r := CancelAll(s, order);
    assert (set t | t in order) == s.shortTerm.Keys;
    assert r.state.shortTerm == (map t | t in s.shortTerm && t in s.pending :: s.shortTerm[t]);
  }

  /**
   * With no id in both maps, clearing empties the short-term map, leaves the
   * long-term map alone and puts every encumbered output back: unspent grows
   * by the short-term entries' outputs, entry after entry in iteration order.
   */
  lemma ClearDisjoint(s: DbState, order: seq<TxId>)
    requires Enumerates(order, s.shortTerm.Keys)
    requires s.pending.Keys !! s.shortTerm.Keys
    ensures var r := CancelAll(s, order);
            && r.result == Ok(())
            && r.state.shortTerm == map[]
            && r.state.pending == s.pending
            && r.state.unspent == s.unspent + Released(s, order)
            && (forall i :: 0 <= i < |order| ==> s.shortTerm[order[i]].outputsToBeSpent == EntryReleased(s, order[i]))
  {
    ClearReleasesShortTerm(s, order);
    var r := CancelAll(s, order);
    assert r.state.shortTerm == map[];
    assert r.state.pending == s.pending;
  }

  // ---------------------------------------------------------------------------
  // Timeouts

  lemma DistinctConcat(a: seq<TxId>, b: seq<TxId>)
    requires Distinct(a) && Distinct(b)
    requires forall t :: t in a ==> t !in b
    ensures Distinct(a + b)
  {
    var ab := a + b;
    forall i, j | 0 <= i < j < |ab| ensures ab[i] != ab[j] {
      if j < |a| {
        assert ab[i] == a[i] && ab[j] == a[j];
      } else if i >= |a| {
        assert ab[i] == b[i - |a|] && ab[j] == b[j - |a|];
      } else {
        assert ab[i] in a && ab[j] in b;
      }
    }
  }

  /** Removing a set of ids from a map keeps exactly the entries whose id is outside the set. */
  lemma MapMinusIsFilter(m: map<TxId, PendingTransactionOutputs>, gone: set<TxId>, period: nat, now: Timestamp)
    requires forall t :: t in m ==> (t in gone <==> Expired(m[t], period, now))
    ensures m - gone == (map t | t in m && !Expired(m[t], period, now) :: m[t])
  {
  }

  /**
   * When no id is pending in both maps, a timeout cancels exactly the entries
   * stamped more than `period` before `now`, whatever the iteration orders.
   */
  lemma TimeoutCancelsExactlyExpired(s: DbState, period: nat, now: Timestamp, longIds: seq<TxId>, shortIds: seq<TxId>)
    requires Enumerates(longIds, s.pending.Keys) && Enumerates(shortIds, s.shortTerm.Keys)
    requires s.pending.Keys !! s.shortTerm.Keys
    requires !PeriodTooLong(period)
    ensures var r := Timeout(s, period, now, longIds, shortIds);
            && r.result == Ok(())
            && r.state.pending == (map t | t in s.pending && !Expired(s.pending[t], period, now) :: s.pending[t])
            && r.state.shortTerm == (map t | t in s.shortTerm && !Expired(s.shortTerm[t], period, now) :: s.shortTerm[t])
            && r.state.spent == s.spent && r.state.invalid == s.invalid && r.state.keyManager == s.keyManager
            && r.state.unspent == s.unspent + Released(s, ExpiredIds(s.pending, longIds, period, now) +
                                                          ExpiredIds(s.shortTerm, shortIds, period, now))
  {
    var fromLong := ExpiredIds(s.pending, longIds, period, now);
    var fromShort := ExpiredIds(s.shortTerm, shortIds, period, now);
    var ids := fromLong + fromShort;
    DistinctConcat(fromLong, fromShort);
    assert forall t :: t in ids <==> t in fromLong || t in fromShort;
    CancelAllDistinct(s, ids);
    CancelAllReleases(s, ids);
    var goneLong := set t | t in ids;
    var goneShort := set t | t in ids && t !in s.pending;
    MapMinusIsFilter(s.pending, goneLong, period, now);
    MapMinusIsFilter(s.shortTerm, goneShort, period, now);
  }

  /**
   * With an id in both maps a timeout can cancel the wrong entry: here the
   * short-term entry has expired and the long-term one has not, yet the
   * cancel takes the long-term one and the expired entry stays.
   */
  lemma TimeoutOverlapCancelsFreshEntry()
    ensures var recent := PendingTransactionOutputs.PendingTransactionOutputs(7, [], [], 100);
            var stale := PendingTransactionOutputs.PendingTransactionOutputs(7, [], [], 0);
            var s := EmptyDb.(pending := map[7 := recent], shortTerm := map[7 := stale]);
            var r := Timeout(s, 10, 50, [7], [7]);
            && Enumerates([7], s.pending.Keys) && Enumerates([7], s.shortTerm.Keys)
            && Expired(stale, 10, 50) && !Expired(recent, 10, 50)
            && r.result == Ok(())
            && r.state.pending == map[]
            && r.state.shortTerm == map[7 := stale]
  {
    var recent := PendingTransactionOutputs.PendingTransactionOutputs(7, [], [], 100);
    var stale := PendingTransactionOutputs.PendingTransactionOutputs(7, [], [], 0);
    var s := EmptyDb.(pending := map[7 := recent], shortTerm := map[7 := stale]);
    assert ExpiredIds(s.pending, [7], 10, 50) == [];
    assert ExpiredIds(s.shortTerm, [7], 10, 50) == [7];
    assert s.pending - {7} == map[];
  }

  /** A period too long for chrono fails the timeout, and changes nothing, as soon as anything is pending. */
  lemma TimeoutPeriodTooLong(s: DbState, period: nat, now: Timestamp, longIds: seq<TxId>, shortIds: seq<TxId>)
    requires PeriodTooLong(period)
    ensures Timeout(s, period, now, longIds, shortIds).result.Err? <==> s.pending != map[] || s.shortTerm != map[]
    ensures Timeout(s, period, now, longIds, shortIds).result.Err? ==>
              Timeout(s, period, now, longIds, shortIds).state == s
  {
  }

  // ---------------------------------------------------------------------------
  // Invalid outputs and the key manager

  /** Invalidation moves one output from the unspent list to the invalid list and loses nothing. */
  lemma InvalidateConserves(s: DbState, output: UnblindedOutput)
    ensures var r := Invalidate(s, output);
            multiset(r.state.unspent) + multiset(r.state.invalid) == multiset(s.unspent) + multiset(s.invalid)
    ensures var r := Invalidate(s, output);
            r.result.Ok? ==> |r.state.invalid| == |s.invalid| + 1 &&
                             r.state.invalid[|s.invalid|].spendingKey == output.spendingKey
  {
    match IndexOfKey(s.unspent, output.spendingKey)
    case None =>
    case Some(i) => RemoveAtMultiset(s.unspent, i);
  }

  /** A stored key-manager state is fetched back with its index advanced by exactly one per increment. */
  lemma IncrementThenFetch(s: DbState, km: KeyManagerState)
    ensures var s1 := Write(s, Insert(DbKeyValuePair.KeyManagerState(km))).state;
            var s2 := IncrementKeyIndex(s1);
            && s2.result == Ok(())
            && Fetch(s2.state, DbKey.KeyManagerState) ==
               Some(DbValue.KeyManagerState(km.(primaryKeyIndex := km.primaryKeyIndex + 1)))
  {
  }
}
