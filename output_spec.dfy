/**
 * The in-memory output database as a value, and every backend operation as a
 * function from the old database (and the call's arguments) to the new
 * database and the call's result. The class in MemoryDb is proved to behave
 * exactly like these functions; the lemmas in OutputProperties state what
 * the operations promise together.
 */
module OutputSpec {
  import opened Wrappers
  import opened OutputTypes

  /** The six collections of the in-memory database. */
  datatype DbState = DbState(
    unspent: seq<UnblindedOutput>,
    spent: seq<UnblindedOutput>,
    invalid: seq<UnblindedOutput>,
    pending: map<TxId, PendingTransactionOutputs>,
    shortTerm: map<TxId, PendingTransactionOutputs>,
    keyManager: Option<KeyManagerState>)

  /** A freshly created database holds nothing and has no key-manager state. */
  const EmptyDb := DbState([], [], [], map[], map[], None)

  /** The outcome of one operation: the database afterwards and what the call returned. */
  datatype Step<+T> = Step(state: DbState, result: Result<T>)

  // ---------------------------------------------------------------------------
  // Lists of outputs

  predicate HasKey(s: seq<UnblindedOutput>, k: SpendingKey) {
    exists i :: 0 <= i < |s| && s[i].spendingKey == k
  }

  /** The position of the first output with spending key `k`, as `position` finds it. */
  function IndexOfKey(s: seq<UnblindedOutput>, k: SpendingKey): (r: Option<nat>)
    ensures r.None? <==> !HasKey(s, k)
    ensures r.Some? ==> r.value < |s| && s[r.value].spendingKey == k
    ensures r.Some? ==> forall j :: 0 <= j < r.value ==> s[j].spendingKey != k
  {
    if s == [] then None
    else if s[0].spendingKey == k then Some(0)
    else
      match IndexOfKey(s[1..], k)
      case None =>
        assert forall i :: 1 <= i < |s| ==> s[i] == s[1..][i - 1];
        None
      case Some(i) => Some(i + 1)
  }

  /** `s` without its element at position `i`, as `Vec::remove` leaves it. */
  function RemoveAt<T>(s: seq<T>, i: nat): (r: seq<T>)
    requires i < |s|
    ensures |r| == |s| - 1
    ensures forall j :: 0 <= j < i ==> r[j] == s[j]
    ensures forall j :: i <= j < |r| ==> r[j] == s[j + 1]
  {
    s[..i] + s[i + 1..]
  }

  lemma RemoveAtMultiset<T>(s: seq<T>, i: nat)
    requires i < |s|
    ensures multiset(RemoveAt(s, i)) + multiset{s[i]} == multiset(s)
  {
    assert s == s[..i] + [s[i]] + s[i + 1..];
  }

  // ---------------------------------------------------------------------------
  // fetch

  /** What `fetch` returns for `key`; `None` when nothing is stored under it. */
  function Fetch(s: DbState, key: DbKey): (r: Option<DbValue>)
    ensures (key.SpentOutput? || key.UnspentOutput?) ==>
              var list := if key.SpentOutput? then s.spent else s.unspent;
              && (r.Some? <==> HasKey(list, key.key))
              && (r.Some? ==>
                    && r.value.SpentOutput? == key.SpentOutput?
                    && r.value.UnspentOutput? == key.UnspentOutput?
                    && r.value.output.spendingKey == key.key
                    && r.value.output == list[IndexOfKey(list, key.key).value])
    ensures key.PendingTransactionOutputs? ==>
              var t := key.txId;
              && (r.Some? <==> t in s.pending || t in s.shortTerm)
              && (t in s.pending ==> r == Some(DbValue.PendingTransactionOutputs(s.pending[t])))
              && (t !in s.pending && t in s.shortTerm ==>
                    r == Some(DbValue.PendingTransactionOutputs(s.shortTerm[t])))
    ensures key.AllPendingTransactionOutputs? ==>
              && r.Some? && r.value.AllPendingTransactionOutputs?
              && r.value.pending.Keys == s.pending.Keys + s.shortTerm.Keys
              && (forall t :: t in s.shortTerm ==> r.value.pending[t] == s.shortTerm[t])
              && (forall t :: t in s.pending && t !in s.shortTerm ==> r.value.pending[t] == s.pending[t])
    ensures key.UnspentOutputs? ==> r == Some(DbValue.UnspentOutputs(s.unspent))
    ensures key.SpentOutputs? ==> r == Some(DbValue.SpentOutputs(s.spent))
    ensures key.InvalidOutputs? ==> r == Some(DbValue.InvalidOutputs(s.invalid))
    ensures key.KeyManagerState? ==>
              (r.Some? <==> s.keyManager.Some?) &&
              (r.Some? ==> r == Some(DbValue.KeyManagerState(s.keyManager.value)))
  {
    match key
    case SpentOutput(k) =>
      (match IndexOfKey(s.spent, k)
       case Some(i) => Some(DbValue.SpentOutput(s.spent[i]))
       case None => None)
    case UnspentOutput(k) =>
      (match IndexOfKey(s.unspent, k)
       case Some(i) => Some(DbValue.UnspentOutput(s.unspent[i]))
       case None => None)
    case PendingTransactionOutputs(t) =>
      if t in s.pending then Some(DbValue.PendingTransactionOutputs(s.pending[t]))
      else if t in s.shortTerm then Some(DbValue.PendingTransactionOutputs(s.shortTerm[t]))
      else None
    case UnspentOutputs => Some(DbValue.UnspentOutputs(s.unspent))
    case SpentOutputs => Some(DbValue.SpentOutputs(s.spent))
    case AllPendingTransactionOutputs => Some(DbValue.AllPendingTransactionOutputs(s.pending + s.shortTerm))
    case KeyManagerState =>
      (match s.keyManager
       case Some(km) => Some(DbValue.KeyManagerState(km))
       case None => None)
    case InvalidOutputs => Some(DbValue.InvalidOutputs(s.invalid))
  }

  // ---------------------------------------------------------------------------
  // write

  /** `write(Insert(pair))`. */
  function InsertPair(s: DbState, pair: DbKeyValuePair): (r: Step<Option<DbValue>>)
    ensures r.result.Err? ==> r.state == s
    ensures r.result.Ok? ==> r.result.value == None
    ensures (pair.SpentOutput? || pair.UnspentOutput?) ==>
              (r.result.Err? <==> HasKey(s.spent, pair.key) || HasKey(s.unspent, pair.key)) &&
              (r.result.Err? ==> r.result.error == DuplicateOutput)
    ensures pair.SpentOutput? && r.result.Ok? ==> r.state == s.(spent := s.spent + [pair.output])
    ensures pair.UnspentOutput? && r.result.Ok? ==> r.state == s.(unspent := s.unspent + [pair.output])
    ensures pair.PendingTransactionOutputs? ==>
              r == Step(s.(pending := s.pending[pair.txId := pair.pendingTx]), Ok(None))
    ensures pair.KeyManagerState? ==> r == Step(s.(keyManager := Some(pair.state)), Ok(None))
  {
    match pair
    case SpentOutput(k, o) =>
      if HasKey(s.spent, k) || HasKey(s.unspent, k) then Step(s, Err(DuplicateOutput))
      else Step(s.(spent := s.spent + [o]), Ok(None))
    case UnspentOutput(k, o) =>
      if HasKey(s.unspent, k) || HasKey(s.spent, k) then Step(s, Err(DuplicateOutput))
      else Step(s.(unspent := s.unspent + [o]), Ok(None))
    case PendingTransactionOutputs(t, p) => Step(s.(pending := s.pending[t := p]), Ok(None))
    case KeyManagerState(km) => Step(s.(keyManager := Some(km)), Ok(None))
  }

  /** `write(Remove(key))`. */
  function RemoveKey(s: DbState, key: DbKey): (r: Step<Option<DbValue>>)
    ensures r.result.Err? ==> r.state == s
    ensures (key.SpentOutput? || key.UnspentOutput?) ==>
              var list := if key.SpentOutput? then s.spent else s.unspent;
              var list' := if key.SpentOutput? then r.state.spent else r.state.unspent;
              && (r.result.Err? <==> !HasKey(list, key.key))
              && (r.result.Err? ==> r.result.error == ValueNotFound(key))
              && (r.result.Ok? ==>
                    var i := IndexOfKey(list, key.key).value;
                    && r.result.value.Some?
                    && r.result.value.value.SpentOutput? == key.SpentOutput?
                    && r.result.value.value.UnspentOutput? == key.UnspentOutput?
                    && r.result.value.value.output == list[i]
                    && list' == RemoveAt(list, i)
                    && r.state == (if key.SpentOutput? then s.(spent := list') else s.(unspent := list')))
    ensures key.PendingTransactionOutputs? ==>
              var t := key.txId;
              && (t in s.pending ==>
                    r == Step(s.(pending := s.pending - {t}),
                              Ok(Some(DbValue.PendingTransactionOutputs(s.pending[t])))))
              && (t !in s.pending ==> r.result == Err(ValueNotFound(key)))
    ensures (key.UnspentOutputs? || key.SpentOutputs? || key.AllPendingTransactionOutputs? ||
             key.KeyManagerState? || key.InvalidOutputs?) ==>
              r == Step(s, Err(OperationNotSupported))
  {
    match key
    case SpentOutput(k) =>
      (match IndexOfKey(s.spent, k)
       case None => Step(s, Err(ValueNotFound(key)))
       case Some(i) => Step(s.(spent := RemoveAt(s.spent, i)), Ok(Some(DbValue.SpentOutput(s.spent[i])))))
    case UnspentOutput(k) =>
      (match IndexOfKey(s.unspent, k)
       case None => Step(s, Err(ValueNotFound(key)))
       case Some(i) => Step(s.(unspent := RemoveAt(s.unspent, i)), Ok(Some(DbValue.UnspentOutput(s.unspent[i])))))
    case PendingTransactionOutputs(t) =>
      if t in s.pending then
        Step(s.(pending := s.pending - {t}), Ok(Some(DbValue.PendingTransactionOutputs(s.pending[t]))))
      else Step(s, Err(ValueNotFound(key)))
    case UnspentOutputs => Step(s, Err(OperationNotSupported))
    case SpentOutputs => Step(s, Err(OperationNotSupported))
    case AllPendingTransactionOutputs => Step(s, Err(OperationNotSupported))
    case KeyManagerState => Step(s, Err(OperationNotSupported))
    case InvalidOutputs => Step(s, Err(OperationNotSupported))
  }

  /** `write`: a failed write changes nothing, and an insertion never returns a value. */
  function Write(s: DbState, op: WriteOperation): (r: Step<Option<DbValue>>)
    ensures r.result.Err? ==> r.state == s
    ensures op.Insert? && r.result.Ok? ==> r.result.value == None
    ensures op.Remove? && r.result.Ok? ==>
              r.result.value.Some? && (op.key.SpentOutput? || op.key.UnspentOutput? || op.key.PendingTransactionOutputs?)
  {
    match op
    case Insert(pair) => InsertPair(s, pair)
    case Remove(key) => RemoveKey(s, key)
  }

  // ---------------------------------------------------------------------------
  // Pending transactions

  /** Takes `tx` out of the long-term map or, when it is not there, out of the short-term map. */
  function TakePending(s: DbState, tx: TxId): (r: Option<(PendingTransactionOutputs, DbState)>)
    ensures r.None? <==> tx !in s.pending && tx !in s.shortTerm
    ensures r.Some? ==>
              var (p, s') := r.value;
              && s'.(pending := s.pending, shortTerm := s.shortTerm) == s
              && (tx in s.pending ==> p == s.pending[tx] && s'.pending == s.pending - {tx} && s'.shortTerm == s.shortTerm)
              && (tx !in s.pending ==> p == s.shortTerm[tx] && s'.shortTerm == s.shortTerm - {tx} && s'.pending == s.pending)
  {
    if tx in s.pending then Some((s.pending[tx], s.(pending := s.pending - {tx})))
    else if tx in s.shortTerm then Some((s.shortTerm[tx], s.(shortTerm := s.shortTerm - {tx})))
    else None
  }

  /** `confirm_transaction`: the transaction's spent outputs become spent, its received outputs unspent. */
  function ConfirmTransaction(s: DbState, tx: TxId): (r: Step<()>)
    ensures r.result.Err? <==> tx !in s.pending && tx !in s.shortTerm
    ensures r.result.Err? ==> r == Step(s, Err(ValueNotFound(DbKey.PendingTransactionOutputs(tx))))
    ensures tx in s.pending ==>
              var p := s.pending[tx];
              r.state == s.(pending := s.pending - {tx},
                            spent := s.spent + p.outputsToBeSpent,
                            unspent := s.unspent + p.outputsToBeReceived)
    ensures tx !in s.pending && tx in s.shortTerm ==>
              var p := s.shortTerm[tx];
              r.state == s.(shortTerm := s.shortTerm - {tx},
                            spent := s.spent + p.outputsToBeSpent,
                            unspent := s.unspent + p.outputsToBeReceived)
  {
    match TakePending(s, tx)
    case None => Step(s, Err(ValueNotFound(DbKey.PendingTransactionOutputs(tx))))
    case Some((p, s')) =>
      Step(s'.(spent := s'.spent + p.outputsToBeSpent, unspent := s'.unspent + p.outputsToBeReceived), Ok(()))
  }

  /** `cancel_pending_transaction`: the spent outputs return to unspent; the received ones are dropped. */
  function Cancel(s: DbState, tx: TxId): (r: Step<()>)
    ensures r.result.Err? <==> tx !in s.pending && tx !in s.shortTerm
    ensures r.result.Err? ==> r == Step(s, Err(ValueNotFound(DbKey.PendingTransactionOutputs(tx))))
    ensures tx in s.pending ==>
              r.state == s.(pending := s.pending - {tx}, unspent := s.unspent + s.pending[tx].outputsToBeSpent)
    ensures tx !in s.pending && tx in s.shortTerm ==>
              r.state == s.(shortTerm := s.shortTerm - {tx}, unspent := s.unspent + s.shortTerm[tx].outputsToBeSpent)
  {
    match TakePending(s, tx)
    case None => Step(s, Err(ValueNotFound(DbKey.PendingTransactionOutputs(tx))))
    case Some((p, s')) => Step(s'.(unspent := s'.unspent + p.outputsToBeSpent), Ok(()))
  }

  /** Cancels `ids` one after another, stopping at the first failure. */
  function CancelAll(s: DbState, ids: seq<TxId>): (r: Step<()>)
    ensures ids == [] ==> r == Step(s, Ok(()))
    ensures s.unspent <= r.state.unspent
    ensures r.state.spent == s.spent && r.state.invalid == s.invalid && r.state.keyManager == s.keyManager
    ensures r.state.pending.Keys <= s.pending.Keys && r.state.shortTerm.Keys <= s.shortTerm.Keys
    decreases |ids|
  {
    if ids == [] then Step(s, Ok(()))
    else
      var c := Cancel(s, ids[0]);
      if c.result.Err? then c else CancelAll(c.state, ids[1..])
  }

  /**
   * Every cancel of a successful sequence takes exactly one entry out of the
   * maps; a failed sequence reports `ValueNotFound` for one of its ids.
   */
  lemma {:induction false} CancelAllOutcome(s: DbState, ids: seq<TxId>)
    ensures var r := CancelAll(s, ids);
            r.result.Ok? ==> |r.state.pending| + |r.state.shortTerm| + |ids| == |s.pending| + |s.shortTerm|
    ensures var r := CancelAll(s, ids);
            r.result.Err? ==> exists i :: 0 <= i < |ids| && r.result.error == ValueNotFound(DbKey.PendingTransactionOutputs(ids[i]))
    decreases |ids|
  {
    if ids != [] {
      var c := Cancel(s, ids[0]);
      if c.result.Ok? {
        CancelRemovesOneEntry(s, ids[0]);
        CancelAllOutcome(c.state, ids[1..]);
        var r := CancelAll(c.state, ids[1..]);
        if r.result.Err? {
          var i :| 0 <= i < |ids[1..]| && r.result.error == ValueNotFound(DbKey.PendingTransactionOutputs(ids[1..][i]));
          assert ids[1..][i] == ids[i + 1];
        }
      } else {
        assert c.result.error == ValueNotFound(DbKey.PendingTransactionOutputs(ids[0]));
      }
    }
  }

  /** A successful cancel takes exactly one entry out of one of the maps. */
  lemma CancelRemovesOneEntry(s: DbState, tx: TxId)
    requires tx in s.pending || tx in s.shortTerm
    ensures |Cancel(s, tx).state.pending| + |Cancel(s, tx).state.shortTerm| + 1 == |s.pending| + |s.shortTerm|
  {
    if tx in s.pending {
      assert (s.pending - {tx}).Keys == s.pending.Keys - {tx};
    } else {
      assert (s.shortTerm - {tx}).Keys == s.shortTerm.Keys - {tx};
    }
  }

  // ---------------------------------------------------------------------------
  // Short-term encumbrance

  /** The unspent list after `taken` was removed from it, and whether every request was found. */
  datatype Encumbrance = Encumbrance(remaining: seq<UnblindedOutput>, taken: seq<UnblindedOutput>, complete: bool)

  /**
   * The loop of `short_term_encumber_outputs`: for each requested output in
   * order, the first unspent output with its spending key is removed and
   * taken; the first request with no match ends the loop.
   */
  function TakeOutputs(unspent: seq<UnblindedOutput>, requested: seq<UnblindedOutput>): (e: Encumbrance)
    ensures |e.taken| <= |requested|
    ensures forall i :: 0 <= i < |e.taken| ==> e.taken[i].spendingKey == requested[i].spendingKey
    ensures e.complete <==> |e.taken| == |requested|
    ensures !e.complete ==> !HasKey(e.remaining, requested[|e.taken|].spendingKey)
    ensures requested != [] && HasKey(unspent, requested[0].spendingKey) ==>
              |e.taken| > 0 && e.taken[0] == unspent[IndexOfKey(unspent, requested[0].spendingKey).value]
  {
    if requested == [] then Encumbrance(unspent, [], true)
    else
      match IndexOfKey(unspent, requested[0].spendingKey)
      case None => Encumbrance(unspent, [], false)
      case Some(p) =>
        var rest := TakeOutputs(RemoveAt(unspent, p), requested[1..]);
        Encumbrance(rest.remaining, [unspent[p]] + rest.taken, rest.complete)
  }

  /** `e` preceded by the outputs `taken` in earlier steps. */
  function AfterTaking(taken: seq<UnblindedOutput>, e: Encumbrance): Encumbrance {
    Encumbrance(e.remaining, taken + e.taken, e.complete)
  }

  /** One step of TakeOutputs at request `i`, as the encumbering loop performs it. */
  lemma TakeOutputsStep(unspent: seq<UnblindedOutput>, requested: seq<UnblindedOutput>, i: nat)
    requires i < |requested|
    ensures IndexOfKey(unspent, requested[i].spendingKey).None? ==>
              TakeOutputs(unspent, requested[i..]) == Encumbrance(unspent, [], false)
    ensures IndexOfKey(unspent, requested[i].spendingKey).Some? ==>
              var p := IndexOfKey(unspent, requested[i].spendingKey).value;
              forall taken :: AfterTaking(taken, TakeOutputs(unspent, requested[i..])) ==
                              AfterTaking(taken + [unspent[p]], TakeOutputs(RemoveAt(unspent, p), requested[i + 1..]))
  {
    assert requested[i..][0] == requested[i] && requested[i..][1..] == requested[i + 1..];
    if IndexOfKey(unspent, requested[i].spendingKey).Some? {
      var p := IndexOfKey(unspent, requested[i].spendingKey).value;
      forall taken
        ensures AfterTaking(taken, TakeOutputs(unspent, requested[i..])) ==
                AfterTaking(taken + [unspent[p]], TakeOutputs(RemoveAt(unspent, p), requested[i + 1..]))
      {
        var rest := TakeOutputs(RemoveAt(unspent, p), requested[i + 1..]);
        assert taken + ([unspent[p]] + rest.taken) == taken + [unspent[p]] + rest.taken;
      }
    }
  }

  /**
   * `short_term_encumber_outputs`. On success the taken outputs and the change
   * output form a new short-term entry stamped `now`. On failure the outputs
   * taken before the missing one stay removed from the unspent list.
   */
  function ShortTermEncumber(s: DbState, tx: TxId, outputsToSend: seq<UnblindedOutput>,
                             change: Option<UnblindedOutput>, now: Timestamp): (r: Step<()>)
    ensures var e := TakeOutputs(s.unspent, outputsToSend);
            r.state.unspent == e.remaining &&
            (r.result.Err? <==> !e.complete) &&
            (r.result.Err? ==> r == Step(s.(unspent := e.remaining), Err(ValuesNotFound))) &&
            (r.result.Ok? ==>
               r.state == s.(unspent := e.remaining,
                             shortTerm := s.shortTerm[tx := PendingTransactionOutputs.PendingTransactionOutputs(tx, e.taken, OptionToSeq(change), now)]))
  {
    var e := TakeOutputs(s.unspent, outputsToSend);
    if !e.complete then Step(s.(unspent := e.remaining), Err(ValuesNotFound))
    else
      var entry := PendingTransactionOutputs.PendingTransactionOutputs(tx, e.taken, OptionToSeq(change), now);
      Step(s.(unspent := e.remaining, shortTerm := s.shortTerm[tx := entry]), Ok(()))
  }

  /** `confirm_encumbered_outputs`: the short-term entry moves to the long-term map, keyed by its own id. */
  function ConfirmEncumbered(s: DbState, tx: TxId): (r: Step<()>)
    ensures r.result.Err? <==> tx !in s.shortTerm
    ensures r.result.Err? ==> r == Step(s, Err(ValueNotFound(DbKey.PendingTransactionOutputs(tx))))
    ensures r.result.Ok? ==>
              var p := s.shortTerm[tx];
              r.state == s.(shortTerm := s.shortTerm - {tx}, pending := s.pending[p.txId := p])
  {
    if tx !in s.shortTerm then Step(s, Err(ValueNotFound(DbKey.PendingTransactionOutputs(tx))))
    else
      var p := s.shortTerm[tx];
      Step(s.(shortTerm := s.shortTerm - {tx}, pending := s.pending[p.txId := p]), Ok(()))
  }

  // ---------------------------------------------------------------------------
  // Timeouts

  /** chrono's `Duration::from_std` fails above `i64::MAX` milliseconds. */
  const MaxChronoDurationMs: nat := 0x7FFF_FFFF_FFFF_FFFF

  predicate PeriodTooLong(period: nat) {
    period > MaxChronoDurationMs
  }

  predicate Expired(p: PendingTransactionOutputs, period: nat, now: Timestamp) {
    p.timestamp + period < now
  }

  predicate Distinct(ids: seq<TxId>) {
    forall i, j :: 0 <= i < j < |ids| ==> ids[i] != ids[j]
  }

  /** `ids` lists every key of `keys` exactly once: one possible iteration order of a hash map. */
  predicate Enumerates(ids: seq<TxId>, keys: set<TxId>) {
    Distinct(ids) && forall t :: t in ids <==> t in keys
  }

  /** The ids, in the order visited, whose entry in `m` has expired. */
  function ExpiredIds(m: map<TxId, PendingTransactionOutputs>, ids: seq<TxId>, period: nat, now: Timestamp): (r: seq<TxId>)
    ensures forall t :: t in r <==> t in ids && t in m && Expired(m[t], period, now)
    ensures Distinct(ids) ==> Distinct(r)
  {
    if ids == [] then []
    else
      var last := ids[|ids| - 1];
      var front := ExpiredIds(m, ids[..|ids| - 1], period, now);
      assert forall t :: t in ids <==> t in ids[..|ids| - 1] || t == last;
      if last in m && Expired(m[last], period, now) then front + [last] else front
  }

  /**
   * `timeout_pending_transactions`, for the iteration orders `longIds` of the
   * long-term map and `shortIds` of the short-term map: every entry stamped
   * more than `period` before `now` is cancelled, long-term ones first.
   */
  function Timeout(s: DbState, period: nat, now: Timestamp, longIds: seq<TxId>, shortIds: seq<TxId>): (r: Step<()>)
    ensures PeriodTooLong(period) && (s.pending != map[] || s.shortTerm != map[]) ==>
              r == Step(s, Err(DurationOutOfRange))
  {
    if PeriodTooLong(period) && (s.pending != map[] || s.shortTerm != map[]) then
      Step(s, Err(DurationOutOfRange))
    else
      CancelAll(s, ExpiredIds(s.pending, longIds, period, now) + ExpiredIds(s.shortTerm, shortIds, period, now))
  }

  // ---------------------------------------------------------------------------
  // Invalid outputs and the key manager

  /** `invalidate_unspent_output`: the first unspent output with the key moves to the end of the invalid list. */
  function Invalidate(s: DbState, output: UnblindedOutput): (r: Step<()>)
    ensures r.result.Err? <==> !HasKey(s.unspent, output.spendingKey)
    ensures r.result.Err? ==> r == Step(s, Err(ValuesNotFound))
    ensures r.result.Ok? ==>
              var i := IndexOfKey(s.unspent, output.spendingKey).value;
              r.state == s.(unspent := RemoveAt(s.unspent, i), invalid := s.invalid + [s.unspent[i]])
  {
    match IndexOfKey(s.unspent, output.spendingKey)
    case None => Step(s, Err(ValuesNotFound))
    case Some(i) => Step(s.(unspent := RemoveAt(s.unspent, i), invalid := s.invalid + [s.unspent[i]]), Ok(()))
  }

  /** `increment_key_index`. */
  function IncrementKeyIndex(s: DbState): (r: Step<()>)
    ensures r.result.Err? <==> s.keyManager.None?
    ensures r.result.Err? ==> r == Step(s, Err(KeyManagerNotInitialized))
    ensures r.result.Ok? ==>
              && r.state.keyManager.Some?
              && r.state.keyManager.value.primaryKeyIndex == s.keyManager.value.primaryKeyIndex + 1
              && r.state.keyManager.value.seeds == s.keyManager.value.seeds
              && r.state.(keyManager := s.keyManager) == s
  {
    match s.keyManager
    case None => Step(s, Err(KeyManagerNotInitialized))
    case Some(km) => Step(s.(keyManager := Some(km.(primaryKeyIndex := km.primaryKeyIndex + 1))), Ok(()))
  }
}
