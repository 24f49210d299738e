/**
  The claim table: one row per transaction, fenced by an attempt id and a lease,
  and the recipients that are owed the transaction's outcome.

  Each SQL statement is one function from table to table. The class runs the
  same statements in place.
 */
module ExecutionStore {
  import opened Wrappers
  import opened Events

  type Attempt = nat

  datatype Status = Running | Completed | Abandoned

  datatype Hash = Hash(action: string, payload: Payload)

  datatype Row = Row(request: EventId, hash: Hash, status: Status, result: Option<ResultPayload>,
                     attempt: Attempt, leaseUntil: Option<int>, attempts: nat)

  datatype RecipientKey = RecipientKey(tx: TxKey, channel: string, stream: string)

  datatype Tables = Tables(rows: map<TxKey, Row>, recipients: map<RecipientKey, Envelope>)

  datatype Claim =
    | Claimed(attempts: nat)
    | Joined(request: EventId, completed: bool, result: Option<ResultPayload>)
    | Refused

  function HashOf(event: Envelope): Hash {
    Hash(event.action, event.payload)
  }

  function RecipientOf(event: Envelope): Envelope {
    event.(replyChannel := Some(event.replyChannel.GetOr("agent.results")), payload := Text(""))
  }

  function KeyOf(event: Envelope): RecipientKey {
    RecipientKey(event.tx, event.replyChannel.GetOr("agent.results"), event.stream)
  }

  predicate LeaseExpired(row: Row, now: int) {
    row.leaseUntil.None? || row.leaseUntil.value < now
  }

  predicate Owns(t: Tables, tx: TxKey, attempt: Attempt) {
    tx in t.rows && t.rows[tx].status.Running? && t.rows[tx].attempt == attempt
  }

  /** The insert that opens a transaction. Its caller adds the recipient in a second statement. */
  function Insert(t: Tables, event: Envelope, attempt: Attempt, now: int, lease: nat): Tables
    requires event.tx !in t.rows
  {
    t.(rows := t.rows[event.tx := Row(event.id, HashOf(event), Running, None, attempt, Some(now + lease), 1)])
  }

  function AddRecipient(t: Tables, event: Envelope): Tables {
    if KeyOf(event) in t.recipients then t
    else t.(recipients := t.recipients[KeyOf(event) := RecipientOf(event)])
  }

  /** The one statement run against a row that already exists: lock, register, reclaim, read. */
  function ClaimExisting(t: Tables, event: Envelope, attempt: Attempt, now: int, lease: nat): (Tables, Claim)
    requires event.tx in t.rows
  {
    var row := t.rows[event.tx];
    if row.hash != HashOf(event) then (t, Refused)
    else
      var registered := AddRecipient(t, event);
      if row.status.Running? && LeaseExpired(row, now) then
        var reclaimed := row.(attempt := attempt, leaseUntil := Some(now + lease), attempts := row.attempts + 1);
        (registered.(rows := registered.rows[event.tx := reclaimed]), Claimed(row.attempts + 1))
      else (registered, Joined(row.request, !row.status.Running?, row.result))
  }

  function Renew(t: Tables, tx: TxKey, attempt: Attempt, now: int, lease: nat): Tables {
    if Owns(t, tx, attempt) then t.(rows := t.rows[tx := t.rows[tx].(leaseUntil := Some(now + lease))]) else t
  }

  function Release(t: Tables, tx: TxKey, attempt: Attempt, now: int): Tables {
    if Owns(t, tx, attempt) then t.(rows := t.rows[tx := t.rows[tx].(leaseUntil := Some(now - 1))]) else t
  }

  function Complete(t: Tables, tx: TxKey, attempt: Attempt, result: ResultPayload): Tables {
    if Owns(t, tx, attempt)
    then t.(rows := t.rows[tx := t.rows[tx].(status := Completed, result := Some(result), leaseUntil := None)])
    else t
  }

  predicate CanFailExpired(t: Tables, tx: TxKey, now: int) {
    tx in t.rows && t.rows[tx].status.Running? && LeaseExpired(t.rows[tx], now)
  }

  function FailExpired(t: Tables, tx: TxKey, result: ResultPayload, now: int): Tables {
    if CanFailExpired(t, tx, now)
    then t.(rows := t.rows[tx := t.rows[tx].(status := Abandoned, result := Some(result), leaseUntil := None)])
    else t
  }

  function RecipientsOf(t: Tables, tx: TxKey): set<RecipientKey> {
    set key <- t.recipients | key.tx == tx
  }

  predicate RowEvolves(before: Row, after: Row) {
    && after.request == before.request && after.hash == before.hash
    && after.attempts >= before.attempts
    && (!before.status.Running? ==> after == before)
  }

  /**
    What any statement on the table may do: it touches one transaction, never
    takes a recipient back, and leaves a terminal row exactly as it was.
   */
  ghost predicate Moves(t: Tables, u: Tables, tx: TxKey) {
    && (forall x <- t.rows :: x in u.rows && RowEvolves(t.rows[x], u.rows[x]))
    && (forall x <- u.rows :: x == tx || (x in t.rows && u.rows[x] == t.rows[x]))
    && (forall key <- t.recipients :: key in u.recipients && u.recipients[key] == t.recipients[key])
    && (forall key <- u.recipients :: key in t.recipients || key.tx == tx)
  }

  lemma SettingARowMoves(t: Tables, tx: TxKey, row: Row)
    requires tx in t.rows ==> RowEvolves(t.rows[tx], row)
    ensures Moves(t, t.(rows := t.rows[tx := row]), tx)
  {
  }

  lemma RegisteringMoves(t: Tables, event: Envelope)
    ensures Moves(t, AddRecipient(t, event), event.tx)
  {
  }

  lemma ClaimingMoves(t: Tables, event: Envelope, attempt: Attempt, now: int, lease: nat)
    requires event.tx in t.rows
    ensures Moves(t, ClaimExisting(t, event, attempt, now, lease).0, event.tx)
  {
    var registered := AddRecipient(t, event);
    RegisteringMoves(t, event);
    var row := t.rows[event.tx];
    if row.status.Running? {
      SettingARowMoves(registered, event.tx,
        row.(attempt := attempt, leaseUntil := Some(now + lease), attempts := row.attempts + 1));
    }
  }

  class ExecutionStore {
    const leaseSeconds: nat
    var rows: map<TxKey, Row>
    var recipients: map<RecipientKey, Envelope>

    constructor (leaseSeconds: nat)
      ensures this.leaseSeconds == leaseSeconds && Contents() == Tables(map[], map[])
    {
      this.leaseSeconds := leaseSeconds;
      rows := map[];
      recipients := map[];
    }

    function Contents(): Tables
      reads this
    {
      Tables(rows, recipients)
    }

    method TryInsert(event: Envelope, attempt: Attempt, now: int) returns (inserted: bool)
      modifies this`rows
      ensures inserted == (event.tx !in old(rows))
      ensures Contents() ==
              if event.tx !in old(rows) then Insert(old(Contents()), event, attempt, now, leaseSeconds)
              else old(Contents())
    {
      inserted := event.tx !in rows;
      if inserted {
        rows := rows[event.tx := Row(event.id, HashOf(event), Running, None, attempt, Some(now + leaseSeconds), 1)];
      }
    }

    method Register(event: Envelope)
      modifies this`recipients
      ensures Contents() == AddRecipient(old(Contents()), event)
    {
      if KeyOf(event) !in recipients {
        recipients := recipients[KeyOf(event) := RecipientOf(event)];
      }
    }

    method Rejoin(event: Envelope, attempt: Attempt, now: int) returns (claim: Claim)
      requires event.tx in rows
      modifies this
      ensures (Contents(), claim) == ClaimExisting(old(Contents()), event, attempt, now, leaseSeconds)
    {
      var row := rows[event.tx];
      if row.hash != HashOf(event) {
        return Refused;
      }
      Register(event);
      if row.status.Running? && LeaseExpired(row, now) {
        rows := rows[event.tx := row.(attempt := attempt, leaseUntil := Some(now + leaseSeconds),
                                      attempts := row.attempts + 1)];
        return Claimed(row.attempts + 1);
      }
      return Joined(row.request, !row.status.Running?, row.result);
    }

    /**
      Both statements of a claim, back to back. What is claimed is either a
      transaction nobody had opened or one whose owner let its lease run out.
     */
    method ClaimNow(event: Envelope, attempt: Attempt, now: int) returns (claim: Claim)
      modifies this
      ensures claim.Claimed? ==> Owns(Contents(), event.tx, attempt) && KeyOf(event) in recipients
      ensures claim.Claimed? <==>
              event.tx !in old(rows)
              || (old(rows)[event.tx].hash == HashOf(event) && old(rows)[event.tx].status.Running?
                  && LeaseExpired(old(rows)[event.tx], now))
      ensures claim.Claimed? ==>
                claim.attempts == 1 + if event.tx in old(rows) then old(rows)[event.tx].attempts else 0
      ensures claim.Joined? ==>
                && rows == old(rows) && KeyOf(event) in recipients && event.tx in rows
                && claim == Joined(rows[event.tx].request, !rows[event.tx].status.Running?, rows[event.tx].result)
      ensures claim.Refused? ==> Contents() == old(Contents())
      ensures claim.Refused? <==> event.tx in old(rows) && old(rows)[event.tx].hash != HashOf(event)
    {
      var inserted := TryInsert(event, attempt, now);
      if inserted {
        Register(event);
        return Claimed(1);
      }
      claim := Rejoin(event, attempt, now);
    }

    method RenewLease(tx: TxKey, attempt: Attempt, now: int) returns (owned: bool)
      modifies this`rows
      ensures owned == Owns(old(Contents()), tx, attempt)
      ensures Contents() == Renew(old(Contents()), tx, attempt, now, leaseSeconds)
    {
      owned := tx in rows && rows[tx].status.Running? && rows[tx].attempt == attempt;
      if owned {
        rows := rows[tx := rows[tx].(leaseUntil := Some(now + leaseSeconds))];
      }
    }

    method ReleaseLease(tx: TxKey, attempt: Attempt, now: int) returns (released: bool)
      modifies this`rows
      ensures released == Owns(old(Contents()), tx, attempt)
      ensures Contents() == Release(old(Contents()), tx, attempt, now)
    {
      released := tx in rows && rows[tx].status.Running? && rows[tx].attempt == attempt;
      if released {
        rows := rows[tx := rows[tx].(leaseUntil := Some(now - 1))];
      }
    }

    method CompleteAttempt(tx: TxKey, attempt: Attempt, result: ResultPayload) returns (completed: bool)
      modifies this`rows
      ensures completed == Owns(old(Contents()), tx, attempt)
      ensures Contents() == Complete(old(Contents()), tx, attempt, result)
    {
      completed := tx in rows && rows[tx].status.Running? && rows[tx].attempt == attempt;
      if completed {
        rows := rows[tx := rows[tx].(status := Completed, result := Some(result), leaseUntil := None)];
      }
    }

    /** Which of these transactions are already answered; a running one never is. */
    method Settled(keys: seq<TxKey>) returns (settled: set<TxKey>)
      ensures settled == set tx | tx in keys && tx in rows && !rows[tx].status.Running?
    {
      settled := {};
      for i := 0 to |keys|
        invariant settled == set tx | tx in keys[..i] && tx in rows && !rows[tx].status.Running?
      {
        if keys[i] in rows && !rows[keys[i]].status.Running? {
          settled := settled + {keys[i]};
        }
        assert keys[..i + 1] == keys[..i] + [keys[i]];
      }
      assert keys[..|keys|] == keys;
    }
  }
}
