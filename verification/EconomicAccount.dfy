/**
 The role account of a ticket: one balance row updated in place beside the reservations charged
 against it, and the journal of events each change appends.
 */
module EconomicAccount {
  import opened Basics
  import opened GovernedDispatch
  import opened Settlement
  import Pricing

  datatype Refusal =
    | BalanceExceeded | DuplicateOrdinal | DuplicateSource | NotFound | NotReleasable | AlreadySettled | StateConflict
    | NoResponse | NoReceipt(why: Refused)

  /** One reservation: whose it is, the logical request it answers (a planner's answers none), the
      prepared request whose maximum liability it holds, and what it settled for. */
  datatype Row = Row(subject: nat, source: Option<string>, request: Prepared, phase: Phase, charged: nat) {
    const amount: nat := request.liability
    const ordinal: nat := request.ordinal
  }

  predicate Open(row: Row) {
    row.phase == Reserved || row.phase == Started || row.phase == Persisted
  }

  predicate Sound(row: Row) {
    && Pricing.WellFormed(row.request.authority.entry)
    && row.charged <= row.amount && (row.phase != Settled ==> row.charged == 0)
  }

  // ---------------------------------------------------------------- where the money is

  function HeldBy(row: Row): nat {
    if Open(row) then row.amount else 0
  }

  function Held(rows: seq<Row>): nat {
    if |rows| == 0 then 0 else Held(rows[..|rows| - 1]) + HeldBy(rows[|rows| - 1])
  }

  function Charged(rows: seq<Row>): nat {
    if |rows| == 0 then 0 else Charged(rows[..|rows| - 1]) + rows[|rows| - 1].charged
  }

  function EverReserved(rows: seq<Row>): nat {
    if |rows| == 0 then 0 else EverReserved(rows[..|rows| - 1]) + rows[|rows| - 1].amount
  }

  // ---------------------------------------------------------------- the journal

  /** The amounts the economic events carry: what was reserved, what a receipt charged and left
      unused, what an undispatched release gave back. */
  datatype Entry =
    | ReservedEntry(id: nat, amount: nat)
    | SettledEntry(id: nat, charged: nat, unused: nat)
    | ReleasedEntry(id: nat, amount: nat)

  function Drawn(journal: seq<Entry>): nat {
    if |journal| == 0 then 0
    else
      var last := journal[|journal| - 1];
      Drawn(journal[..|journal| - 1]) + if last.ReservedEntry? then last.amount else 0
  }

  function Spent(journal: seq<Entry>): nat {
    if |journal| == 0 then 0
    else
      var last := journal[|journal| - 1];
      Spent(journal[..|journal| - 1]) + if last.SettledEntry? then last.charged else 0
  }

  function GivenBack(journal: seq<Entry>): nat {
    if |journal| == 0 then 0
    else
      var last := journal[|journal| - 1];
      GivenBack(journal[..|journal| - 1]) +
        (match last case ReservedEntry(_, _) => 0 case SettledEntry(_, _, unused) => unused case ReleasedEntry(_, amount) => amount)
  }

  lemma AppendEntry(journal: seq<Entry>, e: Entry)
    ensures Drawn(journal + [e]) == Drawn(journal) + if e.ReservedEntry? then e.amount else 0
    ensures Spent(journal + [e]) == Spent(journal) + if e.SettledEntry? then e.charged else 0
    ensures GivenBack(journal + [e]) == GivenBack(journal) +
      (match e case ReservedEntry(_, _) => 0 case SettledEntry(_, _, unused) => unused case ReleasedEntry(_, amount) => amount)
  {
    assert (journal + [e])[..|journal|] == journal;
  }

  /** The rows and the journal tell one story: everything drawn is still held by some row, was charged,
      or was given back. */
  ghost predicate Reconciled(rows: seq<Row>, journal: seq<Entry>) {
    && Drawn(journal) == EverReserved(rows)
    && Spent(journal) == Charged(rows)
    && Drawn(journal) == Held(rows) + Spent(journal) + GivenBack(journal)
  }

  lemma ReserveReconciles(rows: seq<Row>, journal: seq<Entry>, row: Row)
    requires Reconciled(rows, journal) && row.phase == Reserved && row.charged == 0
    ensures Reconciled(rows + [row], journal + [ReservedEntry(|rows|, row.amount)])
  {
    AppendRow(rows, row);
    AppendEntry(journal, ReservedEntry(|rows|, row.amount));
  }

  lemma MoveReconciles(rows: seq<Row>, journal: seq<Entry>, id: nat, phase: Phase)
    requires Reconciled(rows, journal) && id < |rows| && Open(rows[id]) && Open(rows[id].(phase := phase))
    ensures Reconciled(rows[id := rows[id].(phase := phase)], journal)
  {
    ReplaceRow(rows, id, rows[id].(phase := phase));
  }

  /** A settlement reconciles exactly because its receipt splits the row's whole reserve. */
  lemma SettleReconciles(rows: seq<Row>, journal: seq<Entry>, id: nat, charged: nat, unused: nat)
    requires Reconciled(rows, journal) && id < |rows| && Open(rows[id]) && Sound(rows[id])
    ensures
      Reconciled(rows[id := rows[id].(phase := Settled, charged := charged)], journal + [SettledEntry(id, charged, unused)])
      <==> charged + unused == rows[id].amount
  {
    ReplaceRow(rows, id, rows[id].(phase := Settled, charged := charged));
    AppendEntry(journal, SettledEntry(id, charged, unused));
  }

  lemma ReleaseReconciles(rows: seq<Row>, journal: seq<Entry>, id: nat)
    requires Reconciled(rows, journal) && id < |rows| && Open(rows[id]) && Sound(rows[id])
    ensures Reconciled(rows[id := rows[id].(phase := Released)], journal + [ReleasedEntry(id, rows[id].amount)])
  {
    ReplaceRow(rows, id, rows[id].(phase := Released));
    AppendEntry(journal, ReleasedEntry(id, rows[id].amount));
  }

  /** Replacing one row moves the sums by that row's difference. */
  lemma {:induction false} ReplaceRow(rows: seq<Row>, k: nat, row: Row)
    requires k < |rows|
    ensures Held(rows[k := row]) == Held(rows) - HeldBy(rows[k]) + HeldBy(row)
    ensures Charged(rows[k := row]) == Charged(rows) - rows[k].charged + row.charged
    ensures row.amount == rows[k].amount ==> EverReserved(rows[k := row]) == EverReserved(rows)
  {
    var last := |rows| - 1;
    if k == last {
      assert rows[k := row][..last] == rows[..last];
    } else {
      assert rows[k := row][..last] == rows[..last][k := row];
      ReplaceRow(rows[..last], k, row);
    }
  }

  lemma AppendRow(rows: seq<Row>, row: Row)
    ensures Held(rows + [row]) == Held(rows) + HeldBy(row)
    ensures Charged(rows + [row]) == Charged(rows) + row.charged
    ensures EverReserved(rows + [row]) == EverReserved(rows) + row.amount
  {
    assert (rows + [row])[..|rows|] == rows;
  }

  predicate SameOrdinal(a: Row, b: Row) {
    a.subject == b.subject && a.ordinal == b.ordinal
  }

  predicate SameSource(a: Row, b: Row) {
    a.subject == b.subject && a.source.Some? && a.source == b.source
  }

  predicate OrdinalUnspent(rows: seq<Row>, row: Row) {
    forall k :: 0 <= k < |rows| ==> !SameOrdinal(rows[k], row)
  }

  predicate SourceUnspent(rows: seq<Row>, row: Row) {
    forall k :: 0 <= k < |rows| ==> !SameSource(rows[k], row)
  }

  /** The receipt a row settles with: built from its own captured basis and the usage, never from rates
      a caller supplies. */
  function ReceiptFor(row: Row, usage: Settlement.Usage): Result<Receipt, Refused>
    requires Sound(row)
  {
    var a := row.request.authority;
    BuildReceipt(row.request, a, a.entry, row.amount, usage)
  }

  /** A row some usage can settle: metered usage needs a persisted response. */
  predicate Settleable(row: Row, usage: Settlement.Usage) {
    Sound(row) && (row.phase == Persisted || (row.phase == Started && usage.AssumedMaximum?)) && ReceiptFor(row, usage).Ok?
  }

  /** No reserve is ever stranded: every started reservation of a request that was really prepared can be
      settled at its maximum, and then nothing is given back. */
  lemma StartedCanAlwaysSettle(row: Row)
    requires Sound(row) && (row.phase == Started || row.phase == Persisted)
    requires var q := row.request; Prepare(q.authority, q.ordinal, q.outputCap, q.liability) == Ok(q)
    ensures Settleable(row, AssumedMaximum)
    ensures ReceiptFor(row, AssumedMaximum).value.claim.settled == row.amount
  {
  }

  class Account {
    const authorized: nat
    var reserved: int
    var settled: int
    var rows: seq<Row>
    var journal: seq<Entry>

    /** The balance is what the rows say and what the journal says, and never exceeds the authorized
        amount. */
    ghost predicate Valid()
      reads this
    {
      && reserved == Held(rows) && settled == Charged(rows)
      && reserved + settled <= authorized
      && Reconciled(rows, journal)
      && (forall k :: 0 <= k < |rows| ==> Sound(rows[k]))
      && (forall j, k :: 0 <= j < k < |rows| && rows[j].subject == rows[k].subject ==>
            rows[j].ordinal != rows[k].ordinal && (rows[j].source.Some? ==> rows[j].source != rows[k].source))
    }

    constructor (authorized: nat)
      ensures Valid() && this.authorized == authorized && rows == [] && journal == [] && reserved == 0 && settled == 0
    {
      this.authorized := authorized;
      reserved, settled, rows, journal := 0, 0, [], [];
    }

    /** Hold the maximum liability before any provider contact; a spent ordinal or logical request is never reused. */
    method Reserve(subject: nat, source: Option<string>, request: Prepared) returns (r: Result<nat, Refusal>)
      requires Valid() && Pricing.WellFormed(request.authority.entry)
      modifies this
      ensures Valid()
      ensures r.Ok? <==>
        && old(reserved) + old(settled) + request.liability <= authorized
        && (forall k :: 0 <= k < |old(rows)| && old(rows)[k].subject == subject ==>
              old(rows)[k].ordinal != request.ordinal && (source.Some? ==> old(rows)[k].source != source))
      ensures r.Ok? ==>
        && rows == old(rows) + [Row(subject, source, request, Reserved, 0)] && r.value == |old(rows)|
        && reserved == old(reserved) + request.liability && settled == old(settled)
        && journal == old(journal) + [ReservedEntry(r.value, request.liability)]
      ensures r.Err? ==> rows == old(rows) && reserved == old(reserved) && settled == old(settled) && journal == old(journal)
    {
      hide Held, Charged, Reconciled;
      var amount := request.liability;
      if reserved + settled + amount > authorized {
        return Err(BalanceExceeded);
      }
      var row := Row(subject, source, request, Reserved, 0);
      if !OrdinalUnspent(rows, row) {
        return Err(DuplicateOrdinal);
      }
      if !SourceUnspent(rows, row) {
        return Err(DuplicateSource);
      }
      AppendRow(rows, row);
      ReserveReconciles(rows, journal, row);
      r := Ok(|rows|);
      journal := journal + [ReservedEntry(|rows|, amount)];
      rows := rows + [row];
      reserved := reserved + amount;
    }

    /** One winner: only a reserved row starts, and starting moves no money. */
    method MarkStarted(id: nat) returns (r: Result<(), Refusal>)
      requires Valid()
      modifies this`rows
      ensures Valid()
      ensures r.Ok? <==> id < |old(rows)| && old(rows)[id].phase == Reserved
      ensures rows == if r.Ok? then old(rows)[id := old(rows)[id].(phase := Started)] else old(rows)
    {
      hide Held, Charged, Reconciled;
      if id >= |rows| { return Err(NotFound); }
      if rows[id].phase != Reserved { return Err(StateConflict); }
      ReplaceRow(rows, id, rows[id].(phase := Started));
      MoveReconciles(rows, journal, id, Started);
      rows := rows[id := rows[id].(phase := Started)];
      return Ok(());
    }

    method MarkResponsePersisted(id: nat) returns (r: Result<(), Refusal>)
      requires Valid()
      modifies this`rows
      ensures Valid()
      ensures r.Ok? <==> id < |old(rows)| && old(rows)[id].phase == Started
      ensures rows == if r.Ok? then old(rows)[id := old(rows)[id].(phase := Persisted)] else old(rows)
    {
      hide Held, Charged, Reconciled;
      if id >= |rows| { return Err(NotFound); }
      if rows[id].phase != Started { return Err(StateConflict); }
      ReplaceRow(rows, id, rows[id].(phase := Persisted));
      MoveReconciles(rows, journal, id, Persisted);
      rows := rows[id := rows[id].(phase := Persisted)];
      return Ok(());
    }

    /** The whole reserve is released and only the receipt's amount is charged, together. */
    method Settle(id: nat, usage: Settlement.Usage) returns (r: Result<(), Refusal>)
      requires Valid()
      modifies this
      ensures Valid()
      ensures r.Ok? <==> id < |old(rows)| && Settleable(old(rows)[id], usage)
      ensures r.Ok? ==>
        var claim := ReceiptFor(old(rows)[id], usage).value.claim;
        && claim.settled >= 0 && claim.unused >= 0
        && rows == old(rows)[id := old(rows)[id].(phase := Settled, charged := claim.settled)]
        && reserved == old(reserved) - old(rows)[id].amount && settled == old(settled) + claim.settled
        && journal == old(journal) + [SettledEntry(id, claim.settled, claim.unused)]
      ensures r.Err? ==> rows == old(rows) && reserved == old(reserved) && settled == old(settled) && journal == old(journal)
    {
      hide Held, Charged, Reconciled, BuildReceipt;
      if id >= |rows| { return Err(NotFound); }
      var row := rows[id];
      if row.phase == Settled || row.phase == Released { return Err(AlreadySettled); }
      if row.phase == Reserved { return Err(StateConflict); }
      if row.phase == Started && !usage.AssumedMaximum? { return Err(NoResponse); }
      assert Sound(row);
      var receipt := ReceiptFor(row, usage);
      if receipt.Err? { return Err(NoReceipt(receipt.error)); }
      BuiltReceiptBalances(row.request, row.request.authority, row.request.authority.entry, row.amount, usage);
      var charged, unused := receipt.value.claim.settled, receipt.value.claim.unused;
      ReplaceRow(rows, id, row.(phase := Settled, charged := charged));
      SettleReconciles(rows, journal, id, charged, unused);
      journal := journal + [SettledEntry(id, charged, unused)];
      rows := rows[id := row.(phase := Settled, charged := charged)];
      reserved, settled := reserved - row.amount, settled + charged;
      return Ok(());
    }

    /** Only a request that was never started gives its reserve back uncharged. */
    method Release(id: nat) returns (r: Result<(), Refusal>)
      requires Valid()
      modifies this
      ensures Valid()
      ensures r.Ok? <==> id < |old(rows)| && old(rows)[id].phase == Reserved
      ensures r.Ok? ==>
        && rows == old(rows)[id := old(rows)[id].(phase := Released)]
        && reserved == old(reserved) - old(rows)[id].amount && settled == old(settled)
        && journal == old(journal) + [ReleasedEntry(id, old(rows)[id].amount)]
      ensures r.Err? ==> rows == old(rows) && reserved == old(reserved) && settled == old(settled) && journal == old(journal)
    {
      hide Held, Charged, Reconciled;
      if id >= |rows| { return Err(NotFound); }
      var row := rows[id];
      if row.phase != Reserved { return Err(NotReleasable); }
      assert Sound(row);
      ReplaceRow(rows, id, row.(phase := Released));
      ReleaseReconciles(rows, journal, id);
      journal := journal + [ReleasedEntry(id, row.amount)];
      rows := rows[id := row.(phase := Released)];
      reserved := reserved - row.amount;
      return Ok(());
    }
  }
}
