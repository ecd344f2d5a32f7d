/**
 Shared privilege leases of the batch authorisation service.

 Several import batches may give the same user the same table.  Doris knows only
 whether the privilege is there; a lease per privilege remembers whether this
 system created it, and the last batch that still refers to it decides about the
 REVOKE.  The functions say what each transaction makes of the records.
 */
module PrivilegeLease {
  /** The normalised key of a lease: connection, user identity, database, table and privilege type. */
  datatype Privilege = Privilege(key: string)

  datatype Ownership = Unknown | External | System

  datatype LeaseState = Initializing | Active | Revoked | Error

  datatype Lease = Lease(ownership: Ownership, owned: bool, state: LeaseState)

  datatype Phase = Running | Succeeded | Partial | Failed | Offlined | Expired

  datatype Batch = Batch(phase: Phase, expires: int, offlined: bool)

  datatype Table = Table(batch: nat, phase: Phase)

  datatype GrantMark = Granted | Shared | GrantFailed

  datatype RevokeMark = RevokePending | RevokeDone | RevokeSkipped | RevokeFailed

  datatype Row = Row(batch: nat, table: nat, key: Privilege, grant: GrantMark, revoke: RevokeMark)

  /**
   `doris` holds the privileges that exist, and `granted` those among them that a GRANT of this system
   created; no branch reads `granted`, it is the history the properties speak of.
   */
  datatype World = World(doris: set<Privilege>, granted: set<Privilege>, leases: map<Privilege, Lease>,
                         batches: seq<Batch>, tables: seq<Table>, rows: seq<Row>, now: int)

  /** Which of the two Doris statements of a grant fails, if any. */
  datatype Fault = NoFault | CheckFault | GrantFault

  datatype Attempt = Attempt(key: Privilege, fault: Fault)

  // ---- acquiring a lease for a grant --------------------------------------------------------

  function AcquireMark(w: World, k: Privilege, fault: Fault): GrantMark {
    if fault == CheckFault then GrantFailed
    else if k in w.doris then Shared
    else if fault == GrantFault then GrantFailed
    else Granted
  }

  /** An existing privilege stays the system's, or of unknown origin, only under a lease that was not revoked. */
  function AcquiredLease(w: World, k: Privilege, fault: Fault): Lease {
    var known := if k in w.leases then w.leases[k] else Lease(Unknown, false, Initializing);
    match AcquireMark(w, k, fault)
    case GrantFailed => known.(state := Error)
    case Granted => Lease(System, true, Active)
    case Shared =>
      if k in w.leases && known.state != Revoked
        && ((known.ownership == System && known.owned) || known.ownership == Unknown)
      then known.(state := Active)
      else Lease(External, false, Active)
  }

  function AfterAcquire(w: World, k: Privilege, fault: Fault): World {
    var made := if AcquireMark(w, k, fault) == Granted then {k} else {};
    w.(leases := w.leases[k := AcquiredLease(w, k, fault)], doris := w.doris + made, granted := w.granted + made)
  }

  // ---- importing a batch --------------------------------------------------------------------

  function NewRow(w: World, b: nat, t: nat, a: Attempt): Row {
    var mark := AcquireMark(w, a.key, a.fault);
    Row(b, t, a.key, mark, if mark == GrantFailed then RevokeSkipped else RevokePending)
  }

  function AfterGrantRow(w: World, b: nat, t: nat, a: Attempt): World {
    AfterAcquire(w, a.key, a.fault).(rows := w.rows + [NewRow(w, b, t, a)])
  }

  function AfterGrantRows(w: World, b: nat, t: nat, attempts: seq<Attempt>, n: nat): (r: World)
    requires n <= |attempts|
    ensures r.tables == w.tables && r.batches == w.batches && r.now == w.now && |r.rows| == |w.rows| + n
  {
    if n == 0 then w else AfterGrantRow(AfterGrantRows(w, b, t, attempts, n - 1), b, t, attempts[n - 1])
  }

  /** How many of the rows from `first` on got their privilege. */
  function CountGranted(rows: seq<Row>, first: nat): (count: nat)
    requires first <= |rows|
    ensures count <= |rows| - first
    decreases |rows|
  {
    if first == |rows| then 0
    else CountGranted(rows[..|rows| - 1], first) + (if rows[|rows| - 1].grant != GrantFailed then 1 else 0)
  }

  function CountSucceeded(tables: seq<Table>, first: nat): (count: nat)
    requires first <= |tables|
    ensures count <= |tables| - first
    decreases |tables|
  {
    if first == |tables| then 0
    else CountSucceeded(tables[..|tables| - 1], first) + (if tables[|tables| - 1].phase == Succeeded then 1 else 0)
  }

  /** The roll-up of `total` parts, for a table over its users and for a batch over its tables. */
  function RollUp(success: nat, total: nat): Phase
    requires success <= total
  {
    if success == total then Succeeded else if success == 0 then Failed else Partial
  }

  function AfterCloseTable(w: World, t: nat, firstRow: nat): World
    requires t < |w.tables| && firstRow <= |w.rows|
  {
    w.(tables := w.tables[t := w.tables[t].(phase := RollUp(CountGranted(w.rows, firstRow), |w.rows| - firstRow))])
  }

  function AfterImportTable(w: World, b: nat, attempts: seq<Attempt>): World {
    var t := |w.tables|;
    var filled := AfterGrantRows(w.(tables := w.tables + [Table(b, Running)]), b, t, attempts, |attempts|);
    AfterCloseTable(filled, t, |w.rows|)
  }

  function AfterImportTables(w: World, b: nat, imports: seq<seq<Attempt>>, n: nat): (r: World)
    requires n <= |imports|
    ensures r.batches == w.batches && r.now == w.now && |r.tables| == |w.tables| + n
  {
    if n == 0 then w else AfterImportTable(AfterImportTables(w, b, imports, n - 1), b, imports[n - 1])
  }

  function AfterCloseBatch(w: World, b: nat, firstTable: nat): World
    requires b < |w.batches| && firstTable <= |w.tables|
  {
    w.(batches := w.batches[b := w.batches[b].(phase := RollUp(CountSucceeded(w.tables, firstTable),
                                                               |w.tables| - firstTable))])
  }

  function AfterImport(w: World, expires: int, imports: seq<seq<Attempt>>): World {
    var b := |w.batches|;
    if expires <= w.now then w else
      var filled := AfterImportTables(w.(batches := w.batches + [Batch(Running, expires, false)]), b, imports,
                                      |imports|);
      AfterCloseBatch(filled, b, |w.tables|)
  }

  // ---- counting references ------------------------------------------------------------------

  predicate Up(phase: Phase) {
    phase == Running || phase == Succeeded || phase == Partial
  }

  /** The row still stands: granted or shared, not revoked, in a table that is neither failed nor offlined. */
  predicate Standing(w: World, i: int) {
    0 <= i < |w.rows| && w.rows[i].grant != GrantFailed && w.rows[i].revoke != RevokeDone
    && w.rows[i].table < |w.tables| && Up(w.tables[w.rows[i].table].phase)
  }

  predicate BatchOn(w: World, b: nat) {
    b < |w.batches| && Up(w.batches[b].phase) && w.batches[b].expires > w.now && !w.batches[b].offlined
  }

  /** The row is one that the count of active references counts. */
  predicate ActiveRow(w: World, i: int) {
    Standing(w, i) && BatchOn(w, w.rows[i].batch)
  }

  /** Active references to `k` among the first `n` rows, those of batch `excluded` left out. */
  function References(w: World, k: Privilege, excluded: nat, n: nat): nat
    requires n <= |w.rows|
  {
    if n == 0 then 0
    else References(w, k, excluded, n - 1)
         + (if ActiveRow(w, n - 1) && w.rows[n - 1].key == k && w.rows[n - 1].batch != excluded then 1 else 0)
  }

  // ---- taking a batch offline -----------------------------------------------------------------

  datatype Decision = SkipReferenced | SkipRevoked | Revoke | SkipExisting | SkipUnknown

  function RevokePlan(lease: Lease, references: nat): Decision {
    if references > 0 then SkipReferenced
    else if lease.state == Revoked then SkipRevoked
    else if lease.ownership == System && lease.owned then Revoke
    else if lease.ownership == External then SkipExisting
    else SkipUnknown
  }

  /** A row without a lease gets one of unknown origin. */
  function LeaseFor(w: World, k: Privilege): Lease {
    if k in w.leases then w.leases[k] else Lease(Unknown, false, Active)
  }

  function Plan(w: World, i: nat): Decision
    requires i < |w.rows|
  {
    RevokePlan(LeaseFor(w, w.rows[i].key), References(w, w.rows[i].key, w.rows[i].batch, |w.rows|))
  }

  predicate Revocable(w: World, i: nat, t: nat)
    requires i < |w.rows|
  {
    w.rows[i].table == t && w.rows[i].grant != GrantFailed && w.rows[i].revoke != RevokeDone
  }

  /** What a row of a batch's table becomes; `fails` says that the REVOKE statement, if issued, fails. */
  function AfterRevokeRow(w: World, t: nat, i: nat, fails: bool): World
    requires i < |w.rows|
  {
    var k := w.rows[i].key;
    var lease := LeaseFor(w, k);
    if !Revocable(w, i, t) then w
    else if Plan(w, i) != Revoke then
      w.(leases := w.leases[k := lease], rows := w.rows[i := w.rows[i].(revoke := RevokeSkipped)])
    else if fails then
      w.(leases := w.leases[k := lease.(state := Error)], rows := w.rows[i := w.rows[i].(revoke := RevokeFailed)])
    else
      w.(leases := w.leases[k := lease.(state := Revoked)], rows := w.rows[i := w.rows[i].(revoke := RevokeDone)],
         doris := w.doris - {k}, granted := w.granted - {k})
  }

  /** Something failed in this pass, so that the table (or batch) is not finished. */
  datatype Pass = Pass(w: World, hurt: bool)

  function PassRow(p: Pass, t: nat, i: nat, faults: set<nat>): Pass
    requires i < |p.w.rows|
  {
    Pass(AfterRevokeRow(p.w, t, i, i in faults),
         p.hurt || (Revocable(p.w, i, t) && Plan(p.w, i) == Revoke && i in faults))
  }

  function PassRows(p: Pass, t: nat, faults: set<nat>, n: nat): (r: Pass)
    requires n <= |p.w.rows|
    ensures |r.w.rows| == |p.w.rows| && r.w.tables == p.w.tables && r.w.batches == p.w.batches && r.w.now == p.w.now
  {
    if n == 0 then p else PassRow(PassRows(p, t, faults, n - 1), t, n - 1, faults)
  }

  function PassTable(p: Pass, b: nat, t: nat, faults: set<nat>): (r: Pass)
    requires t < |p.w.tables|
    ensures |r.w.rows| == |p.w.rows| && |r.w.tables| == |p.w.tables| && r.w.batches == p.w.batches && r.w.now == p.w.now
  {
    if p.w.tables[t].batch != b || (p.w.tables[t].phase != Succeeded && p.w.tables[t].phase != Partial) then p
    else
      var q := PassRows(Pass(p.w, false), t, faults, |p.w.rows|);
      if q.hurt then Pass(q.w, true)
      else Pass(q.w.(tables := q.w.tables[t := q.w.tables[t].(phase := Offlined)]), p.hurt)
  }

  function PassTables(p: Pass, b: nat, faults: set<nat>, n: nat): (r: Pass)
    requires n <= |p.w.tables|
    ensures |r.w.rows| == |p.w.rows| && |r.w.tables| == |p.w.tables| && r.w.batches == p.w.batches && r.w.now == p.w.now
  {
    if n == 0 then p else PassTable(PassTables(p, b, faults, n - 1), b, n - 1, faults)
  }

  function AfterOffline(w: World, b: nat, faults: set<nat>): World {
    if b >= |w.batches| then w else
      var p := PassTables(Pass(w, false), b, faults, |w.tables|);
      p.w.(batches := p.w.batches[b := p.w.batches[b].(phase := if p.hurt then Partial else Offlined,
                                                       offlined := !p.hurt)])
  }

  // ---- the other steps --------------------------------------------------------------------------

  function AfterExtend(w: World, b: nat, expires: int): World {
    if b >= |w.batches| || expires <= w.now then w else
      var longer := w.batches[b].(expires := expires);
      w.(batches := w.batches[b := if longer.phase == Expired || longer.phase == Offlined
                                   then longer.(phase := Succeeded, offlined := false) else longer])
  }

  /** The batches the scheduler selects. */
  predicate Due(w: World, b: nat) {
    b < |w.batches| && w.batches[b].expires <= w.now && !w.batches[b].offlined
    && (w.batches[b].phase == Succeeded || w.batches[b].phase == Partial)
  }

  /** The scheduler gives up on a due batch whose Doris connection is gone. */
  function AfterConnectionLost(w: World, b: nat): World {
    if Due(w, b) then w.(batches := w.batches[b := w.batches[b].(phase := Failed)]) else w
  }

  datatype Event =
    | Import(expires: int, imports: seq<seq<Attempt>>)
    | Offline(batch: nat, faults: set<nat>)
    | Extend(batch: nat, until: int)
    | ConnectionLost(batch: nat)
    | Tick(seconds: nat)
    | OutsideGrant(key: Privilege)
    | OutsideRevoke(key: Privilege)

  /** One committed transaction, the passing of time, or a statement somebody else runs in Doris. */
  function Step(w: World, e: Event): World {
    match e
    case Import(expires, imports) => AfterImport(w, expires, imports)
    case Offline(b, faults) => AfterOffline(w, b, faults)
    case Extend(b, until) => AfterExtend(w, b, until)
    case ConnectionLost(b) => AfterConnectionLost(w, b)
    case Tick(d) => w.(now := w.now + d)
    case OutsideGrant(k) => w.(doris := w.doris + {k})
    case OutsideRevoke(k) => w.(doris := w.doris - {k}, granted := w.granted - {k})
  }

  function Run(w: World, events: seq<Event>): World
    decreases |events|
  {
    if events == [] then w else Step(Run(w, events[..|events| - 1]), events[|events| - 1])
  }

  function Fresh(existing: set<Privilege>, start: int): World {
    World(existing, {}, map[], [], [], [], start)
  }

  /** A tick of the scheduler over the batches its query picked, `gone` being those without a connection. */
  function SweepEvents(picked: seq<nat>, faults: set<nat>, gone: set<nat>): (events: seq<Event>)
    ensures |events| == |picked|
  {
    seq(|picked|, i requires 0 <= i < |picked| =>
          if picked[i] in gone then ConnectionLost(picked[i]) else Offline(picked[i], faults))
  }
}
