/**
 What importing a batch leaves behind: its rows and tables, which attempts got
 their privilege, and whether the rows that did are counted as active references.
 */
module PrivilegeImports {
  import opened PrivilegeLease
  import opened PrivilegeLeaks

  /** How many attempts the first `n` tables have. */
  function Before(imports: seq<seq<Attempt>>, n: nat): nat
    requires n <= |imports|
  {
    if n == 0 then 0 else Before(imports, n - 1) + |imports[n - 1]|
  }

  /** The attempts of the first `n` tables, in the order they are made. */
  function Flat(imports: seq<seq<Attempt>>, n: nat): (attempts: seq<Attempt>)
    requires n <= |imports|
    ensures |attempts| == Before(imports, n)
  {
    if n == 0 then [] else Flat(imports, n - 1) + imports[n - 1]
  }

  // ---- importing ----------------------------------------------------------------------------------------

  /** What part of an import into batch `b` adds to `w`: rows for `attempts`, in tables of its own. */
  predicate Adds(w: World, after: World, b: nat, attempts: seq<Attempt>) {
    |w.tables| <= |after.tables| && after.tables[..|w.tables|] == w.tables
    && |after.rows| == |w.rows| + |attempts| && after.rows[..|w.rows|] == w.rows
    && w.doris <= after.doris && after.batches == w.batches && after.now == w.now
    && (forall t :: |w.tables| <= t < |after.tables| ==> after.tables[t].batch == b)
    && (forall i :: |w.rows| <= i < |after.rows| ==>
          AddedRow(w, after, b, i) && after.rows[i].key == attempts[i - |w.rows|].key)
  }

  predicate AddedRow(w: World, after: World, b: nat, i: int)
    requires 0 <= i < |after.rows|
  {
    after.rows[i].batch == b && |w.tables| <= after.rows[i].table < |after.tables| && after.rows[i].revoke != RevokeDone
    && (after.rows[i].grant != GrantFailed ==> after.rows[i].key in after.doris)
  }

  predicate ClosedSince(after: World, first: nat) {
    forall t :: first <= t < |after.tables| ==> after.tables[t].phase != Running
  }

  lemma {:induction false} GrantRowsAdd(w: World, start: World, b: nat, attempts: seq<Attempt>, n: nat)
    requires n <= |attempts| && start == w.(tables := w.tables + [Table(b, Running)])
    ensures Adds(w, AfterGrantRows(start, b, |w.tables|, attempts, n), b, attempts[..n])
  {
    if n > 0 {
      GrantRowsAdd(w, start, b, attempts, n - 1);
    }
  }

  lemma ImportTableAdds(w: World, b: nat, attempts: seq<Attempt>)
    ensures Adds(w, AfterImportTable(w, b, attempts), b, attempts)
            && ClosedSince(AfterImportTable(w, b, attempts), |w.tables|)
  {
    var start := w.(tables := w.tables + [Table(b, Running)]);
    GrantRowsAdd(w, start, b, attempts, |attempts|);
    assert attempts[..|attempts|] == attempts;
  }

  lemma AddsTrans(w: World, mid: World, after: World, b: nat, first: seq<Attempt>, second: seq<Attempt>)
    requires Adds(w, mid, b, first) && Adds(mid, after, b, second)
    ensures Adds(w, after, b, first + second)
  {
    forall i | |w.rows| <= i < |after.rows|
      ensures AddedRow(w, after, b, i) && after.rows[i].key == (first + second)[i - |w.rows|].key
    {
      if i < |mid.rows| {
        assert after.rows[i] == mid.rows[i] && AddedRow(w, mid, b, i);
      } else {
        assert AddedRow(mid, after, b, i);
      }
    }
    forall t | |w.tables| <= t < |after.tables|
      ensures after.tables[t].batch == b
    {
      if t < |mid.tables| {
        assert after.tables[t] == mid.tables[t];
      }
    }
    assert after.tables[..|w.tables|] == after.tables[..|mid.tables|][..|w.tables|];
    assert after.rows[..|w.rows|] == after.rows[..|mid.rows|][..|w.rows|];
  }

  lemma {:induction false} ImportTablesAdd(w: World, b: nat, imports: seq<seq<Attempt>>, n: nat)
    requires n <= |imports|
    ensures var after := AfterImportTables(w, b, imports, n);
            Adds(w, after, b, Flat(imports, n)) && ClosedSince(after, |w.tables|)
  {
    if n > 0 {
      var mid := AfterImportTables(w, b, imports, n - 1);
      var after := AfterImportTable(mid, b, imports[n - 1]);
      ImportTablesAdd(w, b, imports, n - 1);
      ImportTableAdds(mid, b, imports[n - 1]);
      AddsTrans(w, mid, after, b, Flat(imports, n - 1), imports[n - 1]);
      ClosedTrans(mid, after, |w.tables|);
    }
  }

  lemma ClosedTrans(mid: World, after: World, firstTable: nat)
    requires firstTable <= |mid.tables| <= |after.tables| && after.tables[..|mid.tables|] == mid.tables
    requires ClosedSince(mid, firstTable) && ClosedSince(after, |mid.tables|)
    ensures ClosedSince(after, firstTable)
  {
    forall t | firstTable <= t < |after.tables|
      ensures after.tables[t].phase != Running
    {
      if t < |mid.tables| {
        assert after.tables[t] == after.tables[..|mid.tables|][t];
      }
    }
  }

  /** An import adds the rows of its attempts under a new batch, and leaves every other record alone. */
  predicate Imported(w: World, after: World, expires: int, attempts: seq<Attempt>) {
    Adds(w.(batches := after.batches), after, |w.batches|, attempts) && ClosedSince(after, |w.tables|)
    && |after.batches| == |w.batches| + 1 && after.batches[..|w.batches|] == w.batches
    && after.batches[|w.batches|].expires == expires && !after.batches[|w.batches|].offlined
    && (after.batches[|w.batches|].phase == Failed || Up(after.batches[|w.batches|].phase))
  }

  lemma AddsWhateverBatches(w: World, after: World, b: nat, attempts: seq<Attempt>, batches: seq<Batch>)
    requires Adds(w, after, b, attempts)
    ensures Adds(w.(batches := batches), after.(batches := batches), b, attempts)
  {
    var before, later := w.(batches := batches), after.(batches := batches);
    forall i | |before.rows| <= i < |later.rows|
      ensures AddedRow(before, later, b, i) && later.rows[i].key == attempts[i - |before.rows|].key
    {
      assert AddedRow(w, after, b, i);
    }
  }

  lemma ClosingAdds(w: World, filled: World, expires: int, attempts: seq<Attempt>)
    requires Adds(w.(batches := w.batches + [Batch(Running, expires, false)]), filled, |w.batches|, attempts)
    requires ClosedSince(filled, |w.tables|)
    ensures Imported(w, AfterCloseBatch(filled, |w.batches|, |w.tables|), expires, attempts)
  {
    var after := AfterCloseBatch(filled, |w.batches|, |w.tables|);
    AddsWhateverBatches(w.(batches := w.batches + [Batch(Running, expires, false)]), filled, |w.batches|, attempts,
                        after.batches);
  }

  lemma ImportAdds(w: World, expires: int, imports: seq<seq<Attempt>>)
    requires w.now < expires
    ensures Imported(w, AfterImport(w, expires, imports), expires, Flat(imports, |imports|))
  {
    var start := w.(batches := w.batches + [Batch(Running, expires, false)]);
    ImportTablesAdd(start, |w.batches|, imports, |imports|);
    ClosingAdds(w, AfterImportTables(start, |w.batches|, imports, |imports|), expires, Flat(imports, |imports|));
  }

  /** Rows and tables that were there before an import are as active as they were. */
  lemma ImportKeepsOldRows(w: World, after: World, expires: int, attempts: seq<Attempt>, i: int)
    requires Linked(w) && Imported(w, after, expires, attempts) && 0 <= i < |w.rows|
    ensures after.rows[i] == w.rows[i] && (Standing(after, i) <==> Standing(w, i))
            && (ActiveRow(after, i) <==> ActiveRow(w, i))
    ensures after.batches[w.rows[i].batch] == w.batches[w.rows[i].batch]
  {
    assert after.rows[i] == after.rows[..|w.rows|][i];
    var t := w.rows[i].table;
    assert after.tables[t] == after.tables[..|w.tables|][t];
    var b := w.tables[t].batch;
    assert after.batches[b] == after.batches[..|w.batches|][b];
  }

  // ---- which rows count ------------------------------------------------------------------------------

  /** What Doris holds after the attempts: each one that meets no failure leaves its privilege there. */
  function DorisAfter(doris: set<Privilege>, attempts: seq<Attempt>): set<Privilege>
    decreases |attempts|
  {
    if attempts == [] then doris
    else
      var a := attempts[|attempts| - 1];
      DorisAfter(doris, attempts[..|attempts| - 1]) + (if a.fault == NoFault then {a.key} else {})
  }

  /** Nothing fails, or only the GRANT would, on a privilege Doris has: from before, or from an earlier attempt. */
  predicate GetsThrough(doris: set<Privilege>, a: Attempt) {
    a.fault == NoFault || (a.fault == GrantFault && a.key in doris)
  }

  /** Which of the attempts get through, when they are made one after the other. */
  function Outcomes(doris: set<Privilege>, attempts: seq<Attempt>): (got: seq<bool>)
    ensures |got| == |attempts|
    decreases |attempts|
  {
    if attempts == [] then []
    else
      var init := attempts[..|attempts| - 1];
      Outcomes(doris, init) + [GetsThrough(DorisAfter(doris, init), attempts[|attempts| - 1])]
  }

  predicate AllGot(got: seq<bool>, first: nat, end: nat) {
    forall i :: first <= i < end && i < |got| ==> got[i]
  }

  predicate TableGot(got: seq<bool>, imports: seq<seq<Attempt>>, t: int) {
    0 <= t < |imports| && AllGot(got, Before(imports, t), Before(imports, t + 1))
  }

  ghost predicate SomeTableGot(got: seq<bool>, imports: seq<seq<Attempt>>) {
    exists t :: TableGot(got, imports, t)
  }

  /** The caller's condition: all users of some table get theirs, or no user of any table does. */
  ghost predicate WillCount(doris: set<Privilege>, imports: seq<seq<Attempt>>) {
    var got := Outcomes(doris, Flat(imports, |imports|));
    SomeTableGot(got, imports) || true !in got
  }

  lemma {:induction false} OutcomesOfBoth(doris: set<Privilege>, first: seq<Attempt>, second: seq<Attempt>)
    ensures DorisAfter(doris, first + second) == DorisAfter(DorisAfter(doris, first), second)
    ensures Outcomes(doris, first + second) == Outcomes(doris, first) + Outcomes(DorisAfter(doris, first), second)
    decreases |second|
  {
    if second == [] {
      assert first + second == first;
    } else {
      var init := second[..|second| - 1];
      OutcomesOfBoth(doris, first, init);
      assert (first + second)[..|first + second| - 1] == first + init;
    }
  }

  /** From `first` on, `got` says which rows have their privilege. */
  predicate Marked(rows: seq<Row>, first: nat, got: seq<bool>) {
    |rows| == first + |got| && forall i :: first <= i < |rows| ==> (rows[i].grant != GrantFailed <==> got[i - first])
  }

  lemma {:induction false} GrantRowsMark(w: World, b: nat, t: nat, attempts: seq<Attempt>, n: nat)
    requires n <= |attempts|
    ensures var after := AfterGrantRows(w, b, t, attempts, n);
            after.doris == DorisAfter(w.doris, attempts[..n])
            && Marked(after.rows, |w.rows|, Outcomes(w.doris, attempts[..n]))
  {
    if n > 0 {
      GrantRowsMark(w, b, t, attempts, n - 1);
      assert attempts[..n][..n - 1] == attempts[..n - 1];
    }
  }

  lemma {:induction false} GrantRowsInTable(w: World, b: nat, t: nat, attempts: seq<Attempt>, n: nat)
    requires n <= |attempts|
    ensures forall i :: |w.rows| <= i < |w.rows| + n ==> AfterGrantRows(w, b, t, attempts, n).rows[i].table == t
  {
    if n > 0 {
      GrantRowsInTable(w, b, t, attempts, n - 1);
    }
  }

  lemma {:induction false} CountGrantedIff(rows: seq<Row>, first: nat)
    requires first <= |rows|
    ensures CountGranted(rows, first) == |rows| - first
            <==> forall i :: first <= i < |rows| ==> rows[i].grant != GrantFailed
    ensures CountGranted(rows, first) == 0 <==> forall i :: first <= i < |rows| ==> rows[i].grant == GrantFailed
    decreases |rows|
  {
    if first < |rows| {
      CountGrantedIff(rows[..|rows| - 1], first);
    }
  }

  lemma {:induction false} CountSucceededIff(tables: seq<Table>, first: nat)
    requires first <= |tables|
    ensures CountSucceeded(tables, first) > 0 <==> exists t :: first <= t < |tables| && tables[t].phase == Succeeded
    decreases |tables|
  {
    if first < |tables| {
      CountSucceededIff(tables[..|tables| - 1], first);
    }
  }

  /** Table `t` holds the rows from `first` to `end` and is rolled up from them. */
  predicate RolledUp(after: World, t: nat, first: nat, end: nat) {
    t < |after.tables| && first <= end <= |after.rows|
    && after.tables[t].phase == RollUp(CountGranted(after.rows[..end], first), end - first)
    && forall i :: first <= i < end ==> after.rows[i].table == t
  }

  predicate Extends(mid: World, after: World) {
    |mid.tables| <= |after.tables| && after.tables[..|mid.tables|] == mid.tables
    && |mid.rows| <= |after.rows| && after.rows[..|mid.rows|] == mid.rows
  }

  predicate TableRolledUp(after: World, table: nat, row: nat, imports: seq<seq<Attempt>>, t: nat) {
    t < |imports| && RolledUp(after, table + t, row + Before(imports, t), row + Before(imports, t + 1))
  }

  /** The first `n` tables of an import, whose tables begin at `table` and whose rows at `row`. */
  ghost predicate TablesRolledUp(after: World, table: nat, row: nat, imports: seq<seq<Attempt>>, n: nat) {
    forall t: nat {:trigger TableRolledUp(after, table, row, imports, t)} :: t < n ==>
      TableRolledUp(after, table, row, imports, t)
  }

  /** What importing the first `n` tables has done. */
  ghost predicate Recorded(w: World, after: World, imports: seq<seq<Attempt>>, n: nat)
    requires n <= |imports|
  {
    after.doris == DorisAfter(w.doris, Flat(imports, n))
    && Marked(after.rows, |w.rows|, Outcomes(w.doris, Flat(imports, n)))
    && |after.tables| == |w.tables| + n && TablesRolledUp(after, |w.tables|, |w.rows|, imports, n)
  }

  /** What importing one more table, for `attempts`, does. */
  predicate RecordsTable(mid: World, after: World, attempts: seq<Attempt>) {
    after.doris == DorisAfter(mid.doris, attempts) && Marked(after.rows, |mid.rows|, Outcomes(mid.doris, attempts))
    && RolledUp(after, |mid.tables|, |mid.rows|, |after.rows|) && Extends(mid, after)
    && |after.tables| == |mid.tables| + 1
  }

  lemma {:induction false} ImportTableRecords(w: World, b: nat, attempts: seq<Attempt>)
    ensures RecordsTable(w, AfterImportTable(w, b, attempts), attempts)
  {
    var start := w.(tables := w.tables + [Table(b, Running)]);
    var filled := AfterGrantRows(start, b, |w.tables|, attempts, |attempts|);
    GrantRowsMark(start, b, |w.tables|, attempts, |attempts|);
    GrantRowsInTable(start, b, |w.tables|, attempts, |attempts|);
    ImportTableAdds(w, b, attempts);
    assert attempts[..|attempts|] == attempts && filled.rows[..|filled.rows|] == filled.rows;
  }

  lemma RolledUpStays(mid: World, after: World, t: nat, first: nat, end: nat)
    requires RolledUp(mid, t, first, end) && Extends(mid, after)
    ensures RolledUp(after, t, first, end)
  {
    assert after.tables[t] == after.tables[..|mid.tables|][t];
    assert after.rows[..end] == after.rows[..|mid.rows|][..end] == mid.rows[..end];
    forall i | first <= i < end
      ensures after.rows[i] == mid.rows[i]
    {
      assert after.rows[..end][i] == mid.rows[..end][i];
    }
  }

  lemma {:induction false} MarkedBoth(mid: seq<Row>, after: seq<Row>, first: nat, some: seq<bool>, more: seq<bool>)
    requires Marked(mid, first, some) && Marked(after, |mid|, more) && after[..|mid|] == mid
    ensures Marked(after, first, some + more)
  {
    forall i | first <= i < |after|
      ensures after[i].grant != GrantFailed <==> (some + more)[i - first]
    {
      if i < |mid| {
        assert after[i] == after[..|mid|][i];
      }
    }
  }

  lemma {:induction false} RollsUpOneMore(mid: World, after: World, table: nat, row: nat, imports: seq<seq<Attempt>>,
                                          n: nat)
    requires n < |imports| && TablesRolledUp(mid, table, row, imports, n) && Extends(mid, after)
    requires TableRolledUp(after, table, row, imports, n)
    ensures TablesRolledUp(after, table, row, imports, n + 1)
  {
    forall t: nat | t < n + 1
      ensures TableRolledUp(after, table, row, imports, t)
    {
      if t < n {
        assert TableRolledUp(mid, table, row, imports, t);
        RolledUpStays(mid, after, table + t, row + Before(imports, t), row + Before(imports, t + 1));
      }
    }
  }

  lemma {:induction false} LastRollsUp(mid: World, after: World, table: nat, row: nat, imports: seq<seq<Attempt>>,
                                       n: nat)
    requires n < |imports| && RolledUp(after, |mid.tables|, |mid.rows|, |after.rows|)
    requires |mid.tables| == table + n && |mid.rows| == row + Before(imports, n)
             && |after.rows| == |mid.rows| + |imports[n]|
    ensures TableRolledUp(after, table, row, imports, n)
  {
    assert |mid.rows| == row + Before(imports, n) && |after.rows| == row + Before(imports, n + 1);
  }

  lemma {:induction false} RecordsOneMore(w: World, mid: World, after: World, imports: seq<seq<Attempt>>, n: nat)
    requires n < |imports| && Recorded(w, mid, imports, n) && RecordsTable(mid, after, imports[n])
    ensures Recorded(w, after, imports, n + 1)
  {
    var some := Flat(imports, n);
    OutcomesOfBoth(w.doris, some, imports[n]);
    MarkedBoth(mid.rows, after.rows, |w.rows|, Outcomes(w.doris, some), Outcomes(mid.doris, imports[n]));
    LastRollsUp(mid, after, |w.tables|, |w.rows|, imports, n);
    RollsUpOneMore(mid, after, |w.tables|, |w.rows|, imports, n);
  }

  lemma {:induction false} RecordsNext(w: World, mid: World, b: nat, imports: seq<seq<Attempt>>, n: nat)
    requires n < |imports| && Recorded(w, mid, imports, n)
    ensures Recorded(w, AfterImportTable(mid, b, imports[n]), imports, n + 1)
  {
    ImportTableRecords(mid, b, imports[n]);
    RecordsOneMore(w, mid, AfterImportTable(mid, b, imports[n]), imports, n);
  }

  lemma {:induction false} ImportTablesRecord(w: World, b: nat, imports: seq<seq<Attempt>>, n: nat)
    requires n <= |imports|
    ensures Recorded(w, AfterImportTables(w, b, imports, n), imports, n)
  {
    if n > 0 {
      var mid := AfterImportTables(w, b, imports, n - 1);
      ImportTablesRecord(w, b, imports, n - 1);
      RecordsNext(w, mid, b, imports, n - 1);
    }
  }

  /** A table succeeded exactly if all its attempts got through, and is up if any did. */
  lemma {:induction false} TableGotIff(after: World, row: nat, got: seq<bool>, t: nat, first: nat, end: nat)
    requires Marked(after.rows, row, got) && RolledUp(after, t, row + first, row + end) && end <= |got|
    ensures after.tables[t].phase == Succeeded <==> AllGot(got, first, end)
    ensures forall i :: first <= i < end && got[i] ==> Up(after.tables[t].phase)
  {
    var rows := after.rows[..row + end];
    CountGrantedIff(rows, row + first);
    forall i | first <= i < end
      ensures got[i] <==> rows[row + i].grant != GrantFailed
    {
      assert rows[row + i] == after.rows[row + i];
    }
  }

  lemma {:induction false} FlatGrows(imports: seq<seq<Attempt>>, m: nat, n: nat)
    requires m <= n <= |imports|
    ensures Before(imports, m) <= Before(imports, n)
  {
    if m < n {
      FlatGrows(imports, m, n - 1);
    }
  }

  /** The table of an attempt. */
  lemma {:induction false} TableOf(imports: seq<seq<Attempt>>, n: nat, i: nat) returns (t: nat)
    requires n <= |imports| && i < Before(imports, n)
    ensures t < n && Before(imports, t) <= i < Before(imports, t + 1)
  {
    if i < Before(imports, n - 1) {
      t := TableOf(imports, n - 1, i);
    } else {
      t := n - 1;
    }
  }

  lemma {:induction false} TableSucceededIff(w: World, filled: World, imports: seq<seq<Attempt>>, t: nat)
    requires Recorded(w, filled, imports, |imports|) && t < |imports|
    ensures filled.tables[|w.tables| + t].phase == Succeeded
            <==> TableGot(Outcomes(w.doris, Flat(imports, |imports|)), imports, t)
  {
    assert TableRolledUp(filled, |w.tables|, |w.rows|, imports, t);
    FlatGrows(imports, t + 1, |imports|);
    TableGotIff(filled, |w.rows|, Outcomes(w.doris, Flat(imports, |imports|)), |w.tables| + t, Before(imports, t),
                Before(imports, t + 1));
  }

  lemma {:induction false} SomeSucceededIff(w: World, filled: World, imports: seq<seq<Attempt>>)
    requires Recorded(w, filled, imports, |imports|)
    ensures CountSucceeded(filled.tables, |w.tables|) > 0
            <==> SomeTableGot(Outcomes(w.doris, Flat(imports, |imports|)), imports)
  {
    var got := Outcomes(w.doris, Flat(imports, |imports|));
    CountSucceededIff(filled.tables, |w.tables|);
    if CountSucceeded(filled.tables, |w.tables|) > 0 {
      var u :| |w.tables| <= u < |filled.tables| && filled.tables[u].phase == Succeeded;
      TableSucceededIff(w, filled, imports, u - |w.tables|);
    } else if SomeTableGot(got, imports) {
      var t :| TableGot(got, imports, t);
      TableSucceededIff(w, filled, imports, t);
    }
  }

  lemma {:induction false} NewRowStandsIff(w: World, after: World, imports: seq<seq<Attempt>>, i: nat)
    requires Recorded(w, after, imports, |imports|) && i < Before(imports, |imports|)
             && after.rows[|w.rows| + i].revoke != RevokeDone
    ensures Standing(after, |w.rows| + i) <==> Outcomes(w.doris, Flat(imports, |imports|))[i]
  {
    var t := TableOf(imports, |imports|, i);
    assert TableRolledUp(after, |w.tables|, |w.rows|, imports, t);
    FlatGrows(imports, t + 1, |imports|);
    TableGotIff(after, |w.rows|, Outcomes(w.doris, Flat(imports, |imports|)), |w.tables| + t, Before(imports, t),
                Before(imports, t + 1));
  }

  /** An import's rows that got their privilege are all counted. */
  ghost predicate NewRowsCount(w: World, after: World) {
    forall i {:trigger Standing(after, i)} :: Standing(after, i) && after.rows[i].batch == |w.batches| ==>
      ActiveRow(after, i)
  }

  /**
   The privileges an import granted are counted exactly if some table of it succeeds for every user, or none
   is granted.
   */
  lemma {:induction false} ImportCountsIff(w: World, expires: int, imports: seq<seq<Attempt>>)
    requires Linked(w) && w.now < expires
    ensures NewRowsCount(w, AfterImport(w, expires, imports)) <==> WillCount(w.doris, imports)
  {
    var b := |w.batches|;
    var start := w.(batches := w.batches + [Batch(Running, expires, false)]);
    var filled := AfterImportTables(start, b, imports, |imports|);
    var after := AfterImport(w, expires, imports);
    ImportTablesRecord(start, b, imports, |imports|);
    SomeSucceededIff(start, filled, imports);
    ImportAdds(w, expires, imports);
    NewRowsCountIff(w, start, filled, after, expires, imports);
  }

  lemma {:induction false} NewRowsCountIff(w: World, start: World, filled: World, after: World, expires: int,
                                           imports: seq<seq<Attempt>>)
    requires Linked(w) && w.now < expires && Imported(w, after, expires, Flat(imports, |imports|))
    requires start == w.(batches := start.batches) && Recorded(start, filled, imports, |imports|)
             && after == filled.(batches := after.batches)
    requires after.batches[|w.batches|].phase == RollUp(CountSucceeded(filled.tables, |w.tables|), |imports|)
    requires CountSucceeded(filled.tables, |w.tables|) > 0
             <==> SomeTableGot(Outcomes(w.doris, Flat(imports, |imports|)), imports)
    ensures NewRowsCount(w, after) <==> WillCount(w.doris, imports)
  {
    var got := Outcomes(w.doris, Flat(imports, |imports|));
    forall i: nat | i < |got|
      ensures after.rows[|w.rows| + i].batch == |w.batches| && (Standing(after, |w.rows| + i) <==> got[i])
    {
      assert AddedRow(w.(batches := after.batches), after, |w.batches|, |w.rows| + i);
      NewRowStandsIff(start, filled, imports, i);
      assert Standing(after, |w.rows| + i) <==> Standing(filled, |w.rows| + i);
    }
    forall r | 0 <= r < |w.rows|
      ensures after.rows[r].batch != |w.batches|
    {
      ImportKeepsOldRows(w, after, expires, Flat(imports, |imports|), r);
    }
    StandingIffGot(w, after, got);
    assert BatchOn(after, |w.batches|) <==> SomeTableGot(got, imports) || |imports| == 0;
  }

  lemma {:induction false} StandingIffGot(w: World, after: World, got: seq<bool>)
    requires |after.rows| == |w.rows| + |got| && forall r :: 0 <= r < |w.rows| ==> after.rows[r].batch != |w.batches|
    requires forall i: nat :: i < |got| ==>
               after.rows[|w.rows| + i].batch == |w.batches| && (Standing(after, |w.rows| + i) <==> got[i])
    ensures NewRowsCount(w, after) <==> BatchOn(after, |w.batches|) || true !in got
  {
    if true in got {
      var i: nat :| i < |got| && got[i];
      assert Standing(after, |w.rows| + i);
    }
    forall r | Standing(after, r) && after.rows[r].batch == |w.batches|
      ensures true in got
    {
      var i := r - |w.rows|;
      assert Standing(after, |w.rows| + i) <==> got[i];
    }
  }
}
