/**
 Every reference that the service counts as active has its privilege in Doris, so
 that taking one batch offline never takes a table away from another live batch.

 This needs care outside the service's own bookkeeping; `Careful` names it.  For
 each hazard there is the exact condition under which the code escapes it:
 `ImportCountsIff`, `OfflineIsSafeIff` and `ExtendIsSafeIff`.
 */
module PrivilegeReferences {
  import opened PrivilegeLease
  import opened PrivilegeLeaks
  import opened PrivilegeImports
  import opened PrivilegeOffline

  ghost predicate Sound(w: World) {
    Linked(w) && Present(w) && Unrevivable(w) && TablesClosed(w)
  }

  // ---- what callers must not do ---------------------------------------------------------------------

  ghost predicate NothingStands(w: World, b: nat) {
    forall i {:trigger Standing(w, i)} :: Standing(w, i) ==> w.rows[i].batch != b
  }

  /**
   An import leaves no privilege that will not be counted; no torn batch goes offline; a batch is extended
   before it expires, or when nothing of it stands; nobody else revokes a referenced privilege.
   */
  ghost predicate Careful(w: World, e: Event) {
    match e
    case Import(expires, imports) => w.now < expires ==> WillCount(w.doris, imports)
    case Offline(b, faults) => !Torn(w, b)
    case Extend(b, until) => b < |w.batches| ==> w.batches[b].expires > w.now || NothingStands(w, b)
    case OutsideRevoke(k) => forall i {:trigger ActiveRow(w, i)} :: ActiveRow(w, i) ==> w.rows[i].key != k
    case _ => true
  }

  ghost predicate CarefulRun(w: World, events: seq<Event>)
    decreases |events|
  {
    events == [] ||
    var init := events[..|events| - 1];
    CarefulRun(w, init) && Careful(Run(w, init), events[|events| - 1])
  }

  // ---- importing ----------------------------------------------------------------------------------------

  lemma ImportKeepsSound(w: World, expires: int, imports: seq<seq<Attempt>>)
    requires Sound(w) && Careful(w, Import(expires, imports))
    ensures Sound(AfterImport(w, expires, imports))
  {
    if w.now < expires {
      var after := AfterImport(w, expires, imports);
      ImportAdds(w, expires, imports);
      ImportCountsIff(w, expires, imports);
      ImportedIsLinked(w, after, expires, Flat(imports, |imports|));
      ImportedIsSound(w, after, expires, Flat(imports, |imports|));
    }
  }

  lemma ImportedIsLinked(w: World, after: World, expires: int, attempts: seq<Attempt>)
    requires Linked(w) && TablesClosed(w) && Imported(w, after, expires, attempts)
    ensures Linked(after) && TablesClosed(after)
  {
    forall t | 0 <= t < |after.tables|
      ensures after.tables[t].batch < |after.batches| && after.tables[t].phase != Running
    {
      if t < |w.tables| {
        assert after.tables[t] == after.tables[..|w.tables|][t];
      }
    }
    forall i | 0 <= i < |after.rows|
      ensures after.rows[i].table < |after.tables| && after.rows[i].batch == after.tables[after.rows[i].table].batch
    {
      if i < |w.rows| {
        ImportKeepsOldRows(w, after, expires, attempts, i);
        assert after.tables[w.rows[i].table] == after.tables[..|w.tables|][w.rows[i].table];
      } else {
        assert AddedRow(w.(batches := after.batches), after, |w.batches|, i);
      }
    }
  }

  lemma ImportedIsSound(w: World, after: World, expires: int, attempts: seq<Attempt>)
    requires Linked(w) && Present(w) && Unrevivable(w) && w.now < expires && Imported(w, after, expires, attempts)
    requires NewRowsCount(w, after)
    ensures Present(after) && Unrevivable(after)
  {
    forall i | Standing(after, i)
      ensures ActiveRow(after, i) ==> after.rows[i].key in after.doris
      ensures after.rows[i].batch < |after.batches|
      ensures after.batches[after.rows[i].batch].expires > after.now ==> BatchOn(after, after.rows[i].batch)
    {
      if i < |w.rows| {
        ImportKeepsOldRows(w, after, expires, attempts, i);
      } else {
        assert AddedRow(w.(batches := after.batches), after, |w.batches|, i);
      }
    }
  }

  // ---- taking offline -----------------------------------------------------------------------------------

  predicate AllDown(w: World, b: nat, n: nat) {
    forall t :: 0 <= t < n && t < |w.tables| && w.tables[t].batch == b ==> !Up(w.tables[t].phase)
  }

  lemma TableGoesDown(p: Pass, b: nat, t: nat, faults: set<nat>)
    requires TablesClosed(p.w) && (p.hurt || AllDown(p.w, b, t)) && t < |p.w.tables|
    ensures var q := PassTable(p, b, t, faults); TablesClosed(q.w) && (q.hurt || AllDown(q.w, b, t + 1))
  {
  }

  lemma PassTablesGoDown(p: Pass, b: nat, faults: set<nat>, n: nat)
    requires TablesClosed(p.w) && n <= |p.w.tables|
    ensures var q := PassTables(p, b, faults, n); TablesClosed(q.w) && (q.hurt || AllDown(q.w, b, n))
  {
    var inv := (q: Pass, t: nat) => TablesClosed(q.w) && (q.hurt || AllDown(q.w, b, t));
    forall q: Pass, t: nat | t < |q.w.tables| && inv(q, t)
      ensures inv(PassTable(q, b, t, faults), t + 1)
    {
      TableGoesDown(q, b, t, faults);
    }
    OverTables(inv, p, b, faults, n);
  }

  lemma OfflineKeepsSound(w: World, b: nat, faults: set<nat>)
    requires Sound(w) && !Torn(w, b)
    ensures Sound(AfterOffline(w, b, faults))
  {
    if b < |w.batches| {
      var p := PassTables(Pass(w, false), b, faults, |w.tables|);
      PassShrinks(w, b, faults);
      PassTablesGoDown(Pass(w, false), b, faults, |w.tables|);
      ClosingIsUnrevivable(w, p.w, b, p.hurt, AfterOffline(w, b, faults));
      OfflineIsSafe(w, b, faults);
    }
  }

  lemma ClosingIsUnrevivable(w: World, p: World, b: nat, hurt: bool, after: World)
    requires Linked(w) && Unrevivable(w) && Shrinks(w, p) && TablesClosed(p) && b < |w.batches|
             && (hurt || AllDown(p, b, |p.tables|))
    requires after == p.(batches := p.batches[b := p.batches[b].(phase := if hurt then Partial else Offlined,
                                                                 offlined := !hurt)])
    ensures Linked(after) && Unrevivable(after) && TablesClosed(after)
  {
    forall i | 0 <= i < |after.rows|
      ensures after.rows[i].table < |after.tables| && after.rows[i].batch == after.tables[after.rows[i].table].batch
    {
      assert p.rows[i] == w.rows[i].(revoke := p.rows[i].revoke);
    }
    forall i | Standing(after, i)
      ensures after.rows[i].batch < |after.batches|
      ensures after.batches[after.rows[i].batch].expires > after.now ==> BatchOn(after, after.rows[i].batch)
    {
      assert Standing(p, i);
      assert Standing(w, i);
    }
  }

  // ---- the other steps -------------------------------------------------------------------------------------

  lemma ExtendKeepsSound(w: World, b: nat, until: int)
    requires Sound(w) && Careful(w, Extend(b, until))
    ensures Sound(AfterExtend(w, b, until))
  {
    var after := AfterExtend(w, b, until);
    forall i | Standing(after, i)
      ensures after.rows[i].batch < |after.batches|
      ensures after.batches[after.rows[i].batch].expires > after.now ==> BatchOn(after, after.rows[i].batch)
      ensures ActiveRow(after, i) ==> after.rows[i].key in after.doris
    {
      assert Standing(w, i);
      if ActiveRow(after, i) {
        assert ActiveRow(w, i);
      }
    }
  }

  lemma OthersKeepSound(w: World, e: Event)
    requires Sound(w) && Careful(w, e) && !e.Import? && !e.Offline? && !e.Extend?
    ensures Sound(Step(w, e))
  {
    var after := Step(w, e);
    forall i | Standing(after, i)
      ensures after.rows[i].batch < |after.batches|
      ensures after.batches[after.rows[i].batch].expires > after.now ==> BatchOn(after, after.rows[i].batch)
      ensures ActiveRow(after, i) ==> after.rows[i].key in after.doris
    {
      assert Standing(w, i);
      if ActiveRow(after, i) {
        assert ActiveRow(w, i);
      }
    }
  }

  lemma StepKeepsSound(w: World, e: Event)
    requires Sound(w) && Careful(w, e)
    ensures Sound(Step(w, e))
  {
    match e
    case Import(expires, imports) => ImportKeepsSound(w, expires, imports);
    case Offline(b, faults) => OfflineKeepsSound(w, b, faults);
    case Extend(b, until) => ExtendKeepsSound(w, b, until);
    case _ => OthersKeepSound(w, e);
  }

  lemma {:induction false} RunIsSound(existing: set<Privilege>, start: int, events: seq<Event>)
    requires CarefulRun(Fresh(existing, start), events)
    ensures Sound(Run(Fresh(existing, start), events))
    decreases |events|
  {
    if events != [] {
      var init := events[..|events| - 1];
      RunIsSound(existing, start, init);
      StepKeepsSound(Run(Fresh(existing, start), init), events[|events| - 1]);
    }
  }

  /** In every careful run, every reference that the count counts has its privilege in Doris. */
  lemma ActiveReferencesArePresent(existing: set<Privilege>, start: int, events: seq<Event>, i: nat)
    requires CarefulRun(Fresh(existing, start), events)
    ensures var w := Run(Fresh(existing, start), events); ActiveRow(w, i) ==> w.rows[i].key in w.doris
  {
    RunIsSound(existing, start, events);
  }

  /**
   In any run, taking a batch offline leaves the active references of every other batch, and their
   privileges, where they are.
   */
  lemma OfflineSparesOtherBatches(existing: set<Privilege>, start: int, events: seq<Event>, b: nat, faults: set<nat>,
                                  i: nat)
    ensures var w := Run(Fresh(existing, start), events);
            var after := AfterOffline(w, b, faults);
            ActiveRow(w, i) && w.rows[i].batch != b && w.rows[i].key in w.doris ==>
            ActiveRow(after, i) && w.rows[i].key in after.doris
  {
    var w := Run(Fresh(existing, start), events);
    GrantedIsAccounted(existing, start, events);
    if ActiveRow(w, i) && w.rows[i].batch != b && w.rows[i].key in w.doris {
      OfflineSpares(w, b, faults, i);
    }
  }

  // ---- a batch that names no privilege twice is never torn ------------------------------------------------

  /** No batch names a privilege twice. */
  ghost predicate OncePerBatch(w: World) {
    forall i, j {:trigger Clash(w, i, j)} :: !Clash(w, i, j)
  }

  predicate Clash(w: World, i: int, j: int) {
    0 <= i < j < |w.rows| && w.rows[i].batch == w.rows[j].batch && w.rows[i].key == w.rows[j].key
  }

  predicate DistinctKeys(attempts: seq<Attempt>) {
    forall i, j :: 0 <= i < j < |attempts| ==> attempts[i].key != attempts[j].key
  }

  predicate NamesOnce(e: Event) {
    e.Import? ==> DistinctKeys(Flat(e.imports, |e.imports|))
  }

  lemma ImportedIsOncePerBatch(w: World, after: World, expires: int, attempts: seq<Attempt>)
    requires Linked(w) && OncePerBatch(w) && DistinctKeys(attempts) && Imported(w, after, expires, attempts)
    ensures OncePerBatch(after)
  {
    forall i, j | 0 <= i < j < |after.rows|
      ensures !Clash(after, i, j)
    {
      assert !Clash(w, i, j);
      if i < |w.rows| {
        ImportKeepsOldRows(w, after, expires, attempts, i);
      }
      if j < |w.rows| {
        ImportKeepsOldRows(w, after, expires, attempts, j);
      } else {
        assert AddedRow(w.(batches := after.batches), after, |w.batches|, j);
      }
    }
  }

  lemma SameKeysClashAlike(w: World, after: World)
    requires OncePerBatch(w) && |after.rows| == |w.rows|
    requires forall i :: 0 <= i < |w.rows| ==> after.rows[i] == w.rows[i].(revoke := after.rows[i].revoke)
    ensures OncePerBatch(after)
  {
    forall i, j
      ensures !Clash(after, i, j)
    {
      assert !Clash(w, i, j);
    }
  }

  lemma StepKeepsOncePerBatch(w: World, e: Event)
    requires Linked(w) && OncePerBatch(w) && NamesOnce(e)
    ensures OncePerBatch(Step(w, e))
  {
    match e
    case Import(expires, imports) =>
      if w.now < expires {
        ImportAdds(w, expires, imports);
        ImportedIsOncePerBatch(w, Step(w, e), expires, Flat(imports, |imports|));
      }
    case Offline(b, faults) =>
      PassShrinks(w, b, faults);
      SameKeysClashAlike(w, Step(w, e));
    case _ => SameKeysClashAlike(w, Step(w, e));
  }

  lemma {:induction false} RunNamesOnce(existing: set<Privilege>, start: int, events: seq<Event>)
    requires forall n :: 0 <= n < |events| ==> NamesOnce(events[n])
    ensures OncePerBatch(Run(Fresh(existing, start), events))
    decreases |events|
  {
    if events != [] {
      var init := events[..|events| - 1];
      RunNamesOnce(existing, start, init);
      GrantedIsAccounted(existing, start, init);
      StepKeepsOncePerBatch(Run(Fresh(existing, start), init), events[|events| - 1]);
    }
  }

  /** Where no import names a privilege twice, every offline of every run is one that the care allows. */
  lemma NamedOnceIsNeverTorn(existing: set<Privilege>, start: int, events: seq<Event>, b: nat)
    requires forall n :: 0 <= n < |events| ==> NamesOnce(events[n])
    ensures !Torn(Run(Fresh(existing, start), events), b)
  {
    var w := Run(Fresh(existing, start), events);
    RunNamesOnce(existing, start, events);
    forall i, j
      ensures !TornPair(w, b, i, j)
    {
      assert !Clash(w, i, j) && !Clash(w, j, i);
    }
  }

  // ---- extensions: where the care is needed -------------------------------------------------------------------------

  /** After an extension the batch counts again: it was expired or offlined, or it was up and only out of time. */
  predicate CountsOnceExtended(w: World, b: nat)
    requires b < |w.batches|
  {
    w.batches[b].phase == Expired || w.batches[b].phase == Offlined
    || (Up(w.batches[b].phase) && !w.batches[b].offlined)
  }

  predicate ReferencedElsewhere(w: World, i: nat)
    requires i < |w.rows|
  {
    References(w, w.rows[i].key, w.rows[i].batch, |w.rows|) > 0
  }

  ghost predicate StandingAreReferenced(w: World, b: nat) {
    forall i {:trigger Standing(w, i)} :: Standing(w, i) && w.rows[i].batch == b ==> ReferencedElsewhere(w, i)
  }

  ghost predicate ExtendPreserves(w: World, b: nat, until: int, doris: set<Privilege>) {
    Present(w.(doris := doris)) ==> Present(AfterExtend(w.(doris := doris), b, until))
  }

  /**
   Whatever Doris holds, an extension keeps every active reference present exactly if the batch counts already,
   or does not count afterwards, or each of its standing rows is referenced by another batch.
   */
  lemma ExtendIsSafeIff(w: World, b: nat, until: int)
    requires b < |w.batches| && until > w.now
    ensures (forall doris :: ExtendPreserves(w, b, until, doris))
            <==> BatchOn(w, b) || !CountsOnceExtended(w, b) || StandingAreReferenced(w, b)
  {
    if BatchOn(w, b) || !CountsOnceExtended(w, b) || StandingAreReferenced(w, b) {
      forall doris
        ensures ExtendPreserves(w, b, until, doris)
      {
        SafeExtend(w, b, until, doris);
      }
    } else {
      var i :| Standing(w, i) && w.rows[i].batch == b && !ReferencedElsewhere(w, i);
      UnsafeExtend(w, b, until, i);
    }
  }

  lemma SafeExtend(w: World, b: nat, until: int, doris: set<Privilege>)
    requires b < |w.batches| && until > w.now
    requires BatchOn(w, b) || !CountsOnceExtended(w, b) || StandingAreReferenced(w, b)
    ensures ExtendPreserves(w, b, until, doris)
  {
    var before := w.(doris := doris);
    var after := AfterExtend(before, b, until);
    if Present(before) {
      forall i | ActiveRow(after, i)
        ensures after.rows[i].key in doris
      {
        assert Standing(w, i);
        if w.rows[i].batch == b && !BatchOn(w, b) {
          var j := CountedIsActive(w, w.rows[i].key, b, |w.rows|);
          assert ActiveRow(before, j);
        } else {
          assert ActiveRow(before, i);
        }
      }
    }
  }

  function ActiveKeys(w: World): set<Privilege> {
    set i | 0 <= i < |w.rows| && ActiveRow(w, i) :: w.rows[i].key
  }

  lemma UnsafeExtend(w: World, b: nat, until: int, i: nat)
    requires b < |w.batches| && until > w.now && !BatchOn(w, b) && CountsOnceExtended(w, b)
    requires Standing(w, i) && w.rows[i].batch == b && !ReferencedElsewhere(w, i)
    ensures !ExtendPreserves(w, b, until, ActiveKeys(w))
  {
    var before := w.(doris := ActiveKeys(w));
    var after := AfterExtend(before, b, until);
    forall j | ActiveRow(before, j)
      ensures before.rows[j].key in before.doris
    {
      assert ActiveRow(w, j);
    }
    assert ActiveRow(after, i);
    if w.rows[i].key in ActiveKeys(w) {
      var j :| 0 <= j < |w.rows| && ActiveRow(w, j) && w.rows[j].key == w.rows[i].key;
      ActiveIsCounted(w, w.rows[i].key, b, j, |w.rows|);
      assert false;
    }
  }
}
