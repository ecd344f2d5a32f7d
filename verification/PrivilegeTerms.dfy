/**
 How long a batch counts: from its import until the last instant it was given, and no longer.
 */
module PrivilegeTerms {
  import opened PrivilegeLease
  import opened PrivilegeLeaks
  import opened PrivilegeImports
  import opened PrivilegeOffline
  import opened PrivilegeReferences
  import opened PrivilegeShutdown

  // ---- an extension -----------------------------------------------------------------------------------

  /** An accepted extension gives the batch exactly the instant asked for, and changes nothing else in the records. */
  lemma ExtensionGivesTheInstant(w: World, b: nat, until: int)
    requires b < |w.batches| && w.now < until
    ensures var after := Step(w, Extend(b, until));
            after.batches[..b] == w.batches[..b] && after.batches[b + 1..] == w.batches[b + 1..]
            && |after.batches| == |w.batches| && after.batches[b].expires == until
            && (if w.batches[b].phase == Expired || w.batches[b].phase == Offlined
                then after.batches[b].phase == Succeeded && !after.batches[b].offlined
                else after.batches[b].phase == w.batches[b].phase && after.batches[b].offlined == w.batches[b].offlined)
            && after == w.(batches := after.batches)
  {
  }

  lemma OtherExtensionsAreRefused(w: World, b: nat, until: int)
    requires b >= |w.batches| || until <= w.now
    ensures Step(w, Extend(b, until)) == w
  {
  }

  /** A batch that stands counts exactly until the instant it was extended to. */
  lemma ExtendedCountsUntil(w: World, b: nat, until: int, d: nat)
    requires b < |w.batches| && w.now < until && CountsOnceExtended(w, b)
    ensures BatchOn(Step(Step(w, Extend(b, until)), Tick(d)), b) <==> w.now + d < until
  {
  }

  // ---- every run --------------------------------------------------------------------------------------

  /** The last instant that batch `b` was given: when it was imported, or by an extension after that. */
  function Term(existing: set<Privilege>, start: int, events: seq<Event>, b: nat): int
    decreases |events|
  {
    if events == [] then 0 else
      var init, e := events[..|events| - 1], events[|events| - 1];
      var w := Run(Fresh(existing, start), init);
      if e.Extend? && e.batch == b && b < |w.batches| && w.now < e.until then e.until
      else if e.Import? && b == |w.batches| then e.expires
      else Term(existing, start, init, b)
  }

  lemma StepKeepsTerms(w: World, e: Event, b: nat)
    requires b < |Step(w, e).batches|
    ensures |Step(w, e).batches| == |w.batches| + (if e.Import? && w.now < e.expires then 1 else 0)
    ensures Step(w, e).batches[b].expires ==
            if e.Extend? && e.batch == b && w.now < e.until then e.until
            else if b == |w.batches| then (if e.Import? then e.expires else 0)
            else w.batches[b].expires
  {
    if e.Import? && w.now < e.expires {
      ImportAdds(w, e.expires, e.imports);
      assert Step(w, e).batches[..|w.batches|] == w.batches;
    }
  }

  /** In every run each batch expires at the last instant it was given, whatever was taken offline or lost meanwhile. */
  lemma {:induction false} ExpiryIsTheTerm(existing: set<Privilege>, start: int, events: seq<Event>, b: nat)
    requires b < |Run(Fresh(existing, start), events).batches|
    ensures Run(Fresh(existing, start), events).batches[b].expires == Term(existing, start, events, b)
    decreases |events|
  {
    if events != [] {
      var init := events[..|events| - 1];
      var w := Run(Fresh(existing, start), init);
      StepKeepsTerms(w, events[|events| - 1], b);
      if b < |w.batches| { ExpiryIsTheTerm(existing, start, init, b); }
    }
  }

  /** A batch that is up counts before that instant, and from then on is the scheduler's to take offline. */
  lemma CountsOrIsDue(existing: set<Privilege>, start: int, events: seq<Event>, b: nat)
    requires var w := Run(Fresh(existing, start), events);
             b < |w.batches| && w.batches[b].phase in {Succeeded, Partial} && !w.batches[b].offlined
    ensures var w := Run(Fresh(existing, start), events);
            (BatchOn(w, b) <==> w.now < Term(existing, start, events, b))
            && (Due(w, b) <==> Term(existing, start, events, b) <= w.now)
  {
    ExpiryIsTheTerm(existing, start, events, b);
  }

  /** Once it is taken offline without a failing REVOKE, what is left of its grants another batch holds. */
  lemma OfflineLeavesOnlySharedGrants(existing: set<Privilege>, start: int, events: seq<Event>, b: nat, k: Privilege)
    requires b < |Run(Fresh(existing, start), events).batches|
    ensures var after := Step(Run(Fresh(existing, start), events), Offline(b, {}));
            k in after.granted ==> exists i :: Standing(after, i) && after.rows[i].key == k && after.rows[i].batch != b
  {
    var w := Run(Fresh(existing, start), events);
    var after := Step(w, Offline(b, {}));
    GrantedIsAccounted(existing, start, events);
    RunClosesTables(existing, start, events);
    OfflineTakesTablesDown(w, b);
    StepKeeps(w, Offline(b, {}));
  }

  // ---- the end of a batch -------------------------------------------------------------------------------

  /** Taken offline, a batch is offlined or stays partial and online; its expiry and every other batch stay. */
  lemma OfflineSettlesTheBatch(w: World, b: nat, faults: set<nat>)
    requires b < |w.batches|
    ensures var after := Step(w, Offline(b, faults));
            && after.batches == w.batches[b := after.batches[b]] && after.batches[b].expires == w.batches[b].expires
            && after.batches[b].offlined == (after.batches[b].phase == Offlined)
            && after.batches[b].phase in {Offlined, Partial} && after.now == w.now
            && (faults == {} ==> after.batches[b].phase == Offlined)
  {
    if faults == {} { NothingIsHurt(Pass(w, false), b); }
  }

  lemma UnknownBatchIsLeft(w: World, b: nat, faults: set<nat>)
    requires b >= |w.batches|
    ensures Step(w, Offline(b, faults)) == w
  {
  }

  /** Without a failing REVOKE each table of the batch that was imported is offlined, and every other table stays. */
  lemma OfflineSettlesTheTables(w: World, b: nat, t: nat)
    requires b < |w.batches| && t < |w.tables|
    ensures var after := Step(w, Offline(b, {}));
            |after.tables| == |w.tables|
            && after.tables[t] == if w.tables[t].batch == b && w.tables[t].phase in {Succeeded, Partial}
                                  then w.tables[t].(phase := Offlined) else w.tables[t]
  {
    TablesSettle(Pass(w, false), b, t, |w.tables|);
  }

  lemma {:induction false} TablesSettle(p: Pass, b: nat, t: nat, n: nat)
    requires !p.hurt && t < |p.w.tables| && n <= |p.w.tables|
    ensures var q := PassTables(p, b, {}, n);
            !q.hurt && q.w.tables[t] == if t < n && p.w.tables[t].batch == b
            && p.w.tables[t].phase in {Succeeded, Partial}
                                        then p.w.tables[t].(phase := Offlined) else p.w.tables[t]
  {
    if n > 0 {
      TablesSettle(p, b, t, n - 1);
      RowsAreNotHurt(Pass(PassTables(p, b, {}, n - 1).w, false), n - 1);
    }
  }

  /** Why a privilege is kept: it is referenced, revoked already, was there before, or is of unknown origin. */
  lemma PlanSaysWhy(lease: Lease, references: nat)
    ensures var own := lease.ownership == System && lease.owned;
            (RevokePlan(lease, references) == SkipReferenced <==> references > 0)
            && (RevokePlan(lease, references) == SkipRevoked <==> references == 0 && lease.state == Revoked)
            && (RevokePlan(lease, references) == Revoke <==> references == 0 && lease.state != Revoked && own)
            && (RevokePlan(lease, references) == SkipExisting
                <==> references == 0 && lease.state != Revoked && lease.ownership == External)
  {
  }

  /** A due batch whose connection is gone fails, and nothing else happens. */
  lemma LostConnectionFailsTheBatch(w: World, b: nat)
    ensures Step(w, ConnectionLost(b)) ==
            if b < |w.batches| && w.batches[b].expires <= w.now && !w.batches[b].offlined
               && w.batches[b].phase in {Succeeded, Partial}
            then w.(batches := w.batches[b := w.batches[b].(phase := Failed)]) else w
  {
  }
}
