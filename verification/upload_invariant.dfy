/** Every event keeps the invariant of the upload protocol, and moves each row along its edges. */
module UploadInvariant {
  import opened Common
  import opened UploadRows
  import opened UploadProtocol

  ghost predicate RowStep(r: UploadSession, r': UploadSession) {
    RowMove(r, r') && StatusEdge(r.status, r'.status)
  }

  /** What any event does to the tables: rows stay and move along an edge, released uploads stay released. */
  ghost predicate WorldStep(w: World, w': World) {
    (forall id :: id in w.rows ==> id in w'.rows && RowStep(w.rows[id], w'.rows[id]))
    && UploadsMove(w.uploads, w'.uploads)
    && w.deleted <= w'.deleted
  }

  // ---------------------------------------------------------------- rewriting rows in place

  lemma QuotaRewritten(cfg: Config, rows: Rows, rows': Rows)
    requires QuotaInv(cfg, rows) && rows'.Keys == rows.Keys && forall id :: id in rows ==> RowStep(rows[id], rows'[id])
    ensures QuotaInv(cfg, rows')
  {
    forall owner ensures |ActiveIds(rows', owner)| <= cfg.maxActive {
      assert ActiveIds(rows', owner) <= ActiveIds(rows, owner);
      SubsetSize(ActiveIds(rows', owner), ActiveIds(rows, owner));
    }
  }

  /** Rows rewritten along edges keep the table invariants. */
  lemma RowsRewritten(cfg: Config, now: Time, w: World, w': World)
    requires RowsInv(cfg, now, w) && QuotaInv(cfg, w.rows) && RegistryInv(cfg, w)
    requires w'.rows.Keys == w.rows.Keys && w'.analyses == w.analyses && w'.videos == w.videos
    requires forall id :: id in w.rows ==> RowStep(w.rows[id], w'.rows[id]) && RowOk(cfg, now, id, w'.rows[id])
    requires forall id :: id in w.rows ==> w'.rows[id].abortedAt.Some? ==> !HeldOpen(w'.uploads, w.rows[id].Ref())
    requires UploadsMove(w.uploads, w'.uploads)
    requires w.deleted <= w'.deleted && forall key :: key in w'.deleted - w.deleted ==> DeletedOk(cfg, w'.rows, key)
    ensures RowsInv(cfg, now, w') && QuotaInv(cfg, w'.rows) && RegistryInv(cfg, w') && WorldStep(w, w')
  {
    QuotaRewritten(cfg, w.rows, w'.rows);
    hide QuotaInv;
    forall key | key in w'.deleted ensures DeletedOk(cfg, w'.rows, key) {
      if key in w.deleted { assert DeletedOk(cfg, w.rows, key); }
    }
    forall key | key in w'.videos ensures KeyHolder(cfg, w'.rows, key) {
      assert KeyHolder(cfg, w.rows, key);
    }
  }

  /** One row rewritten along an edge. */
  lemma RowRewritten(cfg: Config, now: Time, w: World, id: SessionId, r': UploadSession, uploads': Uploads)
    requires RowsInv(cfg, now, w) && QuotaInv(cfg, w.rows) && RegistryInv(cfg, w)
    requires id in w.rows && RowStep(w.rows[id], r') && RowOk(cfg, now, id, r')
    requires UploadsMove(w.uploads, uploads')
    requires r'.abortedAt.Some? ==> !HeldOpen(uploads', r'.Ref())
    ensures var w' := w.(rows := w.rows[id := r'], uploads := uploads');
            RowsInv(cfg, now, w') && QuotaInv(cfg, w'.rows) && RegistryInv(cfg, w') && WorldStep(w, w')
  {
    RowsRewritten(cfg, now, w, w.(rows := w.rows[id := r'], uploads := uploads'));
  }

  /** Calls that stay, or that fit the rewritten table, keep the call invariant. */
  lemma CallsKept(cfg: Config, rows: Rows, rows': Rows, calls: map<nat, Call>, calls': map<nat, Call>)
    requires CallsInv(cfg, rows, calls)
    requires forall id :: id in rows ==> id in rows' && RowStep(rows[id], rows'[id])
    requires forall c :: c in calls' ==> (c in calls && calls'[c] == calls[c]) || CallFits(cfg, rows', calls'[c])
    requires forall c ::
             c in calls' && CompletionCall(calls'[c]) ==>
               calls'[c].sid in rows' && rows'[calls'[c].sid].status == Completing
    requires forall c, d :: (c in calls' && d in calls' && CompletionCall(calls'[c]) && CompletionCall(calls'[d])
      && calls'[c].sid == calls'[d].sid) ==> c == d
    ensures CallsInv(cfg, rows', calls')
  {
    forall c | c in calls' ensures CallFits(cfg, rows', calls'[c]) {
      if c in calls && calls'[c] == calls[c] {
        assert CallFits(cfg, rows, calls[c]);
        assert RowStep(rows[calls[c].sid], rows'[calls[c].sid]);
      }
    }
  }

  /** The common case: no call was touched and no row left `completing`. */
  lemma CallsUntouched(cfg: Config, rows: Rows, rows': Rows, calls: map<nat, Call>, calls': map<nat, Call>)
    requires CallsInv(cfg, rows, calls)
    requires forall id :: id in rows ==> id in rows' && RowStep(rows[id], rows'[id])
    requires forall id :: id in rows && rows[id].status == Completing ==> rows'[id].status == Completing
    requires calls'.Keys <= calls.Keys && forall c :: c in calls' ==> calls'[c] == calls[c]
    ensures CallsInv(cfg, rows', calls')
  {
    forall c | c in calls' && CompletionCall(calls'[c])
      ensures calls'[c].sid in rows' && rows'[calls'[c].sid].status == Completing
    {
      assert CallFits(cfg, rows, calls[c]);
    }
    CallsKept(cfg, rows, rows', calls, calls');
  }

  // ---------------------------------------------------------------- expiry and admission

  lemma ExpiredRowIsAnEdge(cfg: Config, now: Time, id: SessionId, r: UploadSession)
    requires RowOk(cfg, now, id, r) && NeedsExpiry(r, now)
    ensures RowStep(r, ExpiredRow(r, now)) && RowOk(cfg, now, id, ExpiredRow(r, now))
  {}

  /** `rows'` and `uploads'` come from `rows` and `uploads` by expiring some rows and releasing
      their provider uploads. */
  ghost predicate Reconciled(rows: Rows, uploads: Uploads, rows': Rows, uploads': Uploads, now: Time) {
    rows'.Keys == rows.Keys && uploads'.Keys == uploads.Keys && UploadsMove(uploads, uploads')
    && (forall id :: id in rows && rows'[id] != rows[id] ==>
          NeedsExpiry(rows[id], now) && rows'[id] == ExpiredRow(rows[id], now) && !HeldOpen(uploads', rows[id].Ref()))
  }

  lemma {:induction false} ReconcileEffect(
      rows: Rows, uploads: Uploads, ids: seq<SessionId>, unreachable: set<UploadRef>, now: Time)
    requires StrictlyIncreasing(ids)
    requires forall id :: id in ids ==> id in rows && NeedsExpiry(rows[id], now) && rows[id].abortedAt.None?
    ensures var out := ReconcileClaims(rows, uploads, ids, unreachable, now);
            Reconciled(rows, uploads, out.0, out.1, now)
            && (forall id :: id in rows && id !in ids ==> out.0[id] == rows[id])
            && (out.2 ==> forall id :: id in ids ==> out.0[id] == ExpiredRow(rows[id], now))
  {
    if ids != [] {
      var r := rows[ids[0]];
      match ExpireIfNeeded(r, uploads, unreachable, now) {
        case None =>
        case Some(step) =>
          var rows1 := rows[ids[0] := step.0];
          forall id | id in ids[1..] ensures id != ids[0] && id in ids {
            var j :| 0 <= j < |ids[1..]| && ids[1..][j] == id;
            assert ids[j + 1] == id;
          }
          assert forall id :: id in ids ==> id == ids[0] || id in ids[1..];
          ReconcileEffect(rows1, step.1, ids[1..], unreachable, now);
          assert !HeldOpen(step.1, r.Ref());
      }
    }
  }

  lemma ReconciledRow(cfg: Config, now: Time, w: World, rows: Rows, uploads: Uploads, id: SessionId)
    requires RowsInv(cfg, now, w) && Reconciled(w.rows, w.uploads, rows, uploads, now) && id in w.rows
    ensures RowStep(w.rows[id], rows[id]) && RowOk(cfg, now, id, rows[id])
    ensures rows[id].abortedAt.Some? ==> !HeldOpen(uploads, w.rows[id].Ref())
    ensures w.rows[id].status == Completing ==> rows[id] == w.rows[id]
  {
    if rows[id] != w.rows[id] {
      ExpiredRowIsAnEdge(cfg, now, id, w.rows[id]);
    }
  }

  lemma ReconciledKeeps(cfg: Config, now: Time, w: World, rows: Rows, uploads: Uploads)
    requires RowsInv(cfg, now, w) && QuotaInv(cfg, w.rows) && RegistryInv(cfg, w)
    requires Reconciled(w.rows, w.uploads, rows, uploads, now)
    ensures var w' := w.(rows := rows, uploads := uploads);
            RowsInv(cfg, now, w') && QuotaInv(cfg, rows) && RegistryInv(cfg, w') && WorldStep(w, w')
    ensures forall id :: id in w.rows && w.rows[id].status == Completing ==> rows[id] == w.rows[id]
  {
    hide QuotaInv, RegistryInv, UploadsMove;
    forall id | id in w.rows
      ensures RowStep(w.rows[id], rows[id]) && RowOk(cfg, now, id, rows[id])
      ensures rows[id].abortedAt.Some? ==> !HeldOpen(uploads, w.rows[id].Ref())
      ensures w.rows[id].status == Completing ==> rows[id] == w.rows[id]
    {
      ReconciledRow(cfg, now, w, rows, uploads, id);
    }
    hide RowStep, RowOk, HeldOpen;
    RowsRewritten(cfg, now, w, w.(rows := rows, uploads := uploads));
  }

  /** Every expired or cancelled upload of the owner has been given back by the provider, and no
      unfinished one is past its expiry. */
  ghost predicate ClaimsSettled(rows: Rows, uploads: Uploads, owner: OwnerId, now: Time) {
    forall id :: id in rows && rows[id].facts.owner == owner ==>
      (rows[id].status == Expired ==> rows[id].abortedAt.Some? && !HeldOpen(uploads, rows[id].Ref()))
      && (ActiveMultipart(rows[id].status) ==> rows[id].expiresAt > now)
  }

  lemma SettledClaim(
      cfg: Config, now: Time, w: World, rows: Rows, uploads: Uploads, owner: OwnerId, id: SessionId, claimed: bool)
    requires RowsInv(cfg, now, w) && Reconciled(w.rows, w.uploads, rows, uploads, now) && id in w.rows
    requires rows[id].facts.owner == owner && (claimed <==> id in ClaimIds(w.rows, owner, now))
    requires rows[id] == if claimed then ExpiredRow(w.rows[id], now) else w.rows[id]
    ensures rows[id].status == Expired ==> rows[id].abortedAt.Some? && !HeldOpen(uploads, rows[id].Ref())
    ensures ActiveMultipart(rows[id].status) ==> rows[id].expiresAt > now
  {
    assert RowOk(cfg, now, id, w.rows[id]);
  }

  /** After a successful reconciliation nothing of this owner is waiting for a provider abort. */
  lemma ReconcileSettlesClaims(cfg: Config, now: Time, w: World, owner: OwnerId, unreachable: set<UploadRef>)
    requires RowsInv(cfg, now, w)
    ensures var out := ReconcileClaims(w.rows, w.uploads, SortedIds(ClaimIds(w.rows, owner, now)), unreachable, now);
            Reconciled(w.rows, w.uploads, out.0, out.1, now)
            && (forall id :: id in out.0 ==> out.0[id].Ref() in out.1)
            && (out.2 ==> ClaimsSettled(out.0, out.1, owner, now))
  {
    var ids := SortedIds(ClaimIds(w.rows, owner, now));
    ReconcileEffect(w.rows, w.uploads, ids, unreachable, now);
    var out := ReconcileClaims(w.rows, w.uploads, ids, unreachable, now);
    hide QuotaInv, RegistryInv, ReconcileClaims, StrictlyIncreasing, UploadsMove;
    if out.2 {
      forall id | id in out.0 && out.0[id].facts.owner == owner
        ensures out.0[id].status == Expired ==> out.0[id].abortedAt.Some? && !HeldOpen(out.1, out.0[id].Ref())
        ensures ActiveMultipart(out.0[id].status) ==> out.0[id].expiresAt > now
      {
        assert id in ids <==> id in ClaimIds(w.rows, owner, now);
        SettledClaim(cfg, now, w, out.0, out.1, owner, id, id in ids);
      }
    }
  }

  // ---------------------------------------------------------------- one transaction at a time

  ghost predicate StepGoal(cfg: Config, s: State, s': State) {
    Inv(cfg, s') && WorldStep(s.world, s'.world)
  }

  /** Provider effects without their database writes keep the invariant. */
  lemma RolledBack(cfg: Config, s: State, w': World, calls': map<nat, Call>)
    requires Inv(cfg, s)
    requires UploadsMove(s.world.uploads, w'.uploads)
    requires s.world.deleted <= w'.deleted
    requires forall key :: key in w'.deleted - s.world.deleted ==> DeletedOk(cfg, s.world.rows, key)
    requires calls'.Keys <= s.calls.Keys && forall c :: c in calls' ==> calls'[c] == s.calls[c]
    ensures StepGoal(cfg, s, s.(world := RollBack(s.world, w'), calls := calls'))
  {
    var w1 := RollBack(s.world, w');
    assert w1.rows == s.world.rows;
    RowsRewritten(cfg, s.now, s.world, w1);
    CallsUntouched(cfg, s.world.rows, w1.rows, s.calls, calls');
  }

  /** What a transaction owes the invariant: the goal when it commits, and harmless provider
      effects when it does not. */
  ghost predicate TxGoal(cfg: Config, s: State, t: State) {
    StepGoal(cfg, s, t)
    && forall key :: key in t.world.deleted - s.world.deleted ==> DeletedOk(cfg, s.world.rows, key)
  }

  lemma InsertedQuota(cfg: Config, rows: Rows, id: SessionId, r: UploadSession)
    requires QuotaInv(cfg, rows) && id !in rows && |ActiveIds(rows, r.facts.owner)| < cfg.maxActive
    ensures QuotaInv(cfg, rows[id := r])
  {
    var after := rows[id := r];
    forall owner ensures |ActiveIds(after, owner)| <= cfg.maxActive {
      var before := ActiveIds(rows, owner);
      if owner == r.facts.owner {
        SubsetSize(ActiveIds(after, owner), before + {id});
      } else {
        assert ActiveIds(after, owner) == before;
      }
    }
  }

  lemma InsertedRegistry(cfg: Config, w: World, w': World, id: SessionId)
    requires RegistryInv(cfg, w) && id !in w.rows && id in w'.rows && w'.rows - {id} == w.rows
    requires w'.analyses == w.analyses && w'.videos == w.videos && w'.deleted == w.deleted
    ensures RegistryInv(cfg, w')
  {
    assert forall a :: a in w.rows ==> a in w'.rows - {id} && w'.rows[a] == w.rows[a];
    forall key | key in w'.deleted ensures DeletedOk(cfg, w'.rows, key) { assert DeletedOk(cfg, w.rows, key); }
    forall key | key in w'.videos ensures KeyHolder(cfg, w'.rows, key) { assert KeyHolder(cfg, w.rows, key); }
  }

  lemma InsertedCalls(cfg: Config, rows: Rows, id: SessionId, r: UploadSession, calls: map<nat, Call>)
    requires CallsInv(cfg, rows, calls) && id !in rows
    ensures CallsInv(cfg, rows[id := r], calls)
  {
    forall c | c in calls ensures CallFits(cfg, rows[id := r], calls[c]) {
      assert CallFits(cfg, rows, calls[c]);
    }
  }

  /** Inserting the admitted session, under the owner's admission lock. */
  lemma Inserted(cfg: Config, now: Time, w: World, id: SessionId, r: UploadSession)
    requires RowsInv(cfg, now, w)
    requires id !in w.rows && r.Ref() !in w.uploads && RowOk(cfg, now, id, r) && r.abortedAt.None?
    requires FindByKey(w.rows, r.facts.owner, r.facts.keyHash).None?
    ensures RowsInv(cfg, now, w.(rows := w.rows[id := r], uploads := w.uploads[r.Ref() := Open]))
    ensures UploadsMove(w.uploads, w.uploads[r.Ref() := Open])
  {
    forall a | a in w.rows && w.rows[a].facts.owner == r.facts.owner && w.rows[a].facts.keyHash == r.facts.keyHash
      ensures false
    {
      assert MatchesKey(w.rows, r.facts.owner, r.facts.keyHash, a);
    }
  }

  lemma KeyStillFree(rows: Rows, uploads: Uploads, rows': Rows, uploads': Uploads, now: Time, owner: OwnerId,
      keyHash: Checksum)
    requires Reconciled(rows, uploads, rows', uploads', now) && FindByKey(rows, owner, keyHash).None?
    ensures FindByKey(rows', owner, keyHash).None?
  {
    var other := FindByKey(rows', owner, keyHash);
    if other.Some? {
      assert MatchesKey(rows, owner, keyHash, other.value);
    }
  }

  lemma AdmitCommits(cfg: Config, s: State, w1: World, id: SessionId, r: UploadSession)
    requires Inv(cfg, s) && Reconciled(s.world.rows, s.world.uploads, w1.rows, w1.uploads, s.now)
    requires w1 == s.world.(rows := w1.rows, uploads := w1.uploads)
    requires FindByKey(s.world.rows, r.facts.owner, r.facts.keyHash).None?
             && |ActiveIds(w1.rows, r.facts.owner)| < cfg.maxActive
    requires id !in w1.rows && r.Ref() !in w1.uploads && RowOk(cfg, s.now, id, r) && r.abortedAt.None?
    ensures StepGoal(cfg, s, s.(world := w1.(rows := w1.rows[id := r], uploads := w1.uploads[r.Ref() := Open])))
  {
    hide RowsInv, QuotaInv, RegistryInv, CallsInv;
    ReconciledKeeps(cfg, s.now, s.world, w1.rows, w1.uploads);
    CallsUntouched(cfg, s.world.rows, w1.rows, s.calls, s.calls);
    KeyStillFree(s.world.rows, s.world.uploads, w1.rows, w1.uploads, s.now, r.facts.owner, r.facts.keyHash);
    var w' := w1.(rows := w1.rows[id := r], uploads := w1.uploads[r.Ref() := Open]);
    Inserted(cfg, s.now, w1, id, r);
    InsertedQuota(cfg, w1.rows, id, r);
    assert w'.rows - {id} == w1.rows;
    InsertedRegistry(cfg, w1, w', id);
    InsertedCalls(cfg, w1.rows, id, r, s.calls);
  }

  /** Admission reads no more of a world than this when it accepts or refuses. */
  lemma AdmitShape(cfg: Config, w: World, now: Time, req: InitiateRequest, id: SessionId, env: Provider)
    requires cfg.partSize > 0
    ensures var rec := ReconcileClaims(w.rows, w.uploads, SortedIds(ClaimIds(w.rows, req.owner, now)), env.unreachable,
            now);
            var out := AdmitTx(cfg, w, now, req, id, env);
            var row := NewSession(cfg, req, id, env.newUploadId);
            if out.reply.Raised? then
              out.world.deleted == w.deleted
              && (out.world.uploads == rec.1 || (row.Ref() !in rec.1 && out.world.uploads == rec.1[row.Ref() := Open]))
            else
              rec.2 && Admits(out.reply, id) && |ActiveIds(rec.0, req.owner)| < cfg.maxActive
              && id !in rec.0 && row.Ref() !in rec.1
              && out.world == w.(rows := rec.0[id := row], uploads := rec.1[row.Ref() := Open])
  {}

  lemma AdmitStep(cfg: Config, s: State, req: InitiateRequest, id: SessionId, env: Provider)
    requires Inv(cfg, s) && cfg.partSize > 0 && FindByKey(s.world.rows, req.owner, req.keyHash).None?
    ensures TxGoal(cfg, s, s.(world := RollBackIfRaised(s.world, AdmitTx(cfg, s.world, s.now, req, id, env))))
  {
    var w := s.world;
    var out := AdmitTx(cfg, w, s.now, req, id, env);
    var rec := ReconcileClaims(w.rows, w.uploads, SortedIds(ClaimIds(w.rows, req.owner, s.now)), env.unreachable,
      s.now);
    ReconcileSettlesClaims(cfg, s.now, w, req.owner, env.unreachable);
    AdmitShape(cfg, w, s.now, req, id, env);
    hide RowsInv, QuotaInv, RegistryInv, CallsInv, AdmitTx, ReconcileClaims;
    hide ClaimsSettled, ClaimIds, WorldStep, FindByKey;
    if out.reply.Raised? {
      RolledBack(cfg, s, out.world, s.calls);
    } else {
      AdmitCommits(cfg, s, w.(rows := rec.0, uploads := rec.1), id, NewSession(cfg, req, id, env.newUploadId));
    }
  }

  /** A fresh admission leaves no expired or cancelled upload of the owner open at the provider. */
  lemma AdmissionSettles(cfg: Config, s: State, req: InitiateRequest, id: SessionId, env: Provider)
    requires Inv(cfg, s) && cfg.partSize > 0
    ensures var out := AdmitTx(cfg, s.world, s.now, req, id, env);
            Admits(out.reply, id) ==>
              id !in s.world.rows && id in out.world.rows
              && ClaimsSettled(out.world.rows - {id}, out.world.uploads, req.owner, s.now)
  {
    var w := s.world;
    var rec := ReconcileClaims(w.rows, w.uploads, SortedIds(ClaimIds(w.rows, req.owner, s.now)), env.unreachable,
      s.now);
    assert RowsInv(cfg, s.now, w);
    hide AdmitTx, ReconcileClaims, Inv, RowsInv, ClaimIds, HeldOpen, NeedsExpiry, ClaimsSettled;
    ReconcileSettlesClaims(cfg, s.now, w, req.owner, env.unreachable);
    AdmitShape(cfg, w, s.now, req, id, env);
    var out := AdmitTx(cfg, w, s.now, req, id, env);
    if Admits(out.reply, id) {
      var row := NewSession(cfg, req, id, env.newUploadId);
      assert out.world.rows - {id} == rec.0;
      SettledWithNewUpload(rec.0, rec.1, row.Ref(), req.owner, s.now);
    }
  }

  lemma SettledWithNewUpload(rows: Rows, uploads: Uploads, ref: UploadRef, owner: OwnerId, now: Time)
    requires ClaimsSettled(rows, uploads, owner, now) && ref !in uploads
    requires forall id :: id in rows ==> rows[id].Ref() in uploads
    ensures ClaimsSettled(rows, uploads[ref := Open], owner, now)
  {}
}
