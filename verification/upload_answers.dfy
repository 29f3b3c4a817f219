/** What each upload transaction answers and leaves behind, stated in the columns of the session table and
    what the provider holds; and what the verification lease means over whole runs. */
module UploadAnswers {
  import opened Common
  import opened UploadParts
  import opened UploadRows
  import opened UploadProtocol
  import opened UploadInvariant
  import opened UploadSteps
  import opened UploadTheorems

  import UA = UploadAssembly

  // ---------------------------------------------------------------- the tables, read directly

  predicate Unfinished(r: UploadSession) { r.status == Initiated || r.status == Uploading }

  /** An upload the provider must be asked to give back, or was asked to already. */
  predicate Overdue(r: UploadSession, now: Time) { (Unfinished(r) || r.status == Expired) && r.expiresAt <= now }

  predicate Mine(w: World, owner: OwnerId, id: SessionId) { id in w.rows && w.rows[id].facts.owner == owner }

  /** The row after expiry; the abort stamp is the first one. */
  function AfterExpiry(r: UploadSession, now: Time): UploadSession {
    r.(status := Expired, abortedAt := if r.abortedAt == None then Some(now) else r.abortedAt,
       failureReason := Some(SessionExpired), rowVersion := r.rowVersion + 1)
  }

  /** What the provider holds once it was asked to give an upload back. */
  function GivenBack(uploads: Uploads, ref: UploadRef): Uploads {
    if ref in uploads && uploads[ref] == Open then uploads[ref := Released] else uploads
  }

  function Put(w: World, id: SessionId, r: UploadSession): World { w.(rows := w.rows[id := r]) }

  // ---------------------------------------------------------------- expiry

  /** Reading a session expires it exactly when it is overdue; the provider is asked exactly when the row
      carries no abort stamp yet, and if it cannot be reached the row stays as it was. */
  lemma ExpiryAnswersExactly(w: World, now: Time, owner: OwnerId, id: SessionId, env: Provider)
    ensures RefreshTx(w, now, owner, id, env)
         == if !Mine(w, owner, id) then TxOut(w, Raised(NotFound))
            else
              var r := w.rows[id];
              if !Overdue(r, now) then TxOut(w, Done(r.status))
              else if r.abortedAt == None && r.Ref() in env.unreachable then TxOut(w, Raised(StorageBackend))
              else TxOut(Put(w, id, AfterExpiry(r, now))
                         .(uploads := if r.abortedAt == None then GivenBack(w.uploads, r.Ref()) else w.uploads),
                         Done(Expired))
  {
    if Mine(w, owner, id) { assert w.rows[id := w.rows[id]] == w.rows; }
  }

  // ---------------------------------------------------------------- admission

  /** The sessions of an owner that still count once the overdue ones are given back. */
  function StillActive(rows: Rows, owner: OwnerId, now: Time): set<SessionId> {
    set id | id in rows && rows[id].facts.owner == owner && !Overdue(rows[id], now)
             && (Unfinished(rows[id]) || rows[id].status == Completing || rows[id].status == Verifying
                 || rows[id].status == Analyzing)
  }

  /** A session of the owner that an admission must have given back first. */
  predicate Claim(rows: Rows, owner: OwnerId, now: Time, id: SessionId) {
    id in rows && rows[id].facts.owner == owner && Overdue(rows[id], now) && rows[id].abortedAt == None
  }

  ghost predicate AllReachable(rows: Rows, owner: OwnerId, now: Time, unreachable: set<UploadRef>) {
    forall id :: Claim(rows, owner, now, id) ==> rows[id].Ref() !in unreachable
  }

  lemma {:induction false} ReconcileStops(rows: Rows, uploads: Uploads, ids: seq<SessionId>,
      unreachable: set<UploadRef>,
                                          now: Time)
    requires StrictlyIncreasing(ids)
    requires forall id :: id in ids ==> id in rows && NeedsExpiry(rows[id], now) && rows[id].abortedAt.None?
    ensures ReconcileClaims(rows, uploads, ids, unreachable, now).2
            <==> forall id :: id in ids ==> rows[id].Ref() !in unreachable
  {
    if ids != [] {
      match ExpireIfNeeded(rows[ids[0]], uploads, unreachable, now) {
        case None => assert ids[0] in ids;
        case Some(step) =>
          var rows1 := rows[ids[0] := step.0];
          forall id | id in ids[1..] ensures id != ids[0] && id in ids && rows1[id] == rows[id] {
            var j :| 0 <= j < |ids[1..]| && ids[1..][j] == id;
            assert ids[j + 1] == id;
          }
          assert forall id :: id in ids ==> id == ids[0] || id in ids[1..];
          ReconcileStops(rows1, step.1, ids[1..], unreachable, now);
      }
    }
  }

  lemma ClaimsAre(rows: Rows, owner: OwnerId, now: Time)
    ensures forall id :: id in ClaimIds(rows, owner, now) <==> Claim(rows, owner, now, id)
  {}

  /** What the reconciliation inside an admission leaves when it succeeds. */
  ghost predicate ClaimsGivenBack(rows: Rows, rows': Rows, owner: OwnerId, now: Time) {
    rows'.Keys == rows.Keys
    && forall id :: id in rows ==>
         rows'[id] == if Claim(rows, owner, now, id) then AfterExpiry(rows[id], now) else rows[id]
  }

  lemma ReconcileAnswers(rows: Rows, uploads: Uploads, owner: OwnerId, unreachable: set<UploadRef>, now: Time)
    ensures var out := ReconcileClaims(rows, uploads, SortedIds(ClaimIds(rows, owner, now)), unreachable, now);
            (out.2 <==> AllReachable(rows, owner, now, unreachable))
            && (out.2 ==> ClaimsGivenBack(rows, out.0, owner, now))
  {
    var ids := SortedIds(ClaimIds(rows, owner, now));
    ClaimsAre(rows, owner, now);
    assert forall id :: id in ids <==> id in ClaimIds(rows, owner, now);
    hide ClaimIds;
    ReconcileStops(rows, uploads, ids, unreachable, now);
    ReconcileEffect(rows, uploads, ids, unreachable, now);
    hide ReconcileClaims, StrictlyIncreasing, UploadsMove;
  }

  /** The uploads given back are exactly those of the claims. */
  ghost predicate GivenBackWhere(uploads: Uploads, uploads': Uploads, named: set<UploadRef>) {
    uploads'.Keys == uploads.Keys
    && forall ref :: ref in uploads ==>
         uploads'[ref] == if ref in named && uploads[ref] == Open then Released else uploads[ref]
  }

  function Refs(rows: Rows, ids: seq<SessionId>): set<UploadRef>
    requires forall id :: id in ids ==> id in rows
  {
    set id | id in ids :: rows[id].Ref()
  }

  lemma OneGivenBack(r: UploadSession, uploads: Uploads, unreachable: set<UploadRef>, now: Time)
    requires NeedsExpiry(r, now) && r.abortedAt.None? && ExpireIfNeeded(r, uploads, unreachable, now).Some?
    ensures ExpireIfNeeded(r, uploads, unreachable, now).value.1 == GivenBack(uploads, r.Ref())
  {}

  lemma GivenBackJoins(uploads: Uploads, uploads': Uploads, ref: UploadRef, named: set<UploadRef>)
    requires GivenBackWhere(GivenBack(uploads, ref), uploads', named)
    ensures GivenBackWhere(uploads, uploads', named + {ref})
  {}

  lemma {:induction false} ReconcileGivesBack(rows: Rows, uploads: Uploads, ids: seq<SessionId>,
                                              unreachable: set<UploadRef>, now: Time)
    requires StrictlyIncreasing(ids)
    requires forall id :: id in ids ==> id in rows && NeedsExpiry(rows[id], now) && rows[id].abortedAt.None?
    ensures var out := ReconcileClaims(rows, uploads, ids, unreachable, now);
            out.1.Keys == uploads.Keys && (out.2 ==> GivenBackWhere(uploads, out.1, Refs(rows, ids)))
  {
    if ids != [] {
      hide GivenBackWhere, NeedsExpiry, ExpireIfNeeded;
      match ExpireIfNeeded(rows[ids[0]], uploads, unreachable, now) {
        case None =>
        case Some(step) =>
          var rows1 := rows[ids[0] := step.0];
          OneGivenBack(rows[ids[0]], uploads, unreachable, now);
          forall id | id in ids[1..] ensures id != ids[0] && id in ids && rows1[id] == rows[id] {
            var j :| 0 <= j < |ids[1..]| && ids[1..][j] == id;
            assert ids[j + 1] == id;
          }
          ReconcileGivesBack(rows1, step.1, ids[1..], unreachable, now);
          RefsSplit(rows, rows1, ids);
          if ReconcileClaims(rows, uploads, ids, unreachable, now).2 {
            GivenBackJoins(uploads, ReconcileClaims(rows, uploads, ids, unreachable, now).1, rows[ids[0]].Ref(),
              Refs(rows1, ids[1..]));
          }
      }
    }
  }

  lemma RefsSplit(rows: Rows, rows1: Rows, ids: seq<SessionId>)
    requires ids != [] && forall id :: id in ids ==> id in rows
    requires forall id :: id in ids[1..] ==> id in rows1 && rows1[id] == rows[id]
    ensures Refs(rows, ids) == Refs(rows1, ids[1..]) + {rows[ids[0]].Ref()}
  {
    assert forall id :: id in ids ==> id == ids[0] || id in ids[1..];
  }

  predicate StampsEnd(rows: Rows) {
    forall id :: id in rows && rows[id].abortedAt.Some? ==> rows[id].status == Expired || rows[id].status == Aborted
  }

  lemma CountedAre(rows: Rows, rows': Rows, owner: OwnerId, now: Time)
    requires ClaimsGivenBack(rows, rows', owner, now) && StampsEnd(rows)
    ensures ActiveIds(rows', owner) == StillActive(rows, owner, now)
  {}

  /** The row an admission inserts. */
  predicate IsNewSession(cfg: Config, req: InitiateRequest, id: SessionId, env: Provider, r: UploadSession) {
    var f := r.facts;
    r.status == Initiated && r.rowVersion == 1 && r.expiresAt == req.requestedAt + cfg.ttl
    && r.verifiedSha256 == None && r.result == None && r.failureReason == None && r.verificationStartedAt == None
    && r.completedAt == None && r.abortedAt == None
    && f.owner == req.owner && f.analysisId == id && f.storageKey == SourceKey(req.owner, id, req.suffix)
    && f.uploadId == env.newUploadId && f.suffix == req.suffix && f.contentType == req.contentType
    && f.declaredSize == req.byteSize && f.partSize == cfg.partSize
    && f.expectedSha256 == req.expectedSha256 && f.fileIdentity == req.fileIdentity && f.keyHash == req.keyHash
    && f.fingerprint == req.fingerprint && f.reanalyze == req.reanalyze
    && TotalExpected(f.declaredSize, f.partSize, f.partCount) == req.byteSize
    && forall k :: 1 <= k <= f.partCount ==> 0 < ExpectedSize(f.declaredSize, f.partSize, k) <= cfg.partSize
  }

  lemma NewSessionIs(cfg: Config, req: InitiateRequest, id: SessionId, env: Provider)
    requires cfg.partSize > 0
    ensures IsNewSession(cfg, req, id, env, NewSession(cfg, req, id, env.newUploadId))
  {
    PartSizesPartitionTheUpload(req.byteSize, cfg.partSize);
    hide ExpectedSize, TotalExpected, PartCountFor;
  }

  lemma StampsMeanEnd(cfg: Config, s: State)
    requires Inv(cfg, s)
    ensures StampsEnd(s.world.rows)
  {
    forall id | id in s.world.rows && s.world.rows[id].abortedAt.Some?
      ensures s.world.rows[id].status == Expired || s.world.rows[id].status == Aborted
    {
      RowFact(cfg, s, id);
    }
  }

  lemma AdmitCases(cfg: Config, w: World, now: Time, req: InitiateRequest, id: SessionId, env: Provider)
    requires cfg.partSize > 0
    ensures var rec := ReconcileClaims(w.rows, w.uploads, SortedIds(ClaimIds(w.rows, req.owner, now)), env.unreachable,
                                       now);
            var row := NewSession(cfg, req, id, env.newUploadId);
            AdmitTx(cfg, w, now, req, id, env).reply
            == if !rec.2 then Raised(StorageBackend)
               else if |ActiveIds(rec.0, req.owner)| >= cfg.maxActive then Raised(CapacityBusy)
               else if env.initiationFails || row.Ref() in rec.1 then Raised(StorageBackend)
               else if id in rec.0 then Raised(SessionConflict)
               else if row.facts.partCount > 0 && env.signingFails then Unsigned(id) else Accepted(id, false)
  {}

  function ClaimRefs(rows: Rows, owner: OwnerId, now: Time): set<UploadRef> {
    set id | id in rows && Claim(rows, owner, now, id) :: rows[id].Ref()
  }

  lemma AdmissionGivesBack(rows: Rows, uploads: Uploads, owner: OwnerId, unreachable: set<UploadRef>, now: Time)
    ensures var out := ReconcileClaims(rows, uploads, SortedIds(ClaimIds(rows, owner, now)), unreachable, now);
            out.1.Keys == uploads.Keys && (out.2 ==> GivenBackWhere(uploads, out.1, ClaimRefs(rows, owner, now)))
  {
    var ids := SortedIds(ClaimIds(rows, owner, now));
    ClaimsAre(rows, owner, now);
    assert forall id :: id in ids <==> id in ClaimIds(rows, owner, now);
    assert Refs(rows, ids) == ClaimRefs(rows, owner, now);
    ReconcileGivesBack(rows, uploads, ids, unreachable, now);
  }

  lemma AdmitAnswers(cfg: Config, w: World, now: Time, req: InitiateRequest, id: SessionId, env: Provider)
    requires cfg.partSize > 0 && StampsEnd(w.rows)
    ensures var reply := AdmitTx(cfg, w, now, req, id, env).reply;
            var row := NewSession(cfg, req, id, env.newUploadId);
            if !AllReachable(w.rows, req.owner, now, env.unreachable) then reply == Raised(StorageBackend)
            else if |StillActive(w.rows, req.owner, now)| >= cfg.maxActive then reply == Raised(CapacityBusy)
            else if env.initiationFails || row.Ref() in w.uploads then reply == Raised(StorageBackend)
            else if id in w.rows then reply == Raised(SessionConflict)
            else reply == if row.facts.partCount > 0 && env.signingFails then Unsigned(id) else Accepted(id, false)
  {
    var rec := ReconcileClaims(w.rows, w.uploads, SortedIds(ClaimIds(w.rows, req.owner, now)), env.unreachable, now);
    hide *;
    AdmitCases(cfg, w, now, req, id, env);
    ReconcileAnswers(w.rows, w.uploads, req.owner, env.unreachable, now);
    AdmissionGivesBack(w.rows, w.uploads, req.owner, env.unreachable, now);
    if rec.2 {
      CountedAre(w.rows, rec.0, req.owner, now);
      GivenBackKeepsIds(w.rows, rec.0, req.owner, now);
    }
  }

  lemma GivenBackKeepsIds(rows: Rows, rows': Rows, owner: OwnerId, now: Time)
    requires ClaimsGivenBack(rows, rows', owner, now)
    ensures rows'.Keys == rows.Keys
  {}

  lemma NewKeyAdmits(cfg: Config, s: State, req: InitiateRequest, id: SessionId, env: Provider)
    requires Reachable(cfg, s) && FreshKey(s.world.rows, req)
    ensures cfg.partSize > 0 && StampsEnd(s.world.rows)
    ensures InitiateTx(cfg, s.world, s.now, req, id, env) == AdmitTx(cfg, s.world, s.now, req, id, env)
  {
    ReachableInv(cfg, s);
    StampsMeanEnd(cfg, s);
    assert FindByKey(s.world.rows, req.owner, req.keyHash).None?;
    hide AdmitTx, ResumeTx, Inv;
  }

  /** No session of the owner is bound to the key of the request. */
  predicate FreshKey(rows: Rows, req: InitiateRequest) {
    forall id :: id in rows ==> rows[id].facts.owner != req.owner || rows[id].facts.keyHash != req.keyHash
  }

  /** A request under a new key is admitted exactly if every overdue upload of the owner can be given back,
      fewer than the cap stay, the provider starts a new upload and the id is new. */
  lemma AdmittedExactly(cfg: Config, s: State, req: InitiateRequest, id: SessionId, env: Provider)
    requires Reachable(cfg, s) && FreshKey(s.world.rows, req)
    ensures cfg.partSize > 0
    ensures var w := s.world; var reply := InitiateTx(cfg, w, s.now, req, id, env).reply;
            var all := AllReachable(w.rows, req.owner, s.now, env.unreachable);
            var fits := |StillActive(w.rows, req.owner, s.now)| < cfg.maxActive;
            var starts := !env.initiationFails
                          && UploadRef(SourceKey(req.owner, id, req.suffix), env.newUploadId) !in w.uploads;
            var unsigned := env.signingFails && PartCountFor(req.byteSize, cfg.partSize) > 0;
            (reply == Accepted(id, false) <==> all && fits && starts && id !in w.rows && !unsigned)
            && (reply == Unsigned(id) <==> all && fits && starts && id !in w.rows && unsigned)
            && (reply == Raised(CapacityBusy) <==> all && !fits)
            && (reply == Raised(SessionConflict) <==> all && fits && starts && id in w.rows)
            && (reply == Raised(StorageBackend) <==> !all || (fits && !starts))
  {
    NewKeyAdmits(cfg, s, req, id, env);
    var row := NewSession(cfg, req, id, env.newUploadId);
    assert row.Ref() == UploadRef(SourceKey(req.owner, id, req.suffix), env.newUploadId);
    assert row.facts.partCount == PartCountFor(req.byteSize, cfg.partSize);
    hide *;
    AdmitAnswers(cfg, s.world, s.now, req, id, env);
  }

  /** Then the overdue rows are expired and their uploads given back, the new row is as requested, the
      provider holds its upload open, and nothing else moves. */
  lemma AdmissionWritesExactly(cfg: Config, s: State, req: InitiateRequest, id: SessionId, env: Provider)
    requires Reachable(cfg, s) && FreshKey(s.world.rows, req)
    requires !InitiateTx(cfg, s.world, s.now, req, id, env).reply.Raised?
    ensures var w := s.world; var t := InitiateTx(cfg, w, s.now, req, id, env).world;
            id in t.rows && IsNewSession(cfg, req, id, env, t.rows[id])
            && ClaimsGivenBack(w.rows, t.rows - {id}, req.owner, s.now)
            && GivenBackWhere(w.uploads, t.uploads - {t.rows[id].Ref()}, ClaimRefs(w.rows, req.owner, s.now))
            && t.rows[id].Ref() in t.uploads && t.uploads[t.rows[id].Ref()] == Open
            && t.analyses == w.analyses && t.videos == w.videos && t.deleted == w.deleted
  {
    NewKeyAdmits(cfg, s, req, id, env);
    var w := s.world;
    var rec := ReconcileClaims(w.rows, w.uploads, SortedIds(ClaimIds(w.rows, req.owner, s.now)), env.unreachable,
      s.now);
    var row := NewSession(cfg, req, id, env.newUploadId);
    hide *;
    AdmitShape(cfg, w, s.now, req, id, env);
    ReconcileAnswers(w.rows, w.uploads, req.owner, env.unreachable, s.now);
    AdmissionGivesBack(w.rows, w.uploads, req.owner, env.unreachable, s.now);
    NewSessionIs(cfg, req, id, env);
    WithoutNew(rec.0, id, row);
    WithoutNew(rec.1, row.Ref(), Open);
  }

  /** Only uploads of claims were given back, in part when the provider stopped answering. */
  ghost predicate GivenBackAmong(uploads: Uploads, uploads': Uploads, named: set<UploadRef>) {
    uploads'.Keys == uploads.Keys
    && forall ref :: ref in uploads ==>
         uploads'[ref] == uploads[ref] || (ref in named && uploads[ref] == Open && uploads'[ref] == Released)
  }

  lemma {:induction false} ReconcileGivesBackSome(rows: Rows, uploads: Uploads, ids: seq<SessionId>,
                                                  unreachable: set<UploadRef>, now: Time)
    requires StrictlyIncreasing(ids)
    requires forall id :: id in ids ==> id in rows && NeedsExpiry(rows[id], now) && rows[id].abortedAt.None?
    ensures GivenBackAmong(uploads, ReconcileClaims(rows, uploads, ids, unreachable, now).1, Refs(rows, ids))
  {
    if ids != [] {
      hide NeedsExpiry, ExpireIfNeeded;
      match ExpireIfNeeded(rows[ids[0]], uploads, unreachable, now) {
        case None =>
        case Some(step) =>
          var rows1 := rows[ids[0] := step.0];
          OneGivenBack(rows[ids[0]], uploads, unreachable, now);
          forall id | id in ids[1..] ensures id != ids[0] && id in ids && rows1[id] == rows[id] {
            var j :| 0 <= j < |ids[1..]| && ids[1..][j] == id;
            assert ids[j + 1] == id;
          }
          ReconcileGivesBackSome(rows1, step.1, ids[1..], unreachable, now);
          RefsSplit(rows, rows1, ids);
      }
    }
  }

  lemma RefusalCases(cfg: Config, w: World, now: Time, req: InitiateRequest, id: SessionId, env: Provider)
    requires cfg.partSize > 0
    ensures var rec := ReconcileClaims(w.rows, w.uploads, SortedIds(ClaimIds(w.rows, req.owner, now)), env.unreachable,
                                       now);
            var out := AdmitTx(cfg, w, now, req, id, env);
            out.reply.Raised? ==>
              (out.reply == Raised(SessionConflict) ==>
                 NewRef(req, id, env) !in rec.1
                 && out.world == w.(uploads := rec.1[NewRef(req, id, env) := Open]))
              && (out.reply != Raised(SessionConflict) ==> out.world == w.(uploads := rec.1))
  {}

  function NewRef(req: InitiateRequest, id: SessionId, env: Provider): UploadRef {
    UploadRef(SourceKey(req.owner, id, req.suffix), env.newUploadId)
  }

  /** A refused admission leaves every table as it was. The provider keeps what it was asked for: uploads of overdue
      claims given back, all of them if it could be reached, and the upload started for an id that is taken. */
  lemma RefusedAdmissionLeaves(cfg: Config, s: State, req: InitiateRequest, id: SessionId, env: Provider)
    requires Reachable(cfg, s) && FreshKey(s.world.rows, req)
    requires cfg.partSize > 0 && InitiateTx(cfg, s.world, s.now, req, id, env).reply.Raised?
    ensures var w := s.world; var out := InitiateTx(cfg, w, s.now, req, id, env);
            var clash := out.reply == Raised(SessionConflict); var ref := NewRef(req, id, env);
            var base := if clash then out.world.uploads - {ref} else out.world.uploads;
            out.world == w.(uploads := out.world.uploads)
            && (clash ==> ref !in w.uploads && ref in out.world.uploads && out.world.uploads[ref] == Open)
            && GivenBackAmong(w.uploads, base, ClaimRefs(w.rows, req.owner, s.now))
            && (AllReachable(w.rows, req.owner, s.now, env.unreachable) ==>
                  GivenBackWhere(w.uploads, base, ClaimRefs(w.rows, req.owner, s.now)))
  {
    NewKeyAdmits(cfg, s, req, id, env);
    var w := s.world;
    var rec := ReconcileClaims(w.rows, w.uploads, SortedIds(ClaimIds(w.rows, req.owner, s.now)), env.unreachable,
      s.now);
    hide *;
    RefusalCases(cfg, w, s.now, req, id, env);
    ReconcileAnswers(w.rows, w.uploads, req.owner, env.unreachable, s.now);
    AdmissionGivesBack(w.rows, w.uploads, req.owner, env.unreachable, s.now);
    AdmissionGivesBackSome(w.rows, w.uploads, req.owner, env.unreachable, s.now);
    if NewRef(req, id, env) !in rec.1 { WithoutNew(rec.1, NewRef(req, id, env), Open); }
  }

  lemma AdmissionGivesBackSome(rows: Rows, uploads: Uploads, owner: OwnerId, unreachable: set<UploadRef>, now: Time)
    ensures GivenBackAmong(uploads,
                           ReconcileClaims(rows, uploads, SortedIds(ClaimIds(rows, owner, now)), unreachable, now).1,
                           ClaimRefs(rows, owner, now))
  {
    var ids := SortedIds(ClaimIds(rows, owner, now));
    ClaimsAre(rows, owner, now);
    assert forall id :: id in ids <==> id in ClaimIds(rows, owner, now);
    assert Refs(rows, ids) == ClaimRefs(rows, owner, now);
    ReconcileGivesBackSome(rows, uploads, ids, unreachable, now);
  }

  lemma WithoutNew<K, V>(m: map<K, V>, k: K, v: V)
    requires k !in m
    ensures m[k := v] - {k} == m
  {}

  /** A request under a bound key answers with its session exactly if the match still lives, the request is
      the same, and expiry and signing succeed; an error leaves the rows alone. */
  lemma ResumedExactly(cfg: Config, s: State, req: InitiateRequest, id: SessionId, env: Provider, a: SessionId)
    requires Reachable(cfg, s) && MatchesKey(s.world.rows, req.owner, req.keyHash, a)
    ensures var w := s.world; var r := w.rows[a]; var out := InitiateTx(cfg, w, s.now, req, id, env);
            var gone := a in w.analyses && w.analyses[a] != Live; var other := r.facts.fingerprint != req.fingerprint;
            var stuck := Overdue(r, s.now) && r.abortedAt == None && r.Ref() in env.unreachable;
            var unsigned := Unfinished(r) && !Overdue(r, s.now) && r.facts.partCount > 0 && env.signingFails;
            (out.reply == Raised(MatchDeleted) <==> gone)
            && (out.reply == Raised(IdempotencyConflict) <==> !gone && other)
            && (out.reply == Raised(StorageBackend) <==> !gone && !other && (stuck || unsigned))
            && (out.reply == Accepted(a, true) <==> !gone && !other && !stuck && !unsigned)
            && (out.reply == Accepted(a, true) ==>
                  out.world == if Overdue(r, s.now)
                               then Put(w, a, AfterExpiry(r, s.now))
                                    .(uploads := if r.abortedAt == None then GivenBack(w.uploads, r.Ref())
                                      else w.uploads)
                               else w)
  {
    ReachableInv(cfg, s);
    RowFact(cfg, s, a);
    var found := FindByKey(s.world.rows, req.owner, req.keyHash);
    assert found == Some(a);
    hide Inv, Reachable, FindByKey;
    assert s.world.rows[a := s.world.rows[a]] == s.world.rows;
  }

  // ---------------------------------------------------------------- parts and completion

  lemma SomeNumberAbove(numbers: seq<nat>, count: nat)
    ensures (forall i :: 0 <= i < |numbers| ==> numbers[i] <= count) <==> !(exists n :: n in numbers && n > count)
  {
    if i :| 0 <= i < |numbers| && numbers[i] > count { assert numbers[i] in numbers; }
  }

  /** Part URLs are handed out exactly for parts that exist of an own unfinished upload; the first time
      moves the session to uploading. */
  lemma PartUrlsAnswerExactly(w: World, owner: OwnerId, id: SessionId, numbers: seq<nat>, env: Provider)
    ensures var out := PartUrlsTx(w, owner, id, numbers, env);
            if !Mine(w, owner, id) then out == TxOut(w, Raised(NotFound))
            else
              var r := w.rows[id];
              if r.status == Expired then out == TxOut(w, Raised(SessionIsExpired))
              else if !Unfinished(r) then out == TxOut(w, Raised(InvalidUploadState))
              else if !(forall i :: 0 <= i < |numbers| ==> numbers[i] <= r.facts.partCount)
              then out == TxOut(w, Raised(InvalidPartNumber))
              else if env.signingFails then out == TxOut(w, Raised(StorageBackend))
              else out == TxOut(Put(w, id, r.(status := Uploading,
                                              rowVersion := r.rowVersion + if r.status == Initiated then 1 else 0)),
                                Done(Uploading))
  {
    if Mine(w, owner, id) {
      assert w.rows[id := w.rows[id]] == w.rows;
      SomeNumberAbove(numbers, w.rows[id].facts.partCount);
    }
  }

  /** The code points that count as white space. */
  const BLANKS: set<int> :=
    {9, 10, 11, 12, 13, 28, 29, 30, 31, 32, 133, 160, 5760, 8192, 8193, 8194, 8195, 8196, 8197, 8198, 8199, 8200, 8201,
     8202, 8232, 8233, 8239, 8287, 12288}

  /** A tag of at most 512 characters on one line, with a character that is not white space. */
  predicate TagIsUsable(etag: string) {
    |etag| <= 512 && (forall i :: 0 <= i < |etag| ==> etag[i] != '\r' && etag[i] != '\n')
    && exists i :: 0 <= i < |etag| && etag[i] as int !in BLANKS
  }

  lemma TagsExactly(etag: string)
    ensures UsableTag(etag) <==> TagIsUsable(etag)
  {
    forall c: char ensures Blank(c) <==> c as int in BLANKS { }
    hide Blank;
  }

  /** Every part but the last holds a full part size, the last one the rest. */
  lemma PartSizesExactly(size: nat, partSize: nat, k: nat)
    requires partSize > 0 && 1 <= k <= PartCountFor(size, partSize)
    ensures var n := PartCountFor(size, partSize);
            ExpectedSize(size, partSize, k) == if k < n then partSize else size - (n - 1) * partSize
  {
    var n := PartCountFor(size, partSize);
    PartCountBounds(size, partSize);
    if k < n {
      TimesPart(k, n - 1, partSize);
      PartStart(k, partSize);
    } else {
      LastPartEnds(size, partSize);
    }
    hide PartCountFor;
  }

  /** Recovery accepts a listing exactly if no number occurs twice and every part has a number in range, the size
      of that part and a usable tag. */
  lemma ListingsAreAcceptedExactly(parts: seq<Part>, size: nat, partSize: nat)
    requires partSize > 0
    ensures var n := PartCountFor(size, partSize);
            AcceptableListing(parts, size, partSize, n) <==>
            (forall i :: 0 <= i < |parts| ==>
               1 <= parts[i].number <= n && TagIsUsable(parts[i].etag)
               && parts[i].size == (if parts[i].number < n then partSize else size - (n - 1) * partSize))
            && forall i, j :: 0 <= i < j < |parts| ==> parts[i].number != parts[j].number
  {
    var n := PartCountFor(size, partSize);
    forall i | 0 <= i < |parts|
      ensures AcceptablePart(parts[i], size, partSize, n) <==>
              1 <= parts[i].number <= n && TagIsUsable(parts[i].etag)
              && parts[i].size == if parts[i].number < n then partSize else size - (n - 1) * partSize
    {
      TagsExactly(parts[i].etag);
      if 1 <= parts[i].number <= n { PartSizesExactly(size, partSize, parts[i].number); }
      hide UsableTag, TagIsUsable, ExpectedSize, PartCountFor;
    }
    hide AcceptablePart, TagIsUsable, PartCountFor;
  }

  lemma RangeIsAll(a: nat, n: nat)
    requires a <= n + 1
    ensures Range(a, n) == seq(n + 1 - a, i => a + i)
  {}

  /** Completion is claimed exactly by the owner of an unfinished upload who lists each part once, in any
      order; another list leaves the session as it was. */
  lemma CompletionBeginsExactly(w: World, owner: OwnerId, id: SessionId, parts: seq<nat>)
    ensures var out := BeginCompleteTx(w, owner, id, parts);
            (out.reply == Done(Completing) <==>
               Mine(w, owner, id) && Unfinished(w.rows[id])
               && multiset(parts) == multiset(seq(w.rows[id].facts.partCount, i => i + 1)))
            && (out.reply == Done(Completing) ==>
                  out.world == Put(w, id, w.rows[id].(status := Completing, rowVersion := w.rows[id].rowVersion + 1)))
            && (out.reply != Done(Completing) ==> out.world == w)
            && (out.reply == Raised(MissingPart) <==>
                  Mine(w, owner, id) && Unfinished(w.rows[id])
                  && multiset(parts) != multiset(seq(w.rows[id].facts.partCount, i => i + 1)))
            && (out.reply == Raised(NotFound) <==> !Mine(w, owner, id))
            && (Mine(w, owner, id) ==>
                  var status := w.rows[id].status;
                  (out.reply == Raised(SessionIsExpired) <==> status == Expired)
                  && (out.reply == Done(status) <==> status == Verifying || status == Analyzing || status == Completed)
                  && (out.reply == Raised(InvalidUploadState) <==>
                        status == Completing || status == Failed || status == Aborted))
  {
    if Mine(w, owner, id) {
      var n := w.rows[id].facts.partCount;
      CompletionAcceptsPermutations(parts, n);
      RangeIsAll(1, n);
      assert OneTo(n) == seq(n, i => i + 1);
      hide Ascending, OneTo;
    }
  }

  /** The object that was read back is the one that was announced. */
  predicate Announced(head: Head, id: SessionId, f: Facts) {
    head.size == f.declaredSize && head.session == Some(id) && head.declaredSize == Some(f.declaredSize)
    && head.contentType == f.contentType
  }

  /** Completion ends in verifying exactly if the object read back is the announced one, and fails the
      session otherwise. */
  lemma CompletionEndsExactly(w: World, id: SessionId, head: Head)
    ensures var out := FinishCompleteTx(w, id, head);
            if id !in w.rows then out == TxOut(w, Raised(NotFound))
            else
              var r := w.rows[id];
              if r.status != Completing then out == TxOut(w, Raised(InvalidUploadState))
              else if Announced(head, id, r.facts)
              then out == TxOut(Put(w, id, r.(status := Verifying, rowVersion := r.rowVersion + 1)), Done(Verifying))
              else out == TxOut(Put(w, id, r.(status := Failed, failureReason := Some(MetadataMismatch),
                                              rowVersion := r.rowVersion + 1)), Raised(MetadataRejected))
  {}

  /** In every reachable state, a session starts to be verified in exactly one way: the completion in flight
      for it commits, having read back the announced object. */
  lemma VerifyingStartsExactly(cfg: Config, s: State, tx: Tx, id: SessionId)
    requires Reachable(cfg, s) && id in s.world.rows && s.world.rows[id].status == Completing
    ensures id in Exec(cfg, s, tx).world.rows
    ensures Exec(cfg, s, tx).world.rows[id].status == Verifying <==>
            tx.FinishComplete? && tx.call in s.calls && s.calls[tx.call].HeadRead? && s.calls[tx.call].sid == id
            && Announced(s.calls[tx.call].head, id, s.world.rows[id].facts)
  {
    ReachableInv(cfg, s);
    assert Apply(cfg, s, Commit(tx)) == Exec(cfg, s, tx);
    hide *;
    OneEdgeAtATime(cfg, s, Commit(tx), id);
    if tx.FinishComplete? {
      FinishVerifies(cfg, s, tx.call, id);
    } else if tx.BeginComplete? {
      BeginDoesNotVerify(cfg, s, tx, id);
    } else {
      QuietRows(cfg, s, tx, id);
    }
  }

  lemma FinishVerifies(cfg: Config, s: State, call: nat, id: SessionId)
    requires cfg.partSize > 0 && id in s.world.rows && s.world.rows[id].status == Completing
    ensures var t := Exec(cfg, s, FinishComplete(call));
            id in t.world.rows
            && (t.world.rows[id].status == Verifying <==>
                  call in s.calls && s.calls[call].HeadRead? && s.calls[call].sid == id
                  && Announced(s.calls[call].head, id, s.world.rows[id].facts))
  {
    hide HeadMatches;
    if call in s.calls && s.calls[call].HeadRead? {
      CompletionEndsExactly(s.world, s.calls[call].sid, s.calls[call].head);
    }
    hide FinishCompleteTx, Announced;
  }

  lemma BeginDoesNotVerify(cfg: Config, s: State, tx: Tx, id: SessionId)
    requires cfg.partSize > 0 && tx.BeginComplete? && id in s.world.rows && s.world.rows[id].status != Verifying
    ensures id in Exec(cfg, s, tx).world.rows ==> Exec(cfg, s, tx).world.rows[id].status != Verifying
  {
    BeginCompleteShape(cfg, s, tx.owner, tx.id, tx.parts, tx.call);
    hide Exec;
  }

  lemma QuietRows(cfg: Config, s: State, tx: Tx, id: SessionId)
    requires cfg.partSize > 0 && !tx.BeginComplete? && !tx.FinishComplete?
    requires id in s.world.rows && s.world.rows[id].status != Verifying
    ensures id in Exec(cfg, s, tx).world.rows ==> Exec(cfg, s, tx).world.rows[id].status != Verifying
  {
    UA.TxIsQuiet(cfg, s, tx);
    hide Exec;
  }

  /** A failed completion gives the claim back exactly while the session is still completing. */
  lemma RestoresExactly(w: World, id: SessionId)
    ensures RestoreTx(w, id).world
         == if id in w.rows && w.rows[id].status == Completing
            then Put(w, id, w.rows[id].(status := Uploading, rowVersion := w.rows[id].rowVersion + 1)) else w
    ensures RestoreTx(w, id).reply == Raised(StorageBackend)
  {}

  /** A failure is recorded exactly unless the session is completed, aborted or about to lose its duplicate. */
  lemma FailsExactly(w: World, id: SessionId, reason: Reason)
    ensures var spared := id !in w.rows || w.rows[id].status == Completed || w.rows[id].status == Aborted
                          || w.rows[id].failureReason == Some(DuplicateCleanupPending);
            FailTx(w, id, reason)
            == if spared then w
               else Put(w, id, w.rows[id].(status := Failed, failureReason := Some(reason),
                                           rowVersion := w.rows[id].rowVersion + 1))
  {}

  // ---------------------------------------------------------------- cancelling and sweeping

  /** A cancellation fences exactly an own upload that is unfinished or expired, and never moves its expiry
      into the future. */
  lemma FencesExactly(w: World, now: Time, owner: OwnerId, id: SessionId)
    ensures var out := FenceTx(w, now, owner, id);
            if !Mine(w, owner, id) then out == TxOut(w, Raised(NotFound))
            else
              var r := w.rows[id];
              if r.status == Aborted then out == TxOut(w, Done(Aborted))
              else if Unfinished(r) || r.status == Expired
              then out == TxOut(Put(w, id, r.(status := Expired, failureReason := Some(CancelRequested),
                                              expiresAt := if r.expiresAt < now then r.expiresAt else now,
                                              rowVersion := r.rowVersion + 1)), Done(Expired))
              else out == TxOut(w, Raised(InvalidUploadState))
  {}

  /** It is settled exactly once the provider has been reached. */
  lemma ReleasesExactly(w: World, now: Time, owner: OwnerId, id: SessionId, env: Provider)
    ensures var out := ReleaseTx(w, now, owner, id, env);
            if !Mine(w, owner, id) then out == TxOut(w, Raised(NotFound))
            else
              var r := w.rows[id];
              if r.status == Aborted then out == TxOut(w, Done(Aborted))
              else if !Unfinished(r) && r.status != Expired then out == TxOut(w, Raised(InvalidUploadState))
              else if r.Ref() in env.unreachable then out == TxOut(w, Raised(StorageBackend))
              else out == TxOut(Put(w, id,
                r.(status := Aborted, abortedAt := Some(now), rowVersion := r.rowVersion + 1))
                                .(uploads := GivenBack(w.uploads, r.Ref())), Done(Aborted))
  {}

  /** The sweeper settles exactly the sessions that were overdue when its scan began and still are. */
  lemma SweepsExactly(w: World, id: SessionId, asOf: Time, env: Provider)
    ensures var out := SweepTx(w, id, asOf, env);
            if !(id in w.rows && Overdue(w.rows[id], asOf)) then out == TxOut(w, Skipped)
            else
              var r := w.rows[id];
              if r.Ref() in env.unreachable then out == TxOut(w, Raised(StorageBackend))
              else out == TxOut(Put(w, id, r.(status := Aborted, abortedAt := Some(asOf),
                                              failureReason := Some(SessionReconciled), rowVersion := r.rowVersion + 1))
                                .(uploads := GivenBack(w.uploads, r.Ref())), Done(Aborted))
  {}

  // ---------------------------------------------------------------- the verification lease

  /** A worker takes the lease exactly of a session to be verified or analyzed that nobody holds, or whose
      holder started at least one lease ago; it then holds it from its own time on. */
  lemma LeaseIsTakenExactly(cfg: Config, w: World, id: SessionId, at: Time)
    ensures LeaseTx(cfg, w, id, at).Some? <==>
            id in w.rows && (w.rows[id].status == Verifying || w.rows[id].status == Analyzing)
            && (w.rows[id].verificationStartedAt == None || w.rows[id].verificationStartedAt.value + cfg.lease <= at)
    ensures LeaseTx(cfg, w, id, at).Some? ==>
            LeaseTx(cfg, w, id, at).value
            == Put(w, id, w.rows[id].(verificationStartedAt := Some(at), rowVersion := w.rows[id].rowVersion + 1))
  {}

  /** The transaction takes the lease of a session. */
  predicate TakesLease(cfg: Config, s: State, tx: Tx, id: SessionId) {
    tx.Lease? && tx.id == id && tx.call !in s.calls && tx.at <= s.now && LeaseTx(cfg, s.world, id, tx.at).Some?
  }

  lemma LeaseIsHeld(cfg: Config, s: State, tx: Tx, id: SessionId)
    requires cfg.partSize > 0 && TakesLease(cfg, s, tx, id)
    ensures var t := Exec(cfg, s, tx);
            id in t.world.rows && t.world.rows[id].verificationStartedAt == Some(tx.at) && tx.call in t.calls
            && t.calls[tx.call].sid == id
  {
    LeaseIsTakenExactly(cfg, s.world, id, tx.at);
  }

  /** Two workers never hold the lease of one session together: whatever happens in between, a second one
      takes it no sooner than a full lease after the first. */
  lemma LeasesAreSpaced(cfg: Config, s: State, first: Tx, events: seq<Event>, second: Tx, id: SessionId)
    requires Reachable(cfg, s) && cfg.partSize > 0 && TakesLease(cfg, s, first, id)
    requires TakesLease(cfg, Run(cfg, Exec(cfg, s, first), events), second, id)
    ensures second.at >= first.at + cfg.lease
  {
    LeaseIsHeld(cfg, s, first, id);
    NextReachable(cfg, s, Commit(first));
    var held := Exec(cfg, s, first);
    assert Apply(cfg, s, Commit(first)) == held;
    ReachableInv(cfg, held);
    RunKeeps(cfg, held, events);
    var later := Run(cfg, held, events);
    LeaseIsTakenExactly(cfg, later.world, id, second.at);
    hide Inv, Reachable, Exec, Run, Apply, LeaseTx, UploadsMove;
    assert RowMove(held.world.rows[id], later.world.rows[id]);
  }

  // ---------------------------------------------------------------- verification

  /** Hashing goes on exactly if every checksum the client announced is the one computed and the object was
      stamped; a difference is a mismatch, anything that could not be computed a failed verification. */
  lemma HashingGoesOnExactly(id: SessionId, r: UploadSession, identity: Option<Checksum>, sha256: Option<Checksum>,
                             stamped: Option<int>)
    ensures var next := HashedCall(id, r, identity, sha256, stamped);
            var named := r.facts.fileIdentity; var sum := r.facts.expectedSha256;
            var sameFile := named == None || identity == named; var sameSum := sum == None || sha256 == sum;
            (next.Hashed? <==> sameFile && sha256.Some? && sameSum && stamped.Some?)
            && (next.Hashed? ==> next == Hashed(id, sha256.value, stamped.value))
            && (next == VerificationFailDue(id, ChecksumMismatch) <==>
                  (named.Some? && identity.Some? && identity != named)
                  || (sameFile && sum.Some? && sha256.Some? && sha256 != sum))
            && (next == VerificationFailDue(id, VerificationFailed) <==>
                  (named.Some? && identity == None)
                  || (sameFile && (sha256 == None || (sameSum && stamped == None))))
  {}

  /** The computed checksum is written exactly while the session waits for it and the object has the
      declared size; another size fails the session. */
  lemma ChecksumIsRecordedExactly(w: World, now: Time, id: SessionId, checksum: Checksum, size: int)
    ensures var (w', go) := RecordVerifiedTx(w, now, id, checksum, size);
            if !(id in w.rows && w.rows[id].status == Verifying) then w' == w && !go
            else
              var r := w.rows[id];
              if size == r.facts.declaredSize
              then go && w' == Put(w, id, r.(verifiedSha256 := Some(checksum), status := Analyzing,
                                             verificationStartedAt := Some(now), rowVersion := r.rowVersion + 1))
              else !go && w' == Put(w, id, r.(status := Failed, failureReason := Some(SizeMismatch),
                                              rowVersion := r.rowVersion + 1))
  {}

  /** The worker of a resumed analysis goes on with the recorded checksum exactly while the session is
      analyzing. */
  lemma ResumedWorkGoesOnExactly(cfg: Config, s: State, call: nat)
    requires Reachable(cfg, s) && call in s.calls && s.calls[call].ResumeDue?
    ensures var t := CallStep(cfg, s, ReadResumed(call)); var id := s.calls[call].sid;
            id in s.world.rows && t.world == s.world
            && (call in t.calls <==> s.world.rows[id].status == Analyzing)
            && (call in t.calls ==> s.world.rows[id].verifiedSha256.Some?
                                    && t.calls[call] == WorkflowDue(id, s.world.rows[id].verifiedSha256.value))
  {
    ReachableInv(cfg, s);
    CallFact(cfg, s, call);
    hide Inv, Reachable;
  }

  /** Once the provider has answered, the object decides: read back, the completion ends; not read back, the
      session fails if the provider had reported success, and is given back otherwise. */
  lemma ReadingDecidesExactly(cfg: Config, s: State, call: nat, head: Option<Head>)
    requires call in s.calls && s.calls[call].CompletionAnswered? && s.calls[call].sid in s.world.rows
    ensures var id := s.calls[call].sid; var ref := s.world.rows[id].Ref();
            var stored := ref in s.world.uploads && s.world.uploads[ref] == Assembled;
            CallStep(cfg, s, ReadHead(call, head))
            == s.(calls := s.calls[call := if head.Some? && stored then HeadRead(id, head.value)
                                           else if s.calls[call].reported then CompletionFailDue(id)
                                           else RestoreDue(id)])
  {}

  /** The intent to delete a duplicate is committed exactly while the session is analyzing, with the answer
      it stands for. */
  lemma IntentIsCommittedExactly(w: World, id: SessionId, outcome: Outcome)
    ensures var (w', go) := IntentTx(w, id, outcome);
            go == (id in w.rows && w.rows[id].status == Analyzing)
            && w' == if go then Put(w, id, w.rows[id].(result := Some(outcome),
                                                       failureReason := Some(DuplicateCleanupPending),
                                                       rowVersion := w.rows[id].rowVersion + 1)) else w
  {}

  lemma ResultIsCommittedExactly(w: World, now: Time, id: SessionId, outcome: Outcome)
    ensures FinishTx(w, now, id, outcome)
         == if id in w.rows && w.rows[id].status == Analyzing
            then Put(w, id, w.rows[id].(status := Completed, result := Some(outcome), completedAt := Some(now),
                                        rowVersion := w.rows[id].rowVersion + 1)) else w
  {}

  /** The duplicate of a session may lose its source: the session stands for another match, the source is the
      session's own, and nothing is registered on it. */
  predicate Disposable(w: World, owner: OwnerId, f: Facts, result: Option<Outcome>) {
    result.Some? && result.value.Duplicate? && result.value.existing != f.analysisId
    && f.storageKey == SourceKey(owner, f.analysisId, f.suffix)
    && f.analysisId !in w.analyses && f.storageKey !in w.videos
  }

  /** A cleanup deletes exactly the disposable source of an own session whose intent is committed and that
      was not to be analyzed again; it then settles the session, and a second cleanup is idle. */
  lemma CleansUpExactly(w: World, now: Time, owner: OwnerId, id: SessionId, env: Provider)
    ensures var out := CleanupTx(w, now, owner, id, env);
            if !Mine(w, owner, id) then out == TxOut(w, Raised(NotFound))
            else
              var r := w.rows[id];
              if r.status == Completed then out == TxOut(w, Done(Completed))
              else if r.failureReason != Some(DuplicateCleanupPending) || r.facts.reanalyze
              then out == TxOut(w, Raised(NothingPending))
              else if !Disposable(w, owner, r.facts, r.result) then out == TxOut(w, Raised(CleanupNeedsReview))
              else if env.deletionFails then out == TxOut(w, Raised(StorageBackend))
              else out == TxOut(Put(w, id, r.(status := Completed, failureReason := None, completedAt := Some(now),
                                              rowVersion := r.rowVersion + 1))
                                .(deleted := w.deleted + {r.facts.storageKey}), Done(Completed))
    ensures var out := CleanupTx(w, now, owner, id, env);
            out.reply == Done(Completed) ==>
              CleanupTx(out.world, now, owner, id, env) == TxOut(out.world, Done(Completed))
  {}

  // ---------------------------------------------------------------- transactions as events

  /** A transaction that raises leaves every table as it was, and only the calls it made to the provider; one
      that answers is committed. No other call is touched. */
  predicate Settles(s: State, t: State, out: TxOut, calls: map<nat, Call>) {
    t == State(s.now, if out.reply.Raised? then s.world.(uploads := out.world.uploads, deleted := out.world.deleted)
                      else out.world, calls, s.sent)
  }

  lemma TransactionsSettle(cfg: Config, s: State, tx: Tx)
    requires cfg.partSize > 0
    ensures var t := Exec(cfg, s, tx);
            match tx
            case Initiate(req, id, env) => Settles(s, t, InitiateTx(cfg, s.world, s.now, req, id, env), s.calls)
            case Refresh(owner, id, env) => Settles(s, t, RefreshTx(s.world, s.now, owner, id, env), s.calls)
            case PartUrls(owner, id, numbers, env) =>
              Settles(s, t, PartUrlsTx(s.world, owner, id, numbers, env), s.calls)
            case Sweep(id, asOf, env) => asOf <= s.now ==> Settles(s, t, SweepTx(s.world, id, asOf, env), s.calls)
            case Cleanup(owner, id, env) => Settles(s, t, CleanupTx(s.world, s.now, owner, id, env), s.calls)
            case Release(call, env) =>
              call in s.calls && s.calls[call].CancelFenced? ==>
                Settles(s, t, ReleaseTx(s.world, s.now, s.calls[call].owner, s.calls[call].sid, env), s.calls - {call})
            case WorkerCleanup(call, env) =>
              call in s.calls && s.calls[call].CleanupDue? ==>
                var out := CleanupTx(s.world, s.now, s.calls[call].owner, s.calls[call].sid, env);
                Settles(s, t, out, if out.reply.Raised?
                                   then s.calls[call :=
                                     VerificationFailDue(s.calls[call].sid, WorkflowFailed("cleanup"))]
                                   else s.calls - {call})
            case _ => true
  {
    hide InitiateTx, RefreshTx, PartUrlsTx, SweepTx, CleanupTx, ReleaseTx;
  }

  /** The transaction is the next step of its call. */
  predicate IsNext(tx: Tx, c: Call) {
    match tx
    case FinishComplete(_) => c.HeadRead?
    case Restore(_) => c.RestoreDue?
    case FailCompletion(_) => c.CompletionFailDue?
    case RecordVerified(_) => c.Hashed?
    case CommitIntent(_) => c.WorkflowAnswered? && c.outcome.Duplicate?
    case CommitResult(_) => c.WorkflowAnswered? && c.outcome.Created?
    case FailVerification(_) => c.VerificationFailDue?
    case WorkerCleanup(_, _) => c.CleanupDue?
    case Release(_, _) => c.CancelFenced?
    case _ => false
  }

  predicate OfACall(tx: Tx) {
    tx.FinishComplete? || tx.Restore? || tx.FailCompletion? || tx.RecordVerified? || tx.CommitIntent?
    || tx.CommitResult? || tx.FailVerification? || tx.WorkerCleanup? || tx.Release?
  }

  /** A transaction that is not the next step of a call in flight does nothing; the next step of a call takes
      the call along: it ends it, except that a recorded checksum leads to the workflow and a committed intent
      to the cleanup. */
  lemma CallsTakeTheirNextStep(cfg: Config, s: State, tx: Tx)
    requires cfg.partSize > 0 && OfACall(tx)
    ensures var t := Exec(cfg, s, tx);
            if tx.call !in s.calls || !IsNext(tx, s.calls[tx.call]) then t == s
            else
              var c := s.calls[tx.call]; var rest := s.calls - {tx.call};
              match tx
              case FinishComplete(_) => t == State(s.now, FinishCompleteTx(s.world, c.sid, c.head).world, rest, s.sent)
              case Restore(_) => t == State(s.now, RestoreTx(s.world, c.sid).world, rest, s.sent)
              case FailCompletion(_) => t == State(s.now, FailTx(s.world, c.sid, HeadFailed), rest, s.sent)
              case FailVerification(_) => t == State(s.now, FailTx(s.world, c.sid, c.reason), rest, s.sent)
              case CommitResult(_) => t == State(s.now, FinishTx(s.world, s.now, c.sid, c.outcome), rest, s.sent)
              case RecordVerified(_) =>
                var (w, go) := RecordVerifiedTx(s.world, s.now, c.sid, c.checksum, c.size);
                t == State(s.now, w, if go then s.calls[tx.call := WorkflowDue(c.sid, c.checksum)] else rest, s.sent)
              case CommitIntent(_) =>
                var (w, go) := IntentTx(s.world, c.sid, c.outcome);
                t.now == s.now && t.world == w && t.sent == s.sent
                && (if !go then t.calls == rest
                    else c.sid in s.world.rows
                         && t.calls == s.calls[tx.call := CleanupDue(c.sid, s.world.rows[c.sid].facts.owner)])
              case _ => true
  {
    hide FinishCompleteTx, RestoreTx, FailTx, FinishTx, RecordVerifiedTx, CleanupTx, ReleaseTx;
  }

  /** The transactions that start a call do so exactly if they succeed under a new name; otherwise nothing moves. */
  lemma CallsStartExactly(cfg: Config, s: State, tx: Tx)
    requires cfg.partSize > 0
    ensures var t := Exec(cfg, s, tx);
            match tx
            case BeginComplete(owner, id, parts, call) =>
              var out := BeginCompleteTx(s.world, owner, id, parts);
              if call in s.calls || out.reply != Done(Completing) then t == s
              else id in out.world.rows
                   && t == State(s.now, out.world, s.calls[call := CompletionSent(id)],
                                 s.sent + {out.world.rows[id].Ref()})
            case Fence(owner, id, call) =>
              var out := FenceTx(s.world, s.now, owner, id);
              t == if call in s.calls || out.reply != Done(Expired) then s
                   else State(s.now, out.world, s.calls[call := CancelFenced(id, owner)], s.sent)
            case Lease(id, at, call) =>
              var taken := LeaseTx(cfg, s.world, id, at);
              if call in s.calls || at > s.now || taken == None then t == s
              else
                id in s.world.rows
                && t == State(s.now, taken.value,
                              s.calls[call := if s.world.rows[id].status == Analyzing
                                              then ResumeDue(id, s.world.rows[id].verifiedSha256) else HashDue(id)],
                              s.sent)
            case Sweep(id, asOf, env) => asOf > s.now ==> t == s
            case _ => true
  {}

  // ---------------------------------------------------------------- steps between transactions

  /** The event is what the call is waiting for. */
  predicate Awaits(c: Call, e: Event) {
    match e
    case AnswerCompletion(_, _, _) => c.CompletionSent?
    case ReadHead(_, _) => c.CompletionAnswered?
    case ReadResumed(_) => c.ResumeDue?
    case HashObject(_, _, _, _) => c.HashDue?
    case RunWorkflow(_, _, _) => c.WorkflowDue?
    case RaiseInside(_) =>
      c.ResumeDue? || c.HashDue? || c.Hashed? || c.WorkflowDue? || c.WorkflowAnswered? || c.CleanupDue?
    case _ => false
  }

  /** What happens around the service: time passes, a process dies, the provider carries out a completion late,
      and only one that was sent, and the deletion of a registered match is asked for. */
  lemma TheWorldGoesOn(cfg: Config, s: State, e: Event)
    requires cfg.partSize > 0 && (e.Tick? || e.Die? || e.LateAssembly? || e.RequestDeletion?)
    ensures var t := Apply(cfg, s, e); var w := s.world;
            match e
            case Tick(elapsed) => t == State(s.now + elapsed, w, s.calls, s.sent)
            case Die(call) => t == State(s.now, w, s.calls - {call}, s.sent)
            case LateAssembly(ref) =>
              var late := ref in s.sent && ref in w.uploads && w.uploads[ref] == Open;
              t == State(s.now, if late then w.(uploads := w.uploads[ref := Assembled]) else w, s.calls, s.sent)
            case RequestDeletion(a) =>
              t == State(s.now, if a in w.analyses then w.(analyses := w.analyses[a := DeletionPending]) else w,
                         s.calls, s.sent)
            case _ => true
  {}

  /** Every call in flight has its session. */
  lemma CallsHaveSessions(cfg: Config, s: State, call: nat)
    requires Reachable(cfg, s) && call in s.calls
    ensures s.calls[call].sid in s.world.rows
  {
    ReachableInv(cfg, s);
    CallFact(cfg, s, call);
    hide Inv, Reachable;
  }

  /** An event that no call awaits does nothing. */
  lemma StrayEventsDoNothing(cfg: Config, s: State, e: Event)
    requires e.AnswerCompletion? || e.ReadHead? || e.ReadResumed? || e.HashObject? || e.RunWorkflow? || e.RaiseInside?
    requires e.call !in s.calls || !Awaits(s.calls[e.call], e)
    ensures CallStep(cfg, s, e) == s
  {}

  /** An object comes to be exactly if the provider assembles an upload that is still open, and success is reported
      to a call only for an object that is there. */
  lemma AnswersArriveExactly(cfg: Config, s: State, call: nat, assembled: bool, reported: bool)
    requires call in s.calls && s.calls[call].CompletionSent? && s.calls[call].sid in s.world.rows
    ensures var id := s.calls[call].sid; var w := s.world; var ref := w.rows[id].Ref();
            var now_ := assembled && ref in w.uploads && w.uploads[ref] == Open;
            var stored := now_ || (ref in w.uploads && w.uploads[ref] == Assembled);
            CallStep(cfg, s, AnswerCompletion(call, assembled, reported))
            == State(s.now, if now_ then w.(uploads := w.uploads[ref := Assembled]) else w,
                     s.calls[call := CompletionAnswered(id, reported && stored)], s.sent)
  {}

  /** The workflow registers the match and its source exactly if it creates one, even if it then fails; a failure
      and an outcome lead to different steps. */
  lemma WorkflowsAnswerExactly(cfg: Config, s: State, call: nat, registers: bool, failure: Option<string>)
    requires call in s.calls && s.calls[call].WorkflowDue? && s.calls[call].sid in s.world.rows
    ensures var id := s.calls[call].sid; var w := s.world; var f := w.rows[id].facts;
            var made := registers && cfg.outcome(id) == Created;
            CallStep(cfg, s, RunWorkflow(call, registers, failure))
            == State(s.now, w.(analyses := if made && f.analysisId !in w.analyses
                                           then w.analyses[f.analysisId := Live] else w.analyses,
                               videos := if made then w.videos + {f.storageKey} else w.videos),
                     s.calls[call := if failure.Some? then VerificationFailDue(id, WorkflowFailed(failure.value))
                                     else WorkflowAnswered(id, cfg.outcome(id))], s.sent)
  {}

  /** Whatever a worker raises ends in the failure of its session, and a hashed object in what the hashes say. */
  lemma RaisesAndHashesExactly(cfg: Config, s: State, e: Event)
    requires e.RaiseInside? || e.HashObject?
    requires e.call in s.calls && Awaits(s.calls[e.call], e) && s.calls[e.call].sid in s.world.rows
    ensures var id := s.calls[e.call].sid;
            CallStep(cfg, s, e)
            == s.(calls := s.calls[e.call := if e.RaiseInside? then VerificationFailDue(id, FinalizationFailed)
                                             else HashedCall(id, s.world.rows[id], e.identity, e.sha256,
                                               e.stampedSize)])
  {
    hide HashedCall;
  }

  /** A process that dies inside a transaction leaves every table as it was; what it asked of the provider stays
      done, and its call is gone. */
  lemma DyingLeavesTheTables(cfg: Config, s: State, tx: Tx)
    requires cfg.partSize > 0
    ensures var t := Apply(cfg, s, DieInside(tx)); var done := Exec(cfg, s, tx);
            t.world == s.world.(uploads := done.world.uploads, deleted := done.world.deleted)
            && t.now == s.now && t.sent == s.sent
            && t.calls == if tx.Initiate? || tx.Refresh? || tx.PartUrls? || tx.Sweep? || tx.Cleanup? then s.calls
                          else s.calls - {tx.call}
  {
    hide Exec;
  }
}
