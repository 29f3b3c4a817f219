/** Every upload that is still unfinished can be completed: the steps that take it there, from any reachable
    state and whatever other calls are in flight. */
module UploadCompletion {
  import opened Common
  import opened UploadRows
  import opened UploadProtocol
  import opened UploadInvariant
  import opened UploadSteps
  import opened UploadTheorems
  import opened UploadAnswers

  /** The session has these facts, this status and this result of hashing; its upload is held, or assembled. */
  predicate Stands(s: State, id: SessionId, f: Facts, status: Status, sum: Option<Checksum>, phase: ProviderPhase) {
    id in s.world.rows && s.world.rows[id].facts == f && s.world.rows[id].status == status
    && (status == Analyzing ==> s.world.rows[id].verifiedSha256 == sum)
    && var ref := UploadRef(f.storageKey, f.uploadId); ref in s.world.uploads && s.world.uploads[ref] == phase
  }

  predicate Due(s: State, c: nat, call: Call) { c in s.calls && s.calls[c] == call }

  function AllParts(n: nat): seq<nat> { seq(n, i => i + 1) }

  function TrueHead(id: SessionId, f: Facts): Head {
    Head(f.declaredSize, Some(id), Some(f.declaredSize), f.contentType)
  }

  /** The owner claims the completion, the provider assembles the object, and it is read back. */
  function Assembling(id: SessionId, f: Facts, c: nat): seq<Event> {
    [Commit(BeginComplete(f.owner, id, AllParts(f.partCount), c)), AnswerCompletion(c, true, true),
     ReadHead(c, Some(TrueHead(id, f))), Commit(FinishComplete(c))]
  }

  /** A lease later a worker takes the session, hashes the object and records the checksum. */
  function Hashing(id: SessionId, f: Facts, c: nat, sum: Checksum, lease: nat, now: Time): seq<Event> {
    [Tick(lease), Commit(Lease(id, now + lease, c)), HashObject(c, f.fileIdentity, Some(sum), Some(f.declaredSize)),
     Commit(RecordVerified(c))]
  }

  /** It has the match created and settles the session. */
  function Closing(c: nat): seq<Event> { [RunWorkflow(c, true, None), Commit(CommitResult(c))] }

  lemma ClaimStep(cfg: Config, s: State, id: SessionId, f: Facts, status: Status, c: nat)
    requires cfg.partSize > 0 && Stands(s, id, f, status, None, Open) && c !in s.calls
    requires status == Initiated || status == Uploading
    ensures var t := Apply(cfg, s, Commit(BeginComplete(f.owner, id, AllParts(f.partCount), c)));
            Stands(t, id, f, Completing, None, Open) && Due(t, c, CompletionSent(id)) && t.now == s.now
  {
    CompletionBeginsExactly(s.world, f.owner, id, AllParts(f.partCount));
    hide BeginCompleteTx;
  }

  lemma AssembleStep(cfg: Config, s: State, id: SessionId, f: Facts, c: nat)
    requires cfg.partSize > 0 && Stands(s, id, f, Completing, None, Open) && Due(s, c, CompletionSent(id))
    ensures var t := Apply(cfg, s, AnswerCompletion(c, true, true));
            Stands(t, id, f, Completing, None, Assembled) && Due(t, c, CompletionAnswered(id, true)) && t.now == s.now
  {}

  lemma HeadStep(cfg: Config, s: State, id: SessionId, f: Facts, c: nat)
    requires cfg.partSize > 0 && Stands(s, id, f, Completing, None, Assembled)
    requires Due(s, c, CompletionAnswered(id, true))
    ensures var t := Apply(cfg, s, ReadHead(c, Some(TrueHead(id, f))));
            Stands(t, id, f, Completing, None, Assembled) && Due(t, c, HeadRead(id, TrueHead(id, f))) && t.now == s.now
  {}

  lemma EndStep(cfg: Config, s: State, id: SessionId, f: Facts, c: nat)
    requires cfg.partSize > 0 && Stands(s, id, f, Completing, None, Assembled)
    requires Due(s, c, HeadRead(id, TrueHead(id, f)))
    ensures var t := Apply(cfg, s, Commit(FinishComplete(c)));
            Stands(t, id, f, Verifying, None, Assembled) && c !in t.calls && t.now == s.now
  {}

  lemma TimeStep(cfg: Config, s: State, id: SessionId, f: Facts, c: nat)
    requires cfg.partSize > 0 && Reachable(cfg, s) && Stands(s, id, f, Verifying, None, Assembled) && c !in s.calls
    ensures var t := Apply(cfg, s, Tick(cfg.lease));
            Stands(t, id, f, Verifying, None, Assembled) && c !in t.calls && t.now == s.now + cfg.lease
            && LeaseOver(cfg, t, id)
  {
    ReachableInv(cfg, s);
    RowFact(cfg, s, id);
    hide Inv, Reachable;
  }

  predicate LeaseOver(cfg: Config, s: State, id: SessionId) {
    id in s.world.rows
    && (s.world.rows[id].verificationStartedAt.Some? ==>
          s.world.rows[id].verificationStartedAt.value + cfg.lease <= s.now)
  }

  lemma LeaseStep(cfg: Config, s: State, id: SessionId, f: Facts, c: nat)
    requires cfg.partSize > 0 && Stands(s, id, f, Verifying, None, Assembled) && c !in s.calls
    requires LeaseOver(cfg, s, id)
    ensures var t := Apply(cfg, s, Commit(Lease(id, s.now, c)));
            Stands(t, id, f, Verifying, None, Assembled) && Due(t, c, HashDue(id)) && t.now == s.now
  {
    LeaseIsTakenExactly(cfg, s.world, id, s.now);
    hide LeaseTx;
  }

  lemma HashStep(cfg: Config, s: State, id: SessionId, f: Facts, c: nat, sum: Checksum)
    requires cfg.partSize > 0 && Stands(s, id, f, Verifying, None, Assembled) && Due(s, c, HashDue(id))
    requires f.expectedSha256 == None || f.expectedSha256 == Some(sum)
    ensures var t := Apply(cfg, s, HashObject(c, f.fileIdentity, Some(sum), Some(f.declaredSize)));
            Stands(t, id, f, Verifying, None, Assembled) && Due(t, c, Hashed(id, sum, f.declaredSize)) && t.now == s.now
  {}

  lemma RecordStep(cfg: Config, s: State, id: SessionId, f: Facts, c: nat, sum: Checksum)
    requires cfg.partSize > 0 && Stands(s, id, f, Verifying, None, Assembled)
    requires Due(s, c, Hashed(id, sum, f.declaredSize))
    ensures var t := Apply(cfg, s, Commit(RecordVerified(c)));
            Stands(t, id, f, Analyzing, Some(sum), Assembled) && Due(t, c, WorkflowDue(id, sum))
  {}

  lemma WorkflowStep(cfg: Config, s: State, id: SessionId, f: Facts, c: nat, sum: Checksum)
    requires cfg.partSize > 0 && Stands(s, id, f, Analyzing, Some(sum), Assembled) && Due(s, c, WorkflowDue(id, sum))
    requires cfg.outcome(id) == Created
    ensures var t := Apply(cfg, s, RunWorkflow(c, true, None));
            Stands(t, id, f, Analyzing, Some(sum), Assembled) && Due(t, c, WorkflowAnswered(id, Created))
            && f.storageKey in t.world.videos && f.analysisId in t.world.analyses
  {}

  /** The upload is done: completed with the checksum, its object stored, its match registered on it. */
  predicate Finished(s: State, id: SessionId, f: Facts, sum: Checksum) {
    Stands(s, id, f, Completed, None, Assembled) && s.world.rows[id].result == Some(Created)
    && s.world.rows[id].verifiedSha256 == Some(sum) && f.storageKey in s.world.videos
    && f.analysisId in s.world.analyses
  }

  lemma ResultStep(cfg: Config, s: State, id: SessionId, f: Facts, c: nat, sum: Checksum)
    requires cfg.partSize > 0 && Stands(s, id, f, Analyzing, Some(sum), Assembled)
    requires Due(s, c, WorkflowAnswered(id, Created)) && f.storageKey in s.world.videos
    requires f.analysisId in s.world.analyses
    ensures Finished(Apply(cfg, s, Commit(CommitResult(c))), id, f, sum)
  {}

  lemma RunUnfolds(cfg: Config, s: State, e: Event, rest: seq<Event>)
    requires cfg.partSize > 0
    ensures Run(cfg, s, [e] + rest) == Run(cfg, Apply(cfg, s, e), rest)
  {
    assert ([e] + rest)[1..] == rest;
    hide Apply;
  }

  lemma UpToVerifying(cfg: Config, s: State, id: SessionId, f: Facts, status: Status, c: nat, rest: seq<Event>)
    returns (t: State)
    requires cfg.partSize > 0 && Stands(s, id, f, status, None, Open) && c !in s.calls && Reachable(cfg, s)
    requires status == Initiated || status == Uploading
    ensures Run(cfg, s, Assembling(id, f, c) + rest) == Run(cfg, t, rest)
    ensures Reachable(cfg, t) && Stands(t, id, f, Verifying, None, Assembled) && c !in t.calls && t.now == s.now
  {
    var e1 := Commit(BeginComplete(f.owner, id, AllParts(f.partCount), c)); var e2 := AnswerCompletion(c, true, true);
    var e3 := ReadHead(c, Some(TrueHead(id, f))); var e4 := Commit(FinishComplete(c));
    assert Assembling(id, f, c) == [e1, e2, e3, e4];
    hide *;
    ClaimStep(cfg, s, id, f, status, c);
    var s1 := Apply(cfg, s, e1);
    AssembleStep(cfg, s1, id, f, c);
    var s2 := Apply(cfg, s1, e2);
    HeadStep(cfg, s2, id, f, c);
    var s3 := Apply(cfg, s2, e3);
    EndStep(cfg, s3, id, f, c);
    t := Apply(cfg, s3, e4);
    NextReachable(cfg, s, e1);
    NextReachable(cfg, s1, e2);
    NextReachable(cfg, s2, e3);
    NextReachable(cfg, s3, e4);
    RunFour(cfg, s, e1, e2, e3, e4, rest);
  }

  lemma RunFour(cfg: Config, s: State, e1: Event, e2: Event, e3: Event, e4: Event, rest: seq<Event>)
    requires cfg.partSize > 0
    ensures Run(cfg, s, [e1, e2, e3, e4] + rest)
         == Run(cfg, Apply(cfg, Apply(cfg, Apply(cfg, Apply(cfg, s, e1), e2), e3), e4), rest)
  {
    hide *;
    var s1 := Apply(cfg, s, e1); var s2 := Apply(cfg, s1, e2); var s3 := Apply(cfg, s2, e3);
    assert [e1, e2, e3, e4] + rest == [e1] + ([e2] + ([e3] + ([e4] + rest)));
    RunUnfolds(cfg, s, e1, [e2] + ([e3] + ([e4] + rest)));
    RunUnfolds(cfg, s1, e2, [e3] + ([e4] + rest));
    RunUnfolds(cfg, s2, e3, [e4] + rest);
    RunUnfolds(cfg, s3, e4, rest);
  }

  lemma UpToHashed(cfg: Config, s: State, id: SessionId, f: Facts, c: nat, sum: Checksum, rest: seq<Event>)
    returns (t: State)
    requires cfg.partSize > 0 && Reachable(cfg, s) && Stands(s, id, f, Verifying, None, Assembled) && c !in s.calls
    requires f.expectedSha256 == None || f.expectedSha256 == Some(sum)
    ensures Run(cfg, s, Hashing(id, f, c, sum, cfg.lease, s.now) + rest) == Run(cfg, t, rest)
    ensures Stands(t, id, f, Analyzing, Some(sum), Assembled) && Due(t, c, WorkflowDue(id, sum))
  {
    var e1 := Tick(cfg.lease); var e2 := Commit(Lease(id, s.now + cfg.lease, c));
    var e3 := HashObject(c, f.fileIdentity, Some(sum), Some(f.declaredSize)); var e4 := Commit(RecordVerified(c));
    assert Hashing(id, f, c, sum, cfg.lease, s.now) == [e1, e2, e3, e4];
    var s1 := Apply(cfg, s, e1);
    hide *;
    TimeStep(cfg, s, id, f, c);
    LeaseStep(cfg, s1, id, f, c);
    var s2 := Apply(cfg, s1, e2);
    HashStep(cfg, s2, id, f, c, sum);
    var s3 := Apply(cfg, s2, e3);
    RecordStep(cfg, s3, id, f, c, sum);
    t := Apply(cfg, s3, e4);
    RunFour(cfg, s, e1, e2, e3, e4, rest);
  }

  lemma UpToFinished(cfg: Config, s: State, id: SessionId, f: Facts, c: nat, sum: Checksum)
    requires cfg.partSize > 0 && Stands(s, id, f, Analyzing, Some(sum), Assembled) && Due(s, c, WorkflowDue(id, sum))
    requires cfg.outcome(id) == Created
    ensures Finished(Run(cfg, s, Closing(c)), id, f, sum)
  {
    var e1 := RunWorkflow(c, true, None); var e2 := Commit(CommitResult(c));
    var s1 := Apply(cfg, s, e1);
    assert [e1] + ([e2] + []) == Closing(c);
    assert Run(cfg, Apply(cfg, s1, e2), []) == Apply(cfg, s1, e2);
    hide *;
    WorkflowStep(cfg, s, id, f, c, sum);
    ResultStep(cfg, s1, id, f, c, sum);
    RunUnfolds(cfg, s, e1, [e2] + []);
    RunUnfolds(cfg, s1, e2, []);
  }

  /** From every reachable state, an unfinished session whose upload the provider still holds can be completed,
      with any checksum that agrees with the announced one, although its time may be up: only a sweep, a reader
      or an admission turns an overdue session away. */
  lemma UnfinishedUploadsCanComplete(cfg: Config, s: State, id: SessionId, c: nat, sum: Checksum)
    requires Reachable(cfg, s) && cfg.partSize > 0 && id in s.world.rows && c !in s.calls
    requires var r := s.world.rows[id];
             (r.status == Initiated || r.status == Uploading) && HeldOpen(s.world.uploads, r.Ref())
             && (r.facts.expectedSha256 == None || r.facts.expectedSha256 == Some(sum))
    requires cfg.outcome(id) == Created
    ensures var f := s.world.rows[id].facts;
            Finished(Run(cfg, s, Assembling(id, f, c) + (Hashing(id, f, c, sum, cfg.lease, s.now) + Closing(c))), id, f,
                     sum)
  {
    var f := s.world.rows[id].facts; var status := s.world.rows[id].status;
    assert Stands(s, id, f, status, None, Open);
    hide *;
    var s1 := UpToVerifying(cfg, s, id, f, status, c, Hashing(id, f, c, sum, cfg.lease, s.now) + Closing(c));
    var s2 := UpToHashed(cfg, s1, id, f, c, sum, Closing(c));
    UpToFinished(cfg, s2, id, f, c, sum);
  }
}
