/**
 The publication protocol (tools/publication.py): compile, stage, verify, activate, record. What the rest of the world
 answers is the `Script` of one publish; any of it may be a failure. The file store keeps immutable manifests and
 artifacts beside `active.json`, the last known good.
 */
module Publication {
  import opened Common
  import opened ControlPlane

  datatype Status = Compiled | Failed | Applying | RolledBack | Verified | Active

  /** The verification record: the checks that held, and what else failed. */
  datatype Verification = Verification(passed: set<Check>, failedStep: Option<string>)

  datatype Manifest = Manifest(
    publicationId: string, environment: string, sourceRevision: string, artifactHash: string, status: Status,
    createdAt: Time, activatedAt: Option<Time>, verification: Option<Verification>,
    previous: Option<string>, revision: Option<Revision>)

  datatype Store = Store(manifests: map<string, Manifest>, artifacts: map<string, Artifact>, active: Option<Manifest>)

  datatype Request = Request(publicationId: string, environment: string, sourceRevision: string)

  /**
   What happens around one publish: the compiler's result (None if validation, governance or compilation fails), the
   port's answers in the order they are asked for, how many file writes succeed, and the two clock readings.
   */
  datatype Script = Script(
    compiled: Option<Artifact>, healthy: Option<bool>,
    put: WriteReply, stageRead: ReadReply<Option<Artifact>>, verifyRead: ReadReply<Option<Artifact>>, probe: Option<set<Check>>,
    activate: WriteReply, activeRead: ReadReply<Option<Revision>>,
    rollbackRead: ReadReply<Option<Revision>>, delete: WriteReply,
    disk: nat, createdAt: Time, activatedAt: Time)

  datatype PublicationError = UnsafeId | ManifestImmutable | CompileFailed | HashCollision | DiskFailed | RollbackFailed

  type Outcome = Result<Manifest, PublicationError>

  // ---------------------------------------------------------------- publication ids

  predicate AlphaNumeric(c: char) {
    'A' <= c <= 'Z' || 'a' <= c <= 'z' || '0' <= c <= '9'
  }

  predicate SafeId(id: string) {
    && 1 <= |id| <= 128 && AlphaNumeric(id[0])
    && forall i | 1 <= i < |id| :: AlphaNumeric(id[i]) || id[i] in {'.', '_', '-'}
  }

  // ---------------------------------------------------------------- the file store

  /** `record`: artifact, then manifest, then `active.json`; each is one atomic write, and the disk may fail at any. */
  function Record(st: Store, m: Manifest, artifact: Artifact, activate: bool, disk: nat): (Store, Option<PublicationError>) {
    if m.publicationId in st.manifests then (st, Some(ManifestImmutable))
    else if m.artifactHash in st.artifacts && st.artifacts[m.artifactHash] != artifact then (st, Some(HashCollision))
    else
      var isNew := m.artifactHash !in st.artifacts;
      if isNew && disk == 0 then (st, Some(DiskFailed))
      else
        var st1 := if isNew then st.(artifacts := st.artifacts[m.artifactHash := artifact]) else st;
        var left: int := if isNew then disk - 1 else disk;
        if left == 0 then (st1, Some(DiskFailed))
        else
          var st2 := st1.(manifests := st1.manifests[m.publicationId := m]);
          if !activate then (st2, None)
          else if left == 1 then (st2, Some(DiskFailed))
          else (st2.(active := Some(m)), None)
  }

  // ---------------------------------------------------------------- one publish

  function Recorded(st: Store, p: Plane, m: Manifest, artifact: Artifact, activate: bool, disk: nat): (Store, Plane, Outcome) {
    var (st', e) := Record(st, m, artifact, activate, disk);
    (st', p, if e.Some? then Err(e.value) else Ok(m))
  }

  /** Dispose of the staged revision, then record; a rollback that raises leaves nothing recorded. */
  function Undo(st: Store, p: Plane, m: Manifest, artifact: Artifact, s: Script): (Store, Plane, Outcome)
    requires m.revision.Some?
  {
    var (p', ok) := Rollback(p, m.revision.value, s.rollbackRead, s.delete);
    if !ok then (st, p', Err(RollbackFailed)) else Recorded(st, p', m, artifact, false, s.disk)
  }

  /** From a staged revision: verify, activate, record. */
  function Advance(st: Store, p: Plane, m: Manifest, artifact: Artifact, revision: Revision, s: Script): (Store, Plane, Outcome) {
    var checks := Verify(p, revision, artifact, s.verifyRead, s.probe);
    var record := if checks.None? then Verification({}, Some("verification")) else Verification(checks.value, None);
    var m1 := m.(status := Applying, revision := Some(revision), verification := Some(record));
    if !(REQUIRED_CHECKS <= record.passed) then Undo(st, p, m1.(status := RolledBack), artifact, s)
    else
      var (p', ok) := Activate(p, revision, s.activate, s.activeRead);
      if !ok then
        Undo(st, p', m1.(status := RolledBack, verification := Some(record.(failedStep := Some("activation")))), artifact, s)
      else Recorded(st, p', m1.(status := Active, activatedAt := Some(s.activatedAt)), artifact, true, s.disk)
  }

  function Drafted(st: Store, req: Request, artifact: Artifact, s: Script): Manifest {
    Manifest(req.publicationId, req.environment, req.sourceRevision, artifact.configurationHash, Compiled, s.createdAt, None, None,
             if st.active.Some? then Some(st.active.value.publicationId) else None, None)
  }

  function Publish(st: Store, p: Plane, req: Request, s: Script): (Store, Plane, Outcome) {
    if !SafeId(req.publicationId) then (st, p, Err(UnsafeId))
    else if req.publicationId in st.manifests then (st, p, Err(ManifestImmutable))
    else if s.compiled.None? then (st, p, Err(CompileFailed))
    else
      var artifact := s.compiled.value;
      var m := Drafted(st, req, artifact, s);
      if s.healthy != Some(true) then
        Recorded(st, p, m.(status := Failed, verification := Some(Verification({}, Some("health")))), artifact, false, s.disk)
      else
        var (p', staged) := Stage(p, artifact, s.put, s.stageRead);
        if staged.None? then
          Recorded(st, p', m.(status := Failed, verification := Some(Verification({}, Some("stage")))), artifact, false, s.disk)
        else Advance(st, p', m, artifact, staged.value, s)
  }

  // ---------------------------------------------------------------- how one publish ends

  /** ASCII letters and digits, by code point. */
  predicate LetterOrDigit(c: char) {
    48 <= c as int <= 57 || 65 <= c as int <= 90 || 97 <= c as int <= 122
  }

  /** A publication id: up to 128 letters, digits, dots, underscores and hyphens, the first a letter or a digit. */
  lemma SafeIdOutcome(id: string)
    ensures SafeId(id) <==>
              && 1 <= |id| <= 128 && LetterOrDigit(id[0])
              && forall i | 1 <= i < |id| :: LetterOrDigit(id[i]) || id[i] as int == 46 || id[i] as int == 95 || id[i] as int == 45
  {
    forall c: char ensures AlphaNumeric(c) <==> LetterOrDigit(c) {
      assert 'A' as int == 65 && 'Z' as int == 90 && 'a' as int == 97 && 'z' as int == 122 && '0' as int == 48 && '9' as int == 57;
    }
    assert '.' as int == 46 && '_' as int == 95 && '-' as int == 45;
    hide AlphaNumeric, LetterOrDigit;
  }

  /** The files a record must write: the artifact if it is new, the manifest, and the active manifest if it is to be named. */
  function FilesNeeded(st: Store, m: Manifest, activate: bool): nat {
    (if m.artifactHash in st.artifacts then 0 else 1) + 1 + if activate then 1 else 0
  }

  /** A record succeeds if and only if the id is new, the hash is that artifact's, and the disk takes all the files. */
  lemma RecordOutcome(st: Store, m: Manifest, artifact: Artifact, activate: bool, disk: nat)
    ensures
      var (st', e) := Record(st, m, artifact, activate, disk);
      var taken := m.publicationId in st.manifests;
      var collides := m.artifactHash in st.artifacts && st.artifacts[m.artifactHash] != artifact;
      && (e == Some(ManifestImmutable) <==> taken)
      && (e == Some(HashCollision) <==> !taken && collides)
      && (e == Some(DiskFailed) <==> !taken && !collides && disk < FilesNeeded(st, m, activate))
      && (e.None? <==> !taken && !collides && disk >= FilesNeeded(st, m, activate))
      && (e.None? ==>
            && st'.manifests == st.manifests[m.publicationId := m] && st'.artifacts == st.artifacts[m.artifactHash := artifact]
            && st'.active == if activate then Some(m) else st.active)
      && (taken || collides ==> st' == st)
  {
  }

  /** The manifest of a publish, whatever its end: its request, its artifact, when it began, and what was active then. */
  ghost predicate Describes(m: Manifest, st: Store, req: Request, artifact: Artifact, s: Script) {
    && m.publicationId == req.publicationId && m.environment == req.environment && m.sourceRevision == req.sourceRevision
    && m.artifactHash == artifact.configurationHash && m.createdAt == s.createdAt
    && m.previous == (if st.active.Some? then Some(st.active.value.publicationId) else None)
  }

  /** The end of a publish: what it asked to record, in which state of the plane, or that it recorded nothing. */
  datatype End = Refused(error: PublicationError) | Recording(m: Manifest, activate: bool)

  /** What becomes of a staged revision: verified and active, or disposed of, with the checks that were made. */
  ghost predicate StagedEnds(p: Plane, p2: Plane, st: Store, req: Request, artifact: Artifact, s: Script, end: End) {
    var revision := Digest(artifact);
    var checks := Verify(p, revision, artifact, s.verifyRead, s.probe);
    var all := checks.Some? && {Health, RouteBinding, AuthorizationNegativePath, UpstreamReachability, Convergence} <= checks.value;
    var (pa, activated) := Activate(p, revision, s.activate, s.activeRead);
    var (pu, undone) := Rollback(if all then pa else p, revision, s.rollbackRead, s.delete);
    if all && activated then
      && p2 == pa && end.Recording? && end.activate && Describes(end.m, st, req, artifact, s)
      && end.m.status == Active && end.m.activatedAt == Some(s.activatedAt) && end.m.revision == Some(revision)
      && end.m.verification == Some(Verification(checks.value, None))
    else if !undone then p2 == pu && end == Refused(RollbackFailed)
    else
      && p2 == pu && end.Recording? && !end.activate && Describes(end.m, st, req, artifact, s)
      && end.m.status == RolledBack && end.m.activatedAt.None? && end.m.revision == Some(revision)
      && end.m.verification == Some(if checks.None? then Verification({}, Some("verification"))
                                    else Verification(checks.value, if all then Some("activation") else None))
  }

  /** How a publish ends before its record: one condition after the other, and the manifest it then records. */
  ghost predicate Ends(st: Store, p: Plane, p2: Plane, req: Request, s: Script, end: End) {
    if !SafeId(req.publicationId) then p2 == p && end == Refused(UnsafeId)
    else if req.publicationId in st.manifests then p2 == p && end == Refused(ManifestImmutable)
    else if s.compiled.None? then p2 == p && end == Refused(CompileFailed)
    else
      var artifact := s.compiled.value;
      var (ps, staged) := Stage(p, artifact, s.put, s.stageRead);
      if s.healthy == Some(true) && staged.Some? then StagedEnds(ps, p2, st, req, artifact, s, end)
      else
        && p2 == (if s.healthy == Some(true) then ps else p) && end.Recording? && !end.activate && Describes(end.m, st, req, artifact, s)
        && end.m.status == Failed && end.m.activatedAt.None? && end.m.revision.None?
        && end.m.verification == Some(Verification({}, Some(if s.healthy == Some(true) then "stage" else "health")))
  }

  /** What is then returned and stored. */
  ghost predicate Concludes(st: Store, st': Store, end: End, artifact: Option<Artifact>, disk: nat, outcome: Outcome) {
    match end
    case Refused(e) => st' == st && outcome == Err(e)
    case Recording(m, activate) =>
      && artifact.Some?
      && var (after, e) := Record(st, m, artifact.value, activate, disk);
      st' == after && outcome == if e.Some? then Err(e.value) else Ok(m)
  }

  lemma StagedOutcome(st: Store, p: Plane, req: Request, artifact: Artifact, s: Script) returns (end: End)
    ensures
      var (st', p', outcome) := Advance(st, p, Drafted(st, req, artifact, s), artifact, Digest(artifact), s);
      StagedEnds(p, p', st, req, artifact, s, end) && Concludes(st, st', end, Some(artifact), s.disk, outcome)
  {
    hide Record, Verify, Activate, Rollback;
    var revision, m := Digest(artifact), Drafted(st, req, artifact, s);
    var checks := Verify(p, revision, artifact, s.verifyRead, s.probe);
    var record := if checks.None? then Verification({}, Some("verification")) else Verification(checks.value, None);
    var m1 := m.(status := Applying, revision := Some(revision), verification := Some(record));
    var all := REQUIRED_CHECKS <= record.passed;
    var (pa, activated) := Activate(p, revision, s.activate, s.activeRead);
    var (pu, undone) := Rollback(if all then pa else p, revision, s.rollbackRead, s.delete);
    end := if all && activated then Recording(m1.(status := Active, activatedAt := Some(s.activatedAt)), true)
           else if !undone then Refused(RollbackFailed)
           else Recording(m1.(status := RolledBack,
                              verification := Some(if all then record.(failedStep := Some("activation")) else record)), false);
  }

  /** Every publish ends as its conditions say, records exactly the manifest that says so, and returns it if it could. */
  lemma PublishOutcome(st: Store, p: Plane, req: Request, s: Script) returns (end: End)
    ensures
      var (st', p', outcome) := Publish(st, p, req, s);
      Ends(st, p, p', req, s, end) && Concludes(st, st', end, s.compiled, s.disk, outcome)
  {
    hide SafeId, Record, Advance, StagedEnds;
    if !SafeId(req.publicationId) {
      end := Refused(UnsafeId);
    } else if req.publicationId in st.manifests {
      end := Refused(ManifestImmutable);
    } else if s.compiled.None? {
      end := Refused(CompileFailed);
    } else {
      var artifact := s.compiled.value;
      var (ps, staged) := Stage(p, artifact, s.put, s.stageRead);
      if s.healthy == Some(true) && staged.Some? {
        end := StagedOutcome(st, ps, req, artifact, s);
      } else {
        var step := if s.healthy == Some(true) then "stage" else "health";
        end := Recording(Drafted(st, req, artifact, s).(status := Failed, verification := Some(Verification({}, Some(step)))), false);
      }
    }
  }

  /** A publisher's life: any number of publishes, each with whatever the world did. */
  function Publishes(st: Store, p: Plane, runs: seq<(Request, Script)>): (Store, Plane)
    decreases |runs|
  {
    if runs == [] then (st, p) else
      var n := |runs| - 1;
      var (st1, p1) := Publishes(st, p, runs[..n]);
      var (st2, p2, _) := Publish(st1, p1, runs[n].0, runs[n].1);
      (st2, p2)
  }

  // ---------------------------------------------------------------- last known good

  /** `active.json` names a manifest that was activated after all five checks passed. */
  ghost predicate ActiveIsGood(st: Store) {
    st.active.Some? ==>
      var m := st.active.value;
      && m.status == Active && m.activatedAt.Some? && m.revision.Some?
      && m.verification.Some? && REQUIRED_CHECKS <= m.verification.value.passed && m.verification.value.failedStep.None?
      && m.publicationId in st.manifests && st.manifests[m.publicationId] == m
      && m.artifactHash in st.artifacts && m.revision.value == RevisionFor(st.artifacts[m.artifactHash])
  }

  ghost predicate Extends<K, V>(m: map<K, V>, m': map<K, V>) {
    forall k | k in m :: k in m' && m'[k] == m[k]
  }

  /** What any end of a publish may have done to the store. */
  ghost predicate KeepsLastKnownGood(st: Store, st': Store, outcome: Outcome) {
    && ActiveIsGood(st') && Extends(st.manifests, st'.manifests) && Extends(st.artifacts, st'.artifacts)
    && (if outcome.Ok? && outcome.value.status == Active then st'.active == Some(outcome.value) else st'.active == st.active)
  }

  /** A manifest fit to be named by `active.json`. */
  ghost predicate FitToActivate(m: Manifest, artifact: Artifact) {
    && m.status == Active && m.activatedAt.Some? && m.revision == Some(RevisionFor(artifact))
    && m.artifactHash == artifact.configurationHash
    && m.verification.Some? && REQUIRED_CHECKS <= m.verification.value.passed && m.verification.value.failedStep.None?
  }

  lemma RecordedIsGood(st: Store, p: Plane, m: Manifest, artifact: Artifact, activate: bool, disk: nat)
    requires ActiveIsGood(st)
    requires if activate then FitToActivate(m, artifact) else m.status != Active
    ensures var (st', p', outcome) := Recorded(st, p, m, artifact, activate, disk); KeepsLastKnownGood(st, st', outcome)
  {
  }

  lemma UndoIsGood(st: Store, p: Plane, m: Manifest, artifact: Artifact, s: Script)
    requires ActiveIsGood(st) && m.revision.Some? && m.status != Active
    ensures var (st', p', outcome) := Undo(st, p, m, artifact, s); KeepsLastKnownGood(st, st', outcome)
  {
    hide Recorded, Rollback, ActiveIsGood;
    var (p', ok) := Rollback(p, m.revision.value, s.rollbackRead, s.delete);
    if ok { RecordedIsGood(st, p', m, artifact, false, s.disk); }
  }

  lemma AdvanceIsGood(st: Store, p: Plane, m: Manifest, artifact: Artifact, revision: Revision, s: Script)
    requires ActiveIsGood(st) && revision == RevisionFor(artifact) && m.artifactHash == artifact.configurationHash
    ensures var (st', p', outcome) := Advance(st, p, m, artifact, revision, s); KeepsLastKnownGood(st, st', outcome)
  {
    var checks := Verify(p, revision, artifact, s.verifyRead, s.probe);
    var record := if checks.None? then Verification({}, Some("verification")) else Verification(checks.value, None);
    var m1 := m.(status := Applying, revision := Some(revision), verification := Some(record));
    var (p', ok) := Activate(p, revision, s.activate, s.activeRead);
    hide Undo, Recorded, Verify, Activate, ActiveIsGood, KeepsLastKnownGood;
    if !(REQUIRED_CHECKS <= record.passed) {
      UndoIsGood(st, p, m1.(status := RolledBack), artifact, s);
    } else if !ok {
      UndoIsGood(st, p', m1.(status := RolledBack, verification := Some(record.(failedStep := Some("activation")))), artifact, s);
    } else {
      RecordedIsGood(st, p', m1.(status := Active, activatedAt := Some(s.activatedAt)), artifact, true, s.disk);
    }
  }

  /**
   One publish, whatever fails: files already written stay as they are; `active.json` changes only when the publish
   returns an ACTIVE manifest, which is then the manifest it names; and every failure leaves it alone.
   */
  lemma PublishKeepsLastKnownGood(st: Store, p: Plane, req: Request, s: Script)
    requires ActiveIsGood(st)
    ensures
      var (st', p', outcome) := Publish(st, p, req, s);
      && ActiveIsGood(st') && Extends(st.manifests, st'.manifests) && Extends(st.artifacts, st'.artifacts)
      && (if outcome.Ok? && outcome.value.status == Active then st'.active == Some(outcome.value) else st'.active == st.active)
  {
    hide Recorded, Advance, ActiveIsGood, Stage;
    if s.compiled.Some? {
      var artifact := s.compiled.value;
      var m := Drafted(st, req, artifact, s);
      var (p', staged) := Stage(p, artifact, s.put, s.stageRead);
      StageNames(p, artifact, s);
      RecordedIsGood(st, p, m.(status := Failed, verification := Some(Verification({}, Some("health")))), artifact, false, s.disk);
      RecordedIsGood(st, p', m.(status := Failed, verification := Some(Verification({}, Some("stage")))), artifact, false, s.disk);
      if staged.Some? { AdvanceIsGood(st, p', m, artifact, staged.value, s); }
    }
  }

  lemma StageNames(p: Plane, artifact: Artifact, s: Script)
    ensures
      var (p', staged) := Stage(p, artifact, s.put, s.stageRead);
      staged.Some? ==> staged.value == RevisionFor(artifact)
  {
  }

  lemma {:induction false} LastKnownGood(st: Store, p: Plane, runs: seq<(Request, Script)>)
    requires ActiveIsGood(st)
    ensures ActiveIsGood(Publishes(st, p, runs).0)
    ensures Extends(st.manifests, Publishes(st, p, runs).0.manifests)
    ensures Extends(st.artifacts, Publishes(st, p, runs).0.artifacts)
    decreases |runs|
  {
    if runs != [] {
      hide Publish, ActiveIsGood;
      var n := |runs| - 1;
      LastKnownGood(st, p, runs[..n]);
      var (st1, p1) := Publishes(st, p, runs[..n]);
      PublishKeepsLastKnownGood(st1, p1, runs[n].0, runs[n].1);
    }
  }

  // ---------------------------------------------------------------- agreement with the plane

  function NamedRevision(st: Store): Option<Revision> {
    if st.active.Some? then st.active.value.revision else None
  }

  ghost predicate Agree(st: Store, p: Plane) {
    NamedRevision(st) == p.active
  }

  /** The port reads its own writes. */
  ghost predicate ReadsOwnWrites(s: Script) {
    s.stageRead.Truthful? && s.verifyRead.Truthful? && s.activeRead.Truthful? && s.rollbackRead.Truthful?
  }

  /** The publish gets as far as asking the plane to activate. */
  ghost predicate ReachesActivation(st: Store, p: Plane, req: Request, s: Script) {
    && SafeId(req.publicationId) && req.publicationId !in st.manifests && s.compiled.Some? && s.healthy == Some(true)
    && !s.put.raises && (s.put.takesEffect || RevisionFor(s.compiled.value) in p.stored)
    && s.probe.Some? && REQUIRED_CHECKS <= s.probe.value
  }

  /** The files an ACTIVE publish must write can be written: one more if the artifact is new, and no hash collides. */
  ghost predicate CanRecord(st: Store, s: Script)
    requires s.compiled.Some?
  {
    var h := s.compiled.value.configurationHash;
    if h in st.artifacts then st.artifacts[h] == s.compiled.value && s.disk >= 2 else s.disk >= 3
  }

  ghost predicate ActiveAfter(st: Store, st': Store, p: Plane, p': Plane, artifact: Artifact, s: Script)
    requires s.compiled == Some(artifact)
  {
    var revision := RevisionFor(artifact);
    && p'.active == (if s.activate.takesEffect then Some(revision) else p.active)
    && (if !s.activate.raises && p'.active == Some(revision) && CanRecord(st, s)
        then NamedRevision(st') == Some(revision) else st'.active == st.active)
  }

  lemma RecordedNames(st: Store, p: Plane, m: Manifest, artifact: Artifact, activate: bool, s: Script)
    requires s.compiled == Some(artifact) && m.artifactHash == artifact.configurationHash && m.publicationId !in st.manifests
    ensures
      var (st', p', outcome) := Recorded(st, p, m, artifact, activate, s.disk);
      && p' == p && st'.active == if activate && CanRecord(st, s) then Some(m) else st.active
  {
  }

  lemma UndoNamesNothing(st: Store, p: Plane, m: Manifest, artifact: Artifact, s: Script)
    requires s.compiled == Some(artifact) && m.artifactHash == artifact.configurationHash && m.publicationId !in st.manifests
    requires m.revision.Some?
    ensures
      var (st', p', outcome) := Undo(st, p, m, artifact, s);
      && p'.active == p.active && st'.active == st.active
  {
    hide Recorded;
    var (p', ok) := Rollback(p, m.revision.value, s.rollbackRead, s.delete);
    if ok { RecordedNames(st, p', m, artifact, false, s); }
  }

  lemma AdvanceEffect(st: Store, p: Plane, m: Manifest, artifact: Artifact, s: Script)
    requires s.compiled == Some(artifact) && m.artifactHash == artifact.configurationHash && m.publicationId !in st.manifests
    requires ReadsOwnWrites(s) && StoredAt(p, RevisionFor(artifact)) == Some(artifact)
    ensures
      var (st', p', outcome) := Advance(st, p, m, artifact, RevisionFor(artifact), s);
      if s.probe.Some? && REQUIRED_CHECKS <= s.probe.value then ActiveAfter(st, st', p, p', artifact, s)
      else p'.active == p.active && st'.active == st.active
  {
    var revision := RevisionFor(artifact);
    var checks := Verify(p, revision, artifact, s.verifyRead, s.probe);
    assert checks == s.probe;
    var record := if checks.None? then Verification({}, Some("verification")) else Verification(checks.value, None);
    var m1 := m.(status := Applying, revision := Some(revision), verification := Some(record));
    var (p', ok) := Activate(p, revision, s.activate, s.activeRead);
    hide Undo, Recorded, Verify, CanRecord, RevisionFor;
    if !(REQUIRED_CHECKS <= record.passed) {
      UndoNamesNothing(st, p, m1.(status := RolledBack), artifact, s);
    } else if !ok {
      UndoNamesNothing(st, p', m1.(status := RolledBack, verification := Some(record.(failedStep := Some("activation")))), artifact, s);
    } else {
      RecordedNames(st, p', m1.(status := Active, activatedAt := Some(s.activatedAt)), artifact, true, s);
    }
  }

  /** What a publish did to `active.json` and to the active revision, when the port reads its own writes. */
  lemma PublishEffect(st: Store, p: Plane, req: Request, s: Script)
    requires ReadsOwnWrites(s) && PlaneOk(p)
    ensures
      var (st', p', outcome) := Publish(st, p, req, s);
      if !ReachesActivation(st, p, req, s) then p'.active == p.active && st'.active == st.active
      else ActiveAfter(st, st', p, p', s.compiled.value, s)
  {
    hide Recorded, Advance, SafeId, CanRecord;
    if s.compiled.Some? && req.publicationId !in st.manifests {
      var artifact := s.compiled.value;
      var m := Drafted(st, req, artifact, s);
      var (p', staged) := Stage(p, artifact, s.put, s.stageRead);
      RecordedNames(st, p, m.(status := Failed, verification := Some(Verification({}, Some("health")))), artifact, false, s);
      RecordedNames(st, p', m.(status := Failed, verification := Some(Verification({}, Some("stage")))), artifact, false, s);
      if staged.Some? {
        AdvanceEffect(st, p', m, artifact, s);
        assert staged.value == RevisionFor(artifact) && p'.active == p.active;
      }
    }
  }

  /**
   Agreement survives a publish exactly unless an activation of a new revision took effect but was reported as failed,
   or took effect and then could not be recorded: the failing branches are the ones after the plane has moved.
   */
  lemma AgreementSurvivesIff(st: Store, p: Plane, req: Request, s: Script)
    requires ReadsOwnWrites(s) && PlaneOk(p) && Agree(st, p)
    ensures
      var (st', p', outcome) := Publish(st, p, req, s);
      Agree(st', p') <==>
        !(ReachesActivation(st, p, req, s) && s.activate.takesEffect && p.active != Some(RevisionFor(s.compiled.value))
          && (s.activate.raises || !CanRecord(st, s)))
  {
    PublishEffect(st, p, req, s);
    hide Publish, CanRecord, SafeId, PlaneOk;
  }

  /** What the plane's content keeps: the revision it serves is never deleted and every revision names its content. */
  lemma PublishKeepsPlane(st: Store, p: Plane, req: Request, s: Script)
    requires ReadsOwnWrites(s) && PlaneOk(p)
    ensures
      var (st', p', outcome) := Publish(st, p, req, s);
      && PlaneOk(p')
      && (p.active.Some? ==> p.active.value in p'.stored)
      && (forall r | r in p.stored && s.compiled != Some(p.stored[r]) :: r in p'.stored && p'.stored[r] == p.stored[r])
  {
    hide Recorded, Advance, SafeId;
    if s.compiled.Some? {
      var artifact := s.compiled.value;
      var (p', staged) := Stage(p, artifact, s.put, s.stageRead);
      if staged.Some? { AdvanceKeepsPlane(st, p', Drafted(st, req, artifact, s), artifact, s); }
      RecordedSamePlane(st, p, artifact, s);
      RecordedSamePlane(st, p', artifact, s);
    }
  }

  lemma RecordedSamePlane(st: Store, p: Plane, artifact: Artifact, s: Script)
    ensures forall m, activate :: Recorded(st, p, m, artifact, activate, s.disk).1 == p
  {
  }

  /** The plane keeps what a publish of `artifact` has no business with. */
  ghost predicate PlaneKept(p: Plane, p': Plane, artifact: Artifact) {
    && PlaneOk(p') && (p.active.Some? ==> p.active.value in p'.stored)
    && (forall r | r in p.stored && p.stored[r] != artifact :: r in p'.stored && p'.stored[r] == p.stored[r])
  }

  lemma UndoKeepsPlane(st: Store, p: Plane, m: Manifest, artifact: Artifact, s: Script)
    requires ReadsOwnWrites(s) && PlaneOk(p) && m.revision == Some(RevisionFor(artifact))
    ensures PlaneKept(p, Undo(st, p, m, artifact, s).1, artifact)
  {
    hide Record;
  }

  lemma AdvanceKeepsPlane(st: Store, p: Plane, m: Manifest, artifact: Artifact, s: Script)
    requires ReadsOwnWrites(s) && PlaneOk(p) && RevisionFor(artifact) in p.stored
    ensures PlaneKept(p, Advance(st, p, m, artifact, RevisionFor(artifact), s).1, artifact)
  {
    var revision := RevisionFor(artifact);
    var checks := Verify(p, revision, artifact, s.verifyRead, s.probe);
    var record := if checks.None? then Verification({}, Some("verification")) else Verification(checks.value, None);
    var m1 := m.(status := Applying, revision := Some(revision), verification := Some(record));
    var (p', ok) := Activate(p, revision, s.activate, s.activeRead);
    assert PlaneOk(p') && p'.stored == p.stored;
    hide Undo, Verify, Activate, Record;
    UndoKeepsPlane(st, p, m1.(status := RolledBack), artifact, s);
    UndoKeepsPlane(st, p', m1.(status := RolledBack, verification := Some(record.(failedStep := Some("activation")))), artifact, s);
    ActiveStays(st, p, p', m1.(status := RolledBack, verification := Some(record.(failedStep := Some("activation")))), artifact, s);
  }

  /** Undoing a publish that may have activated its revision deletes neither that one nor the one served before. */
  lemma ActiveStays(st: Store, p: Plane, p': Plane, m: Manifest, artifact: Artifact, s: Script)
    requires ReadsOwnWrites(s) && PlaneOk(p) && PlaneOk(p') && m.revision == Some(RevisionFor(artifact))
    requires p'.stored == p.stored && (p'.active == p.active || p'.active == m.revision)
    ensures p.active.Some? ==> p.active.value in Undo(st, p', m, artifact, s).1.stored
  {
    hide Record;
  }

  /** Activation is all-or-nothing and the store's writes succeed. */
  ghost predicate Dependable(st: Store, s: Script) {
    && ReadsOwnWrites(s) && (s.activate.takesEffect <==> !s.activate.raises)
    && (s.compiled.Some? ==> CanRecord(st, s))
  }

  ghost predicate DependableRuns(st: Store, p: Plane, runs: seq<(Request, Script)>)
    decreases |runs|
  {
    runs == [] ||
    var n := |runs| - 1;
    DependableRuns(st, p, runs[..n]) && Dependable(Publishes(st, p, runs[..n]).0, runs[n].1)
  }

  /**
   Over any sequence of publishes with a dependable port and store, whatever else fails: `active.json` names the
   revision the plane serves, that revision is still stored, and it passed its checks.
   */
  lemma {:induction false} ServedIsLastKnownGood(st: Store, p: Plane, runs: seq<(Request, Script)>)
    requires ActiveIsGood(st) && PlaneOk(p) && Agree(st, p) && DependableRuns(st, p, runs)
    ensures
      var (st', p') := Publishes(st, p, runs);
      ActiveIsGood(st') && PlaneOk(p') && Agree(st', p')
    decreases |runs|
  {
    if runs != [] {
      hide Publish, ActiveIsGood, PlaneOk, Agree, ReachesActivation;
      var n := |runs| - 1;
      ServedIsLastKnownGood(st, p, runs[..n]);
      var (st1, p1) := Publishes(st, p, runs[..n]);
      PublishKeepsLastKnownGood(st1, p1, runs[n].0, runs[n].1);
      AgreementSurvivesIff(st1, p1, runs[n].0, runs[n].1);
      ReachingCompiles(st1, p1, runs[n].0, runs[n].1);
      PublishKeepsPlane(st1, p1, runs[n].0, runs[n].1);
    }
  }

  lemma ReachingCompiles(st: Store, p: Plane, req: Request, s: Script)
    ensures ReachesActivation(st, p, req, s) ==> s.compiled.Some?
  {
  }

  // ---------------------------------------------------------------- the publisher object

  class FileStore {
    var manifests: map<string, Manifest>
    var artifacts: map<string, Artifact>
    var active: Option<Manifest>

    function State(): Store
      reads this
    {
      Store(manifests, artifacts, active)
    }

    constructor ()
      ensures State() == Store(map[], map[], None)
    {
      manifests, artifacts, active := map[], map[], None;
    }

    method RecordManifest(m: Manifest, artifact: Artifact, activate: bool, disk: nat) returns (e: Option<PublicationError>)
      modifies this
      ensures (State(), e) == Record(old(State()), m, artifact, activate, disk)
    {
      if m.publicationId in manifests {
        return Some(ManifestImmutable);
      }
      if m.artifactHash in artifacts && artifacts[m.artifactHash] != artifact {
        return Some(HashCollision);
      }
      var left := disk;
      if m.artifactHash !in artifacts {
        if left == 0 {
          return Some(DiskFailed);
        }
        artifacts := artifacts[m.artifactHash := artifact];
        left := left - 1;
      }
      if left == 0 {
        return Some(DiskFailed);
      }
      manifests := manifests[m.publicationId := m];
      left := left - 1;
      if activate {
        if left == 0 {
          return Some(DiskFailed);
        }
        active := Some(m);
      }
      e := None;
    }
  }

  class Publisher {
    const plane: Adapter
    const store: FileStore

    constructor (p: Adapter, st: FileStore)
      ensures plane == p && store == st
    {
      plane, store := p, st;
    }

    /** The manifest is one value that takes on its statuses as the publish advances. */
    method PublishConfiguration(req: Request, s: Script) returns (outcome: Outcome)
      modifies plane.admin, store
      ensures (store.State(), plane.admin.State(), outcome) == Publish(old(store.State()), old(plane.admin.State()), req, s)
    {
      hide Record, Stage, Verify, Activate, Rollback, SafeId;
      if !SafeId(req.publicationId) {
        return Err(UnsafeId);
      }
      if req.publicationId in store.manifests {
        return Err(ManifestImmutable);
      }
      if s.compiled.None? {
        return Err(CompileFailed);
      }
      var artifact := s.compiled.value;
      var manifest := Drafted(store.State(), req, artifact, s);
      if s.healthy != Some(true) {
        manifest := manifest.(status := Failed, verification := Some(Verification({}, Some("health"))));
        outcome := Conclude(manifest, artifact, false, s.disk);
        return;
      }
      var staged := plane.StageArtifact(artifact, s.put, s.stageRead);
      if staged.None? {
        manifest := manifest.(status := Failed, verification := Some(Verification({}, Some("stage"))));
        outcome := Conclude(manifest, artifact, false, s.disk);
        return;
      }
      var revision := staged.value;
      manifest := manifest.(status := Applying, revision := Some(revision));
      var checks := plane.VerifyRevision(revision, artifact, s.verifyRead, s.probe);
      var record := if checks.None? then Verification({}, Some("verification")) else Verification(checks.value, None);
      manifest := manifest.(verification := Some(record));
      if !(REQUIRED_CHECKS <= record.passed) {
        var undone := plane.RollbackRevision(revision, s.rollbackRead, s.delete);
        if !undone {
          return Err(RollbackFailed);
        }
        manifest := manifest.(status := RolledBack);
        outcome := Conclude(manifest, artifact, false, s.disk);
        return;
      }
      manifest := manifest.(status := Verified);
      var activated := plane.ActivateRevision(revision, s.activate, s.activeRead);
      if !activated {
        var undone := plane.RollbackRevision(revision, s.rollbackRead, s.delete);
        if !undone {
          return Err(RollbackFailed);
        }
        manifest := manifest.(status := RolledBack, verification := Some(record.(failedStep := Some("activation"))));
        outcome := Conclude(manifest, artifact, false, s.disk);
        return;
      }
      manifest := manifest.(status := Active, activatedAt := Some(s.activatedAt));
      outcome := Conclude(manifest, artifact, true, s.disk);
    }

    method Conclude(m: Manifest, artifact: Artifact, activate: bool, disk: nat) returns (outcome: Outcome)
      modifies store
      ensures (store.State(), plane.admin.State(), outcome) ==
                Recorded(old(store.State()), old(plane.admin.State()), m, artifact, activate, disk)
    {
      var e := store.RecordManifest(m, artifact, activate, disk);
      outcome := if e.Some? then Err(e.value) else Ok(m);
    }
  }
}
