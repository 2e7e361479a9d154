/**
 The APISIX control plane adapter (tools/apisix_control_plane.py) over an Admin port that may fail anywhere: a write
 may take effect and still report failure, or report success without effect, and a read may raise or be wrong.
 */
module ControlPlane {
  import opened Common

  datatype Artifact = Artifact(configurationHash: string, content: string)

  /** The digest of a canonical artifact; digests do not collide. */
  datatype Revision = Digest(artifact: Artifact)

  datatype Check = Health | RouteBinding | AuthorizationNegativePath | UpstreamReachability | Convergence

  const REQUIRED_CHECKS: set<Check> := {Health, RouteBinding, AuthorizationNegativePath, UpstreamReachability, Convergence}

  /** What the plane holds. */
  datatype Plane = Plane(stored: map<Revision, Artifact>, active: Option<Revision>)

  datatype WriteReply = WriteReply(takesEffect: bool, raises: bool)

  datatype ReadReply<T> = Truthful | Raises | Says(value: T)

  function Reading<T>(reply: ReadReply<T>, actual: T): Option<T> {
    match reply case Truthful => Some(actual) case Raises => None case Says(v) => Some(v)
  }

  function RevisionFor(artifact: Artifact): Revision {
    Digest(artifact)
  }

  function PutEffect(p: Plane, revision: Revision, artifact: Artifact, reply: WriteReply): Plane {
    if reply.takesEffect then p.(stored := p.stored[revision := artifact]) else p
  }

  function ActivateEffect(p: Plane, revision: Revision, reply: WriteReply): Plane {
    if reply.takesEffect then p.(active := Some(revision)) else p
  }

  function DeleteEffect(p: Plane, revision: Revision, reply: WriteReply): Plane {
    if reply.takesEffect then p.(stored := p.stored - {revision}) else p
  }

  function StoredAt(p: Plane, revision: Revision): Option<Artifact> {
    if revision in p.stored then Some(p.stored[revision]) else None
  }

  /** Every stored revision names its own content, and the active one is stored. */
  ghost predicate PlaneOk(p: Plane) {
    && (forall r | r in p.stored :: r == RevisionFor(p.stored[r]))
    && (p.active.Some? ==> p.active.value in p.stored)
  }

  // ---------------------------------------------------------------- the adapter's operations

  /** Stages and reads back; None if either raises or the read differs. */
  function Stage(p: Plane, artifact: Artifact, put: WriteReply, read: ReadReply<Option<Artifact>>): (Plane, Option<Revision>) {
    var revision := RevisionFor(artifact);
    var p' := PutEffect(p, revision, artifact, put);
    (p', if put.raises || Reading(read, StoredAt(p', revision)) != Some(Some(artifact)) then None else Some(revision))
  }

  /** The checks that came back true; None if the read or the probe raised, no check if the content is not intact. */
  function Verify(p: Plane, revision: Revision, artifact: Artifact, read: ReadReply<Option<Artifact>>, probe: Option<set<Check>>):
    Option<set<Check>>
  {
    if revision != RevisionFor(artifact) then Some({})
    else
      var seen := Reading(read, StoredAt(p, revision));
      if seen.None? then None
      else if seen.value != Some(artifact) then Some({})
      else probe
  }

  /** Activates and reads back; false if either raises or the read differs. */
  function Activate(p: Plane, revision: Revision, reply: WriteReply, read: ReadReply<Option<Revision>>): (Plane, bool) {
    var p' := ActivateEffect(p, revision, reply);
    (p', !reply.raises && Reading(read, p'.active) == Some(Some(revision)))
  }

  /** Deletes a revision that is not active; false if it raised, as it does for the active one. */
  function Rollback(p: Plane, revision: Revision, read: ReadReply<Option<Revision>>, delete: WriteReply): (Plane, bool) {
    var seen := Reading(read, p.active);
    if seen.None? || seen.value == Some(revision) then (p, false)
    else (DeleteEffect(p, revision, delete), !delete.raises)
  }

  // ---------------------------------------------------------------- when each succeeds

  /** A stage succeeds if and only if the put did not raise and the read back gives the very artifact. */
  lemma StageOutcome(p: Plane, artifact: Artifact, put: WriteReply, read: ReadReply<Option<Artifact>>)
    ensures
      var (p', r) := Stage(p, artifact, put, read);
      var held := Digest(artifact) in p'.stored && p'.stored[Digest(artifact)] == artifact;
      && p' == (if put.takesEffect then p.(stored := p.stored[Digest(artifact) := artifact]) else p)
      && (r.Some? ==> r.value == Digest(artifact))
      && (r.Some? <==>
            !put.raises && match read case Truthful => held case Raises => false case Says(v) => v == Some(artifact))
  {
  }

  /** The probe's checks count only for the artifact's own revision, read back intact. */
  lemma VerifyOutcome(p: Plane, revision: Revision, artifact: Artifact, read: ReadReply<Option<Artifact>>, probe: Option<set<Check>>)
    ensures
      var r := Verify(p, revision, artifact, read, probe);
      var own := revision == Digest(artifact);
      var intact := match read
                    case Truthful => revision in p.stored && p.stored[revision] == artifact
                    case Raises => false
                    case Says(v) => v == Some(artifact);
      && (own && intact ==> r == probe)
      && (own && read.Raises? ==> r.None?)
      && (!own || (!intact && !read.Raises?) ==> r == Some({}))
  {
  }

  /** An activation succeeds if and only if it did not raise and the plane is read to serve the revision. */
  lemma ActivateOutcome(p: Plane, revision: Revision, reply: WriteReply, read: ReadReply<Option<Revision>>)
    ensures
      var (p', ok) := Activate(p, revision, reply, read);
      && p' == (if reply.takesEffect then p.(active := Some(revision)) else p)
      && (ok <==> !reply.raises
                  && match read case Truthful => p'.active == Some(revision) case Raises => false case Says(v) => v == Some(revision))
  {
  }

  /** A rollback deletes the revision unless it is read to be active, or that cannot be read. */
  lemma RollbackOutcome(p: Plane, revision: Revision, read: ReadReply<Option<Revision>>, delete: WriteReply)
    ensures
      var (p', ok) := Rollback(p, revision, read, delete);
      var deletable := match read
                       case Truthful => p.active != Some(revision)
                       case Raises => false
                       case Says(v) => v != Some(revision);
      && (!deletable ==> p' == p && !ok)
      && (deletable ==> (ok <==> !delete.raises) && p' == if delete.takesEffect then p.(stored := p.stored - {revision}) else p)
  {
  }

  // ---------------------------------------------------------------- the adapter object

  class AdminPort {
    var stored: map<Revision, Artifact>
    var active: Option<Revision>

    function State(): Plane
      reads this
    {
      Plane(stored, active)
    }

    constructor (p: Plane)
      ensures State() == p
    {
      stored, active := p.stored, p.active;
    }

    method PutRevision(revision: Revision, artifact: Artifact, reply: WriteReply) returns (ok: bool)
      modifies this`stored
      ensures State() == PutEffect(old(State()), revision, artifact, reply) && ok == !reply.raises
    {
      if reply.takesEffect { stored := stored[revision := artifact]; }
      ok := !reply.raises;
    }

    method ReadRevision(revision: Revision, reply: ReadReply<Option<Artifact>>) returns (r: Option<Option<Artifact>>)
      ensures r == Reading(reply, StoredAt(State(), revision))
    {
      r := Reading(reply, if revision in stored then Some(stored[revision]) else None);
    }

    method ActivateRevision(revision: Revision, reply: WriteReply) returns (ok: bool)
      modifies this`active
      ensures State() == ActivateEffect(old(State()), revision, reply) && ok == !reply.raises
    {
      if reply.takesEffect { active := Some(revision); }
      ok := !reply.raises;
    }

    method ActiveRevision(reply: ReadReply<Option<Revision>>) returns (r: Option<Option<Revision>>)
      ensures r == Reading(reply, State().active)
    {
      r := Reading(reply, active);
    }

    method DeleteRevision(revision: Revision, reply: WriteReply) returns (ok: bool)
      modifies this`stored
      ensures State() == DeleteEffect(old(State()), revision, reply) && ok == !reply.raises
    {
      if reply.takesEffect { stored := stored - {revision}; }
      ok := !reply.raises;
    }
  }

  class Adapter {
    const admin: AdminPort

    constructor (port: AdminPort)
      ensures admin == port
    {
      admin := port;
    }

    method StageArtifact(artifact: Artifact, put: WriteReply, read: ReadReply<Option<Artifact>>) returns (r: Option<Revision>)
      modifies admin
      ensures (admin.State(), r) == Stage(old(admin.State()), artifact, put, read)
    {
      var revision := RevisionFor(artifact);
      var ok := admin.PutRevision(revision, artifact, put);
      if !ok {
        return None;
      }
      var seen := admin.ReadRevision(revision, read);
      r := if seen == Some(Some(artifact)) then Some(revision) else None;
    }

    method VerifyRevision(revision: Revision, artifact: Artifact, read: ReadReply<Option<Artifact>>, probe: Option<set<Check>>)
      returns (checks: Option<set<Check>>)
      ensures checks == Verify(admin.State(), revision, artifact, read, probe)
    {
      if revision != RevisionFor(artifact) {
        return Some({});
      }
      var seen := admin.ReadRevision(revision, read);
      if seen.None? {
        return None;
      }
      checks := if seen.value == Some(artifact) then probe else Some({});
    }

    method ActivateRevision(revision: Revision, reply: WriteReply, read: ReadReply<Option<Revision>>) returns (ok: bool)
      modifies admin
      ensures (admin.State(), ok) == Activate(old(admin.State()), revision, reply, read)
    {
      ok := admin.ActivateRevision(revision, reply);
      if ok {
        var seen := admin.ActiveRevision(read);
        ok := seen == Some(Some(revision));
      }
    }

    method RollbackRevision(revision: Revision, read: ReadReply<Option<Revision>>, delete: WriteReply) returns (ok: bool)
      modifies admin
      ensures (admin.State(), ok) == Rollback(old(admin.State()), revision, read, delete)
    {
      var seen := admin.ActiveRevision(read);
      if seen.None? || seen.value == Some(revision) {
        return false;
      }
      ok := admin.DeleteRevision(revision, delete);
    }
  }
}
