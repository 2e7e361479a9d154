/**
 The automatic rollback of the UDP authorization retrofit (ops/udp/rollout_authorization_retrofit.py), which does not
 look at identities: it removes whatever holds the service name before it renames the backup into place.
 */
module Retrofit {
  import opened Rollout

  ghost predicate FaultFree(docker: Docker, from: nat) {
    forall k | k >= from :: docker.faults(k).Fine?
  }

  /**
   With no further fault it restores the original if and only if the original had already been renamed to the backup
   name. If a step before the rename had failed, the container it removes is the original.
   */
  method AutomaticRollback(docker: Docker) returns (raised: bool)
    requires docker.name != docker.backup
    modifies docker
    ensures FaultFree(docker, old(docker.issued)) ==>
              (Restored(docker.host, docker.name, docker.backup, docker.original) <==>
               old(Holds(docker.host, docker.backup, docker.original)))
    ensures !raised ==>
              && docker.name in docker.host.containers && docker.host.containers[docker.name].running
              && docker.host.containers[docker.name].restart == UnlessStopped
    ensures FaultFree(docker, old(docker.issued)) ==> (raised <==> old(docker.backup !in docker.host.containers))
    ensures FaultFree(docker, old(docker.issued))
            && old(Holds(docker.host, docker.name, docker.original) && docker.backup !in docker.host.containers) ==>
              raised && docker.name !in docker.host.containers && docker.backup !in docker.host.containers
    ensures OthersSame(old(docker.host), docker.host, docker.name, docker.backup)
  {
    var dead := ClearName(docker);
    if dead { return true; }
    raised := PutBack(docker);
  }

  /** Whatever holds the service name is stopped and removed; errors on the way are swallowed. */
  method ClearName(docker: Docker) returns (dead: bool)
    requires docker.name != docker.backup
    modifies docker
    ensures docker.issued >= old(docker.issued)
    ensures FaultFree(docker, old(docker.issued)) ==>
              !dead && docker.host.containers == old(docker.host).containers - {docker.name}
    ensures
      var found := docker.faults(old(docker.issued)).Fine? && docker.name in old(docker.host).containers;
      var removal := if found then Removal(docker.name, old(docker.host).containers[docker.name].running) else [];
      old(docker.log) <= docker.log <= old(docker.log) + removal
    ensures docker.issued > old(docker.issued) && docker.AllFine(old(docker.issued), docker.issued - 1)
    ensures OthersSame(old(docker.host), docker.host, docker.name, docker.backup)
  {
    var current, r := docker.Inspect(docker.name);
    if current.Some? {
      r := docker.RemoveContainer(current.value.running);
    }
    dead := r == Dead;
  }

  method PutBack(docker: Docker) returns (raised: bool)
    requires docker.name != docker.backup
    modifies docker
    ensures FaultFree(docker, old(docker.issued)) && docker.name !in old(docker.host).containers ==>
              && (Restored(docker.host, docker.name, docker.backup, docker.original) <==>
                  old(Holds(docker.host, docker.backup, docker.original)))
              && (raised <==> docker.backup !in old(docker.host).containers)
              && (raised ==> docker.host.containers == old(docker.host).containers)
    ensures !raised ==>
              && docker.name in docker.host.containers && docker.host.containers[docker.name].running
              && docker.host.containers[docker.name].restart == UnlessStopped
    ensures OthersSame(old(docker.host), docker.host, docker.name, docker.backup)
  {
    var r := docker.Run(Rename(docker.backup, docker.name));
    if r == Done {
      r := docker.Run(UpdateRestart(docker.name, UnlessStopped));
    }
    if r == Done {
      r := docker.Run(StartUp(docker.name));
    }
    raised := r != Done;
  }
}
