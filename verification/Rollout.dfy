/**
 Replacing a service container and putting the original back (ops/apisix/rollout_r4a_runtime.py). Any Docker command
 may fail, before or after it took effect, and the process may die at any of them; a rollback may be cut short too.
 */
module Rollout {
  import opened Common

  datatype Restart = No | UnlessStopped

  /** `attached` says whether the container is on the second network, which only `Connect` gives it. */
  datatype Container = Container(id: Id, image: string, running: bool, restart: Restart, attached: bool)

  datatype Host = Host(containers: map<string, Container>, nextId: Id)

  datatype Command =
    | UpdateRestart(name: string, policy: Restart)
    | Stop(name: string)
    | StartUp(name: string)
    | Rename(name: string, target: string)
    | Create(name: string, image: string)
    | Remove(name: string)
    | Connect(name: string)

  /** How one command ends: as it should, with an error, or with the death of the process that issued it. */
  datatype Fault = Fine | Raises(takesEffect: bool) | Dies(takesEffect: bool)

  datatype Reply = Done | Error | Dead

  predicate CanRun(h: Host, c: Command) {
    match c
    case Rename(name, target) => name in h.containers && target !in h.containers
    case Create(name, _) => name !in h.containers
    case Remove(name) => name in h.containers && !h.containers[name].running
    case _ => c.name in h.containers
  }

  function Effect(h: Host, c: Command): Host
    requires CanRun(h, c)
  {
    match c
    case UpdateRestart(name, policy) => h.(containers := h.containers[name := h.containers[name].(restart := policy)])
    case Stop(name) => h.(containers := h.containers[name := h.containers[name].(running := false)])
    case StartUp(name) => h.(containers := h.containers[name := h.containers[name].(running := true)])
    case Rename(name, target) => h.(containers := (h.containers - {name})[target := h.containers[name]])
    case Create(name, image) =>
      Host(h.containers[name := Container(h.nextId, image, false, UnlessStopped, false)], h.nextId + 1)
    case Remove(name) => h.(containers := h.containers - {name})
    case Connect(name) => h.(containers := h.containers[name := h.containers[name].(attached := true)])
  }

  function After(h: Host, c: Command, f: Fault): Host {
    if (f.Fine? || f.takesEffect) && CanRun(h, c) then Effect(h, c) else h
  }

  function Answer(h: Host, c: Command, f: Fault): Reply {
    if f.Dies? then Dead else if f.Raises? || !CanRun(h, c) then Error else Done
  }

  // ---------------------------------------------------------------- what rollback needs and gives

  predicate Holds(h: Host, name: string, id: Id) {
    name in h.containers && h.containers[name].id == id
  }

  /** The original is under exactly one of the two names, and the backup name holds nothing else. */
  predicate Recoverable(h: Host, name: string, backup: string, original: Id) {
    && original < h.nextId
    && (|| (Holds(h, name, original) && backup !in h.containers)
        || (Holds(h, backup, original) && !Holds(h, name, original)))
  }

  /** The original under its own name, running and set to restart; the replacement gone and the backup name free. */
  predicate Restored(h: Host, name: string, backup: string, original: Id) {
    && Holds(h, name, original) && h.containers[name].running && h.containers[name].restart == UnlessStopped
    && backup !in h.containers
  }

  ghost predicate OthersSame(h: Host, h': Host, name: string, backup: string) {
    forall n | n != name && n != backup ::
      (n in h.containers <==> n in h'.containers) && (n in h.containers ==> h'.containers[n] == h.containers[n])
  }

  /** A command of the apply sequence, or one of rollback where rollback issues it. */
  predicate Lawful(h: Host, c: Command, name: string, backup: string, original: Id) {
    match c
    case Rename(a, b) => (a == name && b == backup) || (a == backup && b == name)
    case Remove(n) => n == name && !Holds(h, name, original)
    case _ => c.name == name
  }

  /** Whatever happens to one lawful command, the original can still be put back. */
  lemma CommandKeepsRecoverable(h: Host, c: Command, f: Fault, name: string, backup: string, original: Id)
    requires name != backup && Recoverable(h, name, backup, original) && Lawful(h, c, name, backup, original)
    ensures Recoverable(After(h, c, f), name, backup, original) && OthersSame(h, After(h, c, f), name, backup)
  {
  }

  /** What happens to the host: a command is issued, or a container exits or comes back on its own. */
  datatype Event = Issued(command: Command, fault: Fault) | Drifted(name: string, running: bool)

  function Happens(h: Host, e: Event): Host {
    match e
    case Issued(c, f) => After(h, c, f)
    case Drifted(n, running) =>
      if n in h.containers then h.(containers := h.containers[n := h.containers[n].(running := running)]) else h
  }

  /** A history of lawful commands, each with its fault, and of drift: partial applies and rollbacks, one after another. */
  predicate LawfulHistory(h: Host, es: seq<Event>, name: string, backup: string, original: Id)
    decreases |es|
  {
    es == [] ||
    var n := |es| - 1;
    && LawfulHistory(h, es[..n], name, backup, original)
    && (es[n].Issued? ==> Lawful(AfterAll(h, es[..n]), es[n].command, name, backup, original))
  }

  function AfterAll(h: Host, es: seq<Event>): Host
    decreases |es|
  {
    if es == [] then h else Happens(AfterAll(h, es[..|es| - 1]), es[|es| - 1])
  }

  /** The other containers are the same ones as before, whether or not they are still running. */
  ghost predicate OthersKept(h: Host, h': Host, name: string, backup: string) {
    forall n | n != name && n != backup ::
      && (n in h.containers <==> n in h'.containers)
      && (n in h.containers ==> h'.containers[n] == h.containers[n].(running := h'.containers[n].running))
  }

  /** However many applies and rollbacks were cut short, and wherever, the original can still be put back. */
  lemma {:induction false} HistoryKeepsRecoverable(h: Host, es: seq<Event>, name: string, backup: string, original: Id)
    requires name != backup && Recoverable(h, name, backup, original) && LawfulHistory(h, es, name, backup, original)
    ensures Recoverable(AfterAll(h, es), name, backup, original) && OthersKept(h, AfterAll(h, es), name, backup)
    decreases |es|
  {
    if es != [] {
      var n := |es| - 1;
      HistoryKeepsRecoverable(h, es[..n], name, backup, original);
      if es[n].Issued? {
        CommandKeepsRecoverable(AfterAll(h, es[..n]), es[n].command, es[n].fault, name, backup, original);
      }
    }
  }

  // ---------------------------------------------------------------- the scripts

  datatype RollbackResult = RolledBack | RollbackRaised | RollbackDied

  datatype ApplyResult = Staged | BackupNameTaken | CandidateFailed(rollback: RollbackResult) | ApplyDied

  /** How a container is removed: it must not be restarted, and must have been stopped. */
  function Removal(name: string, running: bool): seq<Command> {
    [UpdateRestart(name, No)] + (if running then [Stop(name)] else []) + [Remove(name)]
  }

  /** How the original makes way for the candidate, which is attached before it starts. */
  function Replacement(name: string, backup: string, image: string, needsNetwork: bool): seq<Command> {
    [UpdateRestart(name, No), Stop(name), Rename(name, backup), Create(name, image)]
    + (if needsNetwork then [Connect(name)] else []) + [StartUp(name)]
  }

  class Docker {
    var host: Host
    var issued: nat
    /** The commands that were issued, whatever became of them. */
    ghost var log: seq<Command>
    const faults: nat -> Fault
    const name: string
    const backup: string
    const original: Id

    constructor (h: Host, script: nat -> Fault, service: string, backupName: string, oldId: Id)
      ensures host == h && issued == 0 && log == [] && faults == script
      ensures name == service && backup == backupName && original == oldId
    {
      host, issued, log, faults := h, 0, [], script;
      name, backup, original := service, backupName, oldId;
    }

    /** Something was issued since `from`, and nothing before the last of it killed the process. */
    ghost predicate AliveUntilLast(from: nat)
      reads this
    {
      issued > from && forall k | from <= k < issued - 1 :: !faults(k).Dies?
    }

    ghost predicate AllFine(from: nat, to: nat) {
      forall k | from <= k < to :: faults(k).Fine?
    }

    method Run(c: Command) returns (r: Reply)
      modifies this
      ensures issued == old(issued) + 1 && log == old(log) + [c]
      ensures host == After(old(host), c, faults(old(issued))) && r == Answer(old(host), c, faults(old(issued)))
    {
      var f := faults(issued);
      r := Answer(host, c, f);
      host := After(host, c, f);
      issued, log := issued + 1, log + [c];
    }

    /** Inspection changes nothing; an error of its own looks the same as an absent container. */
    method Inspect(n: string) returns (found: Option<Container>, r: Reply)
      modifies this`issued
      ensures issued == old(issued) + 1
      ensures r == if faults(old(issued)).Dies? then Dead else if found.None? then Error else Done
      ensures found == if faults(old(issued)).Fine? && n in host.containers then Some(host.containers[n]) else None
    {
      var f := faults(issued);
      issued := issued + 1;
      found := if f.Fine? && n in host.containers then Some(host.containers[n]) else None;
      r := if f.Dies? then Dead else if found.None? then Error else Done;
    }

    /**
     `rollback`. If it returns normally the original runs under its own name, whatever the host looked like; wherever it
     stops, a host the original could be recovered from stays one; and with no fault it succeeds from exactly those.
     */
    method Rollback(ready: bool) returns (result: RollbackResult)
      requires name != backup
      modifies this
      ensures AliveUntilLast(old(issued)) && (result.RollbackDied? <==> faults(issued - 1).Dies?)
      ensures result.RolledBack? ==>
                && ready && Holds(host, name, original)
                && host.containers[name].running && host.containers[name].restart == UnlessStopped
      ensures result.RolledBack? && old(Recoverable(host, name, backup, original)) ==> Restored(host, name, backup, original)
      ensures old(Recoverable(host, name, backup, original)) ==> Recoverable(host, name, backup, original)
      ensures old(original < host.nextId) && (forall k | k >= old(issued) :: faults(k).Fine?) && ready ==>
                (result.RolledBack? <==> old(Recoverable(host, name, backup, original)))
      ensures OthersSame(old(host), host, name, backup)
    {
      var r := RemoveReplacement();
      if r != Done { return if r == Dead then RollbackDied else RollbackRaised; }
      r := RenameBack();
      if r != Done { return if r == Dead then RollbackDied else RollbackRaised; }
      result := Revive(ready);
    }

    /** What holds the service name, running or not, is stopped and removed, as far as the commands work. */
    method RemoveContainer(running: bool) returns (r: Reply)
      requires name in host.containers && host.containers[name].running == running
      modifies this
      ensures AliveUntilLast(old(issued)) && (r == Dead <==> faults(issued - 1).Dies?)
      ensures AllFine(old(issued), issued - 1) && (r == Done <==> AllFine(old(issued), issued) && log == old(log) + Removal(name, running))
      ensures old(log) < log <= old(log) + Removal(name, running)
      ensures host.nextId == old(host).nextId
      ensures forall n | n != name ::
                (n in host.containers <==> n in old(host).containers)
                && (n in old(host).containers ==> host.containers[n] == old(host).containers[n])
      ensures name in host.containers ==> host.containers[name].id == old(host).containers[name].id
      ensures r == Done ==> name !in host.containers
      ensures r != Done ==> !faults(issued - 1).Fine?
    {
      r := Run(UpdateRestart(name, No));
      if r == Done && running {
        r := Run(Stop(name));
      }
      if r == Done {
        r := Run(Remove(name));
      }
    }

    /** Whatever holds the service name and is not the original is stopped and removed. */
    method RemoveReplacement() returns (r: Reply)
      requires name != backup
      modifies this
      ensures AliveUntilLast(old(issued)) && (r == Dead <==> faults(issued - 1).Dies?)
      ensures host.nextId == old(host).nextId
      ensures old(Recoverable(host, name, backup, original)) ==> Recoverable(host, name, backup, original)
      ensures Holds(host, backup, original) <==> old(Holds(host, backup, original))
      ensures backup in host.containers <==> backup in old(host).containers
      ensures Holds(host, name, original) <==> old(Holds(host, name, original))
      ensures
        var found := faults(old(issued)).Fine? && name in old(host).containers && !Holds(old(host), name, original);
        var removal := if found then Removal(name, old(host).containers[name].running) else [];
        old(log) <= log <= old(log) + removal && (r == Done ==> log == old(log) + removal)
      ensures (forall k | k >= old(issued) :: faults(k).Fine?) ==> r == Done && (name in host.containers ==> Holds(host, name, original))
      ensures OthersSame(old(host), host, name, backup)
    {
      var current;
      current, r := Inspect(name);
      if r == Dead { return; }
      r := Done;
      if current.Some? && current.value.id != original {
        r := RemoveContainer(current.value.running);
      }
    }

    /** The backup, if it is the original, gets its name back; any other container there is refused. */
    method RenameBack() returns (r: Reply)
      requires name != backup
      modifies this
      ensures AliveUntilLast(old(issued)) && (r == Dead <==> faults(issued - 1).Dies?)
      ensures host.nextId == old(host).nextId
      ensures old(Recoverable(host, name, backup, original)) ==> Recoverable(host, name, backup, original)
      ensures (forall k | k >= old(issued) :: faults(k).Fine?) ==>
                && (r == Done <==> old(backup !in host.containers || (Holds(host, backup, original) && name !in host.containers)))
                && (r == Done ==>
                      && backup !in host.containers
                      && (Holds(host, name, original) <==> old(Holds(host, name, original) || Holds(host, backup, original))))
      ensures OthersSame(old(host), host, name, backup)
    {
      var kept;
      kept, r := Inspect(backup);
      if r == Dead { return; }
      r := Done;
      if kept.Some? {
        if kept.value.id != original { return Error; }
        r := Run(Rename(backup, name));
      }
    }

    /** The second half of `rollback`: the original is under its own name, or it cannot be restored. */
    method Revive(ready: bool) returns (result: RollbackResult)
      requires name != backup
      modifies this
      ensures AliveUntilLast(old(issued)) && (result.RollbackDied? <==> faults(issued - 1).Dies?)
      ensures result.RolledBack? ==>
                && ready && Holds(host, name, original) && host.containers[name].running && host.containers[name].restart == UnlessStopped
      ensures backup in host.containers <==> backup in old(host).containers
      ensures old(Recoverable(host, name, backup, original)) ==> Recoverable(host, name, backup, original)
      ensures (forall k | k >= old(issued) :: faults(k).Fine?) && ready ==> (result.RolledBack? <==> old(Holds(host, name, original)))
      ensures OthersSame(old(host), host, name, backup)
    {
      var restored, r := Inspect(name);
      if r == Dead { return RollbackDied; }
      if restored.None? || restored.value.id != original { return RollbackRaised; }
      if !restored.value.running {
        r := Run(StartUp(name));
      }
      if r == Done {
        r := Run(UpdateRestart(name, UnlessStopped));
      }
      if r != Done { return if r == Dead then RollbackDied else RollbackRaised; }
      restored, r := Inspect(name);
      if r == Dead { return RollbackDied; }
      if restored.None? || !restored.value.running || !ready { return RollbackRaised; }
      result := RolledBack;
    }

    /** The original: not restarted, stopped, renamed. */
    method PutAside() returns (r: Reply)
      requires name != backup
      modifies this
      ensures AliveUntilLast(old(issued)) && (r == Dead <==> faults(issued - 1).Dies?)
      ensures r == Done <==>
                && name in old(host).containers && backup !in old(host).containers
                && AllFine(old(issued), old(issued) + 3)
      ensures r == Done ==> issued == old(issued) + 3
      ensures host.nextId == old(host).nextId
      ensures old(Recoverable(host, name, backup, original)) ==> Recoverable(host, name, backup, original)
      ensures r == Done ==>
                && name !in host.containers && backup !in old(host).containers && name in old(host).containers
                && backup in host.containers && host.containers[backup].id == old(host).containers[name].id
                && !host.containers[backup].running && host.containers[backup].restart == No
      ensures
        var steps := [UpdateRestart(name, No), Stop(name), Rename(name, backup)];
        old(log) <= log <= old(log) + steps && (r == Done ==> log == old(log) + steps)
      ensures OthersSame(old(host), host, name, backup)
    {
      r := Run(UpdateRestart(name, No));
      if r == Done { r := Run(Stop(name)); }
      if r == Done { r := Run(Rename(name, backup)); }
    }

    /** The candidate: created, connected, started. */
    method BringUp(image: string, needsNetwork: bool) returns (r: Reply)
      requires name != backup
      modifies this
      ensures AliveUntilLast(old(issued)) && (r == Dead <==> faults(issued - 1).Dies?)
      ensures
        var steps := if needsNetwork then 3 else 2;
        && (r == Done <==> name !in old(host).containers && AllFine(old(issued), old(issued) + steps))
        && (r == Done ==> issued == old(issued) + steps)
      ensures old(Recoverable(host, name, backup, original)) ==> Recoverable(host, name, backup, original)
      ensures r == Done ==>
                && name in host.containers && host.containers[name] == Container(old(host).nextId, image, true, UnlessStopped, needsNetwork)
                && host.containers.Keys == old(host).containers.Keys + {name}
                && (backup in host.containers ==> host.containers[backup] == old(host).containers[backup])
      ensures
        var steps := [Create(name, image)] + (if needsNetwork then [Connect(name)] else []) + [StartUp(name)];
        old(log) <= log <= old(log) + steps && (r == Done ==> log == old(log) + steps)
      ensures OthersSame(old(host), host, name, backup)
    {
      r := Run(Create(name, image));
      if r == Done && needsNetwork { r := Run(Connect(name)); }
      if r == Done { r := Run(StartUp(name)); }
    }

    /** The guarded part of the apply sequence: Done exactly if every command ended well and the candidate is as it should be. */
    method Replace(image: string, digest: string, needsNetwork: bool, candidateReady: bool) returns (r: Reply)
      requires name != backup
      modifies this
      ensures AliveUntilLast(old(issued)) && (r == Dead <==> faults(issued - 1).Dies?)
      ensures
        var steps := if needsNetwork then 7 else 6;
        r == Done <==>
          && name in old(host).containers && backup !in old(host).containers && image == digest && candidateReady
          && AllFine(old(issued), old(issued) + steps)
      ensures old(Recoverable(host, name, backup, original)) ==> Recoverable(host, name, backup, original)
      ensures r == Done ==>
                && name in host.containers
                && host.containers[name] == Container(old(host).nextId, digest, true, UnlessStopped, needsNetwork)
                && backup in host.containers && !host.containers[backup].running && host.containers[backup].restart == No
                && host.containers[backup].id == old(host).containers[name].id
      ensures
        var steps := Replacement(name, backup, image, needsNetwork);
        old(log) <= log <= old(log) + steps && (r == Done ==> log == old(log) + steps)
      ensures OthersSame(old(host), host, name, backup)
    {
      hide Recoverable, Effect, CanRun;
      r := PutAside();
      if r == Done { r := BringUp(image, needsNetwork); }
      if r == Done {
        var current;
        current, r := Inspect(name);
        if r != Dead && !(current.Some? && current.value.image == digest && current.value.running && candidateReady) {
          r := Error;
        }
      }
    }

    /**
     The apply sequence. When it stages the candidate the original is kept, stopped, under the backup name; when it
     fails its own rollback runs; and wherever it stops the original can still be recovered.
     */
    method Apply(image: string, digest: string, needsNetwork: bool, candidateReady: bool, originalReady: bool)
      returns (result: ApplyResult)
      requires name != backup
      modifies this
      ensures old(Holds(host, name, original) && backup !in host.containers && original < host.nextId) ==>
                Recoverable(host, name, backup, original)
      ensures
        var steps := if needsNetwork then 8 else 7;
        result.Staged? <==>
          && name in old(host).containers && backup !in old(host).containers && image == digest && candidateReady
          && !faults(old(issued)).Dies? && AllFine(old(issued) + 1, old(issued) + steps)
      ensures result.Staged? ==>
                && name in host.containers
                && host.containers[name] == Container(old(host).nextId, digest, true, UnlessStopped, needsNetwork)
                && backup in host.containers && !host.containers[backup].running && host.containers[backup].restart == No
                && name in old(host).containers && host.containers[backup].id == old(host).containers[name].id
      ensures result.BackupNameTaken? <==> backup in old(host).containers && faults(old(issued)).Fine?
      ensures AliveUntilLast(old(issued))
      ensures result.ApplyDied? || result == CandidateFailed(RollbackDied) <==> faults(issued - 1).Dies?
      ensures old(Holds(host, name, original) && backup !in host.containers && original < host.nextId)
              && (forall k | k >= old(issued) :: faults(k).Fine?) && originalReady && !(image == digest && candidateReady) ==>
                result == CandidateFailed(RolledBack)
      ensures result == CandidateFailed(RolledBack) ==> originalReady
      ensures result.CandidateFailed? && result.rollback.RolledBack?
              && old(Holds(host, name, original) && backup !in host.containers && original < host.nextId) ==>
                Restored(host, name, backup, original)
      ensures result.BackupNameTaken? ==> host == old(host) && log == old(log)
      ensures result.Staged? ==> log == old(log) + Replacement(name, backup, image, needsNetwork)
      ensures OthersSame(old(host), host, name, backup)
    {
      hide Restored, Effect, CanRun;
      var taken, r := Inspect(backup);
      if r == Dead { return ApplyDied; }
      if taken.Some? { return BackupNameTaken; }
      r := Replace(image, digest, needsNetwork, candidateReady);
      if r == Dead { return ApplyDied; }
      if r == Done { return Staged; }
      var undone := Rollback(originalReady);
      result := CandidateFailed(undone);
    }
  }
}
