/**
 The part of the kernel the daemon depends on: which process instance holds
 which pid, who its parent is, what its `exe` link says, and the running total
 of memory stalls. Instances are numbered in birth order; a pid may be held by
 many instances, one after the other.
 */
module Kernel {
  import opened Wrappers
  import opened Text

  type Pid = nat
  type Instance = nat

  /** What `readlink` on `/proc/<pid>/exe` would answer. Kernel threads and zombies have no readable link. */
  datatype ExeLink = Unreadable | NotUtf8 | Path(text: string)

  /** `live` means the pid is still taken: the instance has not been reaped. */
  datatype Process = Process(pid: Pid, live: bool, parent: Option<Instance>, exe: ExeLink)

  datatype Machine = Machine(processes: seq<Process>, stall: nat) {

    predicate Live(i: Instance) {
      i < |processes| && processes[i].live
    }

    predicate HasPid(i: Instance, pid: Pid) {
      i < |processes| && processes[i].pid == pid
    }

    ghost predicate Valid() {
      && stall < USIZE
      && (forall i | 0 <= i < |processes| :: 0 < processes[i].pid)
      // a pid is handed out again only after its holder is gone
      && (forall i, j | 0 <= i < j < |processes| && processes[i].pid == processes[j].pid :: !processes[i].live)
      // the parent of an unreaped process is unreaped and was born before it: orphans move to an ancestor
      && (forall i | 0 <= i < |processes| && processes[i].live && processes[i].parent.Some? ::
            processes[i].parent.value < i && Live(processes[i].parent.value))
    }

    /** The PPid line of the instance's status; 0 for a process without a parent. */
    function ParentPid(i: Instance): Pid
      requires i < |processes|
    {
      match processes[i].parent
      case None => 0
      case Some(p) => if p < |processes| then processes[p].pid else 0
    }

    /** The live instance with this pid among the first `n`, the latest-born first. */
    function HolderAmong(pid: Pid, n: nat): (r: Option<Instance>)
      requires n <= |processes|
      ensures r.Some? ==> r.value < n && Live(r.value) && HasPid(r.value, pid)
      ensures r.None? ==> forall i | 0 <= i < n :: !(Live(i) && HasPid(i, pid))
    {
      if n == 0 then None
      else if Live(n - 1) && HasPid(n - 1, pid) then Some(n - 1)
      else HolderAmong(pid, n - 1)
    }

    /** The instance that a lookup by number finds at this moment. */
    function Holder(pid: Pid): (r: Option<Instance>)
      ensures r.Some? ==> Live(r.value) && HasPid(r.value, pid)
      ensures r.None? ==> forall i: Instance :: !(Live(i) && HasPid(i, pid))
    {
      HolderAmong(pid, |processes|)
    }
  }

  /**
   Any amount of activity outside the daemon: births, exits, exec calls and
   reparenting, in any order. What never happens is that an instance changes
   its pid or comes back after it was reaped, or that the stall total falls.
   */
  ghost predicate Evolves(k: Machine, k': Machine) {
    && k'.Valid()
    && |k.processes| <= |k'.processes|
    && k.stall <= k'.stall
    && (forall i | 0 <= i < |k.processes| ::
          k'.processes[i].pid == k.processes[i].pid && (k'.processes[i].live ==> k.processes[i].live))
  }

  /** At any one moment a pid names at most one unreaped instance. */
  lemma OneHolder(k: Machine, i: Instance, j: Instance)
    requires k.Valid() && k.Live(i) && k.Live(j) && k.processes[i].pid == k.processes[j].pid
    ensures i == j
  {
  }
}
