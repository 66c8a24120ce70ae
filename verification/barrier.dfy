/**
The shutdown barrier (stop.py). Processes have identities; their pids can be reused
once a process is reaped. While the helper runs, any process may fork, exit, be
reaped or change unit between any two of its system calls. `Helper` is the code.
*/
module Barrier {
  import opened Wrappers

  // ------------------------------------------------------------------ processes

  /** `alive` until it exits; its pid is taken until it is reaped. */
  datatype Proc = Proc(pid: nat, inUnit: bool, alive: bool, reaped: bool)

  /** Every process there has been, by identity, and the pid table: who holds which pid. */
  datatype Kernel = Kernel(procs: map<nat, Proc>, holder: map<nat, nat>)

  ghost predicate Valid(k: Kernel) {
    && (forall id :: id in k.procs && !k.procs[id].reaped ==>
      k.procs[id].pid in k.holder && k.holder[k.procs[id].pid] == id)
    && (forall pid :: pid in k.holder ==>
      k.holder[pid] in k.procs && k.procs[k.holder[pid]].pid == pid && !k.procs[k.holder[pid]].reaped)
    && (forall id :: id in k.procs && k.procs[id].alive ==> !k.procs[id].reaped)
  }

  datatype Event =
    | Fork(id: nat, pid: nat, inUnit: bool)
    | Exit(id: nat)
    | Reap(id: nat)
    | Migrate(id: nat, inUnit: bool)

  predicate Possible(k: Kernel, self: nat, e: Event) {
    match e
    case Fork(id, pid, _) => id !in k.procs && pid !in k.holder
    case Exit(id) => id in k.procs && k.procs[id].alive && id != self
    case Reap(id) => id in k.procs && !k.procs[id].alive && !k.procs[id].reaped
    case Migrate(id, _) => id in k.procs && k.procs[id].alive
  }

  function Happen(k: Kernel, self: nat, e: Event): Kernel
    requires Possible(k, self, e)
  {
    match e
    case Fork(id, pid, inUnit) => Kernel(k.procs[id := Proc(pid, inUnit, true, false)], k.holder[pid := id])
    case Exit(id) => k.(procs := k.procs[id := k.procs[id].(alive := false)])
    case Reap(id) => Kernel(k.procs[id := k.procs[id].(reaped := true)], k.holder - {k.procs[id].pid})
    case Migrate(id, inUnit) => k.(procs := k.procs[id := k.procs[id].(inUnit := inUnit)])
  }

  /** What never changes back: identities and pids stay, an exit is final. */
  ghost predicate Later(k: Kernel, l: Kernel) {
    forall id :: id in k.procs ==>
      id in l.procs && l.procs[id].pid == k.procs[id].pid && (l.procs[id].alive ==>
        k.procs[id].alive) && (k.procs[id].reaped ==> l.procs[id].reaped)
  }

  predicate Member(k: Kernel, id: nat) {
    id in k.procs && k.procs[id].alive && k.procs[id].inUnit
  }

  /** cgroup.procs: the pids of the unit's live processes. */
  function Inventory(k: Kernel): (pids: set<nat>)
    ensures forall pid :: pid in pids <==> exists id :: Member(k, id) && k.procs[id].pid == pid
  {
    set id | id in k.procs && Member(k, id) :: k.procs[id].pid
  }

  ghost predicate Exited(k: Kernel, id: nat) {
    id in k.procs && !k.procs[id].alive
  }

  lemma {:induction false} HappenKeepsValid(k: Kernel, self: nat, e: Event)
    requires Valid(k) && Possible(k, self, e)
    ensures Valid(Happen(k, self, e)) && Later(k, Happen(k, self, e))
  {
  }

  // ------------------------------------------------------------------ the helper

  datatype Command = StopIngress | StopAll | Down | ListContainers

  datatype Ready = Ready(fd: nat, readable: bool, failed: bool)

  datatype Open = Opened(fd: nat) | NoSuchProcess | OpenFailed

  /** A command with the processes as they were when it was issued. */
  datatype Issued = Issued(command: Command, at: Kernel)

  /** The commands so far, in the order in which they were issued. */
  function Commands(issued: seq<Issued>): seq<Command> {
    seq(|issued|, k requires 0 <= k < |issued| => issued[k].command)
  }

  const BARRIER_TIMEOUT: nat := 4200000

  class Helper {
    const self: nat
    /** What the environment does, which calls fail, and what poll and the clock say, at each system call. */
    const events: nat -> seq<Event>
    const fails: nat -> bool
    const polls: nat -> seq<Ready>
    const times: nat -> nat

    var kernel: Kernel
    var fds: map<nat, nat>
    var nextFd: nat
    /** How often each descriptor was closed. */
    var closes: map<nat, nat>
    var issued: seq<Issued>
    var inventories: seq<Kernel>
    var tick: nat
    var clock: nat
    /** How many calls have failed, what was behind each descriptor ever opened, and the last poll with its answer. */
    ghost var failures: nat
    ghost var handles: map<nat, nat>
    ghost var asked: set<nat>
    ghost var polled: seq<Ready>

    constructor (self: nat, kernel: Kernel,
        events: nat -> seq<Event>, fails: nat -> bool, polls: nat -> seq<Ready>, times: nat -> nat)
      requires Valid(kernel) && self in kernel.procs && kernel.procs[self].alive
      ensures Ok() && this.kernel == kernel && issued == [] && inventories == [] && fds == map[] && closes == map[]
      ensures this.self == self && clock == 0 && failures == 0
    {
      this.self, this.kernel, this.events, this.fails, this.polls, this.times := self, kernel, events, fails, polls,
        times;
      fds, nextFd, closes, issued, inventories, tick, clock := map[], 0, map[], [], [], 0, 0;
      failures, handles, asked, polled := 0, map[], {}, [];
    }

    /** The kernel's bookkeeping: every open descriptor stands for one process identity. */
    ghost predicate Ok()
      reads this
    {
      && Valid(kernel) && self in kernel.procs && kernel.procs[self].alive
      && (forall fd :: fd in fds ==> fd < nextFd && fds[fd] in kernel.procs && fd in handles && handles[fd] == fds[fd])
    }

    /** The open descriptors are those opened since the number `first` was next: numbers are given out in order. */
    ghost predicate OpenSince(first: nat)
      reads this
    {
      first <= nextFd && forall fd: nat :: fd in fds <==> first <= fd < nextFd
    }

    /** The environment moves. */
    method Pass()
      requires Ok()
      modifies this`kernel, this`tick
      ensures Ok() && Later(old(kernel), kernel)
    {
      var batch := events(tick);
      for k := 0 to |batch|
        invariant Ok() && Later(old(kernel), kernel)
      {
        if Possible(kernel, self, batch[k]) {
          HappenKeepsValid(kernel, self, batch[k]);
          kernel := Happen(kernel, self, batch[k]);
        }
      }
      tick := tick + 1;
    }

    /** The environment moves, then the next system call happens, or fails. */
    method Pause() returns (fails: bool)
      requires Ok()
      modifies this`kernel, this`tick, this`failures
      ensures Ok() && Later(old(kernel), kernel)
      ensures failures == old(failures) + if fails then 1 else 0
    {
      Pass();
      fails := this.fails(tick);
      if fails { failures := failures + 1; }
    }

    /** unit_pids */
    method UnitPids() returns (pids: Option<set<nat>>)
      requires Ok()
      modifies this`kernel, this`tick, this`failures, this`inventories
      ensures Ok() && Later(old(kernel), kernel)
      ensures pids.Some? ==>
        inventories == old(inventories) + [kernel] && pids.value == Inventory(kernel)
          && kernel.procs[self].pid in pids.value && failures == old(failures)
      ensures pids.None? ==> failures > old(failures) || (failures == old(failures) && HelperMissing())
    {
      var failed := Pause();
      if failed { return None; }
      var found := Inventory(kernel);
      inventories := inventories + [kernel];
      if kernel.procs[self].pid !in found { return None; }
      pids := Some(found);
    }

    /** pidfd_open: a descriptor for whichever process holds the pid now. */
    method PidfdOpen(pid: nat) returns (r: Open)
      requires Ok()
      modifies this`kernel, this`tick, this`failures, this`fds, this`nextFd, this`handles
      ensures Ok() && Later(old(kernel), kernel)
      ensures failures == old(failures) + if r.OpenFailed? then 1 else 0
      ensures r.Opened? ==>
        && r.fd == old(nextFd) && r.fd !in old(fds) && fds.Keys == old(fds).Keys + {r.fd}
        && (forall fd :: fd in old(fds) ==> fds[fd] == old(fds)[fd])
        && pid in kernel.holder && fds[r.fd] == kernel.holder[pid]
      ensures r.NoSuchProcess? ==> pid !in kernel.holder
      ensures nextFd == if r.Opened? then old(nextFd) + 1 else old(nextFd)
      ensures !r.Opened? ==> fds == old(fds)
    {
      var failed := Pause();
      if failed { return OpenFailed; }
      if pid in kernel.holder {
        r := Opened(nextFd);
        fds := fds[nextFd := kernel.holder[pid]];
        handles := handles[nextFd := kernel.holder[pid]];
        nextFd := nextFd + 1;
      } else {
        r := NoSuchProcess;
      }
    }

    /** A pidfd reads ready only once its process has exited. */
    ghost predicate Honest(replies: seq<Ready>)
      reads this
    {
      forall k :: 0 <= k < |replies| && replies[k].readable && replies[k].fd in fds ==>
        Exited(kernel, fds[replies[k].fd])
    }

    /** poll: some ready descriptors, or none once the timeout is over. */
    method Poll(ghost registered: set<nat>, timeout: nat) returns (replies: Option<seq<Ready>>)
      requires Ok()
      modifies this`kernel, this`tick, this`failures, this`clock, this`asked, this`polled
      ensures Ok() && Later(old(kernel), kernel) && clock >= old(clock)
      ensures failures == old(failures) + if replies.None? then 1 else 0
      ensures replies.Some? ==> asked == registered && polled == replies.value
      ensures replies.Some? ==> Honest(replies.value) && (replies.value == [] ==> clock >= old(clock) + timeout)
    {
      var failed := Pause();
      if failed { return None; }
      var said := polls(tick);
      var honest: seq<Ready> := [];
      for k := 0 to |said|
        invariant Honest(honest)
      {
        if !said[k].readable || said[k].fd !in fds || !kernel.procs[fds[said[k].fd]].alive {
          honest := honest + [said[k]];
        }
      }
      if honest == [] { clock := clock + timeout; }
      asked, polled := registered, honest;
      replies := Some(honest);
    }

    method Monotonic() returns (now: nat)
      requires Ok()
      modifies this`kernel, this`tick, this`clock
      ensures Ok() && Later(old(kernel), kernel) && now == clock >= old(clock)
    {
      Pass();
      if times(tick) > clock { clock := times(tick); }
      now := clock;
    }

    /** command: the environment moves before it is issued and while it runs; a non-zero exit raises. */
    method Run(command: Command, ghost since: Kernel) returns (ok: bool, ghost at: Kernel)
      requires Ok() && Later(since, kernel)
      modifies this`kernel, this`tick, this`failures, this`issued
      ensures Ok() && issued == old(issued) + [Issued(command, at)] && Later(since, at) && Later(since, kernel)
      ensures failures == old(failures) + if ok then 0 else 1
      ensures Commands(issued) == Commands(old(issued)) + [command]
    {
      Pass();
      at := kernel;
      issued := issued + [Issued(command, kernel)];
      var failed := Pause();
      ok := !failed;
    }

    /** ready_pidfds: None where the source raises. */
    method ReadyPidfds(pending: set<nat>, timeout: nat) returns (exited: Option<set<nat>>)
      requires Ok() && pending <= fds.Keys
      modifies this`kernel, this`tick, this`failures, this`clock, this`asked, this`polled
      ensures Ok() && Later(old(kernel), kernel) && clock >= old(clock)
      ensures exited.None? ==> failures > old(failures) || (failures == old(failures) && Misread())
      ensures exited.Some? ==> failures == old(failures)
      ensures exited.Some? ==>
        && exited.value <= pending && (forall fd :: fd in exited.value ==> Exited(kernel, fds[fd]))
        && (exited.value == {} ==> clock >= old(clock) + timeout)
    {
      var replies := Poll(pending, timeout);
      if replies.None? { return None; }
      var found: set<nat> := {};
      for k := 0 to |replies.value|
        invariant found <= pending && (forall fd :: fd in found ==> Exited(kernel, fds[fd])) && (k > 0 ==> found != {})
      {
        var reply := replies.value[k];
        if reply.fd !in pending || reply.failed || !reply.readable { return None; }
        found := found + {reply.fd};
      }
      exited := Some(found);
    }

    /** One round of wait_for_exit: what is still pending, or None where the source raises. */
    method AwaitSome(pending: set<nat>, deadline: nat) returns (left: Option<set<nat>>)
      requires Ok() && pending != {} && pending <= fds.Keys
      modifies this`kernel, this`tick, this`failures, this`clock, this`asked, this`polled
      ensures Ok() && Later(old(kernel), kernel) && clock >= old(clock)
      ensures left.None? ==> failures > old(failures) || (failures == old(failures) && (Misread() || clock >= deadline))
      ensures left.Some? ==> failures == old(failures)
      ensures left.Some? ==>
        && old(clock) < deadline && left.value <= pending
        && (forall fd :: fd in pending && fd !in left.value ==> Exited(kernel, fds[fd]))
        && (|left.value| < |pending| || (left.value == pending && clock >= deadline))
    {
      var now := Monotonic();
      if now >= deadline { return None; }
      var exited := ReadyPidfds(pending, deadline - now);
      if exited.None? { return None; }
      Shrinks(pending, exited.value);
      left := Some(pending - exited.value);
    }

    /** wait_for_exit: true only when every process behind `waited` has exited; it gives up after 4200 seconds. */
    method WaitForExit(waited: set<nat>) returns (ok: bool)
      requires Ok() && waited <= fds.Keys
      modifies this`kernel, this`tick, this`failures, this`clock, this`asked, this`polled
      ensures Ok() && Later(old(kernel), kernel) && clock >= old(clock)
      ensures !ok ==>
        failures > old(failures) || (failures == old(failures) && (Misread() || clock >= old(clock) + 4200000))
      ensures ok ==> failures == old(failures)
      ensures ok ==> forall fd :: fd in waited ==> Exited(kernel, fds[fd])
    {
      var pending := waited;
      if pending == {} { return true; }
      var now := Monotonic();
      var deadline := now + BARRIER_TIMEOUT;
      while pending != {}
        invariant Ok() && Later(old(kernel), kernel) && pending <= waited
        invariant failures == old(failures) && clock >= now >= old(clock)
        invariant forall fd :: fd in waited && fd !in pending ==> Exited(kernel, fds[fd])
        decreases |pending|, if clock < deadline then 1 else 0
      {
        var left := AwaitSome(pending, deadline);
        if left.None? { return false; }
        pending := left.value;
      }
      ok := true;
    }

    /** Every unit process of the snapshot, other than the helper, has exited or has a descriptor. */
    ghost predicate Accounted(start: Kernel, pids: set<nat>)
      reads this
    {
      forall id :: Member(start, id) && start.procs[id].pid in pids ==> Exited(kernel, id) || Handled(fds, id)
    }

    /** One descriptor more, or the process is gone; a failure other than ProcessLookupError raises. */
    method OpenOne(ghost start: Kernel, pid: nat, ghost pids: set<nat>) returns (r: Open)
      requires Ok() && Later(start, kernel) && Accounted(start, pids)
      modifies this`kernel, this`tick, this`failures, this`fds, this`nextFd, this`handles
      ensures Ok() && Later(start, kernel) && Later(old(kernel), kernel)
      ensures failures == old(failures) + if r.OpenFailed? then 1 else 0
      ensures !r.OpenFailed? ==> Accounted(start, pids + {pid})
      ensures if r.Opened? then
          r.fd == old(nextFd) && r.fd !in old(fds) && r.fd in fds && fds == old(fds)[r.fd := fds[r.fd]]
            && kernel.procs[fds[r.fd]].pid == pid
        else fds == old(fds)
      ensures nextFd == if r.Opened? then old(nextFd) + 1 else old(nextFd)
      ensures forall first :: old(OpenSince(first)) ==> OpenSince(first)
    {
      ghost var handles := fds;
      r := PidfdOpen(pid);
      if r.Opened? {
        OpenedHolder(start, kernel, pid, fds[r.fd]);
        assert fds == handles[r.fd := fds[r.fd]];
        forall id | Handled(handles, id) || id == fds[r.fd] ensures Handled(fds, id) {
          if id == fds[r.fd] { assert r.fd in fds; } else {
            var fd :| fd in handles && handles[fd] == id; assert fd in fds;
          }
        }
      } else if r.NoSuchProcess? {
        NobodyHolds(start, kernel, pid);
      }
    }

    /** The loop of original_processes over the first inventory. */
    method OpenAll(pids: set<nat>, ghost start: Kernel) returns (pidfds: map<nat, nat>, ok: bool)
      requires Ok() && Later(start, kernel) && fds == map[]
      modifies this`kernel, this`tick, this`failures, this`fds, this`nextFd, this`handles
      ensures Ok() && Later(start, kernel) && pidfds.Values == fds.Keys && OpenSince(old(nextFd)) && pidfds.Keys <= pids
      ensures failures == old(failures) + if ok then 0 else 1
      ensures forall pid :: pid in pidfds ==> pidfds[pid] in fds && kernel.procs[fds[pidfds[pid]]].pid == pid
      ensures ok ==> Accounted(start, pids)
    {
      pidfds, ok := map[], false;
      var rest := pids;
      ghost var tried: set<nat> := {};
      while rest != {}
        invariant Ok() && Later(start, kernel) && rest + tried == pids && rest !! tried
        invariant pidfds.Values == fds.Keys && OpenSince(old(nextFd)) && pidfds.Keys <= tried
        invariant forall pid :: pid in pidfds ==> pidfds[pid] in fds && kernel.procs[fds[pidfds[pid]]].pid == pid
        invariant Accounted(start, tried) && failures == old(failures)
      {
        var pid :| pid in rest;
        rest := rest - {pid};
        ghost var before := pidfds;
        var handle := OpenOne(start, pid, tried);
        tried := tried + {pid};
        match handle {
          case Opened(fd) =>
            pidfds := pidfds[pid := fd];
            ValuesOfUpdate(before, pid, fd);
          case NoSuchProcess =>
          case OpenFailed => return;
        }
      }
      assert tried == pids;
      ok := true;
    }

    /** original_processes up to its yield; `pidfds` is what the finally block has to close. */
    method Capture() returns (pidfds: map<nat, nat>, ok: bool)
      requires Ok() && inventories == [] && fds == map[]
      modifies this`kernel, this`tick, this`failures, this`clock, this`inventories, this`fds, this`nextFd, this`handles,
        this`asked, this`polled
      ensures Ok() && pidfds.Values == fds.Keys && OpenSince(old(nextFd)) && clock >= old(clock)
      ensures !ok ==> failures > old(failures) || HelperMissing() || Newcomer() || LeftUnit() || Misread()
      ensures ok ==> failures == old(failures)
      ensures ok ==>
        && |inventories| == 2 && Later(inventories[0], kernel)
        && (forall id :: Member(inventories[0], id) && id != self ==> Exited(kernel, id) || Handled(fds, id))
        && (forall fd :: fd in fds ==> Exited(kernel, fds[fd]) || Member(inventories[1], fds[fd]))
    {
      hide HelperMissing, Newcomer, LeftUnit, Misread, Inventory, Handled, Valid;
      pidfds, ok := map[], false;
      var first := UnitPids();
      if first.None? { return; }
      ghost var start := kernel;
      var pids := first.value - {kernel.procs[self].pid};
      pidfds, ok := OpenAll(pids, start);
      if !ok { return; }
      OthersAccounted(start, kernel, fds, pids, self);
      ok := Confirm(pidfds, pids, start);
    }

    /** The second half of the capture: membership after opening, readiness after membership. */
    method Confirm(pidfds: map<nat, nat>, pids: set<nat>, ghost start: Kernel) returns (ok: bool)
      requires Ok() && inventories == [start] && pidfds.Values == fds.Keys && Later(start, kernel)
      requires self in start.procs && pids == Inventory(start) - {start.procs[self].pid} && pidfds.Keys <= pids
      requires forall pid :: pid in pidfds ==> pidfds[pid] in fds && kernel.procs[fds[pidfds[pid]]].pid == pid
      modifies this`kernel, this`tick, this`failures, this`clock, this`inventories, this`asked, this`polled
      ensures Ok() && Later(old(kernel), kernel) && clock >= old(clock)
      ensures !ok ==> failures > old(failures) || HelperMissing() || Newcomer() || LeftUnit() || Misread()
      ensures ok ==> failures == old(failures)
      ensures ok ==>
        && |inventories| == 2 && inventories[0] == start
        && (forall fd :: fd in fds ==> Exited(kernel, fds[fd]) || Member(inventories[1], fds[fd]))
    {
      var second := UnitPids();
      if second.None? { return false; }
      ghost var mid := kernel;
      var members := second.value - {kernel.procs[self].pid};
      if !(members <= pids) {
        var pid :| pid in members && pid !in pids;
        NewcomerListed(start, mid, pid);
        return false;
      }
      ok := StillInside(pidfds, members, mid);
    }

    /** Readiness after membership: every descriptor is of a listed process, or of one that has exited. */
    method StillInside(pidfds: map<nat, nat>, members: set<nat>, ghost mid: Kernel) returns (ok: bool)
      requires Ok() && |inventories| == 2 && inventories[1] == mid == kernel && pidfds.Values == fds.Keys
      requires members == Inventory(mid) - {mid.procs[self].pid}
      requires mid.procs[self].pid !in pidfds
      requires forall pid :: pid in pidfds ==> pidfds[pid] in fds && mid.procs[fds[pidfds[pid]]].pid == pid
      modifies this`kernel, this`tick, this`failures, this`clock, this`asked, this`polled
      ensures Ok() && Later(old(kernel), kernel) && clock >= old(clock)
      ensures !ok ==> failures > old(failures) || LeftUnit() || Misread()
      ensures ok ==> failures == old(failures)
      ensures ok ==> forall fd :: fd in fds ==> Exited(kernel, fds[fd]) || Member(mid, fds[fd])
    {
      var exited: set<nat> := {};
      if pidfds != map[] {
        var ready := ReadyPidfds(pidfds.Values, 0);
        if ready.None? { return false; }
        exited := ready.value;
      }
      if exists pid :: pid in pidfds && pid !in members && pidfds[pid] !in exited {
        var pid :| pid in pidfds && pid !in members;
        assert Outside(mid, fds[pidfds[pid]]);
        return false;
      }
      forall fd | fd in fds ensures Exited(kernel, fds[fd]) || Member(mid, fds[fd]) {
        var pid :| pid in pidfds && pidfds[pid] == fd;
        if fd !in exited && kernel.procs[fds[fd]].alive { StillTheMember(mid, pid, fds[fd]); }
      }
      ok := true;
    }

    method Close(fd: nat) returns (failed: bool)
      requires Ok() && fd in fds
      modifies this`kernel, this`tick, this`failures, this`fds, this`closes
      ensures failures == old(failures) + if failed then 1 else 0
      ensures Ok() && fds == old(fds) - {fd}
        && closes == old(closes)[fd := if fd in old(closes) then old(closes)[fd] + 1 else 1]
    {
      failed := Pause();
      closes := closes[fd := if fd in closes then closes[fd] + 1 else 1];
      fds := fds - {fd};
    }

    /** close_pidfds: every descriptor is closed once, whatever the closes return. */
    method ClosePidfds(all: set<nat>) returns (ok: bool)
      requires Ok() && all == fds.Keys && closes == map[]
      modifies this`kernel, this`tick, this`failures, this`fds, this`closes
      ensures failures >= old(failures) && (ok <==> failures == old(failures))
      ensures fds == map[] && closes.Keys == all && forall fd :: fd in closes ==> closes[fd] == 1
    {
      var rest := all;
      ok := true;
      while rest != {}
        invariant Ok() && rest <= all && fds.Keys == rest && closes.Keys == all - rest
        invariant failures >= old(failures) && (ok <==> failures == old(failures))
        invariant forall fd :: fd in closes ==> closes[fd] == 1
      {
        var fd :| fd in rest;
        rest := rest - {fd};
        var failed := Close(fd);
        if failed { ok := false; }
      }
    }

    /** What holds whenever `down` was issued. */
    ghost predicate SafeDown(i: Issued)
      reads this
    {
      i.command == Down ==>
        && |inventories| == 3
        && (forall id :: Member(inventories[0], id) && id != self ==> Exited(i.at, id))
        && self in inventories[2].procs && Inventory(inventories[2]) == {inventories[2].procs[self].pid}
        && Later(inventories[2], i.at)
    }

    // Why the helper gives up: each is about what the kernel answered, not about what the helper made of it.

    /** The last inventory did not list the helper. */
    ghost predicate HelperMissing()
      reads this`inventories
    {
      inventories != [] && var last := inventories[|inventories| - 1];
        self in last.procs && last.procs[self].pid !in Inventory(last)
    }

    /** The second inventory has a member whose pid was not in the first. */
    ghost predicate Newcomer()
      reads this`inventories
    {
      |inventories| == 2
        && exists id :: Member(inventories[1], id) && inventories[1].procs[id].pid !in Inventory(inventories[0])
    }

    /** A process behind a descriptor is not in the second inventory. */
    ghost predicate LeftUnit()
      reads this`inventories, this`handles
    {
      |inventories| == 2
        && exists fd :: fd in handles && Outside(inventories[1], handles[fd])
    }

    /** The last poll answered for a descriptor that it was not asked about, or with anything but readable. */
    ghost predicate Misread()
      reads this`asked, this`polled
    {
      exists k :: 0 <= k < |polled| && (polled[k].fd !in asked || polled[k].failed || !polled[k].readable)
    }

    /** The third inventory lists others than the helper. */
    ghost predicate OthersRemain()
      reads this`inventories
    {
      |inventories| == 3 && self in inventories[2].procs
        && Inventory(inventories[2]) != {inventories[2].procs[self].pid}
    }

    ghost predicate Trouble(failuresBefore: nat, clockBefore: nat)
      reads this`failures, this`inventories, this`handles, this`asked, this`polled, this`clock
    {
      failures > failuresBefore || HelperMissing() || Newcomer() || LeftUnit() || Misread() || OthersRemain()
      || clock >= clockBefore + 4200000
    }

    /** The drain: stop the ingress, stop all, and await every captured process. */
    method StopAndAwait(ghost first: Kernel) returns (ok: bool)
      requires Ok() && issued == [] && Later(first, kernel)
      requires forall id :: Member(first, id) && id != self ==> Exited(kernel, id) || Handled(fds, id)
      modifies this`kernel, this`tick, this`failures, this`clock, this`issued, this`asked, this`polled
      ensures clock >= old(clock)
      ensures !ok ==> failures > old(failures) || Misread() || clock >= old(clock) + 4200000
      ensures ok ==> failures == old(failures)
      ensures Ok() && Commands(issued) <= [StopIngress, StopAll]
      ensures forall k :: 0 <= k < |issued| ==> issued[k].command != Down
      ensures ok ==> Commands(issued) == [StopIngress, StopAll]
      ensures ok ==> forall id :: Member(first, id) && id != self ==> Exited(kernel, id)
    {
      ghost var captured := kernel;
      ghost var at;
      ok, at := Run(StopIngress, captured);
      if !ok { return; }
      ok, at := Run(StopAll, captured);
      if !ok { return; }
      ok := AwaitAll(first, captured);
    }

    method AwaitAll(ghost first: Kernel, ghost captured: Kernel) returns (ok: bool)
      requires Ok() && Later(captured, kernel)
      requires forall id :: Member(first, id) && id != self ==> Exited(captured, id) || Handled(fds, id)
      modifies this`kernel, this`tick, this`failures, this`clock, this`asked, this`polled
      ensures Ok() && clock >= old(clock)
      ensures !ok ==> failures > old(failures) || Misread() || clock >= old(clock) + 4200000
      ensures ok ==> failures == old(failures)
      ensures ok ==> forall id :: Member(first, id) && id != self ==> Exited(kernel, id)
    {
      ok := WaitForExit(fds.Keys);
      forall id | ok && Member(first, id) && id != self ensures Exited(kernel, id) {
        if Handled(fds, id) {
          var fd :| fd in fds && fds[fd] == id;
          assert Exited(kernel, fds[fd]);
        }
      }
    }

    /** The last inventory: nothing but the helper is left in the unit. */
    method OnlyHelperLeft(ghost first: Kernel) returns (alone: bool)
      requires Ok() && forall id :: Member(first, id) && id != self ==> Exited(kernel, id)
      modifies this`kernel, this`tick, this`failures, this`inventories
      ensures Ok() && forall id :: Member(first, id) && id != self ==> Exited(kernel, id)
      ensures !alone && |old(inventories)| == 2 ==> failures > old(failures) || HelperMissing() || OthersRemain()
      ensures alone ==> failures == old(failures)
      ensures alone ==> inventories == old(inventories) + [kernel] && Inventory(kernel) == {kernel.procs[self].pid}
    {
      var last := UnitPids();
      alone := last.Some? && last.value == {kernel.procs[self].pid};
    }

    method TakeDown() returns (code: nat)
      requires Ok() && |inventories| == 3 && kernel == inventories[2] && Commands(issued) == [StopIngress, StopAll]
      requires Inventory(kernel) == {kernel.procs[self].pid}
      requires forall id :: Member(inventories[0], id) && id != self ==> Exited(kernel, id)
      modifies this`kernel, this`tick, this`failures, this`issued
      ensures Ok() && forall k :: 0 <= k < |issued| ==> SafeDown(issued[k])
      ensures code <= 1 && failures >= old(failures) && (code == 0 <==> failures == old(failures))
      ensures [StopIngress, StopAll, Down] <= Commands(issued) <= [StopIngress, StopAll, Down, ListContainers]
      ensures code == 0 ==> Commands(issued) == [StopIngress, StopAll, Down, ListContainers]
    {
      assert forall k :: 0 <= k < 2 ==> Commands(issued)[k] == issued[k].command;
      code := 1;
      var ok, at := Run(Down, kernel);
      assert SafeDown(issued[2]);
      if !ok { return; }
      ok, at := Run(ListContainers, kernel);
      if ok { code := 0; }
    }

    /** The body of the with statement in main. */
    method Drain() returns (code: nat)
      requires Ok() && |inventories| == 2 && issued == [] && Later(inventories[0], kernel)
      requires forall id :: Member(inventories[0], id) && id != self ==> Exited(kernel, id) || Handled(fds, id)
      modifies this`kernel, this`tick, this`failures, this`clock, this`inventories, this`issued, this`asked, this`polled
      ensures Ok() && forall k :: 0 <= k < |issued| ==> SafeDown(issued[k])
      ensures Commands(issued) <= [StopIngress, StopAll, Down, ListContainers]
      ensures code == 0 ==> Commands(issued) == [StopIngress, StopAll, Down, ListContainers]
      ensures code <= 1 && (code == 0 ==> failures == old(failures))
      ensures code == 1 ==> Trouble(old(failures), old(clock))
    {
      var ok := StopAndAwait(inventories[0]);
      if !ok { return 1; }
      var alone := OnlyHelperLeft(inventories[0]);
      if !alone { return 1; }
      code := TakeDown();
    }

    /**
    main. If `down` was issued then every process that was in the unit at the first
    inventory, other than the helper, had exited, and the inventory just before held
    only the helper. The commands come in their order, the ingress first, and it fails only
    for a reason. Every descriptor opened is closed exactly once on every path.
    */
    method StopUnit(isRoot: bool, inOwnUnit: bool) returns (code: nat)
      requires Ok() && inventories == [] && fds == map[] && issued == [] && closes == map[]
      modifies this
      ensures forall k :: 0 <= k < |issued| ==> SafeDown(issued[k])
      ensures fds == map[] && forall fd: nat :: (fd in closes <==> old(nextFd) <= fd < nextFd) && (fd in closes ==>
        closes[fd] == 1)
      ensures Commands(issued) <= [StopIngress, StopAll, Down, ListContainers]
      ensures code == 0 ==> Commands(issued) == [StopIngress, StopAll, Down, ListContainers]
      ensures code <= 1 && (code == 0 ==> isRoot && inOwnUnit && failures == old(failures))
      ensures code == 1 && isRoot && inOwnUnit ==> Trouble(old(failures), old(clock))
      ensures !isRoot || !inOwnUnit ==> code == 1 && issued == []
    {
      if !isRoot || !inOwnUnit { return 1; }
      var pidfds, captured := Capture();
      code := 1;
      if captured {
        code := Drain();
      }
      var closedAll := ClosePidfds(pidfds.Values);
      if !closedAll { code := 1; }
    }
  }

  lemma {:induction false} ValuesOfUpdate(m: map<nat, nat>, k: nat, v: nat)
    requires k !in m
    ensures m[k := v].Values == m.Values + {v}
  {
    assert m[k := v][k] == v;
    forall w | w in m.Values ensures w in m[k := v].Values {
      var j :| j in m && m[j] == w;
      assert m[k := v][j] == w;
    }
  }

  /** The process is known, and its pid is not in the inventory. */
  ghost predicate Outside(k: Kernel, id: nat) {
    id in k.procs && k.procs[id].pid !in Inventory(k)
  }

  ghost predicate Handled(fds: map<nat, nat>, id: nat) {
    exists fd :: fd in fds && fds[fd] == id
  }

  lemma {:induction false} Shrinks(before: set<nat>, gone: set<nat>)
    requires gone <= before
    ensures |before - gone| == |before| - |gone| && (gone != {} ==> |before - gone| < |before|)
  {
    assert before == (before - gone) + gone;
    if gone != {} {
      var x :| x in gone;
      assert gone == {x} + (gone - {x});
    }
  }

  /** Who is accounted for by its pid is accounted for: the helper is the only member with its own pid. */
  lemma {:induction false} OthersAccounted(start: Kernel, now: Kernel, fds: map<nat, nat>, pids: set<nat>, self: nat)
    requires Valid(start) && self in start.procs && start.procs[self].alive
    requires pids == Inventory(start) - {start.procs[self].pid}
    requires forall id :: Member(start, id) && start.procs[id].pid in pids ==> Exited(now, id) || Handled(fds, id)
    ensures forall id :: Member(start, id) && id != self ==> Exited(now, id) || Handled(fds, id)
  {
    forall id | Member(start, id) && id != self ensures Exited(now, id) || Handled(fds, id) {
      assert start.procs[id].pid in Inventory(start);
    }
  }

  /** A unit process found by the inventory is the one that was opened, or it is gone. */
  lemma {:induction false} OpenedHolder(start: Kernel, now: Kernel, pid: nat, holder: nat)
    requires Valid(now) && Later(start, now) && pid in now.holder && now.holder[pid] == holder
    ensures forall id :: Member(start, id) && start.procs[id].pid == pid && id != holder ==> Exited(now, id)
  {
  }

  lemma {:induction false} NewcomerListed(start: Kernel, mid: Kernel, pid: nat)
    requires pid in Inventory(mid) && pid !in Inventory(start)
    ensures exists id :: Member(mid, id) && mid.procs[id].pid !in Inventory(start)
  {
    var id :| Member(mid, id) && mid.procs[id].pid == pid;
  }

  lemma {:induction false} NobodyHolds(start: Kernel, now: Kernel, pid: nat)
    requires Valid(now) && Later(start, now) && pid !in now.holder
    ensures forall id :: Member(start, id) && start.procs[id].pid == pid ==> Exited(now, id)
  {
  }

  /** A live process whose pid the second inventory lists is the unit member itself, not a reuse of its pid. */
  lemma {:induction false} StillTheMember(mid: Kernel, pid: nat, id: nat)
    requires Valid(mid) && pid in Inventory(mid) && id in mid.procs && mid.procs[id].alive && mid.procs[id].pid == pid
    ensures Member(mid, id)
  {
    var member :| Member(mid, member) && mid.procs[member].pid == pid;
    assert member == id;
  }
}
