/** What stores and loads return: in every interleaving the errno of the first call that failed them, and
    0 without one; and that each of them does return, with its whole effect, when it is let to run. */
module BlockOutcome {
  import opened BlockStore

  // ---- the errno that is returned ----

  /** The errno with which a store's next call fails the store; 0 if it does not. An existence check, a
      close after another failure and an unlink fail nothing. */
  function StoreErrno(job: Job, pc: Pc, a: Answer): int
    requires job.Store?
  {
    match pc
    case MakeDirs => if IsFailure(a) then a.errno else 0
    case Create => if IsFailure(a) then a.errno else 0
    case Write =>
      if a.Partial? && a.n < |job.src| then EIO
      else if a.FailAfter? && a.n <= |job.src| && a.errno > 0 then a.errno
      else 0
    case CloseWritten => if IsFailure(a) then a.errno else 0
    case Rename => if IsFailure(a) then a.errno else 0
    case _ => 0
  }

  /** The same for a load. A complete read of too few bytes counts as an input/output error. */
  function LoadErrno(s: State, job: Job, l: Local, a: Answer): int
    requires job.Load?
  {
    match l.pc
    case OpenRead => if IsFailure(a) then a.errno else 0
    case Read =>
      if a.Succeed? && l.fd in s.data && |s.data[l.fd]| < job.size then EIO
      else if IsFailure(a) then a.errno
      else 0
    case _ => 0
  }

  function Errno(cfg: Config, r: State, e: Event): int {
    if e.pid !in cfg.jobs || e.pid !in r.procs then 0
    else if cfg.jobs[e.pid].Store? then StoreErrno(cfg.jobs[e.pid], r.procs[e.pid].pc, e.answer)
    else LoadErrno(r, cfg.jobs[e.pid], r.procs[e.pid], e.answer)
  }

  /** The errno of the first call of a process that failed it. */
  function FirstErrno(cfg: Config, s: State, events: seq<Event>, pid: Pid): int {
    if events == [] then 0
    else
      var n := |events| - 1;
      var before := FirstErrno(cfg, s, events[..n], pid);
      if before != 0 || events[n].pid != pid then before else Errno(cfg, Run(cfg, s, events[..n]), events[n])
  }

  /** Whether the call that removes the temporary file failed. */
  predicate UnlinkFailed(cfg: Config, s: State, events: seq<Event>, pid: Pid) {
    events != [] &&
      var n := |events| - 1;
      var r := Run(cfg, s, events[..n]);
      || UnlinkFailed(cfg, s, events[..n], pid)
      || (events[n].pid == pid && UnlinkFails(cfg, r, events[n]))
  }

  /** The error a process carries. */
  function Carried(pc: Pc): int {
    match pc
    case CloseFailed(err) => err
    case RemoveTmp(err) => err
    case CloseUnread(err) => err
    case CloseShort => EIO
    case RemoveShort => EIO
    case Done(err, _) => err
    case _ => 0
  }

  ghost predicate CarriedOn(pc: Pc, pc': Pc, errno: int, unlinkFailed: bool) {
    && Carried(pc') == (if Carried(pc) != 0 then Carried(pc) else errno)
    && (Leftover(pc') <==> Leftover(pc) || unlinkFailed)
  }

  predicate Leftover(pc: Pc) {
    pc.Done? && pc.leftover
  }

  lemma StoreCarries(r: State, pid: Pid, job: Job, l: Local, a: Answer)
    requires job.Store? && pid in r.procs && r.procs[pid] == l
    ensures
      var r' := StoreStep(r, pid, job, l, a);
      && pid in r'.procs
      && CarriedOn(l.pc, r'.procs[pid].pc, StoreErrno(job, l.pc, a), l.pc.RemoveTmp? && IsFailure(a))
  {
  }

  lemma LoadCarries(r: State, pid: Pid, job: Job, l: Local, a: Answer)
    requires job.Load? && pid in r.procs && r.procs[pid] == l
    ensures
      var r' := LoadStep(r, pid, job, l, a);
      pid in r'.procs && CarriedOn(l.pc, r'.procs[pid].pc, LoadErrno(r, job, l, a), false)
  {
  }

  predicate UnlinkFails(cfg: Config, r: State, e: Event) {
    && e.pid in cfg.jobs && cfg.jobs[e.pid].Store? && e.pid in r.procs
    && r.procs[e.pid].pc.RemoveTmp? && IsFailure(e.answer)
  }

  lemma CarriedStep(cfg: Config, r: State, e: Event)
    requires e.pid in cfg.jobs && e.pid in r.procs && !r.procs[e.pid].pc.Crashed?
    ensures e.pid in Step(cfg, r, e).procs
    ensures
      var pc, pc' := r.procs[e.pid].pc, Step(cfg, r, e).procs[e.pid].pc;
      pc'.Crashed? || CarriedOn(pc, pc', Errno(cfg, r, e), UnlinkFails(cfg, r, e))
  {
    var l := r.procs[e.pid];
    if !l.pc.Done? && !e.answer.Crash? {
      if cfg.jobs[e.pid].Store? {
        StoreCarries(r, e.pid, cfg.jobs[e.pid], l, e.answer);
      } else {
        LoadCarries(r, e.pid, cfg.jobs[e.pid], l, e.answer);
      }
    }
  }

  /** In every interleaving a process that has returned has returned the errno of the first call that
      failed it, and 0 exactly if none did; a store says that its temporary file is left over exactly
      if the unlink failed. */
  lemma ReturnsFirstErrno(cfg: Config, s: State, events: seq<Event>, pid: Pid)
    requires Init(cfg, s) && pid in s.procs
    ensures
      var r := Run(cfg, s, events);
      pid in r.procs && (r.procs[pid].pc.Done? ==>
        && r.procs[pid].pc.err == FirstErrno(cfg, s, events, pid)
        && (r.procs[pid].pc.leftover <==> UnlinkFailed(cfg, s, events, pid)))
  {
    Carries(cfg, s, events, pid);
  }

  lemma {:induction false} Carries(cfg: Config, s: State, events: seq<Event>, pid: Pid)
    requires Init(cfg, s) && pid in s.procs
    ensures pid in Run(cfg, s, events).procs
    ensures
      var pc := Run(cfg, s, events).procs[pid].pc;
      pc.Crashed? ||
        (Carried(pc) == FirstErrno(cfg, s, events, pid) && (Leftover(pc) <==> UnlinkFailed(cfg, s, events, pid)))
  {
    if events != [] {
      var n := |events| - 1;
      Carries(cfg, s, events[..n], pid);
      var r := Run(cfg, s, events[..n]);
      if events[n].pid != pid {
        OthersKeep(cfg, r, events[n], pid);
      } else if !r.procs[pid].pc.Crashed? {
        CarriedStep(cfg, r, events[n]);
      } else {
        assert Step(cfg, r, events[n]) == r;
      }
    }
  }

  // ---- a crash ----

  /** A process that has not returned stops where it crashes: files are as they were, and it never
      makes another step. */
  lemma {:induction false} CrashStops(cfg: Config, s: State, pid: Pid, more: seq<Event>)
    requires pid in cfg.jobs && pid in s.procs && !s.procs[pid].pc.Done?
    ensures
      var r := Step(cfg, s, Event(pid, Crash));
      && r.dir == s.dir && r.data == s.data
      && pid in r.procs && r.procs[pid].pc == Crashed
      && pid in Run(cfg, r, more).procs && Run(cfg, r, more).procs[pid] == r.procs[pid]
  {
    var r := Step(cfg, s, Event(pid, Crash));
    if more != [] {
      var n := |more| - 1;
      CrashStops(cfg, s, pid, more[..n]);
      if more[n].pid != pid {
        OthersKeep(cfg, Run(cfg, r, more[..n]), more[n], pid);
      }
    }
  }

  // ---- a store that is let to run ----

  /** A store at its existence check. */
  ghost predicate StoreAtStart(cfg: Config, r: State, pid: Pid) {
    pid in cfg.jobs && pid in r.procs && cfg.jobs[pid].Store? && r.procs[pid].pc.Check?
  }

  /** It finds its destination present: it returns 0 and changes nothing. */
  lemma StoreFindsPresent(cfg: Config, r: State, pid: Pid)
    requires StoreAtStart(cfg, r, pid) && cfg.jobs[pid].dest in r.dir
    ensures
      var r' := Step(cfg, r, Event(pid, Succeed));
      r'.dir == r.dir && r'.data == r.data && r'.procs[pid].pc == Done(0, false)
  {
  }

  /** It finds its destination absent and its temporary name free, and every further call succeeds: it
      returns 0, its buffer is under the destination, and no other name has changed. */
  lemma StoreSucceeds(cfg: Config, s: State, events: seq<Event>, pid: Pid, errno: int)
    requires Init(cfg, s) && errno > 0
    requires
      var r := Run(cfg, s, events);
      StoreAtStart(cfg, r, pid) && cfg.jobs[pid].dest !in r.dir && cfg.jobs[pid].tmp !in r.dir
    ensures
      var r, job := Run(cfg, s, events), cfg.jobs[pid];
      var r' := Run(cfg, s, events + [Event(pid, Fail(errno))] + Successes(pid, 5));
      && pid in r'.procs && r'.procs[pid].pc == Done(0, false)
      && job.dest in r'.dir && r'.dir[job.dest] in r'.data && r'.data[r'.dir[job.dest]] == job.src
      && r'.dir - {job.dest} == r.dir
  {
    var absent := events + [Event(pid, Fail(errno))];
    RunSnoc(cfg, s, events, Event(pid, Fail(errno)));
    InTwoParts(cfg, s, absent, pid, 3, 2);
    RunKeeps(cfg, s, events);
    var r := Run(cfg, s, events);
    StoreFindsAbsent(cfg, r, pid, errno);
    StoresAlone(cfg, r, Step(cfg, r, Event(pid, Fail(errno))), pid);
  }

  lemma InTwoParts(cfg: Config, s: State, events: seq<Event>, pid: Pid, i: nat, k: nat)
    ensures Run(cfg, s, events + Successes(pid, i + k)) == Alone(cfg, Alone(cfg, Run(cfg, s, events), pid, i), pid, k)
  {
    RunAlone(cfg, s, events, pid, i);
    RunAlone(cfg, s, events + Successes(pid, i), pid, k);
    assert events + Successes(pid, i + k) == events + Successes(pid, i) + Successes(pid, k);
  }

  lemma StoreFindsAbsent(cfg: Config, r: State, pid: Pid, errno: int)
    requires StoreAtStart(cfg, r, pid) && errno > 0
    ensures Step(cfg, r, Event(pid, Fail(errno))) == Goto(r, pid, r.procs[pid].(pc := MakeDirs))
  {
  }

  /** The five steps after the existence check. */
  lemma StoresAlone(cfg: Config, r: State, r0: State, pid: Pid)
    requires cfg.Valid() && StoreAtStart(cfg, r, pid) && r0 == Goto(r, pid, r.procs[pid].(pc := MakeDirs))
    requires cfg.jobs[pid].dest !in r.dir && cfg.jobs[pid].tmp !in r.dir
    ensures
      var job := cfg.jobs[pid];
      var r' := Alone(cfg, Alone(cfg, r0, pid, 3), pid, 2);
      && pid in r'.procs && r'.procs[pid].pc == Done(0, false)
      && job.dest in r'.dir && r'.dir[job.dest] in r'.data && r'.data[r'.dir[job.dest]] == job.src
      && r'.dir - {job.dest} == r.dir
  {
    StoreCreates(cfg, r0, pid);
    var job, r3 := cfg.jobs[pid], Alone(cfg, r0, pid, 3);
    StoreRenames(cfg, r3, pid);
    Moved(r.dir, r3.dir, r0.next, job.tmp, job.dest);
  }

  lemma StoreCreates(cfg: Config, r0: State, pid: Pid)
    requires pid in cfg.jobs && pid in r0.procs && cfg.jobs[pid].Store? && r0.procs[pid].pc.MakeDirs?
    requires cfg.jobs[pid].tmp !in r0.dir
    ensures
      var r := Alone(cfg, r0, pid, 3);
      && pid in r.procs && r.procs[pid].pc == CloseWritten
      && r.dir == r0.dir[cfg.jobs[pid].tmp := r0.next] && r.data == r0.data[r0.next as int := cfg.jobs[pid].src]
  {
    var job, l := cfg.jobs[pid], r0.procs[pid];
    var r1 := Goto(r0, pid, l.(pc := Create));
    assert Alone(cfg, r0, pid, 1) == StoreStep(r0, pid, job, l, Succeed) == r1;
    var r2 := StoreStep(r1, pid, job, r1.procs[pid], Succeed);
    assert Alone(cfg, r0, pid, 2) == r2;
    assert r2.procs[pid].pc == Write && r2.procs[pid].fd == r0.next;
    assert Alone(cfg, r0, pid, 3) == StoreStep(r2, pid, job, r2.procs[pid], Succeed);
    assert r0.data[r0.next as int := []][r0.next as int := job.src] == r0.data[r0.next as int := job.src];
  }

  lemma StoreRenames(cfg: Config, r: State, pid: Pid)
    requires pid in cfg.jobs && pid in r.procs && cfg.jobs[pid].Store? && r.procs[pid].pc == CloseWritten
    requires cfg.jobs[pid].tmp in r.dir && cfg.jobs[pid].dest !in r.dir
    ensures
      var r', job := Alone(cfg, r, pid, 2), cfg.jobs[pid];
      && pid in r'.procs && r'.procs[pid].pc == Done(0, false) && r'.data == r.data
      && r'.dir == (r.dir - {job.tmp})[job.dest := r.dir[job.tmp]]
  {
    var job := cfg.jobs[pid];
    var r1 := Goto(r, pid, r.procs[pid].(pc := Rename));
    assert Alone(cfg, r, pid, 1) == StoreStep(r, pid, job, r.procs[pid], Succeed) == r1;
    assert Alone(cfg, r, pid, 2) == StoreStep(r1, pid, job, r1.procs[pid], Succeed);
  }

  lemma Moved(dir: map<Path, int>, created: map<Path, int>, inode: int, tmp: Path, dest: Path)
    requires tmp !in dir && dest !in dir && created == dir[tmp := inode]
    ensures (created - {tmp})[dest := inode] - {dest} == dir
  {
  }

  // ---- a load that is let to run ----

  /** A load at its open, whose path names a file. */
  ghost predicate LoadAtStart(cfg: Config, r: State, pid: Pid) {
    && pid in cfg.jobs && pid in r.procs && cfg.jobs[pid].Load? && r.procs[pid].pc.OpenRead?
    && cfg.jobs[pid].path in r.dir && r.dir[cfg.jobs[pid].path] in r.data
  }

  /** In every reachable state: a load whose path names a block that is long enough, and whose open and
      read succeed, returns 0 with the first bytes of it in its buffer, also if the close fails, and
      leaves all files as they are. */
  lemma LoadSucceeds(cfg: Config, s: State, events: seq<Event>, pid: Pid, close: Answer)
    requires Init(cfg, s) && (close.Succeed? || IsFailure(close))
    requires
      var r := Run(cfg, s, events);
      LoadAtStart(cfg, r, pid) && |r.data[r.dir[cfg.jobs[pid].path]]| >= cfg.jobs[pid].size
    ensures
      var r, job := Run(cfg, s, events), cfg.jobs[pid];
      var r' := Run(cfg, s, events + Successes(pid, 2) + [Event(pid, close)]);
      && pid in r'.procs && r'.procs[pid].pc == Done(0, false)
      && r'.procs[pid].buf == r.data[r.dir[job.path]][..job.size]
      && r'.dir == r.dir && r'.data == r.data
  {
    RunAlone(cfg, s, events, pid, 2);
    RunSnoc(cfg, s, events + Successes(pid, 2), Event(pid, close));
    var r := Run(cfg, s, events);
    OpensAndReads(cfg, r, pid);
    Closes(cfg, Alone(cfg, r, pid, 2), pid, close);
  }

  lemma OpensAndReads(cfg: Config, r: State, pid: Pid)
    requires LoadAtStart(cfg, r, pid)
    ensures
      var r', job := Alone(cfg, r, pid, 2), cfg.jobs[pid];
      var block := r.data[r.dir[job.path]];
      && pid in r'.procs && r'.dir == r.dir && r'.data == r.data
      && (|block| >= job.size ==> r'.procs[pid].pc == CloseRead && r'.procs[pid].buf == block[..job.size])
      && (|block| < job.size ==> r'.procs[pid].pc == CloseShort)
  {
    var job, l := cfg.jobs[pid], r.procs[pid];
    var r1 := Goto(r, pid, l.(pc := Read, fd := r.dir[job.path]));
    assert Alone(cfg, r, pid, 1) == LoadStep(r, pid, job, l, Succeed) == r1;
    assert Alone(cfg, r, pid, 2) == LoadStep(r1, pid, job, r1.procs[pid], Succeed);
  }

  lemma Closes(cfg: Config, r: State, pid: Pid, close: Answer)
    requires pid in cfg.jobs && pid in r.procs && cfg.jobs[pid].Load? && r.procs[pid].pc == CloseRead
    requires close.Succeed? || IsFailure(close)
    ensures Step(cfg, r, Event(pid, close)) == Goto(r, pid, r.procs[pid].(pc := Done(0, false)))
  {
  }

  /** In every reachable state: a load whose path names a block that is too short, and whose calls succeed,
      returns EIO and removes the name, and no other. */
  lemma LoadFindsShort(cfg: Config, s: State, events: seq<Event>, pid: Pid)
    requires Init(cfg, s)
    requires
      var r := Run(cfg, s, events);
      LoadAtStart(cfg, r, pid) && |r.data[r.dir[cfg.jobs[pid].path]]| < cfg.jobs[pid].size
    ensures
      var r, job := Run(cfg, s, events), cfg.jobs[pid];
      var r' := Run(cfg, s, events + Successes(pid, 4));
      && pid in r'.procs && r'.procs[pid].pc == Done(EIO, false)
      && r'.dir == r.dir - {job.path} && r'.data == r.data
  {
    InTwoParts(cfg, s, events, pid, 2, 2);
    var r := Run(cfg, s, events);
    OpensAndReads(cfg, r, pid);
    UnlinksShort(cfg, Alone(cfg, r, pid, 2), pid);
  }

  lemma UnlinksShort(cfg: Config, r: State, pid: Pid)
    requires pid in cfg.jobs && pid in r.procs && cfg.jobs[pid].Load? && r.procs[pid].pc == CloseShort
    ensures
      var r' := Alone(cfg, r, pid, 2);
      && pid in r'.procs && r'.procs[pid].pc == Done(EIO, false)
      && r'.dir == r.dir - {cfg.jobs[pid].path} && r'.data == r.data
  {
    var job := cfg.jobs[pid];
    var r1 := Goto(r, pid, r.procs[pid].(pc := RemoveShort));
    assert Alone(cfg, r, pid, 1) == LoadStep(r, pid, job, r.procs[pid], Succeed) == r1;
    assert Alone(cfg, r, pid, 2) == LoadStep(r1, pid, job, r1.procs[pid], Succeed);
  }
}
