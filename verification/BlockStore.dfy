/** The block store as a protocol: any number of stores and loads, each a process that makes one
    system call at a time, interleaved in any order, each of whose calls may fail and each of which
    may die between two calls.

    A directory maps names to inodes and inodes hold bytes, as in POSIX: open with O_EXCL refuses
    an existing name, rename replaces its target in one step, and an unlinked inode keeps its bytes
    for those who have it open. */
module BlockStore {

  type Path = string
  type Pid = nat
  newtype Byte = x: int | 0 <= x < 256
  type Block = seq<Byte>

  const EIO := 5

  datatype Job =
    | Store(tmp: Path, dest: Path, src: Block)
    | Load(path: Path, size: nat)

  /** Where a process is: the system call it makes next, or how it ended. `leftover` records that
      the removal of the temporary file itself failed. */
  datatype Pc =
    // store
    | Check | MakeDirs | Create | Write | CloseFailed(err: int) | CloseWritten | Rename | RemoveTmp(err: int)
    // load
    | OpenRead | Read | CloseUnread(err: int) | CloseShort | RemoveShort | CloseRead
    // either
    | Done(err: int, leftover: bool) | Crashed

  datatype Local = Local(pc: Pc, fd: int, buf: Block)

  datatype State = State(dir: map<Path, int>, data: map<int, Block>, next: nat, procs: map<Pid, Local>)

  /** What is fixed for a run: the jobs, the names used for temporary files, and the files present
      at the start under other names. */
  datatype Config = Config(jobs: map<Pid, Job>, tmps: set<Path>, files: map<Path, Block>)
  {
    /** Temporary and destination names are disjoint. */
    ghost predicate Valid() {
      && (forall p :: p in files ==> p !in tmps)
      && forall pid :: pid in jobs ==>
           match jobs[pid]
           case Store(tmp, dest, _) => tmp in tmps && dest !in tmps
           case Load(path, _) => path !in tmps
    }

    /** A complete content for a destination: its initial file, or the buffer of a store to it. */
    ghost predicate Complete(p: Path, block: Block) {
      || (p in files && files[p] == block)
      || exists pid :: pid in jobs && jobs[pid].Store? && jobs[pid].dest == p && jobs[pid].src == block
    }
  }

  /** How the environment answers the next call of a process. An answer that the call cannot give
      leaves the state as it is. */
  datatype Answer = Succeed | Fail(errno: int) | Partial(n: nat) | FailAfter(n: nat, errno: int) | Crash

  datatype Event = Event(pid: Pid, answer: Answer)

  // ---- steps ----

  function Goto(s: State, pid: Pid, l: Local): State {
    s.(procs := s.procs[pid := l])
  }

  predicate IsFailure(a: Answer) {
    a.Fail? && a.errno > 0
  }

  function StoreStep(s: State, pid: Pid, job: Job, l: Local, a: Answer): State
    requires job.Store?
  {
    match l.pc
    case Check =>
      if a.Succeed? && job.dest in s.dir then Goto(s, pid, l.(pc := Done(0, false)))
      else if IsFailure(a) then Goto(s, pid, l.(pc := MakeDirs))
      else s
    case MakeDirs =>
      if a.Succeed? then Goto(s, pid, l.(pc := Create))
      else if IsFailure(a) then Goto(s, pid, l.(pc := Done(a.errno, false)))
      else s
    case Create =>
      if a.Succeed? && job.tmp !in s.dir then
        Goto(s.(dir := s.dir[job.tmp := s.next], data := s.data[s.next as int := []], next := s.next + 1),
             pid, l.(pc := Write, fd := s.next))
      else if IsFailure(a) then Goto(s, pid, l.(pc := Done(a.errno, false)))
      else s
    case Write =>
      if a.Succeed? then
        Goto(s.(data := s.data[l.fd := job.src]), pid, l.(pc := CloseWritten))
      else if a.Partial? && a.n < |job.src| then
        Goto(s.(data := s.data[l.fd := job.src[..a.n]]), pid, l.(pc := CloseFailed(EIO)))
      else if a.FailAfter? && a.n <= |job.src| && a.errno > 0 then
        Goto(s.(data := s.data[l.fd := job.src[..a.n]]), pid, l.(pc := CloseFailed(a.errno)))
      else s
    case CloseFailed(err) =>
      if a.Succeed? || IsFailure(a) then Goto(s, pid, l.(pc := RemoveTmp(err))) else s
    case CloseWritten =>
      if a.Succeed? then Goto(s, pid, l.(pc := Rename))
      else if IsFailure(a) then Goto(s, pid, l.(pc := RemoveTmp(a.errno)))
      else s
    case Rename =>
      if a.Succeed? && job.tmp in s.dir then
        // two names of one file: rename does nothing
        if job.dest in s.dir && s.dir[job.dest] == s.dir[job.tmp] then Goto(s, pid, l.(pc := Done(0, false)))
        else Goto(s.(dir := (s.dir - {job.tmp})[job.dest := s.dir[job.tmp]]), pid, l.(pc := Done(0, false)))
      else if IsFailure(a) then Goto(s, pid, l.(pc := RemoveTmp(a.errno)))
      else s
    case RemoveTmp(err) =>
      if a.Succeed? then Goto(s.(dir := s.dir - {job.tmp}), pid, l.(pc := Done(err, false)))
      else if IsFailure(a) then Goto(s, pid, l.(pc := Done(err, true)))
      else s
    case _ => s
  }

  function LoadStep(s: State, pid: Pid, job: Job, l: Local, a: Answer): State
    requires job.Load?
  {
    match l.pc
    case OpenRead =>
      if a.Succeed? && job.path in s.dir then Goto(s, pid, l.(pc := Read, fd := s.dir[job.path]))
      else if IsFailure(a) then Goto(s, pid, l.(pc := Done(a.errno, false)))
      else s
    case Read =>
      if a.Succeed? && l.fd in s.data then
        var file := s.data[l.fd];
        if |file| < job.size then Goto(s, pid, l.(pc := CloseShort, buf := file))
        else Goto(s, pid, l.(pc := CloseRead, buf := file[..job.size]))
      else if IsFailure(a) then Goto(s, pid, l.(pc := CloseUnread(a.errno)))
      else s
    case CloseUnread(err) =>
      if a.Succeed? || IsFailure(a) then Goto(s, pid, l.(pc := Done(err, false))) else s
    case CloseShort =>
      if a.Succeed? || IsFailure(a) then Goto(s, pid, l.(pc := RemoveShort)) else s
    case RemoveShort =>
      if a.Succeed? then Goto(s.(dir := s.dir - {job.path}), pid, l.(pc := Done(EIO, false)))
      else if IsFailure(a) then Goto(s, pid, l.(pc := Done(EIO, false)))
      else s
    case CloseRead =>
      if a.Succeed? || IsFailure(a) then Goto(s, pid, l.(pc := Done(0, false))) else s
    case _ => s
  }

  function Step(cfg: Config, s: State, e: Event): State {
    if e.pid !in cfg.jobs || e.pid !in s.procs then s
    else
      var l := s.procs[e.pid];
      if l.pc.Done? || l.pc.Crashed? then s
      else if e.answer.Crash? then Goto(s, e.pid, l.(pc := Crashed))
      else if cfg.jobs[e.pid].Store? then StoreStep(s, e.pid, cfg.jobs[e.pid], l, e.answer)
      else LoadStep(s, e.pid, cfg.jobs[e.pid], l, e.answer)
  }

  function Run(cfg: Config, s: State, events: seq<Event>): State {
    if events == [] then s
    else Step(cfg, Run(cfg, s, events[..|events| - 1]), events[|events| - 1])
  }

  // ---- the invariant ----

  /** The store has created its temporary file and not yet renamed or removed it. */
  predicate Owning(job: Job, l: Local) {
    && job.Store?
    && (l.pc.Write? || l.pc.CloseFailed? || l.pc.CloseWritten? || l.pc.Rename? || l.pc.RemoveTmp?)
  }

  /** The load has its file open. */
  predicate Reading(job: Job, l: Local) {
    && job.Load?
    && (l.pc.Read? || l.pc.CloseUnread? || l.pc.CloseShort? || l.pc.RemoveShort? || l.pc.CloseRead?)
  }

  /** Names refer to inodes that hold bytes, and no two names to the same one. */
  ghost predicate DirectoryOk(s: State) {
    && (forall p :: p in s.dir ==> s.dir[p] in s.data)
    && (forall i :: i in s.data ==> 0 <= i < s.next)
    && (forall p, q :: p in s.dir && q in s.dir && s.dir[p] == s.dir[q] ==> p == q)
  }

  ghost predicate DestinationsComplete(cfg: Config, s: State)
    requires DirectoryOk(s)
  {
    forall p :: p in s.dir && p !in cfg.tmps ==> cfg.Complete(p, s.data[s.dir[p]])
  }

  /** An owner's temporary name refers to the inode it created; a written file holds the whole
      buffer; a store that has returned has no temporary entry of its own. */
  ghost predicate StoreOk(s: State, job: Job, l: Local)
    requires job.Store?
  {
    && l.fd < s.next
    && (l.pc.Check? || l.pc.MakeDirs? || l.pc.Create? ==> l.fd < 0)
    && (l.pc.CloseFailed? || l.pc.RemoveTmp? ==> l.pc.err > 0)
    && (Owning(job, l) ==> job.tmp in s.dir && s.dir[job.tmp] == l.fd && l.fd in s.data)
    && (l.pc.CloseWritten? || l.pc.Rename? ==> l.fd in s.data && s.data[l.fd] == job.src)
    && (l.pc.Done? && !l.pc.leftover ==> !(job.tmp in s.dir && s.dir[job.tmp] == l.fd))
  }

  /** The load's buffer is the first `size` bytes of a complete block of its path. */
  ghost predicate Filled(cfg: Config, job: Job, buf: Block)
    requires job.Load?
  {
    exists block :: cfg.Complete(job.path, block) && job.size <= |block| && buf == block[..job.size]
  }

  /** An open load has a complete block open; it removes it only if it is too short; a load that
      succeeds has filled its buffer from a complete block. */
  ghost predicate LoadOk(cfg: Config, s: State, job: Job, l: Local)
    requires job.Load?
  {
    && (Reading(job, l) ==> l.fd in s.data && cfg.Complete(job.path, s.data[l.fd]))
    && (l.pc.CloseUnread? ==> l.pc.err > 0)
    && (l.pc.CloseShort? || l.pc.RemoveShort? ==> l.fd in s.data && |s.data[l.fd]| < job.size)
    && (l.pc.CloseRead? || l.pc == Done(0, false) ==> Filled(cfg, job, l.buf))
  }

  ghost predicate ProcOk(cfg: Config, s: State, job: Job, l: Local) {
    if job.Store? then StoreOk(s, job, l) else LoadOk(cfg, s, job, l)
  }

  ghost predicate ProcsOk(cfg: Config, s: State) {
    forall pid :: pid in s.procs ==> pid in cfg.jobs && ProcOk(cfg, s, cfg.jobs[pid], s.procs[pid])
  }

  /** The inode of a temporary file is open in no other process. */
  ghost predicate Exclusive(cfg: Config, s: State)
    requires ProcsOk(cfg, s)
  {
    forall pid, other :: pid in s.procs && other in s.procs && pid != other ==>
      Apart(cfg.jobs[pid], s.procs[pid], cfg.jobs[other], s.procs[other])
  }

  ghost predicate Apart(job: Job, l: Local, job': Job, l': Local) {
    Owning(job, l) && (Owning(job', l') || Reading(job', l')) ==> l.fd != l'.fd
  }

  ghost predicate Inv(cfg: Config, s: State) {
    && cfg.Valid()
    && DirectoryOk(s) && DestinationsComplete(cfg, s)
    && ProcsOk(cfg, s) && Exclusive(cfg, s)
  }

  /** A step that only moves one process along, keeping the file it has open. */
  lemma MoveKeeps(cfg: Config, s: State, pid: Pid, l: Local)
    requires Inv(cfg, s) && pid in s.procs
    requires ProcOk(cfg, s, cfg.jobs[pid], l)
    requires Owning(cfg.jobs[pid], l) ==> Owning(cfg.jobs[pid], s.procs[pid]) && l.fd == s.procs[pid].fd
    requires Reading(cfg.jobs[pid], l) ==> Reading(cfg.jobs[pid], s.procs[pid]) && l.fd == s.procs[pid].fd
    ensures Inv(cfg, Goto(s, pid, l))
  {
    var s' := Goto(s, pid, l);
    assert forall q :: q in s'.procs ==> q in cfg.jobs && ProcOk(cfg, s', cfg.jobs[q], s'.procs[q]);
  }

  lemma CreateKeeps(cfg: Config, s: State, pid: Pid, l: Local)
    requires Inv(cfg, s) && pid in s.procs && s.procs[pid] == l && l.pc.Create? && cfg.jobs[pid].Store?
    requires cfg.jobs[pid].tmp !in s.dir
    ensures Inv(cfg, StoreStep(s, pid, cfg.jobs[pid], l, Succeed))
  {
    var s' := StoreStep(s, pid, cfg.jobs[pid], l, Succeed);
    forall q | q in s'.procs
      ensures q in cfg.jobs && ProcOk(cfg, s', cfg.jobs[q], s'.procs[q])
    {
      assert ProcOk(cfg, s, cfg.jobs[q], s.procs[q]);
    }
  }

  /** Writing changes one inode, and only its owner has that inode open. */
  lemma WriteKeeps(cfg: Config, s: State, pid: Pid, bytes: Block, pc: Pc)
    requires Inv(cfg, s) && pid in s.procs && cfg.jobs[pid].Store? && s.procs[pid].pc.Write?
    requires (pc.CloseFailed? && pc.err > 0) || (pc.CloseWritten? && bytes == cfg.jobs[pid].src)
    ensures
      var l := s.procs[pid];
      Inv(cfg, Goto(s.(data := s.data[l.fd := bytes]), pid, l.(pc := pc)))
  {
    var l := s.procs[pid];
    var s' := Goto(s.(data := s.data[l.fd := bytes]), pid, l.(pc := pc));
    assert ProcOk(cfg, s, cfg.jobs[pid], l);
    forall q | q in s'.procs
      ensures q in cfg.jobs && ProcOk(cfg, s', cfg.jobs[q], s'.procs[q])
    {
      assert ProcOk(cfg, s, cfg.jobs[q], s.procs[q]);
      assert q != pid ==> Apart(cfg.jobs[pid], l, cfg.jobs[q], s.procs[q]);
    }
    forall p | p in s'.dir && p !in cfg.tmps
      ensures cfg.Complete(p, s'.data[s'.dir[p]])
    {
      assert p != cfg.jobs[pid].tmp;
    }
    assert forall q, r :: q in s'.procs && r in s'.procs && q != r ==>
      Apart(cfg.jobs[q], s.procs[q], cfg.jobs[r], s.procs[r]);
  }

  /** Renaming publishes the whole buffer of the store under its destination. */
  lemma RenameKeeps(cfg: Config, s: State, pid: Pid)
    requires Inv(cfg, s) && pid in s.procs && cfg.jobs[pid].Store? && s.procs[pid].pc.Rename?
    ensures Inv(cfg, StoreStep(s, pid, cfg.jobs[pid], s.procs[pid], Succeed))
  {
    var l, job := s.procs[pid], cfg.jobs[pid];
    assert ProcOk(cfg, s, job, l);
    var s' := StoreStep(s, pid, job, l, Succeed);
    assert s' == Goto(s.(dir := (s.dir - {job.tmp})[job.dest := l.fd]), pid, l.(pc := Done(0, false)));
    forall q | q in s'.procs
      ensures q in cfg.jobs && ProcOk(cfg, s', cfg.jobs[q], s'.procs[q])
    {
      assert ProcOk(cfg, s, cfg.jobs[q], s.procs[q]);
      assert q != pid ==> Apart(job, l, cfg.jobs[q], s.procs[q]);
    }
    assert cfg.Complete(job.dest, job.src);
    assert forall q, r :: q in s'.procs && r in s'.procs && q != r ==>
      Apart(cfg.jobs[q], s.procs[q], cfg.jobs[r], s.procs[r]);
  }

  /** An owner's removal takes away its own temporary entry and no other. */
  lemma RemoveTmpKeeps(cfg: Config, s: State, pid: Pid)
    requires Inv(cfg, s) && pid in s.procs && cfg.jobs[pid].Store? && s.procs[pid].pc.RemoveTmp?
    ensures Inv(cfg, StoreStep(s, pid, cfg.jobs[pid], s.procs[pid], Succeed))
  {
    var l, job := s.procs[pid], cfg.jobs[pid];
    assert ProcOk(cfg, s, job, l);
    var s' := StoreStep(s, pid, job, l, Succeed);
    forall q | q in s'.procs
      ensures q in cfg.jobs && ProcOk(cfg, s', cfg.jobs[q], s'.procs[q])
    {
      assert ProcOk(cfg, s, cfg.jobs[q], s.procs[q]);
      assert q != pid ==> Apart(job, l, cfg.jobs[q], s.procs[q]);
    }
    assert forall q, r :: q in s'.procs && r in s'.procs && q != r ==>
      Apart(cfg.jobs[q], s.procs[q], cfg.jobs[r], s.procs[r]);
  }

  /** A load opens a published inode, which no store owns any more. */
  lemma OpenKeeps(cfg: Config, s: State, pid: Pid)
    requires Inv(cfg, s) && pid in s.procs && cfg.jobs[pid].Load? && s.procs[pid].pc.OpenRead?
    requires cfg.jobs[pid].path in s.dir
    ensures Inv(cfg, LoadStep(s, pid, cfg.jobs[pid], s.procs[pid], Succeed))
  {
    var job := cfg.jobs[pid];
    var s' := LoadStep(s, pid, job, s.procs[pid], Succeed);
    assert forall q :: q in s'.procs ==> q in cfg.jobs && ProcOk(cfg, s', cfg.jobs[q], s'.procs[q]);
    forall q, r | q in s'.procs && r in s'.procs && q != r
      ensures Apart(cfg.jobs[q], s'.procs[q], cfg.jobs[r], s'.procs[r])
    {
      assert Apart(cfg.jobs[q], s.procs[q], cfg.jobs[r], s.procs[r]);
      assert ProcOk(cfg, s, cfg.jobs[q], s.procs[q]);
    }
  }

  lemma RemoveShortKeeps(cfg: Config, s: State, pid: Pid)
    requires Inv(cfg, s) && pid in s.procs && cfg.jobs[pid].Load? && s.procs[pid].pc.RemoveShort?
    ensures Inv(cfg, LoadStep(s, pid, cfg.jobs[pid], s.procs[pid], Succeed))
  {
    var s' := LoadStep(s, pid, cfg.jobs[pid], s.procs[pid], Succeed);
    forall q | q in s'.procs
      ensures q in cfg.jobs && ProcOk(cfg, s', cfg.jobs[q], s'.procs[q])
    {
      assert ProcOk(cfg, s, cfg.jobs[q], s.procs[q]);
    }
    assert forall q, r :: q in s'.procs && r in s'.procs && q != r ==>
      Apart(cfg.jobs[q], s.procs[q], cfg.jobs[r], s.procs[r]);
  }

  lemma StoreStepKeeps(cfg: Config, s: State, pid: Pid, a: Answer)
    requires Inv(cfg, s) && pid in s.procs && cfg.jobs[pid].Store?
    ensures Inv(cfg, StoreStep(s, pid, cfg.jobs[pid], s.procs[pid], a))
  {
    var l, job := s.procs[pid], cfg.jobs[pid];
    assert ProcOk(cfg, s, job, l);
    var s' := StoreStep(s, pid, job, l, a);
    if s' == s {
    } else if l.pc.Create? && a.Succeed? {
      CreateKeeps(cfg, s, pid, l);
    } else if l.pc.Write? {
      WriteKeeps(cfg, s, pid, s'.data[l.fd], s'.procs[pid].pc);
    } else if l.pc.Rename? && a.Succeed? {
      RenameKeeps(cfg, s, pid);
    } else if l.pc.RemoveTmp? && a.Succeed? {
      RemoveTmpKeeps(cfg, s, pid);
    } else {
      MoveKeeps(cfg, s, pid, s'.procs[pid]);
    }
  }

  lemma LoadStepKeeps(cfg: Config, s: State, pid: Pid, a: Answer)
    requires Inv(cfg, s) && pid in s.procs && cfg.jobs[pid].Load?
    ensures Inv(cfg, LoadStep(s, pid, cfg.jobs[pid], s.procs[pid], a))
  {
    var l, job := s.procs[pid], cfg.jobs[pid];
    assert ProcOk(cfg, s, job, l);
    var s' := LoadStep(s, pid, job, l, a);
    if s' == s {
    } else if l.pc.OpenRead? && a.Succeed? {
      OpenKeeps(cfg, s, pid);
    } else if l.pc.RemoveShort? && a.Succeed? {
      RemoveShortKeeps(cfg, s, pid);
    } else {
      assert l.pc.Read? ==> cfg.Complete(job.path, s.data[l.fd]);
      MoveKeeps(cfg, s, pid, s'.procs[pid]);
    }
  }

  lemma StepKeeps(cfg: Config, s: State, e: Event)
    requires Inv(cfg, s)
    ensures Inv(cfg, Step(cfg, s, e))
  {
    if e.pid in s.procs && Step(cfg, s, e) != s {
      var l := s.procs[e.pid];
      if e.answer.Crash? {
        assert ProcOk(cfg, s, cfg.jobs[e.pid], l);
        MoveKeeps(cfg, s, e.pid, l.(pc := Crashed));
      } else if cfg.jobs[e.pid].Store? {
        StoreStepKeeps(cfg, s, e.pid, e.answer);
      } else {
        LoadStepKeeps(cfg, s, e.pid, e.answer);
      }
    }
  }

  // ---- whole runs ----

  /** The start of a run: every process at its first call, every file under its name, nothing under
      destination names but the initial files. Files left by earlier crashes may lie under
      temporary names. */
  ghost predicate Init(cfg: Config, s: State) {
    && cfg.Valid()
    && DirectoryOk(s)
    && (forall p :: p in s.dir && p !in cfg.tmps ==> p in cfg.files && s.data[s.dir[p]] == cfg.files[p])
    && (forall p :: p in cfg.files ==> p in s.dir)
    && forall pid :: pid in s.procs ==>
         pid in cfg.jobs && s.procs[pid] == Local(if cfg.jobs[pid].Store? then Check else OpenRead, -1, [])
  }

  /** The invariant holds in every reachable state. */
  lemma {:induction false} RunKeeps(cfg: Config, s: State, events: seq<Event>)
    requires Init(cfg, s)
    ensures Inv(cfg, Run(cfg, s, events))
  {
    if events == [] {
      assert forall p :: p in s.dir && p !in cfg.tmps ==> cfg.Complete(p, s.data[s.dir[p]]);
    } else {
      RunKeeps(cfg, s, events[..|events| - 1]);
      StepKeeps(cfg, Run(cfg, s, events[..|events| - 1]), events[|events| - 1]);
    }
  }

  /** In every interleaving, a destination name refers to nothing but the initial file of that name
      or the whole buffer of a store to it. */
  lemma PublishedIsComplete(cfg: Config, s: State, events: seq<Event>, p: Path)
    requires Init(cfg, s) && p !in cfg.tmps
    ensures
      var r := Run(cfg, s, events);
      p in r.dir ==> r.dir[p] in r.data && cfg.Complete(p, r.data[r.dir[p]])
  {
    RunKeeps(cfg, s, events);
  }

  /** In every interleaving, a load that returns 0 has filled its buffer with the first `size` bytes
      of one complete block; where no complete block of the path is longer than `size`, that is
      the block itself, even if the initial file was truncated. */
  lemma LoadIsComplete(cfg: Config, s: State, events: seq<Event>, pid: Pid)
    requires Init(cfg, s) && pid in s.procs && cfg.jobs[pid].Load?
    ensures
      var r := Run(cfg, s, events);
      var job := cfg.jobs[pid];
      pid in r.procs && r.procs[pid].pc == Done(0, false) ==>
        && |r.procs[pid].buf| == job.size
        && Filled(cfg, job, r.procs[pid].buf)
        && ((forall block :: cfg.Complete(job.path, block) ==> |block| <= job.size) ==>
              cfg.Complete(job.path, r.procs[pid].buf))
  {
    RunKeeps(cfg, s, events);
    var r := Run(cfg, s, events);
    var job := cfg.jobs[pid];
    if pid in r.procs && r.procs[pid].pc == Done(0, false) {
      assert ProcOk(cfg, r, job, r.procs[pid]);
      var buf := r.procs[pid].buf;
      var block :| cfg.Complete(job.path, block) && job.size <= |block| && buf == block[..job.size];
      if |block| <= job.size {
        assert buf == block;
      }
    }
  }

  // ---- ownership of temporary names ----

  ghost predicate OwnerOf(cfg: Config, s: State, pid: Pid, tmp: Path) {
    && pid in s.procs && pid in cfg.jobs
    && Owning(cfg.jobs[pid], s.procs[pid]) && cfg.jobs[pid].tmp == tmp
  }

  /** In every interleaving a temporary name has at most one live owner, and it refers to the inode
      that owner created. */
  lemma OneOwner(cfg: Config, s: State, events: seq<Event>, tmp: Path, a: Pid, b: Pid)
    requires Init(cfg, s)
    ensures
      var r := Run(cfg, s, events);
      OwnerOf(cfg, r, a, tmp) && OwnerOf(cfg, r, b, tmp) ==>
        a == b && tmp in r.dir && r.dir[tmp] == r.procs[a].fd
  {
    RunKeeps(cfg, s, events);
    var r := Run(cfg, s, events);
    if OwnerOf(cfg, r, a, tmp) && OwnerOf(cfg, r, b, tmp) {
      assert ProcOk(cfg, r, cfg.jobs[a], r.procs[a]) && ProcOk(cfg, r, cfg.jobs[b], r.procs[b]);
      assert a != b ==> Apart(cfg.jobs[a], r.procs[a], cfg.jobs[b], r.procs[b]);
    }
  }

  /** In every interleaving, whoever takes a temporary entry away, by rename or unlink, or changes
      the bytes behind it, is its owner. */
  lemma OnlyOwnerTouches(cfg: Config, s: State, events: seq<Event>, e: Event, tmp: Path)
    requires Init(cfg, s) && tmp in cfg.tmps
    ensures
      var r := Run(cfg, s, events);
      var r' := Step(cfg, r, e);
      tmp in r.dir && !OwnerOf(cfg, r, e.pid, tmp) ==> SameEntry(r, r', tmp)
  {
    RunKeeps(cfg, s, events);
    var r := Run(cfg, s, events);
    if tmp in r.dir && !OwnerOf(cfg, r, e.pid, tmp) {
      NonOwnerLeaves(cfg, r, e, tmp);
    }
  }

  lemma NonOwnerLeaves(cfg: Config, r: State, e: Event, tmp: Path)
    requires Inv(cfg, r) && tmp in cfg.tmps && tmp in r.dir && !OwnerOf(cfg, r, e.pid, tmp)
    ensures SameEntry(r, Step(cfg, r, e), tmp)
  {
    if e.pid in r.procs {
      var job, l := cfg.jobs[e.pid], r.procs[e.pid];
      assert ProcOk(cfg, r, job, l);
      if job.Store? {
        NonOwningStore(r, e.pid, job, l, e.answer, tmp);
      } else {
        LoadLeaves(r, e.pid, job, l, e.answer, tmp);
      }
    }
  }

  /** The name refers to the same inode with the same bytes. */
  ghost predicate SameEntry(r: State, r': State, p: Path)
    requires p in r.dir
  {
    && p in r'.dir && r'.dir[p] == r.dir[p]
    && r.dir[p] in r.data && r.dir[p] in r'.data && r'.data[r.dir[p]] == r.data[r.dir[p]]
  }

  lemma NonOwningStore(r: State, pid: Pid, job: Job, l: Local, a: Answer, tmp: Path)
    requires DirectoryOk(r) && job.Store? && StoreOk(r, job, l) && tmp in r.dir && job.dest != tmp
    requires Owning(job, l) ==> job.tmp != tmp
    ensures SameEntry(r, StoreStep(r, pid, job, l, a), tmp)
  {
  }

  lemma LoadLeaves(r: State, pid: Pid, job: Job, l: Local, a: Answer, tmp: Path)
    requires DirectoryOk(r) && job.Load? && tmp in r.dir && job.path != tmp
    ensures SameEntry(r, LoadStep(r, pid, job, l, a), tmp)
  {
  }

  /** Every store that returns, and whose own unlink did not fail, leaves no temporary entry of its
      own: its temporary name is free, or refers to a file created by somebody else. */
  lemma ReturnedStoreLeavesNothing(cfg: Config, s: State, events: seq<Event>, pid: Pid)
    requires Init(cfg, s) && pid in s.procs && cfg.jobs[pid].Store?
    ensures
      var r := Run(cfg, s, events);
      pid in r.procs && r.procs[pid].pc.Done? && !r.procs[pid].pc.leftover ==>
        !(cfg.jobs[pid].tmp in r.dir && r.dir[cfg.jobs[pid].tmp] == r.procs[pid].fd)
  {
    RunKeeps(cfg, s, events);
    var r := Run(cfg, s, events);
    if pid in r.procs {
      assert ProcOk(cfg, r, cfg.jobs[pid], r.procs[pid]);
    }
  }

  /** A temporary file without a live owner, such as one left by a crash. */
  ghost predicate Orphan(cfg: Config, s: State, tmp: Path) {
    tmp in cfg.tmps && tmp in s.dir && forall pid :: !OwnerOf(cfg, s, pid, tmp)
  }

  ghost predicate SameLocal(s: State, s': State, pid: Pid) {
    if pid in s.procs then pid in s'.procs && s'.procs[pid] == s.procs[pid] else pid !in s'.procs
  }

  lemma StoreMoves(s: State, pid: Pid, job: Job, l: Local, a: Answer, other: Pid)
    requires job.Store? && other != pid
    ensures SameLocal(s, StoreStep(s, pid, job, l, a), other)
  {
  }

  lemma LoadMoves(s: State, pid: Pid, job: Job, l: Local, a: Answer, other: Pid)
    requires job.Load? && other != pid
    ensures SameLocal(s, LoadStep(s, pid, job, l, a), other)
  {
  }

  /** A step of one process leaves the others where they are. */
  lemma OthersKeep(cfg: Config, r: State, e: Event, pid: Pid)
    requires pid != e.pid
    ensures SameLocal(r, Step(cfg, r, e), pid)
  {
    if e.pid in cfg.jobs && e.pid in r.procs {
      if cfg.jobs[e.pid].Store? {
        StoreMoves(r, e.pid, cfg.jobs[e.pid], r.procs[e.pid], e.answer, pid);
      } else {
        LoadMoves(r, e.pid, cfg.jobs[e.pid], r.procs[e.pid], e.answer, pid);
      }
    }
  }

  /** O_EXCL: while a temporary name is taken, nobody becomes its owner. */
  lemma NoNewOwner(cfg: Config, r: State, e: Event, pid: Pid, tmp: Path)
    requires Inv(cfg, r) && tmp in r.dir && !OwnerOf(cfg, r, pid, tmp)
    ensures !OwnerOf(cfg, Step(cfg, r, e), pid, tmp)
  {
    if pid != e.pid {
      OthersKeep(cfg, r, e, pid);
    }
  }

  lemma OrphanStep(cfg: Config, r: State, e: Event, tmp: Path)
    requires Inv(cfg, r) && Orphan(cfg, r, tmp)
    ensures
      var r' := Step(cfg, r, e);
      Orphan(cfg, r', tmp) && SameEntry(r, r', tmp)
  {
    NonOwnerLeaves(cfg, r, e, tmp);
    forall pid
      ensures !OwnerOf(cfg, Step(cfg, r, e), pid, tmp)
    {
      NoNewOwner(cfg, r, e, pid, tmp);
    }
  }

  /** O_EXCL keeps an orphan an orphan: from then on it is never renamed, removed or written. */
  lemma {:induction false} OrphanStays(cfg: Config, s: State, events: seq<Event>, more: seq<Event>, tmp: Path)
    requires Init(cfg, s) && Orphan(cfg, Run(cfg, s, events), tmp)
    ensures
      var r, r' := Run(cfg, s, events), Run(cfg, s, events + more);
      Orphan(cfg, r', tmp) && SameEntry(r, r', tmp)
    decreases |more|
  {
    RunKeeps(cfg, s, events);
    if more == [] {
      assert events + more == events;
    } else {
      var n := |more| - 1;
      OrphanStays(cfg, s, events, more[..n], tmp);
      var all := events + more;
      assert all[..|all| - 1] == events + more[..n] && all[|all| - 1] == more[n];
      RunKeeps(cfg, s, events + more[..n]);
      OrphanStep(cfg, Run(cfg, s, events + more[..n]), more[n], tmp);
    }
  }

  // ---- when a block stays ----

  /** Every load of a path asks for no more than any complete block of that path holds. */
  ghost predicate NoneTooShort(cfg: Config) {
    forall pid, block :: pid in cfg.jobs && cfg.jobs[pid].Load? && cfg.Complete(cfg.jobs[pid].path, block) ==>
      cfg.jobs[pid].size <= |block|
  }

  /** In every interleaving a load is about to remove its file only if the complete block it opened
      is shorter than it asked for; so where no block is too short, no load ever removes a file. */
  lemma RemovesOnlyShort(cfg: Config, s: State, events: seq<Event>, pid: Pid)
    requires Init(cfg, s) && pid in s.procs && cfg.jobs[pid].Load?
    ensures
      var r := Run(cfg, s, events);
      pid in r.procs && r.procs[pid].pc.RemoveShort? ==>
        && r.procs[pid].fd in r.data
        && cfg.Complete(cfg.jobs[pid].path, r.data[r.procs[pid].fd])
        && |r.data[r.procs[pid].fd]| < cfg.jobs[pid].size
        && !NoneTooShort(cfg)
  {
    RunKeeps(cfg, s, events);
    var r := Run(cfg, s, events);
    if pid in r.procs && r.procs[pid].pc.RemoveShort? {
      assert ProcOk(cfg, r, cfg.jobs[pid], r.procs[pid]);
    }
  }

  lemma PublishedStep(cfg: Config, r: State, e: Event, p: Path)
    requires Inv(cfg, r) && NoneTooShort(cfg) && p !in cfg.tmps && p in r.dir
    ensures p in Step(cfg, r, e).dir
  {
    if e.pid in r.procs {
      var job, l := cfg.jobs[e.pid], r.procs[e.pid];
      assert ProcOk(cfg, r, job, l);
      if job.Store? {
        StoreKeepsName(r, e.pid, job, l, e.answer, p);
      } else {
        LoadKeepsName(r, e.pid, job, l, e.answer, p);
      }
    }
  }

  lemma StoreKeepsName(r: State, pid: Pid, job: Job, l: Local, a: Answer, p: Path)
    requires job.Store? && p in r.dir && job.tmp != p
    ensures p in StoreStep(r, pid, job, l, a).dir
  {
  }

  lemma LoadKeepsName(r: State, pid: Pid, job: Job, l: Local, a: Answer, p: Path)
    requires job.Load? && p in r.dir && (l.pc.RemoveShort? ==> job.path != p)
    ensures p in LoadStep(r, pid, job, l, a).dir
  {
  }

  /** Where no block is too short, a published block stays published. */
  lemma {:induction false} PublishedStays(
      cfg: Config, s: State, events: seq<Event>, more: seq<Event>, p: Path)
    requires Init(cfg, s) && NoneTooShort(cfg) && p !in cfg.tmps && p in Run(cfg, s, events).dir
    ensures p in Run(cfg, s, events + more).dir
    decreases |more|
  {
    if more == [] {
      assert events + more == events;
    } else {
      var n := |more| - 1;
      PublishedStays(cfg, s, events, more[..n], p);
      var all := events + more;
      assert all[..|all| - 1] == events + more[..n] && all[|all| - 1] == more[n];
      RunKeeps(cfg, s, events + more[..n]);
      PublishedStep(cfg, Run(cfg, s, events + more[..n]), more[n], p);
    }
  }

  ghost predicate StoreReturnedZero(s: State, pid: Pid) {
    pid in s.procs && s.procs[pid].pc.Done? && s.procs[pid].pc.err == 0
  }

  lemma StoredStep(cfg: Config, r: State, e: Event, pid: Pid)
    requires Inv(cfg, r) && pid in cfg.jobs && cfg.jobs[pid].Store?
    requires StoreReturnedZero(Step(cfg, r, e), pid)
    ensures StoreReturnedZero(r, pid) || cfg.jobs[pid].dest in Step(cfg, r, e).dir
  {
    if pid != e.pid {
      OthersKeep(cfg, r, e, pid);
    } else {
      assert ProcOk(cfg, r, cfg.jobs[pid], r.procs[pid]);
    }
  }

  /** Where no block is too short, a store that has returned 0 has its destination published, with
      a complete block, from then on. */
  lemma {:induction false} StoredStays(cfg: Config, s: State, events: seq<Event>, pid: Pid)
    requires Init(cfg, s) && NoneTooShort(cfg) && pid in cfg.jobs && cfg.jobs[pid].Store?
    ensures
      var r, dest := Run(cfg, s, events), cfg.jobs[pid].dest;
      StoreReturnedZero(r, pid) ==>
        dest in r.dir && r.dir[dest] in r.data && cfg.Complete(dest, r.data[r.dir[dest]])
  {
    RunKeeps(cfg, s, events);
    if events != [] && StoreReturnedZero(Run(cfg, s, events), pid) {
      var n := |events| - 1;
      var mid := Run(cfg, s, events[..n]);
      RunKeeps(cfg, s, events[..n]);
      StoredStep(cfg, mid, events[n], pid);
      if StoreReturnedZero(mid, pid) {
        StoredStays(cfg, s, events[..n], pid);
        PublishedStep(cfg, mid, events[n], cfg.jobs[pid].dest);
      }
    }
  }

  // ---- the condition is exact ----

  ghost predicate BlocksStay(cfg: Config, s: State) {
    forall events, more, p :: p !in cfg.tmps ==> StaysOver(cfg, s, events, more, p)
  }

  ghost predicate StaysOver(cfg: Config, s: State, events: seq<Event>, more: seq<Event>, p: Path) {
    p in Run(cfg, s, events).dir ==> p in Run(cfg, s, events + more).dir
  }

  /** k steps of a process running alone, all successful. */
  function Alone(cfg: Config, s: State, pid: Pid, k: nat): State {
    if k == 0 then s else Step(cfg, Alone(cfg, s, pid, k - 1), Event(pid, Succeed))
  }

  function Successes(pid: Pid, k: nat): seq<Event> {
    seq(k, i => Event(pid, Succeed))
  }

  lemma {:induction false} RunAlone(cfg: Config, s: State, events: seq<Event>, pid: Pid, k: nat)
    ensures Run(cfg, s, events + Successes(pid, k)) == Alone(cfg, Run(cfg, s, events), pid, k)
  {
    if k == 0 {
      assert events + Successes(pid, 0) == events;
    } else {
      RunAlone(cfg, s, events, pid, k - 1);
      RunSnoc(cfg, s, events + Successes(pid, k - 1), Event(pid, Succeed));
      assert events + Successes(pid, k) == events + Successes(pid, k - 1) + [Event(pid, Succeed)];
    }
  }

  lemma RunSnoc(cfg: Config, s: State, events: seq<Event>, e: Event)
    ensures Run(cfg, s, events + [e]) == Step(cfg, Run(cfg, s, events), e)
  {
    assert (events + [e])[..|events|] == events;
  }

  /** A load that has not begun and whose block is too short for it. */
  ghost predicate AboutToFindShort(cfg: Config, r: State, pid: Pid) {
    && pid in cfg.jobs && pid in r.procs && cfg.jobs[pid].Load? && r.procs[pid].pc.OpenRead?
    && cfg.jobs[pid].path in r.dir && r.dir[cfg.jobs[pid].path] in r.data
    && |r.data[r.dir[cfg.jobs[pid].path]]| < cfg.jobs[pid].size
  }

  lemma ReadsShort(cfg: Config, r: State, pid: Pid)
    requires AboutToFindShort(cfg, r, pid)
    ensures
      var r2 := Alone(cfg, r, pid, 2);
      pid in r2.procs && r2.procs[pid].pc == CloseShort
  {
    var job, l := cfg.jobs[pid], r.procs[pid];
    var r1 := Goto(r, pid, l.(pc := Read, fd := r.dir[job.path]));
    assert Alone(cfg, r, pid, 1) == LoadStep(r, pid, job, l, Succeed) == r1;
    assert Alone(cfg, r, pid, 2) == LoadStep(r1, pid, job, r1.procs[pid], Succeed);
  }

  lemma RemovesShort(cfg: Config, r: State, pid: Pid)
    requires pid in cfg.jobs && pid in r.procs && cfg.jobs[pid].Load? && r.procs[pid].pc == CloseShort
    ensures cfg.jobs[pid].path !in Alone(cfg, r, pid, 2).dir
  {
    assert Alone(cfg, r, pid, 1) == LoadStep(r, pid, cfg.jobs[pid], r.procs[pid], Succeed);
  }

  /** Run alone, it removes the block. */
  lemma LoadRemoves(cfg: Config, s: State, events: seq<Event>, pid: Pid)
    requires AboutToFindShort(cfg, Run(cfg, s, events), pid)
    ensures cfg.jobs[pid].path !in Run(cfg, s, events + Successes(pid, 4)).dir
  {
    RunAlone(cfg, s, events, pid, 2);
    RunAlone(cfg, s, events + Successes(pid, 2), pid, 2);
    assert events + Successes(pid, 4) == events + Successes(pid, 2) + Successes(pid, 2);
    ReadsShort(cfg, Run(cfg, s, events), pid);
    RemovesShort(cfg, Run(cfg, s, events + Successes(pid, 2)), pid);
  }

  /** A store that has not begun, run alone over a free temporary name, publishes its buffer and
      returns 0. */
  lemma StorePublishes(cfg: Config, s: State, pid: Pid) returns (events: seq<Event>)
    requires Init(cfg, s) && pid in s.procs && cfg.jobs[pid].Store? && cfg.jobs[pid].tmp !in s.dir
    ensures
      var r, job := Run(cfg, s, events), cfg.jobs[pid];
      && pid in r.procs && r.procs[pid].pc == Done(0, false)
      && job.dest in r.dir && r.dir[job.dest] in r.data && r.data[r.dir[job.dest]] == job.src
      && forall q :: q in s.procs && q != pid ==> q in r.procs && r.procs[q] == s.procs[q]
  {
    var absent := [Event(pid, Fail(1))];
    events := absent + Successes(pid, 5);
    RunSnoc(cfg, s, [], absent[0]);
    assert [] + absent == absent;
    assert Successes(pid, 5) == Successes(pid, 3) + Successes(pid, 2);
    assert events == absent + Successes(pid, 3) + Successes(pid, 2);
    RunAlone(cfg, s, absent, pid, 3);
    RunAlone(cfg, s, absent + Successes(pid, 3), pid, 2);
    StoreWrites(cfg, s, pid);
    StoreEnds(cfg, Run(cfg, s, absent + Successes(pid, 3)), pid);
  }

  /** The store has written its file and not closed it. */
  ghost predicate HasWritten(cfg: Config, r: State, pid: Pid) {
    && pid in r.procs && pid in cfg.jobs && cfg.jobs[pid].Store? && r.procs[pid].pc == CloseWritten
    && cfg.jobs[pid].tmp in r.dir
    && r.dir[cfg.jobs[pid].tmp] in r.data && r.data[r.dir[cfg.jobs[pid].tmp]] == cfg.jobs[pid].src
  }

  lemma StoreWrites(cfg: Config, s: State, pid: Pid)
    requires pid in s.procs && pid in cfg.jobs && cfg.jobs[pid].Store? && s.procs[pid].pc.Check?
    requires cfg.jobs[pid].tmp !in s.dir
    ensures
      var r := Alone(cfg, Step(cfg, s, Event(pid, Fail(1))), pid, 3);
      HasWritten(cfg, r, pid) && forall q :: q in s.procs && q != pid ==> q in r.procs && r.procs[q] == s.procs[q]
  {
    var job, l := cfg.jobs[pid], s.procs[pid];
    var r0 := Goto(s, pid, l.(pc := MakeDirs));
    assert Step(cfg, s, Event(pid, Fail(1))) == r0;
    var r1 := Goto(s, pid, l.(pc := Create));
    assert Alone(cfg, r0, pid, 1) == StoreStep(r0, pid, job, r0.procs[pid], Succeed) == r1;
    var r2 := StoreStep(r1, pid, job, r1.procs[pid], Succeed);
    assert Alone(cfg, r0, pid, 2) == r2;
    assert r2.procs[pid].pc == Write && r2.procs[pid].fd == s.next;
    assert Alone(cfg, r0, pid, 3) == StoreStep(r2, pid, job, r2.procs[pid], Succeed);
  }

  lemma StoreEnds(cfg: Config, r: State, pid: Pid)
    requires HasWritten(cfg, r, pid)
    ensures
      var r', job := Alone(cfg, r, pid, 2), cfg.jobs[pid];
      && pid in r'.procs && r'.procs[pid].pc == Done(0, false)
      && job.dest in r'.dir && r'.dir[job.dest] in r'.data && r'.data[r'.dir[job.dest]] == job.src
      && forall q :: q in r.procs && q != pid ==> q in r'.procs && r'.procs[q] == r.procs[q]
  {
    var job := cfg.jobs[pid];
    var r1 := Goto(r, pid, r.procs[pid].(pc := Rename));
    assert Alone(cfg, r, pid, 1) == StoreStep(r, pid, job, r.procs[pid], Succeed) == r1;
    assert Alone(cfg, r, pid, 2) == StoreStep(r1, pid, job, r1.procs[pid], Succeed);
  }

  /** With every process ready to run and no temporary file left over, published blocks stay
      published in every run if and only if no load asks for more than a complete block holds. */
  lemma BlocksStayExactly(cfg: Config, s: State)
    requires Init(cfg, s) && s.procs.Keys == cfg.jobs.Keys
    requires forall p :: p in cfg.tmps ==> p !in s.dir
    ensures BlocksStay(cfg, s) <==> NoneTooShort(cfg)
  {
    if NoneTooShort(cfg) {
      forall events, more, p | p !in cfg.tmps
        ensures StaysOver(cfg, s, events, more, p)
      {
        if p in Run(cfg, s, events).dir {
          PublishedStays(cfg, s, events, more, p);
        }
      }
    } else {
      var pid, block :| pid in cfg.jobs && cfg.jobs[pid].Load? &&
        cfg.Complete(cfg.jobs[pid].path, block) && |block| < cfg.jobs[pid].size;
      var p := cfg.jobs[pid].path;
      var events := [];
      if !(p in cfg.files && cfg.files[p] == block) {
        var storer :| storer in cfg.jobs && cfg.jobs[storer].Store? && cfg.jobs[storer].dest == p
                      && cfg.jobs[storer].src == block;
        events := StorePublishes(cfg, s, storer);
      }
      LoadRemoves(cfg, s, events, pid);
      assert !StaysOver(cfg, s, events, Successes(pid, 4), p);
    }
  }
}
