/** What a load's unlink takes away. A load decides to remove its file after a short read, but unlinks
    by name: by then the name may refer to another block. */
module BlockRemoval {
  import opened BlockStore

  /** The load's unlink, which comes next, would remove a block at least as long as it asked for. */
  ghost predicate RemovesLong(cfg: Config, r: State, pid: Pid) {
    && pid in cfg.jobs && pid in r.procs && cfg.jobs[pid].Load? && r.procs[pid].pc == RemoveShort
    && cfg.jobs[pid].path in r.dir && r.dir[cfg.jobs[pid].path] in r.data
    && |r.data[r.dir[cfg.jobs[pid].path]]| >= cfg.jobs[pid].size
  }

  ghost predicate NeverRemovesLong(cfg: Config, s: State) {
    forall events, pid :: !RemovesLong(cfg, Run(cfg, s, events), pid)
  }

  /** A load may find a block of its path too short while a store to that path has one long enough. */
  ghost predicate ShortBesideLong(cfg: Config) {
    exists pid, storer, block :: IsShortBesideLong(cfg, pid, storer, block)
  }

  ghost predicate IsShortBesideLong(cfg: Config, pid: Pid, storer: Pid, block: Block) {
    && pid in cfg.jobs && cfg.jobs[pid].Load?
    && cfg.Complete(cfg.jobs[pid].path, block) && |block| < cfg.jobs[pid].size
    && storer in cfg.jobs && cfg.jobs[storer].Store? && cfg.jobs[storer].dest == cfg.jobs[pid].path
    && |cfg.jobs[storer].src| >= cfg.jobs[pid].size
  }

  // ---- where the blocks under a name come from ----

  ghost predicate FromStore(cfg: Config, p: Path, block: Block) {
    exists q :: q in cfg.jobs && cfg.jobs[q].Store? && cfg.jobs[q].dest == p && cfg.jobs[q].src == block
  }

  /** A name refers to its initial inode, or to one that a store to it has written. */
  ghost predicate PathOk(cfg: Config, s: State, r: State, p: Path) {
    p in r.dir ==>
      && r.dir[p] in r.data
      && if r.dir[p] < s.next then p in s.dir && r.dir[p] == s.dir[p] else FromStore(cfg, p, r.data[r.dir[p]])
  }

  /** An owner has a new inode. A load has the initial inode of its path open; or a new one, and then
      its path no longer names an initial inode: once replaced, that never comes back. */
  ghost predicate ProcTraced(cfg: Config, s: State, r: State, q: Pid) {
    q in r.procs && q in cfg.jobs ==>
      var job, l := cfg.jobs[q], r.procs[q];
      && (Owning(job, l) ==> l.fd >= s.next)
      && (Reading(job, l) ==>
            if l.fd < s.next then job.path in s.dir && l.fd == s.dir[job.path]
            else job.path in r.dir ==> r.dir[job.path] >= s.next)
  }

  ghost predicate Traced(cfg: Config, s: State, r: State) {
    && r.next >= s.next
    && (forall p :: p !in cfg.tmps ==> PathOk(cfg, s, r, p))
    && forall q :: ProcTraced(cfg, s, r, q)
  }

  /** A step of a store: a name that is not temporary keeps its inode and bytes, or is given the file
      the store has written. */
  lemma StoreEffect(cfg: Config, r: State, pid: Pid, a: Answer, p: Path)
    requires Inv(cfg, r) && pid in r.procs && cfg.jobs[pid].Store? && p !in cfg.tmps
    ensures
      var job, l := cfg.jobs[pid], r.procs[pid];
      var r' := StoreStep(r, pid, job, l, a);
      p in r'.dir ==>
        || (p in r.dir && r'.dir[p] == r.dir[p] && r'.dir[p] in r'.data && r'.data[r.dir[p]] == r.data[r.dir[p]])
        || (Owning(job, l) && p == job.dest && r'.dir[p] == l.fd && l.fd in r'.data && r'.data[l.fd] == job.src)
  {
    assert ProcOk(cfg, r, cfg.jobs[pid], r.procs[pid]);
  }

  lemma StoreOwns(r: State, pid: Pid, job: Job, l: Local, a: Answer)
    requires job.Store? && pid in r.procs && r.procs[pid] == l
    ensures
      var r' := StoreStep(r, pid, job, l, a);
      && r'.next >= r.next && pid in r'.procs
      && (Owning(job, r'.procs[pid]) ==> r'.procs[pid].fd == if Owning(job, l) then l.fd else r.next)
  {
  }

  /** A step of a load: names keep their inodes or go. */
  lemma LoadEffect(cfg: Config, r: State, pid: Pid, a: Answer)
    requires Inv(cfg, r) && pid in r.procs && cfg.jobs[pid].Load?
    ensures
      var job, l := cfg.jobs[pid], r.procs[pid];
      var r' := LoadStep(r, pid, job, l, a);
      && r'.next == r.next && r'.data == r.data && (forall p :: p in r'.dir ==> p in r.dir && r'.dir[p] == r.dir[p])
      && pid in r'.procs
      && (Reading(job, r'.procs[pid]) ==>
            || (Reading(job, l) && r'.procs[pid].fd == l.fd)
            || (job.path in r.dir && r'.procs[pid].fd == r.dir[job.path]))
  {
  }

  lemma StoreTraced(cfg: Config, s: State, r: State, pid: Pid, a: Answer)
    requires Inv(cfg, r) && Traced(cfg, s, r) && pid in r.procs && cfg.jobs[pid].Store?
    ensures Traced(cfg, s, StoreStep(r, pid, cfg.jobs[pid], r.procs[pid], a))
  {
    var job, l := cfg.jobs[pid], r.procs[pid];
    var r' := StoreStep(r, pid, job, l, a);
    assert ProcTraced(cfg, s, r, pid);
    StoreOwns(r, pid, job, l, a);
    forall p | p !in cfg.tmps
      ensures PathOk(cfg, s, r', p) && (p in r'.dir && r'.dir[p] < s.next ==> p in r.dir && r.dir[p] == r'.dir[p])
    {
      assert PathOk(cfg, s, r, p);
      StoreEffect(cfg, r, pid, a, p);
    }
    forall q
      ensures ProcTraced(cfg, s, r', q)
    {
      assert ProcTraced(cfg, s, r, q);
      if q != pid {
        StoreMoves(r, pid, job, l, a, q);
      }
    }
  }

  lemma LoadTraced(cfg: Config, s: State, r: State, pid: Pid, a: Answer)
    requires Inv(cfg, r) && Traced(cfg, s, r) && pid in r.procs && cfg.jobs[pid].Load?
    ensures Traced(cfg, s, LoadStep(r, pid, cfg.jobs[pid], r.procs[pid], a))
  {
    var job, l := cfg.jobs[pid], r.procs[pid];
    var r' := LoadStep(r, pid, job, l, a);
    LoadEffect(cfg, r, pid, a);
    forall p | p !in cfg.tmps
      ensures PathOk(cfg, s, r', p)
    {
      assert PathOk(cfg, s, r, p);
    }
    forall q
      ensures ProcTraced(cfg, s, r', q)
    {
      assert ProcTraced(cfg, s, r, q);
      if q != pid {
        LoadMoves(r, pid, job, l, a, q);
      } else {
        assert PathOk(cfg, s, r, job.path);
      }
    }
  }

  lemma StepTraced(cfg: Config, s: State, r: State, e: Event)
    requires Inv(cfg, r) && Traced(cfg, s, r)
    ensures Traced(cfg, s, Step(cfg, r, e))
  {
    if e.pid in r.procs && Step(cfg, r, e) != r {
      var l := r.procs[e.pid];
      if e.answer.Crash? {
        var r' := Goto(r, e.pid, l.(pc := Crashed));
        assert forall q :: ProcTraced(cfg, s, r, q) ==> ProcTraced(cfg, s, r', q);
        assert forall p :: PathOk(cfg, s, r, p) ==> PathOk(cfg, s, r', p);
      } else if cfg.jobs[e.pid].Store? {
        StoreTraced(cfg, s, r, e.pid, e.answer);
      } else {
        LoadTraced(cfg, s, r, e.pid, e.answer);
      }
    }
  }

  lemma {:induction false} RunTraced(cfg: Config, s: State, events: seq<Event>)
    requires Init(cfg, s)
    ensures Traced(cfg, s, Run(cfg, s, events))
  {
    if events == [] {
      assert forall i :: i in s.data ==> i < s.next;
    } else {
      var n := |events| - 1;
      RunTraced(cfg, s, events[..n]);
      RunKeeps(cfg, s, events[..n]);
      StepTraced(cfg, s, Run(cfg, s, events[..n]), events[n]);
    }
  }

  /** A load that would remove a long enough block has opened a short one, and another store has since
      published the long one. */
  lemma RemovesLongOnlyThen(cfg: Config, s: State, events: seq<Event>, pid: Pid)
    requires Init(cfg, s) && RemovesLong(cfg, Run(cfg, s, events), pid)
    ensures ShortBesideLong(cfg)
  {
    var r := Run(cfg, s, events);
    RunKeeps(cfg, s, events);
    RunTraced(cfg, s, events);
    var job, l := cfg.jobs[pid], r.procs[pid];
    assert ProcOk(cfg, r, job, l) && ProcTraced(cfg, s, r, pid) && PathOk(cfg, s, r, job.path);
    var block := r.data[r.dir[job.path]];
    assert r.dir[job.path] >= s.next;
    var q :| q in cfg.jobs && cfg.jobs[q].Store? && cfg.jobs[q].dest == job.path && cfg.jobs[q].src == block;
    assert IsShortBesideLong(cfg, pid, q, r.data[l.fd]);
  }

  // ---- a run that removes a long block ----

  /** Every call succeeds, but for existence checks of names that are absent. */
  ghost predicate Honest(cfg: Config, s: State, events: seq<Event>) {
    events != [] ==>
      var n := |events| - 1;
      Honest(cfg, s, events[..n]) && HonestStep(cfg, Run(cfg, s, events[..n]), events[n])
  }

  predicate HonestStep(cfg: Config, r: State, e: Event) {
    || e.answer.Succeed?
    || (&& e.answer.Fail? && e.pid in r.procs && e.pid in cfg.jobs && cfg.jobs[e.pid].Store?
        && r.procs[e.pid].pc == Check && cfg.jobs[e.pid].dest !in r.dir)
  }

  lemma HonestSnoc(cfg: Config, s: State, events: seq<Event>, e: Event)
    requires Honest(cfg, s, events) && HonestStep(cfg, Run(cfg, s, events), e)
    ensures Honest(cfg, s, events + [e])
  {
    assert (events + [e])[..|events|] == events;
  }

  lemma {:induction false} HonestAlone(cfg: Config, s: State, events: seq<Event>, pid: Pid, k: nat)
    requires Honest(cfg, s, events)
    ensures Honest(cfg, s, events + Successes(pid, k))
  {
    if k == 0 {
      assert events + Successes(pid, 0) == events;
    } else {
      HonestAlone(cfg, s, events, pid, k - 1);
      HonestSnoc(cfg, s, events + Successes(pid, k - 1), Event(pid, Succeed));
      assert events + Successes(pid, k) == events + Successes(pid, k - 1) + [Event(pid, Succeed)];
    }
  }

  /** The store has found its destination absent and gone on. */
  ghost predicate Past(cfg: Config, r: State, pid: Pid) {
    && pid in r.procs && pid in cfg.jobs && cfg.jobs[pid].Store? && r.procs[pid].pc == MakeDirs
    && cfg.jobs[pid].tmp !in r.dir && cfg.jobs[pid].dest != cfg.jobs[pid].tmp
  }

  ghost predicate OthersSame(r: State, r': State, pid: Pid) {
    forall q :: q != pid ==> SameLocal(r, r', q)
  }

  lemma PassCheck(cfg: Config, r: State, pid: Pid)
    requires pid in r.procs && pid in cfg.jobs && cfg.jobs[pid].Store? && r.procs[pid].pc == Check
    requires cfg.jobs[pid].tmp !in r.dir && cfg.jobs[pid].dest != cfg.jobs[pid].tmp
    ensures
      var r' := Step(cfg, r, Event(pid, Fail(1)));
      Past(cfg, r', pid) && r'.dir == r.dir && r'.data == r.data && r'.next == r.next && OthersSame(r, r', pid)
  {
    assert Step(cfg, r, Event(pid, Fail(1))) == Goto(r, pid, r.procs[pid].(pc := MakeDirs));
  }

  /** Run alone from there, the store publishes its buffer in a new inode. */
  lemma Publishes(cfg: Config, s: State, events: seq<Event>, pid: Pid)
    requires Init(cfg, s) && Past(cfg, Run(cfg, s, events), pid)
    ensures
      var r, r', job := Run(cfg, s, events), Run(cfg, s, events + Successes(pid, 5)), cfg.jobs[pid];
      && r'.dir == r.dir[job.dest := r.next] && r'.data == r.data[r.next as int := job.src] && OthersSame(r, r', pid)
  {
    var r, written := Run(cfg, s, events), events + Successes(pid, 3);
    RunKeeps(cfg, s, events);
    CreatesAndWrites(cfg, r, pid);
    RunAlone(cfg, s, events, pid, 3);
    RenamesAfter(cfg, r, Run(cfg, s, written), pid);
    RunAlone(cfg, s, written, pid, 2);
    assert events + Successes(pid, 5) == written + Successes(pid, 2);
  }

  lemma RenamesAfter(cfg: Config, r: State, r3: State, pid: Pid)
    requires Past(cfg, r, pid) && DirectoryOk(r) && Wrote(cfg, r, r3, pid)
    ensures
      var r', job := Alone(cfg, r3, pid, 2), cfg.jobs[pid];
      && r'.dir == r.dir[job.dest := r.next] && r'.data == r.data[r.next as int := job.src] && OthersSame(r, r', pid)
  {
    var job := cfg.jobs[pid];
    assert job.dest in r3.dir ==> r.dir[job.dest] in r.data;
    ClosesAndRenames(cfg, r3, pid, r.next);
    Renamed(r.dir, job.tmp, job.dest, r.next);
    SameTwice(r, r3, Alone(cfg, r3, pid, 2), pid);
  }

  /** The store has created and written its temporary file. */
  ghost predicate Wrote(cfg: Config, r: State, r3: State, pid: Pid)
    requires pid in cfg.jobs && cfg.jobs[pid].Store?
  {
    && r3.dir == r.dir[cfg.jobs[pid].tmp := r.next] && r3.data == r.data[r.next as int := cfg.jobs[pid].src]
    && pid in r3.procs && r3.procs[pid].pc == CloseWritten && OthersSame(r, r3, pid)
  }

  lemma Renamed(dir: map<Path, int>, tmp: Path, dest: Path, inode: int)
    requires tmp !in dir
    ensures (dir[tmp := inode] - {tmp})[dest := inode] == dir[dest := inode]
  {
  }

  lemma SameTwice(r: State, r': State, r'': State, pid: Pid)
    requires OthersSame(r, r', pid) && OthersSame(r', r'', pid)
    ensures OthersSame(r, r'', pid)
  {
    forall q | q != pid
      ensures SameLocal(r, r'', q)
    {
      assert SameLocal(r, r', q) && SameLocal(r', r'', q);
    }
  }

  lemma CreatesAndWrites(cfg: Config, r: State, pid: Pid)
    requires Past(cfg, r, pid)
    ensures Wrote(cfg, r, Alone(cfg, r, pid, 3), pid)
  {
    var job, l := cfg.jobs[pid], r.procs[pid];
    var r1 := Goto(r, pid, l.(pc := Create));
    assert Alone(cfg, r, pid, 1) == StoreStep(r, pid, job, l, Succeed) == r1;
    var r2 := StoreStep(r1, pid, job, r1.procs[pid], Succeed);
    assert Alone(cfg, r, pid, 2) == r2;
    assert r2.procs[pid] == l.(pc := Write, fd := r.next);
    assert Alone(cfg, r, pid, 3) == StoreStep(r2, pid, job, r2.procs[pid], Succeed);
    assert r.data[r.next as int := []][r.next as int := job.src] == r.data[r.next as int := job.src];
  }

  lemma ClosesAndRenames(cfg: Config, r: State, pid: Pid, inode: int)
    requires pid in r.procs && pid in cfg.jobs && cfg.jobs[pid].Store? && r.procs[pid].pc == CloseWritten
    requires cfg.jobs[pid].tmp in r.dir && r.dir[cfg.jobs[pid].tmp] == inode
    requires cfg.jobs[pid].dest in r.dir ==> r.dir[cfg.jobs[pid].dest] != inode
    ensures
      var r', job := Alone(cfg, r, pid, 2), cfg.jobs[pid];
      r'.dir == (r.dir - {job.tmp})[job.dest := inode] && r'.data == r.data && OthersSame(r, r', pid)
  {
    var job, l := cfg.jobs[pid], r.procs[pid];
    var r1 := Goto(r, pid, l.(pc := Rename));
    assert Alone(cfg, r, pid, 1) == StoreStep(r, pid, job, l, Succeed) == r1;
    assert Alone(cfg, r, pid, 2) == StoreStep(r1, pid, job, r1.procs[pid], Succeed);
  }

  /** Run alone, a load of a short block gets as far as its unlink. */
  lemma FindsShort(cfg: Config, r: State, pid: Pid)
    requires AboutToFindShort(cfg, r, pid)
    ensures
      var r' := Alone(cfg, r, pid, 3);
      && pid in r'.procs && r'.procs[pid].pc == RemoveShort
      && r'.dir == r.dir && r'.data == r.data && r'.next == r.next && OthersSame(r, r', pid)
  {
    var job, l := cfg.jobs[pid], r.procs[pid];
    var r1 := Goto(r, pid, l.(pc := Read, fd := r.dir[job.path]));
    assert Alone(cfg, r, pid, 1) == LoadStep(r, pid, job, l, Succeed) == r1;
    var r2 := LoadStep(r1, pid, job, r1.procs[pid], Succeed);
    assert Alone(cfg, r, pid, 2) == r2;
    assert Alone(cfg, r, pid, 3) == LoadStep(r2, pid, job, r2.procs[pid], Succeed);
  }

  /** From there: the load finds the block short, the store publishes its own, and the load's unlink is
      next. */
  lemma Overtakes(cfg: Config, s: State, events: seq<Event>, pid: Pid, storer: Pid) returns (more: seq<Event>)
    requires Init(cfg, s) && AboutToFindShort(cfg, Run(cfg, s, events), pid) && Past(cfg, Run(cfg, s, events), storer)
    requires cfg.jobs[storer].dest == cfg.jobs[pid].path && |cfg.jobs[storer].src| >= cfg.jobs[pid].size
    ensures RemovesLong(cfg, Run(cfg, s, more), pid)
    ensures Honest(cfg, s, events) ==> Honest(cfg, s, more)
  {
    var r := Run(cfg, s, events);
    var found := events + Successes(pid, 3);
    more := found + Successes(storer, 5);
    RunAlone(cfg, s, events, pid, 3);
    FindsShort(cfg, r, pid);
    var r' := Run(cfg, s, found);
    assert SameLocal(r, r', storer);
    Publishes(cfg, s, found, storer);
    assert SameLocal(r', Run(cfg, s, more), pid);
    if Honest(cfg, s, events) {
      HonestAlone(cfg, s, events, pid, 3);
      HonestAlone(cfg, s, found, storer, 5);
    }
  }

  /** The store that will overtake looks first. */
  lemma LooksFirst(cfg: Config, s: State, storer: Pid) returns (events: seq<Event>)
    requires Init(cfg, s) && s.procs.Keys == cfg.jobs.Keys && storer in cfg.jobs && cfg.jobs[storer].Store?
    requires forall p :: p in cfg.tmps ==> p !in s.dir
    ensures
      var r := Run(cfg, s, events);
      Past(cfg, r, storer) && r.dir == s.dir && r.data == s.data && r.next == s.next && OthersSame(s, r, storer)
    ensures cfg.jobs[storer].dest !in s.dir ==> Honest(cfg, s, events)
  {
    var e := Event(storer, Fail(1));
    events := [] + [e];
    RunSnoc(cfg, s, [], e);
    PassCheck(cfg, s, storer);
    if cfg.jobs[storer].dest !in s.dir {
      HonestSnoc(cfg, s, [], e);
    }
  }

  /** Then another store publishes its short block. */
  lemma ShortFirst(cfg: Config, s: State, events: seq<Event>, storer: Pid, first: Pid) returns (more: seq<Event>)
    requires Init(cfg, s) && s.procs.Keys == cfg.jobs.Keys && forall p :: p in cfg.tmps ==> p !in s.dir
    requires
      var r := Run(cfg, s, events);
      Past(cfg, r, storer) && r.dir == s.dir && r.data == s.data && r.next == s.next && OthersSame(s, r, storer)
    requires first in cfg.jobs && cfg.jobs[first].Store? && first != storer
    ensures
      var r, dest := Run(cfg, s, more), cfg.jobs[first].dest;
      && Past(cfg, r, storer) && dest in r.dir && r.dir[dest] in r.data && r.data[r.dir[dest]] == cfg.jobs[first].src
      && forall q :: q != storer && q != first ==> SameLocal(s, r, q)
    ensures Honest(cfg, s, events) && cfg.jobs[first].dest !in s.dir ==> Honest(cfg, s, more)
  {
    var r, e := Run(cfg, s, events), Event(first, Fail(1));
    var checked := events + [e];
    more := checked + Successes(first, 5);
    assert SameLocal(s, r, first);
    PassCheck(cfg, r, first);
    RunSnoc(cfg, s, events, e);
    var r' := Run(cfg, s, checked);
    Publishes(cfg, s, checked, first);
    var r'' := Run(cfg, s, more);
    assert SameLocal(r, r', storer) && SameLocal(r', r'', storer);
    forall q | q != storer && q != first
      ensures SameLocal(s, r'', q)
    {
      assert SameLocal(s, r, q) && SameLocal(r, r', q) && SameLocal(r', r'', q);
    }
    if Honest(cfg, s, events) && cfg.jobs[first].dest !in s.dir {
      HonestSnoc(cfg, s, events, e);
      HonestAlone(cfg, s, checked, first, 5);
    }
  }

  /** Where a short block may stand beside a long one, there is a run in which the load's unlink takes the
      long one away; if no file is there at the start, with every call answered truthfully. */
  lemma LongIsRemoved(cfg: Config, s: State, pid: Pid, storer: Pid, block: Block) returns (events: seq<Event>)
    requires Init(cfg, s) && s.procs.Keys == cfg.jobs.Keys && forall p :: p in cfg.tmps ==> p !in s.dir
    requires IsShortBesideLong(cfg, pid, storer, block)
    ensures RemovesLong(cfg, Run(cfg, s, events), pid)
    ensures cfg.jobs[pid].path !in s.dir ==> Honest(cfg, s, events)
  {
    var path := cfg.jobs[pid].path;
    events := LooksFirst(cfg, s, storer);
    assert SameLocal(s, Run(cfg, s, events), pid);
    if !(path in cfg.files && cfg.files[path] == block) {
      var first :| first in cfg.jobs && cfg.jobs[first].Store? && cfg.jobs[first].dest == path && cfg.jobs[first].src == block;
      events := ShortFirst(cfg, s, events, storer, first);
      assert SameLocal(s, Run(cfg, s, events), pid);
    }
    events := Overtakes(cfg, s, events, pid, storer);
  }

  /** With every process ready to run and no temporary file left over: no load's unlink ever takes away a
      block as long as the load asked for, if and only if no load has both a complete block of its
      path that is too short for it and a store to that path whose buffer is long enough. */
  lemma RemovalsExactly(cfg: Config, s: State)
    requires Init(cfg, s) && s.procs.Keys == cfg.jobs.Keys && forall p :: p in cfg.tmps ==> p !in s.dir
    ensures NeverRemovesLong(cfg, s) <==> !ShortBesideLong(cfg)
  {
    if ShortBesideLong(cfg) {
      var pid, storer, block :| IsShortBesideLong(cfg, pid, storer, block);
      var events := LongIsRemoved(cfg, s, pid, storer, block);
      assert RemovesLong(cfg, Run(cfg, s, events), pid);
    } else {
      forall events, pid
        ensures !RemovesLong(cfg, Run(cfg, s, events), pid)
      {
        if RemovesLong(cfg, Run(cfg, s, events), pid) {
          RemovesLongOnlyThen(cfg, s, events, pid);
        }
      }
    }
  }

  /** Two stores and a load of one path, no file there at the start, every call answered truthfully: the
      load takes away the block it asked for. */
  lemma LongBlockLost() returns (cfg: Config, s: State, events: seq<Event>)
    ensures Init(cfg, s) && s.dir == map[] && Honest(cfg, s, events)
    ensures cfg.jobs == map[0 := Store("a", "d", [0]), 1 := Store("b", "d", [0, 0]), 2 := Load("d", 2)]
    ensures
      var r := Run(cfg, s, events);
      && RemovesLong(cfg, r, 2) && |r.data[r.dir["d"]]| == 2
      && "d" !in Step(cfg, r, Event(2, Succeed)).dir
  {
    cfg, s := TwoStoresAndALoad();
    assert IsShortBesideLong(cfg, 2, 1, [0]);
    events := LongIsRemoved(cfg, s, 2, 1, [0]);
    PublishedIsComplete(cfg, s, events, "d");
    Unlinks(cfg, Run(cfg, s, events), 2);
  }

  lemma TwoStoresAndALoad() returns (cfg: Config, s: State)
    ensures Init(cfg, s) && s.dir == map[] && s.procs.Keys == cfg.jobs.Keys
    ensures cfg.jobs == map[0 := Store("a", "d", [0]), 1 := Store("b", "d", [0, 0]), 2 := Load("d", 2)] && cfg.files == map[]
    ensures cfg.Complete("d", [0])
  {
    var start := Local(Check, -1, []);
    cfg := Config(map[0 := Store("a", "d", [0]), 1 := Store("b", "d", [0, 0]), 2 := Load("d", 2)], {"a", "b"}, map[]);
    s := State(map[], map[], 0, map[0 := start, 1 := start, 2 := Local(OpenRead, -1, [])]);
    assert "d" !in cfg.tmps by {
      assert "d"[0] == 'd' && "a"[0] == 'a' && "b"[0] == 'b';
    }
    assert cfg.jobs[0].src == [0];
  }

  lemma Unlinks(cfg: Config, r: State, pid: Pid)
    requires RemovesLong(cfg, r, pid)
    ensures cfg.jobs[pid].path !in Step(cfg, r, Event(pid, Succeed)).dir
  {
    assert Step(cfg, r, Event(pid, Succeed)) == LoadStep(r, pid, cfg.jobs[pid], r.procs[pid], Succeed);
  }
}
