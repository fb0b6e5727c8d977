/** The extraction benchmark's queue: all prompts, then one sentinel per client; each client takes
    items until it takes a sentinel. The engine and the consumer are a step each: a client that has
    taken a prompt finishes it some time later. */
module PromptQueue {

  type Tokens = seq<nat>

  /** What a finished request adds to the results. */
  datatype Result = Result(idx: nat, numTokens: nat)

  datatype Item = Prompt(idx: nat, tokens: Tokens) | Sentinel

  datatype Client = Waiting | Working(result: Result) | Stopped

  /** `done` counts the calls of task_done. */
  datatype State = State(queue: seq<Item>, clients: seq<Client>, results: seq<Result>, done: nat)

  // ---- steps ----

  /** The next step of client c: taking an item, or finishing the prompt it works on. A client that
      waits on an empty queue makes no step. */
  function Step(s: State, c: nat): State {
    if c >= |s.clients| then s
    else
      match s.clients[c]
      case Stopped => s
      case Working(r) =>
        s.(clients := s.clients[c := Waiting], results := s.results + [r], done := s.done + 1)
      case Waiting =>
        if s.queue == [] then s
        else
          match s.queue[0]
          case Sentinel => s.(queue := s.queue[1..], clients := s.clients[c := Stopped], done := s.done + 1)
          case Prompt(idx, tokens) =>
            s.(queue := s.queue[1..], clients := s.clients[c := Working(Result(idx, |tokens|))])
  }

  predicate Enabled(s: State, c: nat) {
    && c < |s.clients|
    && (s.clients[c].Working? || (s.clients[c].Waiting? && s.queue != []))
  }

  function Prompts(prompts: seq<Tokens>, k: nat): seq<Item>
    requires k <= |prompts|
  {
    seq(|prompts| - k, i requires 0 <= i < |prompts| - k => Prompt(k + i, prompts[k + i]))
  }

  function Sentinels(n: nat): seq<Item> {
    seq(n, i => Sentinel)
  }

  function Init(prompts: seq<Tokens>, n: nat): State {
    State(Prompts(prompts, 0) + Sentinels(n), seq(n, i => Waiting), [], 0)
  }

  /** A run: which client makes each step. */
  function Run(s: State, schedule: seq<nat>): State
    decreases |schedule|
  {
    if schedule == [] then s else Run(Step(s, schedule[0]), schedule[1..])
  }

  /** The steps of a run that were made. */
  function Made(s: State, schedule: seq<nat>): nat
    decreases |schedule|
  {
    if schedule == [] then 0
    else (if Enabled(s, schedule[0]) then 1 else 0) + Made(Step(s, schedule[0]), schedule[1..])
  }

  // ---- what the clients hold ----

  function Active(clients: seq<Client>): nat {
    if clients == [] then 0 else (if clients[0].Stopped? then 0 else 1) + Active(clients[1..])
  }

  function Busy(clients: seq<Client>): nat {
    if clients == [] then 0 else (if clients[0].Working? then 1 else 0) + Busy(clients[1..])
  }

  function HeldBy(client: Client): multiset<Result> {
    if client.Working? then multiset{client.result} else multiset{}
  }

  function Held(clients: seq<Client>): multiset<Result> {
    if clients == [] then multiset{} else HeldBy(clients[0]) + Held(clients[1..])
  }

  /** What one client's change does to the totals. */
  lemma {:induction false} Change(clients: seq<Client>, c: nat, client: Client)
    requires c < |clients|
    ensures
      var after := clients[c := client];
      && Active(after) == Active(clients) - (if clients[c].Stopped? then 0 else 1) + (if client.Stopped? then 0 else 1)
      && Busy(after) == Busy(clients) - (if clients[c].Working? then 1 else 0) + (if client.Working? then 1 else 0)
  {
    var after := clients[c := client];
    if c == 0 {
      assert after[1..] == clients[1..];
    } else {
      assert after[1..] == clients[1..][c - 1 := client];
      Change(clients[1..], c - 1, client);
    }
  }

  lemma {:induction false} ChangeHeld(clients: seq<Client>, c: nat, client: Client)
    requires c < |clients|
    ensures Held(clients[c := client]) + HeldBy(clients[c]) == Held(clients) + HeldBy(client)
  {
    var after := clients[c := client];
    if c == 0 {
      assert after[1..] == clients[1..];
      Swap(HeldBy(client), Held(clients[1..]), HeldBy(clients[0]));
    } else {
      assert after[1..] == clients[1..][c - 1 := client];
      ChangeHeld(clients[1..], c - 1, client);
      Under(HeldBy(clients[0]), Held(after[1..]), HeldBy(clients[c]), Held(clients[1..]), HeldBy(client));
    }
  }

  lemma Swap(a: multiset<Result>, b: multiset<Result>, c: multiset<Result>)
    ensures a + b + c == c + b + a
  {
  }

  lemma Under(x: multiset<Result>, a: multiset<Result>, b: multiset<Result>, c: multiset<Result>, d: multiset<Result>)
    requires a + b == c + d
    ensures x + a + b == x + c + d
  {
    assert x + a + b == x + (a + b);
    assert x + c + d == x + (c + d);
  }

  /** A client that has not stopped counts. */
  lemma {:induction false} ActiveCounts(clients: seq<Client>, c: nat)
    requires c < |clients|
    ensures !clients[c].Stopped? ==> Active(clients) > 0
    ensures clients[c].Stopped? ==> Active(clients) < |clients|
    ensures clients[c].Working? ==> Busy(clients) > 0
    ensures Active(clients) <= |clients| && Busy(clients) <= Active(clients)
  {
    Bounds(clients[1..]);
    if c > 0 {
      ActiveCounts(clients[1..], c - 1);
    }
  }

  lemma {:induction false} Bounds(clients: seq<Client>)
    ensures Active(clients) <= |clients| && Busy(clients) <= Active(clients)
    ensures Busy(clients) == 0 ==> Held(clients) == multiset{}
    ensures Active(clients) == 0 <==> forall c :: 0 <= c < |clients| ==> clients[c].Stopped?
  {
    if clients != [] {
      Bounds(clients[1..]);
      if Active(clients) == 0 {
        forall c | 0 <= c < |clients|
          ensures clients[c].Stopped?
        {
          assert c > 0 ==> clients[c] == clients[1..][c - 1];
        }
      }
    }
  }

  // ---- the invariant ----

  /** The results of the first k prompts. */
  function ResultsOf(prompts: seq<Tokens>, k: nat): multiset<Result>
    requires k <= |prompts|
  {
    if k == 0 then multiset{} else ResultsOf(prompts, k - 1) + multiset{Result(k - 1, |prompts[k - 1]|)}
  }

  function Taken(s: State): nat {
    |s.results| + Busy(s.clients)
  }

  /** The queue is the untaken prompts and one sentinel for each client that has not stopped; the
      taken prompts are each once in the results or with a client; a client has stopped only after
      the last prompt was taken. */
  ghost predicate Inv(prompts: seq<Tokens>, n: nat, s: State) {
    && |s.clients| == n
    && Taken(s) <= |prompts|
    && s.queue == Prompts(prompts, Taken(s)) + Sentinels(Active(s.clients))
    && multiset(s.results) + Held(s.clients) == ResultsOf(prompts, Taken(s))
    && (Active(s.clients) < n ==> Taken(s) == |prompts|)
    && s.done + Active(s.clients) == |s.results| + n
  }

  lemma InitInv(prompts: seq<Tokens>, n: nat)
    ensures Inv(prompts, n, Init(prompts, n))
  {
    AllWaiting(n);
  }

  lemma {:induction false} AllWaiting(n: nat)
    ensures
      var clients := seq(n, i => Waiting);
      Active(clients) == n && Busy(clients) == 0 && Held(clients) == multiset{}
  {
    if n > 0 {
      AllWaiting(n - 1);
      assert seq(n, i => Waiting)[1..] == seq(n - 1, i => Waiting);
    }
  }

  /** What the queue begins with. */
  lemma QueueHead(prompts: seq<Tokens>, k: nat, m: nat)
    requires k <= |prompts|
    ensures
      var queue := Prompts(prompts, k) + Sentinels(m);
      && (k < |prompts| ==>
            queue != [] && queue[0] == Prompt(k, prompts[k]) && queue[1..] == Prompts(prompts, k + 1) + Sentinels(m))
      && (k == |prompts| && m > 0 ==>
            queue != [] && queue[0] == Sentinel && queue[1..] == Prompts(prompts, k) + Sentinels(m - 1))
      && (k == |prompts| && m == 0 ==> queue == [])
  {
  }

  lemma TakeKeeps(prompts: seq<Tokens>, n: nat, s: State, c: nat)
    requires Inv(prompts, n, s) && c < n && s.clients[c].Waiting? && Taken(s) < |prompts|
    ensures Inv(prompts, n, Step(s, c))
  {
    var k := Taken(s);
    QueueHead(prompts, k, Active(s.clients));
    var r := Result(k, |prompts[k]|);
    Change(s.clients, c, Working(r));
    TakeHeld(s.clients, c, r, multiset(s.results));
  }

  lemma TakeHeld(clients: seq<Client>, c: nat, r: Result, results: multiset<Result>)
    requires c < |clients| && clients[c].Waiting?
    ensures results + Held(clients[c := Working(r)]) == results + Held(clients) + multiset{r}
  {
    ChangeHeld(clients, c, Working(r));
    var held := Held(clients[c := Working(r)]);
    assert held + multiset{} == held;
    assert results + (Held(clients) + multiset{r}) == results + Held(clients) + multiset{r};
  }

  lemma StopKeeps(prompts: seq<Tokens>, n: nat, s: State, c: nat)
    requires Inv(prompts, n, s) && c < n && s.clients[c].Waiting? && Taken(s) == |prompts|
    ensures Inv(prompts, n, Step(s, c))
  {
    ActiveCounts(s.clients, c);
    QueueHead(prompts, Taken(s), Active(s.clients));
    Change(s.clients, c, Stopped);
    StopHeld(s.clients, c);
  }

  lemma StopHeld(clients: seq<Client>, c: nat)
    requires c < |clients| && clients[c].Waiting?
    ensures Held(clients[c := Stopped]) == Held(clients)
  {
    ChangeHeld(clients, c, Stopped);
    var held := Held(clients[c := Stopped]);
    assert held + multiset{} == held && Held(clients) + multiset{} == Held(clients);
  }

  lemma FinishKeeps(prompts: seq<Tokens>, n: nat, s: State, c: nat)
    requires Inv(prompts, n, s) && c < n && s.clients[c].Working?
    ensures Inv(prompts, n, Step(s, c))
  {
    Change(s.clients, c, Waiting);
    FinishHeld(s.clients, c, s.results);
  }

  lemma FinishHeld(clients: seq<Client>, c: nat, results: seq<Result>)
    requires c < |clients| && clients[c].Working?
    ensures multiset(results + [clients[c].result]) + Held(clients[c := Waiting]) == multiset(results) + Held(clients)
  {
    ChangeHeld(clients, c, Waiting);
    var r, held := multiset{clients[c].result}, Held(clients[c := Waiting]);
    assert Held(clients) + multiset{} == Held(clients);
    assert multiset(results) + r + held == multiset(results) + (held + r);
  }

  lemma StepKeeps(prompts: seq<Tokens>, n: nat, s: State, c: nat)
    requires Inv(prompts, n, s)
    ensures Inv(prompts, n, Step(s, c))
  {
    if Enabled(s, c) {
      if s.clients[c].Working? {
        FinishKeeps(prompts, n, s, c);
      } else if Taken(s) < |prompts| {
        TakeKeeps(prompts, n, s, c);
      } else {
        StopKeeps(prompts, n, s, c);
      }
    }
  }

  lemma {:induction false} RunKeeps(prompts: seq<Tokens>, n: nat, s: State, schedule: seq<nat>)
    requires Inv(prompts, n, s)
    ensures Inv(prompts, n, Run(s, schedule))
    decreases |schedule|
  {
    if schedule != [] {
      StepKeeps(prompts, n, s, schedule[0]);
      RunKeeps(prompts, n, Step(s, schedule[0]), schedule[1..]);
    }
  }

  // ---- whole runs ----

  /** No client ever waits on an empty queue: in every reachable state, whoever has not stopped can
      make its next step. */
  lemma NobodyBlocks(prompts: seq<Tokens>, n: nat, schedule: seq<nat>, c: nat)
    requires c < n
    ensures
      var s := Run(Init(prompts, n), schedule);
      |s.clients| == n && (Enabled(s, c) <==> !s.clients[c].Stopped?)
  {
    InitInv(prompts, n);
    RunKeeps(prompts, n, Init(prompts, n), schedule);
    var s := Run(Init(prompts, n), schedule);
    ActiveCounts(s.clients, c);
    QueueHead(prompts, Taken(s), Active(s.clients));
  }

  /** A client stops only when no prompt is left in the queue. */
  lemma StoppedAfterLastPrompt(prompts: seq<Tokens>, n: nat, schedule: seq<nat>, c: nat)
    requires c < n
    ensures
      var s := Run(Init(prompts, n), schedule);
      |s.clients| == n && (s.clients[c].Stopped? ==> forall i :: 0 <= i < |s.queue| ==> s.queue[i].Sentinel?)
  {
    InitInv(prompts, n);
    RunKeeps(prompts, n, Init(prompts, n), schedule);
    ActiveCounts(Run(Init(prompts, n), schedule).clients, c);
  }

  /** Steps to go: two for each untaken prompt, one for each prompt worked on, one for each client. */
  function StepsLeft(prompts: seq<Tokens>, s: State): int {
    2 * (|prompts| - Taken(s)) + Busy(s.clients) + Active(s.clients)
  }

  lemma StepCounts(prompts: seq<Tokens>, n: nat, s: State, c: nat)
    requires Inv(prompts, n, s)
    ensures StepsLeft(prompts, Step(s, c)) == StepsLeft(prompts, s) - (if Enabled(s, c) then 1 else 0)
  {
    if Enabled(s, c) {
      Change(s.clients, c, Step(s, c).clients[c]);
      QueueHead(prompts, Taken(s), Active(s.clients));
    }
  }

  /** Every step made brings the end nearer by one. */
  lemma {:induction false} RunCounts(prompts: seq<Tokens>, n: nat, s: State, schedule: seq<nat>)
    requires Inv(prompts, n, s)
    ensures StepsLeft(prompts, Run(s, schedule)) + Made(s, schedule) == StepsLeft(prompts, s)
    decreases |schedule|
  {
    if schedule != [] {
      StepKeeps(prompts, n, s, schedule[0]);
      StepCounts(prompts, n, s, schedule[0]);
      RunCounts(prompts, n, Step(s, schedule[0]), schedule[1..]);
    }
  }

  predicate AllStopped(s: State) {
    forall c :: 0 <= c < |s.clients| ==> s.clients[c].Stopped?
  }

  /** With at least one client: a run is over exactly after two steps for each prompt and one for each
      client, never more. */
  lemma RunLength(prompts: seq<Tokens>, n: nat, schedule: seq<nat>)
    requires n > 0
    ensures
      var made := Made(Init(prompts, n), schedule);
      && made <= 2 * |prompts| + n
      && (AllStopped(Run(Init(prompts, n), schedule)) <==> made == 2 * |prompts| + n)
  {
    var init, s := Init(prompts, n), Run(Init(prompts, n), schedule);
    InitInv(prompts, n);
    AllWaiting(n);
    RunKeeps(prompts, n, init, schedule);
    RunCounts(prompts, n, init, schedule);
    Bounds(s.clients);
  }

  /** When all clients have stopped, every prompt has been processed exactly once, the queue is empty,
      and every item put on it has been marked done. */
  lemma AllProcessed(prompts: seq<Tokens>, n: nat, schedule: seq<nat>)
    requires n > 0
    ensures
      var s := Run(Init(prompts, n), schedule);
      AllStopped(s) ==>
        && multiset(s.results) == ResultsOf(prompts, |prompts|)
        && s.queue == []
        && s.done == |prompts| + n
  {
    InitInv(prompts, n);
    RunKeeps(prompts, n, Init(prompts, n), schedule);
    Bounds(Run(Init(prompts, n), schedule).clients);
  }

  // ---- the reported total ----

  function TotalTokens(results: seq<Result>): nat {
    if results == [] then 0 else results[0].numTokens + TotalTokens(results[1..])
  }

  function PromptTokens(prompts: seq<Tokens>, k: nat): nat
    requires k <= |prompts|
  {
    if k == 0 then 0 else PromptTokens(prompts, k - 1) + |prompts[k - 1]|
  }

  lemma Cancel(a: multiset<Result>, b: multiset<Result>, r: Result)
    requires a + multiset{r} == b + multiset{r}
    ensures a == b
  {
    assert a == a + multiset{r} - multiset{r};
    assert b == b + multiset{r} - multiset{r};
  }

  /** The total depends only on which results there are. */
  lemma {:induction false} TotalOfResults(prompts: seq<Tokens>, k: nat, results: seq<Result>)
    requires k <= |prompts| && multiset(results) == ResultsOf(prompts, k)
    ensures TotalTokens(results) == PromptTokens(prompts, k)
  {
    if k == 0 {
      assert |multiset(results)| == |results|;
    } else {
      var last := Result(k - 1, |prompts[k - 1]|);
      assert last in multiset(results);
      var i :| 0 <= i < |results| && results[i] == last;
      var others := results[..i] + results[i + 1..];
      assert results == results[..i] + [last] + results[i + 1..];
      assert multiset(results) == multiset(others) + multiset{last};
      Cancel(multiset(others), ResultsOf(prompts, k - 1), last);
      TotalOfResults(prompts, k - 1, others);
      TotalWithout(results, i);
    }
  }

  lemma {:induction false} TotalWithout(results: seq<Result>, i: nat)
    requires i < |results|
    ensures TotalTokens(results) == TotalTokens(results[..i] + results[i + 1..]) + results[i].numTokens
  {
    var others := results[..i] + results[i + 1..];
    if i == 0 {
      assert others == results[1..];
    } else {
      assert others[0] == results[0] && others[1..] == results[1..][..i - 1] + results[1..][i..];
      TotalWithout(results[1..], i - 1);
    }
  }

  /** The benchmark reports the prompts' own number of tokens, whatever the order of completion. */
  lemma TotalIsOfPrompts(prompts: seq<Tokens>, n: nat, schedule: seq<nat>)
    requires n > 0
    ensures
      var s := Run(Init(prompts, n), schedule);
      AllStopped(s) ==> TotalTokens(s.results) == PromptTokens(prompts, |prompts|)
  {
    AllProcessed(prompts, n, schedule);
    var s := Run(Init(prompts, n), schedule);
    if AllStopped(s) {
      TotalOfResults(prompts, |prompts|, s.results);
    }
  }

  // ---- the program ----

  class Extraction {
    var queue: seq<Item>
    var clients: seq<Client>
    var results: seq<Result>
    var done: nat

    ghost function View(): State
      reads this
    {
      State(queue, clients, results, done)
    }

    /** Filling the queue and starting the clients. */
    constructor (prompts: seq<Tokens>, n: nat)
      ensures View() == Init(prompts, n)
    {
      queue, clients, results, done := [], [], [], 0;
      new;
      for idx := 0 to |prompts|
        invariant queue == Prompts(prompts, 0)[..idx] && clients == [] && results == [] && done == 0
      {
        queue := queue + [Prompt(idx, prompts[idx])];
      }
      for i := 0 to n
        invariant queue == Prompts(prompts, 0) + Sentinels(i) && clients == seq(i, j => Waiting)
        invariant results == [] && done == 0
      {
        queue := queue + [Sentinel];
        clients := clients + [Waiting];
      }
    }

    /** The next step of client c's loop. */
    method Advance(c: nat)
      modifies this
      ensures View() == Step(old(View()), c)
    {
      if c < |clients| {
        match clients[c]
        case Stopped =>
        case Working(r) =>
          results := results + [r];
          done := done + 1;
          clients := clients[c := Waiting];
        case Waiting =>
          if queue != [] {
            var item := queue[0];
            queue := queue[1..];
            match item
            case Sentinel =>
              done := done + 1;
              clients := clients[c := Stopped];
            case Prompt(idx, tokens) =>
              clients := clients[c := Working(Result(idx, |tokens|))];
          }
      }
    }
  }

  /** The benchmark under any schedule of its clients. If all clients stop, the results are those of
      the prompts, each once, and the total is theirs. */
  method RunExtraction(prompts: seq<Tokens>, n: nat, schedule: seq<nat>)
    returns (stopped: bool, results: seq<Result>, total: nat)
    requires n > 0
    ensures stopped ==> multiset(results) == ResultsOf(prompts, |prompts|) && total == PromptTokens(prompts, |prompts|)
    ensures stopped <==> Made(Init(prompts, n), schedule) == 2 * |prompts| + n
  {
    var e := new Extraction(prompts, n);
    for i := 0 to |schedule|
      invariant Run(e.View(), schedule[i..]) == Run(Init(prompts, n), schedule)
    {
      assert schedule[i..][1..] == schedule[i + 1..];
      e.Advance(schedule[i]);
    }
    stopped := forall c :: 0 <= c < |e.clients| ==> e.clients[c].Stopped?;
    results := e.results;
    total := TotalTokens(results);
    RunLength(prompts, n, schedule);
    AllProcessed(prompts, n, schedule);
    TotalIsOfPrompts(prompts, n, schedule);
  }
}
