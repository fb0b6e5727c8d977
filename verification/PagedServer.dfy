/** The server: the prefix filled once, then requests that come, decode side by side and go, each
    served as if it ran alone behind the prefix. */
module PagedServer {
  import opened Arithmetic
  import opened RelayModel
  import opened PagedAttention
  import opened PagedLayer
  import opened PagedModel

  /** A request being served: its block table and its tokens so far. */
  datatype Request<S> = Request(table: seq<nat>, tokens: seq<S>)

  ghost predicate AllCovered<S(!new)>(reqs: seq<Request<S>>, blockSize: nat, slots: nat) {
    forall a :: 0 <= a < |reqs| ==> TableCovers(reqs[a].table, blockSize, |reqs[a].tokens|, slots)
  }

  ghost function Tokens<S(!new)>(reqs: seq<Request<S>>): (toks: seq<seq<S>>)
    ensures |toks| == |reqs| && forall a :: 0 <= a < |reqs| ==> toks[a] == reqs[a].tokens
  {
    seq(|reqs|, a requires 0 <= a < |reqs| => reqs[a].tokens)
  }

  /** The slots of every request's tokens. */
  ghost function Places<S(!new)>(reqs: seq<Request<S>>, blockSize: nat, slots: nat): (ats: seq<seq<nat>>)
    requires AllCovered(reqs, blockSize, slots)
    ensures |ats| == |reqs| && forall a :: 0 <= a < |reqs| ==> ats[a] == Positions(reqs[a].table, blockSize, |reqs[a].tokens|)
  {
    seq(|reqs|, a requires 0 <= a < |reqs| => Positions(reqs[a].table, blockSize, |reqs[a].tokens|))
  }

  /** No two tokens share a slot. */
  ghost predicate Distinct(ats: seq<seq<nat>>) {
    forall a, c, j, k :: 0 <= a < |ats| && 0 <= c < |ats| && 0 <= j < |ats[a]| && 0 <= k < |ats[c]| ==>
      ats[a][j] == ats[c][k] ==> a == c && j == k
  }

  ghost predicate Apart<S(!new)>(reqs: seq<Request<S>>, blockSize: nat, slots: nat) {
    AllCovered(reqs, blockSize, slots) && Distinct(Places(reqs, blockSize, slots))
  }

  /** No block is given out twice. */
  ghost predicate OwnBlocks<S(!new)>(reqs: seq<Request<S>>) {
    forall a, c, i, k ::
      0 <= a < |reqs| && 0 <= c < |reqs| && 0 <= i < |reqs[a].table| && 0 <= k < |reqs[c].table| ==>
        reqs[a].table[i] == reqs[c].table[k] ==> a == c && i == k
  }

  /** A table of existing blocks, long enough for the tokens. */
  ghost predicate TableFits<S(!new)>(req: Request<S>, blockSize: nat, blocks: nat) {
    |req.tokens| <= |req.table| * blockSize && forall i :: 0 <= i < |req.table| ==> req.table[i] < blocks
  }

  /** Requests with blocks of their own have slots of their own. */
  lemma OwnBlocksApart<S(!new)>(reqs: seq<Request<S>>, blockSize: nat, blocks: nat)
    requires blockSize > 0 && OwnBlocks(reqs)
    requires forall a :: 0 <= a < |reqs| ==> TableFits(reqs[a], blockSize, blocks)
    ensures Apart(reqs, blockSize, blocks * blockSize)
  {
    forall a | 0 <= a < |reqs|
      ensures TableCovers(reqs[a].table, blockSize, |reqs[a].tokens|, blocks * blockSize)
    {
      BlocksCover(reqs[a], blockSize, blocks);
    }
    var ats := Places(reqs, blockSize, blocks * blockSize);
    forall a, c, j, k | 0 <= a < |ats| && 0 <= c < |ats| && 0 <= j < |ats[a]| && 0 <= k < |ats[c]| && ats[a][j] == ats[c][k]
      ensures a == c && j == k
    {
      TokensApart(reqs, blockSize, blocks * blockSize, a, c, j, k);
    }
  }

  lemma TokensApart<S(!new)>(reqs: seq<Request<S>>, blockSize: nat, slots: nat, a: nat, c: nat, j: nat, k: nat)
    requires OwnBlocks(reqs) && a < |reqs| && c < |reqs| && j < |reqs[a].tokens| && k < |reqs[c].tokens|
    requires TableCovers(reqs[a].table, blockSize, |reqs[a].tokens|, slots)
    requires TableCovers(reqs[c].table, blockSize, |reqs[c].tokens|, slots)
    requires Slot(reqs[a].table, blockSize, j) == Slot(reqs[c].table, blockSize, k)
    ensures a == c && j == k
  {
    SameSlot(reqs[a].table, reqs[c].table, blockSize, j, k);
  }

  lemma BlocksCover<S(!new)>(req: Request<S>, blockSize: nat, blocks: nat)
    requires blockSize > 0 && TableFits(req, blockSize, blocks)
    ensures TableCovers(req.table, blockSize, |req.tokens|, blocks * blockSize)
  {
    forall j: nat | j < |req.tokens|
      ensures j / blockSize < |req.table| && Slot(req.table, blockSize, j) < blocks * blockSize
    {
      DivBound(j, |req.table|, blockSize);
      var block := req.table[j / blockSize];
      MulMono(block + 1, blocks, blockSize);
      assert (block + 1) * blockSize == block * blockSize + blockSize;
    }
  }

  lemma SameSlot(table: seq<nat>, table': seq<nat>, blockSize: nat, j: nat, k: nat)
    requires blockSize > 0 && j / blockSize < |table| && k / blockSize < |table'|
    requires Slot(table, blockSize, j) == Slot(table', blockSize, k)
    ensures table[j / blockSize] == table'[k / blockSize]
    ensures j / blockSize == k / blockSize ==> j == k
  {
    SlotExactly(table, blockSize, j);
    SlotExactly(table', blockSize, k);
    assert j == j / blockSize * blockSize + j % blockSize;
    assert k == k / blockSize * blockSize + k % blockSize;
  }

  lemma PlacesFit<S(!new)>(reqs: seq<Request<S>>, blockSize: nat, slots: nat, a: nat)
    requires AllCovered(reqs, blockSize, slots) && a < |reqs|
    ensures Fitting(Places(reqs, blockSize, slots)[a], slots)
  {
  }

  // ---- a prompt run ----

  /** Position u of the batch, in rows of seqLen tokens: its entry, or the padding. */
  function RowEntry<T>(rows: seq<seq<T>>, seqLen: nat, padding: T, u: nat): T
    requires seqLen > 0 && u < |rows| * seqLen
  {
    DivBound(u, |rows|, seqLen);
    var row := rows[u / seqLen];
    if u % seqLen < |row| then row[u % seqLen] else padding
  }

  /** The rows one after the other, each padded to seqLen. */
  function Flat<T>(rows: seq<seq<T>>, seqLen: nat, padding: T): (flat: seq<T>)
    requires seqLen > 0
    ensures |flat| == |rows| * seqLen
    ensures forall u :: 0 <= u < |flat| ==> flat[u] == RowEntry(rows, seqLen, padding, u)
  {
    seq(|rows| * seqLen, u requires 0 <= u < |rows| * seqLen => RowEntry(rows, seqLen, padding, u))
  }

  lemma FlatAt<T>(rows: seq<seq<T>>, seqLen: nat, padding: T, b: nat, j: nat)
    requires b < |rows| && j < |rows[b]| <= seqLen
    ensures b * seqLen + j < |rows| * seqLen && Flat(rows, seqLen, padding)[b * seqLen + j] == rows[b][j]
  {
    RowFits(b, |rows|, seqLen);
    RowStart(b, j, seqLen);
  }

  lemma RowFits(b: nat, rows: nat, seqLen: nat)
    requires b < rows
    ensures b * seqLen + seqLen <= rows * seqLen
  {
    MulMono(b + 1, rows, seqLen);
  }

  lemma FlatRow<T>(rows: seq<seq<T>>, seqLen: nat, padding: T, b: nat)
    requires seqLen > 0 && b < |rows| && |rows[b]| <= seqLen
    ensures b * seqLen + |rows[b]| <= |rows| * seqLen
    ensures Flat(rows, seqLen, padding)[b * seqLen..b * seqLen + |rows[b]|] == rows[b]
  {
    RowFits(b, |rows|, seqLen);
    forall j | 0 <= j < |rows[b]|
      ensures Flat(rows, seqLen, padding)[b * seqLen + j] == rows[b][j]
    {
      FlatAt(rows, seqLen, padding, b, j);
    }
  }

  /** The requests there are get no new tokens; the new ones get theirs, a row each. */
  ghost function PromptPlan<T>(old': nat, rows: seq<seq<T>>, seqLen: nat): (plan: seq<Entry>)
    ensures |plan| == old' + |rows|
  {
    Nothing(old') + RowPlan(rows, seqLen)
  }

  ghost function RowPlan<T>(rows: seq<seq<T>>, seqLen: nat): (plan: seq<Entry>)
    ensures |plan| == |rows|
  {
    seq(|rows|, b requires 0 <= b < |rows| => Entry(b * seqLen, |rows[b]|))
  }

  lemma PlanOf<T>(old': nat, rows: seq<seq<T>>, seqLen: nat, a: nat)
    requires a < old' + |rows|
    ensures a < old' ==> PromptPlan(old', rows, seqLen)[a] == Entry(0, 0)
    ensures a >= old' ==> PromptPlan(old', rows, seqLen)[a] == Entry((a - old') * seqLen, |rows[a - old']|)
  {
  }

  /** A slot of the mapping is position j of row b exactly at the place of that position. */
  lemma RowSlot(olds: seq<seq<nat>>, news: seq<seq<nat>>, seqLen: nat, b: nat, u: nat, j: nat)
    requires seqLen > 0 && Distinct(olds + news) && b < |news| && j < |news[b]| <= seqLen && u < |news| * seqLen
    ensures Flat<int>(news, seqLen, -1)[u] == news[b][j] <==> u == b * seqLen + j
  {
    EntryAt<int>(news, seqLen, -1, u);
    RowOf(u, b, j, seqLen);
    SlotInRow(olds, news, b, j, u / seqLen, u % seqLen);
  }

  lemma EntryAt<T>(rows: seq<seq<T>>, seqLen: nat, padding: T, u: nat)
    requires seqLen > 0 && u < |rows| * seqLen
    ensures u / seqLen < |rows|
    ensures
      var row := rows[u / seqLen];
      Flat(rows, seqLen, padding)[u] == if u % seqLen < |row| then row[u % seqLen] else padding
  {
    DivBound(u, |rows|, seqLen);
  }

  lemma SlotInRow(olds: seq<seq<nat>>, news: seq<seq<nat>>, b: nat, j: nat, c: nat, k: nat)
    requires Distinct(olds + news) && b < |news| && j < |news[b]| && c < |news|
    ensures (if k < |news[c]| then news[c][k] else -1) == news[b][j] <==> c == b && k == j
  {
    var ats := olds + news;
    assert ats[|olds| + c] == news[c] && ats[|olds| + b] == news[b];
  }

  lemma RowOf(u: nat, b: nat, j: nat, seqLen: nat)
    requires j < seqLen
    ensures u / seqLen == b && u % seqLen == j <==> u == b * seqLen + j
  {
    RowStart(b, j, seqLen);
  }

  /** No slot of the mapping belongs to a request that gets no new tokens. */
  lemma OtherSlot(olds: seq<seq<nat>>, news: seq<seq<nat>>, seqLen: nat, a: nat, u: nat, j: nat)
    requires seqLen > 0 && Distinct(olds + news) && a < |olds| && j < |olds[a]| && u < |news| * seqLen
    ensures Flat<int>(news, seqLen, -1)[u] != olds[a][j]
  {
    DivBound(u, |news|, seqLen);
    var c, k := u / seqLen, u % seqLen;
    if k < |news[c]| {
      var ats := olds + news;
      assert ats[|olds| + c] == news[c] && ats[a] == olds[a];
    }
  }

  lemma RowAppends(olds: seq<seq<nat>>, news: seq<seq<nat>>, seqLen: nat, b: nat)
    requires seqLen > 0 && Distinct(olds + news) && b < |news| && |news[b]| <= seqLen
    ensures Appends(Flat<int>(news, seqLen, -1), news[b], b * seqLen, |news[b]|)
  {
    RowFits(b, |news|, seqLen);
    forall u, j | 0 <= u < |news| * seqLen && 0 <= j < |news[b]|
      ensures Flat<int>(news, seqLen, -1)[u] == news[b][j] <==> u == b * seqLen + j
    {
      RowSlot(olds, news, seqLen, b, u, j);
    }
  }

  lemma OtherAppends(olds: seq<seq<nat>>, news: seq<seq<nat>>, seqLen: nat, a: nat)
    requires seqLen > 0 && Distinct(olds + news) && a < |olds|
    ensures Appends(Flat<int>(news, seqLen, -1), olds[a], 0, 0)
  {
    forall u, j | 0 <= u < |news| * seqLen && 0 <= j < |olds[a]|
      ensures Flat<int>(news, seqLen, -1)[u] != olds[a][j]
    {
      OtherSlot(olds, news, seqLen, a, u, j);
    }
  }

  lemma PromptPlanned(olds: seq<seq<nat>>, news: seq<seq<nat>>, seqLen: nat, slots: nat)
    requires seqLen > 0 && Distinct(olds + news)
    requires forall a :: 0 <= a < |olds| ==> Fitting(olds[a], slots)
    requires forall b :: 0 <= b < |news| ==> Fitting(news[b], slots) && |news[b]| <= seqLen
    ensures Planned(olds + news, PromptPlan(|olds|, news, seqLen), Flat<int>(news, seqLen, -1), slots)
  {
    var mapping := Flat<int>(news, seqLen, -1);
    forall u | 0 <= u < |mapping|
      ensures mapping[u] < slots
    {
      DivBound(u, |news|, seqLen);
    }
    forall a | 0 <= a < |olds| + |news|
      ensures Fitting((olds + news)[a], slots)
      ensures
        var e := PromptPlan(|olds|, news, seqLen)[a];
        Appends(mapping, (olds + news)[a], e.start, e.added)
    {
      if a < |olds| {
        OtherAppends(olds, news, seqLen, a);
      } else {
        RowAppends(olds, news, seqLen, a - |olds|);
      }
    }
  }

  /** The slots of the prompts, a row each. */
  function SlotRows<S(!new)>(tables: seq<seq<nat>>, prompts: seq<seq<S>>, blockSize: nat, ghost slots: nat): (rows: seq<seq<nat>>)
    requires |tables| == |prompts|
    requires forall b :: 0 <= b < |prompts| ==> TableCovers(tables[b], blockSize, |prompts[b]|, slots)
    ensures |rows| == |prompts|
    ensures forall b :: 0 <= b < |prompts| ==>
      TableCovers(tables[b], blockSize, |prompts[b]|, slots) && rows[b] == Positions(tables[b], blockSize, |prompts[b]|)
  {
    seq(|prompts|, b requires 0 <= b < |prompts| =>
      assert TableCovers(tables[b], blockSize, |prompts[b]|, slots); Positions(tables[b], blockSize, |prompts[b]|))
  }

  function RowOfBatch<S>(final: seq<S>, seqLen: nat, rows: nat, b: nat, len: nat): (row: seq<S>)
    requires |final| == rows * seqLen && b < rows && len <= seqLen
    ensures b * seqLen + len <= |final| && row == final[b * seqLen..b * seqLen + len]
  {
    RowFits(b, rows, seqLen);
    final[b * seqLen..b * seqLen + len]
  }

  // ---- a decoding run ----

  /** The batch entry of a request. */
  function IndexOf(ids: seq<nat>, a: nat): (b: nat)
    requires a in ids
    ensures b < |ids| && ids[b] == a
  {
    if ids[0] == a then 0 else 1 + IndexOf(ids[1..], a)
  }

  ghost predicate NoRepeats(ids: seq<nat>) {
    forall b, c :: 0 <= b < c < |ids| ==> ids[b] != ids[c]
  }

  lemma IndexUnique(ids: seq<nat>, b: nat)
    requires NoRepeats(ids) && b < |ids|
    ensures IndexOf(ids, ids[b]) == b
  {
    var c := IndexOf(ids, ids[b]);
    assert ids[c] == ids[b];
  }

  ghost function DecodePlan(n: nat, ids: seq<nat>): (plan: seq<Entry>)
    ensures |plan| == n
    ensures forall a :: 0 <= a < n ==> plan[a] == if a in ids then Entry(IndexOf(ids, a), 1) else Entry(0, 0)
  {
    seq(n, a requires 0 <= a < n => if a in ids then Entry(IndexOf(ids, a), 1) else Entry(0, 0))
  }

  /** The last slots of the requests in the batch. */
  ghost predicate LastSlots(ats: seq<seq<nat>>, ids: seq<nat>, mapping: seq<int>) {
    && |mapping| == |ids|
    && forall b :: 0 <= b < |ids| ==> ids[b] < |ats| && ats[ids[b]] != [] && mapping[b] == ats[ids[b]][|ats[ids[b]]| - 1]
  }

  lemma DecodeAppends(ats: seq<seq<nat>>, ids: seq<nat>, mapping: seq<int>, a: nat)
    requires Distinct(ats) && NoRepeats(ids) && LastSlots(ats, ids, mapping) && a < |ats|
    ensures
      var e := DecodePlan(|ats|, ids)[a];
      Appends(mapping, ats[a], e.start, e.added)
  {
    var e, at := DecodePlan(|ats|, ids)[a], ats[a];
    forall u, j | 0 <= u < |mapping| && 0 <= j < |at|
      ensures mapping[u] == at[j] <==> j - (|at| - e.added) == u - e.start && |at| - e.added <= j
    {
      IndexUnique(ids, u);
      if mapping[u] == at[j] {
        assert ids[u] == a && j == |at| - 1;
      }
    }
  }

  lemma DecodePlanned(ats: seq<seq<nat>>, ids: seq<nat>, mapping: seq<int>, slots: nat)
    requires Distinct(ats) && NoRepeats(ids) && LastSlots(ats, ids, mapping)
    requires forall a :: 0 <= a < |ats| ==> Fitting(ats[a], slots)
    ensures Planned(ats, DecodePlan(|ats|, ids), mapping, slots)
  {
    forall a | 0 <= a < |ats|
      ensures
        var e := DecodePlan(|ats|, ids)[a];
        Appends(mapping, ats[a], e.start, e.added)
    {
      DecodeAppends(ats, ids, mapping, a);
    }
  }

  // ---- the server ----

  ghost function Batch<S(!new)>(tables: seq<seq<nat>>, prompts: seq<seq<S>>): (reqs: seq<Request<S>>)
    requires |tables| == |prompts|
    ensures |reqs| == |prompts| && forall b :: 0 <= b < |reqs| ==> reqs[b] == Request(tables[b], prompts[b])
  {
    seq(|prompts|, b requires 0 <= b < |prompts| => Request(tables[b], prompts[b]))
  }

  /** The requests after a decoding step: those in the batch have one more token, and perhaps a longer
      block table. */
  ghost function Advanced<S(!new)>(reqs: seq<Request<S>>, ids: seq<nat>, tables: seq<seq<nat>>, tokens: seq<S>): (r: seq<Request<S>>)
    requires |ids| == |tables| == |tokens|
    ensures |r| == |reqs|
    ensures forall a :: 0 <= a < |reqs| ==>
      r[a] == if a in ids then Request(tables[IndexOf(ids, a)], reqs[a].tokens + [tokens[IndexOf(ids, a)]]) else reqs[a]
  {
    seq(|reqs|, a requires 0 <= a < |reqs| =>
      if a in ids then Request(tables[IndexOf(ids, a)], reqs[a].tokens + [tokens[IndexOf(ids, a)]]) else reqs[a])
  }

  lemma NoRequests<S(!new)>(reqs: seq<Request<S>>, blockSize: nat, slots: nat)
    requires reqs == []
    ensures Apart(reqs, blockSize, slots)
    ensures Tokens(reqs) == [] && Places(reqs, blockSize, slots) == [] && Nothing(|reqs|) == []
  {
  }

  /** New requests join. */
  lemma Join<S(!new)>(reqs: seq<Request<S>>, tables: seq<seq<nat>>, prompts: seq<seq<S>>, blockSize: nat, slots: nat)
    requires |tables| == |prompts| && AllCovered(reqs + Batch(tables, prompts), blockSize, slots)
    ensures AllCovered(reqs, blockSize, slots)
    ensures forall b :: 0 <= b < |prompts| ==> TableCovers(tables[b], blockSize, |prompts[b]|, slots)
    ensures Tokens(reqs + Batch(tables, prompts)) == Tokens(reqs) + prompts
    ensures Places(reqs + Batch(tables, prompts), blockSize, slots)
         == Places(reqs, blockSize, slots) + SlotRows(tables, prompts, blockSize, slots)
  {
    var batch := Batch(tables, prompts);
    var all := reqs + batch;
    assert forall a :: 0 <= a < |reqs| ==> all[a] == reqs[a];
    forall b | 0 <= b < |prompts|
      ensures TableCovers(tables[b], blockSize, |prompts[b]|, slots)
    {
      assert all[|reqs| + b] == Request(tables[b], prompts[b]);
    }
  }

  lemma PromptGrown<S(!new)>(toks: seq<seq<S>>, ats: seq<seq<nat>>, prompts: seq<seq<S>>, rows: seq<seq<nat>>, seqLen: nat, slots: nat)
    requires |toks| == |ats| && |rows| == |prompts|
    requires forall a :: 0 <= a < |toks| ==> |toks[a]| == |ats[a]| && Fitting(ats[a], slots)
    requires forall b :: 0 <= b < |rows| ==> |rows[b]| == |prompts[b]| && Fitting(rows[b], slots)
    ensures Grown(toks, ats, toks + prompts, ats + rows, PromptPlan(|toks|, prompts, seqLen), slots)
  {
    var toks', ats', plan := toks + prompts, ats + rows, PromptPlan(|toks|, prompts, seqLen);
    forall a | 0 <= a < |toks'|
      ensures plan[a].added <= |toks'[a]| == |ats'[a]| && Fitting(ats'[a], slots)
      ensures var n := |toks'[a]| - plan[a].added;
        if a < |toks| then toks'[a][..n] == toks[a] && ats'[a][..n] == ats[a] else n == 0
    {
      if a < |toks| {
        assert toks[a][..|toks[a]|] == toks[a] && ats[a][..|ats[a]|] == ats[a];
      } else {
        assert toks'[a] == prompts[a - |toks|] && ats'[a] == rows[a - |toks|];
      }
    }
  }

  lemma PromptPlaced<S(!new)>(toks: seq<seq<S>>, prompts: seq<seq<S>>, seqLen: nat, padding: S)
    requires seqLen > 0 && forall b :: 0 <= b < |prompts| ==> |prompts[b]| <= seqLen
    ensures Placed(Flat(prompts, seqLen, padding), PromptPlan(|toks|, prompts, seqLen), toks + prompts)
  {
    var flat, plan := Flat(prompts, seqLen, padding), PromptPlan(|toks|, prompts, seqLen);
    forall a | 0 <= a < |toks| + |prompts|
      ensures PlacedAt(flat, plan[a], (toks + prompts)[a])
    {
      if a < |toks| {
        assert flat[0..0] == toks[a][|toks[a]|..];
      } else {
        var b := a - |toks|;
        FlatRow(prompts, seqLen, padding, b);
        assert prompts[b][0..] == prompts[b];
      }
    }
  }

  lemma PromptRows<S(!new)>(old': nat, prompts: seq<seq<S>>, seqLen: nat, a: nat)
    requires seqLen > 0 && (forall b :: 0 <= b < |prompts| ==> |prompts[b]| <= seqLen) && a < old' + |prompts|
    ensures IsRow(PromptPlan(old', prompts, seqLen)[a], seqLen, if a < old' then 0 else |prompts[a - old']|)
  {
    if a >= old' {
      RowStart(a - old', 0, seqLen);
    }
  }

  /** The slot mapping and the states of a prompt run are as the layers need them. */
  lemma PromptReady<S(!new)>(reqs: seq<Request<S>>, tables: seq<seq<nat>>, prompts: seq<seq<S>>, seqLen: nat, padding: S,
                             blockSize: nat, slots: nat)
    requires |tables| == |prompts| && seqLen > 0 && forall b :: 0 <= b < |prompts| ==> |prompts[b]| <= seqLen
    requires Apart(reqs + Batch(tables, prompts), blockSize, slots)
    ensures AllCovered(reqs, blockSize, slots)
    ensures forall b :: 0 <= b < |prompts| ==> TableCovers(tables[b], blockSize, |prompts[b]|, slots)
    ensures
      var reqs', plan := reqs + Batch(tables, prompts), PromptPlan(|reqs|, prompts, seqLen);
      var ats, ats' := Places(reqs, blockSize, slots), Places(reqs', blockSize, slots);
      && Grown(Tokens(reqs), ats, Tokens(reqs'), ats', plan, slots)
      && Planned(ats', plan, Flat<int>(SlotRows(tables, prompts, blockSize, slots), seqLen, -1), slots)
      && Placed(Flat(prompts, seqLen, padding), plan, Tokens(reqs'))
      && forall a :: 0 <= a < |ats'| ==> IsRow(plan[a], seqLen, |ats'[a]|)
  {
    Join(reqs, tables, prompts, blockSize, slots);
    var toks, ats, rows := Tokens(reqs), Places(reqs, blockSize, slots), SlotRows(tables, prompts, blockSize, slots);
    AllFitting(ats, rows, tables, prompts, reqs, blockSize, slots);
    PromptGrown(toks, ats, prompts, rows, seqLen, slots);
    PromptPlanned(ats, rows, seqLen, slots);
    assert PromptPlan(|reqs|, rows, seqLen) == PromptPlan(|reqs|, prompts, seqLen);
    PromptPlaced(toks, prompts, seqLen, padding);
    forall a | 0 <= a < |ats| + |rows|
      ensures IsRow(PromptPlan(|reqs|, prompts, seqLen)[a], seqLen, |(ats + rows)[a]|)
    {
      PromptRows(|reqs|, prompts, seqLen, a);
    }
  }

  lemma AllFitting<S(!new)>(ats: seq<seq<nat>>, rows: seq<seq<nat>>, tables: seq<seq<nat>>, prompts: seq<seq<S>>,
                            reqs: seq<Request<S>>, blockSize: nat, slots: nat)
    requires AllCovered(reqs, blockSize, slots) && ats == Places(reqs, blockSize, slots) && |tables| == |prompts|
    requires forall b :: 0 <= b < |prompts| ==> TableCovers(tables[b], blockSize, |prompts[b]|, slots)
    requires rows == SlotRows(tables, prompts, blockSize, slots)
    ensures forall a :: 0 <= a < |ats| ==> |ats[a]| == |reqs[a].tokens| && Fitting(ats[a], slots)
    ensures forall b :: 0 <= b < |rows| ==> |rows[b]| == |prompts[b]| && Fitting(rows[b], slots)
  {
    forall a | 0 <= a < |ats|
      ensures |ats[a]| == |reqs[a].tokens| && Fitting(ats[a], slots)
    {
      PlacesFit(reqs, blockSize, slots, a);
    }
  }

  /** The final states of the new rows are those of causal runs. */
  lemma PromptStates<S(!new)>(layers: seq<Layer<S>>, p: seq<S>, toks: seq<seq<S>>, prompts: seq<seq<S>>, seqLen: nat,
                              final: seq<S>, states: seq<seq<S>>)
    requires AllShaped(layers) && seqLen > 0 && |prompts| == |states| && |final| == |prompts| * seqLen
    requires forall b :: 0 <= b < |prompts| ==> |prompts[b]| <= seqLen
    requires forall b :: 0 <= b < |prompts| ==> states[b] == RowOfBatch(final, seqLen, |prompts|, b, |prompts[b]|)
    requires Placed(final, PromptPlan(|toks|, prompts, seqLen), Finals(layers, p, toks + prompts))
    ensures states == Finals(layers, p, prompts)
    ensures Finals(layers, p, toks) + states == Finals(layers, p, toks + prompts)
  {
    FinalsConcat(layers, p, toks, prompts);
    RowsOfJoined(final, Finals(layers, p, toks), Finals(layers, p, prompts), prompts, seqLen, states);
  }

  lemma RowsOfJoined<S(!new)>(final: seq<S>, old': seq<seq<S>>, new': seq<seq<S>>, prompts: seq<seq<S>>, seqLen: nat,
                              states: seq<seq<S>>)
    requires seqLen > 0 && |states| == |prompts| == |new'| && |final| == |prompts| * seqLen
    requires forall b :: 0 <= b < |prompts| ==> |new'[b]| == |prompts[b]| <= seqLen
    requires forall b :: 0 <= b < |prompts| ==> states[b] == RowOfBatch(final, seqLen, |prompts|, b, |prompts[b]|)
    requires Placed(final, PromptPlan(|old'|, prompts, seqLen), old' + new')
    ensures states == new'
  {
    var us, plan := old' + new', PromptPlan(|old'|, prompts, seqLen);
    Joined(old', new', us);
    forall b | 0 <= b < |prompts|
      ensures states[b] == new'[b]
    {
      PlanOf(|old'|, prompts, seqLen, |old'| + b);
      assert PlacedAt(final, plan[|old'| + b], us[|old'| + b]);
      RowOfPlaced(final, new'[b], seqLen, |prompts|, b);
    }
  }

  lemma RowOfPlaced<S(!new)>(final: seq<S>, us: seq<S>, seqLen: nat, rows: nat, b: nat)
    requires |final| == rows * seqLen && b < rows && |us| <= seqLen && PlacedAt(final, Entry(b * seqLen, |us|), us)
    ensures RowOfBatch(final, seqLen, rows, b, |us|) == us
  {
    assert us[0..] == us;
  }

  lemma Joined<T>(a: seq<T>, b: seq<T>, all: seq<T>)
    requires all == a + b
    ensures |all| == |a| + |b| && forall i :: 0 <= i < |b| ==> all[|a| + i] == b[i]
  {
  }

  lemma FinalsConcat<S(!new)>(layers: seq<Layer<S>>, p: seq<S>, a: seq<seq<S>>, b: seq<seq<S>>)
    requires AllShaped(layers)
    ensures Finals(layers, p, a + b) == Finals(layers, p, a) + Finals(layers, p, b)
  {
  }

  /** The rows of a batch are the last states of the requests planned there. */

  /** Each entry of the batch names a request, its block table, which keeps the places of its tokens
      and has one for the next, and its new length. */
  ghost predicate Steps<S(!new)>(reqs: seq<Request<S>>, ids: seq<nat>, tables: seq<seq<nat>>, lens: seq<nat>, blockSize: nat, slots: nat) {
    && NoRepeats(ids) && |ids| == |tables| == |lens| && AllCovered(reqs, blockSize, slots)
    && forall b :: 0 <= b < |ids| ==> IsEntry(reqs, ids[b], tables[b], lens[b], blockSize, slots)
  }

  ghost predicate IsEntry<S(!new)>(reqs: seq<Request<S>>, a: nat, table: seq<nat>, len: nat, blockSize: nat, slots: nat)
    requires AllCovered(reqs, blockSize, slots)
  {
    && a < |reqs| && len == |reqs[a].tokens| + 1 && TableCovers(table, blockSize, len, slots)
    && Positions(table, blockSize, len - 1) == Places(reqs, blockSize, slots)[a]
  }

  /** The slots of the new tokens. */
  function LastSlotsOf(tables: seq<seq<nat>>, lens: seq<nat>, blockSize: nat, ghost slots: nat): (mapping: seq<int>)
    requires |tables| == |lens|
    requires forall b :: 0 <= b < |tables| ==> lens[b] > 0 && TableCovers(tables[b], blockSize, lens[b], slots)
    ensures |mapping| == |tables|
    ensures forall b :: 0 <= b < |tables| ==>
      TableCovers(tables[b], blockSize, lens[b], slots) && mapping[b] == Positions(tables[b], blockSize, lens[b])[lens[b] - 1]
  {
    seq(|tables|, b requires 0 <= b < |tables| =>
      assert TableCovers(tables[b], blockSize, lens[b], slots); Slot(tables[b], blockSize, lens[b] - 1))
  }

  /** The new states join the outputs of their requests. */
  ghost function Extended<S(!new)>(outputs: seq<seq<S>>, ids: seq<nat>, states: seq<S>): (r: seq<seq<S>>)
    requires |states| == |ids|
    ensures |r| == |outputs|
    ensures forall a :: 0 <= a < |r| ==> r[a] == if a in ids then outputs[a] + [states[IndexOf(ids, a)]] else outputs[a]
  {
    seq(|outputs|, a requires 0 <= a < |outputs| => if a in ids then outputs[a] + [states[IndexOf(ids, a)]] else outputs[a])
  }

  /** The places of an advanced request. */
  lemma AdvancedPlaces<S(!new)>(reqs: seq<Request<S>>, ids: seq<nat>, tables: seq<seq<nat>>, lens: seq<nat>, tokens: seq<S>,
                                blockSize: nat, slots: nat, a: nat)
    requires Steps(reqs, ids, tables, lens, blockSize, slots) && |tokens| == |ids| && a < |reqs|
    requires AllCovered(Advanced(reqs, ids, tables, tokens), blockSize, slots)
    ensures
      var reqs' := Advanced(reqs, ids, tables, tokens);
      var at, at' := Places(reqs, blockSize, slots)[a], Places(reqs', blockSize, slots)[a];
      && |at| == |reqs[a].tokens| && at' == Positions(reqs'[a].table, blockSize, |reqs'[a].tokens|)
      && at'[..|at|] == at && |at'| == |at| + if a in ids then 1 else 0
  {
    if a in ids {
      var b := IndexOf(ids, a);
      assert IsEntry(reqs, ids[b], tables[b], lens[b], blockSize, slots);
      assert Positions(tables[b], blockSize, lens[b])[..lens[b] - 1] == Positions(tables[b], blockSize, lens[b] - 1);
    } else {
      var at := Places(reqs, blockSize, slots)[a];
      assert at[..|at|] == at;
    }
  }

  lemma DecodeGrown<S(!new)>(reqs: seq<Request<S>>, ids: seq<nat>, tables: seq<seq<nat>>, lens: seq<nat>, tokens: seq<S>,
                             blockSize: nat, slots: nat)
    requires Steps(reqs, ids, tables, lens, blockSize, slots) && |tokens| == |ids|
    requires AllCovered(Advanced(reqs, ids, tables, tokens), blockSize, slots)
    ensures
      var reqs' := Advanced(reqs, ids, tables, tokens);
      Grown(Tokens(reqs), Places(reqs, blockSize, slots), Tokens(reqs'), Places(reqs', blockSize, slots),
            DecodePlan(|reqs|, ids), slots)
  {
    var reqs', plan := Advanced(reqs, ids, tables, tokens), DecodePlan(|reqs|, ids);
    var toks, toks' := Tokens(reqs), Tokens(reqs');
    var ats, ats' := Places(reqs, blockSize, slots), Places(reqs', blockSize, slots);
    forall a | 0 <= a < |reqs|
      ensures plan[a].added <= |toks'[a]| == |ats'[a]| && Fitting(ats'[a], slots)
      ensures var n := |toks'[a]| - plan[a].added; toks'[a][..n] == toks[a] && ats'[a][..n] == ats[a]
    {
      AdvancedPlaces(reqs, ids, tables, lens, tokens, blockSize, slots, a);
      PlacesFit(reqs', blockSize, slots, a);
      assert |toks[a]| == |toks'[a]| - plan[a].added == |ats[a]|;
    }
  }

  lemma DecodePlaced<S(!new)>(reqs: seq<Request<S>>, ids: seq<nat>, tables: seq<seq<nat>>, tokens: seq<S>)
    requires |ids| == |tables| == |tokens|
    ensures Placed(tokens, DecodePlan(|reqs|, ids), Tokens(Advanced(reqs, ids, tables, tokens)))
  {
    var reqs', plan := Advanced(reqs, ids, tables, tokens), DecodePlan(|reqs|, ids);
    forall a | 0 <= a < |reqs|
      ensures PlacedAt(tokens, plan[a], reqs'[a].tokens)
    {
      if a in ids {
        var b := IndexOf(ids, a);
        assert tokens[b..b + 1] == [tokens[b]];
      } else {
        assert tokens[0..0] == reqs'[a].tokens[|reqs'[a].tokens|..];
      }
    }
  }

  /** The slot mapping, the states and the metadata of a decoding run are as the layers need them. */
  lemma DecodeReady<S(!new)>(reqs: seq<Request<S>>, ids: seq<nat>, tables: seq<seq<nat>>, lens: seq<nat>, tokens: seq<S>,
                             blockSize: nat, slots: nat)
    requires Steps(reqs, ids, tables, lens, blockSize, slots) && |tokens| == |ids|
    requires Apart(Advanced(reqs, ids, tables, tokens), blockSize, slots)
    ensures forall b :: 0 <= b < |tables| ==> lens[b] > 0 && TableCovers(tables[b], blockSize, lens[b], slots)
    ensures
      var reqs', plan := Advanced(reqs, ids, tables, tokens), DecodePlan(|reqs|, ids);
      var ats, ats' := Places(reqs, blockSize, slots), Places(reqs', blockSize, slots);
      && Grown(Tokens(reqs), ats, Tokens(reqs'), ats', plan, slots)
      && Planned(ats', plan, LastSlotsOf(tables, lens, blockSize, slots), slots)
      && Placed(tokens, plan, Tokens(reqs'))
      && forall a :: 0 <= a < |ats'| ==> IsStep(plan[a], ats'[a], tables, lens, blockSize, slots)
  {
    var reqs', plan := Advanced(reqs, ids, tables, tokens), DecodePlan(|reqs|, ids);
    var ats' := Places(reqs', blockSize, slots);
    forall b | 0 <= b < |tables|
      ensures lens[b] > 0 && TableCovers(tables[b], blockSize, lens[b], slots)
    {
      assert IsEntry(reqs, ids[b], tables[b], lens[b], blockSize, slots);
    }
    DecodeGrown(reqs, ids, tables, lens, tokens, blockSize, slots);
    DecodePlaced(reqs, ids, tables, tokens);
    forall b | 0 <= b < |ids|
      ensures ids[b] < |ats'| && ats'[ids[b]] == Positions(tables[b], blockSize, lens[b])
    {
      assert IsEntry(reqs, ids[b], tables[b], lens[b], blockSize, slots);
      IndexUnique(ids, b);
    }
    DecodePlanned(ats', ids, LastSlotsOf(tables, lens, blockSize, slots), slots);
    forall a | 0 <= a < |ats'|
      ensures IsStep(plan[a], ats'[a], tables, lens, blockSize, slots)
    {
      if a in ids {
        assert ids[IndexOf(ids, a)] == a;
      }
    }
  }

  /** The final states of the new tokens are the next ones of causal runs. */
  lemma {:induction false} DecodeStates<S(!new)>(layers: seq<Layer<S>>, s: Session<S>, ids: seq<nat>, tables: seq<seq<nat>>,
                                                 tokens: seq<S>, states: seq<S>)
    requires AllShaped(layers) && |ids| == |tables| == |tokens| == |states| && NoRepeats(ids)
    requires forall b :: 0 <= b < |ids| ==> ids[b] < |s.requests|
    requires s.outputs == Finals(layers, s.prefix, Tokens(s.requests))
    requires Placed(states, DecodePlan(|s.requests|, ids),
                    Finals(layers, s.prefix, Tokens(Advanced(s.requests, ids, tables, tokens))))
    ensures forall b :: 0 <= b < |tokens| ==>
      var before := s.prefix + s.requests[ids[b]].tokens;
      states[b] == CausalRun(layers, before + [tokens[b]])[|before|]
    ensures Extended(s.outputs, ids, states)
         == Finals(layers, s.prefix, Tokens(Advanced(s.requests, ids, tables, tokens)))
  {
    var reqs' := Advanced(s.requests, ids, tables, tokens);
    var all, outs := Finals(layers, s.prefix, Tokens(reqs')), Extended(s.outputs, ids, states);
    forall a | 0 <= a < |s.requests|
      ensures outs[a] == all[a]
    {
      if a in ids {
        var b := IndexOf(ids, a);
        assert PlacedAt(states, DecodePlan(|s.requests|, ids)[a], all[a]);
        LastState(layers, s.prefix, s.requests[a].tokens, tokens[b], states, b);
      }
    }
    forall b | 0 <= b < |tokens|
      ensures
        var before := s.prefix + s.requests[ids[b]].tokens;
        states[b] == CausalRun(layers, before + [tokens[b]])[|before|]
    {
      IndexUnique(ids, b);
      assert PlacedAt(states, DecodePlan(|s.requests|, ids)[ids[b]], all[ids[b]]);
      LastState(layers, s.prefix, s.requests[ids[b]].tokens, tokens[b], states, b);
      LastIsRun(layers, s.prefix, s.requests[ids[b]].tokens, tokens[b], states[b]);
    }
  }

  lemma LastState<S(!new)>(layers: seq<Layer<S>>, p: seq<S>, tokens: seq<S>, token: S, states: seq<S>, b: nat)
    requires AllShaped(layers) && b < |states|
    requires PlacedAt(states, Entry(b, 1), Final(layers, p, tokens + [token]))
    ensures Final(layers, p, tokens + [token]) == Final(layers, p, tokens) + [states[b]]
  {
    FinalPrefix(layers, p, tokens, [token]);
    LastOf(Final(layers, p, tokens + [token]), |tokens|, states, b);
  }

  lemma LastOf<S(!new)>(us: seq<S>, n: nat, states: seq<S>, b: nat)
    requires |us| == n + 1 && b < |states| && PlacedAt(states, Entry(b, 1), us)
    ensures us == us[..n] + [states[b]]
  {
    assert states[b] == states[b..b + 1][0];
  }

  lemma LastIsRun<S(!new)>(layers: seq<Layer<S>>, p: seq<S>, tokens: seq<S>, token: S, out: S)
    requires AllShaped(layers) && Final(layers, p, tokens + [token]) == Final(layers, p, tokens) + [out]
    ensures out == CausalRun(layers, p + tokens + [token])[|p + tokens|]
  {
    assert p + (tokens + [token]) == p + tokens + [token];
    assert out == Final(layers, p, tokens + [token])[|tokens|];
  }

  /** What is being served: the tokens the prefix was filled with, the requests, and the final states
      returned for each of them so far. */
  datatype Session<S> = Session(prefix: seq<S>, requests: seq<Request<S>>, outputs: seq<seq<S>>)

  /** The session without request a. */
  ghost function Without<S(!new)>(s: Session<S>, a: nat): Session<S>
    requires a < |s.requests| == |s.outputs|
  {
    Session(s.prefix, Cut(s.requests, a), Cut(s.outputs, a))
  }

  lemma WithoutApart<S(!new)>(reqs: seq<Request<S>>, a: nat, blockSize: nat, slots: nat)
    requires Apart(reqs, blockSize, slots) && a < |reqs|
    ensures Apart(Cut(reqs, a), blockSize, slots)
    ensures Tokens(Cut(reqs, a)) == Cut(Tokens(reqs), a)
    ensures Places(Cut(reqs, a), blockSize, slots) == Cut(Places(reqs, blockSize, slots), a)
  {
    var r := Cut(reqs, a);
    assert AllCovered(r, blockSize, slots);
    assert Places(r, blockSize, slots) == Cut(Places(reqs, blockSize, slots), a);
    CutDistinct(Places(reqs, blockSize, slots), a);
  }

  lemma FinalsCut<S(!new)>(layers: seq<Layer<S>>, p: seq<S>, toks: seq<seq<S>>, a: nat)
    requires AllShaped(layers) && a < |toks|
    ensures Cut(Finals(layers, p, toks), a) == Finals(layers, p, Cut(toks, a))
  {
  }

  lemma CutDistinct(ats: seq<seq<nat>>, a: nat)
    requires Distinct(ats) && a < |ats|
    ensures Distinct(Cut(ats, a))
  {
  }

  class Server<S(!new)> {
    const stack: Stack<S>

    constructor (layers: seq<Layer<S>>, blockSize: nat, slots: nat, capacity: nat)
      requires AllShaped(layers) && blockSize > 0
      ensures Serving(Session([], [], [])) && fresh(stack.Footprint())
      ensures stack.layers == layers && stack.blockSize == blockSize && stack.slots == slots && stack.capacity == capacity
    {
      stack := new Stack(layers, blockSize, slots, capacity);
      new;
      NoRequests<S>([], blockSize, slots);
      stack.Empty();
    }

    /** Every layer holds the prefix and the tokens of every request, in slots of their own, and the
        outputs are those of causal runs over the prefix and the request's own tokens. */
    ghost predicate Serving(s: Session<S>)
      reads stack.Footprint()
    {
      && stack.Wired() && |s.prefix| <= stack.capacity
      && Apart(s.requests, stack.blockSize, stack.slots)
      && stack.Serves(s.prefix, Tokens(s.requests), Places(s.requests, stack.blockSize, stack.slots), Nothing(|s.requests|))
      && s.outputs == Finals(stack.layers, s.prefix, Tokens(s.requests))
    }

    /** Fills the prefix, before any request is served. */
    method Fill(tokens: seq<S>, ghost s: Session<S>) returns (states: seq<S>, ghost s': Session<S>)
      requires Serving(s) && s.requests == [] && 0 < |tokens| <= stack.capacity
      modifies stack.Footprint()
      ensures s' == Session(tokens, [], []) && Serving(s')
      ensures states == CausalRun(stack.layers, tokens)
    {
      NoRequests(s.requests, stack.blockSize, stack.slots);
      NoRequests<S>([], stack.blockSize, stack.slots);
      stack.ServingIsHealthy(s.prefix, Tokens(s.requests), Places(s.requests, stack.blockSize, stack.slots), Nothing(|s.requests|));
      states := stack.RunFill(tokens);
      s' := Session(tokens, [], []);
    }

    /** A prompt run for new requests, padded to seqLen tokens each. */
    method Prompt(prompts: seq<seq<S>>, tables: seq<seq<nat>>, seqLen: nat, padding: S, prefixLength: nat, ghost s: Session<S>)
      returns (states: seq<seq<S>>, ghost s': Session<S>)
      requires Serving(s) && prefixLength == |s.prefix| && seqLen > 0
      requires |tables| == |prompts| && forall b :: 0 <= b < |prompts| ==> |prompts[b]| <= seqLen
      requires Apart(s.requests + Batch(tables, prompts), stack.blockSize, stack.slots)
      modifies stack.Footprint()
      ensures |states| == |prompts|
      ensures forall b :: 0 <= b < |prompts| ==>
        states[b] == CausalRun(stack.layers, s.prefix + prompts[b])[|s.prefix|..]
      ensures s' == Session(s.prefix, s.requests + Batch(tables, prompts), s.outputs + states) && Serving(s')
    {
      ghost var reqs' := s.requests + Batch(tables, prompts);
      ghost var toks, toks' := Tokens(s.requests), Tokens(reqs');
      ghost var ats, ats' := Places(s.requests, stack.blockSize, stack.slots), Places(reqs', stack.blockSize, stack.slots);
      PromptReady(s.requests, tables, prompts, seqLen, padding, stack.blockSize, stack.slots);
      var rows := SlotRows(tables, prompts, stack.blockSize, stack.slots);
      var mapping := Flat<int>(rows, seqLen, -1);
      var flat := Flat(prompts, seqLen, padding);
      ghost var plan := PromptPlan(|s.requests|, prompts, seqLen);
      var final := stack.ServePrompt(|prompts|, seqLen, flat, mapping, prefixLength, s.prefix, toks, ats, toks', ats', plan);
      states := seq(|prompts|, b requires 0 <= b < |prompts| => RowOfBatch(final, seqLen, |prompts|, b, |prompts[b]|));
      s' := Session(s.prefix, reqs', s.outputs + states);
      Join(s.requests, tables, prompts, stack.blockSize, stack.slots);
      PromptStates(stack.layers, s.prefix, toks, prompts, seqLen, final, states);
    }

    /** A decoding run: one token for each request in `ids`, whose block tables may have grown. */
    method Decode(tokens: seq<S>, tables: seq<seq<nat>>, lens: seq<nat>, prefixLength: nat, ghost ids: seq<nat>, ghost s: Session<S>)
      returns (states: seq<S>, ghost s': Session<S>)
      requires Serving(s) && prefixLength == |s.prefix|
      requires Steps(s.requests, ids, tables, lens, stack.blockSize, stack.slots) && |tokens| == |ids|
      requires Apart(Advanced(s.requests, ids, tables, tokens), stack.blockSize, stack.slots)
      modifies stack.Footprint()
      ensures |states| == |tokens|
      ensures forall b :: 0 <= b < |tokens| ==>
        var before := s.prefix + s.requests[ids[b]].tokens;
        states[b] == CausalRun(stack.layers, before + [tokens[b]])[|before|]
      ensures s' == Session(s.prefix, Advanced(s.requests, ids, tables, tokens), Extended(s.outputs, ids, states)) && Serving(s')
    {
      ghost var reqs' := Advanced(s.requests, ids, tables, tokens);
      ghost var toks, toks' := Tokens(s.requests), Tokens(reqs');
      ghost var ats, ats' := Places(s.requests, stack.blockSize, stack.slots), Places(reqs', stack.blockSize, stack.slots);
      var mapping := LastSlotsOf(tables, lens, stack.blockSize, stack.slots);
      DecodeReady(s.requests, ids, tables, lens, tokens, stack.blockSize, stack.slots);
      states := stack.ServeDecode(tokens, mapping, tables, lens, prefixLength, s.prefix, toks, ats, toks', ats',
                                  DecodePlan(|s.requests|, ids));
      s' := Session(s.prefix, reqs', Extended(s.outputs, ids, states));
      DecodeStates(stack.layers, s, ids, tables, tokens, states);
    }

    /** In every state of the server, every layer's prefix cache is that of a run over the prefix. */
    lemma ServedPrefix(s: Session<S>, i: nat)
      requires Serving(s) && i < |stack.layers|
      ensures stack.units[i].Valid() && stack.units[i].Prefix(|s.prefix|) == Caches(stack.layers, s.prefix)[i]
    {
      stack.HoldsPrefix(i, s.prefix, Tokens(s.requests), Places(s.requests, stack.blockSize, stack.slots));
    }

    /** In every state of the server, the paged cache of every request, in every layer, is the user part
        of the cache of a run over the prefix and the request's own tokens. */
    lemma ServedCache(s: Session<S>, i: nat, a: nat)
      requires Serving(s) && i < |stack.layers| && a < |s.requests|
      ensures
        var req := s.requests[a];
        && stack.units[i].Valid() && TableCovers(req.table, stack.blockSize, |req.tokens|, stack.slots)
        && stack.units[i].Context(req.table, stack.blockSize, |req.tokens|)
           == Drop(Caches(stack.layers, s.prefix + req.tokens), |s.prefix|)[i]
    {
      stack.HoldsRequest(i, s.prefix, Tokens(s.requests), Places(s.requests, stack.blockSize, stack.slots), a);
    }

    /** In every state of the server, the outputs of every request are the final states of a run over the
        prefix and the request's own tokens. */
    lemma ServedOutputs(s: Session<S>, a: nat)
      requires Serving(s) && a < |s.requests|
      ensures s.outputs[a] == CausalRun(stack.layers, s.prefix + s.requests[a].tokens)[|s.prefix|..]
    {
      assert s.outputs[a] == Final(stack.layers, s.prefix, s.requests[a].tokens);
    }

    /** A request may be dropped at any time; the others are served as before. */
    lemma Release(s: Session<S>, a: nat)
      requires Serving(s) && a < |s.requests|
      ensures Serving(Without(s, a))
    {
      var toks, ats := Tokens(s.requests), Places(s.requests, stack.blockSize, stack.slots);
      WithoutApart(s.requests, a, stack.blockSize, stack.slots);
      stack.Forget(s.prefix, toks, ats, a);
      FinalsCut(stack.layers, s.prefix, toks, a);
    }
  }
}
