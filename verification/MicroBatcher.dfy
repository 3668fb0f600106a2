/** The bounded queue and the batch runner (cpp-bidder/src/micro_batcher.cpp). */
module MicroBatchers {
  import opened Types
  import opened ModelSessions
  import Fallback

  /** A queued request. Its callback is identified by the request it captured and by `token`, the
      arrival whose `done` it fires. */
  datatype Job = Job(token: nat, request: Fallback.Request, features: Features)

  /** One call of a job's callback; `ok` tells whether the batch ran or threw. */
  datatype Callback = Callback(job: Job, ok: bool, probs: seq<real>)

  /** How a batch run on `s` answers one of its jobs. */
  function CallbackFor(s: Session, job: Job, throws: bool): Callback {
    if throws then Callback(job, false, []) else Callback(job, true, s.row(job.features))
  }

  predicate Admits(queue: seq<Job>, stopping: bool, queueMax: int) {
    !stopping && |queue| < queueMax
  }

  /** How many jobs a worker pops at once: the whole queue, or the cap. */
  function TakeCount(queue: seq<Job>, batchMax: int): (n: nat)
    ensures n <= |queue|
  {
    Max(0, Min(|queue|, batchMax))
  }

  function Rows(s: Session, batch: seq<Job>): seq<seq<real>> {
    seq(|batch|, i requires 0 <= i < |batch| => s.row(batch[i].features))
  }

  // ---------- flattening and unflattening ----------

  function FlatCat(batch: seq<Job>): (r: seq<int>)
    ensures |r| == |batch| * CAT_WIDTH
  {
    if batch == [] then [] else FlatCat(batch[..|batch| - 1]) + batch[|batch| - 1].features.cat
  }

  function FlatCont(batch: seq<Job>): (r: seq<real>)
    ensures |r| == |batch| * CONT_WIDTH
  {
    if batch == [] then [] else FlatCont(batch[..|batch| - 1]) + batch[|batch| - 1].features.cont
  }

  function FlatTags(batch: seq<Job>): (r: seq<int>)
    ensures |r| == |batch| * TAG_WIDTH
  {
    if batch == [] then [] else FlatTags(batch[..|batch| - 1]) + batch[|batch| - 1].features.tags
  }

  function Output(s: Session, batch: seq<Job>): seq<real> {
    FlatOutput(s, FlatCat(batch), FlatCont(batch), FlatTags(batch), |batch|)
  }

  lemma OutputOfOneMore(s: Session, batch: seq<Job>)
    requires batch != []
    ensures Output(s, batch) == Output(s, batch[..|batch| - 1]) + s.row(batch[|batch| - 1].features)
  {
    var m := |batch| - 1;
    var shorter, f := batch[..m], batch[m].features;
    assert FlatCat(batch)[..m * CAT_WIDTH] == FlatCat(shorter) && FlatCat(batch)[m * CAT_WIDTH..] == f.cat;
    assert FlatCont(batch)[..m * CONT_WIDTH] == FlatCont(shorter) && FlatCont(batch)[m * CONT_WIDTH..] == f.cont;
    assert FlatTags(batch)[..m * TAG_WIDTH] == FlatTags(shorter) && FlatTags(batch)[m * TAG_WIDTH..] == f.tags;
  }

  lemma RowBounds(i: nat, n: nat, width: nat)
    requires i < n
    ensures 0 <= i * width <= i * width + width == (i + 1) * width <= n * width
  {
    Scale(i + 1, n, width);
  }

  lemma Scale(a: nat, b: nat, width: nat)
    requires a <= b
    ensures a * width <= b * width
  {
  }

  /** Batching preserves meaning: slice `i` of the flat output is the model's answer to request `i` alone,
      whatever else shares the batch. */
  lemma {:induction false} SliceIsRowAlone(s: Session, batch: seq<Job>, i: nat)
    requires IsRowWise(s) && i < |batch|
    ensures |Output(s, batch)| == |batch| * s.width
    ensures 0 <= i * s.width <= (i + 1) * s.width <= |batch| * s.width
    ensures Output(s, batch)[i * s.width..(i + 1) * s.width] == s.row(batch[i].features)
  {
    var m := |batch| - 1;
    FlatOutputLength(s, FlatCat(batch), FlatCont(batch), FlatTags(batch), |batch|);
    FlatOutputLength(s, FlatCat(batch[..m]), FlatCont(batch[..m]), FlatTags(batch[..m]), m);
    OutputOfOneMore(s, batch);
    RowBounds(i, |batch|, s.width);
    if i < m {
      RowBounds(i, m, s.width);
      SliceIsRowAlone(s, batch[..m], i);
    }
  }

  class MicroBatcher {
    const model: ModelSession
    const batchMax: int
    const queueMax: int
    var queue: seq<Job>
    var stopping: bool

    constructor (model: ModelSession, batchMax: int, queueMax: int)
      ensures this.model == model && this.batchMax == batchMax && this.queueMax == queueMax
      ensures queue == [] && !stopping
    {
      this.model, this.batchMax, this.queueMax := model, batchMax, queueMax;
      queue, stopping := [], false;
    }

    /** Accepted exactly when the queue has room and the batcher is not stopping; a shed job changes nothing. */
    method Submit(job: Job) returns (accepted: bool)
      modifies this`queue
      ensures accepted <==> !stopping && |old(queue)| < queueMax
      ensures queue == if accepted then old(queue) + [job] else old(queue)
    {
      if stopping || |queue| >= queueMax {
        return false;
      }
      queue := queue + [job];
      return true;
    }

    /** The critical section of a worker whose wait is over: exit, or pop a batch from the front, everything that waits
        or as much as the cap allows. */
    method TakeBatch() returns (exit: bool, batch: seq<Job>)
      requires stopping || queue != []
      modifies this`queue
      ensures exit <==> stopping && old(queue) == []
      ensures batch + queue == old(queue)
      ensures |old(queue)| <= batchMax ==> queue == []
      ensures |old(queue)| > batchMax ==> |batch| == Max(0, batchMax)
    {
      batch := [];
      exit := stopping && queue == [];
      if exit {
        return;
      }
      var take := |queue|;
      if take > batchMax {
        take := batchMax;
      }
      var i := 0;
      while i < take
        invariant 0 <= i <= Max(0, take) && |batch| == i
        invariant batch + queue == old(queue)
      {
        batch := batch + [queue[0]];
        queue := queue[1..];
        i := i + 1;
      }
    }

    /** The first caller sets the flag; any later one finds it set and returns without waiting. */
    method RequestStop() returns (first: bool)
      modifies this`stopping
      ensures stopping && first == !old(stopping)
    {
      if stopping {
        return false;
      }
      stopping := true;
      return true;
    }

    /** Run one batch and answer every job in it, in order: with the model's answer to its own
        features, or, when the run throws, with a failure. */
    method RunBatch(batch: seq<Job>, throws: bool) returns (calls: seq<Callback>)
      requires model.Valid()
      ensures |calls| == |batch|
      ensures forall i :: 0 <= i < |batch| ==>
        calls[i].job == batch[i] && calls[i].ok == !throws
        && calls[i].probs == if throws then [] else model.session.row(batch[i].features)
    {
      var B := |batch|;
      var cat, cont, tags := FillTensors(batch);
      calls := [];
      if throws {
        for i := 0 to B
          invariant |calls| == i
          invariant forall n :: 0 <= n < i ==> calls[n] == CallbackFor(model.session, batch[n], throws)
        {
          calls := calls + [Callback(batch[i], false, [])];
        }
        return;
      }
      var probs := model.Run(cat, cont, tags, B);
      ghost var output := probs[..];
      assert output == Output(model.session, batch);
      for i := 0 to B
        invariant |calls| == i
        invariant probs[..] == output
        invariant forall n :: 0 <= n < i ==> calls[n] == CallbackFor(model.session, batch[n], throws)
      {
        SliceIsRowAlone(model.session, batch, i);
        var one := CopyOut(probs, i * model.numBins, model.numBins);
        calls := calls + [Callback(batch[i], true, one[..])];
      }
    }

    static method CopyOut(probs: array<real>, at: nat, n: nat) returns (one: array<real>)
      requires at + n <= probs.Length
      ensures fresh(one) && one[..] == probs[at..at + n]
    {
      one := new real[n];
      for k := 0 to n
        invariant one[..k] == probs[at..at + k]
      {
        one[k] := probs[at + k];
      }
    }

    static method CopyIn<T>(dst: array<T>, at: nat, row: seq<T>)
      requires at + |row| <= dst.Length
      modifies dst
      ensures dst[..] == old(dst[..at]) + row + old(dst[at + |row|..])
    {
      for j := 0 to |row|
        invariant dst[..at + j] == old(dst[..at]) + row[..j]
        invariant dst[at + j..] == old(dst[at + j..])
      {
        dst[at + j] := row[j];
      }
    }

    static method FillTensors(batch: seq<Job>) returns (cat: array<int>, cont: array<real>, tags: array<int>)
      ensures fresh(cat) && fresh(cont) && fresh(tags)
      ensures cat[..] == FlatCat(batch) && cont[..] == FlatCont(batch) && tags[..] == FlatTags(batch)
    {
      var B := |batch|;
      cat, cont, tags := new int[B * CAT_WIDTH], new real[B * CONT_WIDTH], new int[B * TAG_WIDTH];
      for i := 0 to B
        invariant cat != tags
        invariant cat[..i * CAT_WIDTH] == FlatCat(batch[..i])
        invariant cont[..i * CONT_WIDTH] == FlatCont(batch[..i])
        invariant tags[..i * TAG_WIDTH] == FlatTags(batch[..i])
      {
        CopyIn(cat, i * CAT_WIDTH, batch[i].features.cat);
        CopyIn(cont, i * CONT_WIDTH, batch[i].features.cont);
        CopyIn(tags, i * TAG_WIDTH, batch[i].features.tags);
        assert batch[..i + 1][..i] == batch[..i];
      }
      assert batch[..B] == batch;
    }
  }
}
