/** The swappable model (cpp-bidder/src/model_session.cpp). */
module ModelSessions {
  import opened Types

  /** What a new model file turns out to be: it may fail to load, throw on the all-zeros input, or
      produce a tensor of some rank, with or without NaN or infinity in it. */
  datatype Candidate =
    | Unloadable
    | ThrowsOnZeros
    | Fresh(session: Session, rank: nat, finiteOnZeros: bool)

  predicate Accepts(numBins: nat, c: Candidate) {
    c.Fresh? && c.rank == 2 && c.session.width == numBins && c.finiteOnZeros
  }

  const DEFAULT_BINS: nat := 200

  /** The bin count taken from the first model's declared output shape; one without a known second dimension leaves
      the default. */
  function AdoptedBins(shape: seq<int>): nat {
    if |shape| == 2 && shape[1] > 0 then shape[1] else DEFAULT_BINS
  }

  /** The flat output of one run over `n` requests laid out row after row: each row of the output is
      what the session computes for that request's rows alone. */
  function FlatOutput(s: Session, cat: seq<int>, cont: seq<real>, tags: seq<int>, n: nat): seq<real>
    requires |cat| == n * CAT_WIDTH && |cont| == n * CONT_WIDTH && |tags| == n * TAG_WIDTH
  {
    if n == 0 then []
    else
      var m := n - 1;
      FlatOutput(s, cat[..m * CAT_WIDTH], cont[..m * CONT_WIDTH], tags[..m * TAG_WIDTH], m)
        + s.row(Tensors(cat[m * CAT_WIDTH..], cont[m * CONT_WIDTH..], tags[m * TAG_WIDTH..]))
  }

  lemma {:induction false} FlatOutputLength(s: Session, cat: seq<int>, cont: seq<real>, tags: seq<int>, n: nat)
    requires IsRowWise(s)
    requires |cat| == n * CAT_WIDTH && |cont| == n * CONT_WIDTH && |tags| == n * TAG_WIDTH
    ensures |FlatOutput(s, cat, cont, tags, n)| == n * s.width
  {
    if n > 0 {
      var m := n - 1;
      FlatOutputLength(s, cat[..m * CAT_WIDTH], cont[..m * CONT_WIDTH], tags[..m * TAG_WIDTH], m);
    }
  }

  class ModelSession {
    const numBins: nat
    var session: Session

    ghost predicate Valid()
      reads this
    {
      session.width == numBins && IsRowWise(session)
    }

    /** Any first model is taken. It is fit to serve exactly if it is row-wise and its declared output shape told, or
        the default happens to be, the width of its rows. */
    constructor (initial: Session, shape: seq<int>)
      ensures session == initial && numBins == AdoptedBins(shape)
      ensures |shape| == 2 && shape[1] > 0 ==> numBins == shape[1]
      ensures |shape| != 2 || shape[1] <= 0 ==> numBins == 200
      ensures Valid() <==> IsRowWise(initial) && initial.width == numBins
    {
      var bins := DEFAULT_BINS;
      if |shape| == 2 && shape[1] > 0 {
        bins := shape[1];
      }
      numBins := bins;
      session := initial;
    }

    /** Validate, then swap. A candidate is rejected, and the serving session left alone, if it does not load, if it
        throws on zeros, if its output has the wrong rank or width, or if a NaN or an infinity is in it. */
    method Reload(c: Candidate) returns (ok: bool)
      requires Valid() && (c.Fresh? ==> IsRowWise(c.session))
      modifies this
      ensures Valid()
      ensures c == Unloadable ==> !ok
      ensures c == ThrowsOnZeros ==> !ok
      ensures c.Fresh? && c.rank != 2 ==> !ok
      ensures c.Fresh? && c.session.width != numBins ==> !ok
      ensures c.Fresh? && !c.finiteOnZeros ==> !ok
      ensures c.Fresh? && c.rank == 2 && c.session.width == numBins && c.finiteOnZeros ==> ok
      ensures session == if ok then c.session else old(session)
    {
      match c {
        case Unloadable => return false;
        case ThrowsOnZeros => return false;
        case Fresh(loaded, rank, finite) =>
          if rank != 2 || loaded.width != numBins {
            return false;
          }
          if !finite {
            return false;
          }
          session := loaded;
          return true;
      }
    }

    /** One run of the current session over a flat batch, copied out bin by bin. */
    method Run(cat: array<int>, cont: array<real>, tags: array<int>, batch: nat) returns (outProbs: array<real>)
      requires Valid()
      requires cat.Length == batch * CAT_WIDTH && cont.Length == batch * CONT_WIDTH && tags.Length == batch * TAG_WIDTH
      ensures fresh(outProbs)
      ensures outProbs[..] == FlatOutput(session, cat[..], cont[..], tags[..], batch)
      ensures outProbs.Length == batch * numBins
    {
      hide FlatOutput;
      var sess := session;
      var p := FlatOutput(sess, cat[..], cont[..], tags[..], batch);
      FlatOutputLength(sess, cat[..], cont[..], tags[..], batch);
      outProbs := new real[batch * numBins];
      for i := 0 to outProbs.Length
        invariant outProbs[..i] == p[..i]
      {
        outProbs[i] := p[i];
      }
    }
  }
}
