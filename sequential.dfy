/** The batch rule both handlers' `for` loops follow, as a reference
    definition: attempt the queries one at a time in submission order, append
    one record per attempt, and stop after the first record whose `isFailed`
    is set.  `build(i, q)` is the record the handler builds for the attempt of
    query `q` at position `i`. */
module Sequential {
  import opened Telemetry

  /** The records produced by the queries from position `i` on. */
  function Run(qs: seq<Query>, build: (nat, Query) -> Record, i: nat): (rs: seq<Record>)
    ensures rs == [] || i + |rs| <= |qs|
    decreases |qs| - i
  {
    if i >= |qs| then []
    else
      var r := build(i, qs[i]);
      if r.isFailed then [r] else [r] + Run(qs, build, i + 1)
  }

  /** Record `j` of the run from `i` is the record of query `i + j`: the
      records are those of a prefix of the queries, in submission order. */
  lemma {:induction false} RunIsPrefix(qs: seq<Query>, build: (nat, Query) -> Record, i: nat)
    ensures forall j :: 0 <= j < |Run(qs, build, i)| ==>
      i + j < |qs| && Run(qs, build, i)[j] == build(i + j, qs[i + j])
    decreases |qs| - i
  {
    if i < |qs| {
      var r := build(i, qs[i]);
      if r.isFailed {
        assert Run(qs, build, i) == [r];
      } else {
        RunIsPrefix(qs, build, i + 1);
        var rs, tail := Run(qs, build, i), Run(qs, build, i + 1);
        assert rs == [r] + tail;
        forall j | 0 <= j < |rs| ensures i + j < |qs| && rs[j] == build(i + j, qs[i + j]) {
          if j > 0 { assert rs[j] == tail[j - 1]; }
        }
      }
    } else {
      assert Run(qs, build, i) == [];
    }
  }

  /** One turn of the loop: with `done` the records of the queries before
      `i`, appending the record of query `i` gives either the whole run (the
      record is failed and the loop breaks) or the records before `i + 1`. */
  lemma RunStep(qs: seq<Query>, build: (nat, Query) -> Record, i: nat, done: seq<Record>)
    requires i < |qs|
    requires done + Run(qs, build, i) == Run(qs, build, 0)
    ensures build(i, qs[i]).isFailed ==> done + [build(i, qs[i])] == Run(qs, build, 0)
    ensures !build(i, qs[i]).isFailed ==>
      (done + [build(i, qs[i])]) + Run(qs, build, i + 1) == Run(qs, build, 0)
  {
  }

  /** Every record but the last is a success, and the batch ends early only
      on a failed record. */
  lemma {:induction false} RunFailsOnlyAtEnd(qs: seq<Query>, build: (nat, Query) -> Record, i: nat)
    ensures var rs := Run(qs, build, i);
      (forall j :: 0 <= j < |rs| - 1 ==> !rs[j].isFailed) &&
      (i < |qs| && |rs| < |qs| - i ==> rs != [] && rs[|rs| - 1].isFailed)
    decreases |qs| - i
  {
    if i < |qs| && !build(i, qs[i]).isFailed {
      RunFailsOnlyAtEnd(qs, build, i + 1);
      var rs, tail := Run(qs, build, i), Run(qs, build, i + 1);
      assert rs == [build(i, qs[i])] + tail;
      forall j | 0 <= j < |rs| - 1 ensures !rs[j].isFailed {
        if j > 0 {
          assert rs[j] == tail[j - 1];
        }
      }
    }
  }

  /** If the query at position `k` is the first one from `i` on whose record
      is failed, exactly the queries `i` to `k` are attempted and only the
      last record is failed. */
  lemma {:induction false} RunStopsAtFirstFailure(qs: seq<Query>, build: (nat, Query) -> Record, i: nat, k: nat)
    requires i <= k < |qs|
    requires build(k, qs[k]).isFailed
    requires forall j :: i <= j < k ==> !build(j, qs[j]).isFailed
    ensures var rs := Run(qs, build, i);
      |rs| == k - i + 1 && rs[k - i].isFailed && forall j :: 0 <= j < k - i ==> !rs[j].isFailed
    decreases k - i
  {
    if i < k {
      RunStopsAtFirstFailure(qs, build, i + 1, k);
      var rs, tail := Run(qs, build, i), Run(qs, build, i + 1);
      assert rs == [build(i, qs[i])] + tail;
      forall j | 0 <= j < k - i ensures !rs[j].isFailed {
        if j > 0 { assert rs[j] == tail[j - 1]; }
      }
    }
  }

  /** Without a failed record every query from `i` on is attempted. */
  lemma {:induction false} RunWithoutFailure(qs: seq<Query>, build: (nat, Query) -> Record, i: nat)
    requires i <= |qs|
    requires forall j :: i <= j < |qs| ==> !build(j, qs[j]).isFailed
    ensures |Run(qs, build, i)| == |qs| - i
    decreases |qs| - i
  {
    if i < |qs| {
      RunWithoutFailure(qs, build, i + 1);
    }
  }

  /** The driver calls made for a list of queries, one per query, in order. */
  function CallsFor(qs: seq<Query>): (cs: seq<DriverCall>)
    ensures |cs| == |qs|
  {
    if qs == [] then [] else CallsFor(qs[..|qs| - 1]) + [CallFor(qs[|qs| - 1])]
  }

  /** Call `j` of `CallsFor(qs)` is the call for query `j`. */
  lemma {:induction false} CallsForAt(qs: seq<Query>, j: nat)
    requires j < |qs|
    ensures CallsFor(qs)[j] == CallFor(qs[j])
    decreases |qs|
  {
    if j < |qs| - 1 {
      CallsForAt(qs[..|qs| - 1], j);
    }
  }

  /** Extending the attempted prefix by one query adds its call at the end. */
  lemma CallsForExtend(qs: seq<Query>, i: nat)
    requires i < |qs|
    ensures CallsFor(qs[..i + 1]) == CallsFor(qs[..i]) + [CallFor(qs[i])]
  {
    assert qs[..i + 1][..i] == qs[..i];
  }
}
