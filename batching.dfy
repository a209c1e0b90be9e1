/**
 * The batch loop both content pipelines share: while the queue has items
 * and fewer than `limit` are saved, the next `concurrency` items are taken
 * off the front of the queue and handed to the per-item worker
 * (`Promise.all(batch.map(...))`, here run item after item), and the
 * results of the batch, each 0 or 1, are added to `saved`.
 */
module Batching {
  import opened Backend

  /** The per-item work of a batch: 1 when the item was saved, 0 when it failed; and the world after it. */
  type Worker<!T> = (World, T) -> (int, World)

  /** `Math.max(1, Number(concurrency) || 1)`: a count of 0 or less falls back to 1. */
  function Concurrency(n: int): (c: int)
    ensures c >= 1 && (n >= 1 ==> c == n)
  {
    Max(1, n)
  }

  /** One batch, item after item: how many of its items were saved. */
  function BatchFrom<T>(w: World, process: Worker<T>, batch: seq<T>): (int, World)
    decreases |batch|
  {
    if batch == [] then (0, w)
    else
      var first := process(w, batch[0]);
      var rest := BatchFrom(first.1, process, batch[1..]);
      (first.0 + rest.0, rest.1)
  }

  /** A count added to the count of a result. */
  function Plus(n: int, r: (int, World)): (int, World) {
    (n + r.0, r.1)
  }

  /** The batch loop over `queue`, entered with `saved` saved: the count saved at its end. */
  function Batches<T>(w: World, process: Worker<T>, concurrency: int, limit: int, queue: seq<T>, saved: int): (int, World)
    decreases |queue|
  {
    if queue != [] && saved < limit then
      var n := Min(Concurrency(concurrency), |queue|);
      var batch := BatchFrom(w, process, queue[..n]);
      Batches(batch.1, process, concurrency, limit, queue[n..], saved + batch.0)
    else (saved, w)
  }

  /** One turn of the batch loop: the first batch, then the loop on the rest of the queue. */
  lemma BatchesStep<T>(w: World, process: Worker<T>, concurrency: int, limit: int, queue: seq<T>, saved: int, n: int)
    requires queue != [] && saved < limit && n == Min(Concurrency(concurrency), |queue|)
    ensures var batch := BatchFrom(w, process, queue[..n]);
      Batches(w, process, concurrency, limit, queue, saved)
        == Batches(batch.1, process, concurrency, limit, queue[n..], saved + batch.0)
  {
  }

  /** A loop over a batch at item `i` with `done` summed, in `w`, that ends as the batch from `w0` does. */
  predicate SameSum<T>(w0: World, process: Worker<T>, batch: seq<T>, i: int, done: int, w: World)
    requires 0 <= i <= |batch|
  {
    Plus(done, BatchFrom(w, process, batch[i..])) == BatchFrom(w0, process, batch)
  }

  /** A loop over a batch that has run the worker on its first `i` items, and adds the result of item `i`, has run it on `i + 1`. */
  lemma BatchLoopStep<T>(w0: World, process: Worker<T>, batch: seq<T>, i: int, done: int, w: World, k: int, w': World)
    requires 0 <= i < |batch|
    requires SameSum(w0, process, batch, i, done, w)
    requires (k, w') == process(w, batch[i])
    ensures SameSum(w0, process, batch, i + 1, done + k, w')
  {
    assert batch[i..][1..] == batch[i + 1..];
  }

  /** A batch loop at `queue` with `saved` saved, in `w`, that ends as the loop from `queue0` with `saved0` in `w0` does. */
  predicate SameEnd<T>(w0: World, process: Worker<T>, concurrency: int, limit: int, queue0: seq<T>, saved0: int,
                       w: World, queue: seq<T>, saved: int)
  {
    Batches(w, process, concurrency, limit, queue, saved) == Batches(w0, process, concurrency, limit, queue0, saved0)
  }

  /** A batch loop that has reached `queue` with `saved` saved, and runs its next batch, reaches the rest of the queue. */
  lemma BatchesLoopStep<T>(w0: World, process: Worker<T>, concurrency: int, limit: int, queue0: seq<T>, saved0: int,
                           w: World, queue: seq<T>, saved: int, n: int, done: int, w': World)
    requires queue != [] && saved < limit && n == Min(Concurrency(concurrency), |queue|)
    requires SameEnd(w0, process, concurrency, limit, queue0, saved0, w, queue, saved)
    requires (done, w') == BatchFrom(w, process, queue[..n])
    ensures SameEnd(w0, process, concurrency, limit, queue0, saved0, w', queue[n..], saved + done)
  {
  }

  /** One item of a batch: the item, then the rest of the batch. */
  lemma BatchFromStep<T>(w: World, process: Worker<T>, batch: seq<T>, i: int)
    requires 0 <= i < |batch|
    ensures var first := process(w, batch[i]);
      var rest := BatchFrom(first.1, process, batch[i + 1..]);
      BatchFrom(w, process, batch[i..]) == (first.0 + rest.0, rest.1)
  {
    assert batch[i..][1..] == batch[i + 1..];
  }

  /** A worker that reports each item as saved or not. */
  ghost predicate Counts<T(!new)>(process: Worker<T>) {
    forall w, x :: 0 <= process(w, x).0 <= 1
  }

  /** A worker that never adds to the script of replies. */
  ghost predicate Shrinks<T(!new)>(process: Worker<T>) {
    forall w, x :: |process(w, x).1.script| <= |w.script|
  }

  lemma {:induction false} BatchFromShrinks<T(!new)>(w: World, process: Worker<T>, batch: seq<T>)
    requires Shrinks(process)
    ensures |BatchFrom(w, process, batch).1.script| <= |w.script|
    decreases |batch|
  {
    if batch != [] {
      BatchFromShrinks(process(w, batch[0]).1, process, batch[1..]);
    }
  }

  lemma {:induction false} BatchesShrinks<T(!new)>(w: World, process: Worker<T>, concurrency: int, limit: int, queue: seq<T>, saved: int)
    requires Shrinks(process)
    ensures |Batches(w, process, concurrency, limit, queue, saved).1.script| <= |w.script|
    decreases |queue|
  {
    if queue != [] && saved < limit {
      var n := Min(Concurrency(concurrency), |queue|);
      var batch := BatchFrom(w, process, queue[..n]);
      BatchFromShrinks(w, process, queue[..n]);
      BatchesShrinks(batch.1, process, concurrency, limit, queue[n..], saved + batch.0);
    }
  }

  lemma {:induction false} BatchFromCount<T(!new)>(w: World, process: Worker<T>, batch: seq<T>)
    requires Counts(process)
    ensures 0 <= BatchFrom(w, process, batch).0 <= |batch|
    decreases |batch|
  {
    if batch != [] {
      BatchFromCount(process(w, batch[0]).1, process, batch[1..]);
    }
  }

  /** Running two batches one after the other is running their concatenation. */
  lemma {:induction false} BatchFromAppend<T>(w: World, process: Worker<T>, a: seq<T>, b: seq<T>)
    ensures var ra := BatchFrom(w, process, a);
      var rb := BatchFrom(ra.1, process, b);
      BatchFrom(w, process, a + b) == (ra.0 + rb.0, rb.1)
    decreases |a|
  {
    if a == [] {
      assert a + b == b;
    } else {
      assert (a + b)[0] == a[0];
      assert (a + b)[1..] == a[1..] + b;
      BatchFromAppend(process(w, a[0]).1, process, a[1..], b);
    }
  }

  /** How many items of the queue the batch loop hands to the worker. */
  function Taken<T>(w: World, process: Worker<T>, concurrency: int, limit: int, queue: seq<T>, saved: int): (n: nat)
    ensures n <= |queue|
    decreases |queue|
  {
    if queue != [] && saved < limit then
      var n := Min(Concurrency(concurrency), |queue|);
      var batch := BatchFrom(w, process, queue[..n]);
      n + Taken(batch.1, process, concurrency, limit, queue[n..], saved + batch.0)
    else 0
  }

  /**
   * The batch loop runs the worker on a prefix of the queue, in order, as
   * one batch would: on all of it, or on the first `Taken` items when the
   * count reached `limit` there.
   */
  lemma {:induction false} BatchesPrefix<T(!new)>(w: World, process: Worker<T>, concurrency: int, limit: int, queue: seq<T>, saved: int)
    requires Counts(process)
    ensures var n := Taken(w, process, concurrency, limit, queue, saved);
      var r := BatchFrom(w, process, queue[..n]);
      Batches(w, process, concurrency, limit, queue, saved) == (saved + r.0, r.1)
    decreases |queue|
  {
    if queue != [] && saved < limit {
      var k := Min(Concurrency(concurrency), |queue|);
      var batch := BatchFrom(w, process, queue[..k]);
      BatchesPrefix(batch.1, process, concurrency, limit, queue[k..], saved + batch.0);
      var m := Taken(batch.1, process, concurrency, limit, queue[k..], saved + batch.0);
      assert queue[..k + m] == queue[..k] + queue[k..][..m];
      assert Taken(w, process, concurrency, limit, queue, saved) == k + m;
      assert Batches(w, process, concurrency, limit, queue, saved)
        == Batches(batch.1, process, concurrency, limit, queue[k..], saved + batch.0);
      BatchFromAppend(w, process, queue[..k], queue[k..][..m]);
    } else {
      assert queue[..0] == [];
    }
  }

  /**
   * The batch loop stops early only once the count reached `limit`; a loop
   * entered below the limit ends below `limit + concurrency`, since its last
   * batch started below the limit.
   */
  lemma {:induction false} BatchesEnd<T(!new)>(w: World, process: Worker<T>, concurrency: int, limit: int, queue: seq<T>, saved: int)
    requires Counts(process)
    ensures Taken(w, process, concurrency, limit, queue, saved) == |queue|
         || Batches(w, process, concurrency, limit, queue, saved).0 >= limit
    ensures saved < limit ==> Batches(w, process, concurrency, limit, queue, saved).0 < limit + Concurrency(concurrency)
    decreases |queue|
  {
    if queue != [] && saved < limit {
      var k := Min(Concurrency(concurrency), |queue|);
      var batch := BatchFrom(w, process, queue[..k]);
      BatchFromCount(w, process, queue[..k]);
      BatchesEnd(batch.1, process, concurrency, limit, queue[k..], saved + batch.0);
      assert Batches(w, process, concurrency, limit, queue, saved)
        == Batches(batch.1, process, concurrency, limit, queue[k..], saved + batch.0);
    }
  }

  /** A queue that fits in the room left under the limit is run whole: batching changes nothing. */
  lemma BatchesWhole<T(!new)>(w: World, process: Worker<T>, concurrency: int, limit: int, queue: seq<T>, saved: int)
    requires Counts(process) && saved + |queue| <= limit
    ensures var r := BatchFrom(w, process, queue);
      Batches(w, process, concurrency, limit, queue, saved) == (saved + r.0, r.1)
  {
    BatchesPrefix(w, process, concurrency, limit, queue, saved);
    BatchesEnd(w, process, concurrency, limit, queue, saved);
    var n := Taken(w, process, concurrency, limit, queue, saved);
    BatchFromCount(w, process, queue[..n]);
    assert queue[..|queue|] == queue;
  }
}
