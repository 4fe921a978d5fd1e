/**
 * An array that may be modified while it is being iterated. Additions and
 * removals are queued; `forEach` first folds the queues into the array and
 * then visits its elements, skipping any element queued for removal, even
 * one queued by an earlier callback of the same pass. Removals queued during
 * the pass are applied once the pass is over; additions queued during the
 * pass wait for the next one.
 *
 * The callback is an oracle: for each element it visits it reports the
 * elements it queued for addition and for removal on this same array.
 */
module SafeArrays {
  import JsArray

  /** What one callback invocation queued on the array it is iterating. */
  datatype Effect<T> = Effect(adds: seq<T>, removes: set<T>)

  /** What a pass over a list produced: the callback's arguments, in order, and the queues. */
  datatype PassResult<T> = PassResult(visited: seq<T>, added: seq<T>, removeQueue: set<T>)

  /**
   * The iteration loop of `forEach` over `xs`, starting from the removal
   * queue `rq`: elements in the queue are skipped, the others are passed to
   * `fn`, whose queued additions and removals accumulate.
   */
  function Pass<T>(xs: seq<T>, rq: set<T>, fn: T -> Effect<T>): (r: PassResult<T>)
    ensures |r.visited| <= |xs|
    ensures forall k :: 0 <= k < |r.visited| ==> r.visited[k] in xs
    decreases |xs|
  {
    if xs == [] then PassResult([], [], rq)
    else if xs[0] in rq then Pass(xs[1..], rq, fn)
    else
      var e := fn(xs[0]);
      var rest := Pass(xs[1..], rq + e.removes, fn);
      PassResult([xs[0]] + rest.visited, e.adds + rest.added, rest.removeQueue)
  }

  /** Nothing already queued for removal is visited, and the removal queue only grows. */
  lemma {:induction false} PassSkipsQueued<T>(xs: seq<T>, rq: set<T>, fn: T -> Effect<T>)
    ensures forall k :: 0 <= k < |Pass(xs, rq, fn).visited| ==> Pass(xs, rq, fn).visited[k] !in rq
    ensures rq <= Pass(xs, rq, fn).removeQueue
    decreases |xs|
  {
    if xs != [] {
      if xs[0] in rq {
        PassSkipsQueued(xs[1..], rq, fn);
      } else {
        PassSkipsQueued(xs[1..], rq + fn(xs[0]).removes, fn);
      }
    }
  }

  /** No element of `v` is queued for removal by the callback of an earlier one. */
  predicate RemovalsHonoured<T>(v: seq<T>, fn: T -> Effect<T>) {
    forall j, k :: 0 <= j < k < |v| ==> v[k] !in fn(v[j]).removes
  }

  /**
   * An element queued for removal by a callback is never passed to a later
   * callback of the same pass.
   */
  lemma {:induction false} PassHonoursEarlierRemovals<T>(xs: seq<T>, rq: set<T>, fn: T -> Effect<T>)
    ensures RemovalsHonoured(Pass(xs, rq, fn).visited, fn)
    decreases |xs|
  {
    if xs != [] {
      if xs[0] in rq {
        PassHonoursEarlierRemovals(xs[1..], rq, fn);
        assert Pass(xs, rq, fn) == Pass(xs[1..], rq, fn);
      } else {
        var rq' := rq + fn(xs[0]).removes;
        PassHonoursEarlierRemovals(xs[1..], rq', fn);
        PassSkipsQueued(xs[1..], rq', fn);
        var v := Pass(xs, rq, fn).visited;
        var tail := Pass(xs[1..], rq', fn).visited;
        assert v == [xs[0]] + tail;
        forall j, k | 0 <= j < k < |v| ensures v[k] !in fn(v[j]).removes {
          assert v[k] == tail[k - 1];
          if j > 0 {
            assert v[j] == tail[j - 1];
          }
        }
      }
    }
  }

  /** Every element passed to the callback comes from the list being iterated. */
  lemma {:induction false} PassVisitsFromList<T>(xs: seq<T>, rq: set<T>, fn: T -> Effect<T>)
    ensures forall k :: 0 <= k < |Pass(xs, rq, fn).visited| ==> Pass(xs, rq, fn).visited[k] in xs
    decreases |xs|
  {
    if xs != [] {
      var rq' := if xs[0] in rq then rq else rq + fn(xs[0]).removes;
      PassVisitsFromList(xs[1..], rq', fn);
      assert forall y :: y in xs[1..] ==> y in xs;
    }
  }

  /** With callbacks that queue nothing, a pass visits exactly the elements outside the queue. */
  lemma {:induction false} QuietPassVisitsLive<T>(xs: seq<T>, rq: set<T>, fn: T -> Effect<T>)
    requires forall i :: 0 <= i < |xs| ==> fn(xs[i]) == Effect([], {})
    ensures Pass(xs, rq, fn) == PassResult(JsArray.Without(xs, rq), [], rq)
    decreases |xs|
  {
    if xs != [] {
      assert forall i :: 1 <= i < |xs| ==> xs[1..][i - 1] == xs[i];
      QuietPassVisitsLive(xs[1..], rq, fn);
      if xs[0] !in rq {
        assert rq + fn(xs[0]).removes == rq;
      }
    }
  }

  class SafeArray<T(==)> {
    /** The live elements (the `array` field). */
    var items: seq<T>
    var addQueue: seq<T>
    var removeQueue: set<T>

    constructor()
      ensures items == [] && addQueue == [] && removeQueue == {}
    {
      items := [];
      addQueue := [];
      removeQueue := {};
    }

    /**
     * The `isEmpty` getter. Despite its name and documentation it answers
     * whether there is at least one element, live or queued for addition.
     */
    function IsEmpty(): (r: bool)
      reads this
      ensures r <==> items != [] || addQueue != []
    {
      |addQueue| + |items| > 0
    }

    /** Queues an element for addition; the live elements are untouched. */
    method Add(element: T)
      modifies this`addQueue
      ensures addQueue == old(addQueue) + [element]
      ensures IsEmpty()
    {
      addQueue := addQueue + [element];
    }

    /** Queues an element for removal; the live elements are untouched. */
    method Remove(element: T)
      modifies this`removeQueue
      ensures removeQueue == old(removeQueue) + {element}
    {
      removeQueue := removeQueue + {element};
    }

    /** `_addQueued`: appends the queued additions, in order, after the live elements. */
    method AddQueued()
      modifies this`items, this`addQueue
      ensures items == old(items) + old(addQueue) && addQueue == []
    {
      if |addQueue| > 0 {
        items := items + addQueue;
        addQueue := [];
      }
    }

    /** `_removeQueued`: drops every occurrence of every queued element and clears the queue. */
    method RemoveQueued()
      modifies this`items, this`removeQueue
      ensures items == JsArray.Without(old(items), old(removeQueue)) && removeQueue == {}
      ensures forall i :: 0 <= i < |items| ==> items[i] !in old(removeQueue)
    {
      if removeQueue != {} {
        items := JsArray.Without(items, removeQueue);
        removeQueue := {};
      }
    }

    /**
     * `forEach(fn)`: returns the elements passed to `fn`, in call order.
     * The new state is that of the specification pass over the live elements as the
     * queues left it.
     */
    method ForEach(fn: T -> Effect<T>) returns (visited: seq<T>)
      modifies this
      ensures var start := JsArray.Without(old(items) + old(addQueue), old(removeQueue));
              var p := Pass(start, {}, fn);
              && visited == p.visited
              && addQueue == p.added
              && items == JsArray.Without(start, p.removeQueue)
              && removeQueue == {}
    {
      AddQueued();
      RemoveQueued();
      visited := IterateLive(fn);
      RemoveQueued();
    }

    /**
     * The loop of `forEach`: each live element not yet queued for removal is
     * passed to `fn`, whose additions and removals are queued as it runs.
     */
    method IterateLive(fn: T -> Effect<T>) returns (visited: seq<T>)
      modifies this`addQueue, this`removeQueue
      ensures var p := Pass(items, old(removeQueue), fn);
              && visited == p.visited
              && addQueue == old(addQueue) + p.added
              && removeQueue == p.removeQueue
    {
      ghost var whole := Pass(items, removeQueue, fn);
      ghost var added0 := addQueue;
      visited := [];
      var i := 0;
      while i < |items|
        invariant 0 <= i <= |items|
        invariant var p := Pass(items[i..], removeQueue, fn);
                  && visited + p.visited == whole.visited
                  && addQueue + p.added == added0 + whole.added
                  && p.removeQueue == whole.removeQueue
        decreases |items| - i
      {
        var element := items[i];
        assert items[i..][1..] == items[i + 1..];
        ghost var p := Pass(items[i..], removeQueue, fn);
        if element !in removeQueue {
          var e := fn(element);
          ghost var q := Pass(items[i + 1..], removeQueue + e.removes, fn);
          assert p == PassResult([element] + q.visited, e.adds + q.added, q.removeQueue);
          visited := visited + [element];
          addQueue := addQueue + e.adds;
          removeQueue := removeQueue + e.removes;
        } else {
          assert p == Pass(items[i + 1..], removeQueue, fn);
        }
        i := i + 1;
      }
      assert items[i..] == [];
    }
  }
}
