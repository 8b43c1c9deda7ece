/** An asynchronous mutex that is handed on in the order of waiting: releasing it gives it to the first
    waiter, so that nobody who only tries can slip in between. */
module FairGates {
  import opened Prelude

  /** `holder` has the lock or has been given it and will notice; `queue` waits behind it. */
  datatype Gate<+H> = Gate(holder: Option<H>, queue: seq<H>)

  /** Where a task stands with a gate. */
  datatype Standing = Outside | Waiting | Inside

  /** The first waiter gets the lock. */
  function Pass<H>(g: Gate<H>): Gate<H> {
    if g.queue == [] then Gate(None, []) else Gate(Some(g.queue[0]), g.queue[1..])
  }

  function Without<H(==)>(queue: seq<H>, h: H): seq<H> {
    if queue == [] then [] else (if queue[0] == h then [] else [queue[0]]) + Without(queue[1..], h)
  }

  /** Task `h` moves from one standing to another. */
  function Moved<H(==)>(g: Gate<H>, h: H, before: Standing, after: Standing): Gate<H> {
    if before == after then g
    else match after
      case Inside => if before.Outside? then g.(holder := Some(h)) else g
      case Waiting => g.(queue := g.queue + [h])
      case Outside => if g.holder == Some(h) then Pass(g) else g.(queue := Without(g.queue, h))
  }

  /** What a move needs: a free gate to enter at once, a taken one to wait, one's turn to go in. */
  predicate Allowed<H(==)>(g: Gate<H>, h: H, before: Standing, after: Standing) {
    && (before.Outside? && after.Inside? ==> g.holder.None?)
    && (before.Outside? && after.Waiting? ==> g.holder.Some?)
    && (before.Waiting? && after.Inside? ==> g.holder == Some(h))
    && !(before.Inside? && after.Waiting?)
  }

  predicate At<H(==)>(g: Gate<H>, h: H) {
    g.holder == Some(h) || h in g.queue
  }

  ghost predicate Orderly<H>(g: Gate<H>) {
    && (g.queue != [] ==> g.holder.Some?)
    && (forall i, j | 0 <= i < j < |g.queue| :: g.queue[i] != g.queue[j])
    && (g.holder.Some? ==> g.holder.value !in g.queue)
  }

  /** Who leaves hands the lock to the longest waiter, and who comes waits behind everybody. */
  lemma FirstComeFirstServed<H>(g: Gate<H>, h: H)
    ensures g.holder == Some(h) && g.queue != [] ==>
      Moved(g, h, Inside, Outside) == Gate(Some(g.queue[0]), g.queue[1..])
    ensures g.holder == Some(h) && g.queue == [] ==> Moved(g, h, Inside, Outside) == Gate(None, [])
    ensures Moved(g, h, Outside, Waiting) == Gate(g.holder, g.queue + [h])
    ensures Moved(g, h, Outside, Inside) == Gate(Some(h), g.queue)
    ensures Moved(g, h, Waiting, Inside) == g
  {}

  lemma {:induction false} WithoutKeepsOthers<H>(queue: seq<H>, h: H, x: H)
    ensures x in Without(queue, h) <==> x in queue && x != h
  {
    if queue != [] {
      WithoutKeepsOthers(queue[1..], h, x);
      assert queue == [queue[0]] + queue[1..];
    }
  }

  lemma {:induction false} WithoutStaysDistinct<H>(queue: seq<H>, h: H)
    requires forall i, j | 0 <= i < j < |queue| :: queue[i] != queue[j]
    ensures var rest := Without(queue, h); forall i, j | 0 <= i < j < |rest| :: rest[i] != rest[j]
  {
    if queue != [] {
      WithoutStaysDistinct(queue[1..], h);
      WithoutKeepsOthers(queue[1..], h, queue[0]);
      assert queue[0] !in queue[1..];
    }
  }

  /** A move concerns only the one who moves, and leaves an orderly gate orderly. */
  lemma MoveIsOrderly<H>(g: Gate<H>, h: H, before: Standing, after: Standing, x: H)
    requires Orderly(g) && Allowed(g, h, before, after) && (At(g, h) <==> !before.Outside?)
    ensures
      var t := Moved(g, h, before, after);
      Orderly(t) && (At(t, h) <==> !after.Outside?) && (x != h ==> (At(t, x) <==> At(g, x)))
  {
    WithoutStaysDistinct(g.queue, h);
    WithoutKeepsOthers(g.queue, h, x);
    WithoutKeepsOthers(g.queue, h, h);
    if g.holder.Some? {
      WithoutKeepsOthers(g.queue, h, g.holder.value);
    }
    if g.queue != [] {
      assert g.queue == [g.queue[0]] + g.queue[1..];
      assert x in g.queue <==> x == g.queue[0] || x in g.queue[1..];
      assert h in g.queue <==> h == g.queue[0] || h in g.queue[1..];
    }
    hide Without;
  }
}
