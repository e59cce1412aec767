/** The synchronous FIFO: a ring of registers that must behave as a bounded queue with a registered output. */
module Fifo {

  // ---------------------------------------------------------------- the bounded queue

  /** The waiting words, oldest first, and the output register. */
  datatype Queue<T> = Queue(items: seq<T>, out: T)

  /** Both requests are judged on the state before the edge: a full queue takes nothing, even if it is read. */
  predicate Takes<T>(depth: nat, q: Queue<T>, put: bool) { put && |q.items| < depth }

  predicate Gives<T>(q: Queue<T>, get: bool) { get && |q.items| > 0 }

  function Clocked<T>(depth: nat, q: Queue<T>, put: bool, x: T, get: bool): Queue<T> {
    var kept := if Gives(q, get) then q.items[1..] else q.items;
    Queue(if Takes(depth, q, put) then kept + [x] else kept, if Gives(q, get) then q.items[0] else q.out)
  }

  function Edge<T>(depth: nat, zero: T, q: Queue<T>, reset: bool, put: bool, x: T, get: bool): Queue<T> {
    if reset then Queue([], zero) else Clocked(depth, q, put, x, get)
  }

  // ---------------------------------------------------------------- runs of the queue

  datatype Tick<T> = Tick(put: bool, x: T, get: bool)

  function Run<T>(depth: nat, q: Queue<T>, ticks: seq<Tick<T>>): Queue<T> {
    if ticks == [] then q
    else
      var last := ticks[|ticks| - 1];
      Clocked(depth, Run(depth, q, ticks[..|ticks| - 1]), last.put, last.x, last.get)
  }

  /** The words taken in and given out, in order. */
  function Accepted<T>(depth: nat, q: Queue<T>, ticks: seq<Tick<T>>): seq<T> {
    if ticks == [] then []
    else
      var last := ticks[|ticks| - 1];
      var before := ticks[..|ticks| - 1];
      Accepted(depth, q, before) + if Takes(depth, Run(depth, q, before), last.put) then [last.x] else []
  }

  function Delivered<T>(depth: nat, q: Queue<T>, ticks: seq<Tick<T>>): seq<T> {
    if ticks == [] then []
    else
      var last := ticks[|ticks| - 1];
      var before := ticks[..|ticks| - 1];
      var r := Run(depth, q, before);
      Delivered(depth, q, before) + if Gives(r, last.get) then [r.items[0]] else []
  }

  /**
   * For every sequence of puts and gets: nothing is lost, repeated or reordered, the queue never exceeds its
   * depth, and the output register holds the last word given out.
   */
  lemma {:induction false} RunConserves<T>(depth: nat, q: Queue<T>, ticks: seq<Tick<T>>)
    requires |q.items| <= depth
    ensures q.items + Accepted(depth, q, ticks) == Delivered(depth, q, ticks) + Run(depth, q, ticks).items
    ensures |Run(depth, q, ticks).items| <= depth
    ensures Run(depth, q, ticks).out ==
            if Delivered(depth, q, ticks) == [] then q.out else Delivered(depth, q, ticks)[|Delivered(depth, q, ticks)| - 1]
  {
    if ticks != [] {
      var before := ticks[..|ticks| - 1];
      var last := ticks[|ticks| - 1];
      var r := Run(depth, q, before);
      RunConserves(depth, q, before);
      var taken := if Takes(depth, r, last.put) then [last.x] else [];
      var given := if Gives(r, last.get) then [r.items[0]] else [];
      assert q.items + (Accepted(depth, q, before) + taken) == (q.items + Accepted(depth, q, before)) + taken;
      assert Delivered(depth, q, before) + r.items + taken == Delivered(depth, q, before) + given + Run(depth, q, ticks).items;
    }
  }

  // ---------------------------------------------------------------- the ring

  function Power(log2: nat): (n: nat)
    ensures n > 0
  {
    if log2 == 0 then 1 else 2 * Power(log2 - 1)
  }

  /** A pointer that runs over the end of the ring starts again at its beginning. */
  function Wrap(i: nat, depth: nat): (r: nat)
    requires i < 2 * depth
    ensures r < depth
  {
    if i < depth then i else i - depth
  }

  /** The words in `count` consecutive slots of a ring, from slot `first` on. */
  function Slots<T>(ring: seq<T>, first: nat, count: nat): (s: seq<T>)
    requires first < |ring| && count <= |ring|
    ensures |s| == count
    ensures forall k :: 0 <= k < count ==> s[k] == ring[Wrap(first + k, |ring|)]
  {
    seq(count, k requires 0 <= k < count => ring[Wrap(first + k, |ring|)])
  }

  lemma DropFirst<T>(ring: seq<T>, first: nat, count: nat)
    requires first < |ring| && 0 < count <= |ring|
    ensures Slots(ring, first, count)[0] == ring[first]
    ensures Slots(ring, Wrap(first + 1, |ring|), count - 1) == Slots(ring, first, count)[1..]
  {
    forall k | 1 <= k < count
      ensures Slots(ring, first, count)[k] == Slots(ring, Wrap(first + 1, |ring|), count - 1)[k - 1]
    {
    }
  }

  lemma AddLast<T>(ring: seq<T>, first: nat, count: nat, x: T)
    requires first < |ring| && count < |ring|
    ensures Slots(ring[Wrap(first + count, |ring|) := x], first, count + 1) == Slots(ring, first, count) + [x]
  {
    forall k | 0 <= k < count
      ensures Slots(ring[Wrap(first + count, |ring|) := x], first, count + 1)[k] == Slots(ring, first, count)[k]
    {
    }
  }

  /** The source's registers. Pointers wrap at the depth, which is a power of two. */
  class Ring<T(0)> {
    const depth: nat
    const zero: T
    const mem: array<T>
    var wrPtr: nat
    var rdPtr: nat
    var count: nat
    var dataOut: T

    ghost predicate Valid()
      reads this
    {
      0 < depth == mem.Length && rdPtr < depth && count <= depth && wrPtr == Wrap(rdPtr + count, depth)
    }

    ghost function Abstract(): (q: Queue<T>)
      reads this, mem
      requires Valid()
    {
      Queue(Slots(mem[..], rdPtr, count), dataOut)
    }

    constructor (log2: nat, zero: T)
      ensures Valid() && fresh(mem) && depth == Power(log2) && this.zero == zero
      ensures Abstract() == Queue([], zero)
    {
      depth := Power(log2);
      this.zero := zero;
      mem := new T[Power(log2)];
      wrPtr, rdPtr, count := 0, 0, 0;
      dataOut := zero;
    }

    method Pop()
      requires Valid() && count > 0
      modifies this`rdPtr, this`count, this`dataOut
      ensures Valid() && count == old(count) - 1
      ensures Abstract() == Queue(old(Abstract()).items[1..], old(Abstract()).items[0])
    {
      DropFirst(mem[..], rdPtr, count);
      dataOut := mem[rdPtr];
      rdPtr := Wrap(rdPtr + 1, depth);
      count := count - 1;
    }

    method Push(dataIn: T)
      requires Valid() && count < depth
      modifies this`wrPtr, this`count, mem
      ensures Valid() && count == old(count) + 1
      ensures Abstract() == Queue(old(Abstract()).items + [dataIn], old(Abstract()).out)
    {
      AddLast(mem[..], rdPtr, count, dataIn);
      mem[wrPtr] := dataIn;
      wrPtr := Wrap(wrPtr + 1, depth);
      count := count + 1;
      assert mem[..] == old(mem[..])[old(wrPtr) := dataIn];
    }

    /** One clock edge; both requests are judged before either is served. The word memory is not reset. */
    method Clock(reset: bool, dataIn: T, put: bool, get: bool)
      requires Valid()
      modifies this, mem
      ensures Valid()
      ensures Abstract() == Edge(depth, zero, old(Abstract()), reset, put, dataIn, get)
    {
      if reset {
        wrPtr, rdPtr, count := 0, 0, 0;
        dataOut := zero;
        return;
      }
      var push := put && count < depth;
      if get && count > 0 {
        Pop();
      }
      if push {
        Push(dataIn);
      }
    }

    /** The pointers differ by the fill count, modulo the depth. */
    lemma PointersAgree()
      requires Valid()
      ensures wrPtr == (rdPtr + count) % depth
    {
    }
  }
}
