/**
 The thread pools (session_manager.cpp, session_thread_pool.cpp, disk_manager.cpp, disk_thread_pool.cpp):
 one queue per worker thread, chosen by the descriptor, serves every connection first in, first out.
 */
module Shards {
  import opened Types

  /** The entries of a shared queue that belong to one descriptor, in order. */
  function For<T>(q: seq<(nat, T)>, fd: nat): seq<T> {
    if q == [] then [] else (if q[0].0 == fd then [q[0].1] else []) + For(q[1..], fd)
  }

  lemma {:induction false} ForAppend<T>(a: seq<(nat, T)>, b: seq<(nat, T)>, fd: nat)
    ensures For(a + b, fd) == For(a, fd) + For(b, fd)
  {
    if a == [] {
      assert a + b == b;
    } else {
      ForAppend(a[1..], b, fd);
      HeadTail(a, b);
      Assoc(if a[0].0 == fd then [a[0].1] else [], For(a[1..], fd), For(b, fd));
    }
  }

  lemma ForSnoc<T>(q: seq<(nat, T)>, to: nat, t: T, fd: nat)
    ensures For(q + [(to, t)], fd) == For(q, fd) + (if to == fd then [t] else [])
  {
    ForAppend(q, [(to, t)], fd);
    assert For([(to, t)], fd) == (if to == fd then [t] else []) + For([], fd);
  }

  lemma ForHead<T>(q: seq<(nat, T)>, fd: nat)
    requires q != []
    ensures For(q, fd) == (if q[0].0 == fd then [q[0].1] else []) + For(q[1..], fd)
  {
  }

  /** Worker threads with a queue each; `shards` of them are used. */
  class Pool<T> {
    const shards: nat
    var queues: seq<seq<(nat, T)>>
    ghost var posted: seq<(nat, T)>  // every task posted, in order
    ghost var taken: seq<(nat, T)>   // every task taken by a worker, in order

    ghost predicate Valid()
      reads this
    {
      && 0 < shards <= |queues|
      && (forall i, k :: 0 <= i < |queues| && 0 <= k < |queues[i]| ==> queues[i][k].0 % shards == i)
      && (forall fd: nat :: For(taken, fd) + For(queues[fd % shards], fd) == For(posted, fd))
    }

    /** The tasks of one descriptor that are still waiting. */
    ghost function Pending(fd: nat): seq<T>
      reads this
      requires Valid()
    {
      For(queues[fd % shards], fd)
    }

    constructor (threads: nat, shards: nat)
      requires 0 < shards <= threads
      ensures Valid() && this.shards == shards && |queues| == threads
      ensures posted == taken == [] && forall fd: nat :: Pending(fd) == []
    {
      this.shards := shards;
      queues := seq(threads, _ => []);
      posted, taken := [], [];
    }

    /** post_to_session, post_to_disk */
    method Post(fd: nat, t: T)
      requires Valid()
      modifies this
      ensures Valid() && |queues| == old(|queues|)
      ensures posted == old(posted) + [(fd, t)] && taken == old(taken)
      ensures Pending(fd) == old(Pending(fd)) + [t]
      ensures forall g: nat :: g != fd ==> Pending(g) == old(Pending(g))
    {
      hide For;
      var i := fd % shards;
      ghost var before := queues;
      queues := queues[i := queues[i] + [(fd, t)]];
      posted := posted + [(fd, t)];
      forall g: nat
        ensures For(queues[g % shards], g) == For(before[g % shards], g) + (if g == fd then [t] else [])
        ensures For(posted, g) == For(old(posted), g) + (if g == fd then [t] else [])
      {
        ForSnoc(before[i], fd, t, g);
        ForSnoc(old(posted), fd, t, g);
        assert For(before[g % shards], g) + [] == For(before[g % shards], g);
      }
      assert forall g: nat :: For(taken, g) + For(before[g % shards], g) == For(old(posted), g);
      forall g: nat
        ensures For(taken, g) + For(queues[g % shards], g) == For(posted, g)
      {
        Assoc(For(taken, g), For(before[g % shards], g), if g == fd then [t] else []);
      }
    }

    /** Posts the tasks a handler asks for, one after the other. */
    method PostAll(fd: nat, ts: seq<T>)
      requires Valid()
      modifies this
      ensures Valid() && |queues| == old(|queues|) && taken == old(taken)
      ensures Pending(fd) == old(Pending(fd)) + ts
      ensures forall g: nat :: g != fd ==> Pending(g) == old(Pending(g))
    {
      assert old(Pending(fd)) + ts[..0] == old(Pending(fd));
      for k := 0 to |ts|
        invariant Valid() && |queues| == old(|queues|) && taken == old(taken)
        invariant Pending(fd) == old(Pending(fd)) + ts[..k]
        invariant forall g: nat :: g != fd ==> Pending(g) == old(Pending(g))
      {
        Post(fd, ts[k]);
        assert ts[..k + 1] == ts[..k] + [ts[k]];
      }
      assert ts[..|ts|] == ts;
    }

    /** One turn of thread_function of worker i: its oldest task leaves the queue. */
    method Take(i: nat) returns (fd: nat, t: T)
      requires Valid() && i < |queues| && queues[i] != []
      modifies this
      ensures Valid() && |queues| == old(|queues|)
      ensures (fd, t) == old(queues[i][0]) && fd % shards == i
      ensures taken == old(taken) + [(fd, t)] && posted == old(posted)
      ensures old(Pending(fd)) == [t] + Pending(fd)
      ensures forall g: nat :: g != fd ==> Pending(g) == old(Pending(g))
    {
      hide For;
      fd, t := queues[i][0].0, queues[i][0].1;
      ghost var before := queues;
      queues := queues[i := queues[i][1..]];
      taken := taken + [(fd, t)];
      forall g: nat
        ensures For(before[g % shards], g) == (if g == fd then [t] else []) + For(queues[g % shards], g)
        ensures For(taken, g) == For(old(taken), g) + (if g == fd then [t] else [])
      {
        ForHead(before[i], g);
        ForSnoc(old(taken), fd, t, g);
        assert [] + For(before[g % shards], g) == For(before[g % shards], g);
      }
      assert forall g: nat :: For(old(taken), g) + For(before[g % shards], g) == For(posted, g);
      forall g: nat
        ensures For(taken, g) + For(queues[g % shards], g) == For(posted, g)
      {
        Assoc(For(old(taken), g), if g == fd then [t] else [], For(queues[g % shards], g));
      }
    }
  }
}
