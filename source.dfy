/**
 * What the two sources of package `source` share: their subscriber channels,
 * their statistics, and the two loops of `run` — the per-tick delivery to
 * every subscriber in subscription order, and the close-out when the clock
 * stream ends. A channel is modelled by the log of values its reader has
 * received and whether it has been closed.
 */
module Sources {

  /** A subscriber channel, as its reader sees it. */
  datatype Channel = Channel(received: seq<int>, closed: bool)

  /** `SourceStats`. */
  datatype SourceStats = SourceStats(generationCount: nat, subscriberCount: nat)

  /** A channel just handed out by `Subscribe`. */
  const Fresh: Channel := Channel([], false)

  /** `m` copies of `c`: what a constant source generates in m ticks. */
  function Repeat(c: int, m: nat): (r: seq<int>)
    ensures |r| == m && forall i :: 0 <= i < m ==> r[i] == c
  {
    seq(m, _ => c)
  }

  /** Every subscriber has received `v` once more. */
  function Sent(subs: seq<Channel>, v: int): seq<Channel>
  {
    seq(|subs|, i requires 0 <= i < |subs| => subs[i].(received := subs[i].received + [v]))
  }

  /** Every subscriber has been closed. */
  function ClosedAll(subs: seq<Channel>): seq<Channel>
  {
    seq(|subs|, i requires 0 <= i < |subs| => subs[i].(closed := true))
  }

  /** The subscribers after one tick per value of `vs`, in order. */
  function Feed(subs: seq<Channel>, vs: seq<int>): seq<Channel>
    decreases |vs|
  {
    if vs == [] then subs else Feed(Sent(subs, vs[0]), vs[1..])
  }

  /**
   * The delivery loop of `run`: send `v` to each subscriber of the snapshot,
   * in subscription order.
   */
  method Broadcast(subs: seq<Channel>, v: int) returns (out: seq<Channel>)
    ensures out == Sent(subs, v)
  {
    out := subs;
    var i := 0;
    while i < |subs|
      invariant 0 <= i <= |subs| && |out| == |subs|
      invariant forall j :: 0 <= j < i ==> out[j] == subs[j].(received := subs[j].received + [v])
      invariant forall j :: i <= j < |subs| ==> out[j] == subs[j]
    {
      out := out[i := out[i].(received := out[i].received + [v])];
      i := i + 1;
    }
  }

  /** The close-out loop of `run`: close every subscriber channel. */
  method CloseAll(subs: seq<Channel>) returns (out: seq<Channel>)
    ensures out == ClosedAll(subs)
  {
    out := subs;
    var i := 0;
    while i < |subs|
      invariant 0 <= i <= |subs| && |out| == |subs|
      invariant forall j :: 0 <= j < i ==> out[j] == subs[j].(closed := true)
      invariant forall j :: i <= j < |subs| ==> out[j] == subs[j]
    {
      out := out[i := out[i].(closed := true)];
      i := i + 1;
    }
  }

  /**
   * Lock-step fan-out: after a run of ticks, every subscriber present before
   * them has received exactly the generated values, each once and in order,
   * and no subscriber is added, lost or closed.
   */
  lemma {:induction false} FeedDelivers(subs: seq<Channel>, vs: seq<int>)
    ensures |Feed(subs, vs)| == |subs|
    ensures forall i :: 0 <= i < |subs| ==>
      Feed(subs, vs)[i] == Channel(subs[i].received + vs, subs[i].closed)
    decreases |vs|
  {
    if vs == [] {
      forall i | 0 <= i < |subs|
        ensures Feed(subs, vs)[i] == Channel(subs[i].received + vs, subs[i].closed)
      {
        assert subs[i].received + vs == subs[i].received;
      }
    } else {
      var next := Sent(subs, vs[0]);
      FeedDelivers(next, vs[1..]);
      forall i | 0 <= i < |subs|
        ensures Feed(subs, vs)[i] == Channel(subs[i].received + vs, subs[i].closed)
      {
        assert next[i].received + vs[1..] == subs[i].received + vs by {
          assert [vs[0]] + vs[1..] == vs;
        }
      }
    }
  }

  /** Closing leaves every channel's received values as they were. */
  lemma ClosedAllKeepsReceived(subs: seq<Channel>)
    ensures |ClosedAll(subs)| == |subs|
    ensures forall i :: 0 <= i < |subs| ==>
      ClosedAll(subs)[i].closed && ClosedAll(subs)[i].received == subs[i].received
  {
  }
}
