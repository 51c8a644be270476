/** The chain of send channels: the receiver in use, the one waiting to be swapped in and the ones
    that travel on the control queue always form an unbroken chain that ends at the channel the
    application sends into. */
module StreamChain {
  import opened Base
  import opened StreamModel

  /** Starting at channel `t`, each swap message on the queue continues the chain by one channel and
      carries the sender of the channel before; the chain ends at `newest`. */
  ghost predicate ChainFrom(t: ChannelId, control: seq<Message>, newest: nat)
    decreases |control|
  {
    if control == [] then t == newest
    else match control[0]
      case Reset => ChainFrom(t, control[1..], newest)
      case SwapSendData(receiver, oldSender) =>
        oldSender == t && receiver == t + 1 && ChainFrom(receiver, control[1..], newest)
      case _ => false
  }

  function Tail(sw: Swappable): ChannelId {
    if sw.swapTo.Some? then sw.swapTo.value else sw.active
  }

  ghost predicate ControlMessages(control: seq<Message>) {
    forall i :: 0 <= i < |control| ==> control[i].Reset? || control[i].SwapSendData?
  }

  /** `link` and the context's receivers fit together. */
  ghost predicate Chain(link: Link, sendData: Option<Swappable>) {
    && ControlMessages(link.control)
    && (link.appSender.Some? ==> link.appSender.value + 1 == |link.channels|)
    && (sendData.Some? ==> ChainFor(link, sendData.value))
  }

  ghost predicate ChainFor(link: Link, sw: Swappable) {
    && Tail(sw) < |link.channels|
    && (sw.swapTo.Some? ==> sw.active < sw.swapTo.value)
    && ChainFrom(Tail(sw), link.control, |link.channels| - 1)
    && forall c :: sw.active < c < |link.channels| ==> link.channels[c].error.None?
  }

  /** Bytes in the channels whose receivers are on the control queue. */
  function OnControl(control: seq<Message>, channels: seq<Channel>): Bytes
    decreases |control|
  {
    if control == [] then []
    else if control[0].SwapSendData? then
      Flatten(Queue(channels, control[0].receiver)) + OnControl(control[1..], channels)
    else OnControl(control[1..], channels)
  }

  function InSwappable(sw: Swappable, channels: seq<Channel>): Bytes {
    Flatten(Queue(channels, sw.active)) + (if sw.swapTo.Some? then Flatten(Queue(channels, sw.swapTo.value)) else [])
  }

  /** Bytes the context can still reach through its receivers, in order. */
  function Pipe(link: Link, sendData: Option<Swappable>): Bytes {
    if sendData.None? then [] else InSwappable(sendData.value, link.channels) + OnControl(link.control, link.channels)
  }

  ghost predicate HasSwap(control: seq<Message>) {
    exists i :: 0 <= i < |control| && control[i].SwapSendData?
  }

  /** The receiver has delivered everything it ever will: it is empty and no sender is left. */
  ghost predicate Drained(link: Link, sw: Swappable) {
    && sw.swapTo.None?
    && Queue(link.channels, sw.active) == []
    && link.appSender.None?
    && !HasSwap(link.control)
  }

  // ---------------------------------------------------------------- chains and the control queue

  lemma {:induction false} ChainAppendSwap(t: ChannelId, control: seq<Message>, newest: nat)
    requires ChainFrom(t, control, newest)
    ensures ChainFrom(t, control + [SwapSendData(newest + 1, newest)], newest + 1)
    decreases |control|
  {
    var longer := control + [SwapSendData(newest + 1, newest)];
    if control == [] {
      assert longer[1..] == [];
    } else {
      assert longer[1..] == control[1..] + [SwapSendData(newest + 1, newest)];
      ChainAppendSwap(if control[0].Reset? then t else t + 1, control[1..], newest);
    }
  }

  lemma {:induction false} ChainAppendReset(t: ChannelId, control: seq<Message>, newest: nat)
    requires ChainFrom(t, control, newest)
    ensures ChainFrom(t, control + [Reset], newest)
    decreases |control|
  {
    if control == [] {
      assert (control + [Reset])[1..] == [];
    } else {
      assert (control + [Reset])[1..] == control[1..] + [Reset];
      ChainAppendReset(if control[0].Reset? then t else t + 1, control[1..], newest);
    }
  }

  /** Where the senders along a chain are: none of an earlier channel is on the queue, and the
      chain's first one is unless the chain is at its end. */
  lemma {:induction false} ChainSenders(t: ChannelId, control: seq<Message>, newest: nat)
    requires ChainFrom(t, control, newest)
    ensures t <= newest
    ensures forall i :: 0 <= i < |control| && control[i].SwapSendData? ==>
      t <= control[i].oldSender < control[i].receiver <= newest
    ensures t < newest <==> HasSwap(control)
    ensures t < newest ==> exists i :: 0 <= i < |control| && control[i].SwapSendData? && control[i].oldSender == t
    ensures t < newest ==> exists i :: 0 <= i < |control| && control[i].SwapSendData? && control[i].receiver == newest
    decreases |control|
  {
    if control != [] {
      var next := if control[0].Reset? then t else t + 1;
      ChainSenders(next, control[1..], newest);
      forall i | 0 <= i < |control| && control[i].SwapSendData?
        ensures t <= control[i].oldSender < control[i].receiver <= newest
      {
        if i > 0 { assert control[i] == control[1..][i - 1]; }
      }
      if control[0].SwapSendData? {
        assert control[0].oldSender == t;
        if next < newest {
          var i :| 0 <= i < |control[1..]| && control[1..][i].SwapSendData? && control[1..][i].receiver == newest;
          assert control[i + 1].receiver == newest;
        } else {
          assert control[0].receiver == newest;
        }
      } else if t < newest {
        var i :| 0 <= i < |control[1..]| && control[1..][i].SwapSendData? && control[1..][i].oldSender == t;
        assert control[i + 1].oldSender == t;
        var j :| 0 <= j < |control[1..]| && control[1..][j].SwapSendData? && control[1..][j].receiver == newest;
        assert control[j + 1].receiver == newest;
      } else {
        assert !HasSwap(control[1..]);
        forall i | 0 <= i < |control| ensures !control[i].SwapSendData? {
          if i > 0 { assert control[i] == control[1..][i - 1]; }
        }
      }
    }
  }

  lemma {:induction false} OnControlAppend(control: seq<Message>, msg: Message, channels: seq<Channel>)
    ensures OnControl(control + [msg], channels)
         == OnControl(control, channels) + (if msg.SwapSendData? then Flatten(Queue(channels, msg.receiver)) else [])
    decreases |control|
  {
    if control == [] {
      assert (control + [msg])[1..] == [];
    } else {
      assert (control + [msg])[1..] == control[1..] + [msg];
      OnControlAppend(control[1..], msg, channels);
    }
  }

  lemma {:induction false} OnControlNoSwap(control: seq<Message>, channels: seq<Channel>)
    requires !HasSwap(control)
    ensures OnControl(control, channels) == []
    decreases |control|
  {
    if control != [] {
      assert !control[0].SwapSendData?;
      forall i | 0 <= i < |control[1..]| ensures !control[1..][i].SwapSendData? {
        assert control[1..][i] == control[i + 1];
      }
      OnControlNoSwap(control[1..], channels);
    }
  }

  /** Only the queues of the receivers on the control queue matter. */
  lemma {:induction false} OnControlFrame(control: seq<Message>, channels: seq<Channel>, channels': seq<Channel>)
    requires forall i :: 0 <= i < |control| && control[i].SwapSendData? ==>
               Queue(channels, control[i].receiver) == Queue(channels', control[i].receiver)
    ensures OnControl(control, channels) == OnControl(control, channels')
    decreases |control|
  {
    if control != [] {
      forall i | 0 <= i < |control[1..]| && control[1..][i].SwapSendData?
        ensures Queue(channels, control[1..][i].receiver) == Queue(channels', control[1..][i].receiver)
      {
        assert control[1..][i] == control[i + 1];
      }
      OnControlFrame(control[1..], channels, channels');
    }
  }

  /** A buffer pushed at the end of the chain comes last of all bytes in the chain. */
  lemma {:induction false} ChainPush(t: ChannelId, control: seq<Message>, channels: seq<Channel>, buf: Bytes)
    requires channels != [] && ChainFrom(t, control, |channels| - 1)
    ensures var channels' := Push(channels, |channels| - 1, buf);
      Flatten(Queue(channels', t)) + OnControl(control, channels')
        == Flatten(Queue(channels, t)) + OnControl(control, channels) + buf
    decreases |control|
  {
    var newest := |channels| - 1;
    var channels' := Push(channels, newest, buf);
    ChainSenders(t, control, newest);
    if control == [] {
      FlattenPush(channels[newest].queue, buf);
    } else if control[0].Reset? {
      ChainPush(t, control[1..], channels, buf);
    } else {
      ChainSenders(t + 1, control[1..], newest);
      ChainPush(t + 1, control[1..], channels, buf);
      assert Queue(channels', t) == Queue(channels, t);
      Assoc(Flatten(Queue(channels, t)), OnControl(control, channels), buf);
    }
  }

  /** A buffer pushed into the application's channel comes last of all bytes in the pipe. */
  lemma PipePush(link: Link, sw: Swappable, buf: Bytes)
    requires ChainFor(link, sw)
    ensures Pipe(link.(channels := Push(link.channels, |link.channels| - 1, buf)), Some(sw))
         == Pipe(link, Some(sw)) + buf
  {
    var channels' := Push(link.channels, |link.channels| - 1, buf);
    ChainPush(Tail(sw), link.control, link.channels, buf);
    ChainSenders(Tail(sw), link.control, |link.channels| - 1);
    if sw.swapTo.Some? {
      var front := Flatten(Queue(link.channels, sw.active));
      assert Queue(channels', sw.active) == Queue(link.channels, sw.active);
      Assoc(front, Flatten(Queue(link.channels, sw.swapTo.value)), OnControl(link.control, link.channels));
      Assoc(front, Flatten(Queue(channels', sw.swapTo.value)), OnControl(link.control, channels'));
      Assoc(front, Flatten(Queue(link.channels, sw.swapTo.value)) + OnControl(link.control, link.channels), buf);
    } else {
      assert InSwappable(sw, link.channels) == Flatten(Queue(link.channels, sw.active));
      assert InSwappable(sw, channels') == Flatten(Queue(channels', sw.active));
    }
  }

  /** A new channel at the end of the chain changes nothing about the bytes on their way. */
  lemma PipeResize(link: Link, sw: Swappable)
    requires ChainFor(link, sw)
    ensures var newest := |link.channels| - 1;
      var swap := SwapSendData(newest + 1, newest);
      var link' := Link(Some(newest + 1), link.control + [swap], link.channels + [Channel([], None)]);
      ChainFor(link', sw) && Pipe(link', Some(sw)) == Pipe(link, Some(sw))
  {
    var newest := |link.channels| - 1;
    var channels' := link.channels + [Channel([], None)];
    ChainSenders(Tail(sw), link.control, newest);
    ChainAppendSwap(Tail(sw), link.control, newest);
    OnControlAppend(link.control, SwapSendData(newest + 1, newest), channels');
    OnControlFrame(link.control, link.channels, channels');
  }

  // ---------------------------------------------------------------- polling along the chain

  /** Who holds the sender of the receiver in use. */
  lemma ActiveSender(link: Link, sw: Swappable)
    requires Chain(link, Some(sw))
    ensures sw.swapTo.Some? ==> !SenderAlive(link, sw.active)
    ensures sw.swapTo.None? ==> (SenderAlive(link, sw.active) <==> link.appSender.Some? || HasSwap(link.control))
  {
    ChainSenders(Tail(sw), link.control, |link.channels| - 1);
  }

  lemma PipePop(link: Link, sw: Swappable)
    requires Chain(link, Some(sw)) && Queue(link.channels, sw.active) != []
    ensures var link' := link.(channels := Pop(link.channels, sw.active));
      && Chain(link', Some(sw))
      && Pipe(link, Some(sw)) == Queue(link.channels, sw.active)[0] + Pipe(link', Some(sw))
  {
    var channels' := Pop(link.channels, sw.active);
    ChainSenders(Tail(sw), link.control, |link.channels| - 1);
    OnControlFrame(link.control, link.channels, channels');
    var q := Queue(link.channels, sw.active);
    var w := if sw.swapTo.Some? then Flatten(Queue(link.channels, sw.swapTo.value)) else [];
    var rest := OnControl(link.control, link.channels);
    assert Flatten(q) == q[0] + Flatten(q[1..]);
    Assoc(q[0], Flatten(q[1..]), w);
    Assoc(q[0], Flatten(q[1..]) + w, rest);
  }

  /** What one poll of the send receiver does to the bytes in the chain, and exactly when it
      reports the end. */
  lemma PollSendChain(link: Link, sw: Swappable)
    requires Chain(link, Some(sw))
    ensures var (r, link', sw') := PollSend(link, sw);
      && Chain(link', Some(sw'))
      && Pipe(link, Some(sw)) == (if r.Item? then r.buf else []) + Pipe(link', Some(sw'))
      && (r.End? ==> Drained(link', sw'))
      && (r.End? <==> link.appSender.None? && !HasSwap(link.control) && Items(link.channels, sw) == 0)
      && (r.NotReady? ==> Items(link.channels, sw) == 0 == Items(link'.channels, sw'))
      && (r.NotReady? ==> link.appSender.Some? || HasSwap(link.control))
  {
    PollSendPipe(link, sw);
    PollSendResult(link, sw);
  }

  lemma {:induction false} PollSendPipe(link: Link, sw: Swappable)
    requires Chain(link, Some(sw))
    ensures var (r, link', sw') := PollSend(link, sw);
      && Chain(link', Some(sw'))
      && Pipe(link, Some(sw)) == (if r.Item? then r.buf else []) + Pipe(link', Some(sw'))
    decreases if sw.swapTo.Some? then 1 else 0
  {
    if Queue(link.channels, sw.active) != [] {
      PipePop(link, sw);
    } else if !SenderAlive(link, sw.active) && sw.swapTo.Some? {
      PollSendPipe(link, Swappable(sw.swapTo.value, None));
    }
  }

  lemma {:induction false} PollSendResult(link: Link, sw: Swappable)
    requires Chain(link, Some(sw))
    ensures var (r, link', sw') := PollSend(link, sw);
      && (r.End? ==> Drained(link', sw'))
      && (r.End? <==> link.appSender.None? && !HasSwap(link.control) && Items(link.channels, sw) == 0)
      && (r.NotReady? ==> Items(link.channels, sw) == 0 == Items(link'.channels, sw'))
      && (r.NotReady? ==> link.appSender.Some? || HasSwap(link.control))
    decreases if sw.swapTo.Some? then 1 else 0
  {
    ActiveSender(link, sw);
    if Queue(link.channels, sw.active) == [] && !SenderAlive(link, sw.active) && sw.swapTo.Some? {
      PollSendResult(link, Swappable(sw.swapTo.value, None));
    }
  }

  lemma DrainedPipe(link: Link, sw: Swappable)
    requires Drained(link, sw)
    ensures Pipe(link, Some(sw)) == []
  {
    OnControlNoSwap(link.control, link.channels);
  }

  /** Collecting moves bytes from the chain to the buffers and reports the end exactly when
      everything fits and nothing can follow. */
  lemma {:induction false} CollectChain(link: Link, sendData: Option<Swappable>, maxLength: nat, bufs: seq<Bytes>)
    requires Chain(link, sendData)
    ensures var c := Collect(link, sendData, maxLength, bufs);
      && Chain(c.link, c.sendData)
      && Flatten(bufs) <= Flatten(c.bufs)
      && Flatten(bufs) + Pipe(link, sendData) == Flatten(c.bufs) + Pipe(c.link, c.sendData)
      && (c.fin ==> |Flatten(c.bufs)| <= maxLength && Pipe(c.link, c.sendData) == [])
      && (c.fin && c.sendData.Some? ==> Drained(c.link, c.sendData.value))
      && (!c.fin && |Flatten(c.bufs)| <= maxLength ==>
            && c.sendData.Some? && Items(c.link.channels, c.sendData.value) == 0
            && (link.appSender.Some? || HasSwap(link.control)))
    decreases if sendData.Some? then Items(link.channels, sendData.value) else 0
  {
    if |Flatten(bufs)| <= maxLength && sendData.Some? {
      PollSendChain(link, sendData.value);
      var (r, link', sw) := PollSend(link, sendData.value);
      if r.Item? {
        FlattenPush(bufs, r.buf);
        Assoc(Flatten(bufs), r.buf, Pipe(link', Some(sw)));
        CollectChain(link', Some(sw), maxLength, bufs + [r.buf]);
      } else if r.End? {
        DrainedPipe(link', sw);
      }
    }
  }

  // ---------------------------------------------------------------- the copy loop cannot panic

  lemma FlattenUpTo(bufs: seq<Bytes>, i: nat)
    requires i < |bufs|
    ensures Flatten(bufs[..i + 1]) == Flatten(bufs[..i]) + bufs[i]
  {
    assert bufs[..i + 1] == bufs[..i] + [bufs[i]];
    FlattenPush(bufs[..i], bufs[i]);
  }

  lemma {:induction false} FlattenPrefix(bufs: seq<Bytes>, i: nat)
    requires i <= |bufs|
    ensures Flatten(bufs[..i]) <= Flatten(bufs)
    decreases |bufs| - i
  {
    if i == |bufs| {
      assert bufs[..i] == bufs;
    } else {
      FlattenUpTo(bufs, i);
      FlattenPrefix(bufs, i + 1);
    }
  }

  /** Only the last buffer may reach beyond the limit. */
  ghost predicate AllButLastFit(bufs: seq<Bytes>, maxLength: nat) {
    forall j :: 0 <= j < |bufs| ==> |Flatten(bufs[..j])| <= maxLength
  }

  lemma PushFits(bufs: seq<Bytes>, buf: Bytes, maxLength: nat)
    requires AllButLastFit(bufs, maxLength) && |Flatten(bufs)| <= maxLength
    ensures AllButLastFit(bufs + [buf], maxLength)
  {
    forall j | 0 <= j < |bufs + [buf]| ensures |Flatten((bufs + [buf])[..j])| <= maxLength {
      assert (bufs + [buf])[..j] == bufs[..j];
      assert bufs[..|bufs|] == bufs;
    }
  }

  /** Collecting stops with the first buffer that reaches beyond the limit. */
  lemma {:induction false} CollectFits(link: Link, sendData: Option<Swappable>, maxLength: nat, bufs: seq<Bytes>)
    requires AllButLastFit(bufs, maxLength)
    ensures AllButLastFit(Collect(link, sendData, maxLength, bufs).bufs, maxLength)
    decreases if sendData.Some? then Items(link.channels, sendData.value) else 0
  {
    if |Flatten(bufs)| <= maxLength && sendData.Some? {
      var (r, link', sw) := PollSend(link, sendData.value);
      if r.Item? {
        PushFits(bufs, r.buf, maxLength);
        CollectFits(link', Some(sw), maxLength, bufs + [r.buf]);
      }
    }
  }

  /** If only the last buffer reaches beyond the limit, at most one buffer keeps bytes. */
  lemma OneLeftover(bufs: seq<Bytes>, maxLength: nat)
    requires AllButLastFit(bufs, maxLength)
    ensures !TwoLeftovers(bufs, Min(maxLength, |Flatten(bufs)|))
  {
    forall j | 0 <= j < |bufs| ensures |Flatten(bufs[..j])| <= Min(maxLength, |Flatten(bufs)|) {
      FlattenPrefix(bufs, j);
    }
  }
}
