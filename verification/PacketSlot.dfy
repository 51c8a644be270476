/** The driver's one packet buffer: it is used for receiving and for sending, and a packet that the
    socket did not take stays in it until it can be sent. */
module PacketSlot {
  import opened Base

  datatype Packet = Packet(bytes: Bytes, addr: nat)

  datatype SendStatus = SocketTook | SocketFull | SocketFailed

  /** One turn of the loop over the connections, as picoquic and the socket behave in it. `written`
      is what picoquic leaves at the front of the buffer, be it a packet or not. */
  datatype Turn =
    | Disconnected
    | NoPacket(written: Bytes)
    | PacketReady(written: Bytes, addr: nat, status: SendStatus)

  function Written(t: Turn): Bytes {
    if t.Disconnected? then [] else t.written
  }

  // ---------------------------------------------------------------- the buffer

  /** `data` received or prepared at the front of the buffer; what does not fit is cut off. */
  function Write(buffer: Bytes, data: Bytes): (r: Bytes)
    ensures |r| == |buffer|
  {
    var n := Min(|data|, |buffer|);
    data[..n] + buffer[n..]
  }

  /** A datagram from the socket, and what picoquic leaves at the front of the slice that holds it
      after processing: it gets the slice to write to and may work in place. */
  datatype Receipt = Receipt(datagram: Bytes, left: Bytes)

  /** What the slice holds when the next datagram is received. */
  function Processed(r: Receipt): (bytes: Bytes)
    ensures |bytes| == |r.datagram|
    ensures forall j :: 0 <= j < |bytes| ==> bytes[j] == if j < |r.left| then r.left[j] else r.datagram[j]
  {
    Write(r.datagram, r.left)
  }

  function ReceiveAll(buffer: Bytes, receipts: seq<Receipt>): (r: Bytes)
    ensures |r| == |buffer|
    decreases |receipts|
  {
    if receipts == [] then buffer else ReceiveAll(Write(buffer, Processed(receipts[0])), receipts[1..])
  }

  /** The last datagram to reach position `j`, counted from one; zero if none does. */
  function LastOver(receipts: seq<Receipt>, j: nat): (k: nat)
    ensures k <= |receipts| && (k > 0 ==> j < |receipts[k - 1].datagram|)
    ensures forall i :: k <= i < |receipts| ==> |receipts[i].datagram| <= j
  {
    if receipts == [] then 0
    else if j < |receipts[|receipts| - 1].datagram| then |receipts|
    else LastOver(receipts[..|receipts| - 1], j)
  }

  /** The byte that a datagram leaves at a position it reaches. */
  function LeftAt(r: Receipt, j: nat): Byte
    requires j < |r.datagram|
  {
    if j < |r.left| then r.left[j] else r.datagram[j]
  }

  lemma {:induction false} ReceiveAllConcat(buffer: Bytes, a: seq<Receipt>, b: seq<Receipt>)
    ensures ReceiveAll(buffer, a + b) == ReceiveAll(ReceiveAll(buffer, a), b)
    decreases |a|
  {
    if a == [] {
      assert a + b == b;
    } else {
      assert (a + b)[0] == a[0] && (a + b)[1..] == a[1..] + b;
      ReceiveAllConcat(Write(buffer, Processed(a[0])), a[1..], b);
    }
  }

  /** Each position holds what the last datagram to reach it left there. */
  lemma {:induction false} ReceivedAt(buffer: Bytes, receipts: seq<Receipt>, j: nat)
    requires j < |buffer|
    ensures var k := LastOver(receipts, j);
      ReceiveAll(buffer, receipts)[j] == if k == 0 then buffer[j] else LeftAt(receipts[k - 1], j)
    decreases |receipts|
  {
    if receipts != [] {
      var front, last := receipts[..|receipts| - 1], receipts[|receipts| - 1];
      assert receipts == front + [last];
      ReceiveAllConcat(buffer, front, [last]);
      assert [last][1..] == [];
      var received := ReceiveAll(buffer, front);
      assert ReceiveAll(received, [last]) == ReceiveAll(Write(received, Processed(last)), []);
      ReceivedAt(buffer, front, j);
    }
  }

  /** Receiving a datagram and letting picoquic work on its slice writes the processed datagram. */
  lemma ProcessInPlace(buffer: Bytes, r: Receipt)
    ensures Write(Write(buffer, r.datagram), r.left[..Min(|r.left|, |r.datagram|)]) == Write(buffer, Processed(r))
  {
  }

  // ---------------------------------------------------------------- specification of a send round

  datatype Sent = Sent(resolved: seq<Packet>, slot: Option<Packet>, prepared: seq<Packet>)

  /** What the loop over the connections sends: it ends at a disconnected connection or when the
      socket is full, which leaves that packet in the slot. */
  function SendTurns(turns: seq<Turn>): Sent {
    if turns == [] || turns[0].Disconnected? then Sent([], None, [])
    else if turns[0].NoPacket? then SendTurns(turns[1..])
    else
      var p := Packet(turns[0].written, turns[0].addr);
      if turns[0].status.SocketFull? then Sent([], Some(p), [p])
      else
        var rest := SendTurns(turns[1..]);
        Sent([p] + rest.resolved, rest.slot, [p] + rest.prepared)
  }

  /** The buffer after the turns that were taken. */
  function TurnBuffer(buffer: Bytes, turns: seq<Turn>): (r: Bytes)
    ensures |r| == |buffer|
    decreases |turns|
  {
    if turns == [] || turns[0].Disconnected? then buffer
    else if turns[0].PacketReady? && turns[0].status.SocketFull? then Write(buffer, turns[0].written)
    else TurnBuffer(Write(buffer, turns[0].written), turns[1..])
  }

  function SlotSeq(slot: Option<Packet>): seq<Packet> {
    if slot.Some? then [slot.value] else []
  }

  /** `send_connection_packets`: nothing is prepared before the packet in the slot is gone. */
  function SendRound(slot: Option<Packet>, retry: SendStatus, turns: seq<Turn>): Sent {
    if slot.Some? && retry.SocketFull? then Sent([], slot, [])
    else
      var rest := SendTurns(turns);
      Sent(SlotSeq(slot) + rest.resolved, rest.slot, rest.prepared)
  }

  lemma PacketAssoc(a: seq<Packet>, p: Packet, b: seq<Packet>)
    ensures a + ([p] + b) == a + [p] + b
  {
  }

  lemma TurnsFrom(turns: seq<Turn>, i: nat)
    requires i < |turns|
    ensures turns[i..] != [] && turns[i..][0] == turns[i] && turns[i..][1..] == turns[i + 1..]
  {
  }

  lemma {:induction false} SendTurnsConserve(turns: seq<Turn>)
    ensures var r := SendTurns(turns); r.resolved + SlotSeq(r.slot) == r.prepared
  {
    if turns != [] && !turns[0].Disconnected? {
      SendTurnsConserve(turns[1..]);
      var rest := SendTurns(turns[1..]);
      if turns[0].PacketReady? && !turns[0].status.SocketFull? {
        var p := Packet(turns[0].written, turns[0].addr);
        assert [p] + rest.resolved + SlotSeq(rest.slot) == [p] + (rest.resolved + SlotSeq(rest.slot));
      }
    }
  }

  predicate Stops(t: Turn) {
    t.Disconnected? || (t.PacketReady? && t.status.SocketFull?)
  }

  /** The packets picoquic has for the connections of these turns. */
  function Packets(turns: seq<Turn>): seq<Packet> {
    if turns == [] then []
    else (if turns[0].PacketReady? then [Packet(turns[0].written, turns[0].addr)] else []) + Packets(turns[1..])
  }

  /** A round takes every packet there is up to the first connection that is gone or the first packet
      for which the socket is full, and that one packet is left in the slot. */
  lemma {:induction false} SendTurnsTakeAll(turns: seq<Turn>, n: nat)
    requires n <= |turns| && (forall i :: 0 <= i < n ==> !Stops(turns[i])) && (n < |turns| ==> Stops(turns[n]))
    ensures var s := SendTurns(turns);
      && s.resolved == Packets(turns[..n])
      && s.slot == if n < |turns| && turns[n].PacketReady? then Some(Packet(turns[n].written, turns[n].addr)) else None
    decreases n
  {
    if n > 0 {
      var rest := turns[1..];
      assert forall i :: 0 <= i < n - 1 ==> rest[i] == turns[i + 1];
      assert n < |turns| ==> rest[n - 1] == turns[n];
      SendTurnsTakeAll(rest, n - 1);
      assert turns[..n][0] == turns[0] && turns[..n][1..] == rest[..n - 1];
    }
  }

  /** Packets leave in the order they were prepared, each once, and nothing new is prepared before
      the waiting packet is gone. */
  lemma SendRoundConserves(slot: Option<Packet>, retry: SendStatus, turns: seq<Turn>)
    ensures var r := SendRound(slot, retry, turns);
      && r.resolved + SlotSeq(r.slot) == SlotSeq(slot) + r.prepared
      && (slot.Some? && r.prepared != [] ==> r.resolved != [] && r.resolved[0] == slot.value)
      && (slot.Some? && retry.SocketFull? ==> r == Sent([], slot, []))
  {
    SendTurnsConserve(turns);
    var rest := SendTurns(turns);
    assert SlotSeq(slot) + rest.resolved + SlotSeq(rest.slot) == SlotSeq(slot) + (rest.resolved + SlotSeq(rest.slot));
  }

  /** A round whose waiting packet is gone sends that packet and then everything picoquic has, up to
      the first connection that is gone or the first packet for which the socket is full. */
  lemma SendRoundTakesAll(slot: Option<Packet>, retry: SendStatus, turns: seq<Turn>, n: nat)
    requires slot.None? || !retry.SocketFull?
    requires n <= |turns| && (forall i :: 0 <= i < n ==> !Stops(turns[i])) && (n < |turns| ==> Stops(turns[n]))
    ensures var s := SendRound(slot, retry, turns);
      && s.resolved == SlotSeq(slot) + Packets(turns[..n])
      && s.slot == if n < |turns| && turns[n].PacketReady? then Some(Packet(turns[n].written, turns[n].addr)) else None
  {
    SendTurnsTakeAll(turns, n);
  }

  // ---------------------------------------------------------------- rounds of the driver

  /** One round: what is received, then what is sent. */
  datatype RoundIo = RoundIo(receipts: seq<Receipt>, retry: SendStatus, turns: seq<Turn>)

  /** The buffer, the waiting packet's length and address, and two histories. */
  datatype Io = Io(buffer: Bytes, waiting: Option<(nat, nat)>, resolved: seq<Packet>, prepared: seq<Packet>)

  function SlotOf(io: Io): Option<Packet> {
    if io.waiting.Some? && io.waiting.value.0 <= |io.buffer| then
      Some(Packet(io.buffer[..io.waiting.value.0], io.waiting.value.1))
    else None
  }

  function SlotRecord(slot: Option<Packet>): Option<(nat, nat)> {
    if slot.Some? then Some((|slot.value.bytes|, slot.value.addr)) else None
  }

  function SendIo(io: Io, retry: SendStatus, turns: seq<Turn>): Io {
    var s := SendRound(SlotOf(io), retry, turns);
    Io(if SlotOf(io).Some? && retry.SocketFull? then io.buffer else TurnBuffer(io.buffer, turns),
       SlotRecord(s.slot),
       io.resolved + s.resolved,
       io.prepared + s.prepared)
  }

  function Received(io: Io, receipts: seq<Receipt>): Io {
    io.(buffer := ReceiveAll(io.buffer, receipts))
  }

  function DoRound(io: Io, r: RoundIo): Io {
    SendIo(Received(io, r.receipts), r.retry, r.turns)
  }

  ghost predicate Fits(r: RoundIo, size: nat) {
    forall i :: 0 <= i < |r.turns| ==> |Written(r.turns[i])| <= size
  }

  /** The packets that left, followed by the one that waits, are the packets prepared. */
  ghost predicate IoInv(io: Io) {
    && (io.waiting.Some? ==> io.waiting.value.0 <= |io.buffer|)
    && io.resolved + SlotSeq(SlotOf(io)) == io.prepared
  }

  // ---------------------------------------------------------------- the driver object

  class ContextInner {
    var buffer: array<Byte>
    var notSendLength: Option<(nat, nat)>
    /** History: the packets the socket took or refused for good, and those picoquic prepared. */
    ghost var resolved: seq<Packet>
    ghost var prepared: seq<Packet>

    constructor (size: nat)
      ensures Valid() && fresh(buffer) && buffer.Length == size && notSendLength.None? && IoInv(View())
    {
      buffer := new Byte[size](_ => 0);
      notSendLength, resolved, prepared := None, [], [];
    }

    ghost function View(): Io
      reads this, buffer
    {
      Io(buffer[..], notSendLength, resolved, prepared)
    }

    ghost predicate Valid()
      reads this
    {
      notSendLength.Some? ==> notSendLength.value.0 <= buffer.Length
    }

    /** Puts data at the front of the buffer. */
    method Fill(data: Bytes)
      modifies buffer
      ensures buffer[..] == Write(old(buffer[..]), data)
    {
      var n := Min(|data|, buffer.Length);
      forall i | 0 <= i < n {
        buffer[i] := data[i];
      }
      assert buffer[..] == data[..n] + old(buffer[..])[n..];
    }

    method SendDataInBuffer(len: nat, addr: nat, status: SendStatus) returns (sent: bool)
      requires len <= buffer.Length && notSendLength.None?
      modifies this`notSendLength, this`resolved
      ensures Valid() && sent == !status.SocketFull?
      ensures sent ==> notSendLength.None? && resolved == old(resolved) + [Packet(buffer[..len], addr)]
      ensures !sent ==> notSendLength == Some((len, addr)) && resolved == old(resolved)
    {
      if status.SocketFull? {
        notSendLength := Some((len, addr));
        sent := false;
      } else {
        resolved := resolved + [Packet(buffer[..len], addr)];
        sent := true;
      }
    }

    /** A packet that picoquic just prepared in the buffer. */
    method SendFresh(written: Bytes, addr: nat, status: SendStatus) returns (sent: bool)
      requires |written| <= buffer.Length && notSendLength.None?
      modifies this`notSendLength, this`resolved, this`prepared, buffer
      ensures Valid() && sent == !status.SocketFull? && buffer[..] == Write(old(buffer[..]), written)
      ensures prepared == old(prepared) + [Packet(written, addr)]
      ensures sent ==> notSendLength.None? && resolved == old(resolved) + [Packet(written, addr)]
      ensures !sent ==> notSendLength == Some((|written|, addr)) && resolved == old(resolved)
    {
      Fill(written);
      assert buffer[..|written|] == written;
      prepared := prepared + [Packet(written, addr)];
      sent := SendDataInBuffer(|written|, addr, status);
    }

    /** The loop over the connections that have something to do. */
    method SendPrepared(turns: seq<Turn>)
      requires notSendLength.None? && forall i :: 0 <= i < |turns| ==> |Written(turns[i])| <= buffer.Length
      modifies this`notSendLength, this`resolved, this`prepared, buffer
      ensures Valid()
      ensures notSendLength == SlotRecord(SendTurns(turns).slot)
      ensures resolved == old(resolved) + SendTurns(turns).resolved
      ensures prepared == old(prepared) + SendTurns(turns).prepared
      ensures buffer[..] == TurnBuffer(old(buffer[..]), turns)
    {
      assert turns[0..] == turns;
      for i := 0 to |turns|
        invariant notSendLength.None?
        invariant resolved + SendTurns(turns[i..]).resolved == old(resolved) + SendTurns(turns).resolved
        invariant prepared + SendTurns(turns[i..]).prepared == old(prepared) + SendTurns(turns).prepared
        invariant SendTurns(turns[i..]).slot == SendTurns(turns).slot
        invariant TurnBuffer(buffer[..], turns[i..]) == TurnBuffer(old(buffer[..]), turns)
      {
        TurnsFrom(turns, i);
        match turns[i]
        case Disconnected =>
          return;
        case NoPacket(written) =>
          Fill(written);
        case PacketReady(written, addr, status) =>
          ghost var rest := SendTurns(turns[i + 1..]);
          PacketAssoc(resolved, Packet(written, addr), rest.resolved);
          PacketAssoc(prepared, Packet(written, addr), rest.prepared);
          var sent := SendFresh(written, addr, status);
          if !sent {
            return;
          }
      }
      assert turns[|turns|..] == [];
    }

    method SendConnectionPackets(retry: SendStatus, turns: seq<Turn>)
      requires Valid() && forall i :: 0 <= i < |turns| ==> |Written(turns[i])| <= buffer.Length
      modifies this`notSendLength, this`resolved, this`prepared, buffer
      ensures Valid() && View() == SendIo(old(View()), retry, turns)
    {
      if notSendLength.Some? {
        var (len, addr) := notSendLength.value;
        notSendLength := None;
        var sent := SendDataInBuffer(len, addr, retry);
        if !sent {
          assert SlotOf(old(View())) == Some(Packet(buffer[..len], addr));
          return;
        }
      }
      SendPrepared(turns);
      assert resolved == old(resolved) + (SlotSeq(SlotOf(old(View()))) + SendTurns(turns).resolved);
    }

    /** Every waiting datagram is received into the same buffer and processed there. */
    method CheckForIncomingData(receipts: seq<Receipt>)
      requires Valid()
      modifies buffer
      ensures Valid() && View() == Received(old(View()), receipts)
    {
      for i := 0 to |receipts|
        invariant ReceiveAll(buffer[..], receipts[i..]) == ReceiveAll(old(buffer[..]), receipts)
      {
        var r := receipts[i];
        assert receipts[i..][0] == r && receipts[i..][1..] == receipts[i + 1..];
        ProcessInPlace(buffer[..], r);
        Fill(r.datagram);
        Fill(r.left[..Min(|r.left|, |r.datagram|)]);
      }
      assert receipts[|receipts|..] == [];
    }

    /** The part of the driver's loop that uses the buffer. */
    method PollIo(r: RoundIo)
      requires Valid() && Fits(r, buffer.Length)
      modifies this`notSendLength, this`resolved, this`prepared, buffer
      ensures Valid() && View() == DoRound(old(View()), r)
    {
      CheckForIncomingData(r.receipts);
      SendConnectionPackets(r.retry, r.turns);
    }
  }

  // ---------------------------------------------------------------- receiving over a waiting packet

  /** The waiting packet survives a receive exactly when at each of its positions the last datagram
      that reaches it has, once picoquic is done with it, the very byte of the packet there: so
      always if nothing is received. */
  lemma PacketSurvivesIff(buffer: Bytes, receipts: seq<Receipt>, len: nat)
    requires len <= |buffer|
    ensures ReceiveAll(buffer, receipts)[..len] == buffer[..len]
       <==> forall j :: 0 <= j < len && LastOver(receipts, j) > 0 ==>
              LeftAt(receipts[LastOver(receipts, j) - 1], j) == buffer[j]
  {
    var after := ReceiveAll(buffer, receipts);
    forall j | 0 <= j < len
      ensures after[j] == if LastOver(receipts, j) == 0 then buffer[j]
                          else LeftAt(receipts[LastOver(receipts, j) - 1], j)
    {
      ReceivedAt(buffer, receipts, j);
    }
    if after[..len] == buffer[..len] {
      forall j | 0 <= j < len && LastOver(receipts, j) > 0
        ensures LeftAt(receipts[LastOver(receipts, j) - 1], j) == buffer[j]
      {
        assert after[..len][j] == buffer[..len][j];
      }
    }
  }

  // ---------------------------------------------------------------- runs of rounds

  function DoRounds(io: Io, rounds: seq<RoundIo>): Io
    decreases |rounds|
  {
    if rounds == [] then io else DoRounds(DoRound(io, rounds[0]), rounds[1..])
  }

  /** A waiting packet outlives the reception: at each of its positions the last datagram to reach it
      leaves the packet's byte. */
  predicate Survives(io: Io, receipts: seq<Receipt>) {
    SlotOf(io).Some? ==>
      forall j :: 0 <= j < io.waiting.value.0 && LastOver(receipts, j) > 0 ==>
        LeftAt(receipts[LastOver(receipts, j) - 1], j) == io.buffer[j]
  }

  lemma SurvivesIff(io: Io, receipts: seq<Receipt>)
    ensures Survives(io, receipts) <==> SlotOf(Received(io, receipts)) == SlotOf(io)
  {
    if SlotOf(io).Some? { PacketSurvivesIff(io.buffer, receipts, io.waiting.value.0); }
  }

  /** The waiting packets of a run outlive its receptions. */
  predicate Undisturbed(io: Io, rounds: seq<RoundIo>)
    decreases |rounds|
  {
    rounds == [] || (Survives(io, rounds[0].receipts) && Undisturbed(DoRound(io, rounds[0]), rounds[1..]))
  }

  lemma {:induction false} TurnBufferHoldsSlot(buffer: Bytes, turns: seq<Turn>)
    requires forall i :: 0 <= i < |turns| ==> |Written(turns[i])| <= |buffer|
    ensures var s := SendTurns(turns).slot;
      s.Some? ==> |s.value.bytes| <= |buffer| && TurnBuffer(buffer, turns)[..|s.value.bytes|] == s.value.bytes
    decreases |turns|
  {
    if turns != [] && !turns[0].Disconnected? {
      if !(turns[0].PacketReady? && turns[0].status.SocketFull?) {
        forall i | 0 <= i < |turns[1..]| ensures |Written(turns[1..][i])| <= |buffer| {
          assert turns[1..][i] == turns[i + 1];
        }
        TurnBufferHoldsSlot(Write(buffer, turns[0].written), turns[1..]);
      } else {
        assert |Written(turns[0])| <= |buffer|;
      }
    }
  }

  /** Only one packet can be in the same place of two such lists. */
  lemma SamePlace(a: seq<Packet>, x: Packet, y: Packet, b: seq<Packet>)
    ensures a + [x] + b == a + [y] + b <==> x == y
  {
    assert (a + [x] + b)[|a|] == x && (a + [y] + b)[|a|] == y;
  }

  /** What a round sends and keeps, in terms of the packet it finds in the slot. */
  lemma RoundSends(io: Io, r: RoundIo)
    requires Fits(r, |io.buffer|)
    ensures var t := DoRound(io, r);
      var s := SendRound(SlotOf(Received(io, r.receipts)), r.retry, r.turns);
      && |t.buffer| == |io.buffer| && (t.waiting.Some? ==> t.waiting.value.0 <= |t.buffer|)
      && t.prepared == io.prepared + s.prepared
      && t.resolved + SlotSeq(SlotOf(t)) == io.resolved + SlotSeq(SlotOf(Received(io, r.receipts))) + s.prepared
  {
    var received := Received(io, r.receipts);
    var slot := SlotOf(received);
    var s := SendRound(slot, r.retry, r.turns);
    var t := DoRound(io, r);
    SendRoundConserves(slot, r.retry, r.turns);
    TurnBufferHoldsSlot(received.buffer, r.turns);
    assert SlotOf(t) == s.slot;
    assert io.resolved + s.resolved + SlotSeq(s.slot) == io.resolved + (s.resolved + SlotSeq(s.slot));
    assert io.resolved + (SlotSeq(slot) + s.prepared) == io.resolved + SlotSeq(slot) + s.prepared;
  }

  /** A round keeps the packets in order exactly if the waiting packet outlives the reception. */
  lemma RoundKeepsIff(io: Io, r: RoundIo)
    requires IoInv(io) && Fits(r, |io.buffer|)
    ensures IoInv(DoRound(io, r)) <==> Survives(io, r.receipts)
    ensures |DoRound(io, r).buffer| == |io.buffer|
  {
    var slot, slot' := SlotOf(io), SlotOf(Received(io, r.receipts));
    var s := SendRound(slot', r.retry, r.turns);
    RoundSends(io, r);
    SurvivesIff(io, r.receipts);
    if slot.Some? { SamePlace(io.resolved, slot'.value, slot.value, s.prepared); }
  }

  /** At every point of a run of rounds the packets given to the socket, followed by the one that
      waits, are the prepared packets, byte for byte, in order, each exactly once: if and only if
      every waiting packet outlived the receptions. */
  lemma {:induction false} PacketsLeaveAsPrepared(io: Io, rounds: seq<RoundIo>)
    requires IoInv(io) && forall i :: 0 <= i < |rounds| ==> Fits(rounds[i], |io.buffer|)
    ensures (forall k :: 0 <= k <= |rounds| ==> IoInv(DoRounds(io, rounds[..k]))) <==> Undisturbed(io, rounds)
    decreases |rounds|
  {
    if rounds != [] {
      var t, rest := DoRound(io, rounds[0]), rounds[1..];
      RoundKeepsIff(io, rounds[0]);
      if IoInv(t) { PacketsLeaveAsPrepared(t, rest); }
      forall k | 0 <= k <= |rest| ensures DoRounds(io, rounds[..k + 1]) == DoRounds(t, rest[..k]) {
        assert rounds[..k + 1][1..] == rest[..k];
      }
      assert DoRounds(t, rest[..0]) == t;
      if Undisturbed(io, rounds) {
        forall k | 0 <= k <= |rounds| ensures IoInv(DoRounds(io, rounds[..k])) {
          if k > 0 { assert DoRounds(io, rounds[..k - 1 + 1]) == DoRounds(t, rest[..k - 1]); }
        }
      }
      if forall k :: 0 <= k <= |rounds| ==> IoInv(DoRounds(io, rounds[..k])) {
        assert IoInv(DoRounds(io, rounds[..0 + 1]));
        forall k | 0 <= k <= |rest| ensures IoInv(DoRounds(t, rest[..k])) {
          assert IoInv(DoRounds(io, rounds[..k + 1]));
        }
      }
    }
  }

  /** What leaves when a datagram arrives while the packet [1, 2] waits. */
  lemma SentAfterReceipt(r: Receipt)
    ensures var io := Io([0, 0], None, [], []);
      var full := RoundIo([], SocketTook, [PacketReady([1, 2], 7, SocketFull)]);
      var t := DoRounds(io, [full, RoundIo([r], SocketTook, [])]);
      t.prepared == [Packet([1, 2], 7)] && t.resolved == [Packet(Write([1, 2], Processed(r)), 7)]
  {
    var io := Io([0, 0], None, [], []);
    var full := RoundIo([], SocketTook, [PacketReady([1, 2], 7, SocketFull)]);
    var disturbed := RoundIo([r], SocketTook, []);
    var t1 := DoRound(io, full);
    assert t1.waiting == Some((2, 7)) && t1.prepared == [Packet([1, 2], 7)];
    assert t1.buffer == [1, 2];
    assert [r][1..] == [];
    var after := Write(t1.buffer, Processed(r));
    assert ReceiveAll(t1.buffer, [r]) == ReceiveAll(after, []) == after;
    var t2 := DoRound(t1, disturbed);
    assert after[..2] == after;
    assert t2.resolved == [Packet(after, 7)];
    assert [full, disturbed][1..] == [disturbed] && [disturbed][1..] == [];
    assert DoRounds(io, [full, disturbed]) == DoRounds(t1, [disturbed]) == DoRounds(t2, []);
  }

  /** A datagram that arrives while a packet waits is sent in its place, and so is what picoquic
      makes of it, even if the datagram was equal to the packet. */
  lemma ReceiveCorruptsWaitingPacket()
    ensures var io := Io([0, 0], None, [], []);
      var full := RoundIo([], SocketTook, [PacketReady([1, 2], 7, SocketFull)]);
      var t := DoRounds(io, [full, RoundIo([Receipt([9], [])], SocketTook, [])]);
      var u := DoRounds(io, [full, RoundIo([Receipt([1, 2], [8])], SocketTook, [])]);
      && t.prepared == u.prepared == [Packet([1, 2], 7)]
      && t.resolved == [Packet([9, 2], 7)] && u.resolved == [Packet([8, 2], 7)]
  {
    SentAfterReceipt(Receipt([9], []));
    SentAfterReceipt(Receipt([1, 2], [8]));
    assert Processed(Receipt([9], [])) == [9] && Processed(Receipt([1, 2], [8])) == [8, 2];
    assert Write([1, 2], [9]) == [9, 2] && Write([1, 2], [8, 2]) == [8, 2];
  }
}
