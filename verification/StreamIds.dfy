/** Stream identifiers: how they are generated and what their two lowest bits mean
    (section 2.1 of RFC 9000). */
module StreamIds {

  datatype StreamType = Unidirectional | Bidirectional

  const U64: nat := 0x1_0000_0000_0000_0000
  const U62: nat := 0x4000_0000_0000_0000
  const U60: nat := 0x1000_0000_0000_0000

  /** Bit 1 of the id. */
  predicate IsUnidirectional(id: nat) {
    id / 2 % 2 != 0
  }

  /** Bit 0 of the id is clear. */
  predicate IsClientInitiated(id: nat) {
    id % 2 == 0
  }

  predicate IsUnidirectionalSendAllowed(id: nat, isClientCon: bool) {
    if IsClientInitiated(id) then isClientCon else !isClientCon
  }

  /** Whether `create_send_and_recv_data` makes a send channel for this end. */
  predicate CanSend(id: nat, isClientCon: bool) {
    !(IsUnidirectional(id) && !IsUnidirectionalSendAllowed(id, isClientCon))
  }

  predicate CanReceive(id: nat, isClientCon: bool) {
    !(IsUnidirectional(id) && IsUnidirectionalSendAllowed(id, isClientCon))
  }

  /** The stream was opened by the end that `isClientCon` describes. */
  predicate IsLocallyInitiated(id: nat, isClientCon: bool) {
    IsClientInitiated(id) == isClientCon
  }

  /** 64-bit arithmetic: the addition wraps and the shift drops the two highest bits. */
  function GenerateStreamId(nextId: nat, isClient: bool, stype: StreamType): (id: nat)
    ensures id < U64
  {
    var shifted := (nextId + 1) % U64 * 4 % U64;
    shifted + (if isClient then 0 else 1) + (if stype.Unidirectional? then 2 else 0)
  }

  lemma GeneratedIdForm(nextId: nat, isClient: bool, stype: StreamType)
    ensures GenerateStreamId(nextId, isClient, stype)
         == (nextId + 1) % U62 * 4 + (if isClient then 0 else 1) + (if stype.Unidirectional? then 2 else 0)
  {
    var n := nextId + 1;
    assert n == n / U64 * U64 + n % U64;
    assert n % U64 == (n % U64) / U62 * U62 + (n % U64) % U62;
    assert (n % U64) % U62 == n % U62;
  }

  /** The two low bits of a generated id always give back who generated it and for which type. */
  lemma GeneratedIdDecodes(nextId: nat, isClient: bool, stype: StreamType)
    ensures var id := GenerateStreamId(nextId, isClient, stype);
      && IsClientInitiated(id) == isClient
      && IsUnidirectional(id) == stype.Unidirectional?
      && IsLocallyInitiated(id, isClient)
      && CanSend(id, isClient)
  {
    GeneratedIdForm(nextId, isClient, stype);
  }

  /** Exactly when a generated id is outside the reserved ids 0 to 3, and exactly when it is an
      id that QUIC can carry. */
  lemma GeneratedIdRange(nextId: nat, isClient: bool, stype: StreamType)
    ensures 4 <= GenerateStreamId(nextId, isClient, stype) <==> (nextId + 1) % U62 != 0
    ensures nextId + 1 < U62 ==> (GenerateStreamId(nextId, isClient, stype) < U62 <==> nextId + 1 < U60)
  {
    GeneratedIdForm(nextId, isClient, stype);
  }

  /** Two generated ids are equal exactly when the counters agree modulo 2^62 and both ends and
      types agree: the counter may be increased by one for each id until it wraps. */
  lemma GeneratedIdsCollide(a: nat, aClient: bool, aType: StreamType, b: nat, bClient: bool, bType: StreamType)
    ensures GenerateStreamId(a, aClient, aType) == GenerateStreamId(b, bClient, bType)
       <==> (a + 1) % U62 == (b + 1) % U62 && aClient == bClient && aType == bType
  {
    GeneratedIdForm(a, aClient, aType);
    GeneratedIdForm(b, bClient, bType);
    GeneratedIdDecodes(a, aClient, aType);
    GeneratedIdDecodes(b, bClient, bType);
  }

  /** Below 2^62 a larger counter gives a larger id, whatever the two types are. */
  lemma GeneratedIdsIncrease(a: nat, b: nat, isClient: bool, aType: StreamType, bType: StreamType)
    requires a < b && b + 1 < U62
    ensures 4 <= GenerateStreamId(a, isClient, aType) < GenerateStreamId(b, isClient, bType)
  {
    GeneratedIdForm(a, isClient, aType);
    GeneratedIdForm(b, isClient, bType);
  }
}
