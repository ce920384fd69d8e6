/** The cursors that write and read a channel account, and serialize and deserialize built on them. */
module StateCursors {
  import opened Tables
  import opened Channels
  import opened LittleEndian
  import opened StateCodec

  /** Fills a buffer from the front.  `goal` is what the buffer is meant to hold in the end. */
  class Writer {
    const output: array<byte>
    var offset: nat
    ghost const goal: seq<byte>

    ghost predicate Valid()
      reads this, output
    {
      offset <= output.Length == |goal| && output[..offset] == goal[..offset]
    }

    /** What is still to be written. */
    ghost function Pending(): seq<byte>
      requires offset <= |goal|
      reads this
    {
      goal[offset..]
    }

    constructor (output: array<byte>, ghost goal: seq<byte>)
      requires output.Length == |goal|
      ensures Valid() && Pending() == goal && this.output == output && this.goal == goal
    {
      this.output, this.offset, this.goal := output, 0, goal;
    }

    method Bytes(value: seq<byte>, ghost tail: seq<byte>)
      requires Valid() && Pending() == value + tail
      modifies this`offset, output
      ensures Valid() && Pending() == tail
    {
      assert |goal| - offset == |value| + |tail|;
      for i := 0 to |value|
        invariant offset == old(offset) && offset + |value| <= output.Length
        invariant output[..offset + i] == goal[..offset + i]
      {
        assert goal[offset + i] == goal[offset..][i] == value[i];
        output[offset + i] := value[i];
        assert output[..offset + i + 1] == output[..offset + i] + [value[i]];
      }
      offset := offset + |value|;
      assert goal[offset..] == (value + tail)[|value|..];
    }

    method U8(value: byte, ghost tail: seq<byte>)
      requires Valid() && Pending() == [value] + tail
      modifies this`offset, output
      ensures Valid() && Pending() == tail
    {
      Bytes([value], tail);
    }

    method U16(value: u16, ghost tail: seq<byte>)
      requires Valid() && Pending() == ToBytes(value, 2) + tail
      modifies this`offset, output
      ensures Valid() && Pending() == tail
    {
      Bytes(ToBytes(value, 2), tail);
    }

    method U32(value: u32, ghost tail: seq<byte>)
      requires Valid() && Pending() == ToBytes(value, 4) + tail
      modifies this`offset, output
      ensures Valid() && Pending() == tail
    {
      Bytes(ToBytes(value, 4), tail);
    }

    method U64(value: u64, ghost tail: seq<byte>)
      requires Valid() && Pending() == ToBytes(value, 8) + tail
      modifies this`offset, output
      ensures Valid() && Pending() == tail
    {
      Bytes(ToBytes(value, 8), tail);
    }

    method I64(value: i64, ghost tail: seq<byte>)
      requires Valid() && Pending() == ToBytes(Unsigned(value), 8) + tail
      modifies this`offset, output
      ensures Valid() && Pending() == tail
    {
      Bytes(ToBytes(Unsigned(value), 8), tail);
    }

    method WriteHeader(h: Header, ghost tail: seq<byte>)
      requires Valid() && Pending() == PutHeader(h, tail)
      modifies this`offset, output
      ensures Valid() && Pending() == tail
    {
      ghost var b6 := ToBytes(h.policyFlags, 4) + tail;
      ghost var b5 := ToBytes(h.programVersion, 2) + b6;
      ghost var b4 := [1] + b5;
      ghost var b3 := [EnvironmentCode(h.environment)] + b4;
      ghost var b2 := [StatusCode(h.status)] + b3;
      ghost var b1 := [h.bump] + b2;
      Bytes(DISCRIMINATOR, ToBytes(h.version, 2) + b1);
      U16(h.version, b1);
      U8(h.bump, b2);
      U8(StatusCode(h.status), b3);
      U8(EnvironmentCode(h.environment), b4);
      U8(1, b5);
      U16(h.programVersion, b6);
      U32(h.policyFlags, tail);
    }

    method WriteIdentity(x: Identity, ghost tail: seq<byte>)
      requires Valid() && Pending() == PutIdentity(x, tail)
      modifies this`offset, output
      ensures Valid() && Pending() == tail
    {
      ghost var b3 := ToBytes(x.epoch, 8) + tail;
      ghost var b2 := x.idHash + b3;
      Bytes(x.genesisHash, x.nonce + b2);
      Bytes(x.nonce, b2);
      Bytes(x.idHash, b3);
      U64(x.epoch, tail);
    }

    method WriteParties(p: Parties, ghost tail: seq<byte>)
      requires Valid() && Pending() == PutParties(p, tail)
      modifies this`offset, output
      ensures Valid() && Pending() == tail
    {
      ghost var b7 := [p.decimals] + tail;
      ghost var b6 := p.vaultAccount + b7;
      ghost var b5 := p.mint + b6;
      ghost var b4 := p.bindingNonce + b5;
      ghost var b3 := [p.recipientBound] + b4;
      ghost var b2 := p.recipientWallet + b3;
      Bytes(p.sender, p.recipientClaim + b2);
      Bytes(p.recipientClaim, b2);
      Bytes(p.recipientWallet, b3);
      U8(p.recipientBound, b4);
      Bytes(p.bindingNonce, b5);
      Bytes(p.mint, b6);
      Bytes(p.vaultAccount, b7);
      U8(p.decimals, tail);
    }

    method WriteTotals(t: Totals, ghost tail: seq<byte>)
      requires Valid() && Pending() == PutTotals(t, tail)
      modifies this`offset, output
      ensures Valid() && Pending() == tail
    {
      ghost var b5 := t.voucherHash + tail;
      ghost var b4 := ToBytes(t.sequence, 8) + b5;
      ghost var b3 := ToBytes(t.refunded, 8) + b4;
      ghost var b2 := ToBytes(t.settled, 8) + b3;
      U64(t.funded, ToBytes(t.activated, 8) + b2);
      U64(t.activated, b2);
      U64(t.settled, b3);
      U64(t.refunded, b4);
      U64(t.sequence, b5);
      Bytes(t.voucherHash, tail);
    }

    method WriteTimed(t: Timed, ghost tail: seq<byte>)
      requires Valid() && Pending() == PutTimed(t, tail)
      modifies this`offset, output
      ensures Valid() && Pending() == tail
    {
      U8(t.flag, ToBytes(Unsigned(t.value), 8) + tail);
      I64(t.value, tail);
    }

    method WriteTimes(t: Times, ghost tail: seq<byte>)
      requires Valid() && Pending() == PutTimes(t, tail)
      modifies this`offset, output
      ensures Valid() && Pending() == tail
    {
      ghost var b3 := PutTimed(t.claimDeadline, tail);
      ghost var b2 := PutTimed(t.closeRequested, b3);
      WriteTimed(t.channelExpiry, PutTimed(t.voucherExpiry, b2));
      WriteTimed(t.voucherExpiry, b2);
      WriteTimed(t.closeRequested, b3);
      WriteTimed(t.claimDeadline, tail);
    }

    method WriteState(s: ChannelState)
      requires Valid() && Pending() == Layout(s)
      modifies this`offset, output
      ensures Valid() && Pending() == []
    {
      ghost var b4 := PutTimes(s.times, s.reserved);
      ghost var b3 := PutTotals(s.totals, b4);
      WriteHeader(s.header, LayoutRest(s));
      WriteIdentity(s.identity, PutParties(s.parties, b3));
      WriteParties(s.parties, b3);
      WriteTotals(s.totals, b4);
      WriteTimes(s.times, s.reserved);
      assert s.reserved == s.reserved + [];
      Bytes(s.reserved, []);
    }
  }

  /** Takes a fixed-width input apart from the front. */
  class Reader {
    const input: seq<byte>
    var offset: nat

    /** What is still to be read. */
    ghost function Left(): seq<byte>
      requires offset <= |input|
      reads this
    {
      input[offset..]
    }

    constructor (input: seq<byte>)
      ensures offset == 0 && this.input == input && Left() == input
    {
      this.input, this.offset := input, 0;
    }

    method Array(n: nat) returns (value: seq<byte>)
      requires offset + n <= |input|
      modifies this`offset
      ensures offset == old(offset) + n
      ensures value == old(Left())[..n] && Left() == old(Left())[n..]
    {
      value := input[offset..offset + n];
      offset := offset + n;
    }

    method U8() returns (value: byte)
      requires offset + 1 <= |input|
      modifies this`offset
      ensures offset == old(offset) + 1
      ensures value == old(Left())[0] && Left() == old(Left())[1..]
    {
      var bytes := Array(1);
      value := bytes[0];
    }

    method U16() returns (value: u16)
      requires offset + 2 <= |input|
      modifies this`offset
      ensures offset == old(offset) + 2
      ensures value == U16At(old(Left())) && Left() == old(Left())[2..]
    {
      var bytes := Array(2);
      Spans();
      value := FromBytes(bytes);
    }

    method U32() returns (value: u32)
      requires offset + 4 <= |input|
      modifies this`offset
      ensures offset == old(offset) + 4
      ensures value == U32At(old(Left())) && Left() == old(Left())[4..]
    {
      var bytes := Array(4);
      Spans();
      value := FromBytes(bytes);
    }

    method U64() returns (value: u64)
      requires offset + 8 <= |input|
      modifies this`offset
      ensures offset == old(offset) + 8
      ensures value == U64At(old(Left())) && Left() == old(Left())[8..]
    {
      var bytes := Array(8);
      Spans();
      value := FromBytes(bytes);
    }

    method I64() returns (value: i64)
      requires offset + 8 <= |input|
      modifies this`offset
      ensures offset == old(offset) + 8
      ensures value == Signed(U64At(old(Left()))) && Left() == old(Left())[8..]
    {
      var bits := U64();
      value := Signed(bits);
    }

    method ReadHeader() returns (r: Result<Header, StateError>)
      requires offset == 0 && |input| >= 20
      modifies this`offset
      ensures r == GetHeader(input)
      ensures r.Ok? ==> offset == 20
    {
      ghost var b2 := input[8..][2..];
      var discriminator := Array(8);
      if discriminator != DISCRIMINATOR {
        return Err(WrongDiscriminator);
      }
      var version := U16();
      if version != 1 {
        return Err(UnknownVersion(version));
      }
      assert Left() == b2;
      var bump := U8();
      var statusCode := U8();
      assert statusCode == b2[1];
      var status := StatusOf(statusCode);
      if status.Err? {
        return Err(status.error);
      }
      var environmentCode := U8();
      assert environmentCode == b2[2];
      var environment := EnvironmentOf(environmentCode);
      if environment.Err? {
        return Err(environment.error);
      }
      var networkCode := U8();
      assert networkCode == b2[3];
      var network := NetworkOf(networkCode);
      if network.Err? {
        return Err(network.error);
      }
      assert Left() == b2[4..];
      var programVersion := U16();
      var policyFlags := U32();
      r := Ok(Header(version, bump, status.value, environment.value, network.value, programVersion, policyFlags));
    }

    method ReadIdentity() returns (x: Identity)
      requires offset + 104 <= |input|
      modifies this`offset
      ensures offset == old(offset) + 104 && x == GetIdentity(old(Left()))
    {
      var genesisHash := Array(32);
      var nonce := Array(32);
      var idHash := Array(32);
      var epoch := U64();
      x := Identity(genesisHash, nonce, idHash, epoch);
    }

    method ReadParties() returns (p: Parties)
      requires offset + 194 <= |input|
      modifies this`offset
      ensures offset == old(offset) + 194 && p == GetParties(old(Left()))
    {
      var sender := Array(32);
      var recipientClaim := Array(32);
      var recipientWallet := Array(32);
      var recipientBound := U8();
      var bindingNonce := Array(32);
      var mint := Array(32);
      var vaultAccount := Array(32);
      var decimals := U8();
      p := Parties(sender, recipientClaim, recipientWallet, recipientBound, bindingNonce, mint, vaultAccount, decimals);
    }

    method ReadTotals() returns (t: Totals)
      requires offset + 72 <= |input|
      modifies this`offset
      ensures offset == old(offset) + 72 && t == GetTotals(old(Left()))
    {
      var funded := U64();
      var activated := U64();
      var settled := U64();
      var refunded := U64();
      var sequence := U64();
      var voucherHash := Array(32);
      t := Totals(funded, activated, settled, refunded, sequence, voucherHash);
    }

    method ReadTimed() returns (t: Timed)
      requires offset + 9 <= |input|
      modifies this`offset
      ensures offset == old(offset) + 9 && t == GetTimed(old(Left())) && Left() == old(Left())[9..]
    {
      var flag := U8();
      var value := I64();
      t := Timed(flag, value);
    }

    method ReadTimes() returns (t: Times)
      requires offset + 36 <= |input|
      modifies this`offset
      ensures offset == old(offset) + 36 && t == GetTimes(old(Left()))
    {
      var channelExpiry := ReadTimed();
      var voucherExpiry := ReadTimed();
      var closeRequested := ReadTimed();
      var claimDeadline := ReadTimed();
      t := Times(channelExpiry, voucherExpiry, closeRequested, claimDeadline);
    }
  }

  method Fill(s: ChannelState) returns (b: seq<byte>)
    ensures b == Layout(s)
  {
    var output := new byte[SPACE](i => 0);
    var cursor := new Writer(output, Layout(s));
    cursor.WriteState(s);
    assert output[..] == output[..cursor.offset];
    b := output[..];
  }

  method Serialize(s: ChannelState) returns (r: Result<seq<byte>, StateError>)
    ensures r == Encode(s)
  {
    var bad := ValidateStructure(s);
    if bad.Some? {
      return Err(bad.value);
    }
    var output := Fill(s);
    r := Ok(output);
  }

  method Deserialize(input: seq<byte>) returns (r: Result<ChannelState, StateError>)
    ensures r == Decode(input)
  {
    if |input| != SPACE {
      return Err(WrongLength(|input|));
    }
    var cursor := new Reader(input);
    var header := cursor.ReadHeader();
    if header.Err? {
      return Err(header.error);
    }
    var s := ReadRest(cursor, header.value);
    var bad := ValidateStructure(s);
    r := if bad.Some? then Err(bad.value) else Ok(s);
  }

  method ReadRest(cursor: Reader, header: Header) returns (s: ChannelState)
    requires |cursor.input| == SPACE && cursor.offset == 20
    modifies cursor
    ensures s == Rest(header, cursor.input[20..])
  {
    ghost var b := cursor.input;
    var identity := cursor.ReadIdentity();
    Skip(b, 20, 104);
    var parties := cursor.ReadParties();
    Skip(b, 124, 194);
    var totals := cursor.ReadTotals();
    Skip(b, 318, 72);
    var times := cursor.ReadTimes();
    Skip(b, 390, 36);
    var reserved := cursor.Array(64);
    s := ChannelState(header, identity, parties, totals, times, reserved);
  }

  method DeserializeProgramAccount(input: seq<byte>, owner: Bytes32, program: Bytes32)
    returns (r: Result<ChannelState, StateError>)
    ensures r == DecodeAccount(input, owner, program)
  {
    if owner != program {
      return Err(WrongProgramOwner);
    }
    r := Deserialize(input);
  }
}
