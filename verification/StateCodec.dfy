/** Fixed-width integers as bytes: little-endian, two's complement for i64. */
module LittleEndian {

  type byte = x: int | 0 <= x < 256

  type u64 = x: int | 0 <= x < 0x1_0000_0000_0000_0000

  type i64 = x: int | -0x8000_0000_0000_0000 <= x < 0x8000_0000_0000_0000

  /** 256^n */
  function Span(n: nat): (p: nat)
    ensures p > 0
  {
    if n == 0 then 1 else 256 * Span(n - 1)
  }

  function ToBytes(v: nat, n: nat): (b: seq<byte>)
    ensures |b| == n
  {
    if n == 0 then [] else [v % 256] + ToBytes(v / 256, n - 1)
  }

  function FromBytes(b: seq<byte>): (v: nat)
    ensures v < Span(|b|)
  {
    if |b| == 0 then 0 else b[0] + 256 * FromBytes(b[1..])
  }

  lemma {:induction false} ReadWhatWasWritten(v: nat, n: nat)
    requires v < Span(n)
    ensures FromBytes(ToBytes(v, n)) == v
  {
    if n > 0 {
      ReadWhatWasWritten(v / 256, n - 1);
      assert ToBytes(v, n)[1..] == ToBytes(v / 256, n - 1);
    }
  }

  lemma {:induction false} WriteWhatWasRead(b: seq<byte>)
    ensures ToBytes(FromBytes(b), |b|) == b
  {
    if |b| > 0 {
      WriteWhatWasRead(b[1..]);
      assert FromBytes(b) % 256 == b[0] && FromBytes(b) / 256 == FromBytes(b[1..]);
      assert b == [b[0]] + b[1..];
    }
  }

  lemma Spans()
    ensures Span(2) == 0x1_0000 && Span(4) == 0x1_0000_0000 && Span(8) == 0x1_0000_0000_0000_0000
  {
  }

  function Unsigned(i: i64): (u: u64)
  {
    if i >= 0 then i else i + 0x1_0000_0000_0000_0000
  }

  function Signed(u: u64): (i: i64)
  {
    if u < 0x8000_0000_0000_0000 then u else u - 0x1_0000_0000_0000_0000
  }
}

/** The 490-byte channel account. */
module StateCodec {
  import opened Tables
  import opened Channels
  import opened LittleEndian

  const DISCRIMINATOR: seq<byte> := [74, 132, 141, 196, 64, 52, 83, 136]
  const SPACE: nat := 490

  type u16 = x: int | 0 <= x < 0x1_0000

  type u32 = x: int | 0 <= x < 0x1_0000_0000

  type Bytes32 = b: seq<byte> | |b| == 32 witness seq(32, i => 0)

  type Bytes64 = b: seq<byte> | |b| == 64 witness seq(64, i => 0)

  datatype Environment = LocalValidator | DevnetFixture

  datatype Network = Solana

  datatype Header = Header(
    version: u16, bump: byte, status: Status, environment: Environment, network: Network, programVersion: u16,
    policyFlags: u32)

  datatype Identity = Identity(genesisHash: Bytes32, nonce: Bytes32, idHash: Bytes32, epoch: u64)

  datatype Parties = Parties(
    sender: Bytes32, recipientClaim: Bytes32, recipientWallet: Bytes32, recipientBound: byte, bindingNonce: Bytes32,
    mint: Bytes32, vaultAccount: Bytes32, decimals: byte)

  datatype Totals = Totals(funded: u64, activated: u64, settled: u64, refunded: u64, sequence: u64,
    voucherHash: Bytes32)

  datatype Timed = Timed(flag: byte, value: i64)

  datatype Times = Times(channelExpiry: Timed, voucherExpiry: Timed, closeRequested: Timed, claimDeadline: Timed)

  datatype ChannelState = ChannelState(
    header: Header, identity: Identity, parties: Parties, totals: Totals, times: Times, reserved: Bytes64)

  datatype StateError =
    | WrongProgramOwner | WrongLength(actual: nat) | WrongDiscriminator | UnknownVersion(version: u16)
    | UnknownStatus(code: byte) | UnknownEnvironment(code: byte) | UnknownNetwork(code: byte)
    | UnknownPolicyFlags(flags: u32) | InvalidBoolean(field: string, value: byte)
    | FlagValueMismatch(field: string) | RecipientBindingMismatch | ReservedBytesNonZero

  // ----- codes

  const STATUSES: seq<Status> :=
    [Draft, Funding, Active, Settling, Closing, Closed, Expired, Blocked, Disputed, NeedsRecovery, NeedsReview]

  function StatusCode(s: Status): (c: byte)
    ensures c < 11 && STATUSES[c] == s
  {
    match s
    case Draft => 0
    case Funding => 1
    case Active => 2
    case Settling => 3
    case Closing => 4
    case Closed => 5
    case Expired => 6
    case Blocked => 7
    case Disputed => 8
    case NeedsRecovery => 9
    case NeedsReview => 10
  }

  function StatusOf(c: byte): (r: Result<Status, StateError>)
    ensures r.Ok? ==> StatusCode(r.value) == c
    ensures r.Err? ==> forall s :: StatusCode(s) != c
  {
    if c < 11 then Ok(STATUSES[c]) else Err(UnknownStatus(c))
  }

  function EnvironmentCode(e: Environment): byte { if e.LocalValidator? then 0 else 1 }

  function EnvironmentOf(c: byte): Result<Environment, StateError>
  {
    if c == 0 then Ok(LocalValidator) else if c == 1 then Ok(DevnetFixture) else Err(UnknownEnvironment(c))
  }

  function NetworkOf(c: byte): Result<Network, StateError>
  {
    if c == 1 then Ok(Solana) else Err(UnknownNetwork(c))
  }

  // ----- structure

  function CheckBoolean(field: string, value: byte): Option<StateError>
  {
    if value > 1 then Some(InvalidBoolean(field, value)) else None
  }

  function CheckTimed(field: string, t: Timed): Option<StateError>
  {
    if (t.flag == 0 && t.value != 0) || (t.flag == 1 && t.value <= 0) then Some(FlagValueMismatch(field)) else None
  }

  predicate AllZero(b: seq<byte>) { forall i :: 0 <= i < |b| ==> b[i] == 0 }

  function OrElse(a: Option<StateError>, b: Option<StateError>): Option<StateError> { if a.Some? then a else b }

  function ValidateStructure(s: ChannelState): (bad: Option<StateError>)
    ensures bad.None? <==> Structural(s)
  {
    if s.header.version != 1 then Some(UnknownVersion(s.header.version))
    else if s.header.policyFlags > 3 then Some(UnknownPolicyFlags(s.header.policyFlags))
    else
      var booleans := OrElse(CheckBoolean("recipient_bound", s.parties.recipientBound),
                      OrElse(CheckBoolean("channel_expiry_set", s.times.channelExpiry.flag),
                      OrElse(CheckBoolean("voucher_expiry_set", s.times.voucherExpiry.flag),
                      OrElse(CheckBoolean("close_requested", s.times.closeRequested.flag),
                             CheckBoolean("claim_deadline_set", s.times.claimDeadline.flag)))));
      if booleans.Some? then booleans
      else if (s.parties.recipientBound == 0) != AllZero(s.parties.recipientWallet) then Some(RecipientBindingMismatch)
      else
        var values := OrElse(CheckTimed("channel_expiry", s.times.channelExpiry),
                      OrElse(CheckTimed("voucher_expiry", s.times.voucherExpiry),
                      OrElse(CheckTimed("close_requested_at", s.times.closeRequested),
                             CheckTimed("claim_deadline", s.times.claimDeadline))));
        if values.Some? then values
        else if s.times.claimDeadline.flag == 1 && s.times.closeRequested.flag != 1 then
          Some(FlagValueMismatch("claim_deadline"))
        else if !AllZero(s.reserved) then Some(ReservedBytesNonZero)
        else None
  }

  /** An optional timestamp: absent and zero, or present and positive. */
  predicate Present(t: Timed) { t.flag == 1 && t.value > 0 }

  predicate Optional(t: Timed) { Present(t) || t == Timed(0, 0) }

  predicate Structural(s: ChannelState)
  {
    && s.header.version == 1 && s.header.policyFlags <= 3
    && (if AllZero(s.parties.recipientWallet) then s.parties.recipientBound == 0 else s.parties.recipientBound == 1)
    && Optional(s.times.channelExpiry) && Optional(s.times.voucherExpiry)
    && Optional(s.times.closeRequested) && Optional(s.times.claimDeadline)
    && (Present(s.times.claimDeadline) ==> Present(s.times.closeRequested))
    && AllZero(s.reserved)
  }

  /** The fault a structurally invalid state is refused for is one that it has. */
  predicate FaultOf(s: ChannelState, bad: StateError)
  {
    match bad
    case UnknownVersion(version) => s.header.version == version && version != 1
    case UnknownPolicyFlags(flags) => s.header.policyFlags == flags && flags > 3
    case InvalidBoolean(field, value) => value > 1 && FlagNamed(s, field) == value
    case FlagValueMismatch(field) =>
      || !Optional(TimedNamed(s, field))
      || (field == "claim_deadline" && Present(s.times.claimDeadline) && !Present(s.times.closeRequested))
    case RecipientBindingMismatch => !(s.parties.recipientBound == 0 <==> AllZero(s.parties.recipientWallet))
    case ReservedBytesNonZero => exists i :: 0 <= i < |s.reserved| && s.reserved[i] != 0
    case _ => false
  }

  function FlagNamed(s: ChannelState, field: string): byte
  {
    if field == "recipient_bound" then s.parties.recipientBound
    else if field == "channel_expiry_set" then s.times.channelExpiry.flag
    else if field == "voucher_expiry_set" then s.times.voucherExpiry.flag
    else if field == "close_requested" then s.times.closeRequested.flag
    else s.times.claimDeadline.flag
  }

  function TimedNamed(s: ChannelState, field: string): Timed
  {
    if field == "channel_expiry" then s.times.channelExpiry
    else if field == "voucher_expiry" then s.times.voucherExpiry
    else if field == "close_requested_at" then s.times.closeRequested
    else s.times.claimDeadline
  }

  lemma InvalidForReason(s: ChannelState)
    ensures ValidateStructure(s).Some? ==> FaultOf(s, ValidateStructure(s).value)
  {
  }

  // ----- writing, each section in front of what follows it

  function PutHeader(h: Header, rest: seq<byte>): (b: seq<byte>)
    ensures |b| == 20 + |rest|
  {
    DISCRIMINATOR + (ToBytes(h.version, 2) + ([h.bump] + ([StatusCode(h.status)] + ([EnvironmentCode(h.environment)]
      + ([1] + (ToBytes(h.programVersion, 2) + (ToBytes(h.policyFlags, 4) + rest)))))))
  }

  function PutIdentity(x: Identity, rest: seq<byte>): (b: seq<byte>)
    ensures |b| == 104 + |rest|
  {
    x.genesisHash + (x.nonce + (x.idHash + (ToBytes(x.epoch, 8) + rest)))
  }

  function PutParties(p: Parties, rest: seq<byte>): (b: seq<byte>)
    ensures |b| == 194 + |rest|
  {
    p.sender + (p.recipientClaim + (p.recipientWallet + ([p.recipientBound] + (p.bindingNonce
      + (p.mint + (p.vaultAccount + ([p.decimals] + rest)))))))
  }

  function PutTotals(t: Totals, rest: seq<byte>): (b: seq<byte>)
    ensures |b| == 72 + |rest|
  {
    ToBytes(t.funded, 8) + (ToBytes(t.activated, 8) + (ToBytes(t.settled, 8) + (ToBytes(t.refunded, 8)
      + (ToBytes(t.sequence, 8) + (t.voucherHash + rest)))))
  }

  function PutTimed(t: Timed, rest: seq<byte>): (b: seq<byte>)
    ensures |b| == 9 + |rest|
  {
    [t.flag] + (ToBytes(Unsigned(t.value), 8) + rest)
  }

  function PutTimes(t: Times, rest: seq<byte>): (b: seq<byte>)
    ensures |b| == 36 + |rest|
  {
    PutTimed(t.channelExpiry, PutTimed(t.voucherExpiry, PutTimed(t.closeRequested, PutTimed(t.claimDeadline, rest))))
  }

  function LayoutRest(s: ChannelState): (b: seq<byte>)
    ensures |b| == SPACE - 20
  {
    PutIdentity(s.identity, PutParties(s.parties, PutTotals(s.totals, PutTimes(s.times, s.reserved))))
  }

  function Layout(s: ChannelState): (b: seq<byte>)
    ensures |b| == SPACE
  {
    PutHeader(s.header, LayoutRest(s))
  }

  function Encode(s: ChannelState): (r: Result<seq<byte>, StateError>)
  {
    var bad := ValidateStructure(s);
    if bad.Some? then Err(bad.value) else Ok(Layout(s))
  }

  // ----- reading, each section from the front

  function U16At(b: seq<byte>): u16
    requires |b| >= 2
  {
    Spans();
    FromBytes(b[..2])
  }

  function U32At(b: seq<byte>): u32
    requires |b| >= 4
  {
    Spans();
    FromBytes(b[..4])
  }

  function U64At(b: seq<byte>): u64
    requires |b| >= 8
  {
    Spans();
    FromBytes(b[..8])
  }

  function KeyAt(b: seq<byte>): Bytes32
    requires |b| >= 32
  {
    b[..32]
  }

  function GetHeader(b: seq<byte>): (r: Result<Header, StateError>)
    requires |b| >= 20
  {
    var b1 := b[8..];
    var b2 := b1[2..];
    if b[..8] != DISCRIMINATOR then Err(WrongDiscriminator)
    else if U16At(b1) != 1 then Err(UnknownVersion(U16At(b1)))
    else
      var status, environment, network := StatusOf(b2[1]), EnvironmentOf(b2[2]), NetworkOf(b2[3]);
      if status.Err? then Err(status.error)
      else if environment.Err? then Err(environment.error)
      else if network.Err? then Err(network.error)
      else Ok(Header(U16At(b1), b2[0], status.value, environment.value, network.value, U16At(b2[4..]),
        U32At(b2[4..][2..])))
  }

  function GetIdentity(b: seq<byte>): Identity
    requires |b| >= 104
  {
    var b1 := b[32..];
    var b2 := b1[32..];
    Identity(KeyAt(b), KeyAt(b1), KeyAt(b2), U64At(b2[32..]))
  }

  function GetParties(b: seq<byte>): Parties
    requires |b| >= 194
  {
    var b1 := b[32..];
    var b2 := b1[32..];
    var b3 := b2[32..];
    var b4 := b3[1..];
    var b5 := b4[32..];
    var b6 := b5[32..];
    Parties(KeyAt(b), KeyAt(b1), KeyAt(b2), b3[0], KeyAt(b4), KeyAt(b5), KeyAt(b6), b6[32..][0])
  }

  function GetTotals(b: seq<byte>): Totals
    requires |b| >= 72
  {
    var b1 := b[8..];
    var b2 := b1[8..];
    var b3 := b2[8..];
    var b4 := b3[8..];
    Totals(U64At(b), U64At(b1), U64At(b2), U64At(b3), U64At(b4), KeyAt(b4[8..]))
  }

  function GetTimed(b: seq<byte>): Timed
    requires |b| >= 9
  {
    Timed(b[0], Signed(U64At(b[1..])))
  }

  function GetTimes(b: seq<byte>): Times
    requires |b| >= 36
  {
    Times(GetTimed(b), GetTimed(b[9..]), GetTimed(b[9..][9..]), GetTimed(b[9..][9..][9..]))
  }

  /** Everything after the header, unvalidated. */
  function Rest(header: Header, b: seq<byte>): ChannelState
    requires |b| == SPACE - 20
  {
    var b2 := b[104..];
    var b3 := b2[194..];
    var b4 := b3[72..];
    ChannelState(header, GetIdentity(b), GetParties(b2), GetTotals(b3), GetTimes(b4), b4[36..])
  }

  function Decode(b: seq<byte>): (r: Result<ChannelState, StateError>)
  {
    if |b| != SPACE then Err(WrongLength(|b|))
    else
      var header := GetHeader(b);
      if header.Err? then Err(header.error)
      else
        var s := Rest(header.value, b[20..]);
        var bad := ValidateStructure(s);
        if bad.Some? then Err(bad.value) else Ok(s)
  }

  function DecodeAccount(b: seq<byte>, owner: Bytes32, program: Bytes32): Result<ChannelState, StateError>
  {
    if owner != program then Err(WrongProgramOwner) else Decode(b)
  }

  // ----- one field in front of the rest

  lemma PutU16(v: u16, rest: seq<byte>)
    ensures U16At(ToBytes(v, 2) + rest) == v && (ToBytes(v, 2) + rest)[2..] == rest
  {
    Spans();
    ReadWhatWasWritten(v, 2);
    assert (ToBytes(v, 2) + rest)[..2] == ToBytes(v, 2);
  }

  lemma PutU32(v: u32, rest: seq<byte>)
    ensures U32At(ToBytes(v, 4) + rest) == v && (ToBytes(v, 4) + rest)[4..] == rest
  {
    Spans();
    ReadWhatWasWritten(v, 4);
    assert (ToBytes(v, 4) + rest)[..4] == ToBytes(v, 4);
  }

  lemma PutU64(v: u64, rest: seq<byte>)
    ensures U64At(ToBytes(v, 8) + rest) == v && (ToBytes(v, 8) + rest)[8..] == rest
  {
    Spans();
    ReadWhatWasWritten(v, 8);
    assert (ToBytes(v, 8) + rest)[..8] == ToBytes(v, 8);
  }

  lemma GetU64(b: seq<byte>)
    requires |b| >= 8
    ensures ToBytes(U64At(b), 8) + b[8..] == b
  {
    WriteWhatWasRead(b[..8]);
  }

  lemma PutKey(k: Bytes32, rest: seq<byte>)
    ensures KeyAt(k + rest) == k && (k + rest)[32..] == rest
  {
  }

  lemma Skip(b: seq<byte>, i: nat, j: nat)
    requires i + j <= |b|
    ensures b[i..][j..] == b[i + j..]
  {
  }

  // ----- section round trips

  /** The codes in the middle of the header. */
  function Codes(h: Header, rest: seq<byte>): (b: seq<byte>)
    ensures |b| == 4 + |rest|
  {
    [h.bump] + ([StatusCode(h.status)] + ([EnvironmentCode(h.environment)] + ([1] + rest)))
  }

  lemma HeaderSlices(h: Header, rest: seq<byte>)
    ensures var b := PutHeader(h, rest);
            var b3 := ToBytes(h.policyFlags, 4) + rest;
            var codes := Codes(h, ToBytes(h.programVersion, 2) + b3);
            && b[..8] == DISCRIMINATOR && b[8..] == ToBytes(h.version, 2) + codes && b[8..][2..] == codes
            && codes[4..] == ToBytes(h.programVersion, 2) + b3 && codes[4..][2..] == b3 && b[20..] == rest
  {
    var b, b3 := PutHeader(h, rest), ToBytes(h.policyFlags, 4) + rest;
    var b2 := ToBytes(h.programVersion, 2) + b3;
    var codes := Codes(h, b2);
    assert b == DISCRIMINATOR + (ToBytes(h.version, 2) + codes);
    assert codes[4..] == b2;
    assert b[20..] == rest by {
      Skip(b, 8, 2);
      Skip(b, 10, 4);
      Skip(b, 14, 2);
      Skip(b, 16, 4);
    }
  }

  lemma CodesReadBack(h: Header, rest: seq<byte>)
    ensures var c := Codes(h, rest);
            c[0] == h.bump && StatusOf(c[1]) == Ok(h.status) && EnvironmentOf(c[2]) == Ok(h.environment)
              && NetworkOf(c[3]) == Ok(h.network)
  {
    assert StatusOf(StatusCode(h.status)) == Ok(h.status);
    assert h.network.Solana?;
  }

  lemma HeaderRoundTrip(h: Header, rest: seq<byte>)
    requires h.version == 1
    ensures GetHeader(PutHeader(h, rest)) == Ok(h) && PutHeader(h, rest)[20..] == rest
  {
    var b3 := ToBytes(h.policyFlags, 4) + rest;
    var b2 := ToBytes(h.programVersion, 2) + b3;
    HeaderSlices(h, rest);
    CodesReadBack(h, b2);
    PutU32(h.policyFlags, rest);
    PutU16(h.programVersion, b3);
    PutU16(h.version, Codes(h, b2));
  }

  lemma IdentityRoundTrip(x: Identity, rest: seq<byte>)
    ensures GetIdentity(PutIdentity(x, rest)) == x && PutIdentity(x, rest)[104..] == rest
  {
    var b3 := ToBytes(x.epoch, 8) + rest;
    var b2 := x.idHash + b3;
    PutU64(x.epoch, rest);
    PutKey(x.idHash, b3);
    PutKey(x.nonce, b2);
    PutKey(x.genesisHash, x.nonce + b2);
    var b := PutIdentity(x, rest);
    Skip(b, 32, 32);
    Skip(b, 64, 32);
    Skip(b, 96, 8);
  }

  lemma PartiesRoundTrip(p: Parties, rest: seq<byte>)
    ensures GetParties(PutParties(p, rest)) == p && PutParties(p, rest)[194..] == rest
  {
    var b7 := [p.decimals] + rest;
    var b6 := p.vaultAccount + b7;
    var b5 := p.mint + b6;
    var b4 := p.bindingNonce + b5;
    var b3 := [p.recipientBound] + b4;
    var b2 := p.recipientWallet + b3;
    PutKey(p.vaultAccount, b7);
    PutKey(p.mint, b6);
    PutKey(p.bindingNonce, b5);
    assert b3[1..] == b4;
    PutKey(p.recipientWallet, b3);
    PutKey(p.recipientClaim, b2);
    PutKey(p.sender, p.recipientClaim + b2);
    var b := PutParties(p, rest);
    Skip(b, 32, 32);
    Skip(b, 64, 32);
    Skip(b, 96, 1);
    Skip(b, 97, 32);
    Skip(b, 129, 32);
    Skip(b, 161, 32);
    assert b7[1..] == rest;
    Skip(b, 193, 1);
  }

  lemma TotalsRoundTrip(t: Totals, rest: seq<byte>)
    ensures GetTotals(PutTotals(t, rest)) == t && PutTotals(t, rest)[72..] == rest
  {
    var b5 := t.voucherHash + rest;
    var b4 := ToBytes(t.sequence, 8) + b5;
    var b3 := ToBytes(t.refunded, 8) + b4;
    var b2 := ToBytes(t.settled, 8) + b3;
    var b1 := ToBytes(t.activated, 8) + b2;
    PutKey(t.voucherHash, rest);
    PutU64(t.sequence, b5);
    PutU64(t.refunded, b4);
    PutU64(t.settled, b3);
    PutU64(t.activated, b2);
    PutU64(t.funded, b1);
    var b := PutTotals(t, rest);
    Skip(b, 8, 8);
    Skip(b, 16, 8);
    Skip(b, 24, 8);
    Skip(b, 32, 8);
    Skip(b, 40, 32);
  }

  lemma TimedRoundTrip(t: Timed, rest: seq<byte>)
    ensures GetTimed(PutTimed(t, rest)) == t && PutTimed(t, rest)[9..] == rest
  {
    PutU64(Unsigned(t.value), rest);
    assert PutTimed(t, rest)[1..] == ToBytes(Unsigned(t.value), 8) + rest;
    Skip(PutTimed(t, rest), 1, 8);
  }

  lemma TimesRoundTrip(t: Times, rest: seq<byte>)
    ensures GetTimes(PutTimes(t, rest)) == t && PutTimes(t, rest)[36..] == rest
  {
    var b3 := PutTimed(t.claimDeadline, rest);
    var b2 := PutTimed(t.closeRequested, b3);
    var b1 := PutTimed(t.voucherExpiry, b2);
    TimedRoundTrip(t.claimDeadline, rest);
    TimedRoundTrip(t.closeRequested, b3);
    TimedRoundTrip(t.voucherExpiry, b2);
    TimedRoundTrip(t.channelExpiry, b1);
    assert PutTimes(t, rest)[36..] == PutTimes(t, rest)[9..][9..][9..][9..];
  }

  // ----- and back

  lemma HeaderBack(b: seq<byte>)
    requires |b| >= 20 && GetHeader(b).Ok?
    ensures PutHeader(GetHeader(b).value, b[20..]) == b
  {
    var b1 := b[8..];
    var b2 := b1[2..];
    var b3 := b2[4..];
    WriteWhatWasRead(b1[..2]);
    WriteWhatWasRead(b3[..2]);
    WriteWhatWasRead(b3[2..][..4]);
    assert b3 == b3[..2] + (b3[2..][..4] + b[20..]);
    assert b2 == [b2[0]] + ([b2[1]] + ([b2[2]] + ([b2[3]] + b3)));
    assert b == b[..8] + (b1[..2] + b2);
  }

  lemma IdentityBack(b: seq<byte>)
    requires |b| >= 104
    ensures PutIdentity(GetIdentity(b), b[104..]) == b
  {
    var b2 := b[32..][32..];
    WriteWhatWasRead(b2[32..][..8]);
    assert b2[32..] == b2[32..][..8] + b[104..];
    assert b2 == b2[..32] + b2[32..];
    assert b == b[..32] + (b[32..][..32] + b2);
  }

  lemma PartiesBack(b: seq<byte>)
    requires |b| >= 194
    ensures PutParties(GetParties(b), b[194..]) == b
  {
    var b3 := b[32..][32..][32..];
    var b5 := b3[1..][32..];
    var b6 := b5[32..];
    assert b6[32..] == [b6[32..][0]] + b[194..];
    assert b6 == b6[..32] + b6[32..];
    assert b5 == b5[..32] + b6;
    assert b3 == [b3[0]] + (b3[1..][..32] + b5);
    assert b == b[..32] + (b[32..][..32] + (b[32..][32..][..32] + b3));
  }

  lemma TotalsBack(b: seq<byte>)
    requires |b| >= 72
    ensures PutTotals(GetTotals(b), b[72..]) == b
  {
    var b1 := b[8..];
    var b2 := b1[8..];
    var b3 := b2[8..];
    var b4 := b3[8..];
    assert b4[8..] == KeyAt(b4[8..]) + b[72..] by {
      Skip(b, 8, 8);
      Skip(b, 16, 8);
      Skip(b, 24, 8);
      Skip(b, 32, 8);
      Skip(b, 40, 32);
    }
    GetU64(b4);
    GetU64(b3);
    GetU64(b2);
    GetU64(b1);
    GetU64(b);
  }

  lemma TimedBack(b: seq<byte>)
    requires |b| >= 9
    ensures PutTimed(GetTimed(b), b[9..]) == b
  {
    Spans();
    WriteWhatWasRead(b[1..][..8]);
    assert Unsigned(Signed(U64At(b[1..]))) == FromBytes(b[1..][..8]);
    assert b == [b[0]] + (b[1..][..8] + b[9..]);
  }

  lemma TimesBack(b: seq<byte>)
    requires |b| >= 36
    ensures PutTimes(GetTimes(b), b[36..]) == b
  {
    TimedBack(b);
    TimedBack(b[9..]);
    TimedBack(b[9..][9..]);
    TimedBack(b[9..][9..][9..]);
    assert b[9..][9..][9..][9..] == b[36..];
  }

  lemma RestRoundTrip(s: ChannelState)
    ensures Rest(s.header, LayoutRest(s)) == s
  {
    var b4 := PutTimes(s.times, s.reserved);
    var b3 := PutTotals(s.totals, b4);
    var b2 := PutParties(s.parties, b3);
    IdentityRoundTrip(s.identity, b2);
    PartiesRoundTrip(s.parties, b3);
    TotalsRoundTrip(s.totals, b4);
    TimesRoundTrip(s.times, s.reserved);
  }

  lemma RestBack(header: Header, b: seq<byte>)
    requires |b| == SPACE - 20
    ensures LayoutRest(Rest(header, b)) == b
  {
    var b2 := b[104..];
    var b3 := b2[194..];
    var b4 := b3[72..];
    IdentityBack(b);
    PartiesBack(b2);
    TotalsBack(b3);
    TimesBack(b4);
  }

  lemma LayoutReadsBack(s: ChannelState)
    requires s.header.version == 1
    ensures GetHeader(Layout(s)) == Ok(s.header) && Rest(s.header, Layout(s)[20..]) == s
  {
    HeaderRoundTrip(s.header, LayoutRest(s));
    RestRoundTrip(s);
  }

  lemma ReadLaysOut(b: seq<byte>)
    requires |b| == SPACE && GetHeader(b).Ok?
    ensures Layout(Rest(GetHeader(b).value, b[20..])) == b
  {
    HeaderBack(b);
    RestBack(GetHeader(b).value, b[20..]);
  }

  // ----- the codec is a bijection

  /** Every structurally valid state comes back from its bytes. */
  lemma RoundTrip(s: ChannelState)
    requires Structural(s)
    ensures Encode(s).Ok? && |Encode(s).value| == SPACE && Decode(Encode(s).value) == Ok(s)
  {
    LayoutReadsBack(s);
  }

  /** Every accepted byte string is the encoding of what it decodes to: there is no second spelling. */
  lemma Canonical(b: seq<byte>)
    requires Decode(b).Ok?
    ensures Structural(Decode(b).value) && Encode(Decode(b).value) == Ok(b)
  {
    var s := Decode(b).value;
    ReadLaysOut(b);
    assert s == Rest(s.header, b[20..]);
  }

  /** Bytes are accepted exactly when some valid state encodes to them, and then that state is the only one. */
  lemma AcceptedIff(b: seq<byte>, s: ChannelState)
    ensures Decode(b) == Ok(s) <==> Encode(s) == Ok(b)
  {
    if Decode(b) == Ok(s) {
      Canonical(b);
    }
    if Encode(s) == Ok(b) {
      RoundTrip(s);
    }
  }

  /** A program account yields a state exactly when the program owns it and its data is that state's encoding. */
  lemma AccountIff(b: seq<byte>, owner: Bytes32, program: Bytes32, s: ChannelState)
    ensures DecodeAccount(b, owner, program) == Ok(s) <==> owner == program && Encode(s) == Ok(b)
    ensures owner != program ==> DecodeAccount(b, owner, program) == Err(WrongProgramOwner)
  {
    AcceptedIff(b, s);
  }

  // ----- where each field lies

  lemma HeaderAt(b: seq<byte>, h: Header, rest: seq<byte>)
    requires b == PutHeader(h, rest)
    ensures b[0..8] == DISCRIMINATOR && b[8..10] == ToBytes(h.version, 2) && b[10] == h.bump
    ensures b[11] == StatusCode(h.status)
    ensures b[12] == EnvironmentCode(h.environment) && b[13] == 1
    ensures b[14..16] == ToBytes(h.programVersion, 2) && b[16..20] == ToBytes(h.policyFlags, 4)
  {
  }

  lemma IdentityAt(b: seq<byte>, o: nat, x: Identity, rest: seq<byte>)
    requires o <= |b| && b[o..] == PutIdentity(x, rest)
    ensures b[o..o + 32] == x.genesisHash && b[o + 32..o + 64] == x.nonce && b[o + 64..o + 96] == x.idHash
    ensures b[o + 96..o + 104] == ToBytes(x.epoch, 8)
  {
  }

  lemma PartiesAt(b: seq<byte>, o: nat, p: Parties, rest: seq<byte>)
    requires o <= |b| && b[o..] == PutParties(p, rest)
    ensures b[o..o + 32] == p.sender && b[o + 32..o + 64] == p.recipientClaim && b[o + 64..o + 96] == p.recipientWallet
    ensures b[o + 96] == p.recipientBound && b[o + 97..o + 129] == p.bindingNonce
    ensures b[o + 129..o + 161] == p.mint && b[o + 161..o + 193] == p.vaultAccount && b[o + 193] == p.decimals
  {
  }

  lemma TotalsAt(b: seq<byte>, o: nat, t: Totals, rest: seq<byte>)
    requires o <= |b| && b[o..] == PutTotals(t, rest)
    ensures b[o..o + 8] == ToBytes(t.funded, 8) && b[o + 8..o + 16] == ToBytes(t.activated, 8)
    ensures b[o + 16..o + 24] == ToBytes(t.settled, 8) && b[o + 24..o + 32] == ToBytes(t.refunded, 8)
    ensures b[o + 32..o + 40] == ToBytes(t.sequence, 8) && b[o + 40..o + 72] == t.voucherHash
  {
  }

  lemma TimedAt(b: seq<byte>, o: nat, t: Timed, rest: seq<byte>)
    requires o <= |b| && b[o..] == PutTimed(t, rest)
    ensures b[o] == t.flag && b[o + 1..o + 9] == ToBytes(Unsigned(t.value), 8) && b[o + 9..] == rest
  {
  }

  /** Where the sections start in the account. */
  lemma Sections(s: ChannelState)
    ensures var b := Layout(s);
            && b[20..] == LayoutRest(s)
            && b[124..] == PutParties(s.parties, PutTotals(s.totals, PutTimes(s.times, s.reserved)))
            && b[318..] == PutTotals(s.totals, PutTimes(s.times, s.reserved))
            && b[390..] == PutTimes(s.times, s.reserved) && b[426..] == s.reserved
  {
    var b := Layout(s);
    var b4 := PutTimes(s.times, s.reserved);
    var b3 := PutTotals(s.totals, b4);
    var b2 := PutParties(s.parties, b3);
    HeaderSlices(s.header, LayoutRest(s));
    IdentityRoundTrip(s.identity, b2);
    PartiesRoundTrip(s.parties, b3);
    TotalsRoundTrip(s.totals, b4);
    TimesRoundTrip(s.times, s.reserved);
    Skip(b, 20, 104);
    Skip(b, 124, 194);
    Skip(b, 318, 72);
    Skip(b, 390, 36);
  }

  /** Every field of the first three sections is found at its documented offset. */
  lemma KeyOffsets(s: ChannelState)
    ensures var b := Layout(s);
            && b[0..8] == DISCRIMINATOR && b[8..10] == ToBytes(s.header.version, 2) && b[10] == s.header.bump
            && b[11] == StatusCode(s.header.status) && b[12] == EnvironmentCode(s.header.environment) && b[13] == 1
            && b[14..16] == ToBytes(s.header.programVersion, 2) && b[16..20] == ToBytes(s.header.policyFlags, 4)
            && b[20..52] == s.identity.genesisHash && b[52..84] == s.identity.nonce && b[84..116] == s.identity.idHash
            && b[116..124] == ToBytes(s.identity.epoch, 8)
            && b[124..156] == s.parties.sender && b[156..188] == s.parties.recipientClaim
            && b[188..220] == s.parties.recipientWallet && b[220] == s.parties.recipientBound
            && b[221..253] == s.parties.bindingNonce && b[253..285] == s.parties.mint
            && b[285..317] == s.parties.vaultAccount && b[317] == s.parties.decimals
  {
    var b := Layout(s);
    Sections(s);
    var b3 := PutTotals(s.totals, PutTimes(s.times, s.reserved));
    HeaderAt(b, s.header, LayoutRest(s));
    IdentityAt(b, 20, s.identity, PutParties(s.parties, b3));
    PartiesAt(b, 124, s.parties, b3);
  }

  /** And every amount, flag and deadline of the others. */
  lemma AmountOffsets(s: ChannelState)
    ensures var b := Layout(s);
            && b[318..326] == ToBytes(s.totals.funded, 8) && b[326..334] == ToBytes(s.totals.activated, 8)
            && b[334..342] == ToBytes(s.totals.settled, 8) && b[342..350] == ToBytes(s.totals.refunded, 8)
            && b[350..358] == ToBytes(s.totals.sequence, 8) && b[358..390] == s.totals.voucherHash
            && b[390] == s.times.channelExpiry.flag && b[391..399] == ToBytes(Unsigned(s.times.channelExpiry.value), 8)
            && b[399] == s.times.voucherExpiry.flag && b[400..408] == ToBytes(Unsigned(s.times.voucherExpiry.value), 8)
            && b[408] == s.times.closeRequested.flag
              && b[409..417] == ToBytes(Unsigned(s.times.closeRequested.value), 8)
            && b[417] == s.times.claimDeadline.flag && b[418..426] == ToBytes(Unsigned(s.times.claimDeadline.value), 8)
            && b[426..490] == s.reserved
  {
    var b, t := Layout(s), s.times;
    Sections(s);
    TotalsAt(b, 318, s.totals, PutTimes(t, s.reserved));
    var t3 := PutTimed(t.claimDeadline, s.reserved);
    var t2 := PutTimed(t.closeRequested, t3);
    TimedAt(b, 390, t.channelExpiry, PutTimed(t.voucherExpiry, t2));
    TimedAt(b, 399, t.voucherExpiry, t2);
    TimedAt(b, 408, t.closeRequested, t3);
    TimedAt(b, 417, t.claimDeadline, s.reserved);
    assert b[426..490] == b[426..];
  }
}
