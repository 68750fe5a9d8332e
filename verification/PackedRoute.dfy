/** The packed route bytes handed to the router contract, and a decoder written from the layout. */
module PackedRoute {
  import opened Routing

  type Byte = x: int | 0 <= x < 256

  type Word20 = s: seq<Byte> | |s| == 20 witness [0, 0, 0, 0, 0, 0, 0, 0, 0, 0, 0, 0, 0, 0, 0, 0, 0, 0, 0, 0]

  type Word32 = s: seq<Byte> | |s| == 32
    witness [0, 0, 0, 0, 0, 0, 0, 0, 0, 0, 0, 0, 0, 0, 0, 0, 0, 0, 0, 0, 0, 0, 0, 0, 0, 0, 0, 0, 0, 0, 0, 0]

  const ZERO: Word20 := [0, 0, 0, 0, 0, 0, 0, 0, 0, 0, 0, 0, 0, 0, 0, 0, 0, 0, 0, 0]
  const U32_MAX: nat := 0xFFFF_FFFF

  const PACKED_UNISWAP_V2: Byte := 0
  const PACKED_UNISWAP_V3: Byte := 1
  const PACKED_PANCAKE_V3: Byte := 2
  const PACKED_SLIPSTREAM: Byte := 3
  const PACKED_SOLIDLY_V2: Byte := 4
  const PACKED_BALANCER_V2: Byte := 5
  const PACKED_CURVE_STABLE: Byte := 6
  const PACKED_CURVE_CRYPTO: Byte := 7
  const PACKED_CURVE_CRYPTO_NG: Byte := 8
  const PACKED_GENERIC_CALL: Byte := 255
  const COMMON: nat := 61  // one protocol byte and three addresses

  datatype CurveVariant = StableSwap | CryptoSwap | CryptoSwapNG | Unlisted

  datatype Execution = Execution(target: Word20, spender: Option<Word20>, amountInOffset: Option<nat>, calldata: seq<Byte>)

  datatype RouterHop =
    | UniswapV2(pool: Word20, tokenIn: Word20, tokenOut: Word20)
    | UniswapV3(pool: Word20, tokenIn: Word20, tokenOut: Word20)
    | PancakeV3(pool: Word20, tokenIn: Word20, tokenOut: Word20)
    | Slipstream(pool: Word20, tokenIn: Word20, tokenOut: Word20)
    | SolidlyV2(pool: Word20, tokenIn: Word20, tokenOut: Word20)
    | BalancerV2(vault: Word20, poolId: Word32, tokenIn: Word20, tokenOut: Word20)
    | Curve(pool: Word20, tokenIn: Word20, tokenOut: Word20, variant: CurveVariant, i: Byte, j: Byte)
    | Generic(tokenIn: Word20, tokenOut: Word20, execution: Execution)

  datatype PackError = UnsupportedCurveVariant | OffsetOverflow | LengthOverflow

  // ---- 32-bit words, most significant byte first ----

  function Be32(n: nat): (r: seq<Byte>)
    requires n <= U32_MAX
    ensures |r| == 4
  {
    [n / 0x100_0000, n / 0x1_0000 % 0x100, n / 0x100 % 0x100, n % 0x100]
  }

  function FromBe32(b: seq<Byte>): (n: nat)
    requires |b| == 4
    ensures n <= U32_MAX
  {
    (((b[0] as int) * 0x100 + (b[1] as int)) * 0x100 + (b[2] as int)) * 0x100 + (b[3] as int)
  }

  lemma Be32RoundTrip(n: nat)
    requires n <= U32_MAX
    ensures FromBe32(Be32(n)) == n
  {
    var a, b, c := n / 0x100, n / 0x1_0000, n / 0x100_0000;
    assert a == n / 0x100 && b == a / 0x100 && c == b / 0x100;
    assert n == a * 0x100 + n % 0x100 && a == b * 0x100 + a % 0x100 && b == c * 0x100 + b % 0x100;
  }

  // ---- layout of a hop ----

  function Common(protocol: Byte, endpoint: Word20, tokenIn: Word20, tokenOut: Word20): (r: seq<Byte>)
    ensures |r| == COMMON
  {
    [protocol] + endpoint + tokenIn + tokenOut
  }

  function CurveTag(v: CurveVariant): Option<Byte> {
    match v
    case StableSwap => Some(PACKED_CURVE_STABLE)
    case CryptoSwap => Some(PACKED_CURVE_CRYPTO)
    case CryptoSwapNG => Some(PACKED_CURVE_CRYPTO_NG)
    case Unlisted => None
  }

  /** The bytes of one hop, or why it has none. */
  function EncodeHop(h: RouterHop): Result<seq<Byte>, PackError> {
    match h
    case UniswapV2(pool, i, o) => Success(Common(PACKED_UNISWAP_V2, pool, i, o))
    case UniswapV3(pool, i, o) => Success(Common(PACKED_UNISWAP_V3, pool, i, o))
    case PancakeV3(pool, i, o) => Success(Common(PACKED_PANCAKE_V3, pool, i, o))
    case Slipstream(pool, i, o) => Success(Common(PACKED_SLIPSTREAM, pool, i, o))
    case SolidlyV2(pool, i, o) => Success(Common(PACKED_SOLIDLY_V2, pool, i, o))
    case BalancerV2(vault, poolId, i, o) => Success(Common(PACKED_BALANCER_V2, vault, i, o) + poolId)
    case Curve(pool, i, o, variant, x, y) =>
      if CurveTag(variant).None? then Failure(UnsupportedCurveVariant)
      else Success(Common(CurveTag(variant).value, pool, i, o) + [x, y])
    case Generic(i, o, e) =>
      if e.amountInOffset.Some? && e.amountInOffset.value > U32_MAX then Failure(OffsetOverflow)
      else if |e.calldata| > U32_MAX then Failure(LengthOverflow)
      else Success(Common(PACKED_GENERIC_CALL, e.target, i, o) + GenericTail(e))
  }

  function GenericTail(e: Execution): seq<Byte>
    requires (e.amountInOffset.Some? ==> e.amountInOffset.value <= U32_MAX) && |e.calldata| <= U32_MAX
  {
    SpenderWord(e) + Be32(OffsetWord(e)) + Be32(|e.calldata|) + e.calldata
  }

  function SpenderWord(e: Execution): Word20 { if e.spender.Some? then e.spender.value else ZERO }

  function OffsetWord(e: Execution): nat { if e.amountInOffset.Some? then e.amountInOffset.value else U32_MAX }

  /** The bytes of a hop list, or the first hop's error. */
  function EncodeHops(hops: seq<RouterHop>): Result<seq<Byte>, PackError> {
    if hops == [] then Success([])
    else match EncodeHop(hops[0])
      case Failure(e) => Failure(e)
      case Success(head) =>
        match EncodeHops(hops[1..])
        case Failure(e) => Failure(e)
        case Success(tail) => Success(head + tail)
  }

  lemma {:induction false} EncodeHopsSnoc(hops: seq<RouterHop>, h: RouterHop)
    ensures EncodeHops(hops + [h]) ==
            match EncodeHops(hops)
            case Failure(e) => Failure(e)
            case Success(front) => (match EncodeHop(h) case Failure(e) => Failure(e) case Success(last) => Success(front + last))
  {
    hide EncodeHop;
    if hops == [] {
      assert [] + [h] == [h] && [h][1..] == [];
      if EncodeHop(h).Success? { assert EncodeHop(h).value + [] == [] + EncodeHop(h).value; }
    } else {
      assert (hops + [h])[1..] == hops[1..] + [h];
      EncodeHopsSnoc(hops[1..], h);
      if EncodeHop(hops[0]).Success? && EncodeHops(hops[1..]).Success? && EncodeHop(h).Success? {
        var a, b, c := EncodeHop(hops[0]).value, EncodeHops(hops[1..]).value, EncodeHop(h).value;
        assert a + (b + c) == (a + b) + c;
      }
    }
  }

  /** An error stays the answer whatever follows. */
  lemma {:induction false} EncodeHopsFails(hops: seq<RouterHop>, k: nat)
    requires k <= |hops| && EncodeHops(hops[..k]).Failure?
    ensures EncodeHops(hops) == EncodeHops(hops[..k])
    decreases |hops| - k
  {
    if k == |hops| {
      assert hops[..k] == hops;
    } else {
      assert hops[..k + 1] == hops[..k] + [hops[k]];
      EncodeHopsSnoc(hops[..k], hops[k]);
      EncodeHopsFails(hops, k + 1);
    }
  }

  /** `encode_packed_route`: one buffer, appended to hop by hop. */
  method EncodePackedRoute(tokenOut: Word20, hops: seq<RouterHop>) returns (r: Result<seq<Byte>, PackError>)
    ensures r == EncodeRoute(tokenOut, hops) && RouteWire(tokenOut, hops, r)
  {
    hide EncodeHop, HopsWire, Unpackable, Supported;
    HopsWireOf(hops);
    var out: seq<Byte> := tokenOut;
    for k := 0 to |hops|
      invariant EncodeHops(hops[..k]).Success? && out == tokenOut + EncodeHops(hops[..k]).value
    {
      assert hops[..k + 1] == hops[..k] + [hops[k]];
      EncodeHopsSnoc(hops[..k], hops[k]);
      var bytes := EncodeHop(hops[k]);
      if bytes.Failure? {
        EncodeHopsFails(hops, k + 1);
        return Failure(bytes.error);
      }
      assert tokenOut + (EncodeHops(hops[..k]).value + bytes.value) == out + bytes.value;
      out := out + bytes.value;
    }
    assert hops[..|hops|] == hops;
    r := Success(out);
  }

  function EncodeRoute(tokenOut: Word20, hops: seq<RouterHop>): Result<seq<Byte>, PackError> {
    match EncodeHops(hops)
    case Failure(e) => Failure(e)
    case Success(bytes) => Success(tokenOut + bytes)
  }

  // ---- the wire, byte by byte ----

  /** Four bytes read as a number, most significant first. */
  predicate ReadsAs(b: seq<Byte>, at: nat, n: nat) {
    at + 4 <= |b| && n == (b[at] as int) * 16_777_216 + (b[at + 1] as int) * 65_536 + (b[at + 2] as int) * 256 + (b[at + 3] as int)
  }

  /** The bytes of a hop: its protocol byte, the contract called, the two tokens, and what the protocol adds. */
  ghost predicate Wire(h: RouterHop, b: seq<Byte>) {
    && |b| >= 61 && b[21..41] == h.tokenIn && b[41..61] == h.tokenOut
    && match h
       case UniswapV2(pool, _, _) => |b| == 61 && b[0] == 0 && b[1..21] == pool
       case UniswapV3(pool, _, _) => |b| == 61 && b[0] == 1 && b[1..21] == pool
       case PancakeV3(pool, _, _) => |b| == 61 && b[0] == 2 && b[1..21] == pool
       case Slipstream(pool, _, _) => |b| == 61 && b[0] == 3 && b[1..21] == pool
       case SolidlyV2(pool, _, _) => |b| == 61 && b[0] == 4 && b[1..21] == pool
       case BalancerV2(vault, poolId, _, _) => |b| == 93 && b[0] == 5 && b[1..21] == vault && b[61..93] == poolId
       case Curve(pool, _, _, StableSwap, i, j) => |b| == 63 && b[0] == 6 && b[1..21] == pool && b[61] == i && b[62] == j
       case Curve(pool, _, _, CryptoSwap, i, j) => |b| == 63 && b[0] == 7 && b[1..21] == pool && b[61] == i && b[62] == j
       case Curve(pool, _, _, CryptoSwapNG, i, j) => |b| == 63 && b[0] == 8 && b[1..21] == pool && b[61] == i && b[62] == j
       case Curve(_, _, _, Unlisted, _, _) => false
       case Generic(_, _, e) => |b| == 89 + |e.calldata| && b[0] == 255 && b[1..21] == e.target && WireCall(e, b)
  }

  /** What a generic call adds: who may spend (zeros for nobody), where the amount goes (all ones for nowhere),
      and the calldata with its length. */
  ghost predicate WireCall(e: Execution, b: seq<Byte>)
    requires |b| == 89 + |e.calldata|
  {
    && (match e.spender case Some(spender) => b[61..81] == spender case None => forall k :: 61 <= k < 81 ==> b[k] == 0)
    && ReadsAs(b, 81, if e.amountInOffset.Some? then e.amountInOffset.value else 4_294_967_295)
    && ReadsAs(b, 85, |e.calldata|) && b[89..] == e.calldata
  }

  lemma WireOf(h: RouterHop)
    ensures EncodeHop(h).Success? ==> Wire(h, EncodeHop(h).value)
  {
    match h
    case BalancerV2(vault, poolId, i, o) => CommonFields(EncodeHop(h).value, PACKED_BALANCER_V2, vault, i, o, poolId);
    case Curve(pool, i, o, variant, x, y) =>
      if EncodeHop(h).Success? { CommonFields(EncodeHop(h).value, CurveTag(variant).value, pool, i, o, [x, y]); }
    case Generic(i, o, e) =>
      if EncodeHop(h).Success? { WireOfCall(h); }
    case _ =>
      assert EncodeHop(h).value + [] == EncodeHop(h).value;
      CommonFields(EncodeHop(h).value, EncodeHop(h).value[0], h.pool, h.tokenIn, h.tokenOut, []);
  }

  lemma WireOfCall(h: RouterHop)
    requires h.Generic? && EncodeHop(h).Success?
    ensures Wire(h, EncodeHop(h).value)
  {
    hide GenericTail, Common, Be32, FromBe32, ReadsAs;
    var e, b := h.execution, EncodeHop(h).value;
    var tail := GenericTail(e);
    CommonFields(b, PACKED_GENERIC_CALL, e.target, h.tokenIn, h.tokenOut, tail);
    TailBytes(e);
    assert forall k :: 61 <= k < |b| ==> b[k] == tail[k - 61];
    assert b[61..81] == tail[..20] && b[89..] == tail[28..];
    ReadsShifted(tail, b, 20, if e.amountInOffset.Some? then e.amountInOffset.value else 4_294_967_295);
    ReadsShifted(tail, b, 24, |e.calldata|);
  }

  lemma ReadsShifted(tail: seq<Byte>, b: seq<Byte>, at: nat, n: nat)
    requires ReadsAs(tail, at, n) && |b| == 61 + |tail| && forall k :: 61 <= k < |b| ==> b[k] == tail[k - 61]
    ensures ReadsAs(b, 61 + at, n)
  {
  }

  lemma TailBytes(e: Execution)
    requires (e.amountInOffset.Some? ==> e.amountInOffset.value <= U32_MAX) && |e.calldata| <= U32_MAX
    ensures var tail := GenericTail(e);
            && |tail| == 28 + |e.calldata| && tail[28..] == e.calldata
            && (match e.spender case Some(spender) => tail[..20] == spender case None => forall k :: 0 <= k < 20 ==> tail[k] == 0)
            && ReadsAs(tail, 20, if e.amountInOffset.Some? then e.amountInOffset.value else 4_294_967_295) && ReadsAs(tail, 24, |e.calldata|)
  {
    hide Be32, ReadsAs;
    var tail := GenericTail(e);
    Be32Bytes(OffsetWord(e));
    Be32Bytes(|e.calldata|);
    assert tail[20..24] == Be32(OffsetWord(e)) && tail[24..28] == Be32(|e.calldata|);
    ReadsInside(tail, 20, OffsetWord(e));
    ReadsInside(tail, 24, |e.calldata|);
  }

  lemma ReadsInside(b: seq<Byte>, at: nat, n: nat)
    requires at + 4 <= |b| && ReadsAs(b[at..at + 4], 0, n)
    ensures ReadsAs(b, at, n)
  {
    var w := b[at..at + 4];
    assert w[0] == b[at] && w[1] == b[at + 1] && w[2] == b[at + 2] && w[3] == b[at + 3];
  }

  lemma Be32Bytes(n: nat)
    requires n <= U32_MAX
    ensures ReadsAs(Be32(n), 0, n)
  {
    Be32RoundTrip(n);
  }

  /** Why a hop cannot be packed. */
  ghost predicate Unpackable(h: RouterHop, e: PackError) {
    match e
    case UnsupportedCurveVariant => h.Curve? && h.variant == Unlisted
    case OffsetOverflow => h.Generic? && h.execution.amountInOffset.Some? && h.execution.amountInOffset.value > 4_294_967_295
    case LengthOverflow =>
      h.Generic? && |h.execution.calldata| > 4_294_967_295 && (h.execution.amountInOffset.Some? ==> h.execution.amountInOffset.value <= 4_294_967_295)
  }

  /** A packed route is the output token and then the hops' bytes one after the other; a refused one names the
      first hop that cannot be packed. */
  ghost predicate RouteWire(tokenOut: Word20, hops: seq<RouterHop>, r: Result<seq<Byte>, PackError>) {
    match r
    case Success(b) => |b| >= 20 && b[..20] == tokenOut && HopsWire(hops, b[20..])
    case Failure(e) => exists k :: 0 <= k < |hops| && Unpackable(hops[k], e) && forall i :: 0 <= i < k ==> Supported(hops[i])
  }

  ghost predicate HopsWire(hops: seq<RouterHop>, b: seq<Byte>)
    decreases |hops|
  {
    if hops == [] then b == []
    else exists n: nat :: n <= |b| && Wire(hops[0], b[..n]) && HopsWire(hops[1..], b[n..])
  }

  lemma {:induction false} HopsWireOf(hops: seq<RouterHop>)
    ensures match EncodeHops(hops)
            case Success(b) => HopsWire(hops, b)
            case Failure(e) => exists k :: 0 <= k < |hops| && Unpackable(hops[k], e) && forall i :: 0 <= i < k ==> Supported(hops[i])
  {
    if hops != [] {
      var h, rest := hops[0], hops[1..];
      HopsWireOf(rest);
      WireOf(h);
      HopRefused(h);
      hide EncodeHop, Wire, Supported, Unpackable;
      match EncodeHop(h)
      case Failure(e) =>
      case Success(head) =>
        match EncodeHops(rest)
        case Success(tail) => assert (head + tail)[..|head|] == head && (head + tail)[|head|..] == tail;
        case Failure(e) =>
          var k :| 0 <= k < |rest| && Unpackable(rest[k], e) && forall i :: 0 <= i < k ==> Supported(rest[i]);
          assert hops[k + 1] == rest[k];
          assert forall i :: 1 <= i < k + 1 ==> hops[i] == rest[i - 1];
    }
  }

  lemma HopRefused(h: RouterHop)
    ensures match EncodeHop(h) case Success(_) => Supported(h) case Failure(e) => Unpackable(h, e)
  {
  }

  // ---- decoding ----

  /** The first hop of a byte string and how many bytes it takes. */
  function DecodeHop(b: seq<Byte>): (r: Option<(RouterHop, nat)>)
    ensures r.Some? ==> COMMON <= r.value.1 <= |b|
  {
    if |b| < COMMON then None
    else
      var endpoint: Word20, tokenIn: Word20, tokenOut: Word20 := b[1..21], b[21..41], b[41..61];
      if b[0] == PACKED_UNISWAP_V2 then Some((UniswapV2(endpoint, tokenIn, tokenOut), COMMON))
      else if b[0] == PACKED_UNISWAP_V3 then Some((UniswapV3(endpoint, tokenIn, tokenOut), COMMON))
      else if b[0] == PACKED_PANCAKE_V3 then Some((PancakeV3(endpoint, tokenIn, tokenOut), COMMON))
      else if b[0] == PACKED_SLIPSTREAM then Some((Slipstream(endpoint, tokenIn, tokenOut), COMMON))
      else if b[0] == PACKED_SOLIDLY_V2 then Some((SolidlyV2(endpoint, tokenIn, tokenOut), COMMON))
      else if b[0] == PACKED_BALANCER_V2 then
        if |b| < COMMON + 32 then None else Some((BalancerV2(endpoint, b[61..93], tokenIn, tokenOut), COMMON + 32))
      else if b[0] == PACKED_CURVE_STABLE || b[0] == PACKED_CURVE_CRYPTO || b[0] == PACKED_CURVE_CRYPTO_NG then
        if |b| < COMMON + 2 then None
        else
          var variant := if b[0] == PACKED_CURVE_STABLE then StableSwap else if b[0] == PACKED_CURVE_CRYPTO then CryptoSwap else CryptoSwapNG;
          Some((Curve(endpoint, tokenIn, tokenOut, variant, b[61], b[62]), COMMON + 2))
      else if b[0] == PACKED_GENERIC_CALL then DecodeGeneric(b, endpoint, tokenIn, tokenOut)
      else None
  }

  function DecodeGeneric(b: seq<Byte>, target: Word20, tokenIn: Word20, tokenOut: Word20): (r: Option<(RouterHop, nat)>)
    requires |b| >= COMMON
    ensures r.Some? ==> COMMON <= r.value.1 <= |b|
  {
    if |b| < COMMON + 28 then None
    else
      var spender: Word20 := b[61..81];
      var offset, length := FromBe32(b[81..85]), FromBe32(b[85..89]);
      if |b| < COMMON + 28 + length then None
      else
        var e := Execution(target, if spender == ZERO then None else Some(spender), if offset == U32_MAX then None else Some(offset), b[89..89 + length]);
        Some((Generic(tokenIn, tokenOut, e), COMMON + 28 + length))
  }

  function DecodeHops(b: seq<Byte>): Option<seq<RouterHop>>
    decreases |b|
  {
    if b == [] then Some([])
    else match DecodeHop(b)
      case None => None
      case Some((h, n)) =>
        match DecodeHops(b[n..])
        case None => None
        case Some(rest) => Some([h] + rest)
  }

  function DecodeRoute(b: seq<Byte>): Option<(Word20, seq<RouterHop>)> {
    if |b| < 20 then None
    else match DecodeHops(b[20..])
      case None => None
      case Some(hops) => var tokenOut: Word20 := b[..20]; Some((tokenOut, hops))
  }

  // ---- what survives the trip ----

  /** The two values the layout cannot tell from an absent one. */
  predicate Faithful(h: RouterHop) {
    h.Generic? ==> h.execution.spender != Some(ZERO) && h.execution.amountInOffset != Some(U32_MAX)
  }

  /** The hop as the layout can express it. */
  function Canonical(h: RouterHop): (r: RouterHop)
    ensures r == h <==> Faithful(h)
    ensures Faithful(r)
  {
    if !h.Generic? then h
    else
      var e := h.execution;
      h.(execution := e.(spender := if e.spender == Some(ZERO) then None else e.spender,
                         amountInOffset := if e.amountInOffset == Some(U32_MAX) then None else e.amountInOffset))
  }

  function CanonicalAll(hops: seq<RouterHop>): (r: seq<RouterHop>)
    ensures r == hops <==> forall i :: 0 <= i < |hops| ==> Faithful(hops[i])
  {
    seq(|hops|, i requires 0 <= i < |hops| => Canonical(hops[i]))
  }

  /** A hop can be encoded exactly when its variant, offset and length are in range. */
  predicate Supported(h: RouterHop) {
    && (h.Curve? ==> h.variant != Unlisted)
    && (h.Generic? ==> |h.execution.calldata| <= U32_MAX && (h.execution.amountInOffset.Some? ==> h.execution.amountInOffset.value <= U32_MAX))
  }

  lemma {:induction false} EncodableIffSupported(hops: seq<RouterHop>)
    ensures EncodeHops(hops).Success? <==> forall i :: 0 <= i < |hops| ==> Supported(hops[i])
  {
    if hops != [] {
      assert EncodeHop(hops[0]).Success? <==> Supported(hops[0]);
      hide EncodeHop, Supported;
      EncodableIffSupported(hops[1..]);
      assert hops == [hops[0]] + hops[1..];
    }
  }

  lemma CommonFields(b: seq<Byte>, protocol: Byte, endpoint: Word20, tokenIn: Word20, tokenOut: Word20, rest: seq<Byte>)
    requires b == Common(protocol, endpoint, tokenIn, tokenOut) + rest
    ensures |b| == COMMON + |rest| && b[0] == protocol && b[1..21] == endpoint && b[21..41] == tokenIn && b[41..61] == tokenOut && b[61..] == rest
  {
  }

  lemma SimpleHopRoundTrip(h: RouterHop, rest: seq<Byte>)
    requires EncodeHop(h).Success? && !h.Generic?
    ensures DecodeHop(EncodeHop(h).value + rest) == Some((h, |EncodeHop(h).value|))
  {
    var b := EncodeHop(h).value + rest;
    match h
    case BalancerV2(vault, poolId, i, o) =>
      assert b == Common(PACKED_BALANCER_V2, vault, i, o) + (poolId + rest);
      CommonFields(b, PACKED_BALANCER_V2, vault, i, o, poolId + rest);
      assert b[61..93] == b[61..][..32] == poolId;
    case Curve(pool, i, o, variant, x, y) =>
      assert b == Common(CurveTag(variant).value, pool, i, o) + ([x, y] + rest);
      CommonFields(b, CurveTag(variant).value, pool, i, o, [x, y] + rest);
      assert b[61] == b[61..][0] == x && b[62] == b[61..][1] == y;
    case UniswapV2(pool, i, o) => CommonFields(b, PACKED_UNISWAP_V2, pool, i, o, rest);
    case UniswapV3(pool, i, o) => CommonFields(b, PACKED_UNISWAP_V3, pool, i, o, rest);
    case PancakeV3(pool, i, o) => CommonFields(b, PACKED_PANCAKE_V3, pool, i, o, rest);
    case Slipstream(pool, i, o) => CommonFields(b, PACKED_SLIPSTREAM, pool, i, o, rest);
    case SolidlyV2(pool, i, o) => CommonFields(b, PACKED_SOLIDLY_V2, pool, i, o, rest);
  }

  lemma GenericFields(tail: seq<Byte>, e: Execution, rest: seq<Byte>)
    requires (e.amountInOffset.Some? ==> e.amountInOffset.value <= U32_MAX) && |e.calldata| <= U32_MAX && tail == GenericTail(e) + rest
    ensures |tail| == 28 + |e.calldata| + |rest|
    ensures tail[..20] == SpenderWord(e) && FromBe32(tail[20..24]) == OffsetWord(e) && FromBe32(tail[24..28]) == |e.calldata|
    ensures tail[28..28 + |e.calldata|] == e.calldata
  {
    hide Be32;
    Be32RoundTrip(OffsetWord(e));
    Be32RoundTrip(|e.calldata|);
    assert tail[20..24] == Be32(OffsetWord(e)) && tail[24..28] == Be32(|e.calldata|);
  }

  lemma GenericHopRoundTrip(h: RouterHop, rest: seq<Byte>)
    requires EncodeHop(h).Success? && h.Generic?
    ensures DecodeHop(EncodeHop(h).value + rest) == Some((Canonical(h), |EncodeHop(h).value|))
  {
    hide GenericTail, FromBe32, Common;
    var e := h.execution;
    var b := EncodeHop(h).value + rest;
    var tail := GenericTail(e) + rest;
    assert b == Common(PACKED_GENERIC_CALL, e.target, h.tokenIn, h.tokenOut) + tail;
    CommonFields(b, PACKED_GENERIC_CALL, e.target, h.tokenIn, h.tokenOut, tail);
    GenericFields(tail, e, rest);
    assert b[61..81] == b[61..][..20] && b[81..85] == b[61..][20..24] && b[85..89] == b[61..][24..28];
    assert b[89..89 + |e.calldata|] == b[61..][28..28 + |e.calldata|];
  }

  /** Decoding undoes encoding up to the two ambiguous values. */
  lemma {:induction false} HopsRoundTrip(hops: seq<RouterHop>)
    requires EncodeHops(hops).Success?
    ensures DecodeHops(EncodeHops(hops).value) == Some(CanonicalAll(hops))
  {
    hide EncodeHop, DecodeHop, Canonical;
    if hops != [] {
      var head, tail := EncodeHop(hops[0]).value, EncodeHops(hops[1..]).value;
      HopsRoundTrip(hops[1..]);
      HopRoundTrip(hops[0], tail);
      assert (head + tail)[|head|..] == tail;
      assert CanonicalAll(hops) == [Canonical(hops[0])] + CanonicalAll(hops[1..]);
    }
  }

  lemma HopRoundTrip(h: RouterHop, rest: seq<Byte>)
    requires EncodeHop(h).Success?
    ensures |EncodeHop(h).value| > 0 && DecodeHop(EncodeHop(h).value + rest) == Some((Canonical(h), |EncodeHop(h).value|))
  {
    hide DecodeHop, EncodeHop;
    if h.Generic? { GenericHopRoundTrip(h, rest); } else { SimpleHopRoundTrip(h, rest); }
  }

  /** The decoder recovers an encodable route exactly when no hop has a zero spender or the offset
      that means "none". */
  lemma RouteRoundTrip(tokenOut: Word20, hops: seq<RouterHop>)
    requires forall i :: 0 <= i < |hops| ==> Supported(hops[i])
    ensures EncodeRoute(tokenOut, hops).Success?
    ensures DecodeRoute(EncodeRoute(tokenOut, hops).value) == Some((tokenOut, CanonicalAll(hops)))
    ensures DecodeRoute(EncodeRoute(tokenOut, hops).value) == Some((tokenOut, hops)) <==> forall i :: 0 <= i < |hops| ==> Faithful(hops[i])
  {
    hide Canonical, EncodeHops, DecodeHops, Supported;
    EncodableIffSupported(hops);
    HopsRoundTrip(hops);
    var bytes := EncodeHops(hops).value;
    assert (tokenOut + bytes)[..20] == tokenOut && (tokenOut + bytes)[20..] == bytes;
  }

  /** Two encodable routes share their bytes exactly when they agree up to the ambiguous values. */
  lemma SharedBytes(out1: Word20, hops1: seq<RouterHop>, out2: Word20, hops2: seq<RouterHop>)
    requires EncodeRoute(out1, hops1).Success? && EncodeRoute(out2, hops2).Success?
    ensures EncodeRoute(out1, hops1) == EncodeRoute(out2, hops2) <==> out1 == out2 && CanonicalAll(hops1) == CanonicalAll(hops2)
  {
    hide Canonical, EncodeHops, Supported, DecodeRoute;
    EncodableIffSupported(hops1);
    EncodableIffSupported(hops2);
    RouteRoundTrip(out1, hops1);
    RouteRoundTrip(out2, hops2);
    CanonicalSameBytes(hops1);
    CanonicalSameBytes(hops2);
  }

  lemma {:induction false} CanonicalSameBytes(hops: seq<RouterHop>)
    ensures EncodeHops(CanonicalAll(hops)) == EncodeHops(hops)
  {
    if hops != [] {
      assert EncodeHop(Canonical(hops[0])) == EncodeHop(hops[0]);
      assert CanonicalAll(hops) == [Canonical(hops[0])] + CanonicalAll(hops[1..]);
      hide EncodeHop, Canonical;
      CanonicalSameBytes(hops[1..]);
    }
  }

  /** An approval of the zero address and no approval at all are the same bytes. */
  lemma AmbiguousSpender(tokenOut: Word20, target: Word20)
    ensures var a := Generic(ZERO, ZERO, Execution(target, Some(ZERO), None, []));
            var b := Generic(ZERO, ZERO, Execution(target, None, None, []));
            a != b && EncodeRoute(tokenOut, [a]).Success? && EncodeRoute(tokenOut, [a]) == EncodeRoute(tokenOut, [b])
  {
    var a := Generic(ZERO, ZERO, Execution(target, Some(ZERO), None, []));
    var b := Generic(ZERO, ZERO, Execution(target, None, None, []));
    assert CanonicalAll([a]) == [b];
    CanonicalSameBytes([a]);
    EncodableIffSupported([a]);
  }
}
