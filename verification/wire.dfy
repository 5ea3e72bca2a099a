/** The packed little-endian wire format, C++ side and Python side, and the round trips between
    the two. */
module Wire {
  import opened Types

  type Byte = b: int | 0 <= b < 256

  // ----- 64-bit integers -----

  const TWO_63 := 0x8000_0000_0000_0000
  const TWO_64 := 0x1_0000_0000_0000_0000

  predicate Int64(n: int) {
    -TWO_63 <= n < TWO_63
  }

  function Pow256(k: nat): (p: nat)
    ensures p > 0
  {
    if k == 0 then 1 else 256 * Pow256(k - 1)
  }

  function LittleEndian(n: nat, size: nat): (s: seq<Byte>)
    ensures |s| == size
  {
    if size == 0 then [] else [n % 256] + LittleEndian(n / 256, size - 1)
  }

  function FromLittleEndian(s: seq<Byte>): nat {
    if s == [] then 0 else s[0] + 256 * FromLittleEndian(s[1..])
  }

  lemma {:induction false} LittleEndianRoundTrip(n: nat, size: nat)
    requires n < Pow256(size)
    ensures FromLittleEndian(LittleEndian(n, size)) == n
  {
    if size == 0 {
    } else {
      LittleEndianRoundTrip(n / 256, size - 1);
      assert LittleEndian(n, size)[1..] == LittleEndian(n / 256, size - 1);
    }
  }

  lemma {:induction false} BytesRoundTrip(s: seq<Byte>)
    ensures LittleEndian(FromLittleEndian(s), |s|) == s
    ensures FromLittleEndian(s) < Pow256(|s|)
  {
    if s == [] {
    } else {
      BytesRoundTrip(s[1..]);
      var rest := FromLittleEndian(s[1..]);
      LowByte(s[0], rest);
      assert LittleEndian(FromLittleEndian(s), |s|) == [s[0]] + LittleEndian(rest, |s| - 1);
    }
  }

  lemma LowByte(b: Byte, rest: nat)
    ensures (b + 256 * rest) % 256 == b && (b + 256 * rest) / 256 == rest
  {
  }

  lemma EightBytes()
    ensures Pow256(8) == TWO_64
  {
    assert Pow256(2) == 0x1_0000;
    assert Pow256(4) == 256 * (256 * Pow256(2)) == 0x1_0000_0000;
    assert Pow256(6) == 256 * (256 * Pow256(4)) == 0x1_0000_0000_0000;
    assert Pow256(8) == 256 * (256 * Pow256(6));
  }

  /** Two's complement, as `struct` code `q` and as a C++ int64 in memory. */
  function EncodeInt(n: int): (s: seq<Byte>)
    requires Int64(n)
    ensures |s| == 8
  {
    LittleEndian(if n < 0 then n + TWO_64 else n, 8)
  }

  function DecodeInt(s: seq<Byte>): int {
    var n := FromLittleEndian(s);
    if n < TWO_63 then n else n - TWO_64
  }

  lemma IntRoundTrip(n: int)
    requires Int64(n)
    ensures DecodeInt(EncodeInt(n)) == n
  {
    EightBytes();
    LittleEndianRoundTrip(if n < 0 then n + TWO_64 else n, 8);
  }

  /** Every eight bytes are some integer's, so decoding loses nothing. */
  lemma IntBytesRoundTrip(s: seq<Byte>)
    requires |s| == 8
    ensures Int64(DecodeInt(s)) && EncodeInt(DecodeInt(s)) == s
  {
    EightBytes();
    BytesRoundTrip(s);
  }

  // ----- tickers -----

  const MAX_TICKER_LENGTH: nat := 15
  const WIRE_TICKER_SIZE: nat := 16

  /** Characters that are bytes, and room for a NUL behind them: any 15-character C++ ticker. */
  predicate WireTicker(t: Ticker) {
    (forall i :: 0 <= i < |t| ==> t[i] as int < 256) && |t| <= MAX_TICKER_LENGTH
  }

  predicate Ascii(t: Ticker) {
    forall i :: 0 <= i < |t| ==> t[i] as int < 128
  }

  predicate NulFree(t: Ticker) {
    forall i :: 0 <= i < |t| ==> t[i] as int != 0
  }

  function Zeros(n: nat): (s: seq<Byte>)
    ensures |s| == n && forall i :: 0 <= i < n ==> s[i] == 0
  {
    seq(n, _ => 0)
  }

  function Codes(t: Ticker): (s: seq<Byte>)
    requires forall i :: 0 <= i < |t| ==> t[i] as int < 256
    ensures |s| == |t| && forall i :: 0 <= i < |t| ==> s[i] == t[i] as int
  {
    seq(|t|, i requires 0 <= i < |t| => t[i] as int)
  }

  function PadTicker(t: Ticker): (s: seq<Byte>)
    requires WireTicker(t)
    ensures |s| == WIRE_TICKER_SIZE
  {
    Codes(t) + Zeros(WIRE_TICKER_SIZE - |t|)
  }

  /** Number of bytes before the first NUL, or all of them. */
  function NulLength(s: seq<Byte>): (n: nat)
    ensures n <= |s|
    ensures n < |s| ==> s[n] == 0
    ensures forall i :: 0 <= i < n ==> s[i] != 0
  {
    if s == [] || s[0] == 0 then 0 else 1 + NulLength(s[1..])
  }

  function Chars(s: seq<Byte>): (t: Ticker)
    ensures |t| == |s| && forall i :: 0 <= i < |s| ==> t[i] as int == s[i]
  {
    seq(|s|, i requires 0 <= i < |s| => s[i] as char)
  }

  /** A ticker that means the same to both sides. */
  predicate Plain(t: Ticker) {
    Ascii(t) && NulFree(t)
  }

  /** The C++ decoder; a field with no NUL overflows the 15-character ticker and throws. */
  function CppDecodeTicker(field: seq<Byte>): Option<Ticker> {
    var n := NulLength(field);
    if n <= MAX_TICKER_LENGTH then Some(Chars(field[..n])) else None
  }

  /** The Python decoder; a byte outside ASCII raises. */
  function PyDecodeTicker(field: seq<Byte>): Option<Ticker> {
    var name := field[..NulLength(field)];
    if forall i :: 0 <= i < |name| ==> name[i] < 128 then Some(Chars(name)) else None
  }

  /** The ticker as far as its first NUL. */
  function UpToNul(t: Ticker): Ticker
    requires WireTicker(t)
  {
    t[..NulLength(Codes(t))]
  }

  lemma PaddedLength(t: Ticker)
    requires WireTicker(t)
    ensures NulLength(PadTicker(t)) == NulLength(Codes(t)) && PadTicker(t)[..NulLength(Codes(t))] == Codes(UpToNul(t))
  {
    var s, c := PadTicker(t), Codes(t);
    assert forall i :: 0 <= i < |t| ==> s[i] == c[i];
    assert s[|t|] == 0;
    var n, m := NulLength(s), NulLength(c);
    assert forall i :: 0 <= i < m ==> s[i] != 0;
    assert s[m] == 0;
    assert n == m;
  }

  /** Both decoders return a ticker as far as its first NUL, but Python raises if that is not ASCII. */
  lemma TickerDecodes(t: Ticker)
    requires WireTicker(t)
    ensures CppDecodeTicker(PadTicker(t)) == Some(UpToNul(t))
    ensures PyDecodeTicker(PadTicker(t)) == if Ascii(UpToNul(t)) then Some(UpToNul(t)) else None
  {
    var u := UpToNul(t);
    PaddedLength(t);
    assert Chars(Codes(u)) == u;
    assert forall i :: 0 <= i < |u| ==> Codes(u)[i] == u[i] as int;
  }

  lemma WholeTicker(t: Ticker)
    requires WireTicker(t)
    ensures UpToNul(t) == t <==> NulFree(t)
  {
    var c, n := Codes(t), NulLength(Codes(t));
    if n < |t| {
      assert c[n] == 0 && |UpToNul(t)| == n;
    } else {
      assert forall i :: 0 <= i < |t| ==> c[i] == t[i] as int;
    }
  }

  // ----- records -----

  function SideByte(side: Side): Byte {
    if side.Buy? then 0 else 1
  }

  function SideOf(b: Byte): Side {
    if b == 0 then Buy else Sell
  }

  predicate AddFits(o: OrderAdd) {
    Int64(o.orderId) && Int64(o.userId) && WireTicker(o.ticker) && Int64(o.price) && Int64(o.volume)
  }

  predicate CancelFits(c: OrderCancel) {
    Int64(c.orderId) && Int64(c.userId) && WireTicker(c.ticker)
  }

  predicate TradeFits(t: Trade) {
    && Int64(t.makerId) && Int64(t.takerId) && Int64(t.makerOrderId) && Int64(t.takerOrderId)
    && WireTicker(t.ticker) && Int64(t.executionPrice) && Int64(t.volume)
  }

  const ADD_SIZE: nat := 49
  const CANCEL_SIZE: nat := 32
  const TRADE_SIZE: nat := 65
  const INBOUND_SIZE: nat := 50
  const MARKET_SIZE: nat := 66

  function PackAdd(o: OrderAdd): (s: seq<Byte>)
    requires AddFits(o)
    ensures |s| == ADD_SIZE
  {
    EncodeInt(o.orderId) + EncodeInt(o.userId) + PadTicker(o.ticker) + [SideByte(o.side)]
    + EncodeInt(o.price) + EncodeInt(o.volume)
  }

  function PackCancel(c: OrderCancel): (s: seq<Byte>)
    requires CancelFits(c)
    ensures |s| == CANCEL_SIZE
  {
    EncodeInt(c.orderId) + EncodeInt(c.userId) + PadTicker(c.ticker)
  }

  function PackParties(t: Trade): (s: seq<Byte>)
    requires TradeFits(t)
    ensures |s| == 32
  {
    EncodeInt(t.makerId) + EncodeInt(t.takerId) + EncodeInt(t.makerOrderId) + EncodeInt(t.takerOrderId)
  }

  function PackTrade(t: Trade): (s: seq<Byte>)
    requires TradeFits(t)
    ensures |s| == TRADE_SIZE
  {
    PackParties(t) + PadTicker(t.ticker) + [SideByte(t.takerSide)] + EncodeInt(t.executionPrice) + EncodeInt(t.volume)
  }

  /** Fields at their packed offsets; the ticker decoder is the reader's own. */
  function UnpackAdd(s: seq<Byte>, ticker: Option<Ticker>): Option<OrderAdd>
    requires |s| >= ADD_SIZE
  {
    if ticker.None? then None
    else Some(OrderAdd(DecodeInt(s[0..8]), DecodeInt(s[8..16]), ticker.value, SideOf(s[32]),
                       DecodeInt(s[33..41]), DecodeInt(s[41..49])))
  }

  function UnpackCancel(s: seq<Byte>, ticker: Option<Ticker>): Option<OrderCancel>
    requires |s| >= CANCEL_SIZE
  {
    if ticker.None? then None
    else Some(OrderCancel(DecodeInt(s[0..8]), DecodeInt(s[8..16]), ticker.value))
  }

  function UnpackTrade(s: seq<Byte>, ticker: Option<Ticker>): Option<Trade>
    requires |s| >= TRADE_SIZE
  {
    if ticker.None? then None
    else Some(Trade(DecodeInt(s[0..8]), DecodeInt(s[8..16]), DecodeInt(s[16..24]), DecodeInt(s[24..32]),
                    ticker.value, SideOf(s[48]), DecodeInt(s[49..57]), DecodeInt(s[57..65])))
  }

  lemma AddRoundTrip(o: OrderAdd, tail: seq<Byte>, ticker: Ticker)
    requires AddFits(o)
    ensures var s := PackAdd(o) + tail;
            s[16..32] == PadTicker(o.ticker) && UnpackAdd(s, Some(ticker)) == Some(o.(ticker := ticker))
  {
    var s := PackAdd(o) + tail;
    assert s[0..8] == EncodeInt(o.orderId) && s[8..16] == EncodeInt(o.userId);
    assert s[16..32] == PadTicker(o.ticker) && s[32] == SideByte(o.side);
    assert s[33..41] == EncodeInt(o.price) && s[41..49] == EncodeInt(o.volume);
    IntRoundTrip(o.orderId);
    IntRoundTrip(o.userId);
    IntRoundTrip(o.price);
    IntRoundTrip(o.volume);
  }

  lemma CancelRoundTrip(c: OrderCancel, tail: seq<Byte>, ticker: Ticker)
    requires CancelFits(c)
    ensures var s := PackCancel(c) + tail;
            s[16..32] == PadTicker(c.ticker) && UnpackCancel(s, Some(ticker)) == Some(c.(ticker := ticker))
  {
    var s := PackCancel(c) + tail;
    assert s[0..8] == EncodeInt(c.orderId) && s[8..16] == EncodeInt(c.userId) && s[16..32] == PadTicker(c.ticker);
    IntRoundTrip(c.orderId);
    IntRoundTrip(c.userId);
  }

  lemma TradeRoundTrip(t: Trade, tail: seq<Byte>, ticker: Ticker)
    requires TradeFits(t)
    ensures var s := PackTrade(t) + tail;
            s[32..48] == PadTicker(t.ticker) && UnpackTrade(s, Some(ticker)) == Some(t.(ticker := ticker))
  {
    var s := PackTrade(t) + tail;
    assert s[0..8] == EncodeInt(t.makerId) && s[8..16] == EncodeInt(t.takerId);
    assert s[16..24] == EncodeInt(t.makerOrderId) && s[24..32] == EncodeInt(t.takerOrderId);
    assert s[32..48] == PadTicker(t.ticker) && s[48] == SideByte(t.takerSide);
    assert s[49..57] == EncodeInt(t.executionPrice) && s[57..65] == EncodeInt(t.volume);
    IntRoundTrip(t.makerId);
    IntRoundTrip(t.takerId);
    IntRoundTrip(t.makerOrderId);
    IntRoundTrip(t.takerOrderId);
    IntRoundTrip(t.executionPrice);
    IntRoundTrip(t.volume);
  }

  // ----- inbound: Python client to C++ gateway -----

  predicate CommandFits(cmd: Command) {
    match cmd
    case Add(o) => AddFits(o)
    case Cancel(c) => CancelFits(c)
  }

  function NameIn(cmd: Command): Ticker {
    match cmd
    case Add(o) => o.ticker
    case Cancel(c) => c.ticker
  }

  /** The command with its ticker as far as the first NUL. */
  function Cut(cmd: Command): Command
    requires CommandFits(cmd)
  {
    match cmd
    case Add(o) => Add(o.(ticker := UpToNul(o.ticker)))
    case Cancel(c) => Cancel(c.(ticker := UpToNul(c.ticker)))
  }

  /** What the Python client sends; it raises for a number or a ticker too long, and for a character
      outside ASCII. A NUL it lets through. */
  function PyEncode(cmd: Command): Option<seq<Byte>> {
    if !CommandFits(cmd) || !Ascii(NameIn(cmd)) then None
    else
      match cmd
      case Add(o) => Some([0] + PackAdd(o))
      case Cancel(c) => Some([1] + (PackCancel(c) + Zeros(ADD_SIZE - CANCEL_SIZE)))
  }

  /** What the gateway makes of a frame: anything not an add is a cancel. */
  function CppDecode(frame: seq<Byte>): Option<Command>
    requires |frame| == INBOUND_SIZE
  {
    var payload := frame[1..];
    var ticker := CppDecodeTicker(payload[16..32]);
    if frame[0] == 0 then
      var o := UnpackAdd(payload, ticker);
      if o.Some? then Some(Add(o.value)) else None
    else
      var c := UnpackCancel(payload, ticker);
      if c.Some? then Some(Cancel(c.value)) else None
  }

  /** A command the Python client can send is one frame, and arrives with its ticker cut at the
      first NUL: as the same command exactly when there is none. */
  lemma InboundRoundTrip(cmd: Command)
    requires PyEncode(cmd).Some?
    ensures |PyEncode(cmd).value| == INBOUND_SIZE
    ensures CppDecode(PyEncode(cmd).value) == Some(Cut(cmd))
    ensures CppDecode(PyEncode(cmd).value) == Some(cmd) <==> NulFree(NameIn(cmd))
  {
    var frame := PyEncode(cmd).value;
    TickerDecodes(NameIn(cmd));
    WholeTicker(NameIn(cmd));
    match cmd
    case Add(o) =>
      AddRoundTrip(o, [], UpToNul(o.ticker));
      assert frame[1..] == PackAdd(o) + [];
    case Cancel(c) =>
      var tail := Zeros(ADD_SIZE - CANCEL_SIZE);
      CancelRoundTrip(c, tail, UpToNul(c.ticker));
      assert frame[1..] == PackCancel(c) + tail;
  }

  /** Frames that decode are exactly those whose ticker field is terminated, whatever else they
      hold. */
  lemma DecodableExactlyWhen(frame: seq<Byte>)
    requires |frame| == INBOUND_SIZE
    ensures CppDecode(frame).Some? <==> exists i :: 17 <= i < 33 && frame[i] == 0
  {
    var field := frame[1..][16..32];
    assert forall i :: 0 <= i < 16 ==> field[i] == frame[i + 17];
    var n := NulLength(field);
    if n < 16 {
      assert frame[n + 17] == 0;
    } else {
      assert forall i :: 17 <= i < 33 ==> frame[i] == field[i - 17] != 0;
    }
  }

  // ----- outbound: C++ exchange to Python listener -----

  predicate EventFits(e: Event) {
    match e
    case AddEvent(o) => AddFits(o)
    case CancelEvent(c) => CancelFits(c)
    case TradeEvent(t) => TradeFits(t)
  }

  function EventSize(e: Event): nat {
    match e
    case AddEvent(_) => ADD_SIZE
    case CancelEvent(_) => CANCEL_SIZE
    case TradeEvent(_) => TRADE_SIZE
  }

  /** The union is as large as its largest member; `tail` is whatever fills the rest. */
  function CppEncode(e: Event, tail: seq<Byte>): (s: seq<Byte>)
    requires EventFits(e) && |tail| + EventSize(e) + 1 == MARKET_SIZE
    ensures |s| == MARKET_SIZE
  {
    match e
    case AddEvent(o) => [0] + (PackAdd(o) + tail)
    case CancelEvent(c) => [1] + (PackCancel(c) + tail)
    case TradeEvent(t) => [2] + (PackTrade(t) + tail)
  }

  /** Assignment to the packed field at offset `at`, right behind the fields already set, in a
      record of `size` bytes. */
  method SetField(msg: array<Byte>, at: nat, bytes: seq<Byte>, ghost fields: seq<Byte>, ghost size: nat)
    requires at == |fields| && at + |bytes| <= size <= msg.Length && msg[..at] == fields
    modifies msg
    ensures msg[..at + |bytes|] == fields + bytes
    ensures msg[size..] == old(msg[size..])
  {
    forall i | 0 <= i < |bytes| {
      msg[at + i] := bytes[i];
    }
    assert msg[..at] == fields && msg[at..at + |bytes|] == bytes;
    assert msg[..at + |bytes|] == msg[..at] + msg[at..at + |bytes|];
  }

  /** The ticker encoder on the field at offset `at`: clear it, then copy the characters over it. */
  method EncodeTicker(ticker: Ticker, msg: array<Byte>, at: nat, ghost fields: seq<Byte>, ghost size: nat)
    requires WireTicker(ticker)
    requires at == |fields| && at + WIRE_TICKER_SIZE <= size <= msg.Length && msg[..at] == fields
    modifies msg
    ensures msg[..at + WIRE_TICKER_SIZE] == fields + PadTicker(ticker)
    ensures msg[size..] == old(msg[size..])
  {
    forall i | at <= i < at + WIRE_TICKER_SIZE {
      msg[i] := 0;
    }
    forall i | 0 <= i < |ticker| {
      msg[at + i] := ticker[i] as int;
    }
    assert msg[..at] == fields && msg[at..at + WIRE_TICKER_SIZE] == PadTicker(ticker);
    assert msg[..at + WIRE_TICKER_SIZE] == msg[..at] + msg[at..at + WIRE_TICKER_SIZE];
  }

  lemma Assemble(msg: seq<Byte>, kind: seq<Byte>, payload: seq<Byte>)
    requires |kind| + |payload| <= |msg| && msg[..|kind| + |payload|] == kind + payload
    ensures msg == kind + (payload + msg[|kind| + |payload|..])
  {
    assert msg == msg[..|kind| + |payload|] + msg[|kind| + |payload|..];
  }

  /** The bytes of `msg` behind the first `n`. */
  ghost function Behind(msg: array<Byte>, n: nat): seq<Byte>
    requires n <= msg.Length
    reads msg
  {
    msg[n..]
  }

  method EncodeOrderAddEvent(o: OrderAdd, msg: array<Byte>)
    requires AddFits(o) && msg.Length == MARKET_SIZE
    modifies msg
    ensures msg[..] == CppEncode(AddEvent(o), old(Behind(msg, 50)))
    ensures msg[0] == 0 && msg[33] == if o.side.Buy? then 0 else 1
  {
    SetField(msg, 0, [0], [], 50);
    ghost var f := [0];
    SetField(msg, 1, EncodeInt(o.orderId), f, 50);    f := f + EncodeInt(o.orderId);
    SetField(msg, 9, EncodeInt(o.userId), f, 50);     f := f + EncodeInt(o.userId);
    EncodeTicker(o.ticker, msg, 17, f, 50);           f := f + PadTicker(o.ticker);
    SetField(msg, 33, [SideByte(o.side)], f, 50);     f := f + [SideByte(o.side)];
    SetField(msg, 34, EncodeInt(o.price), f, 50);     f := f + EncodeInt(o.price);
    SetField(msg, 42, EncodeInt(o.volume), f, 50);    f := f + EncodeInt(o.volume);
    assert f == [0] + PackAdd(o);
    Assemble(msg[..], [0], PackAdd(o));
    assert msg[33] == ([0] + PackAdd(o))[33];
  }

  method EncodeOrderCancelEvent(c: OrderCancel, msg: array<Byte>)
    requires CancelFits(c) && msg.Length == MARKET_SIZE
    modifies msg
    ensures msg[..] == CppEncode(CancelEvent(c), old(Behind(msg, 33)))
    ensures msg[0] == 1
  {
    SetField(msg, 0, [1], [], 33);
    ghost var f := [1];
    SetField(msg, 1, EncodeInt(c.orderId), f, 33);    f := f + EncodeInt(c.orderId);
    SetField(msg, 9, EncodeInt(c.userId), f, 33);     f := f + EncodeInt(c.userId);
    EncodeTicker(c.ticker, msg, 17, f, 33);           f := f + PadTicker(c.ticker);
    assert f == [1] + PackCancel(c);
    Assemble(msg[..], [1], PackCancel(c));
  }

  method SetParties(t: Trade, msg: array<Byte>)
    requires TradeFits(t) && msg.Length == MARKET_SIZE
    modifies msg
    ensures msg[..33] == [2] + PackParties(t)
  {
    SetField(msg, 0, [2], [], 66);
    ghost var f := [2];
    SetField(msg, 1, EncodeInt(t.makerId), f, 66);          f := f + EncodeInt(t.makerId);
    SetField(msg, 9, EncodeInt(t.takerId), f, 66);          f := f + EncodeInt(t.takerId);
    SetField(msg, 17, EncodeInt(t.makerOrderId), f, 66);    f := f + EncodeInt(t.makerOrderId);
    SetField(msg, 25, EncodeInt(t.takerOrderId), f, 66);    f := f + EncodeInt(t.takerOrderId);
    assert f == [2] + PackParties(t);
  }

  method EncodeTradeEvent(t: Trade, msg: array<Byte>)
    requires TradeFits(t) && msg.Length == MARKET_SIZE
    modifies msg
    ensures msg[..] == CppEncode(TradeEvent(t), [])
    ensures msg[0] == 2 && msg[49] == if t.takerSide.Buy? then 0 else 1
  {
    SetParties(t, msg);
    ghost var f := [2] + PackParties(t);
    EncodeTicker(t.ticker, msg, 33, f, 66);                 f := f + PadTicker(t.ticker);
    SetField(msg, 49, [SideByte(t.takerSide)], f, 66);      f := f + [SideByte(t.takerSide)];
    SetField(msg, 50, EncodeInt(t.executionPrice), f, 66);  f := f + EncodeInt(t.executionPrice);
    SetField(msg, 58, EncodeInt(t.volume), f, 66);          f := f + EncodeInt(t.volume);
    assert f == [2] + (PackTrade(t) + []);
    assert msg[..] == msg[..66];
    assert msg[49] == f[49];
  }

  datatype Decoded = Known(event: Event) | Unknown | Raises

  function PyDecode(data: seq<Byte>): Decoded {
    if |data| != MARKET_SIZE then Raises
    else
      var payload := data[1..];
      if data[0] == 0 then
        var o := UnpackAdd(payload, PyDecodeTicker(payload[16..32]));
        if o.Some? then Known(AddEvent(o.value)) else Raises
      else if data[0] == 1 then
        var c := UnpackCancel(payload, PyDecodeTicker(payload[16..32]));
        if c.Some? then Known(CancelEvent(c.value)) else Raises
      else if data[0] == 2 then
        var t := UnpackTrade(payload, PyDecodeTicker(payload[32..48]));
        if t.Some? then Known(TradeEvent(t.value)) else Raises
      else Unknown
  }

  function NameOn(e: Event): Ticker {
    match e
    case AddEvent(o) => o.ticker
    case CancelEvent(c) => c.ticker
    case TradeEvent(t) => t.ticker
  }

  function Renamed(e: Event, ticker: Ticker): Event {
    match e
    case AddEvent(o) => AddEvent(o.(ticker := ticker))
    case CancelEvent(c) => CancelEvent(c.(ticker := ticker))
    case TradeEvent(t) => TradeEvent(t.(ticker := ticker))
  }

  /** A published event with any C++ ticker reaches the listener with the ticker cut at the first
      NUL, unless that is not ASCII, when the listener raises; so it arrives as the same event
      exactly when its ticker is ASCII and NUL-free. */
  lemma MarketRoundTrip(e: Event, tail: seq<Byte>)
    requires EventFits(e) && |tail| + EventSize(e) + 1 == MARKET_SIZE
    ensures var name := UpToNul(NameOn(e));
            PyDecode(CppEncode(e, tail)) == if Ascii(name) then Known(Renamed(e, name)) else Raises
    ensures PyDecode(CppEncode(e, tail)) == Known(e) <==> Plain(NameOn(e))
  {
    var data, name := CppEncode(e, tail), UpToNul(NameOn(e));
    TickerDecodes(NameOn(e));
    WholeTicker(NameOn(e));
    match e
    case AddEvent(o) =>
      AddRoundTrip(o, tail, name);
      assert data[1..] == PackAdd(o) + tail;
    case CancelEvent(c) =>
      CancelRoundTrip(c, tail, name);
      assert data[1..] == PackCancel(c) + tail;
    case TradeEvent(t) =>
      TradeRoundTrip(t, tail, name);
      assert data[1..] == PackTrade(t) + tail;
  }
}
