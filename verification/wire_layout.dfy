/** The wire format byte by byte: what stands at each offset of the frames and datagrams that are
    written, and what is read from each offset of those that arrive. */
module WireLayout {
  import opened Types
  import opened Wire

  // ----- fields -----

  /** From offset `at`, the 64-bit two's complement of `n`, low byte first. */
  predicate IntAt(s: seq<Byte>, at: nat, n: int) {
    at + 8 <= |s| && forall k :: 0 <= k < 8 ==> s[at + k] == n % 0x1_0000_0000_0000_0000 / Pow256(k) % 256
  }

  /** From offset `at`, sixteen bytes: the characters, then NULs. */
  predicate TickerAt(s: seq<Byte>, at: nat, t: Ticker) {
    at + 16 <= |s| && |t| <= 15
    && forall k :: 0 <= k < 16 ==> s[at + k] == if k < |t| then t[k] as int else 0
  }

  predicate SideAt(s: seq<Byte>, at: nat, side: Side) {
    at < |s| && s[at] == match side case Buy => 0 case Sell => 1
  }

  predicate AddAt(s: seq<Byte>, o: OrderAdd) {
    && IntAt(s, 1, o.orderId) && IntAt(s, 9, o.userId) && TickerAt(s, 17, o.ticker)
    && SideAt(s, 33, o.side) && IntAt(s, 34, o.price) && IntAt(s, 42, o.volume)
  }

  predicate CancelAt(s: seq<Byte>, c: OrderCancel) {
    IntAt(s, 1, c.orderId) && IntAt(s, 9, c.userId) && TickerAt(s, 17, c.ticker)
  }

  predicate TradeAt(s: seq<Byte>, t: Trade) {
    && IntAt(s, 1, t.makerId) && IntAt(s, 9, t.takerId)
    && IntAt(s, 17, t.makerOrderId) && IntAt(s, 25, t.takerOrderId) && TickerAt(s, 33, t.ticker)
    && SideAt(s, 49, t.takerSide) && IntAt(s, 50, t.executionPrice) && IntAt(s, 58, t.volume)
  }

  // ----- digits -----

  lemma DivideTwice(n: nat, d: nat)
    requires d > 0
    ensures n / 256 / d == n / (256 * d)
  {
    var q, r := n / 256 / d, n / 256 % d;
    assert n / 256 == q * d + r;
    assert n == (256 * d) * q + (256 * r + n % 256);
    Quotient(n, 256 * d, q, 256 * r + n % 256);
  }

  lemma Quotient(n: nat, d: nat, q: nat, r: nat)
    requires d > 0 && n == d * q + r && r < d
    ensures n / d == q
  {
    var e := n / d - q;
    assert n == d * (n / d) + n % d;
    assert d * e == d * (n / d) - d * q;
    assert e >= 1 ==> d * e >= d;
    assert e <= -1 ==> d * e + d <= 0;
  }

  lemma {:induction false} Digit(n: nat, size: nat, k: nat)
    requires k < size
    ensures LittleEndian(n, size)[k] == n / Pow256(k) % 256
  {
    if k == 0 {
    } else {
      Digit(n / 256, size - 1, k - 1);
      DivideTwice(n, Pow256(k - 1));
    }
  }

  lemma Complement(n: int)
    requires Int64(n)
    ensures n % 0x1_0000_0000_0000_0000 == if n < 0 then n + TWO_64 else n
  {
  }

  lemma EncodedAt(s: seq<Byte>, at: nat, n: int)
    requires Int64(n) && at + 8 <= |s| && s[at..at + 8] == EncodeInt(n)
    ensures IntAt(s, at, n)
  {
    Complement(n);
    forall k | 0 <= k < 8 ensures s[at + k] == n % 0x1_0000_0000_0000_0000 / Pow256(k) % 256 {
      Digit(if n < 0 then n + TWO_64 else n, 8, k);
      assert s[at + k] == s[at..at + 8][k];
    }
  }

  lemma PaddedAt(s: seq<Byte>, at: nat, t: Ticker)
    requires WireTicker(t) && at + 16 <= |s| && s[at..at + 16] == PadTicker(t)
    ensures TickerAt(s, at, t)
  {
    forall k | 0 <= k < 16 ensures s[at + k] == if k < |t| then t[k] as int else 0 {
      assert s[at + k] == s[at..at + 16][k];
    }
  }

  // ----- what is written -----

  lemma AddPacked(kind: Byte, o: OrderAdd, tail: seq<Byte>)
    requires AddFits(o)
    ensures AddAt([kind] + (PackAdd(o) + tail), o)
  {
    var s := [kind] + (PackAdd(o) + tail);
    assert s[1..9] == EncodeInt(o.orderId) && s[9..17] == EncodeInt(o.userId);
    assert s[17..33] == PadTicker(o.ticker) && s[33] == SideByte(o.side);
    assert s[34..42] == EncodeInt(o.price) && s[42..50] == EncodeInt(o.volume);
    EncodedAt(s, 1, o.orderId);
    EncodedAt(s, 9, o.userId);
    PaddedAt(s, 17, o.ticker);
    EncodedAt(s, 34, o.price);
    EncodedAt(s, 42, o.volume);
  }

  lemma CancelPacked(kind: Byte, c: OrderCancel, tail: seq<Byte>)
    requires CancelFits(c)
    ensures CancelAt([kind] + (PackCancel(c) + tail), c)
  {
    var s := [kind] + (PackCancel(c) + tail);
    assert s[1..9] == EncodeInt(c.orderId) && s[9..17] == EncodeInt(c.userId) && s[17..33] == PadTicker(c.ticker);
    EncodedAt(s, 1, c.orderId);
    EncodedAt(s, 9, c.userId);
    PaddedAt(s, 17, c.ticker);
  }

  lemma TradePacked(kind: Byte, t: Trade, tail: seq<Byte>)
    requires TradeFits(t)
    ensures TradeAt([kind] + (PackTrade(t) + tail), t)
  {
    var s := [kind] + (PackTrade(t) + tail);
    assert s[1..9] == EncodeInt(t.makerId) && s[9..17] == EncodeInt(t.takerId);
    assert s[17..25] == EncodeInt(t.makerOrderId) && s[25..33] == EncodeInt(t.takerOrderId);
    assert s[33..49] == PadTicker(t.ticker) && s[49] == SideByte(t.takerSide);
    assert s[50..58] == EncodeInt(t.executionPrice) && s[58..66] == EncodeInt(t.volume);
    EncodedAt(s, 1, t.makerId);
    EncodedAt(s, 9, t.takerId);
    EncodedAt(s, 17, t.makerOrderId);
    EncodedAt(s, 25, t.takerOrderId);
    PaddedAt(s, 33, t.ticker);
    EncodedAt(s, 50, t.executionPrice);
    EncodedAt(s, 58, t.volume);
  }

  /** What the Python client sends: fifty bytes, 0 and an add or 1 and a cancel with zeros behind. */
  lemma PyLayout(cmd: Command)
    requires PyEncode(cmd).Some?
    ensures var s := PyEncode(cmd).value;
            && |s| == 50
            && match cmd
               case Add(o) => s[0] == 0 && AddAt(s, o)
               case Cancel(c) => s[0] == 1 && CancelAt(s, c) && forall i :: 33 <= i < 50 ==> s[i] == 0
  {
    match cmd
    case Add(o) =>
      AddPacked(0, o, []);
      assert PackAdd(o) + [] == PackAdd(o);
    case Cancel(c) =>
      CancelPacked(1, c, Zeros(17));
  }

  predicate Fits64(n: int) {
    -0x8000_0000_0000_0000 <= n <= 0x7fff_ffff_ffff_ffff
  }

  /** It sends exactly the commands whose numbers have 64 bits and whose ticker is at most fifteen
      ASCII characters; for any other it raises. */
  lemma PySendsExactlyWhen(cmd: Command)
    ensures PyEncode(cmd).Some? <==>
              && |NameIn(cmd)| <= 15 && (forall i :: 0 <= i < |NameIn(cmd)| ==> NameIn(cmd)[i] as int < 128)
              && match cmd
                 case Add(o) => Fits64(o.orderId) && Fits64(o.userId) && Fits64(o.price) && Fits64(o.volume)
                 case Cancel(c) => Fits64(c.orderId) && Fits64(c.userId)
  {
    assert Ascii(NameIn(cmd)) ==> forall i :: 0 <= i < |NameIn(cmd)| ==> NameIn(cmd)[i] as int < 256;
  }

  /** What the exchange publishes: sixty-six bytes, 0 and an add, 1 and a cancel or 2 and a trade,
      with whatever was there behind the shorter two. */
  lemma CppLayout(e: Event, tail: seq<Byte>)
    requires EventFits(e) && |tail| + EventSize(e) + 1 == MARKET_SIZE
    ensures var s := CppEncode(e, tail);
            && |s| == 66
            && match e
               case AddEvent(o) => s[0] == 0 && AddAt(s, o) && s[50..] == tail
               case CancelEvent(c) => s[0] == 1 && CancelAt(s, c) && s[33..] == tail
               case TradeEvent(t) => s[0] == 2 && TradeAt(s, t)
  {
    match e
    case AddEvent(o) => AddPacked(0, o, tail);
    case CancelEvent(c) => CancelPacked(1, c, tail);
    case TradeEvent(t) => TradePacked(2, t, tail);
  }

  // ----- what is read -----

  lemma DecodedAt(s: seq<Byte>, at: nat)
    requires 0 < at && at + 8 <= |s|
    ensures IntAt(s, at, DecodeInt(s[1..][at - 1..at + 7]))
  {
    var field := s[1..][at - 1..at + 7];
    assert field == s[at..at + 8];
    IntBytesRoundTrip(field);
    EncodedAt(s, at, DecodeInt(field));
  }

  /** From offset `at`, the characters, none of them NUL, and a NUL unless all `size` bytes are used. */
  predicate NameAt(s: seq<Byte>, at: nat, size: nat, t: Ticker) {
    && at + size <= |s| && |t| <= size && (|t| < size ==> s[at + |t|] == 0)
    && forall k :: 0 <= k < |t| ==> s[at + k] == t[k] as int && s[at + k] != 0
  }

  predicate ReadsAdd(s: seq<Byte>, o: OrderAdd)
    requires |s| >= 50
  {
    && IntAt(s, 1, o.orderId) && IntAt(s, 9, o.userId) && NameAt(s, 17, 16, o.ticker)
    && (o.side.Buy? <==> s[33] == 0) && IntAt(s, 34, o.price) && IntAt(s, 42, o.volume)
  }

  predicate ReadsCancel(s: seq<Byte>, c: OrderCancel) {
    IntAt(s, 1, c.orderId) && IntAt(s, 9, c.userId) && NameAt(s, 17, 16, c.ticker)
  }

  predicate ReadsTrade(s: seq<Byte>, t: Trade)
    requires |s| >= 66
  {
    && IntAt(s, 1, t.makerId) && IntAt(s, 9, t.takerId)
    && IntAt(s, 17, t.makerOrderId) && IntAt(s, 25, t.takerOrderId) && NameAt(s, 33, 16, t.ticker)
    && (t.takerSide.Buy? <==> s[49] == 0) && IntAt(s, 50, t.executionPrice) && IntAt(s, 58, t.volume)
  }

  lemma CppNameAt(s: seq<Byte>, at: nat)
    requires 0 < at && at + 16 <= |s|
    ensures var t := CppDecodeTicker(s[1..][at - 1..at + 15]);
            if t.None? then forall i :: at <= i < at + 16 ==> s[i] != 0
            else |t.value| <= 15 && NameAt(s, at, 16, t.value)
  {
    FieldAt(s, at);
  }

  /** A byte outside ASCII at offset `i`, before any NUL of the ticker field at `at`. */
  predicate HighByteIn(s: seq<Byte>, at: nat, i: nat) {
    at <= i < at + 16 <= |s| && s[i] >= 128 && forall j :: at <= j < i ==> s[j] != 0
  }

  ghost predicate NotAscii(s: seq<Byte>, at: nat) {
    exists i :: HighByteIn(s, at, i)
  }

  /** The name in a ticker field, and what makes Python refuse it. */
  lemma PyNameAt(s: seq<Byte>, at: nat)
    requires 0 < at && at + 16 <= |s|
    ensures var t := PyDecodeTicker(s[1..][at - 1..at + 15]);
            if t.None? then NotAscii(s, at) else NameAt(s, at, 16, t.value) && Ascii(t.value)
  {
    FieldAt(s, at);
    var field := s[1..][at - 1..at + 15];
    var name := field[..NulLength(field)];
    if !(forall i :: 0 <= i < |name| ==> name[i] < 128) {
      var i :| 0 <= i < |name| && name[i] >= 128;
      assert field[i] == s[at + i];
      assert HighByteIn(s, at, at + i);
    }
  }

  lemma FieldAt(s: seq<Byte>, at: nat)
    requires 0 < at && at + 16 <= |s|
    ensures var field := s[1..][at - 1..at + 15];
            |field| == 16 && forall i :: 0 <= i < 16 ==> field[i] == s[at + i]
  {
  }

  lemma AddDecodedAt(s: seq<Byte>)
    requires |s| >= 50
    ensures IntAt(s, 1, DecodeInt(s[1..][0..8])) && IntAt(s, 9, DecodeInt(s[1..][8..16]))
    ensures IntAt(s, 34, DecodeInt(s[1..][33..41])) && IntAt(s, 42, DecodeInt(s[1..][41..49]))
  {
    DecodedAt(s, 1);
    DecodedAt(s, 9);
    DecodedAt(s, 34);
    DecodedAt(s, 42);
  }

  lemma TradeDecodedAt(s: seq<Byte>)
    requires |s| == 66
    ensures IntAt(s, 1, DecodeInt(s[1..][0..8])) && IntAt(s, 9, DecodeInt(s[1..][8..16]))
    ensures IntAt(s, 17, DecodeInt(s[1..][16..24])) && IntAt(s, 25, DecodeInt(s[1..][24..32]))
    ensures IntAt(s, 50, DecodeInt(s[1..][49..57])) && IntAt(s, 58, DecodeInt(s[1..][57..65]))
  {
    DecodedAt(s, 1);
    DecodedAt(s, 9);
    DecodedAt(s, 17);
    DecodedAt(s, 25);
    DecodedAt(s, 50);
    DecodedAt(s, 58);
  }

  /** What the gateway reads in any fifty bytes: an add if the first is 0, else a cancel; a buy if the
      side byte is 0, else a sell; and it throws if the ticker field has no NUL. */
  lemma CppReads(s: seq<Byte>)
    requires |s| == INBOUND_SIZE
    ensures match CppDecode(s)
            case None => forall i :: 17 <= i < 33 ==> s[i] != 0
            case Some(Add(o)) => s[0] == 0 && ReadsAdd(s, o) && |o.ticker| <= 15
            case Some(Cancel(c)) => s[0] != 0 && ReadsCancel(s, c) && |c.ticker| <= 15
  {
    CppNameAt(s, 17);
    AddDecodedAt(s);
  }

  /** What the listener reads in any datagram. */
  lemma PyReads(s: seq<Byte>)
    ensures match PyDecode(s)
            case Raises => |s| != 66 || NotAscii(s, if s[0] == 2 then 33 else 17)
            case Unknown => |s| == 66 && s[0] > 2
            case Known(AddEvent(o)) => |s| == 66 && s[0] == 0 && ReadsAdd(s, o)
            case Known(CancelEvent(c)) => |s| == 66 && s[0] == 1 && ReadsCancel(s, c)
            case Known(TradeEvent(t)) => |s| == 66 && s[0] == 2 && ReadsTrade(s, t)
  {
    if |s| == 66 {
      if s[0] < 2 {
        PyNameAt(s, 17);
        AddDecodedAt(s);
      } else if s[0] == 2 {
        PyNameAt(s, 33);
        TradeDecodedAt(s);
      }
    }
  }
}
