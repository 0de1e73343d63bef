/** The automatic position book of one user, account, mode and symbol: fills open, average, close,
    reverse and finally become journal trades, with nothing lost on the way. */
module Positions {
  import opened Common

  datatype Action = Buy | Sell
  datatype OcType = New | Cover | Auto
  datatype Direction = Long | Short

  /** A fill as its constructor admits it: positive quantity and price. */
  datatype Fill = Fill(action: Action, octype: OcType, price: real, qty: int, fee: Option<real>)

  predicate FillOk(f: Fill) { f.qty > 0 && f.price > 0.0 }

  datatype Position = Position(
    lots: int, entryNotional: real, openFee: real, closed: int, exitNotional: real, closeFee: real)

  datatype Trade = Trade(direction: Direction, entry: real, exit: real, size: int, pointValue: real, fee: real, pnl: real)

  datatype Book = Book(long: Option<Position>, short: Option<Position>, trades: seq<Trade>)

  const Flat := Book(None, None, [])

  datatype Mismatch = MissingFee | NothingToCover | Ambiguous | TradeRejected

  datatype Outcome<T> = Done(value: T) | Fails(error: Mismatch)

  // ---- Journal ----

  function ComputePnl(d: Direction, entry: real, exit: Option<real>, size: int, pointValue: real, fee: Option<real>): Option<real> {
    if exit.None? then None
    else
      var move := if d == Long then exit.value - entry else entry - exit.value;
      Some(move * size as real * pointValue - if fee.Some? then fee.value else 0.0)
  }

  // ---- The book ----

  function SimFeePerLot(): real { 20.0 }

  /** A missing fee is estimated for simulated fills and refused for real ones. */
  function ResolveFee(f: Fill, mode: Mode): Outcome<real> {
    if f.fee.Some? then Done(f.fee.value)
    else if mode == Real then Fails(MissingFee)
    else Done(SimFeePerLot() * f.qty as real)
  }

  function Side(b: Book, d: Direction): Option<Position> { if d == Long then b.long else b.short }

  function WithSide(b: Book, d: Direction, p: Option<Position>): Book {
    if d == Long then b.(long := p) else b.(short := p)
  }

  function Remaining(p: Position): int { p.lots - p.closed }

  function OpenQty(b: Book, d: Direction, qty: int, price: real, fee: real): Book {
    var p := Side(b, d);
    var n :=
      if p.None? then Position(qty, price * qty as real, fee, 0, 0.0, 0.0)
      else p.value.(lots := p.value.lots + qty, entryNotional := p.value.entryNotional + price * qty as real,
                    openFee := p.value.openFee + fee);
    WithSide(b, d, Some(n))
  }

  function Opposite(d: Direction): Direction { if d == Long then Short else Long }

  /** The journal trade of a fully closed position. */
  function TradeOf(p: Position, d: Direction, pointValue: real): (t: Trade)
    requires p.lots > 0 && p.closed > 0
  {
    var entry, exit, fee := p.entryNotional / p.lots as real, p.exitNotional / p.closed as real, p.openFee + p.closeFee;
    Trade(d, entry, exit, p.lots, pointValue, fee, ComputePnl(d, entry, Some(exit), p.lots, pointValue, Some(fee)).value)
  }

  /** The journal's own checks. */
  predicate TradeOk(t: Trade) { t.entry > 0.0 && t.exit > 0.0 && t.size > 0 && t.pointValue > 0.0 && t.fee >= 0.0 }

  predicate PositionOk(p: Position) {
    p.lots > 0 && 0 <= p.closed < p.lots && p.entryNotional > 0.0
    && (if p.closed == 0 then p.exitNotional == 0.0 else p.exitNotional > 0.0)
  }

  predicate BookOk(b: Book) {
    (b.long.Some? ==> PositionOk(b.long.value)) && (b.short.Some? ==> PositionOk(b.short.value))
  }

  /** Fee of the excess: its share of the lots; the consumed part keeps the rest. */
  function FeeExcess(fee: real, excess: int, qty: int): real
    requires qty > 0
  {
    if excess > 0 then fee * excess as real / qty as real else 0.0
  }

  /** The position after some lots of the fill have been taken into it. */
  function Taken(p: Position, f: Fill, consumed: int, fee: real): Position {
    p.(closed := p.closed + consumed, exitNotional := p.exitNotional + f.price * consumed as real, closeFee := p.closeFee + fee)
  }

  function Consumed(p: Position, f: Fill): int { if f.qty <= Remaining(p) then f.qty else Remaining(p) }

  /** The book after a position has been closed to the last lot and written to the journal. */
  function Shut(b: Book, d: Direction, n: Position, pointValue: real): Book
    requires n.lots > 0 && n.closed > 0
  {
    WithSide(b, d, None).(trades := b.trades + [TradeOf(n, d, pointValue)])
  }

  function Close(b: Book, d: Direction, f: Fill, fee: real, pointValue: real): Outcome<Book>
    requires FillOk(f) && BookOk(b)
  {
    var s := Side(b, d);
    if s.None? then Fails(NothingToCover)
    else
      var p := s.value;
      var excess := f.qty - Consumed(p, f);
      var feeExcess := FeeExcess(fee, excess, f.qty);
      var n := Taken(p, f, Consumed(p, f), fee - feeExcess);
      if n.closed < n.lots then Done(WithSide(b, d, Some(n)))
      else if !TradeOk(TradeOf(n, d, pointValue)) then Fails(TradeRejected)
      else
        var shut := Shut(b, d, n, pointValue);
        Done(if excess > 0 then OpenQty(shut, Opposite(d), excess, f.price, feeExcess) else shut)
  }

  function Opens(a: Action): Direction { if a == Buy then Long else Short }

  /** The single entry: a failed fill leaves nothing behind. */
  function ApplyFill(b: Book, f: Fill, mode: Mode, pointValue: real): Outcome<Book>
    requires FillOk(f) && BookOk(b)
  {
    var fee := ResolveFee(f, mode);
    if fee.Fails? then Fails(fee.error)
    else
      var covers := Opposite(Opens(f.action));
      match f.octype
      case New => Done(OpenQty(b, Opens(f.action), f.qty, f.price, fee.value))
      case Cover => Close(b, covers, f, fee.value, pointValue)
      case Auto =>
        if Side(b, covers).Some? && Side(b, Opens(f.action)).Some? then Fails(Ambiguous)
        else if Side(b, covers).Some? then Close(b, covers, f, fee.value, pointValue)
        else Done(OpenQty(b, Opens(f.action), f.qty, f.price, fee.value))
  }

  // ---- What is conserved ----

  function CashFlow(f: Fill, fee: real, pointValue: real): real {
    (if f.action == Sell then f.price * f.qty as real * pointValue else -(f.price * f.qty as real * pointValue)) - fee
  }

  /** Signed notional and fees an open position carries. */
  function Carry(p: Option<Position>, d: Direction, pointValue: real): real {
    if p.None? then 0.0
    else
      (if d == Long then (p.value.exitNotional - p.value.entryNotional) * pointValue
       else (p.value.entryNotional - p.value.exitNotional) * pointValue)
      - p.value.openFee - p.value.closeFee
  }

  function Realized(trades: seq<Trade>): real {
    if trades == [] then 0.0 else Realized(trades[..|trades| - 1]) + trades[|trades| - 1].pnl
  }

  /** Everything the book accounts for: journal profit and loss plus what is still open. */
  function Worth(b: Book, pointValue: real): real {
    Realized(b.trades) + Carry(b.long, Long, pointValue) + Carry(b.short, Short, pointValue)
  }

  function Net(b: Book): int {
    (if b.long.Some? then Remaining(b.long.value) else 0) - (if b.short.Some? then Remaining(b.short.value) else 0)
  }

  function Signed(f: Fill): int { if f.action == Buy then f.qty else -f.qty }

  lemma DivMul(x: real, n: int)
    requires n > 0
    ensures (x / n as real) * n as real == x
  {
  }

  /** A closed position's profit is the difference of its notionals, less its fees. */
  lemma PnlIsCarry(p: Position, d: Direction, pointValue: real)
    requires p.lots > 0 && p.closed == p.lots
    ensures TradeOf(p, d, pointValue).pnl == Carry(Some(p), d, pointValue)
  {
    var n := p.lots as real;
    var entry, exit := p.entryNotional / n, p.exitNotional / n;
    DivMul(p.entryNotional, p.lots);
    DivMul(p.exitNotional, p.lots);
    assert (exit - entry) * n == p.exitNotional - p.entryNotional;
    assert (entry - exit) * n == p.entryNotional - p.exitNotional;
  }

  lemma Scaled(a: real, b: real, c: real)
    ensures (a + b) * c == a * c + b * c && (a - b) * c == a * c - b * c
  {
  }

  lemma OpenConserves(b: Book, d: Direction, qty: int, price: real, fee: real, pointValue: real)
    requires BookOk(b) && qty > 0 && price > 0.0
    ensures var n := OpenQty(b, d, qty, price, fee);
      && BookOk(n) && n.trades == b.trades
      && Net(n) == Net(b) + (if d == Long then qty else -qty)
      && Worth(n, pointValue) == Worth(b, pointValue)
                                 + (if d == Long then -(price * qty as real * pointValue) else price * qty as real * pointValue) - fee
  {
    var x := price * qty as real;
    assert x > 0.0;
    var p := Side(b, d);
    if p.Some? {
      Scaled(p.value.exitNotional, p.value.entryNotional, pointValue);
      Scaled(p.value.entryNotional, p.value.exitNotional, pointValue);
      Scaled(p.value.exitNotional, p.value.entryNotional + x, pointValue);
      Scaled(p.value.entryNotional + x, p.value.exitNotional, pointValue);
      Scaled(p.value.entryNotional, x, pointValue);
    } else {
      Scaled(0.0, x, pointValue);
      Scaled(x, 0.0, pointValue);
    }
  }

  /** Moving lots from the open to the closed side of a position. */
  lemma ConsumeConserves(p: Position, d: Direction, consumed: int, price: real, fee: real, pointValue: real)
    ensures var n := p.(closed := p.closed + consumed, exitNotional := p.exitNotional + price * consumed as real,
                        closeFee := p.closeFee + fee);
      Carry(Some(n), d, pointValue)
      == Carry(Some(p), d, pointValue)
         + (if d == Long then price * consumed as real * pointValue else -(price * consumed as real * pointValue)) - fee
  {
    var x := price * consumed as real;
    Scaled(p.exitNotional, p.entryNotional, pointValue);
    Scaled(p.entryNotional, p.exitNotional, pointValue);
    Scaled(p.exitNotional + x, p.entryNotional, pointValue);
    Scaled(p.entryNotional, p.exitNotional + x, pointValue);
    Scaled(p.exitNotional, x, pointValue);
  }

  lemma RealizedAppend(trades: seq<Trade>, t: Trade)
    ensures Realized(trades + [t]) == Realized(trades) + t.pnl
  {
    assert (trades + [t])[..|trades|] == trades;
  }

  lemma SplitNotional(price: real, consumed: int, excess: int, pointValue: real)
    ensures price * (consumed + excess) as real * pointValue
         == price * consumed as real * pointValue + price * excess as real * pointValue
  {
    assert (consumed + excess) as real == consumed as real + excess as real;
    Scaled(price * consumed as real, price * excess as real, pointValue);
    assert price * (consumed as real + excess as real) == price * consumed as real + price * excess as real;
  }

  /** Carry of both sides and realized profit, however the sides are named. */
  lemma WorthBySide(b: Book, d: Direction, pointValue: real)
    ensures Worth(b, pointValue)
         == Realized(b.trades) + Carry(Side(b, d), d, pointValue) + Carry(Side(b, Opposite(d)), Opposite(d), pointValue)
  {
  }

  function CoverCash(d: Direction, price: real, qty: int, pointValue: real): real {
    if d == Long then price * qty as real * pointValue else -(price * qty as real * pointValue)
  }

  lemma PartialClose(b: Book, d: Direction, f: Fill, fee: real, pointValue: real)
    requires FillOk(f) && BookOk(b) && Side(b, d).Some? && f.qty < Remaining(Side(b, d).value)
    ensures var n := WithSide(b, d, Some(Taken(Side(b, d).value, f, f.qty, fee)));
      && Close(b, d, f, fee, pointValue) == Done(n) && BookOk(n)
      && Worth(n, pointValue) == Worth(b, pointValue) + CoverCash(d, f.price, f.qty, pointValue) - fee
  {
    var p := Side(b, d).value;
    var n := WithSide(b, d, Some(Taken(p, f, f.qty, fee)));
    assert f.price * f.qty as real > 0.0;
    WorthBySide(b, d, pointValue);
    WorthBySide(n, d, pointValue);
    ConsumeConserves(p, d, f.qty, f.price, fee, pointValue);
  }

  lemma ShutConserves(b: Book, d: Direction, f: Fill, fee: real, pointValue: real)
    requires FillOk(f) && BookOk(b) && Side(b, d).Some?
    ensures var p := Side(b, d).value; var n := Shut(b, d, Taken(p, f, Remaining(p), fee), pointValue);
      BookOk(n) && Worth(n, pointValue) == Worth(b, pointValue) + CoverCash(d, f.price, Remaining(p), pointValue) - fee
  {
    var p := Side(b, d).value;
    var taken := Taken(p, f, Remaining(p), fee);
    var n := Shut(b, d, taken, pointValue);
    WorthBySide(b, d, pointValue);
    WorthBySide(n, d, pointValue);
    ConsumeConserves(p, d, Remaining(p), f.price, fee, pointValue);
    PnlIsCarry(taken, d, pointValue);
    RealizedAppend(b.trades, TradeOf(taken, d, pointValue));
  }

  lemma CloseShape(b: Book, d: Direction, f: Fill, fee: real, pointValue: real)
    requires FillOk(f) && BookOk(b) && Side(b, d).Some? && f.qty >= Remaining(Side(b, d).value)
    requires Close(b, d, f, fee, pointValue).Done?
    ensures var p := Side(b, d).value; var excess := f.qty - Remaining(p); var feeExcess := FeeExcess(fee, excess, f.qty);
      var shut := Shut(b, d, Taken(p, f, Remaining(p), fee - feeExcess), pointValue);
      Close(b, d, f, fee, pointValue).value == if excess > 0 then OpenQty(shut, Opposite(d), excess, f.price, feeExcess) else shut
  {
  }

  lemma CoverCashSplits(d: Direction, price: real, consumed: int, excess: int, pointValue: real)
    ensures CoverCash(d, price, consumed + excess, pointValue) == CoverCash(d, price, consumed, pointValue) + CoverCash(d, price, excess, pointValue)
  {
    SplitNotional(price, consumed, excess, pointValue);
  }

  lemma ReopenConserves(b: Book, d: Direction, qty: int, price: real, fee: real, pointValue: real)
    requires BookOk(b) && qty > 0 && price > 0.0
    ensures BookOk(OpenQty(b, Opposite(d), qty, price, fee))
    ensures Worth(OpenQty(b, Opposite(d), qty, price, fee), pointValue) == Worth(b, pointValue) + CoverCash(d, price, qty, pointValue) - fee
  {
    OpenConserves(b, Opposite(d), qty, price, fee, pointValue);
  }

  /** Three amounts that add up, whatever they stand for. */
  lemma Chain(before: real, middle: real, after: real, first: real, second: real, whole: real, feeFirst: real, feeSecond: real, fee: real)
    requires middle == before + first - feeFirst && after == middle + second - feeSecond
    requires whole == first + second && fee == feeFirst + feeSecond
    ensures after == before + whole - fee
  {
  }

  lemma ExactClose(b: Book, d: Direction, f: Fill, fee: real, pointValue: real)
    requires FillOk(f) && BookOk(b) && Side(b, d).Some? && f.qty == Remaining(Side(b, d).value)
    requires Close(b, d, f, fee, pointValue).Done?
    ensures var n := Close(b, d, f, fee, pointValue).value;
      BookOk(n) && Worth(n, pointValue) == Worth(b, pointValue) + CoverCash(d, f.price, f.qty, pointValue) - fee
  {
    CloseShape(b, d, f, fee, pointValue);
    assert fee - FeeExcess(fee, 0, f.qty) == fee;
    ShutConserves(b, d, f, fee, pointValue);
  }

  lemma ReverseClose(b: Book, d: Direction, f: Fill, fee: real, pointValue: real)
    requires FillOk(f) && BookOk(b) && Side(b, d).Some? && f.qty > Remaining(Side(b, d).value)
    requires Close(b, d, f, fee, pointValue).Done?
    ensures var n := Close(b, d, f, fee, pointValue).value;
      BookOk(n) && Worth(n, pointValue) == Worth(b, pointValue) + CoverCash(d, f.price, f.qty, pointValue) - fee
  {
    var p := Side(b, d).value;
    var excess := f.qty - Remaining(p);
    var feeExcess := FeeExcess(fee, excess, f.qty);
    var shut := Shut(b, d, Taken(p, f, Remaining(p), fee - feeExcess), pointValue);
    CloseShape(b, d, f, fee, pointValue);
    ShutConserves(b, d, f, fee - feeExcess, pointValue);
    CoverCashSplits(d, f.price, Remaining(p), excess, pointValue);
    ReopenConserves(shut, d, excess, f.price, feeExcess, pointValue);
    Chain(Worth(b, pointValue), Worth(shut, pointValue), Worth(Close(b, d, f, fee, pointValue).value, pointValue),
          CoverCash(d, f.price, Remaining(p), pointValue), CoverCash(d, f.price, excess, pointValue),
          CoverCash(d, f.price, f.qty, pointValue), fee - feeExcess, feeExcess, fee);
  }

  lemma CloseNet(b: Book, d: Direction, f: Fill, fee: real, pointValue: real)
    requires FillOk(f) && BookOk(b) && d == Opposite(Opens(f.action)) && Close(b, d, f, fee, pointValue).Done?
    ensures Net(Close(b, d, f, fee, pointValue).value) == Net(b) + Signed(f)
  {
  }

  lemma CloseConserves(b: Book, d: Direction, f: Fill, fee: real, pointValue: real)
    requires FillOk(f) && BookOk(b) && d == Opposite(Opens(f.action)) && Close(b, d, f, fee, pointValue).Done?
    ensures var n := Close(b, d, f, fee, pointValue).value;
      && BookOk(n) && Net(n) == Net(b) + Signed(f)
      && Worth(n, pointValue) == Worth(b, pointValue) + CoverCash(d, f.price, f.qty, pointValue) - fee
  {
    CloseNet(b, d, f, fee, pointValue);
    if f.qty < Remaining(Side(b, d).value) { PartialClose(b, d, f, fee, pointValue); }
    else if f.qty == Remaining(Side(b, d).value) { ExactClose(b, d, f, fee, pointValue); }
    else { ReverseClose(b, d, f, fee, pointValue); }
  }

  lemma CashOf(f: Fill, fee: real, pointValue: real)
    ensures CashFlow(f, fee, pointValue) == CoverCash(Opposite(Opens(f.action)), f.price, f.qty, pointValue) - fee
    ensures CashFlow(f, fee, pointValue)
         == (if Opens(f.action) == Long then -(f.price * f.qty as real * pointValue) else f.price * f.qty as real * pointValue) - fee
  {
  }

  predicate Closes(b: Book, f: Fill) {
    f.octype == Cover || (f.octype == Auto && Side(b, Opposite(Opens(f.action))).Some?)
  }

  lemma ApplyShape(b: Book, f: Fill, mode: Mode, pointValue: real)
    requires FillOk(f) && BookOk(b) && ApplyFill(b, f, mode, pointValue).Done?
    ensures ResolveFee(f, mode).Done?
    ensures var fee := ResolveFee(f, mode).value; var d := Opens(f.action);
      ApplyFill(b, f, mode, pointValue) ==
        if Closes(b, f) then Close(b, Opposite(d), f, fee, pointValue) else Done(OpenQty(b, d, f.qty, f.price, fee))
  {
  }

  lemma ClosingConserves(b: Book, f: Fill, fee: real, pointValue: real)
    requires FillOk(f) && BookOk(b) && Close(b, Opposite(Opens(f.action)), f, fee, pointValue).Done?
    ensures var n := Close(b, Opposite(Opens(f.action)), f, fee, pointValue).value;
      BookOk(n) && Net(n) == Net(b) + Signed(f) && Worth(n, pointValue) == Worth(b, pointValue) + CashFlow(f, fee, pointValue)
  {
    CashOf(f, fee, pointValue);
    CloseConserves(b, Opposite(Opens(f.action)), f, fee, pointValue);
  }

  lemma OpeningConserves(b: Book, f: Fill, fee: real, pointValue: real)
    requires FillOk(f) && BookOk(b)
    ensures var n := OpenQty(b, Opens(f.action), f.qty, f.price, fee);
      BookOk(n) && Net(n) == Net(b) + Signed(f) && Worth(n, pointValue) == Worth(b, pointValue) + CashFlow(f, fee, pointValue)
  {
    CashOf(f, fee, pointValue);
    OpenConserves(b, Opens(f.action), f.qty, f.price, fee, pointValue);
  }

  /** One accepted fill moves the book's worth by its cash flow and its net by its signed lots. */
  lemma ApplyConserves(b: Book, f: Fill, mode: Mode, pointValue: real)
    requires FillOk(f) && BookOk(b) && ApplyFill(b, f, mode, pointValue).Done?
    ensures ResolveFee(f, mode).Done?
    ensures var n := ApplyFill(b, f, mode, pointValue).value;
      && BookOk(n) && Net(n) == Net(b) + Signed(f)
      && Worth(n, pointValue) == Worth(b, pointValue) + CashFlow(f, ResolveFee(f, mode).value, pointValue)
  {
    ApplyShape(b, f, mode, pointValue);
    var fee := ResolveFee(f, mode).value;
    if Closes(b, f) {
      ClosingConserves(b, f, fee, pointValue);
    } else {
      OpeningConserves(b, f, fee, pointValue);
    }
  }

  // ---- Whole runs ----

  /** The fills in order; a refused one changes nothing. */
  function Folded(fills: seq<Fill>, mode: Mode, pointValue: real): (b: Book)
    requires forall f :: f in fills ==> FillOk(f)
    ensures BookOk(b)
  {
    if fills == [] then Flat
    else
      var b := Folded(fills[..|fills| - 1], mode, pointValue);
      var f := fills[|fills| - 1];
      var r := ApplyFill(b, f, mode, pointValue);
      if r.Done? then
        ApplyConserves(b, f, mode, pointValue);
        r.value
      else b
  }

  predicate Accepted(fills: seq<Fill>, k: nat, mode: Mode, pointValue: real)
    requires k < |fills| && forall f :: f in fills ==> FillOk(f)
  {
    ApplyFill(Folded(fills[..k], mode, pointValue), fills[k], mode, pointValue).Done?
  }

  /** Cash of the accepted fills: sells less buys, in money, less their fees. */
  function Cash(fills: seq<Fill>, mode: Mode, pointValue: real): real
    requires forall f :: f in fills ==> FillOk(f)
  {
    if fills == [] then 0.0
    else
      var n := |fills| - 1;
      Cash(fills[..n], mode, pointValue)
      + if Accepted(fills, n, mode, pointValue) then CashFlow(fills[n], ResolveFee(fills[n], mode).value, pointValue) else 0.0
  }

  function NetFilled(fills: seq<Fill>, mode: Mode, pointValue: real): int
    requires forall f :: f in fills ==> FillOk(f)
  {
    if fills == [] then 0
    else
      var n := |fills| - 1;
      NetFilled(fills[..n], mode, pointValue) + if Accepted(fills, n, mode, pointValue) then Signed(fills[n]) else 0
  }

  /** Main result: at every point of every run, cash of the accepted fills equals journal profit and
      loss plus the signed notional and fees of what is still open, and so do the lots. */
  lemma {:induction false} CashIsConserved(fills: seq<Fill>, mode: Mode, pointValue: real)
    requires forall f :: f in fills ==> FillOk(f)
    ensures Cash(fills, mode, pointValue) == Worth(Folded(fills, mode, pointValue), pointValue)
    ensures NetFilled(fills, mode, pointValue) == Net(Folded(fills, mode, pointValue))
  {
    if fills != [] {
      var n := |fills| - 1;
      CashIsConserved(fills[..n], mode, pointValue);
      if Accepted(fills, n, mode, pointValue) {
        ApplyConserves(Folded(fills[..n], mode, pointValue), fills[n], mode, pointValue);
      }
    }
  }

  /** When the book is flat the journal's profit and loss is the cash, to the last fee. */
  lemma FlatJournalIsCash(fills: seq<Fill>, mode: Mode, pointValue: real)
    requires forall f :: f in fills ==> FillOk(f)
    requires Folded(fills, mode, pointValue).long == None && Folded(fills, mode, pointValue).short == None
    ensures Realized(Folded(fills, mode, pointValue).trades) == Cash(fills, mode, pointValue)
    ensures NetFilled(fills, mode, pointValue) == 0
  {
    CashIsConserved(fills, mode, pointValue);
  }

  /** A fill is refused exactly for one of four reasons. */
  lemma RefusedExactly(b: Book, f: Fill, mode: Mode, pointValue: real)
    requires FillOk(f) && BookOk(b) && pointValue > 0.0
    ensures var covers := Opposite(Opens(f.action));
      var closing := f.octype == Cover || (f.octype == Auto && Side(b, covers).Some? && Side(b, Opens(f.action)) == None);
      ApplyFill(b, f, mode, pointValue).Fails? <==>
        || (f.fee.None? && mode == Real)
        || (f.octype == Cover && Side(b, covers) == None)
        || (f.octype == Auto && Side(b, covers).Some? && Side(b, Opens(f.action)).Some?)
        || (closing && f.qty >= Remaining(Side(b, covers).value) && ClosingFees(b, f, mode) < 0.0)
  {
    var covers := Opposite(Opens(f.action));
    if ResolveFee(f, mode).Done? && Side(b, covers).Some? && f.qty >= Remaining(Side(b, covers).value) {
      TradePrices(Side(b, covers).value, f, ResolveFee(f, mode).value, covers, pointValue);
    }
  }

  /** Fees of the round trip the fill would complete. */
  function ClosingFees(b: Book, f: Fill, mode: Mode): real
    requires FillOk(f) && Side(b, Opposite(Opens(f.action))).Some?
  {
    var p := Side(b, Opposite(Opens(f.action))).value;
    var fee := ResolveFee(f, mode);
    if fee.Fails? then 0.0
    else p.openFee + (p.closeFee + (fee.value - FeeExcess(fee.value, f.qty - Remaining(p), f.qty)))
  }

  lemma TradePrices(p: Position, f: Fill, fee: real, d: Direction, pointValue: real)
    requires FillOk(f) && PositionOk(p) && f.qty >= Remaining(p) && pointValue > 0.0
    ensures var n := p.(closed := p.lots, exitNotional := p.exitNotional + f.price * Remaining(p) as real,
                        closeFee := p.closeFee + (fee - FeeExcess(fee, f.qty - Remaining(p), f.qty)));
      TradeOk(TradeOf(n, d, pointValue)) <==> n.openFee + n.closeFee >= 0.0
  {
    var n := p.(closed := p.lots, exitNotional := p.exitNotional + f.price * Remaining(p) as real,
                closeFee := p.closeFee + (fee - FeeExcess(fee, f.qty - Remaining(p), f.qty)));
    assert f.price * Remaining(p) as real > 0.0;
    Positive(n.entryNotional, n.lots);
    Positive(n.exitNotional, n.lots);
  }

  lemma Positive(x: real, n: int)
    requires x > 0.0 && n > 0
    ensures x / n as real > 0.0
  {
  }

  // ---- Orders ----

  datatype Filled = Filled(qty: int, average: real)

  /** Fills of one order: quantity adds up, the price is re-weighted. */
  function AddFill(o: Filled, f: Fill): Filled
    requires o.qty >= 0 && FillOk(f)
  {
    var qty := o.qty + f.qty;
    Filled(qty, (o.average * o.qty as real + f.price * f.qty as real) / qty as real)
  }

  function AddFills(fills: seq<Fill>): (o: Filled)
    requires forall f :: f in fills ==> FillOk(f)
    ensures o.qty >= 0
  {
    if fills == [] then Filled(0, 0.0) else AddFill(AddFills(fills[..|fills| - 1]), fills[|fills| - 1])
  }

  function Notional(fills: seq<Fill>): real {
    if fills == [] then 0.0 else Notional(fills[..|fills| - 1]) + fills[|fills| - 1].price * fills[|fills| - 1].qty as real
  }

  lemma AddFillExact(o: Filled, f: Fill)
    requires o.qty >= 0 && FillOk(f)
    ensures AddFill(o, f).average * AddFill(o, f).qty as real == o.average * o.qty as real + f.price * f.qty as real
  {
    DivMul(o.average * o.qty as real + f.price * f.qty as real, o.qty + f.qty);
  }

  /** The running average is the exact weighted average of all fills. */
  lemma {:induction false} AverageIsExact(fills: seq<Fill>)
    requires forall f :: f in fills ==> FillOk(f)
    ensures AddFills(fills).average * AddFills(fills).qty as real == Notional(fills)
  {
    if fills != [] {
      var n := |fills| - 1;
      AverageIsExact(fills[..n]);
      AddFillExact(AddFills(fills[..n]), fills[n]);
    }
  }

  // ---- In place ----

  /** The tracker's rows, updated step by step. */
  class PositionTracker {
    const mode: Mode
    const pointValue: real
    var long: Option<Position>
    var short: Option<Position>
    var trades: seq<Trade>

    function View(): Book
      reads this
    {
      Book(long, short, trades)
    }

    constructor (mode: Mode, pointValue: real)
      ensures View() == Flat && this.mode == mode && this.pointValue == pointValue
    {
      this.mode, this.pointValue := mode, pointValue;
      long, short, trades := None, None, [];
    }

    method SetSide(d: Direction, p: Option<Position>)
      modifies this`long, this`short
      ensures View() == WithSide(old(View()), d, p)
    {
      if d == Long {
        long := p;
      } else {
        short := p;
      }
    }

    method AddLots(d: Direction, qty: int, price: real, fee: real)
      modifies this`long, this`short
      ensures View() == OpenQty(old(View()), d, qty, price, fee)
    {
      var p := Side(View(), d);
      if p.None? {
        SetSide(d, Some(Position(qty, price * qty as real, fee, 0, 0.0, 0.0)));
        return;
      }
      var total, notional, fees := p.value.lots + qty, p.value.entryNotional + price * qty as real, p.value.openFee + fee;
      SetSide(d, Some(p.value.(lots := total, entryNotional := notional, openFee := fees)));
    }

    /** Closes, writes the journal trade, and turns the excess into the opposite position. */
    method CloseLots(d: Direction, f: Fill, fee: real) returns (r: Outcome<Book>)
      requires FillOk(f) && BookOk(View())
      modifies this
      ensures r == Close(old(View()), d, f, fee, pointValue)
      ensures View() == if r.Done? then r.value else old(View())
    {
      var before := View();
      var s := Side(before, d);
      if s.None? {
        return Fails(NothingToCover);
      }
      var p := s.value;
      var remaining := Remaining(p);
      var consumed := if f.qty <= remaining then f.qty else remaining;
      var excess := f.qty - consumed;
      var feeExcess := FeeExcess(fee, excess, f.qty);
      var n := Taken(p, f, consumed, fee - feeExcess);
      SetSide(d, Some(n));
      if n.closed >= n.lots {
        var t := TradeOf(n, d, pointValue);
        if !TradeOk(t) {
          long, short, trades := before.long, before.short, before.trades;
          return Fails(TradeRejected);
        }
        SetSide(d, None);
        trades := trades + [t];
        assert View() == Shut(before, d, n, pointValue);
      }
      if excess > 0 {
        AddLots(Opposite(d), excess, f.price, feeExcess);
      }
      r := Done(View());
    }

    method Apply(f: Fill) returns (r: Outcome<Book>)
      requires FillOk(f) && BookOk(View())
      modifies this
      ensures r == ApplyFill(old(View()), f, mode, pointValue)
      ensures View() == if r.Done? then r.value else old(View())
    {
      var fee := ResolveFee(f, mode);
      if fee.Fails? {
        return Fails(fee.error);
      }
      var covers := Opposite(Opens(f.action));
      match f.octype {
        case New => AddLots(Opens(f.action), f.qty, f.price, fee.value);
        case Cover =>
          r := CloseLots(covers, f, fee.value);
          return;
        case Auto =>
          var coversOpen, newsOpen := Side(View(), covers), Side(View(), Opens(f.action));
          if coversOpen.Some? && newsOpen.Some? {
            return Fails(Ambiguous);
          }
          if coversOpen.Some? {
            r := CloseLots(covers, f, fee.value);
            return;
          }
          AddLots(Opens(f.action), f.qty, f.price, fee.value);
      }
      r := Done(View());
    }
  }
}
