/**
 * What one publication tick sends.  Each send is an attempt that the
 * transport may refuse; the builders swallow the refusal, so an attempt's
 * outcome never changes what is attempted next.
 */
module Publication {
  import opened Wrappers
  import opened Messages
  import opened Registry

  /** The transport's handle for the counterparty session. */
  datatype SessionId = SessionId(name: string)

  /** One call of the transport's send: the session aimed at, the record, and whether it went out. */
  datatype Attempt = Attempt(target: Option<SessionId>, msg: Message, delivered: bool)

  /**
   * Sending `msg`: without a session the transport cannot find a target and
   * throws; otherwise `accepted` is the transport's answer.
   */
  function Send(target: Option<SessionId>, msg: Message, accepted: bool): Attempt {
    Attempt(target, msg, target.Some? && accepted)
  }

  /** The random values and transport answers one symbol consumes in a tick. */
  datatype SymbolDraws = SymbolDraws(
    bidTicks: int,
    offerTicks: int,
    quoteAccepted: bool,
    qtyDraw: int,
    execTicks: int,
    execAccepted: bool)

  predicate ValidSymbolDraws(d: SymbolDraws) {
    OffsetPriceDraw(d.bidTicks) && OffsetPriceDraw(d.offerTicks) &&
    0 <= d.qtyDraw < 900 && OffsetPriceDraw(d.execTicks)
  }

  predicate AllValid(draws: seq<SymbolDraws>) {
    forall i :: 0 <= i < |draws| ==> ValidSymbolDraws(draws[i])
  }

  /** The same generated content, whatever the transport answered. */
  predicate SameContent(d1: seq<SymbolDraws>, d2: seq<SymbolDraws>) {
    |d1| == |d2| &&
    forall i :: 0 <= i < |d1| ==>
      d1[i].(quoteAccepted := false, execAccepted := false) == d2[i].(quoteAccepted := false, execAccepted := false)
  }

  /** A symbol's share of a tick: a Quote when it wants bids or offers, then an ExecutionReport. */
  function SymbolAttempts(subs: Subscriptions, target: Option<SessionId>, symbol: string, d: SymbolDraws): seq<Attempt>
    requires ValidSymbolDraws(d)
  {
    var exec := Send(target, ExecMsg(BuildExecutionReport(symbol, d.qtyDraw, d.execTicks)), d.execAccepted);
    if WantsQuote(EntryKindsFor(subs, symbol))
    then [Send(target, QuoteMsg(BuildQuote(symbol, d.bidTicks, d.offerTicks)), d.quoteAccepted), exec]
    else [exec]
  }

  /** The attempts of a tick that walks the symbols in `order`, the i-th symbol using draws[i]. */
  function TickAttempts(subs: Subscriptions, target: Option<SessionId>, order: seq<string>, draws: seq<SymbolDraws>): seq<Attempt>
    requires |order| <= |draws| && AllValid(draws)
    decreases |order|
  {
    if order == [] then []
    else
      var n := |order| - 1;
      TickAttempts(subs, target, order[..n], draws) + SymbolAttempts(subs, target, order[n], draws[n])
  }

  /** Walking one more symbol appends that symbol's share. */
  lemma TickAttemptsSnoc(subs: Subscriptions, target: Option<SessionId>, order: seq<string>, s: string,
                         draws: seq<SymbolDraws>)
    requires |order| < |draws| && AllValid(draws)
    ensures TickAttempts(subs, target, order + [s], draws) ==
            TickAttempts(subs, target, order, draws) + SymbolAttempts(subs, target, s, draws[|order|])
  {
    assert (order + [s])[..|order|] == order;
  }

  predicate Distinct(order: seq<string>) {
    forall i, j :: 0 <= i < j < |order| ==> order[i] != order[j]
  }

  datatype Kind = QuoteKind | ExecKind

  /** The attempt sends a record of kind `k` for `symbol`. */
  predicate IsFor(a: Attempt, symbol: string, k: Kind) {
    match k
    case QuoteKind => a.msg.QuoteMsg? && a.msg.quote.symbol == symbol
    case ExecKind => a.msg.ExecMsg? && a.msg.report.symbol == symbol
  }

  /** How many of the attempts send a record of kind `k` for `symbol`. */
  function Count(attempts: seq<Attempt>, symbol: string, k: Kind): nat {
    if attempts == [] then 0
    else
      var n := |attempts| - 1;
      Count(attempts[..n], symbol, k) + (if IsFor(attempts[n], symbol, k) then 1 else 0)
  }

  lemma {:induction false} CountAppend(a: seq<Attempt>, b: seq<Attempt>, symbol: string, k: Kind)
    ensures Count(a + b, symbol, k) == Count(a, symbol, k) + Count(b, symbol, k)
    decreases |b|
  {
    if b == [] {
      assert a + b == a;
    } else {
      var n := |b| - 1;
      assert (a + b)[..|a + b| - 1] == a + b[..n];
      assert (a + b)[|a + b| - 1] == b[n];
      CountAppend(a, b[..n], symbol, k);
    }
  }

  /** A symbol's share of a tick holds one ExecutionReport, and a Quote only when it wants one. */
  lemma SymbolCounts(subs: Subscriptions, target: Option<SessionId>, s: string, d: SymbolDraws, symbol: string)
    requires ValidSymbolDraws(d)
    ensures Count(SymbolAttempts(subs, target, s, d), symbol, ExecKind) == (if s == symbol then 1 else 0)
    ensures Count(SymbolAttempts(subs, target, s, d), symbol, QuoteKind) ==
            (if s == symbol && WantsQuote(EntryKindsFor(subs, s)) then 1 else 0)
  {
    var l := SymbolAttempts(subs, target, s, d);
    var exec := Send(target, ExecMsg(BuildExecutionReport(s, d.qtyDraw, d.execTicks)), d.execAccepted);
    if WantsQuote(EntryKindsFor(subs, s)) {
      var quote := Send(target, QuoteMsg(BuildQuote(s, d.bidTicks, d.offerTicks)), d.quoteAccepted);
      assert l == [quote, exec];
      assert l[..1] == [quote] && [quote][..0] == [];
      assert Count([quote], symbol, QuoteKind) == (if s == symbol then 1 else 0);
      assert Count([quote], symbol, ExecKind) == 0;
    } else {
      assert l == [exec] && l[..0] == [];
    }
  }


  /** Every Quote is followed at once by an ExecutionReport for the same symbol. */
  predicate QuotesThenExecs(a: seq<Attempt>) {
    forall i :: 0 <= i < |a| && a[i].msg.QuoteMsg? ==>
      i + 1 < |a| && a[i + 1].msg.ExecMsg? && a[i + 1].msg.report.symbol == a[i].msg.quote.symbol
  }

  /** Every attempt aims at `target`, and every ExecutionReport is a full fill of 100 to 999 units. */
  predicate WellFormedAttempts(a: seq<Attempt>, target: Option<SessionId>) {
    forall i :: 0 <= i < |a| ==>
      a[i].target == target &&
      (a[i].msg.ExecMsg? ==> IsFullFill(a[i].msg.report) && 100 <= a[i].msg.report.lastQty <= 999)
  }

  /** The facts about one symbol's share of a tick that the tick-wide lemmas assemble. */
  lemma SymbolAttemptsShape(subs: Subscriptions, target: Option<SessionId>, s: string, d: SymbolDraws)
    requires ValidSymbolDraws(d)
    ensures QuotesThenExecs(SymbolAttempts(subs, target, s, d))
    ensures WellFormedAttempts(SymbolAttempts(subs, target, s, d), target)
  {
  }


  /** The last of distinct symbols is not among the earlier ones. */
  lemma DistinctLast(order: seq<string>)
    requires Distinct(order) && order != []
    ensures order[|order| - 1] !in order[..|order| - 1]
    ensures forall s :: s in order <==> s in order[..|order| - 1] || s == order[|order| - 1]
  {
    var n := |order| - 1;
    assert order == order[..n] + [order[n]];
    forall i | 0 <= i < n ensures order[..n][i] != order[n] {
      assert order[..n][i] == order[i];
    }
  }

  /**
   * Walking distinct symbols, a tick attempts exactly one ExecutionReport for
   * each walked symbol and none for any other, and exactly one Quote for each
   * walked symbol that wants bids or offers and none for any other.
   */
  lemma {:induction false} TickCounts(subs: Subscriptions, target: Option<SessionId>, order: seq<string>,
                                      draws: seq<SymbolDraws>, symbol: string)
    requires Distinct(order) && |order| <= |draws| && AllValid(draws)
    ensures Count(TickAttempts(subs, target, order, draws), symbol, ExecKind) == (if symbol in order then 1 else 0)
    ensures Count(TickAttempts(subs, target, order, draws), symbol, QuoteKind) ==
            (if symbol in order && WantsQuote(EntryKindsFor(subs, symbol)) then 1 else 0)
    decreases |order|
  {
    if order != [] {
      var n := |order| - 1;
      var prefix := order[..n];
      var before := TickAttempts(subs, target, prefix, draws);
      var last := SymbolAttempts(subs, target, order[n], draws[n]);
      assert Distinct(prefix);
      assert TickAttempts(subs, target, order, draws) == before + last;
      TickCounts(subs, target, prefix, draws, symbol);
      SymbolCounts(subs, target, order[n], draws[n], symbol);
      CountAppend(before, last, symbol, ExecKind);
      CountAppend(before, last, symbol, QuoteKind);
      DistinctLast(order);
      if symbol == order[n] {
        assert symbol in order && symbol !in prefix;
      } else {
        assert symbol in order <==> symbol in prefix;
      }
    }
  }

  /** Every Quote a tick attempts is followed at once by the ExecutionReport for the same symbol. */
  lemma {:induction false} QuoteThenExec(subs: Subscriptions, target: Option<SessionId>, order: seq<string>,
                                         draws: seq<SymbolDraws>)
    requires |order| <= |draws| && AllValid(draws)
    ensures QuotesThenExecs(TickAttempts(subs, target, order, draws))
    decreases |order|
  {
    if order != [] {
      var n := |order| - 1;
      var s, d := order[n], draws[n];
      QuoteThenExec(subs, target, order[..n], draws);
      var p := TickAttempts(subs, target, order[..n], draws);
      var l := SymbolAttempts(subs, target, s, d);
      var a := p + l;
      SymbolAttemptsShape(subs, target, s, d);
      forall i | 0 <= i < |a| && a[i].msg.QuoteMsg?
        ensures i + 1 < |a| && a[i + 1].msg.ExecMsg? && a[i + 1].msg.report.symbol == a[i].msg.quote.symbol
      {
        if i < |p| {
          assert a[i] == p[i] && a[i + 1] == p[i + 1];
        } else {
          assert a[i] == l[i - |p|];
        }
      }
    }
  }

  /**
   * Every attempt of a tick aims at the tick's session, and every
   * ExecutionReport in it is a full fill of 100 to 999 units.
   */
  lemma {:induction false} TickRecordsWellFormed(subs: Subscriptions, target: Option<SessionId>, order: seq<string>,
                                                 draws: seq<SymbolDraws>)
    requires |order| <= |draws| && AllValid(draws)
    ensures WellFormedAttempts(TickAttempts(subs, target, order, draws), target)
    decreases |order|
  {
    if order != [] {
      var n := |order| - 1;
      TickRecordsWellFormed(subs, target, order[..n], draws);
      var p := TickAttempts(subs, target, order[..n], draws);
      var l := SymbolAttempts(subs, target, order[n], draws[n]);
      var a: seq<Attempt> := p + l;
      SymbolAttemptsShape(subs, target, order[n], draws[n]);
      forall i | 0 <= i < |a|
        ensures a[i].target == target &&
          (a[i].msg.ExecMsg? ==> IsFullFill(a[i].msg.report) && 100 <= a[i].msg.report.lastQty <= 999)
      {
        if i < |p| {
          assert a[i] == p[i];
        } else {
          assert a[i] == l[i - |p|];
        }
      }
    }
  }

  /**
   * What a tick over distinct symbols promises: exact per-symbol counts,
   * each Quote right before its ExecutionReport, every attempt aimed at the
   * session and every ExecutionReport a full fill.
   */
  lemma TickSummary(subs: Subscriptions, target: Option<SessionId>, order: seq<string>, draws: seq<SymbolDraws>)
    requires Distinct(order) && |order| <= |draws| && AllValid(draws)
    ensures forall s :: Count(TickAttempts(subs, target, order, draws), s, ExecKind) == (if s in order then 1 else 0)
    ensures forall s :: (Count(TickAttempts(subs, target, order, draws), s, QuoteKind) ==
      if s in order && WantsQuote(EntryKindsFor(subs, s)) then 1 else 0)
    ensures QuotesThenExecs(TickAttempts(subs, target, order, draws))
    ensures WellFormedAttempts(TickAttempts(subs, target, order, draws), target)
  {
    forall s
      ensures Count(TickAttempts(subs, target, order, draws), s, ExecKind) == (if s in order then 1 else 0)
      ensures Count(TickAttempts(subs, target, order, draws), s, QuoteKind) ==
        (if s in order && WantsQuote(EntryKindsFor(subs, s)) then 1 else 0)
    {
      TickCounts(subs, target, order, draws, s);
    }
    QuoteThenExec(subs, target, order, draws);
    TickRecordsWellFormed(subs, target, order, draws);
  }

  function Records(a: seq<Attempt>): seq<Message> {
    seq(|a|, i requires 0 <= i < |a| => a[i].msg)
  }

  /**
   * A refused send does not stop the tick: two ticks that generate the same
   * content attempt the same records in the same order, whatever the
   * transport answered to each of them.
   */
  lemma RecordsAppend(a: seq<Attempt>, b: seq<Attempt>)
    ensures Records(a + b) == Records(a) + Records(b)
  {
  }

  /** One symbol's share of a tick attempts the same records whatever the transport answers. */
  lemma SymbolRecordsAgree(subs: Subscriptions, target: Option<SessionId>, s: string, d1: SymbolDraws, d2: SymbolDraws)
    requires ValidSymbolDraws(d1) && ValidSymbolDraws(d2)
    requires d1.(quoteAccepted := false, execAccepted := false) == d2.(quoteAccepted := false, execAccepted := false)
    ensures Records(SymbolAttempts(subs, target, s, d1)) == Records(SymbolAttempts(subs, target, s, d2))
  {
    assert d1.bidTicks == d2.bidTicks && d1.offerTicks == d2.offerTicks;
    assert d1.qtyDraw == d2.qtyDraw && d1.execTicks == d2.execTicks;
  }

  lemma {:induction false} FailuresDoNotStopTick(subs: Subscriptions, target: Option<SessionId>, order: seq<string>,
                                                 d1: seq<SymbolDraws>, d2: seq<SymbolDraws>)
    requires |order| <= |d1| && AllValid(d1) && AllValid(d2) && SameContent(d1, d2)
    ensures Records(TickAttempts(subs, target, order, d1)) == Records(TickAttempts(subs, target, order, d2))
    decreases |order|
  {
    if order != [] {
      var n := |order| - 1;
      FailuresDoNotStopTick(subs, target, order[..n], d1, d2);
      SymbolRecordsAgree(subs, target, order[n], d1[n], d2[n]);
      RecordsAppend(TickAttempts(subs, target, order[..n], d1), SymbolAttempts(subs, target, order[n], d1[n]));
      RecordsAppend(TickAttempts(subs, target, order[..n], d2), SymbolAttempts(subs, target, order[n], d2[n]));
    }
  }

}
