/**
 * The acceptor application: the session callbacks that change the
 * subscription registry and the recorded session, the request handlers that
 * reply at once, and the periodic publication tick.
 */
module Acceptor {
  import opened Wrappers
  import opened Messages
  import opened Registry
  import opened Publication

  /** Everything the callbacks change: the registry and the last session that logged on. */
  datatype State = State(subscriptions: Subscriptions, session: Option<SessionId>)

  /** The inbound events that change the state. */
  datatype Event =
    | Logon(id: SessionId)
    | Logout
    | MarketData(req: MarketDataRequest)

  /**
   * What one event does to the state.  Logon records the session; logout
   * empties the registry and keeps the session; a market-data request
   * without a NoRelatedSym group fails before it touches anything, and
   * otherwise subscribes the first group's symbol to the requested types.
   */
  function Handle(st: State, e: Event): State {
    match e
    case Logon(id) => st.(session := Some(id))
    case Logout => st.(subscriptions := map[])
    case MarketData(req) =>
      if req.relatedSyms == [] then st
      else st.(subscriptions := Subscribe(st.subscriptions, req.relatedSyms[0], req.entryTypes))
  }

  /** The state after handling the events of `h` in order. */
  function Run(st: State, h: seq<Event>): State
    decreases |h|
  {
    if h == [] then st else Handle(Run(st, h[..|h| - 1]), h[|h| - 1])
  }

  /** The events after the last logout (all of them when there was none). */
  function SinceLogout(h: seq<Event>): seq<Event>
    decreases |h|
  {
    if h == [] then []
    else if h[|h| - 1].Logout? then []
    else SinceLogout(h[..|h| - 1]) + [h[|h| - 1]]
  }

  /**
   * The events since the last logout hold no logout, and are the whole
   * history when nobody logged out: the two facts that make `SinceLogout`
   * the right window for `RunSubscriptions`.
   */
  lemma {:induction false} SinceLogoutFacts(h: seq<Event>)
    ensures Logout !in SinceLogout(h)
    ensures Logout !in h ==> SinceLogout(h) == h
    decreases |h|
  {
    if h != [] {
      var n := |h| - 1;
      SinceLogoutFacts(h[..n]);
      assert h == h[..n] + [h[n]];
    }
  }

  /** The event is a market-data request that subscribes `symbol`. */
  predicate RequestsFor(e: Event, symbol: string) {
    e.MarketData? && e.req.relatedSyms != [] && e.req.relatedSyms[0] == symbol
  }

  /** Every entry type that the requests of `h` asked for on `symbol`. */
  function RequestedTypes(h: seq<Event>, symbol: string): set<string>
    decreases |h|
  {
    if h == [] then {}
    else
      var e := h[|h| - 1];
      RequestedTypes(h[..|h| - 1], symbol) + (if RequestsFor(e, symbol) then TypesOf(e.req.entryTypes) else {})
  }

  /** The last session that logged on in `h`, or `initial` when none did. */
  function LastLogon(h: seq<Event>, initial: Option<SessionId>): Option<SessionId>
    decreases |h|
  {
    if h == [] then initial
    else if h[|h| - 1].Logon? then Some(h[|h| - 1].id)
    else LastLogon(h[..|h| - 1], initial)
  }

  /** One event's effect on a symbol's entry types and on whether it is a key. */
  lemma HandleSubscriptions(st: State, e: Event, symbol: string)
    ensures EntryKindsFor(Handle(st, e).subscriptions, symbol) ==
            (if e.Logout? then {} else EntryKindsFor(st.subscriptions, symbol)) +
            (if RequestsFor(e, symbol) then TypesOf(e.req.entryTypes) else {})
    ensures symbol in Handle(st, e).subscriptions <==>
            (!e.Logout? && symbol in st.subscriptions) || RequestsFor(e, symbol)
  {
  }

  /** A step that is not a logout extends the window since the last logout. */
  lemma SinceLogoutStep(h: seq<Event>)
    requires h != [] && !h[|h| - 1].Logout?
    ensures SinceLogout(h) == SinceLogout(h[..|h| - 1]) + [h[|h| - 1]]
    ensures Logout in h <==> Logout in h[..|h| - 1]
  {
    var n := |h| - 1;
    var prefix := h[..n];
    if Logout in h {
      var i :| 0 <= i < |h| && h[i] == Logout;
      assert i < n && prefix[i] == Logout;
    }
    if Logout in prefix {
      var i :| 0 <= i < n && prefix[i] == Logout;
      assert h[i] == Logout;
    }
  }

  /** Appending an event adds its requested types and its symbol, if it requests one. */
  lemma RequestedSnoc(w: seq<Event>, e: Event, symbol: string)
    ensures RequestedTypes(w + [e], symbol) ==
            RequestedTypes(w, symbol) + (if RequestsFor(e, symbol) then TypesOf(e.req.entryTypes) else {})
    ensures (exists x :: x in w + [e] && RequestsFor(x, symbol)) <==>
            (exists x :: x in w && RequestsFor(x, symbol)) || RequestsFor(e, symbol)
  {
    assert (w + [e])[..|w|] == w;
    assert forall x :: x in w + [e] <==> x in w || x == e;
  }

  /**
   * For any history of events, a symbol's entry types are exactly the union
   * of the types requested for it since the last logout, together with what
   * it held at the start when nobody logged out; and it is a key of the
   * registry exactly when one of those requests named it or it was a key at
   * the start and nobody logged out, even when the requests carried no types.
   */
  lemma {:induction false} RunSubscriptions(st: State, h: seq<Event>, symbol: string)
    ensures EntryKindsFor(Run(st, h).subscriptions, symbol) ==
            (if Logout in h then {} else EntryKindsFor(st.subscriptions, symbol)) + RequestedTypes(SinceLogout(h), symbol)
    ensures symbol in Run(st, h).subscriptions <==>
            (Logout !in h && symbol in st.subscriptions) || exists e :: e in SinceLogout(h) && RequestsFor(e, symbol)
    decreases |h|
  {
    if h != [] {
      var n := |h| - 1;
      var prefix, e := h[..n], h[n];
      RunSubscriptions(st, prefix, symbol);
      HandleSubscriptions(Run(st, prefix), e, symbol);
      if !e.Logout? {
        SinceLogoutStep(h);
        RequestedSnoc(SinceLogout(prefix), e, symbol);
      }
    }
  }


  /** Logout never forgets the session: the recorded one is always the last to log on. */
  lemma {:induction false} RunSession(st: State, h: seq<Event>)
    ensures Run(st, h).session == LastLogon(h, st.session)
    ensures st.session.Some? ==> Run(st, h).session.Some?
    decreases |h|
  {
    if h != [] {
      RunSession(st, h[..|h| - 1]);
    }
  }

  /**
   * After a logon and a request for bids and offers on one symbol, a tick
   * attempts one Quote and one ExecutionReport for it and nothing else;
   * after a request for trades only, it attempts the ExecutionReport alone.
   */
  lemma {:induction false} SubscribedSymbolTick(id: SessionId, reqId: string, symbol: string, types: seq<string>, d: SymbolDraws)
    requires ValidSymbolDraws(d)
    ensures var st := Run(State(map[], None), [Logon(id), MarketData(MarketDataRequest(reqId, [symbol], types))]);
      var a := TickAttempts(st.subscriptions, st.session, [symbol], [d]);
      && st.session == Some(id)
      && st.subscriptions.Keys == {symbol}
      && Count(a, symbol, ExecKind) == 1
      && Count(a, symbol, QuoteKind) == (if BidCode in types || OfferCode in types then 1 else 0)
      && |a| == Count(a, symbol, ExecKind) + Count(a, symbol, QuoteKind)
  {
    var h := [Logon(id), MarketData(MarketDataRequest(reqId, [symbol], types))];
    assert h[..1] == [Logon(id)] && h[..1][..0] == [];
    var st := Run(State(map[], None), h);
    assert Run(State(map[], None), h[..1]) == State(map[], Some(id));
    assert EntryKindsFor(map[], symbol) + TypesOf(types) == TypesOf(types);
    assert st.subscriptions == map[symbol := TypesOf(types)];
    TickCounts(st.subscriptions, st.session, [symbol], [d], symbol);
    SymbolCounts(st.subscriptions, st.session, symbol, [d][0], symbol);
    var a := TickAttempts(st.subscriptions, st.session, [symbol], [d]);
    assert [symbol][..0] == [];
    assert a == SymbolAttempts(st.subscriptions, st.session, symbol, d);
  }

  /** What a request handler did with the request. */
  datatype Reply =
    | FieldMissing         // a required field was absent; the exception reaches the engine
    | NoReply              // building the reply threw, and the builder swallowed it
    | Replied(attempt: Attempt)

  class AcceptorApp {
    var subscriptions: Subscriptions
    var sessionID: Option<SessionId>

    function Current(): State
      reads this
    {
      State(subscriptions, sessionID)
    }

    constructor ()
      ensures Current() == State(map[], None)
    {
      subscriptions := map[];
      sessionID := None;
    }

    /** Records the session; starting the publication timer is not modelled here. */
    method OnLogon(id: SessionId)
      modifies this
      ensures Current() == Handle(old(Current()), Logon(id))
    {
      sessionID := Some(id);
    }

    /** Empties the registry and leaves the recorded session as it was. */
    method OnLogout(id: SessionId)
      modifies this
      ensures Current() == Handle(old(Current()), Logout)
      ensures subscriptions == map[] && sessionID == old(sessionID)
    {
      subscriptions := map[];
    }

    /**
     * A market-data request: subscribes the first NoRelatedSym symbol to
     * every requested entry type, then replies on the requesting session
     * with a full-refresh snapshot.
     */
    method OnMarketDataRequest(req: MarketDataRequest, id: SessionId, draws: seq<EntryDraw>, accepted: bool)
      returns (reply: Reply)
      requires |req.entryTypes| <= |draws|
      requires forall i :: 0 <= i < |draws| ==> ValidEntryDraw(draws[i])
      modifies this
      ensures Current() == Handle(old(Current()), MarketData(req))
      ensures req.relatedSyms == [] ==> reply == FieldMissing
      ensures req.relatedSyms != [] && !AllSingleChars(req.entryTypes) ==> reply == NoReply
      ensures req.relatedSyms != [] && AllSingleChars(req.entryTypes) ==>
        && reply.Replied?
        && reply.attempt.target == Some(id)
        && reply.attempt.delivered == accepted
        && reply.attempt.msg.SnapshotMsg?
        && reply.attempt.msg.snapshot.mdReqId == req.mdReqId
        && reply.attempt.msg.snapshot.symbol == req.relatedSyms[0]
        && |reply.attempt.msg.snapshot.entries| == |req.entryTypes|
        && forall i :: 0 <= i < |req.entryTypes| ==>
             reply.attempt.msg.snapshot.entries[i].entryType == req.entryTypes[i][0]
    {
      if req.relatedSyms == [] {
        return FieldMissing;
      }
      var symbol := req.relatedSyms[0];
      if symbol !in subscriptions {
        subscriptions := subscriptions[symbol := {}];
      }
      var i := 0;
      ghost var held := EntryKindsFor(old(subscriptions), symbol);
      assert TypesOf(req.entryTypes[..0]) == {};
      assert held + TypesOf(req.entryTypes[..0]) == held;
      assert subscriptions == old(subscriptions)[symbol := held];
      while i < |req.entryTypes|
        invariant 0 <= i <= |req.entryTypes|
        invariant sessionID == old(sessionID)
        invariant subscriptions == Subscribe(old(subscriptions), symbol, req.entryTypes[..i])
      {
        assert req.entryTypes[..i + 1] == req.entryTypes[..i] + [req.entryTypes[i]];
        TypesOfSnoc(req.entryTypes[..i], req.entryTypes[i]);
        assert subscriptions[symbol] + {req.entryTypes[i]} ==
               EntryKindsFor(old(subscriptions), symbol) + TypesOf(req.entryTypes[..i + 1]);
        subscriptions := subscriptions[symbol := subscriptions[symbol] + {req.entryTypes[i]}];
        i := i + 1;
      }
      assert req.entryTypes[..i] == req.entryTypes;
      var snapshot := BuildMarketDataSnapshot(req, symbol, draws);
      match snapshot {
        case None =>
          reply := NoReply;
        case Some(s) =>
          reply := Replied(Send(Some(id), SnapshotMsg(s), accepted));
      }
    }

    /**
     * A trade-capture-report request: replies with one synthetic trade.  The
     * reply goes to the recorded session, not to the requesting one.
     */
    method OnTradeCaptureReportRequest(req: TradeCaptureReportRequest, pxTicks: int, qtyDraw: int, accepted: bool)
      returns (reply: Reply)
      requires PlainPriceDraw(pxTicks) && 0 <= qtyDraw < 500
      ensures req.symbol.None? ==> reply == FieldMissing
      ensures req.symbol.Some? ==>
        && reply.Replied?
        && reply.attempt.target == sessionID
        && reply.attempt.delivered == (sessionID.Some? && accepted)
        && reply.attempt.msg.TradeMsg?
        && reply.attempt.msg.trade.symbol == req.symbol.value
        && 1 <= reply.attempt.msg.trade.lastQty <= 500
        && PriceWithin(reply.attempt.msg.trade.lastPx, 0, 100)
    {
      if req.symbol.None? {
        return FieldMissing;
      }
      var report := BuildTradeCaptureReport(req.symbol.value, pxTicks, qtyDraw);
      reply := Replied(Send(sessionID, TradeMsg(report), accepted));
    }

    /**
     * A security-definition request: replies with an accepted definition of
     * the symbol as a foreign exchange contract in USD, sent to the recorded
     * session.
     */
    method OnSecurityDefinitionRequest(req: SecurityDefinitionRequest, accepted: bool) returns (reply: Reply)
      ensures req.symbol.None? ==> reply == FieldMissing
      ensures req.symbol.Some? ==>
        && reply.Replied?
        && reply.attempt.target == sessionID
        && reply.attempt.delivered == (sessionID.Some? && accepted)
        && reply.attempt.msg.DefinitionMsg?
        && reply.attempt.msg.definition.symbol == req.symbol.value
        && reply.attempt.msg.definition.responseType == SecurityResponseAccepted
        && reply.attempt.msg.definition.securityType == SecurityTypeFxContract
        && reply.attempt.msg.definition.currency == DefinitionCurrency
    {
      if req.symbol.None? {
        return FieldMissing;
      }
      reply := Replied(Send(sessionID, DefinitionMsg(BuildSecurityDefinition(req.symbol.value)), accepted));
    }

    /**
     * One publication tick.  Without a recorded session it does nothing.
     * Otherwise it walks every subscribed symbol once, in the order it
     * returns, attempting a Quote for a symbol that wants bids or offers and
     * then an ExecutionReport, whatever the transport answers.  It changes
     * nothing.
     */
    method SendMessages(draws: seq<SymbolDraws>) returns (order: seq<string>, attempts: seq<Attempt>)
      requires |subscriptions| <= |draws| && AllValid(draws)
      ensures sessionID.None? ==> order == [] && attempts == []
      ensures sessionID.Some? ==>
        && Distinct(order)
        && (forall s :: s in order <==> s in subscriptions)
        && |order| == |subscriptions|
        && attempts == TickAttempts(subscriptions, sessionID, order, draws)
      ensures forall s :: Count(attempts, s, ExecKind) == (if sessionID.Some? && s in subscriptions then 1 else 0)
      ensures forall s :: (Count(attempts, s, QuoteKind) ==
        if sessionID.Some? && s in subscriptions && WantsQuote(subscriptions[s]) then 1 else 0)
      ensures QuotesThenExecs(attempts)
      ensures WellFormedAttempts(attempts, sessionID)
    {
      order, attempts := [], [];
      if sessionID.None? {
        return;
      }
      var remaining := subscriptions.Keys;
      while remaining != {}
        invariant remaining <= subscriptions.Keys
        invariant forall s :: s in order <==> s in subscriptions && s !in remaining
        invariant Distinct(order)
        invariant |order| + |remaining| == |subscriptions|
        invariant attempts == TickAttempts(subscriptions, sessionID, order, draws)
        decreases remaining
      {
        var s :| s in remaining;
        var d := draws[|order|];
        ghost var walked := attempts;
        if WantsQuote(subscriptions[s]) {
          attempts := attempts + [Send(sessionID, QuoteMsg(BuildQuote(s, d.bidTicks, d.offerTicks)), d.quoteAccepted)];
        }
        attempts := attempts + [Send(sessionID, ExecMsg(BuildExecutionReport(s, d.qtyDraw, d.execTicks)), d.execAccepted)];
        assert attempts == walked + SymbolAttempts(subscriptions, sessionID, s, d);
        TickAttemptsSnoc(subscriptions, sessionID, order, s, draws);
        order := order + [s];
        remaining := remaining - {s};
      }
      TickSummary(subscriptions, sessionID, order, draws);
    }
  }
}
