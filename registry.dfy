/**
 * The subscription registry: a map from symbol to the set of MDEntryType
 * codes (tag 269) requested for it.  The codes stay the strings the engine
 * delivers; "0" is Bid and "1" is Offer.
 */
module Registry {

  type Subscriptions = map<string, set<string>>

  const BidCode: string := "0"
  const OfferCode: string := "1"

  /** The entry types recorded for `symbol`; none for a symbol never requested. */
  function EntryKindsFor(subs: Subscriptions, symbol: string): set<string> {
    if symbol in subs then subs[symbol] else {}
  }

  /** A symbol is quoted on each tick when it asked for bids or offers. */
  predicate WantsQuote(kinds: set<string>) {
    BidCode in kinds || OfferCode in kinds
  }

  /** The entry types a request lists, as a set. */
  function TypesOf(types: seq<string>): set<string> {
    set t | t in types
  }

  /** Reading one more entry type adds exactly that type. */
  lemma TypesOfSnoc(types: seq<string>, t: string)
    ensures TypesOf(types + [t]) == TypesOf(types) + {t}
  {
  }

  /**
   * Recording one market-data request: the symbol becomes (or stays) a key,
   * even for a request carrying no entry types, its set grows by exactly the
   * requested types, and every other symbol keeps its set.
   */
  function Subscribe(subs: Subscriptions, symbol: string, types: seq<string>): (r: Subscriptions)
    ensures r.Keys == subs.Keys + {symbol}
    ensures forall t :: t in r[symbol] <==> t in EntryKindsFor(subs, symbol) || t in types
    ensures forall s :: s != symbol ==> EntryKindsFor(r, s) == EntryKindsFor(subs, s)
  {
    subs[symbol := EntryKindsFor(subs, symbol) + TypesOf(types)]
  }

  /** Subscribing never takes an entry type away from any symbol. */
  lemma SubscribeOnlyGrows(subs: Subscriptions, symbol: string, types: seq<string>, s: string)
    ensures EntryKindsFor(subs, s) <= EntryKindsFor(Subscribe(subs, symbol, types), s)
    ensures s in subs ==> s in Subscribe(subs, symbol, types)
  {
  }

  /** Repeating a request leaves the registry as the first one left it. */
  lemma SubscribeIdempotent(subs: Subscriptions, symbol: string, types: seq<string>)
    ensures Subscribe(Subscribe(subs, symbol, types), symbol, types) == Subscribe(subs, symbol, types)
  {
  }

  /** Two requests leave the same registry whichever arrives first. */
  lemma {:induction false} SubscribeCommutes(subs: Subscriptions, s1: string, t1: seq<string>, s2: string, t2: seq<string>)
    ensures Subscribe(Subscribe(subs, s1, t1), s2, t2) == Subscribe(Subscribe(subs, s2, t2), s1, t1)
  {
    var a := Subscribe(Subscribe(subs, s1, t1), s2, t2);
    var b := Subscribe(Subscribe(subs, s2, t2), s1, t1);
    assert a.Keys == b.Keys;
    forall s | s in a
      ensures a[s] == b[s]
    {
      assert a[s] == EntryKindsFor(a, s) && b[s] == EntryKindsFor(b, s);
    }
  }
}
