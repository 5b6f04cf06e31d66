/**
 * The market-data `ConnectionManager`: which front-end connections are open for each data type,
 * which symbols each connection follows, and the broadcast that delivers an update to the
 * matching subscribers and then forgets the connections whose send failed. Connections are
 * identified by number; accepting a connection, sending on it and the upstream price-feed
 * subscription are outside the model (their outcomes are parameters).
 */
module Subscriptions {
  import Strings

  type Socket = nat

  /** The data types `ConnectionManager.__init__` creates a connection set for. */
  const DataTypes: set<string> := {"crypto", "stocks", "etfs", "options"}

  /**
   * `normalize_symbol`: drop every "/USD", then every "/", then one trailing "USD", and
   * upper-case what is left.
   */
  function NormalizeSymbol(s: string): (r: string)
    ensures '/' !in r
    ensures forall i :: 0 <= i < |r| ==> !('a' <= r[i] <= 'z')
    ensures |r| <= |s|
  {
    var noPair := Strings.RemoveAll(s, "/USD");
    var noSlash := Strings.RemoveAll(noPair, "/");
    Strings.RemoveCharRemovesAll(noPair, '/');
    var base := if Strings.EndsWith(noSlash, "USD") then noSlash[..|noSlash| - 3] else noSlash;
    assert '/' !in base by {
      assert forall i :: 0 <= i < |base| ==> base[i] == noSlash[i];
    }
    var r := Strings.Upper(base);
    assert forall i :: 0 <= i < |r| ==> r[i] != '/' by {
      forall i | 0 <= i < |r| ensures r[i] != '/' {
        assert base[i] != '/' by { assert base[i] in base; }
      }
    }
    r
  }

  /**
   * A base symbol free of "/" that does not itself end in "USD" normalises to its upper-case
   * form alone, with "USD" appended, or with "/USD" appended.
   */
  lemma {:induction false} NormalizeQuoteForms(x: string)
    requires '/' !in x && !Strings.EndsWith(x, "USD")
    ensures NormalizeSymbol(x) == Strings.Upper(x)
    ensures NormalizeSymbol(x + "USD") == Strings.Upper(x)
    ensures NormalizeSymbol(x + "/USD") == Strings.Upper(x)
  {
    Strings.RemoveAllAppended(x, "/USD");
    Strings.RemoveAllAppended(x, "/");
    var y := x + "USD";
    assert '/' !in y by {
      assert forall i :: 0 <= i < |y| ==> y[i] == (if i < |x| then x[i] else "USD"[i - |x|]);
    }
    Strings.RemoveAllAppended(y, "/USD");
    Strings.RemoveAllAppended(y, "/");
    assert Strings.EndsWith(y, "USD") by { assert y[|y| - 3..] == "USD"; }
    assert y[..|y| - 3] == x;
  }

  /**
   * "BTCUSD", "BTC/USD" and "BTC" all normalise to "BTC" (stated of a `base` equal to "BTC",
   * which keeps the solver from unfolding the normaliser on literals).
   */
  lemma BitcoinForms(base: string)
    requires base == "BTC"
    ensures NormalizeSymbol(base + "USD") == "BTC"
    ensures NormalizeSymbol(base + "/USD") == "BTC"
    ensures NormalizeSymbol(base) == "BTC"
  {
    assert !Strings.EndsWith(base, "USD") by { assert base[0] != "USD"[0]; }
    Strings.UpperFixesUpperCase(base);
    NormalizeQuoteForms(base);
  }

  /**
   * Upper-casing comes last, so a lower-case quote suffix survives: "btcusd" normalises to
   * "BTCUSD", not to "BTC" (stated of a `quote` equal to "usd").
   */
  lemma {:induction false} LowerCaseQuoteKept(x: string, quote: string)
    requires '/' !in x && quote == "usd"
    ensures NormalizeSymbol(x + quote) == Strings.Upper(x + quote)
    ensures NormalizeSymbol(x + quote) != Strings.Upper(x)
  {
    var s := x + quote;
    assert '/' !in s by {
      assert forall i :: 0 <= i < |s| ==> s[i] == (if i < |x| then x[i] else quote[i - |x|]);
    }
    assert !Strings.EndsWith(s, "USD") by { assert s[|s| - 1] == 'd'; }
    NormalizeQuoteForms(s);
  }

  /**
   * Whether `broadcast_to_subscribers` sends to a connection following `subscribed`: some
   * followed symbol normalises like the incoming one, or the incoming symbol or its normal form
   * is followed as it is.
   */
  ghost predicate Matches(subscribed: set<string>, symbol: string)
  {
    || (exists sub :: sub in subscribed && NormalizeSymbol(sub) == NormalizeSymbol(symbol))
    || symbol in subscribed
    || NormalizeSymbol(symbol) in subscribed
  }

  /** A connection following "BTC" receives "BTC", "BTCUSD" and "BTC/USD". */
  lemma BitcoinSubscriberMatches(subscribed: set<string>, base: string)
    requires base == "BTC" && base in subscribed
    ensures Matches(subscribed, base)
    ensures Matches(subscribed, base + "USD")
    ensures Matches(subscribed, base + "/USD")
  {
    BitcoinForms(base);
    assert NormalizeSymbol(base) == NormalizeSymbol(base + "USD") == NormalizeSymbol(base + "/USD");
  }

  /** A connection that follows nothing receives nothing. */
  lemma NothingFollowedNothingReceived(symbol: string)
    ensures !Matches({}, symbol)
  {
  }

  /** The loop over a connection's symbols, with its early exit, then the direct-match test. */
  method ShouldSend(subscribed: set<string>, symbol: string) returns (send: bool)
    ensures send <==> Matches(subscribed, symbol)
  {
    var incoming := NormalizeSymbol(symbol);
    send := false;
    var rest := subscribed;
    while rest != {} && !send
      invariant rest <= subscribed
      invariant send <==> exists sub :: sub in subscribed - rest && NormalizeSymbol(sub) == incoming
      decreases |rest|
    {
      var sub :| sub in rest;
      if NormalizeSymbol(sub) == incoming {
        send := true;
      }
      rest := rest - {sub};
    }
    if !send {
      send := symbol in subscribed || incoming in subscribed;
    }
  }

  /** `connection_symbols.get(websocket, set())`. */
  function SymbolsOf(symbols: map<Socket, set<string>>, ws: Socket): (s: set<string>)
    ensures ws !in symbols ==> s == {}
    ensures ws in symbols ==> s == symbols[ws]
  {
    if ws in symbols then symbols[ws] else {}
  }

  /** The connections of `targets` a broadcast of `symbol` is sent to. */
  ghost function Recipients(targets: set<Socket>, symbols: map<Socket, set<string>>, symbol: string)
    : (r: set<Socket>)
    ensures r <= targets
  {
    set ws | ws in targets && Matches(SymbolsOf(symbols, ws), symbol)
  }

  /**
   * The sending loop of `broadcast_to_subscribers`: each connection of `targets` that matches is
   * sent the message; those in `failing` raise and are collected for disconnection, the others
   * are counted in `messages_sent`.
   */
  method SendToSubscribers(targets: set<Socket>, symbols: map<Socket, set<string>>, symbol: string,
                           failing: set<Socket>)
    returns (delivered: set<Socket>, disconnected: set<Socket>, messagesSent: nat)
    ensures delivered == Recipients(targets, symbols, symbol) - failing
    ensures disconnected == Recipients(targets, symbols, symbol) * failing
    ensures messagesSent == |delivered| <= |targets|
  {
    ghost var recipients := Recipients(targets, symbols, symbol);
    delivered, disconnected, messagesSent := {}, {}, 0;
    var rest := targets;
    while rest != {}
      invariant rest <= targets
      invariant forall w :: w in delivered <==> w in recipients && w !in failing && w !in rest
      invariant forall w :: w in disconnected <==> w in recipients && w in failing && w !in rest
      invariant messagesSent == |delivered|
      decreases |rest|
    {
      var ws :| ws in rest;
      var send := ShouldSend(SymbolsOf(symbols, ws), symbol);
      RecipientsMember(targets, symbols, symbol, ws);
      if send {
        if ws in failing {
          disconnected := disconnected + {ws};
        } else {
          delivered := delivered + {ws};
          messagesSent := messagesSent + 1;
        }
      }
      rest := rest - {ws};
    }
    SubsetCardinality(delivered, targets);
  }

  lemma RecipientsMember(targets: set<Socket>, symbols: map<Socket, set<string>>, symbol: string, ws: Socket)
    ensures ws in Recipients(targets, symbols, symbol) <==> ws in targets && Matches(SymbolsOf(symbols, ws), symbol)
  {
  }

  class ConnectionManager {
    var activeConnections: map<string, set<Socket>>
    var connectionSymbols: map<Socket, set<string>>

    /** Exactly the four data types have a connection set; no operation adds another. */
    ghost predicate Valid()
      reads this
    {
      activeConnections.Keys == DataTypes
    }

    constructor ()
      ensures Valid()
      ensures forall t :: t in DataTypes ==> activeConnections[t] == {}
      ensures connectionSymbols == map[]
    {
      activeConnections := map["crypto" := {}, "stocks" := {}, "etfs" := {}, "options" := {}];
      connectionSymbols := map[];
    }

    /**
     * `connect`: a failed accept or an unknown data type raises before anything changes;
     * otherwise the connection joins that type's set with no symbols followed (forgetting any
     * it followed before).
     */
    method Connect(ws: Socket, dataType: string, accepted: bool) returns (ok: bool)
      requires Valid()
      modifies this
      ensures Valid()
      ensures ok <==> accepted && dataType in DataTypes
      ensures ok ==> activeConnections == old(activeConnections)[dataType := old(activeConnections)[dataType] + {ws}]
      ensures ok ==> connectionSymbols == old(connectionSymbols)[ws := {}]
      ensures !ok ==> activeConnections == old(activeConnections) && connectionSymbols == old(connectionSymbols)
    {
      if !accepted || dataType !in activeConnections {
        return false;
      }
      activeConnections := activeConnections[dataType := activeConnections[dataType] + {ws}];
      connectionSymbols := connectionSymbols[ws := {}];
      ok := true;
    }

    /**
     * `disconnect`: an unknown data type raises; otherwise the connection leaves that type's set
     * and the symbol map, and a connection that was in neither changes nothing.
     */
    method Disconnect(ws: Socket, dataType: string) returns (ok: bool)
      requires Valid()
      modifies this
      ensures Valid()
      ensures ok <==> dataType in DataTypes
      ensures ok ==> activeConnections == old(activeConnections)[dataType := old(activeConnections)[dataType] - {ws}]
      ensures ok ==> connectionSymbols == old(connectionSymbols) - {ws}
      ensures !ok ==> activeConnections == old(activeConnections) && connectionSymbols == old(connectionSymbols)
    {
      if dataType !in activeConnections {
        return false;
      }
      activeConnections := activeConnections[dataType := activeConnections[dataType] - {ws}];
      connectionSymbols := connectionSymbols - {ws};
      ok := true;
    }

    /**
     * `subscribe`: whatever was asked for, the connection follows "BTC" in addition to what it
     * followed before (an entry is created if missing), and the confirmation lists "BTC" alone.
     */
    method Subscribe(ws: Socket, dataType: string, symbols: seq<string>) returns (confirmed: seq<string>)
      requires Valid()
      modifies this
      ensures Valid()
      ensures confirmed == ["BTC"]
      ensures activeConnections == old(activeConnections)
      ensures connectionSymbols == old(connectionSymbols)[ws := SymbolsOf(old(connectionSymbols), ws) + {"BTC"}]
    {
      if ws !in connectionSymbols {
        connectionSymbols := connectionSymbols[ws := {}];
      }
      connectionSymbols := connectionSymbols[ws := connectionSymbols[ws] + {"BTC"}];
      confirmed := ["BTC"];
    }

    /** `unsubscribe`: a known connection stops following exactly the given symbols. */
    method Unsubscribe(ws: Socket, symbols: seq<string>)
      requires Valid()
      modifies this
      ensures Valid()
      ensures activeConnections == old(activeConnections)
      ensures ws in old(connectionSymbols) ==>
        connectionSymbols == old(connectionSymbols)[ws := old(connectionSymbols)[ws] - set s | s in symbols]
      ensures ws !in old(connectionSymbols) ==> connectionSymbols == old(connectionSymbols)
    {
      if ws in connectionSymbols {
        connectionSymbols := connectionSymbols[ws := connectionSymbols[ws] - set s | s in symbols];
      }
    }

    /**
     * `broadcast_to_subscribers`, with `failing` the connections whose send raises. An unknown
     * data type raises before anything is sent. Otherwise the message goes to every matching
     * connection of that type; afterwards the matching connections that failed are disconnected
     * from that type and the symbol map, and nothing else changes.
     */
    method Broadcast(dataType: string, symbol: string, failing: set<Socket>)
      returns (ok: bool, delivered: set<Socket>, messagesSent: nat)
      requires Valid()
      modifies this
      ensures Valid()
      ensures ok <==> dataType in DataTypes
      ensures !ok ==> delivered == {} && activeConnections == old(activeConnections)
                      && connectionSymbols == old(connectionSymbols)
      ensures ok ==>
        var targets := old(activeConnections)[dataType];
        var recipients := Recipients(targets, old(connectionSymbols), symbol);
        && delivered == recipients - failing
        && messagesSent == |delivered| <= |targets|
        && activeConnections == old(activeConnections)[dataType := targets - (recipients * failing)]
        && connectionSymbols == old(connectionSymbols) - (recipients * failing)
    {
      delivered, messagesSent := {}, 0;
      if dataType !in activeConnections {
        return false, delivered, messagesSent;
      }
      ok := true;
      var targets := activeConnections[dataType];
      var disconnected;
      delivered, disconnected, messagesSent := SendToSubscribers(targets, connectionSymbols, symbol, failing);
      DisconnectAll(disconnected, dataType);
    }

    /** The clean-up loop of `broadcast_to_subscribers`: `disconnect` each collected connection. */
    method DisconnectAll(dropped: set<Socket>, dataType: string)
      requires Valid() && dataType in DataTypes
      modifies this
      ensures Valid()
      ensures activeConnections == old(activeConnections)[dataType := old(activeConnections)[dataType] - dropped]
      ensures connectionSymbols == old(connectionSymbols) - dropped
    {
      var targets := activeConnections[dataType];
      var disconnected := dropped;
      ghost var removed: set<Socket> := {};
      assert targets - removed == targets;
      assert old(activeConnections)[dataType := targets] == old(activeConnections);
      assert old(connectionSymbols) - removed == old(connectionSymbols);
      while disconnected != {}
        invariant Valid()
        invariant removed + disconnected == dropped && removed !! disconnected
        invariant activeConnections == old(activeConnections)[dataType := targets - removed]
        invariant connectionSymbols == old(connectionSymbols) - removed
        decreases |disconnected|
      {
        var ws :| ws in disconnected;
        ghost var before := activeConnections;
        var _ := Disconnect(ws, dataType);
        assert (targets - removed) - {ws} == targets - (removed + {ws});
        assert before[dataType := targets - (removed + {ws})] == old(activeConnections)[dataType := targets - (removed + {ws})];
        RemoveKeysStep(old(connectionSymbols), removed, ws);
        removed := removed + {ws};
        disconnected := disconnected - {ws};
      }
    }
  }

  lemma RemoveKeysStep(m: map<Socket, set<string>>, removed: set<Socket>, ws: Socket)
    ensures (m - removed) - {ws} == m - (removed + {ws})
  {
  }

  lemma SubsetCardinality(a: set<Socket>, b: set<Socket>)
    requires a <= b
    ensures |a| <= |b|
  {
    assert b == a + (b - a);
  }
}
