/** The mock exchange's trade engine: active orders keyed by id, an append-only order
    history, the last price of each symbol and two balance accounts. Orders fire when a
    price update passes over their price, and each execution moves a balance by the
    order's value less the fee. */
module MockExchange {
  import opened Results

  datatype Symbol = BTCUSD | ETHUSD

  /** The order types the engine settles, plus any other type name, which it refuses. */
  datatype OrderType =
    | Limit | Market | ExchangeLimit | ExchangeMarket | Stop | ExchangeStop
    | StopLimit | ExchangeStopLimit
    | UnknownType(name: string)

  datatype OrderStatus = Active | Executed | Canceled

  datatype BalanceType = Exchange | Margin

  datatype Order = Order(id: int, symbol: Symbol, price: real, quantity: real, status: OrderStatus,
                         orderType: OrderType, mtsCreate: int, mtsUpdate: int)

  /** The engine's exceptions: RuntimeError for a missing previous price and for a
      negative balance, ValueError for an unknown order type. */
  datatype EngineError =
    | NoPreviousPrice(symbol: Symbol, price: real)
    | NegativeBalance(balance: real)
    | UnknownOrderType(name: string)

  /** The balance dict, which always holds exactly the two accounts. */
  datatype Balances = Balances(exchange: real, margin: real) {
    function Get(account: BalanceType): real {
      if account == Exchange then exchange else margin
    }

    function Set(account: BalanceType, amount: real): (r: Balances)
      ensures r.Get(account) == amount
      ensures forall other :: other != account ==> r.Get(other) == Get(other)
    {
      if account == Exchange then this.(exchange := amount) else this.(margin := amount)
    }
  }

  const DefaultMakerFee: real := 0.001
  const DefaultTakerFee: real := 0.002

  // ---------------------------------------------------------------------------
  // The active-order dict, as a sequence in insertion order with distinct ids.

  function Ids(xs: seq<Order>): set<int> {
    set o | o in xs :: o.id
  }

  predicate DistinctIds(xs: seq<Order>) {
    forall i, j :: 0 <= i < j < |xs| ==> xs[i].id != xs[j].id
  }

  /** orders[id], for an id that is present. */
  function Lookup(xs: seq<Order>, id: int): (o: Order)
    requires id in Ids(xs)
    ensures o in xs && o.id == id
  {
    if xs[0].id == id then xs[0] else Lookup(xs[1..], id)
  }

  /** orders[o.id] = o: overwrite in place when the id is present, append otherwise. */
  function Put(xs: seq<Order>, o: Order): (r: seq<Order>)
    ensures o in r
    ensures forall x :: x in xs && x.id != o.id ==> x in r
    ensures forall x :: x in r ==> x == o || x in xs
  {
    if |xs| == 0 then [o]
    else if xs[0].id == o.id then [o] + xs[1..]
    else [xs[0]] + Put(xs[1..], o)
  }

  /** Every order whose id is not in `ids`, in order. */
  function Without(xs: seq<Order>, ids: set<int>): (r: seq<Order>)
    ensures |r| <= |xs|
    ensures forall k :: 0 <= k < |r| ==> r[k].id !in ids
  {
    if |xs| == 0 then []
    else if xs[0].id in ids then Without(xs[1..], ids)
    else [xs[0]] + Without(xs[1..], ids)
  }

  /** orders.pop(id). */
  function RemoveId(xs: seq<Order>, id: int): (r: seq<Order>)
    ensures id !in Ids(r)
    ensures |r| <= |xs|
  {
    Without(xs, {id})
  }

  /** The ids of a non-empty sequence, and its distinctness, split at the head. */
  lemma ConsIds(xs: seq<Order>)
    requires |xs| > 0
    ensures Ids(xs) == {xs[0].id} + Ids(xs[1..])
    ensures DistinctIds(xs) <==> DistinctIds(xs[1..]) && xs[0].id !in Ids(xs[1..])
  {
    var tail := xs[1..];
    assert xs == [xs[0]] + tail;
    if DistinctIds(xs) {
      forall i, j | 0 <= i < j < |tail| ensures tail[i].id != tail[j].id {
        assert tail[i] == xs[i + 1] && tail[j] == xs[j + 1];
      }
      forall o | o in tail ensures o.id != xs[0].id {
        var k :| 0 <= k < |tail| && tail[k] == o;
        assert xs[k + 1] == o;
      }
    }
    if DistinctIds(tail) && xs[0].id !in Ids(tail) {
      forall i, j | 0 <= i < j < |xs| ensures xs[i].id != xs[j].id {
        assert xs[j] == tail[j - 1];
        if i > 0 {
          assert xs[i] == tail[i - 1];
        }
      }
    }
  }

  /** Storing an order keeps the ids distinct and adds the order's id; a new id goes
      at the end and a known id keeps its place. */
  lemma {:induction false} PutIds(xs: seq<Order>, o: Order)
    requires DistinctIds(xs)
    ensures DistinctIds(Put(xs, o))
    ensures Ids(Put(xs, o)) == Ids(xs) + {o.id}
    ensures o.id in Ids(xs) ==> |Put(xs, o)| == |xs|
    ensures o.id !in Ids(xs) ==> Put(xs, o) == xs + [o]
  {
    if |xs| == 0 {
      assert Put(xs, o) == [o];
    } else {
      var r := Put(xs, o);
      ConsIds(xs);
      ConsIds(r);
      if xs[0].id == o.id {
        assert r[1..] == xs[1..];
      } else {
        PutIds(xs[1..], o);
        assert r[1..] == Put(xs[1..], o);
        if o.id !in Ids(xs) {
          assert r == [xs[0]] + (xs[1..] + [o]) == xs + [o];
        }
      }
    }
  }

  /** After storing an order its id maps to it, and every other id keeps its order. */
  lemma {:induction false} PutLookup(xs: seq<Order>, o: Order)
    requires DistinctIds(xs)
    ensures o.id in Ids(Put(xs, o)) && Lookup(Put(xs, o), o.id) == o
    ensures forall id :: id in Ids(xs) && id != o.id ==>
              id in Ids(Put(xs, o)) && Lookup(Put(xs, o), id) == Lookup(xs, id)
  {
    PutIds(xs, o);
    if |xs| > 0 {
      var r := Put(xs, o);
      ConsIds(xs);
      ConsIds(r);
      if xs[0].id == o.id {
        assert r[1..] == xs[1..];
      } else {
        PutLookup(xs[1..], o);
        assert r[1..] == Put(xs[1..], o);
      }
    }
  }

  /** Dropping a set of ids keeps every other order in order, and the ids stay distinct. */
  lemma {:induction false} WithoutSpec(xs: seq<Order>, ids: set<int>)
    ensures Ids(Without(xs, ids)) == Ids(xs) - ids
    ensures forall o :: o in Without(xs, ids) <==> o in xs && o.id !in ids
    ensures DistinctIds(xs) ==> DistinctIds(Without(xs, ids))
  {
    if |xs| > 0 {
      WithoutSpec(xs[1..], ids);
      assert xs == [xs[0]] + xs[1..];
      if DistinctIds(xs) {
        WithoutConsDistinct(xs, ids);
      }
    }
  }

  /** The distinctness step of WithoutSpec: filtering a distinct sequence whose filtered
      tail is distinct and holds only tail orders gives a distinct sequence. */
  lemma WithoutConsDistinct(xs: seq<Order>, ids: set<int>)
    requires |xs| > 0 && DistinctIds(xs)
    requires forall o :: o in Without(xs[1..], ids) ==> o in xs[1..]
    requires DistinctIds(xs[1..]) ==> DistinctIds(Without(xs[1..], ids))
    ensures DistinctIds(Without(xs, ids))
  {
    var r := Without(xs, ids);
    var t := Without(xs[1..], ids);
    assert DistinctIds(xs[1..]) by {
      forall i, j | 0 <= i < j < |xs[1..]| ensures xs[1..][i].id != xs[1..][j].id {
        assert xs[1..][i] == xs[i + 1] && xs[1..][j] == xs[j + 1];
      }
    }
    if xs[0].id !in ids {
      assert r == [xs[0]] + t;
      forall i, j | 0 <= i < j < |r| ensures r[i].id != r[j].id {
        if i > 0 {
          assert r[i] == t[i - 1] && r[j] == t[j - 1];
        } else {
          assert r[j] in xs[1..];
          var k :| 0 <= k < |xs[1..]| && xs[1..][k] == r[j];
          assert xs[k + 1] == r[j];
        }
      }
    }
  }

  lemma {:induction false} WithoutNothing(xs: seq<Order>)
    ensures Without(xs, {}) == xs
  {
    if |xs| > 0 {
      WithoutNothing(xs[1..]);
      assert xs == [xs[0]] + xs[1..];
    }
  }

  /** Removing one more id from the orders already filtered by `ids`. */
  lemma {:induction false} RemoveIdWithout(xs: seq<Order>, ids: set<int>, id: int)
    ensures RemoveId(Without(xs, ids), id) == Without(xs, ids + {id})
  {
    if |xs| > 0 {
      RemoveIdWithout(xs[1..], ids, id);
      if xs[0].id !in ids {
        assert Without(xs, ids) == [xs[0]] + Without(xs[1..], ids);
        assert Without(xs, ids)[1..] == Without(xs[1..], ids);
      }
    }
  }

  // ---------------------------------------------------------------------------
  // Settlement of an executed order against the balances.

  /** Limit-style orders pay the maker fee; market and stop orders the taker fee. */
  predicate PaysMakerFee(t: OrderType) {
    t == Limit || t == StopLimit || t == ExchangeLimit || t == ExchangeStopLimit
  }

  /** EXCHANGE_* orders settle on the exchange account; the others on margin. */
  predicate OnExchangeAccount(t: OrderType) {
    t == ExchangeLimit || t == ExchangeStopLimit || t == ExchangeMarket || t == ExchangeStop
  }

  /** The account and fee rate update_balance_with_order picks for an order type. */
  function Route(t: OrderType, makerFee: real, takerFee: real): (r: Result<(BalanceType, real), EngineError>)
    ensures r.Failure? <==> t.UnknownType?
    ensures r.Failure? ==> r.error == UnknownOrderType(t.name)
    ensures r.Success? ==> (r.value.0 == Exchange <==> OnExchangeAccount(t))
    ensures r.Success? ==> r.value.1 == (if PaysMakerFee(t) then makerFee else takerFee)
  {
    match t
    case Limit => Success((Margin, makerFee))
    case StopLimit => Success((Margin, makerFee))
    case Market => Success((Margin, takerFee))
    case Stop => Success((Margin, takerFee))
    case ExchangeLimit => Success((Exchange, makerFee))
    case ExchangeStopLimit => Success((Exchange, makerFee))
    case ExchangeMarket => Success((Exchange, takerFee))
    case ExchangeStop => Success((Exchange, takerFee))
    case UnknownType(name) => Failure(UnknownOrderType(name))
  }

  /** The balances after a step of settlement, and the error that stopped it, if any. */
  datatype BalanceRun = BalanceRun(balance: Balances, failure: Option<EngineError>)

  /** add_balance: the amount is added first, and only then is a negative result refused. */
  function AddTo(b: Balances, amount: real, account: BalanceType): (r: BalanceRun)
    ensures r.balance.Get(account) == b.Get(account) + amount
    ensures forall other :: other != account ==> r.balance.Get(other) == b.Get(other)
    ensures r.failure.Some? <==> r.balance.Get(account) < 0.0
    ensures r.failure.Some? ==> r.failure.value == NegativeBalance(r.balance.Get(account))
  {
    var nb := b.Set(account, b.Get(account) + amount);
    if nb.Get(account) < 0.0 then BalanceRun(nb, Some(NegativeBalance(nb.Get(account)))) else BalanceRun(nb, None)
  }

  /** update_balance_with_order: move the order's account by -price * quantity * (1 - fee). */
  function Settle(b: Balances, o: Order, makerFee: real, takerFee: real): (r: BalanceRun)
    ensures o.orderType.UnknownType? ==> r == BalanceRun(b, Some(UnknownOrderType(o.orderType.name)))
    ensures !o.orderType.UnknownType? ==>
              var account := if OnExchangeAccount(o.orderType) then Exchange else Margin;
              var fee := if PaysMakerFee(o.orderType) then makerFee else takerFee;
              && r.balance.Get(account) == b.Get(account) - o.price * o.quantity * (1.0 - fee)
              && (forall other :: other != account ==> r.balance.Get(other) == b.Get(other))
              && (r.failure.Some? <==> r.balance.Get(account) < 0.0)
  {
    match Route(o.orderType, makerFee, takerFee)
    case Failure(e) => BalanceRun(b, Some(e))
    case Success(route) => AddTo(b, (-1.0) * o.price * o.quantity * (1.0 - route.1), route.0)
  }

  /** Settling executed orders one after another, stopping at the first error. */
  function SettleAll(b: Balances, os: seq<Order>, makerFee: real, takerFee: real): (r: BalanceRun)
    ensures |os| == 0 ==> r == BalanceRun(b, None)
    ensures r.failure.Some? ==> r.failure.value.UnknownOrderType?
                                || (r.failure.value.NegativeBalance? && (r.balance.exchange < 0.0 || r.balance.margin < 0.0))
    decreases |os|
  {
    if |os| == 0 then BalanceRun(b, None)
    else
      var r := Settle(b, os[0], makerFee, takerFee);
      if r.failure.Some? then r else SettleAll(r.balance, os[1..], makerFee, takerFee)
  }

  /** Settling xs then ys is settling xs + ys. */
  lemma {:induction false} SettleAllAppend(b: Balances, xs: seq<Order>, ys: seq<Order>, makerFee: real, takerFee: real)
    ensures var first := SettleAll(b, xs, makerFee, takerFee);
            SettleAll(b, xs + ys, makerFee, takerFee)
            == if first.failure.Some? then first else SettleAll(first.balance, ys, makerFee, takerFee)
    decreases |xs|
  {
    if |xs| > 0 {
      assert (xs + ys)[0] == xs[0] && (xs + ys)[1..] == xs[1..] + ys;
      var r := Settle(b, xs[0], makerFee, takerFee);
      if r.failure.None? {
        SettleAllAppend(r.balance, xs[1..], ys, makerFee, takerFee);
      }
    } else {
      assert xs + ys == ys;
    }
  }

  /** A settlement run that completes never leaves an account below zero, if none was
      below zero to begin with. */
  lemma {:induction false} SettleAllNonNegative(b: Balances, os: seq<Order>, makerFee: real, takerFee: real)
    requires b.exchange >= 0.0 && b.margin >= 0.0
    requires SettleAll(b, os, makerFee, takerFee).failure.None?
    ensures var r := SettleAll(b, os, makerFee, takerFee).balance; r.exchange >= 0.0 && r.margin >= 0.0
    decreases |os|
  {
    if |os| > 0 {
      var r := Settle(b, os[0], makerFee, takerFee);
      assert r.failure.None?;
      assert r.balance.exchange >= 0.0 && r.balance.margin >= 0.0 by {
        assert r.balance.exchange == r.balance.Get(Exchange) && r.balance.margin == r.balance.Get(Margin);
      }
      SettleAllNonNegative(r.balance, os[1..], makerFee, takerFee);
    }
  }

  /** The two fills of the engine's unit tests: with 100000 on margin and a maker fee of
      0.001, buying 1 at 30000 leaves 70030, and selling 1 at 40000 leaves 139960. */
  lemma SettleExamples()
    ensures var b := Balances(100000.0, 100000.0);
            var buy := Order(0, BTCUSD, 30000.0, 1.0, Executed, Limit, 1, 3);
            var sell := Order(1, BTCUSD, 40000.0, -1.0, Executed, Limit, 2, 2);
            && Settle(b, buy, DefaultMakerFee, DefaultTakerFee) == BalanceRun(Balances(100000.0, 70030.0), None)
            && Settle(b, sell, DefaultMakerFee, DefaultTakerFee) == BalanceRun(Balances(100000.0, 139960.0), None)
  {
  }

  // ---------------------------------------------------------------------------
  // The trigger rule.

  /** An order fires when it is for the symbol and its price lies in the closed range
      between the previous and the new price, whichever way the price moved. */
  predicate Triggers(o: Order, symbol: Symbol, prev: real, price: real)
    ensures Triggers(o, symbol, prev, price) ==> o.symbol == symbol
    ensures o.symbol == symbol && (o.price == prev || o.price == price) ==> Triggers(o, symbol, prev, price)
  {
    o.symbol == symbol && ((prev <= o.price <= price) || (price <= o.price <= prev))
  }

  /** _execute_order's copy: status EXECUTED and the update time of the price tick. */
  function Execute(o: Order, mts: int): (e: Order)
    ensures e.status == Executed && e.mtsUpdate == mts
    ensures e.(status := o.status, mtsUpdate := o.mtsUpdate) == o
  {
    o.(status := Executed, mtsUpdate := mts)
  }

  /** remove_order's copy: status CANCELED and the given update time. */
  function Cancel(o: Order, mts: int): (c: Order)
    ensures c.status == Canceled && c.mtsUpdate == mts
    ensures c.(status := o.status, mtsUpdate := o.mtsUpdate) == o
  {
    o.(status := Canceled, mtsUpdate := mts)
  }

  /** The executed copies of the orders that fire, in order. */
  function Fired(xs: seq<Order>, symbol: Symbol, prev: real, price: real, mts: int): (f: seq<Order>)
    ensures |f| <= |xs|
    ensures forall k :: 0 <= k < |f| ==> f[k].status == Executed && f[k].mtsUpdate == mts && f[k].symbol == symbol
  {
    if |xs| == 0 then []
    else (if Triggers(xs[0], symbol, prev, price) then [Execute(xs[0], mts)] else [])
         + Fired(xs[1..], symbol, prev, price, mts)
  }

  lemma {:induction false} FiredAppend(xs: seq<Order>, ys: seq<Order>, symbol: Symbol, prev: real, price: real, mts: int)
    ensures Fired(xs + ys, symbol, prev, price, mts) == Fired(xs, symbol, prev, price, mts) + Fired(ys, symbol, prev, price, mts)
  {
    if |xs| == 0 {
      assert xs + ys == ys;
    } else {
      assert (xs + ys)[0] == xs[0] && (xs + ys)[1..] == xs[1..] + ys;
      FiredAppend(xs[1..], ys, symbol, prev, price, mts);
    }
  }

  /** The fired orders are exactly the executed copies of the orders that trigger, and
      the orders left are exactly those that do not trigger. */
  lemma {:induction false} FiredExactly(xs: seq<Order>, symbol: Symbol, prev: real, price: real, mts: int)
    requires DistinctIds(xs)
    ensures forall e :: e in Fired(xs, symbol, prev, price, mts) <==>
              exists o :: o in xs && Triggers(o, symbol, prev, price) && e == Execute(o, mts)
    ensures forall o :: o in Without(xs, Ids(Fired(xs, symbol, prev, price, mts))) <==>
              o in xs && !Triggers(o, symbol, prev, price)
  {
    var f := Fired(xs, symbol, prev, price, mts);
    if |xs| > 0 {
      var tail := xs[1..];
      assert DistinctIds(tail) by {
        forall i, j | 0 <= i < j < |tail| ensures tail[i].id != tail[j].id {
          assert tail[i] == xs[i + 1] && tail[j] == xs[j + 1];
        }
      }
      FiredExactly(tail, symbol, prev, price, mts);
      assert xs == [xs[0]] + tail;
    }
    forall e | e in f ensures exists o :: o in xs && Triggers(o, symbol, prev, price) && e == Execute(o, mts) {
      FiredFrom(xs, symbol, prev, price, mts, e);
    }
    WithoutSpec(xs, Ids(f));
    forall o | o in xs ensures o.id in Ids(f) <==> Triggers(o, symbol, prev, price) {
      if Triggers(o, symbol, prev, price) {
        FiredHas(xs, symbol, prev, price, mts, o);
        assert Execute(o, mts).id == o.id;
      } else if o.id in Ids(f) {
        var e :| e in f && e.id == o.id;
        FiredFrom(xs, symbol, prev, price, mts, e);
        var o2 :| o2 in xs && Triggers(o2, symbol, prev, price) && e == Execute(o2, mts);
        SameIdSameOrder(xs, o, o2);
      }
    }
    forall o | o in xs && Triggers(o, symbol, prev, price) ensures Execute(o, mts) in f {
      FiredHas(xs, symbol, prev, price, mts, o);
    }
  }

  lemma {:induction false} FiredFrom(xs: seq<Order>, symbol: Symbol, prev: real, price: real, mts: int, e: Order)
    requires e in Fired(xs, symbol, prev, price, mts)
    ensures exists o :: o in xs && Triggers(o, symbol, prev, price) && e == Execute(o, mts)
  {
    if |xs| > 0 {
      if !(Triggers(xs[0], symbol, prev, price) && e == Execute(xs[0], mts)) {
        FiredFrom(xs[1..], symbol, prev, price, mts, e);
        var o :| o in xs[1..] && Triggers(o, symbol, prev, price) && e == Execute(o, mts);
        assert o in xs;
      }
    }
  }

  lemma {:induction false} FiredHas(xs: seq<Order>, symbol: Symbol, prev: real, price: real, mts: int, o: Order)
    requires o in xs && Triggers(o, symbol, prev, price)
    ensures Execute(o, mts) in Fired(xs, symbol, prev, price, mts)
  {
    if xs[0] != o {
      assert o in xs[1..];
      FiredHas(xs[1..], symbol, prev, price, mts, o);
    }
  }

  lemma SameIdSameOrder(xs: seq<Order>, a: Order, b: Order)
    requires DistinctIds(xs) && a in xs && b in xs && a.id == b.id
    ensures a == b
  {
    var i :| 0 <= i < |xs| && xs[i] == a;
    var j :| 0 <= j < |xs| && xs[j] == b;
  }

  /** One order of the first trigger loop: the fired prefix grows by the order's executed
      copy when it triggers, and a failed settlement of that copy is where the whole
      settlement run stops. */
  lemma FireStep(b0: Balances, xs: seq<Order>, i: int, symbol: Symbol, prev: real, price: real, mts: int,
                 makerFee: real, takerFee: real)
    requires 0 <= i < |xs|
    requires SettleAll(b0, Fired(xs[..i], symbol, prev, price, mts), makerFee, takerFee).failure.None?
    ensures var before := Fired(xs[..i], symbol, prev, price, mts);
            var mid := SettleAll(b0, before, makerFee, takerFee).balance;
            var e := Execute(xs[i], mts);
            && (!Triggers(xs[i], symbol, prev, price) ==> Fired(xs[..i + 1], symbol, prev, price, mts) == before)
            && (Triggers(xs[i], symbol, prev, price) ==>
                  && Fired(xs[..i + 1], symbol, prev, price, mts) == before + [e]
                  && SettleAll(b0, before + [e], makerFee, takerFee)
                     == (var s := Settle(mid, e, makerFee, takerFee);
                         if s.failure.Some? then s else BalanceRun(s.balance, None))
                  && (Settle(mid, e, makerFee, takerFee).failure.Some? ==>
                        SettleAll(b0, Fired(xs, symbol, prev, price, mts), makerFee, takerFee)
                        == Settle(mid, e, makerFee, takerFee)))
  {
    var before := Fired(xs[..i], symbol, prev, price, mts);
    var e := Execute(xs[i], mts);
    assert xs[..i + 1] == xs[..i] + [xs[i]];
    FiredAppend(xs[..i], [xs[i]], symbol, prev, price, mts);
    assert [xs[i]][1..] == [];
    if Triggers(xs[i], symbol, prev, price) {
      SettleAllAppend(b0, before, [e], makerFee, takerFee);
      assert [e][1..] == [];
      assert xs == xs[..i + 1] + xs[i + 1..];
      FiredAppend(xs[..i + 1], xs[i + 1..], symbol, prev, price, mts);
      SettleAllAppend(b0, before + [e], Fired(xs[i + 1..], symbol, prev, price, mts), makerFee, takerFee);
    }
  }

  /** One order of the second trigger loop: removing its id extends the removed set. */
  lemma RemoveStep(xs: seq<Order>, fired: seq<Order>, j: int)
    requires 0 <= j < |fired|
    ensures RemoveId(Without(xs, Ids(fired[..j])), fired[j].id) == Without(xs, Ids(fired[..j + 1]))
  {
    assert fired[..j + 1] == fired[..j] + [fired[j]];
    assert Ids(fired[..j + 1]) == Ids(fired[..j]) + {fired[j].id};
    RemoveIdWithout(xs, Ids(fired[..j]), fired[j].id);
  }

  function Reverse(xs: seq<Order>): (r: seq<Order>)
    ensures |r| == |xs|
    ensures forall k :: 0 <= k < |xs| ==> r[k] == xs[|xs| - 1 - k]
  {
    if |xs| == 0 then [] else Reverse(xs[1..]) + [xs[0]]
  }

  /** What update_price returns on success. */
  datatype PriceUpdate = PriceUpdate(mts: int, symbol: Symbol, price: real, triggeredOrders: seq<Order>)

  class TradeEngine {
    var orders: seq<Order>
    var history: seq<Order>
    var price: map<Symbol, real>
    var balance: Balances
    const makerFee: real
    const takerFee: real

    /** The active orders behave as a dict: one entry per id. */
    ghost predicate Valid()
      reads this
    {
      DistinctIds(orders)
    }

    /** TradeEngine(initial_exchange_balance, initial_margin_balance, maker_fee, taker_fee);
        the defaults are 0, 0, DefaultMakerFee and DefaultTakerFee. */
    constructor (initialExchange: real, initialMargin: real, makerFee: real, takerFee: real)
      ensures Valid()
      ensures orders == [] && history == [] && price == map[]
      ensures balance == Balances(initialExchange, initialMargin)
      ensures this.makerFee == makerFee && this.takerFee == takerFee
    {
      orders := [];
      history := [];
      price := map[];
      balance := Balances(initialExchange, initialMargin);
      this.makerFee := makerFee;
      this.takerFee := takerFee;
    }

    /** add_order: store the order under its id and append it to the history. */
    method AddOrder(o: Order)
      requires Valid()
      modifies this`orders, this`history
      ensures Valid()
      ensures orders == Put(old(orders), o) && Ids(orders) == Ids(old(orders)) + {o.id}
      ensures Lookup(orders, o.id) == o
      ensures history == old(history) + [o]
    {
      PutIds(orders, o);
      PutLookup(orders, o);
      orders := Put(orders, o);
      history := history + [o];
    }

    /** get_orders: the active orders in insertion order. */
    function GetOrders(): (r: seq<Order>)
      reads this
      requires Valid()
      ensures DistinctIds(r) && forall o :: o in r <==> o in orders
    {
      orders
    }

    /** get_order_history: the history, oldest first or newest first. */
    function GetOrderHistory(ascending: bool): (r: seq<Order>)
      reads this
      ensures |r| == |history|
      ensures forall k :: 0 <= k < |r| ==> r[k] == (if ascending then history[k] else history[|history| - 1 - k])
    {
      if ascending then history else Reverse(history)
    }

    /** remove_order: an active order leaves the dict and a CANCELED copy stamped with
        `mts` is appended to the history and returned; an unknown id changes nothing. */
    method RemoveOrder(id: int, mts: int) returns (r: Option<Order>)
      requires Valid()
      modifies this`orders, this`history
      ensures Valid()
      ensures id in Ids(old(orders)) ==>
                && r == Some(Cancel(Lookup(old(orders), id), mts))
                && orders == RemoveId(old(orders), id) && Ids(orders) == Ids(old(orders)) - {id}
                && history == old(history) + [r.value]
      ensures id !in Ids(old(orders)) ==> r == None && orders == old(orders) && history == old(history)
    {
      if id in Ids(orders) {
        var canceled := Cancel(Lookup(orders, id), mts);
        WithoutSpec(orders, {id});
        orders := RemoveId(orders, id);
        history := history + [canceled];
        return Some(canceled);
      }
      return None;
    }

    /** add_balance. */
    method AddBalance(amount: real, account: BalanceType) returns (r: Result<Balances, EngineError>)
      modifies this`balance
      ensures balance == AddTo(old(balance), amount, account).balance
      ensures r.Failure? <==> AddTo(old(balance), amount, account).failure.Some?
      ensures r.Failure? ==> r.error == AddTo(old(balance), amount, account).failure.value
      ensures r.Success? ==> r.value == balance
    {
      balance := balance.Set(account, balance.Get(account) + amount);
      if balance.Get(account) < 0.0 {
        return Failure(NegativeBalance(balance.Get(account)));
      }
      return Success(balance);
    }

    /** update_balance_with_order. */
    method UpdateBalanceWithOrder(o: Order) returns (r: Outcome<EngineError>)
      modifies this`balance
      ensures balance == Settle(old(balance), o, makerFee, takerFee).balance
      ensures r.Pass? <==> Settle(old(balance), o, makerFee, takerFee).failure.None?
      ensures r.Fail? ==> r.error == Settle(old(balance), o, makerFee, takerFee).failure.value
    {
      var route := Route(o.orderType, makerFee, takerFee);
      if route.Failure? {
        return Fail(route.error);
      }
      var added := AddBalance((-1.0) * o.price * o.quantity * (1.0 - route.value.1), route.value.0);
      if added.Failure? {
        return Fail(added.error);
      }
      return Pass;
    }

    /** _execute_order: settle an EXECUTED copy of the active order stamped with `mts`. */
    method ExecuteOrder(id: int, mts: int) returns (r: Result<Order, EngineError>)
      requires id in Ids(orders)
      modifies this`balance
      ensures var e := Execute(Lookup(orders, id), mts);
              && balance == Settle(old(balance), e, makerFee, takerFee).balance
              && (r.Success? <==> Settle(old(balance), e, makerFee, takerFee).failure.None?)
              && (r.Success? ==> r.value == e)
              && (r.Failure? ==> r.error == Settle(old(balance), e, makerFee, takerFee).failure.value)
    {
      var executed := Execute(Lookup(orders, id), mts);
      var settled := UpdateBalanceWithOrder(executed);
      if settled.Fail? {
        return Failure(settled.error);
      }
      return Success(executed);
    }

    /** _trigger_orders: settle every order the move from the previous price to `p`
        passes over, then move the fired orders from the dict to the history. A failed
        settlement stops the first loop with the balances settled so far, the failing one
        included, and the orders untouched. */
    method TriggerOrders(symbol: Symbol, p: real, mts: int) returns (r: Result<seq<Order>, EngineError>)
      requires Valid()
      modifies this`orders, this`history, this`balance
      ensures Valid()
      ensures symbol !in price ==>
                r == Failure(NoPreviousPrice(symbol, p))
                && orders == old(orders) && history == old(history) && balance == old(balance)
      ensures symbol in price ==>
                var fired := Fired(old(orders), symbol, price[symbol], p, mts);
                var run := SettleAll(old(balance), fired, makerFee, takerFee);
                && balance == run.balance
                && (run.failure.Some? ==>
                      r == Failure(run.failure.value) && orders == old(orders) && history == old(history))
                && (run.failure.None? ==>
                      && r == Success(fired)
                      && orders == Without(old(orders), Ids(fired))
                      && history == old(history) + fired)
    {
      if symbol !in price {
        return Failure(NoPreviousPrice(symbol, p));
      }
      var fired := SettleCrossed(symbol, price[symbol], p, mts);
      if fired.Failure? {
        return fired;
      }
      RetireFired(fired.value);
      return fired;
    }

    /** The first loop of _trigger_orders: execute and settle, in dict order, every order
        on the symbol whose price lies between `prev` and `p`. */
    method SettleCrossed(symbol: Symbol, prev: real, p: real, mts: int) returns (r: Result<seq<Order>, EngineError>)
      requires Valid()
      modifies this`balance
      ensures var fired := Fired(orders, symbol, prev, p, mts);
              var run := SettleAll(old(balance), fired, makerFee, takerFee);
              && balance == run.balance
              && (run.failure.Some? ==> r == Failure(run.failure.value))
              && (run.failure.None? ==> r == Success(fired))
    {
      ghost var b0 := balance;
      var fired: seq<Order> := [];
      var i := 0;
      while i < |orders|
        invariant 0 <= i <= |orders|
        invariant fired == Fired(orders[..i], symbol, prev, p, mts)
        invariant SettleAll(b0, fired, makerFee, takerFee) == BalanceRun(balance, None)
      {
        var o := orders[i];
        FireStep(b0, orders, i, symbol, prev, p, mts, makerFee, takerFee);
        if Triggers(o, symbol, prev, p) {
          SameIdSameOrder(orders, o, Lookup(orders, o.id));
          var executed := ExecuteOrder(o.id, mts);
          if executed.Failure? {
            return Failure(executed.error);
          }
          fired := fired + [executed.value];
        }
        i := i + 1;
      }
      assert orders[..|orders|] == orders;
      return Success(fired);
    }

    /** The second loop of _trigger_orders: pop each fired order's id from the dict and
        append the fired order to the history. */
    method RetireFired(fired: seq<Order>)
      requires Valid()
      modifies this`orders, this`history
      ensures Valid()
      ensures orders == Without(old(orders), Ids(fired))
      ensures history == old(history) + fired
    {
      var j := 0;
      assert fired[..0] == [] && Ids(fired[..0]) == {};
      WithoutNothing(orders);
      while j < |fired|
        invariant 0 <= j <= |fired|
        invariant Valid()
        invariant orders == Without(old(orders), Ids(fired[..j]))
        invariant history == old(history) + fired[..j]
      {
        RemoveStep(old(orders), fired, j);
        WithoutSpec(orders, {fired[j].id});
        orders := RemoveId(orders, fired[j].id);
        history := history + [fired[j]];
        j := j + 1;
      }
      assert fired[..|fired|] == fired;
    }

    /** update_price: with active orders, fire the ones the move passes over; then
        record the price. When firing raises, the price is not recorded. */
    method UpdatePrice(symbol: Symbol, p: real, mts: int) returns (r: Result<PriceUpdate, EngineError>)
      requires Valid()
      modifies this`orders, this`history, this`balance, this`price
      ensures Valid()
      ensures r.Success? ==> price == old(price)[symbol := p]
      ensures r.Failure? ==> price == old(price)
      ensures old(orders) == [] ==>
                r == Success(PriceUpdate(mts, symbol, p, []))
                && orders == old(orders) && history == old(history) && balance == old(balance)
      ensures old(orders) != [] && symbol !in old(price) ==>
                r == Failure(NoPreviousPrice(symbol, p))
                && orders == old(orders) && history == old(history) && balance == old(balance)
      ensures old(orders) != [] && symbol in old(price) ==>
                var fired := Fired(old(orders), symbol, old(price)[symbol], p, mts);
                var run := SettleAll(old(balance), fired, makerFee, takerFee);
                && balance == run.balance
                && (run.failure.Some? ==>
                      r == Failure(run.failure.value) && orders == old(orders) && history == old(history))
                && (run.failure.None? ==>
                      && r == Success(PriceUpdate(mts, symbol, p, fired))
                      && orders == Without(old(orders), Ids(fired))
                      && history == old(history) + fired)
    {
      var triggered: seq<Order> := [];
      if |orders| > 0 {
        var t := TriggerOrders(symbol, p, mts);
        if t.Failure? {
          return Failure(t.error);
        }
        triggered := t.value;
      }
      price := price[symbol := p];
      return Success(PriceUpdate(mts, symbol, p, triggered));
    }
  }
}
