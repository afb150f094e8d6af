/** The map of breaker objects that SmartRouter of internal/proxy/router.go keeps, proved to act as a map of
    breaker values: a call on one breaker changes that one's value and nobody else's. The key type does not
    matter to the proof and is left open. */
module BreakerBank {
  import opened Prelude
  import opened Circuit

  /** The object has this value, and everything it consists of lies in `owned`. */
  ghost predicate Stands(cb: CircuitBreaker, b: Breaker, owned: set<object>)
    reads cb, cb.failures, cb.successes
  {
    cb.Footprint() <= owned && cb.Valid() && cb.View() == b
  }

  lemma StandsMeans(cb: CircuitBreaker, b: Breaker, owned: set<object>)
    ensures Stands(cb, b, owned) <==> cb.Footprint() <= owned && cb.Valid() && cb.View() == b
  {
  }

  lemma StandsInMore(cb: CircuitBreaker, b: Breaker, owned: set<object>, more: set<object>)
    requires Stands(cb, b, owned) && owned <= more
    ensures Stands(cb, b, more)
  {
  }

  ghost predicate Apart(a: CircuitBreaker, b: CircuitBreaker)
    reads a, b
  {
    a.Footprint() !! b.Footprint()
  }

  ghost predicate AllStand<K(!new)>(breakers: map<K, CircuitBreaker>, bank: map<K, Breaker>, owned: set<object>)
    requires breakers.Values <= owned
    reads owned
  {
    breakers.Keys == bank.Keys
    && forall k | k in breakers :: breakers[k].Footprint() <= owned && Stands(breakers[k], bank[k], owned)
  }

  ghost predicate AllApart<K(!new)>(breakers: map<K, CircuitBreaker>)
    reads breakers.Values
  {
    forall j, k | j in breakers && k in breakers && j != k :: Apart(breakers[j], breakers[k])
  }

  /** One breaker has a new value; the others still stand, apart from it and from each other. */
  lemma OneReplaced<K(!new)>(breakers: map<K, CircuitBreaker>, bank: map<K, Breaker>, owned: set<object>, id: K, b: Breaker)
    requires breakers.Values <= owned && breakers.Keys == bank.Keys && id in breakers
    requires Stands(breakers[id], b, owned)
    requires forall k | k in breakers && k != id :: Stands(breakers[k], bank[k], owned) && Apart(breakers[k], breakers[id])
    requires forall j, k | j in breakers && k in breakers && j != k && j != id && k != id :: Apart(breakers[j], breakers[k])
    ensures AllStand(breakers, bank[id := b], owned) && AllApart(breakers)
  {
  }

  lemma OneAdded<K(!new)>(breakers: map<K, CircuitBreaker>, bank: map<K, Breaker>, owned: set<object>, id: K,
      cb: CircuitBreaker, b: Breaker)
    requires breakers.Values <= owned && id !in breakers
    requires AllStand(breakers, bank, owned) && AllApart(breakers)
    requires Stands(cb, b, owned + cb.Footprint()) && cb.Footprint() !! owned
    ensures AllStand(breakers[id := cb], bank[id := b], owned + cb.Footprint()) && AllApart(breakers[id := cb])
  {
    forall k | k in breakers
      ensures Stands(breakers[k], bank[k], owned + cb.Footprint()) && Apart(breakers[k], cb) && Apart(cb, breakers[k])
    {
      assert Stands(breakers[k], bank[k], owned);
    }
  }

  /** `bank` is the value of the breakers; `owned` holds them and their timestamp slices. */
  class Breakers<K(==, !new)> {
    var breakers: map<K, CircuitBreaker>
    ghost var bank: map<K, Breaker>
    ghost var owned: set<object>

    ghost predicate Valid()
      reads this, owned
    {
      && this !in owned
      && breakers.Values <= owned
      && AllStand(breakers, bank, owned)
      && AllApart(breakers)
    }

    constructor ()
      ensures Valid() && bank == map[] && owned == {}
    {
      breakers := map[];
      bank := map[];
      owned := {};
    }

    lemma SameKeys()
      requires Valid()
      ensures breakers.Keys == bank.Keys
    {
    }

    /** Finds or creates. */
    method Get(id: K, now: Time) returns (cb: CircuitBreaker)
      requires Valid()
      modifies this
      ensures Valid() && fresh(owned - old(owned))
      ensures id in breakers && cb == breakers[id]
      ensures bank == old(bank)[id := if id in old(bank) then old(bank)[id] else New(now)]
    {
      SameKeys();
      hide AllStand, AllApart, New;
      if id in breakers {
        cb := breakers[id];
        assert bank == old(bank)[id := old(bank)[id]];
      } else {
        cb := Add(id, now);
      }
    }

    method Add(id: K, now: Time) returns (cb: CircuitBreaker)
      requires Valid() && id !in breakers
      modifies this
      ensures Valid() && fresh(owned - old(owned))
      ensures id in breakers && cb == breakers[id]
      ensures bank == old(bank)[id := New(now)]
    {
      cb := new CircuitBreaker(now);
      hide AllStand, AllApart, New, Stands;
      ghost var more := owned + cb.Footprint();
      StandsMeans(cb, New(now), more);
      OneAdded(breakers, bank, owned, id, cb, New(now));
      owned := more;
      breakers := breakers[id := cb];
      bank := bank[id := New(now)];
    }

    method Configure(id: K, next: Settings)
      requires Valid() && id in breakers
      modifies this, owned
      ensures Valid() && breakers == old(breakers) && owned == old(owned)
      ensures id in old(bank) && bank == old(bank)[id := Configured(old(bank)[id], next)]
    {
      hide Stands, OnAllow, Configured, Refuses;
      var cb := breakers[id];
      StandsMeans(cb, bank[id], owned);
      cb.Configure(next.threshold, next.window, next.cooldown);
      forall k | k in breakers && k != id
        ensures Stands(breakers[k], bank[k], owned) && Apart(breakers[k], cb)
      {
        assert old(Stands(breakers[k], bank[k], owned)) && old(Apart(breakers[k], breakers[id]));
      }
      forall j, k | j in breakers && k in breakers && j != k && j != id && k != id
        ensures Apart(breakers[j], breakers[k])
      {
        assert old(Apart(breakers[j], breakers[k]));
      }
      StandsMeans(cb, Configured(bank[id], next), owned);
      hide AllStand, AllApart, Apart;
      OneReplaced(breakers, bank, owned, id, Configured(bank[id], next));
      bank := bank[id := Configured(bank[id], next)];
    }

    method Allow(id: K, now: Time) returns (ok: bool)
      requires Valid() && id in breakers
      modifies this, owned
      ensures Valid() && breakers == old(breakers) && owned == old(owned)
      ensures id in old(bank) && bank == old(bank)[id := OnAllow(old(bank)[id], now)]
      ensures ok == !Refuses(old(bank)[id], now)
    {
      hide Stands, OnAllow, Configured, Refuses;
      var cb := breakers[id];
      StandsMeans(cb, bank[id], owned);
      ok := cb.Allow(now);
      forall k | k in breakers && k != id
        ensures Stands(breakers[k], bank[k], owned) && Apart(breakers[k], cb)
      {
        assert old(Stands(breakers[k], bank[k], owned)) && old(Apart(breakers[k], breakers[id]));
      }
      forall j, k | j in breakers && k in breakers && j != k && j != id && k != id
        ensures Apart(breakers[j], breakers[k])
      {
        assert old(Apart(breakers[j], breakers[k]));
      }
      StandsMeans(cb, OnAllow(bank[id], now), owned);
      hide AllStand, AllApart, Apart;
      OneReplaced(breakers, bank, owned, id, OnAllow(bank[id], now));
      bank := bank[id := OnAllow(bank[id], now)];
    }

    method RecordSuccess(id: K, now: Time)
      requires Valid() && id in breakers
      modifies this, owned
      ensures Valid() && breakers == old(breakers) && fresh(owned - old(owned))
      ensures id in old(bank) && bank == old(bank)[id := OnSuccess(old(bank)[id], now)]
    {
      hide Stands, OnSuccess, OnFailure, New;
      var cb := breakers[id];
      StandsMeans(cb, bank[id], owned);
      cb.RecordSuccess(now);
      ghost var more := owned + cb.Footprint();
      forall k | k in breakers && k != id
        ensures Stands(breakers[k], bank[k], more) && Apart(breakers[k], cb)
      {
        assert old(Stands(breakers[k], bank[k], owned)) && old(Apart(breakers[k], breakers[id]));
        StandsInMore(breakers[k], bank[k], owned, more);
      }
      forall j, k | j in breakers && k in breakers && j != k && j != id && k != id
        ensures Apart(breakers[j], breakers[k])
      {
        assert old(Apart(breakers[j], breakers[k]));
        assert old(Apart(breakers[j], breakers[id])) && old(Apart(breakers[k], breakers[id]));
      }
      StandsMeans(cb, OnSuccess(bank[id], now), more);
      hide AllStand, AllApart, Apart;
      OneReplaced(breakers, bank, more, id, OnSuccess(bank[id], now));
      owned := more;
      bank := bank[id := OnSuccess(bank[id], now)];
    }

    method RecordFailure(id: K, now: Time)
      requires Valid() && id in breakers
      modifies this, owned
      ensures Valid() && breakers == old(breakers) && fresh(owned - old(owned))
      ensures id in old(bank) && bank == old(bank)[id := OnFailure(old(bank)[id], now)]
    {
      hide Stands, OnSuccess, OnFailure, New;
      var cb := breakers[id];
      StandsMeans(cb, bank[id], owned);
      cb.RecordFailure(now);
      ghost var more := owned + cb.Footprint();
      forall k | k in breakers && k != id
        ensures Stands(breakers[k], bank[k], more) && Apart(breakers[k], cb)
      {
        assert old(Stands(breakers[k], bank[k], owned)) && old(Apart(breakers[k], breakers[id]));
        StandsInMore(breakers[k], bank[k], owned, more);
      }
      forall j, k | j in breakers && k in breakers && j != k && j != id && k != id
        ensures Apart(breakers[j], breakers[k])
      {
        assert old(Apart(breakers[j], breakers[k]));
        assert old(Apart(breakers[j], breakers[id])) && old(Apart(breakers[k], breakers[id]));
      }
      StandsMeans(cb, OnFailure(bank[id], now), more);
      hide AllStand, AllApart, Apart;
      OneReplaced(breakers, bank, more, id, OnFailure(bank[id], now));
      owned := more;
      bank := bank[id := OnFailure(bank[id], now)];
    }
  }
}
