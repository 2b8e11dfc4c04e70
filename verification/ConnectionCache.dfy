/** The cached gRPC connections: clientFor and closeClientFor of k8sgpt_controller.go. */
module ConnectionCache {
  import opened Strings
  import opened Gvk

  /** A dialled connection; `closed` counts how often Close was called on it. */
  class Client {
    const address: string
    var closed: nat

    constructor (address: string)
      ensures this.address == address && closed == 0
    {
      this.address := address;
      this.closed := 0;
    }

    method Close()
      modifies this
      ensures closed == old(closed) + 1
    {
      closed := closed + 1;
    }
  }

  datatype CachedClient = CachedClient(address: string, client: Client)

  /** One call of the reconciler on its cache. */
  datatype Call = ClientFor(key: ObjectKey, address: string, dials: bool) | CloseClientFor(key: ObjectKey)

  /** What one call should do to the address each key is held for. */
  function Moved(held: map<ObjectKey, string>, call: Call): map<ObjectKey, string> {
    if call.CloseClientFor? then held - {call.key}
    else if call.key in held && held[call.key] == call.address then held
    else if call.dials then held[call.key := call.address]
    else held - {call.key}
  }

  /** The address each key should be held for: the last one dialled for it, until it is released. */
  function Addresses(calls: seq<Call>): map<ObjectKey, string>
    decreases |calls|
  {
    if calls == [] then map[] else Moved(Addresses(calls[..|calls| - 1]), calls[|calls| - 1])
  }

  /** The call asks for a connection of this key, or gives it up. */
  predicate About(call: Call, key: ObjectKey) {
    call.key == key
  }

  /**
   * Call number `i` asked for this address of the key and could have dialled it, and every later call
   * about the key asks for the same address.
   */
  predicate LastDialled(calls: seq<Call>, key: ObjectKey, address: string, i: nat) {
    && i < |calls| && calls[i] == Call.ClientFor(key, address, true)
    && forall j | i < j < |calls| && About(calls[j], key) :: calls[j].ClientFor? && calls[j].address == address
  }

  lemma LastDialledAppend(calls: seq<Call>, call: Call, key: ObjectKey, address: string, i: nat)
    requires i < |calls|
    ensures LastDialled(calls + [call], key, address, i) <==>
            LastDialled(calls, key, address, i) && (About(call, key) ==> call.ClientFor? && call.address == address)
  {
    var longer := calls + [call];
    assert longer[|calls|] == call && forall j | 0 <= j < |calls| :: longer[j] == calls[j];
  }

  /**
   * What a key is held for, told from the trace alone: an address is held exactly when some call asked
   * for it and could have dialled it, and since then the key was neither released nor asked for at
   * another address, whether or not that could be dialled. A key is held exactly when there is such a call.
   */
  lemma {:induction false} HeldIffLastDialled(calls: seq<Call>, key: ObjectKey, address: string)
    ensures key in Addresses(calls) && Addresses(calls)[key] == address <==>
            exists i :: LastDialled(calls, key, address, i)
    decreases |calls|
  {
    if calls != [] {
      var n := |calls| - 1;
      var before, call := calls[..n], calls[n];
      assert calls == before + [call];
      HeldIffLastDialled(before, key, address);
      forall i: nat | i < n ensures LastDialled(calls, key, address, i) <==>
        LastDialled(before, key, address, i) && (About(call, key) ==> call.ClientFor? && call.address == address)
      {
        LastDialledAppend(before, call, key, address, i);
      }
      if call == Call.ClientFor(key, address, true) {
        assert LastDialled(calls, key, address, n);
      } else if i :| LastDialled(before, key, address, i) {
        assert LastDialled(calls, key, address, i) <==> (About(call, key) ==> call.ClientFor? && call.address == address);
      }
    }
  }

  /** The addresses a cache is held for. */
  function HeldFor(cache: map<ObjectKey, CachedClient>): map<ObjectKey, string> {
    map k | k in cache :: cache[k].address
  }

  /** The cache holds this key for this address exactly when the trace of calls says so. */
  ghost predicate HoldsLastDialled(cache: map<ObjectKey, CachedClient>, calls: seq<Call>, key: ObjectKey, address: string) {
    (key in cache && cache[key].address == address) <==> exists i :: LastDialled(calls, key, address, i)
  }

  lemma CacheHoldsLastDialled(cache: map<ObjectKey, CachedClient>, calls: seq<Call>, key: ObjectKey, address: string)
    requires HeldFor(cache) == Addresses(calls)
    ensures HoldsLastDialled(cache, calls, key, address)
  {
    HeldIffLastDialled(calls, key, address);
    assert key in HeldFor(cache) <==> key in cache;
  }

  /** Every cached connection is one to the address it is cached for. */
  ghost predicate Matched(cache: map<ObjectKey, CachedClient>) {
    forall k | k in cache :: cache[k].client.address == cache[k].address
  }

  lemma HeldAfterDrop(cache: map<ObjectKey, CachedClient>, key: ObjectKey)
    ensures HeldFor(cache - {key}) == HeldFor(cache) - {key}
  {
  }

  lemma HeldAfterDial(cache: map<ObjectKey, CachedClient>, key: ObjectKey, entry: CachedClient)
    ensures HeldFor((cache - {key})[key := entry]) == HeldFor(cache)[key := entry.address]
    ensures (cache - {key})[key := entry] - {key} == cache - {key}
  {
  }

  lemma HeldByCache(cache: map<ObjectKey, CachedClient>, key: ObjectKey)
    ensures key in HeldFor(cache) <==> key in cache
    ensures key in cache ==> HeldFor(cache)[key] == cache[key].address
  {
  }

  lemma DropMissing(cache: map<ObjectKey, CachedClient>, key: ObjectKey)
    requires key !in cache
    ensures cache - {key} == cache
  {
  }

  lemma AddressesAfter(calls: seq<Call>, call: Call)
    ensures Addresses(calls + [call]) == Moved(Addresses(calls), call)
  {
    assert (calls + [call])[..|calls|] == calls;
  }

  class K8sGPTReconciler {
    var kclients: map<ObjectKey, CachedClient>
    ghost var dialled: set<Client>
    ghost var calls: seq<Call>

    /** The cache holds this connection. */
    ghost predicate Holds(c: Client)
      reads this
    {
      exists k | k in kclients :: kclients[k].client == c
    }

    /** Every connection ever dialled is cached and open, or not cached and closed exactly once. */
    ghost predicate Conserved()
      reads this, dialled
    {
      && (forall k | k in kclients :: kclients[k].client in dialled && kclients[k].client.closed == 0)
      && (forall c | c in dialled && !Holds(c) :: c.closed == 1)
      && (forall j, k | j in kclients && k in kclients && j != k :: kclients[j].client != kclients[k].client)
    }

    /** Every key holds the address it should, on a connection of that address. */
    ghost predicate Addressed()
      reads this
    {
      HeldFor(kclients) == Addresses(calls) && Matched(kclients)
    }

    ghost predicate Valid()
      reads this, dialled
    {
      Conserved() && Addressed()
    }

    constructor ()
      ensures Valid() && dialled == {} && calls == []
    {
      kclients := map[];
      dialled := {};
      calls := [];
    }

    /** The open connections among those ever dialled. */
    ghost function Open(): set<Client>
      reads this, dialled
    {
      set c | c in dialled && c.closed == 0
    }

    /** Conservation: as many open connections as cached keys. */
    lemma OpenIsCached()
      requires Conserved()
      ensures |Open()| == |kclients.Keys|
    {
      ghost var clients := set k | k in kclients :: kclients[k].client;
      assert Open() == clients;
      OneToOne(kclients.Keys, kclients);
    }

    static lemma OneToOne(keys: set<ObjectKey>, cache: map<ObjectKey, CachedClient>)
      requires keys <= cache.Keys
      requires forall j, k | j in keys && k in keys && j != k :: cache[j].client != cache[k].client
      ensures |set k | k in keys :: cache[k].client| == |keys|
      decreases |keys|
    {
      ghost var clients := set k | k in keys :: cache[k].client;
      if keys != {} {
        ghost var k :| k in keys;
        OneToOne(keys - {k}, cache);
        ghost var rest := set j | j in keys - {k} :: cache[j].client;
        assert clients == rest + {cache[k].client};
        assert cache[k].client !in rest;
      } else {
        assert clients == {};
      }
    }

    /** Closes what a key holds and forgets it. */
    method Drop(key: ObjectKey)
      requires Conserved() && key in kclients
      modifies this`kclients, kclients[key].client
      ensures Conserved() && kclients == old(kclients) - {key}
    {
      ghost var before := kclients;
      kclients[key].client.Close();
      kclients := kclients - {key};
      forall c | c in dialled && !Holds(c) ensures c.closed == 1 {
        if c != before[key].client {
          forall k | k in before ensures before[k].client != c {
            if k != key { assert k in kclients && kclients[k] == before[k]; }
          }
          assert !old(Holds(c));
        }
      }
    }

    /** Dials, and takes in the connection for a key that has none. */
    method Dial(key: ObjectKey, address: string) returns (client: Client)
      requires Conserved() && key !in kclients
      modifies this`kclients, this`dialled
      ensures Conserved() && dialled == old(dialled) + {client} && fresh(client)
      ensures kclients == old(kclients)[key := CachedClient(address, client)] && client.address == address
    {
      ghost var before := kclients;
      client := new Client(address);
      dialled := dialled + {client};
      kclients := kclients[key := CachedClient(address, client)];
      assert Holds(client) by { assert kclients[key].client == client; }
      forall c | c in dialled && !Holds(c) ensures c.closed == 1 {
        forall k | k in before ensures before[k].client != c {
          assert k in kclients && kclients[k] == before[k];
        }
        assert !old(Holds(c));
      }
    }

    /** Forgets what a key holds, if anything. */
    method Release(key: ObjectKey)
      requires Conserved()
      modifies this`kclients, dialled
      ensures Conserved() && kclients == old(kclients) - {key}
    {
      if key in kclients {
        Drop(key);
      } else {
        DropMissing(kclients, key);
      }
    }

    /** A connection for an address the key does not hold. */
    method Redial(key: ObjectKey, address: string, dials: bool) returns (c: Option<Client>)
      requires Conserved() && Matched(kclients)
      modifies this`kclients, this`dialled, dialled
      ensures Conserved() && Matched(kclients) && c.Some? == dials
      ensures c.Some? ==> fresh(c.value) && dialled == old(dialled) + {c.value}
      ensures c.None? ==> dialled == old(dialled)
      ensures c == (if key in kclients then Some(kclients[key].client) else None) && kclients - {key} == old(kclients) - {key}
      ensures HeldFor(kclients) == if dials then HeldFor(old(kclients))[key := address] else HeldFor(old(kclients)) - {key}
    {
      HeldAfterDrop(kclients, key);
      Release(key);
      if !dials {
        return None;
      }
      var client := Dial(key, address);
      HeldAfterDial(old(kclients), key, CachedClient(address, client));
      c := Some(client);
    }

    /** The cache already holds this address for the key. */
    predicate Reuses(key: ObjectKey, address: string)
      reads this
    {
      key in kclients && kclients[key].address == address
    }

    /** clientFor: reuses the connection while the address is unchanged, and never holds two for one key. */
    method ClientFor(key: ObjectKey, address: string, dials: bool) returns (c: Option<Client>)
      requires Valid()
      modifies this, dialled
      ensures Valid() && old(dialled) <= dialled && fresh(dialled - old(dialled))
      ensures calls == old(calls) + [Call.ClientFor(key, address, dials)]
      ensures kclients - {key} == old(kclients) - {key}
      ensures c == if key in kclients then Some(kclients[key].client) else None
      ensures old(Reuses(key, address)) ==> kclients == old(kclients) && dialled == old(dialled)
      ensures !old(Reuses(key, address)) ==> c.Some? == dials && dialled == old(dialled) + if dials then {c.value} else {}
    {
      AddressesAfter(calls, Call.ClientFor(key, address, dials));
      HeldByCache(kclients, key);
      calls := calls + [Call.ClientFor(key, address, dials)];
      if key in kclients && kclients[key].address == address {
        return Some(kclients[key].client);
      }
      c := Redial(key, address, dials);
    }

    /** closeClientFor. */
    method CloseClientFor(key: ObjectKey)
      requires Valid()
      modifies this, dialled
      ensures Valid() && dialled == old(dialled) && kclients == old(kclients) - {key}
      ensures calls == old(calls) + [Call.CloseClientFor(key)]
    {
      AddressesAfter(calls, Call.CloseClientFor(key));
      HeldAfterDrop(kclients, key);
      Release(key);
      calls := calls + [Call.CloseClientFor(key)];
    }
  }

  /**
   * Any sequence of calls, with dial failures, leaves every connection accounted for, and the cache
   * holds for each key exactly what the calls dialled last and did not give up.
   */
  method Serve(requests: seq<Call>) returns (r: K8sGPTReconciler)
    ensures fresh(r) && fresh(r.dialled) && r.Valid() && r.calls == requests
    ensures |r.Open()| == |r.kclients.Keys|
    ensures forall k, a :: HoldsLastDialled(r.kclients, requests, k, a)
  {
    r := new K8sGPTReconciler();
    for n := 0 to |requests|
      invariant fresh(r) && fresh(r.dialled) && r.Valid() && r.calls == requests[..n]
    {
      assert requests[..n + 1] == requests[..n] + [requests[n]];
      match requests[n] {
        case ClientFor(key, address, dials) =>
          var c := r.ClientFor(key, address, dials);
        case CloseClientFor(key) =>
          r.CloseClientFor(key);
      }
    }
    assert requests[..|requests|] == requests;
    r.OpenIsCached();
    forall k, a ensures HoldsLastDialled(r.kclients, requests, k, a) {
      CacheHoldsLastDialled(r.kclients, requests, k, a);
    }
  }
}
