/** The worker's only durable state, the browser's cache storage, as a value:
    an ordered sequence of named caches (creation order, which is the order
    `caches.keys()` and `caches.match` use), each mapping keys to responses. */
module Storage {
  import opened Http

  datatype Cache = Cache(name: string, entries: map<Key, Response>)

  type Caches = seq<Cache>

  /** `caches.keys()`: the cache names in order. */
  function Names(cs: Caches): (r: seq<string>)
    ensures |r| == |cs|
    ensures forall i :: 0 <= i < |cs| ==> r[i] == cs[i].name
  {
    if cs == [] then [] else [cs[0].name] + Names(cs[1..])
  }

  /** No two caches share a name. */
  predicate DistinctNames(cs: Caches)
  {
    forall i, j :: 0 <= i < j < |cs| ==> cs[i].name != cs[j].name
  }

  /** The first index at which `name` occurs in `names`. */
  function Position(names: seq<string>, name: string): (r: Option<nat>)
    ensures r.Some? ==> r.value < |names| && names[r.value] == name
    ensures r.Some? ==> forall j :: 0 <= j < r.value ==> names[j] != name
    ensures r.None? <==> name !in names
  {
    if names == [] then None
    else if names[0] == name then Some(0)
    else match Position(names[1..], name)
      case None => None
      case Some(k) => Some(k + 1)
  }

  /** The index of the cache called `name`. */
  function Find(cs: Caches, name: string): Option<nat>
  {
    Position(Names(cs), name)
  }

  /** `cache.match(key)` on the cache called `name` (nothing when there is no
      such cache). A hit is that cache's entry; with distinct names, a miss
      means the cache called `name` does not hold `key`. */
  function Lookup(cs: Caches, name: string, key: Key): (r: Option<Response>)
    ensures r.Some? ==> MatchAll(cs, key).Some?
  {
    match Find(cs, name)
    case None => None
    case Some(i) => if key in cs[i].entries then Some(cs[i].entries[key]) else None
  }

  /** `caches.match(key)`: the entry of the first cache, in order, that holds
      `key`. */
  function MatchAll(cs: Caches, key: Key): (r: Option<Response>)
    ensures r.None? <==> forall i :: 0 <= i < |cs| ==> key !in cs[i].entries
    ensures r.Some? ==> exists i :: 0 <= i < |cs| && key in cs[i].entries && r.value == cs[i].entries[key]
                                   && forall j :: 0 <= j < i ==> key !in cs[j].entries
  {
    if cs == [] then None
    else if key in cs[0].entries then Some(cs[0].entries[key])
    else
      var r := MatchAll(cs[1..], key);
      assert forall i :: 1 <= i < |cs| ==> cs[1..][i - 1] == cs[i];
      r
  }

  /** A cache appended last, with no entries, changes no global match. */
  lemma {:induction false} MatchAllSkipsEmptyTail(cs: Caches, name: string, key: Key)
    ensures MatchAll(cs + [Cache(name, map[])], key) == MatchAll(cs, key)
  {
    if cs != [] {
      assert (cs + [Cache(name, map[])])[1..] == cs[1..] + [Cache(name, map[])];
      MatchAllSkipsEmptyTail(cs[1..], name, key);
    }
  }

  lemma {:induction false} PositionAppend(names: seq<string>, x: string, name: string)
    ensures Position(names + [x], name) ==
      if name in names then Position(names, name) else if name == x then Some(|names|) else None
  {
    if names != [] {
      assert (names + [x])[1..] == names[1..] + [x];
      PositionAppend(names[1..], x, name);
    }
  }

  /** `caches.open(name)`: creates the cache, empty and last, when it does not
      exist yet. */
  function Opened(cs: Caches, name: string): (r: Caches)
    ensures Find(r, name).Some?
    ensures Find(cs, name).Some? ==> r == cs
    ensures |cs| <= |r| <= |cs| + 1 && r[..|cs|] == cs
    ensures DistinctNames(cs) ==> DistinctNames(r)
    ensures forall n, k :: Lookup(r, n, k) == Lookup(cs, n, k)
    ensures forall k :: MatchAll(r, k) == MatchAll(cs, k)
  {
    if name in Names(cs) then cs
    else
      var r := cs + [Cache(name, map[])];
      assert Names(r) == Names(cs) + [name];
      forall n ensures Find(r, n) == if n in Names(cs) then Find(cs, n) else if n == name then Some(|cs|) else None {
        PositionAppend(Names(cs), name, n);
      }
      forall k ensures MatchAll(r, k) == MatchAll(cs, k) {
        MatchAllSkipsEmptyTail(cs, name, k);
      }
      r
  }

  /** `cache.put(key, response)` on the cache called `name`: that one entry is
      set, every other lookup is unchanged, and the names stay as they were. */
  function PutIn(cs: Caches, name: string, key: Key, resp: Response): (r: Caches)
    ensures Names(r) == Names(cs)
    ensures forall n, k :: Lookup(r, n, k) ==
                           (if n == name && k == key && Find(cs, name).Some? then Some(resp) else Lookup(cs, n, k))
  {
    match Find(cs, name)
    case None => cs
    case Some(i) =>
      var r := cs[i := Cache(name, cs[i].entries[key := resp])];
      assert Names(r) == Names(cs);
      r
  }

  /** After a put into a named cache, a global match for a key no cache held
      finds the stored response. */
  lemma PutThenMatch(cs: Caches, name: string, key: Key, resp: Response)
    requires Find(cs, name).Some?
    requires MatchAll(cs, key).None?
    ensures MatchAll(PutIn(cs, name, key, resp), key) == Some(resp)
  {
    var i := Find(cs, name).value;
    var r := cs[i := Cache(name, cs[i].entries[key := resp])];
    assert PutIn(cs, name, key, resp) == r;
    assert key in r[i].entries;
    assert forall j :: 0 <= j < |r| && j != i ==> r[j] == cs[j];
  }

  /** `caches.delete` of every name in `gone`: the caches whose names are not
      listed, in their original order. Because the kept caches keep their
      order, a global match for a key that no deleted cache held finds what it
      found before. */
  function Without(cs: Caches, gone: seq<string>): (r: Caches)
    ensures forall c :: c in r <==> c in cs && c.name !in gone
    ensures DistinctNames(cs) ==> DistinctNames(r)
    ensures |r| <= |cs|
  {
    if cs == [] then []
    else
      var rest := Without(cs[1..], gone);
      if cs[0].name in gone then rest
      else
        assert DistinctNames(cs) ==> forall c :: c in rest ==> c.name != cs[0].name;
        [cs[0]] + rest
  }

  /** Deletion keeps the remaining caches in their order: a global match for
      a key that no deleted cache held finds what it found before. */
  lemma {:induction false} WithoutKeepsMatch(cs: Caches, gone: seq<string>, key: Key)
    requires forall i :: 0 <= i < |cs| && cs[i].name in gone ==> key !in cs[i].entries
    ensures MatchAll(Without(cs, gone), key) == MatchAll(cs, key)
  {
    if cs != [] {
      assert forall i :: 1 <= i < |cs| ==> cs[1..][i - 1] == cs[i];
      WithoutKeepsMatch(cs[1..], gone, key);
      var rest := Without(cs[1..], gone);
      if cs[0].name !in gone {
        assert Without(cs, gone) == [cs[0]] + rest;
        assert ([cs[0]] + rest)[1..] == rest;
      }
    }
  }

  /** Deleting no names keeps every cache. */
  lemma {:induction false} WithoutNothing(cs: Caches)
    ensures Without(cs, []) == cs
  {
    if cs != [] {
      WithoutNothing(cs[1..]);
    }
  }

  /** Deleting one more name after a batch of deletions is the same as
      deleting the longer batch. */
  lemma {:induction false} WithoutOneMore(cs: Caches, gone: seq<string>, name: string)
    ensures Without(Without(cs, gone), [name]) == Without(cs, gone + [name])
  {
    if cs != [] {
      WithoutOneMore(cs[1..], gone, name);
    }
  }

  // ---------------------------------------------------------------------------
  // Install: `cache.addAll(keys)` once every fetch has succeeded

  /** Every key's fetch resolved with an ok response. */
  predicate AllFetched(net: Key -> FetchOutcome, keys: seq<Key>)
  {
    forall k :: k in keys ==> net(k).Some? && net(k).value.Ok()
  }

  /** The responses of `keys` put, in order, into the cache called `name`.
      Each listed key ends up holding its fetched response; nothing else moves. */
  function StoreAll(cs: Caches, name: string, keys: seq<Key>, net: Key -> FetchOutcome): (r: Caches)
    requires AllFetched(net, keys)
    ensures Names(r) == Names(cs)
    ensures forall n, k :: Lookup(r, n, k) ==
                           (if n == name && k in keys && Find(cs, name).Some? then net(k) else Lookup(cs, n, k))
    decreases |keys|
  {
    if keys == [] then cs
    else
      var last := keys[|keys| - 1];
      var init := keys[..|keys| - 1];
      assert keys == init + [last];
      PutIn(StoreAll(cs, name, init, net), name, last, net(last).value)
  }

  /** Storing one more key of a list extends the stores of the keys before it. */
  lemma StoreAllStep(cs: Caches, name: string, keys: seq<Key>, i: nat, net: Key -> FetchOutcome)
    requires i < |keys| && AllFetched(net, keys)
    ensures AllFetched(net, keys[..i]) && AllFetched(net, keys[..i + 1])
    ensures StoreAll(cs, name, keys[..i + 1], net) ==
            PutIn(StoreAll(cs, name, keys[..i], net), name, keys[i], net(keys[i]).value)
  {
    assert keys[..i + 1][..i] == keys[..i];
  }
}
