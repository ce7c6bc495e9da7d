/**
 * The browser's cache storage as the service worker sees it: named buckets, each a map from
 * request URL to a stored response. Bucket names are kept in creation order, because
 * `caches.match` (section 5.5 of the W3C Service Workers specification) searches the buckets
 * in that order and answers from the first one that holds the URL.
 *
 * The pure functions on `Storage` are the specification; the class `Caches` is the mutable
 * store the handlers update in place, each of its methods tied to one of those functions.
 */
module CacheStorage {
  import opened Wrappers

  type Url = string

  /** A response: HTTP status, Content-Type header and body text. */
  datatype Response = Response(status: int, contentType: string, body: string)

  type Bucket = map<Url, Response>

  /** The network during one step: what `fetch(url)` resolves with, or None when it rejects. */
  type Network = Url -> Option<Response>

  /** Bucket names in creation order, and the buckets themselves. */
  datatype Storage = Storage(names: seq<string>, buckets: map<string, Bucket>)

  const Empty: Storage := Storage([], map[])

  predicate Distinct(ns: seq<string>)
  {
    forall i, j :: 0 <= i < j < |ns| ==> ns[i] != ns[j]
  }

  /** Every bucket is listed exactly once in the creation order. */
  predicate WellFormed(s: Storage)
  {
    && Distinct(s.names)
    && (forall n :: n in s.names ==> n in s.buckets)
    && (forall n :: n in s.buckets ==> n in s.names)
  }

  // ---------------------------------------------------------------------------------------
  // Lookup across all buckets

  /** The bucket at position i of the order holds url. */
  predicate HoldsAt(names: seq<string>, buckets: map<string, Bucket>, url: Url, i: int)
  {
    0 <= i < |names| && names[i] in buckets && url in buckets[names[i]]
  }

  function LookupIn(names: seq<string>, buckets: map<string, Bucket>, url: Url): Option<Response>
  {
    if names == [] then None
    else if names[0] in buckets && url in buckets[names[0]] then Some(buckets[names[0]][url])
    else LookupIn(names[1..], buckets, url)
  }

  /** `caches.match(url)`: the entry of the first bucket, in creation order, that holds url. */
  function Lookup(s: Storage, url: Url): Option<Response>
  {
    LookupIn(s.names, s.buckets, url)
  }

  /** Lookup answers from the first bucket in the order that holds the URL. */
  lemma {:induction false} LookupInFirst(names: seq<string>, buckets: map<string, Bucket>, url: Url, i: int)
    requires HoldsAt(names, buckets, url, i)
    requires forall j :: 0 <= j < i ==> !HoldsAt(names, buckets, url, j)
    ensures LookupIn(names, buckets, url) == Some(buckets[names[i]][url])
  {
    if i > 0 {
      assert !HoldsAt(names, buckets, url, 0);
      forall j | 0 <= j < i - 1 ensures !HoldsAt(names[1..], buckets, url, j) {
        assert !HoldsAt(names, buckets, url, j + 1);
      }
      LookupInFirst(names[1..], buckets, url, i - 1);
    }
  }

  /** Lookup misses exactly when no bucket in the order holds the URL. */
  lemma {:induction false} LookupInMiss(names: seq<string>, buckets: map<string, Bucket>, url: Url)
    ensures LookupIn(names, buckets, url).None? <==> forall i :: !HoldsAt(names, buckets, url, i)
  {
    if names != [] {
      LookupInMiss(names[1..], buckets, url);
      if LookupIn(names, buckets, url).None? {
        forall i ensures !HoldsAt(names, buckets, url, i) {
          if 0 < i { assert !HoldsAt(names[1..], buckets, url, i - 1); }
        }
      } else if !HoldsAt(names, buckets, url, 0) {
        var k :| HoldsAt(names[1..], buckets, url, k);
        assert HoldsAt(names, buckets, url, k + 1);
      }
    }
  }

  /** What lookup returns is stored in some bucket under that URL. */
  lemma {:induction false} LookupInSound(names: seq<string>, buckets: map<string, Bucket>, url: Url)
    requires LookupIn(names, buckets, url).Some?
    ensures exists n :: n in buckets && url in buckets[n] && buckets[n][url] == LookupIn(names, buckets, url).value
  {
    if !(names[0] in buckets && url in buckets[names[0]]) {
      LookupInSound(names[1..], buckets, url);
    }
  }

  /** On a well-formed store, lookup misses exactly when no bucket at all holds the URL. */
  lemma {:induction false} LookupMiss(s: Storage, url: Url)
    requires WellFormed(s)
    ensures Lookup(s, url).None? <==> forall n :: n in s.buckets ==> url !in s.buckets[n]
  {
    LookupInMiss(s.names, s.buckets, url);
    if Lookup(s, url).None? {
      forall n | n in s.buckets ensures url !in s.buckets[n] {
        var i :| 0 <= i < |s.names| && s.names[i] == n;
        assert !HoldsAt(s.names, s.buckets, url, i);
      }
    }
  }

  /** When only one bucket holds the URL, lookup returns that bucket's entry. */
  lemma {:induction false} LookupOnlyHolder(s: Storage, url: Url, n: string)
    requires WellFormed(s)
    requires n in s.buckets && url in s.buckets[n]
    requires forall m :: m in s.buckets && m != n ==> url !in s.buckets[m]
    ensures Lookup(s, url) == Some(s.buckets[n][url])
  {
    var i :| 0 <= i < |s.names| && s.names[i] == n;
    forall j | 0 <= j < i ensures !HoldsAt(s.names, s.buckets, url, j) {
      assert s.names[j] != n;
    }
    LookupInFirst(s.names, s.buckets, url, i);
  }

  // ---------------------------------------------------------------------------------------
  // Removing a name from the order

  /** ns with every occurrence of x taken out. */
  function Without(ns: seq<string>, x: string): seq<string>
  {
    if ns == [] then []
    else (if ns[0] == x then [] else [ns[0]]) + Without(ns[1..], x)
  }

  lemma {:induction false} WithoutMembers(ns: seq<string>, x: string)
    ensures forall n :: n in Without(ns, x) <==> n in ns && n != x
  {
    if ns != [] {
      WithoutMembers(ns[1..], x);
      assert ns == [ns[0]] + ns[1..];
    }
  }

  lemma {:induction false} WithoutAbsent(ns: seq<string>, x: string)
    requires x !in ns
    ensures Without(ns, x) == ns
  {
    if ns != [] {
      WithoutAbsent(ns[1..], x);
      assert ns == [ns[0]] + ns[1..];
    }
  }

  lemma {:induction false} WithoutConcat(a: seq<string>, b: seq<string>, x: string)
    ensures Without(a + b, x) == Without(a, x) + Without(b, x)
  {
    if a != [] {
      assert (a + b)[1..] == a[1..] + b;
      WithoutConcat(a[1..], b, x);
    } else {
      assert a + b == b;
    }
  }

  lemma {:induction false} WithoutDistinct(ns: seq<string>, x: string)
    requires Distinct(ns)
    ensures Distinct(Without(ns, x))
  {
    if ns != [] {
      WithoutDistinct(ns[1..], x);
      WithoutMembers(ns[1..], x);
      var rest := Without(ns[1..], x);
      assert ns[0] !in ns[1..];
      assert ns[0] !in rest;
    }
  }

  /** Deleting a name that occurs once, between prefix and rest, leaves prefix + rest. */
  lemma {:induction false} DropOne(prefix: seq<string>, name: string, rest: seq<string>)
    requires name !in prefix && name !in rest
    ensures Without(prefix + [name] + rest, name) == prefix + rest
  {
    WithoutConcat(prefix + [name], rest, name);
    WithoutConcat(prefix, [name], name);
    WithoutAbsent(prefix, name);
    WithoutAbsent(rest, name);
    assert Without([name], name) == [];
  }

  // ---------------------------------------------------------------------------------------
  // The operations on a store

  /** `caches.open(name)`: the named bucket exists afterwards; nothing stored changes. */
  function Opened(s: Storage, name: string): (r: Storage)
    requires WellFormed(s)
    ensures WellFormed(r) && name in r.buckets
    ensures r.buckets.Keys == s.buckets.Keys + {name}
    ensures forall n :: n in s.buckets ==> r.buckets[n] == s.buckets[n]
    ensures name !in s.buckets ==> r.buckets[name] == map[]
  {
    if name in s.buckets then s else Storage(s.names + [name], s.buckets[name := map[]])
  }

  /** Opening a bucket never changes what a lookup finds. */
  lemma {:induction false} OpenedLookup(s: Storage, name: string, url: Url)
    requires WellFormed(s)
    ensures Lookup(Opened(s, name), url) == Lookup(s, url)
  {
    var r := Opened(s, name);
    LookupMiss(s, url);
    LookupMiss(r, url);
    if Lookup(s, url).Some? {
      LookupInSound(s.names, s.buckets, url);
      LookupInMiss(s.names, s.buckets, url);
      var i :| HoldsAt(s.names, s.buckets, url, i) && forall j :: 0 <= j < i ==> !HoldsAt(s.names, s.buckets, url, j)
        by { FirstHolder(s.names, s.buckets, url); }
      assert HoldsAt(r.names, r.buckets, url, i);
      forall j | 0 <= j < i ensures !HoldsAt(r.names, r.buckets, url, j) {
        assert !HoldsAt(s.names, s.buckets, url, j);
      }
      LookupInFirst(s.names, s.buckets, url, i);
      LookupInFirst(r.names, r.buckets, url, i);
    }
  }

  /** If some position holds the URL, there is a first such position. */
  lemma {:induction false} FirstHolder(names: seq<string>, buckets: map<string, Bucket>, url: Url)
    requires exists i :: HoldsAt(names, buckets, url, i)
    ensures exists i :: HoldsAt(names, buckets, url, i) && forall j :: 0 <= j < i ==> !HoldsAt(names, buckets, url, j)
  {
    if HoldsAt(names, buckets, url, 0) {
      assert forall j :: 0 <= j < 0 ==> !HoldsAt(names, buckets, url, j);
    } else {
      var k :| HoldsAt(names, buckets, url, k);
      assert HoldsAt(names[1..], buckets, url, k - 1);
      FirstHolder(names[1..], buckets, url);
      var i :| HoldsAt(names[1..], buckets, url, i) && forall j :: 0 <= j < i ==> !HoldsAt(names[1..], buckets, url, j);
      assert HoldsAt(names, buckets, url, i + 1);
      forall j | 0 <= j < i + 1 ensures !HoldsAt(names, buckets, url, j) {
        if j > 0 { assert !HoldsAt(names[1..], buckets, url, j - 1); }
      }
    }
  }

  /** `cache.put(url, response)` on an opened bucket: that one entry is replaced or added. */
  function PutEntry(s: Storage, name: string, url: Url, resp: Response): (r: Storage)
    requires WellFormed(s) && name in s.buckets
    ensures WellFormed(r) && r.names == s.names && r.buckets.Keys == s.buckets.Keys
    ensures forall n :: n in s.buckets && n != name ==> r.buckets[n] == s.buckets[n]
    ensures r.buckets[name].Keys == s.buckets[name].Keys + {url} && r.buckets[name][url] == resp
    ensures forall u :: u in s.buckets[name] && u != url ==> r.buckets[name][u] == s.buckets[name][u]
  {
    Storage(s.names, s.buckets[name := s.buckets[name][url := resp]])
  }

  /** `caches.delete(name)`: that bucket and its place in the order are gone; the rest stays. */
  function Deleted(s: Storage, name: string): (r: Storage)
    requires WellFormed(s)
    ensures WellFormed(r) && name !in r.buckets
    ensures r.buckets.Keys == s.buckets.Keys - {name}
    ensures forall n :: n in r.buckets ==> r.buckets[n] == s.buckets[n]
  {
    WithoutDistinct(s.names, name);
    WithoutMembers(s.names, name);
    Storage(Without(s.names, name), s.buckets - {name})
  }

  /**
   * A response `cache.addAll` accepts: an ok status (200-299) that is not 206 Partial Content
   * (section 5.4 of the W3C Service Workers specification).
   */
  predicate Storable(r: Response)
  {
    200 <= r.status <= 299 && r.status != 206
  }

  /** Every url fetches successfully with a storable response. */
  predicate AllStorable(urls: seq<Url>, net: Network)
  {
    forall i :: 0 <= i < |urls| ==> net(urls[i]).Some? && Storable(net(urls[i]).value)
  }

  /** The batch `cache.addAll(urls)` writes, or None when it rejects (all or nothing). */
  function FetchAll(urls: seq<Url>, net: Network): (r: Option<Bucket>)
    ensures r.Some? <==> AllStorable(urls, net)
    ensures r.Some? ==> r.value.Keys == set u | u in urls
    ensures r.Some? ==> forall u :: u in r.value ==> net(u) == Some(r.value[u])
  {
    if urls == [] then Some(map[])
    else match net(urls[0])
      case None => None
      case Some(resp) =>
        if !Storable(resp) then None
        else match FetchAll(urls[1..], net)
          case None => None
          case Some(rest) =>
            assert forall i :: 1 <= i < |urls| ==> urls[i] == urls[1..][i - 1];
            Some(rest[urls[0] := resp])
  }

  /** `cache.addAll(urls)` on an opened bucket: every entry of the batch, or no change at all. */
  function AddBatch(s: Storage, name: string, urls: seq<Url>, net: Network): (r: Storage)
    requires WellFormed(s) && name in s.buckets
    ensures WellFormed(r) && r.names == s.names && r.buckets.Keys == s.buckets.Keys
    ensures forall n :: n in s.buckets && n != name ==> r.buckets[n] == s.buckets[n]
    ensures !AllStorable(urls, net) ==> r == s
    ensures AllStorable(urls, net) ==> forall u :: u in urls ==> u in r.buckets[name] && net(u) == Some(r.buckets[name][u])
    ensures forall u :: u in s.buckets[name] && u !in urls ==> u in r.buckets[name] && r.buckets[name][u] == s.buckets[name][u]
    ensures forall u :: u in r.buckets[name] ==> u in s.buckets[name] || u in urls
  {
    match FetchAll(urls, net)
      case None => s
      case Some(batch) => Storage(s.names, s.buckets[name := s.buckets[name] + batch])
  }

  /** Adding the same batch a second time changes nothing. */
  lemma {:induction false} AddBatchIdempotent(s: Storage, name: string, urls: seq<Url>, net: Network)
    requires WellFormed(s) && name in s.buckets
    ensures AddBatch(AddBatch(s, name, urls, net), name, urls, net) == AddBatch(s, name, urls, net)
  {
    match FetchAll(urls, net) {
      case None =>
      case Some(batch) =>
        var s1 := AddBatch(s, name, urls, net);
        assert s1.buckets[name] + batch == s1.buckets[name];
    }
  }

  // ---------------------------------------------------------------------------------------
  // The mutable store

  class Caches {
    var names: seq<string>
    var buckets: map<string, Bucket>

    function State(): Storage
      reads this
    {
      Storage(names, buckets)
    }

    predicate Valid()
      reads this
    {
      WellFormed(State())
    }

    constructor ()
      ensures Valid() && State() == Empty
    {
      names, buckets := [], map[];
    }

    /** `caches.match(url)`: visits the buckets in creation order. */
    method Match(url: Url) returns (r: Option<Response>)
      ensures r == Lookup(State(), url)
    {
      var i := 0;
      while i < |names|
        invariant 0 <= i <= |names|
        invariant LookupIn(names, buckets, url) == LookupIn(names[i..], buckets, url)
      {
        assert names[i..][1..] == names[i + 1..];
        var name := names[i];
        if name in buckets && url in buckets[name] {
          return Some(buckets[name][url]);
        }
        i := i + 1;
      }
      return None;
    }

    method Open(name: string)
      requires Valid()
      modifies this
      ensures Valid() && State() == Opened(old(State()), name)
    {
      if name !in buckets {
        names, buckets := names + [name], buckets[name := map[]];
      }
    }

    method Put(name: string, url: Url, resp: Response)
      requires Valid() && name in buckets
      modifies this
      ensures Valid() && State() == PutEntry(old(State()), name, url, resp)
    {
      buckets := buckets[name := buckets[name][url := resp]];
    }

    /** `caches.delete(name)`: answers whether the bucket existed. */
    method Delete(name: string) returns (existed: bool)
      requires Valid()
      modifies this
      ensures Valid() && State() == Deleted(old(State()), name)
      ensures existed <==> name in old(buckets)
    {
      existed := name in buckets;
      WithoutDistinct(names, name);
      WithoutMembers(names, name);
      names, buckets := Without(names, name), buckets - {name};
    }

    /** `cache.addAll(urls)` on the opened bucket `name`: answers whether it resolved. */
    method AddAll(name: string, urls: seq<Url>, net: Network) returns (ok: bool)
      requires Valid() && name in buckets
      modifies this
      ensures Valid() && State() == AddBatch(old(State()), name, urls, net)
      ensures ok <==> AllStorable(urls, net)
    {
      var batch := FetchAll(urls, net);
      ok := batch.Some?;
      if ok {
        buckets := buckets[name := buckets[name] + batch.value];
      }
    }
  }
}
