/** The certificate resolver of rustls-server-sni/src/util/test.rs: a map from
    server name to certified key, consulted with the server name of a client
    hello. The certified key is the type parameter `K`. */
module Sni {
  import opened Wrappers

  /** The one part of a `ClientHello` the resolver reads. */
  datatype ClientHello = ClientHello(serverName: Option<string>)

  /** The map built by `add` calls in order: a later call for a name replaces
      the earlier one. */
  function Replay<K>(added: seq<(string, K)>): map<string, K>
    decreases |added|
  {
    if added == [] then map[]
    else var last := added[|added| - 1]; Replay(added[..|added| - 1])[last.0 := last.1]
  }

  /** The key most recently added under exactly `name`. */
  function LastAdded<K>(added: seq<(string, K)>, name: string): Option<K>
    decreases |added|
  {
    if added == [] then None
    else if added[|added| - 1].0 == name then Some(added[|added| - 1].1)
    else LastAdded(added[..|added| - 1], name)
  }

  lemma {:induction false} ReplayIsLastAdded<K>(added: seq<(string, K)>, name: string)
    ensures name in Replay(added) <==> LastAdded(added, name).Some?
    ensures name in Replay(added) ==> Replay(added)[name] == LastAdded(added, name).value
    decreases |added|
  {
    if added != [] {
      ReplayIsLastAdded(added[..|added| - 1], name);
    }
  }

  class ResolvesServerCertUsingSni<K> {
    var entries: map<string, K>
    /** Every `add` call so far, in order. */
    ghost var added: seq<(string, K)>

    ghost predicate Valid()
      reads this
    {
      entries == Replay(added)
    }

    /** `ResolvesServerCertUsingSNI::new`: an empty map. */
    constructor ()
      ensures Valid() && entries == map[] && added == []
    {
      entries := map[];
      added := [];
    }

    /** `add`: inserts or replaces the key for `name`; always `Ok(())`. */
    method Add(name: string, ck: K) returns (r: Result<(), string>)
      requires Valid()
      modifies this
      ensures Valid()
      ensures r == Ok(())
      ensures entries == old(entries)[name := ck]
      ensures added == old(added) + [(name, ck)]
    {
      added := added + [(name, ck)];
      assert added[..|added| - 1] == old(added);
      entries := entries[name := ck];
      r := Ok(());
    }

    /** `resolve`: nothing without a server name; otherwise the key most
        recently added under exactly that name, if any. It reads the map and
        changes nothing. */
    function Resolve(hello: ClientHello): (r: Option<K>)
      requires Valid()
      reads this
      ensures hello.serverName.None? ==> r == None
      ensures hello.serverName.Some? ==> r == LastAdded(added, hello.serverName.value)
    {
      match hello.serverName
      case None => None
      case Some(name) =>
        ReplayIsLastAdded(added, name);
        if name in entries then Some(entries[name]) else None
    }
  }

  /** After `add(n, k)`, resolving `n` gives `k` and every other name resolves as before. */
  method AddThenResolve<K>(r: ResolvesServerCertUsingSni<K>, n: string, k: K, other: string)
    returns (got: Option<K>, before: Option<K>, after: Option<K>)
    requires r.Valid() && other != n
    modifies r
    ensures got == Some(k) && before == after
  {
    before := r.Resolve(ClientHello(Some(other)));
    var _ := r.Add(n, k);
    got := r.Resolve(ClientHello(Some(n)));
    after := r.Resolve(ClientHello(Some(other)));
  }
}
