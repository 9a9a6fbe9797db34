/** The client registry (`RpcClientManager`): a list of clients in insertion order,
    searched by identity from the front. Nothing in it keeps identities unique. */
module ClientManager {
  import opened Types
  import opened Client

  /** The identities of `cs`, position by position. */
  function IdsOf(cs: seq<RpcClient>): (ids: seq<Id>)
    ensures |ids| == |cs|
    ensures forall i :: 0 <= i < |cs| ==> ids[i] == cs[i].clientId
  {
    seq(|cs|, i requires 0 <= i < |cs| => cs[i].clientId)
  }

  /** The position of the first occurrence of `id` in `ids`, if there is one. */
  function FirstIndex(ids: seq<Id>, id: Id): (r: Option<nat>)
    ensures r.Some? <==> id in ids
    ensures r.Some? ==> r.value < |ids| && ids[r.value] == id
    ensures r.Some? ==> forall j :: 0 <= j < r.value ==> ids[j] != id
  {
    if ids == [] then None
    else if ids[0] == id then Some(0)
    else match FirstIndex(ids[1..], id)
      case None => None
      case Some(k) => Some(k + 1)
  }

  /** `ids` without its first occurrence of `id`, defined element by element. */
  function RemoveFirst(ids: seq<Id>, id: Id): (r: seq<Id>)
    requires id in ids
    ensures |r| == |ids| - 1
    ensures multiset(r) == multiset(ids) - multiset{id}
  {
    assert ids == [ids[0]] + ids[1..];
    if ids[0] == id then ids[1..] else [ids[0]] + RemoveFirst(ids[1..], id)
  }

  /** Removing the first occurrence is cutting out the entry at `FirstIndex`: the
      entries before and after it keep their relative order. */
  lemma {:induction false} RemoveFirstIsSplice(ids: seq<Id>, id: Id)
    requires id in ids
    ensures FirstIndex(ids, id).Some?
    ensures var k := FirstIndex(ids, id).value;
            RemoveFirst(ids, id) == ids[..k] + ids[k + 1..]
  {
    if ids[0] != id {
      var tail := ids[1..];
      FirstIndexPastHead(ids, id);
      RemoveFirstIsSplice(tail, id);
      var k := FirstIndex(tail, id).value;
      SpliceAfterHead(ids, k);
    }
  }

  /** When the head is not `id`, the first `id` lies one further than in the tail. */
  lemma FirstIndexPastHead(ids: seq<Id>, id: Id)
    requires id in ids && ids[0] != id
    ensures id in ids[1..]
    ensures FirstIndex(ids, id) == Some(FirstIndex(ids[1..], id).value + 1)
    ensures RemoveFirst(ids, id) == [ids[0]] + RemoveFirst(ids[1..], id)
  {
    assert ids == [ids[0]] + ids[1..];
  }

  lemma SpliceAfterHead(ids: seq<Id>, k: nat)
    requires k + 1 < |ids|
    ensures ids[..k + 1] + ids[k + 2..] == [ids[0]] + (ids[1..][..k] + ids[1..][k + 1..])
  {
    assert ids[..k + 1] == [ids[0]] + ids[1..][..k];
    assert ids[k + 2..] == ids[1..][k + 1..];
  }

  /** The identities of a list with one entry cut out are the identities of the
      list with that one cut out. */
  lemma IdsOfSplice(cs: seq<RpcClient>, k: nat)
    requires k < |cs|
    ensures IdsOf(cs[..k] + cs[k + 1..]) == IdsOf(cs)[..k] + IdsOf(cs)[k + 1..]
  {
    var lhs := IdsOf(cs[..k] + cs[k + 1..]);
    var rhs := IdsOf(cs)[..k] + IdsOf(cs)[k + 1..];
    assert |lhs| == |rhs|;
    forall i | 0 <= i < |lhs| ensures lhs[i] == rhs[i] {
      if i < k {
        assert (cs[..k] + cs[k + 1..])[i] == cs[i];
      } else {
        assert (cs[..k] + cs[k + 1..])[i] == cs[i + 1];
      }
    }
  }

  class RpcClientManager {
    var clients: seq<RpcClient>
    /** The platform endpoint the registered clients are connected to. */
    const platform: Platform

    ghost predicate Valid()
      reads this
    {
      forall c :: c in clients ==> c.platform == platform
    }

    function Ids(): (ids: seq<Id>)
      reads this
      ensures |ids| == |clients|
      ensures forall i :: 0 <= i < |clients| ==> ids[i] == clients[i].clientId
    {
      IdsOf(clients)
    }

    /** `RpcClientManager::new`: no client is registered. */
    constructor (platform: Platform)
      ensures Valid() && clients == [] && this.platform == platform
    {
      clients := [];
      this.platform := platform;
    }

    /** Appends `c`; every earlier entry stays where it was, and no check is made
        that its identity is new. */
    method AddClientInstance(c: RpcClient)
      requires Valid() && c.platform == platform
      modifies this
      ensures Valid()
      ensures clients == old(clients) + [c]
      ensures Ids() == old(Ids()) + [c.clientId]
    {
      clients := clients + [c];
      assert IdsOf(clients)[..|clients| - 1] == IdsOf(old(clients));
    }

    /** Connects a new client for `id` (with `ready` as the platform's ready user)
        and appends it, even when `id` is registered already. */
    method AddClient(id: Id, ready: DiscordUser)
      requires Valid()
      modifies this, platform
      ensures Valid()
      ensures |clients| == |old(clients)| + 1 && clients[..|old(clients)|] == old(clients)
      ensures fresh(clients[|clients| - 1])
      ensures clients[|clients| - 1].clientId == id && clients[|clients| - 1].user == ready
      ensures Ids() == old(Ids()) + [id]
      ensures platform.calls == old(platform.calls) + [Connect(id)]
    {
      var c := new RpcClient(id, ready, platform);
      AddClientInstance(c);
    }

    /** `iter().position(..)`: the index of the first client with identity `id`. */
    method Position(id: Id) returns (r: Option<nat>)
      ensures r.Some? <==> id in Ids()
      ensures r.Some? ==> r.value < |clients| && clients[r.value].clientId == id
      ensures r.Some? ==> forall j :: 0 <= j < r.value ==> clients[j].clientId != id
      ensures r == FirstIndex(Ids(), id)
    {
      var i := 0;
      while i < |clients|
        invariant 0 <= i <= |clients|
        invariant forall j :: 0 <= j < i ==> clients[j].clientId != id
      {
        if clients[i].clientId == id {
          FirstIndexIsUnique(Ids(), id, i);
          return Some(i);
        }
        i := i + 1;
      }
      return None;
    }

    /** Removes the first client with identity `id`; the source unwraps the search,
        so `id` must be registered. */
    method RemoveClient(id: Id)
      requires Valid() && id in Ids()
      modifies this
      ensures Valid()
      ensures FirstIndex(old(Ids()), id).Some?
      ensures var k := FirstIndex(old(Ids()), id).value;
              clients == old(clients)[..k] + old(clients)[k + 1..]
      ensures Ids() == RemoveFirst(old(Ids()), id)
    {
      var p := Position(id);
      var k := p.value;
      IdsOfSplice(clients, k);
      RemoveFirstIsSplice(Ids(), id);
      clients := clients[..k] + clients[k + 1..];
    }

    /** `iter().find(..)`: the first client with identity `id`, if any. */
    method GetClient(id: Id) returns (r: Option<RpcClient>)
      ensures r.Some? <==> id in Ids()
      ensures r.Some? ==> r.value in clients && r.value.clientId == id
      ensures FirstIndex(Ids(), id).Some? ==> r == Some(clients[FirstIndex(Ids(), id).value])
    {
      var p := Position(id);
      if p.Some? {
        r := Some(clients[p.value]);
      } else {
        r := None;
      }
    }

    /** The same search as `GetClient`; the client found is the one the caller
        goes on to use, and using it changes no entry of the list. */
    method GetClientMut(id: Id) returns (r: Option<RpcClient>)
      ensures r.Some? <==> id in Ids()
      ensures r.Some? ==> r.value in clients && r.value.clientId == id
      ensures FirstIndex(Ids(), id).Some? ==> r == Some(clients[FirstIndex(Ids(), id).value])
    {
      r := GetClient(id);
    }

    /** The stored list itself, in its stored order. */
    function GetClients(): (r: seq<RpcClient>)
      reads this
      ensures r == clients
    {
      clients
    }

    /** Clears the activity of every registered client, front to back; the list is
        left as it is. */
    method ClearAllActivities()
      requires Valid()
      modifies platform
      ensures platform.calls == old(platform.calls) + ClearEach(Ids())
    {
      var i := 0;
      while i < |clients|
        invariant 0 <= i <= |clients|
        invariant platform.calls == old(platform.calls) + ClearEach(Ids()[..i])
      {
        assert clients[i] in clients;
        clients[i].ClearActivity();
        assert Ids()[..i + 1][..i] == Ids()[..i];
        i := i + 1;
      }
      assert Ids()[..i] == Ids();
    }
  }

  /** One `Clear` per identity of `ids`, in the same order. */
  function ClearEach(ids: seq<Id>): (r: seq<Call>)
    ensures |r| == |ids|
    ensures forall k :: 0 <= k < |ids| ==> r[k] == Clear(ids[k])
  {
    seq(|ids|, k requires 0 <= k < |ids| => Clear(ids[k]))
  }

  /** `FirstIndex` is the only index that holds `id` with no earlier `id`. */
  lemma FirstIndexIsUnique(ids: seq<Id>, id: Id, k: nat)
    requires k < |ids| && ids[k] == id
    requires forall j :: 0 <= j < k ==> ids[j] != id
    ensures FirstIndex(ids, id) == Some(k)
  {
  }
}
