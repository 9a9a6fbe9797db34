/** The bodies of the `setActivity` and `clearActivity` handlers, each taken as one
    atomic step over the shared registry, and what a run of such steps sends to
    the platform. */
module Dispatcher {
  import opened Types
  import opened Client
  import opened ClientManager

  /** No identity occurs twice. */
  predicate Distinct(ids: seq<Id>)
  {
    forall i, j :: 0 <= i < j < |ids| ==> ids[i] != ids[j]
  }

  /** The registry's identities after a `setActivity` for `id`: a new client is
      appended only when none has that identity. */
  function Registered(ids: seq<Id>, id: Id): seq<Id>
  {
    if id in ids then ids else ids + [id]
  }

  /** The platform calls of one `setActivity` for `p` when `ids` are registered:
      a clear when hidden and the client exists, a connect when it does not, and
      the set of the translated activity in every case. */
  function SetActivityCalls(ids: seq<Id>, p: Presence): seq<Call>
  {
    var id := p.clientId;
    (if p.hidden == Some(true) && id in ids then [Clear(id)] else [])
    + (if id in ids then [] else [Connect(id)])
    + [Set(id, Translate(p.presenceData))]
  }

  /** An inbound event that reaches the registry. `ready` is the user the platform
      would report if this event has to connect a new client. */
  datatype Event =
    | SetActivity(p: Presence, ready: DiscordUser)
    | ClearActivity

  function StepIds(ids: seq<Id>, e: Event): seq<Id>
  {
    match e
    case SetActivity(p, _) => Registered(ids, p.clientId)
    case ClearActivity => ids
  }

  function StepCalls(ids: seq<Id>, e: Event): seq<Call>
  {
    match e
    case SetActivity(p, _) => SetActivityCalls(ids, p)
    case ClearActivity => ClearEach(ids)
  }

  /** The registry's identities after handling `es` in order. */
  function RunIds(ids: seq<Id>, es: seq<Event>): seq<Id>
    decreases |es|
  {
    if es == [] then ids else RunIds(StepIds(ids, es[0]), es[1..])
  }

  /** The platform calls made while handling `es` in order. */
  function RunCalls(ids: seq<Id>, es: seq<Event>): seq<Call>
    decreases |es|
  {
    if es == [] then [] else StepCalls(ids, es[0]) + RunCalls(StepIds(ids, es[0]), es[1..])
  }

  /** The identities connected by `calls`, in order. */
  function Connected(calls: seq<Call>): seq<Id>
  {
    if calls == [] then []
    else (if calls[0].Connect? then [calls[0].id] else []) + Connected(calls[1..])
  }

  /** The number of `Set` calls in `calls`. */
  function CountSets(calls: seq<Call>): nat
  {
    if calls == [] then 0 else (if calls[0].Set? then 1 else 0) + CountSets(calls[1..])
  }

  /** The number of `setActivity` events in `es`. */
  function CountSetEvents(es: seq<Event>): nat
  {
    if es == [] then 0 else (if es[0].SetActivity? then 1 else 0) + CountSetEvents(es[1..])
  }

  // ---- the handlers ----

  /** The `setActivity` handler body. */
  method OnSetActivity(m: RpcClientManager, p: Presence, ready: DiscordUser)
    requires m.Valid()
    modifies m, m.platform
    ensures m.Valid()
    ensures m.Ids() == Registered(old(m.Ids()), p.clientId)
    ensures old(m.clients) <= m.clients
    ensures p.clientId in old(m.Ids()) ==> m.clients == old(m.clients)
    ensures p.clientId !in old(m.Ids()) ==>
              && |m.clients| == |old(m.clients)| + 1
              && fresh(m.clients[|m.clients| - 1])
              && m.clients[|m.clients| - 1].user == ready
    ensures m.platform.calls == old(m.platform.calls) + SetActivityCalls(old(m.Ids()), p)
  {
    if p.hidden == Some(true) {
      var existing := m.GetClientMut(p.clientId);
      if existing.Some? {
        existing.value.ClearActivity();
      }
    }
    var found := m.GetClientMut(p.clientId);
    if found.Some? {
      found.value.SetActivity(p);
    } else {
      var client := new RpcClient(p.clientId, ready, m.platform);
      client.SetActivity(p);
      m.AddClientInstance(client);
    }
  }

  /** The `clearActivity` handler body: the registry's clear-all sweep. */
  method OnClearActivity(m: RpcClientManager)
    requires m.Valid()
    modifies m.platform
    ensures m.platform.calls == old(m.platform.calls) + ClearEach(m.Ids())
  {
    m.ClearAllActivities();
  }

  /** Handles one event. */
  method Dispatch(m: RpcClientManager, e: Event)
    requires m.Valid()
    modifies m, m.platform
    ensures m.Valid()
    ensures m.Ids() == StepIds(old(m.Ids()), e)
    ensures m.platform.calls == old(m.platform.calls) + StepCalls(old(m.Ids()), e)
  {
    match e
    case SetActivity(p, ready) => OnSetActivity(m, p, ready);
    case ClearActivity => OnClearActivity(m);
  }

  /** Handles `es` one event after another, each as one atomic step: the registry
      and the platform trace follow the run functions the lemmas below are about. */
  method DispatchAll(m: RpcClientManager, es: seq<Event>)
    requires m.Valid()
    modifies m, m.platform
    ensures m.Valid()
    ensures m.Ids() == RunIds(old(m.Ids()), es)
    ensures m.platform.calls == old(m.platform.calls) + RunCalls(old(m.Ids()), es)
    decreases |es|
  {
    if es != [] {
      Dispatch(m, es[0]);
      DispatchAll(m, es[1..]);
    }
  }

  // ---- one setActivity ----

  /** With `hidden == Some(true)` and a registered client, the clear comes
      strictly before the set, and nothing connects. */
  lemma HiddenClearsBeforeSet(ids: seq<Id>, p: Presence)
    requires p.hidden == Some(true) && p.clientId in ids
    ensures SetActivityCalls(ids, p) == [Clear(p.clientId), Set(p.clientId, Translate(p.presenceData))]
  {
  }

  /** Without `hidden == Some(true)` no clear is issued. */
  lemma NotHiddenNoClear(ids: seq<Id>, p: Presence)
    requires p.hidden != Some(true)
    ensures forall c :: c in SetActivityCalls(ids, p) ==> !c.Clear?
  {
  }

  /** With `hidden == Some(true)` and no registered client: no clear, but a
      connect followed by the set. */
  lemma HiddenUnregisteredConnectsAndSets(ids: seq<Id>, p: Presence)
    requires p.hidden == Some(true) && p.clientId !in ids
    ensures SetActivityCalls(ids, p) == [Connect(p.clientId), Set(p.clientId, Translate(p.presenceData))]
  {
  }

  /** Every `setActivity` issues exactly one set, as its last call, whatever `hidden` is. */
  lemma {:induction false} OneSetPerUpdate(ids: seq<Id>, p: Presence)
    ensures CountSets(SetActivityCalls(ids, p)) == 1
    ensures SetActivityCalls(ids, p)[|SetActivityCalls(ids, p)| - 1] == Set(p.clientId, Translate(p.presenceData))
  {
    var calls := SetActivityCalls(ids, p);
    var prefix := calls[..|calls| - 1];
    assert calls == prefix + [Set(p.clientId, Translate(p.presenceData))];
    assert forall c :: c in prefix ==> !c.Set?;
    NoSetsCounted(prefix);
    CountSetsAppend(prefix, [Set(p.clientId, Translate(p.presenceData))]);
  }

  /** A registered identity connects nothing and leaves the registry as it is;
      an unregistered one connects exactly once and is registered afterwards. */
  lemma ConnectOnlyWhenUnregistered(ids: seq<Id>, p: Presence)
    ensures p.clientId in ids ==> Connected(SetActivityCalls(ids, p)) == [] && Registered(ids, p.clientId) == ids
    ensures p.clientId !in ids ==> Connected(SetActivityCalls(ids, p)) == [p.clientId]
                                   && Registered(ids, p.clientId) == ids + [p.clientId]
    ensures p.clientId in Registered(ids, p.clientId)
  {
    var id := p.clientId;
    var setCall := Set(id, Translate(p.presenceData));
    assert Connected([setCall]) == [] by {
      assert [setCall][1..] == [];
    }
    if id in ids {
      if p.hidden == Some(true) {
        assert [Clear(id), setCall][1..] == [setCall];
      }
    } else {
      assert [Connect(id), setCall][1..] == [setCall];
    }
  }

  /** The registry stays free of duplicate identities under `setActivity`. */
  lemma RegisteredKeepsDistinct(ids: seq<Id>, id: Id)
    requires Distinct(ids)
    ensures Distinct(Registered(ids, id))
  {
  }

  /** The clear-all sweep sets nothing and clears each registered identity once,
      in registry order. */
  lemma ClearAllSetsNothing(ids: seq<Id>)
    ensures CountSets(ClearEach(ids)) == 0
    ensures Connected(ClearEach(ids)) == []
  {
    NoSetsCounted(ClearEach(ids));
    NoConnects(ClearEach(ids));
  }

  // ---- runs of events ----

  /** Every identity registered during a run was connected by it, in order:
      the final registry is the initial one followed by the connected identities. */
  lemma {:induction false} RunRegistersConnected(ids: seq<Id>, es: seq<Event>)
    ensures RunIds(ids, es) == ids + Connected(RunCalls(ids, es))
    decreases |es|
  {
    if es != [] {
      var next := StepIds(ids, es[0]);
      StepRegistersConnected(ids, es[0]);
      RunRegistersConnected(next, es[1..]);
      ConnectedAcrossStep(ids, next, StepCalls(ids, es[0]), RunCalls(next, es[1..]), RunIds(next, es[1..]));
    }
  }

  /** The bookkeeping of one induction step of `RunRegistersConnected`. */
  lemma ConnectedAcrossStep(ids: seq<Id>, next: seq<Id>, stepCalls: seq<Call>, restCalls: seq<Call>, final: seq<Id>)
    requires next == ids + Connected(stepCalls)
    requires final == next + Connected(restCalls)
    ensures final == ids + Connected(stepCalls + restCalls)
  {
    ConnectedAppend(stepCalls, restCalls);
  }

  /** One event registers exactly the identities it connects. */
  lemma StepRegistersConnected(ids: seq<Id>, e: Event)
    ensures StepIds(ids, e) == ids + Connected(StepCalls(ids, e))
  {
    match e
    case SetActivity(p, _) =>
      ConnectOnlyWhenUnregistered(ids, p);
    case ClearActivity =>
      ClearAllSetsNothing(ids);
  }

  /** Handled through the dispatcher alone, the registry never holds two clients
      with one identity. */
  lemma {:induction false} RunKeepsDistinct(ids: seq<Id>, es: seq<Event>)
    requires Distinct(ids)
    ensures Distinct(RunIds(ids, es))
    decreases |es|
  {
    if es != [] {
      match es[0]
      case SetActivity(p, _) =>
        RegisteredKeepsDistinct(ids, p.clientId);
      case ClearActivity =>
    }
    if es != [] {
      RunKeepsDistinct(StepIds(ids, es[0]), es[1..]);
    }
  }

  /** Starting from registered identities `ids` with no duplicates, a run connects
      each identity at most once and never one that was registered already. */
  lemma OneConnectPerIdentity(ids: seq<Id>, es: seq<Event>)
    requires Distinct(ids)
    ensures Distinct(Connected(RunCalls(ids, es)))
    ensures forall x :: x in Connected(RunCalls(ids, es)) ==> x !in ids
  {
    RunRegistersConnected(ids, es);
    RunKeepsDistinct(ids, es);
    var cs := Connected(RunCalls(ids, es));
    var all := ids + cs;
    forall i, j | 0 <= i < j < |cs| ensures cs[i] != cs[j] {
      assert all[|ids| + i] == cs[i] && all[|ids| + j] == cs[j];
    }
    forall x | x in cs ensures x !in ids {
      var j :| 0 <= j < |cs| && cs[j] == x;
      assert all[|ids| + j] == x;
      forall i | 0 <= i < |ids| ensures ids[i] != x {
        assert all[i] == ids[i];
      }
    }
  }

  /** A run issues exactly one set per `setActivity` event. */
  lemma {:induction false} OneSetPerSetEvent(ids: seq<Id>, es: seq<Event>)
    ensures CountSets(RunCalls(ids, es)) == CountSetEvents(es)
    decreases |es|
  {
    if es != [] {
      var next := StepIds(ids, es[0]);
      OneSetPerSetEvent(next, es[1..]);
      CountSetsAppend(StepCalls(ids, es[0]), RunCalls(next, es[1..]));
      match es[0]
      case SetActivity(p, _) =>
        OneSetPerUpdate(ids, p);
      case ClearActivity =>
        ClearAllSetsNothing(ids);
    }
  }

  // ---- counting helpers ----

  lemma {:induction false} CountSetsAppend(a: seq<Call>, b: seq<Call>)
    ensures CountSets(a + b) == CountSets(a) + CountSets(b)
  {
    if a == [] {
      assert a + b == b;
    } else {
      assert (a + b)[0] == a[0];
      assert (a + b)[1..] == a[1..] + b;
      CountSetsAppend(a[1..], b);
    }
  }

  lemma {:induction false} NoSetsCounted(calls: seq<Call>)
    requires forall c :: c in calls ==> !c.Set?
    ensures CountSets(calls) == 0
  {
    if calls != [] {
      assert calls[0] in calls;
      NoSetsCounted(calls[1..]);
    }
  }

  lemma {:induction false} ConnectedAppend(a: seq<Call>, b: seq<Call>)
    ensures Connected(a + b) == Connected(a) + Connected(b)
  {
    if a == [] {
      assert a + b == b;
    } else {
      assert (a + b)[0] == a[0];
      assert (a + b)[1..] == a[1..] + b;
      ConnectedAppend(a[1..], b);
    }
  }

  lemma {:induction false} NoConnects(calls: seq<Call>)
    requires forall c :: c in calls ==> !c.Connect?
    ensures Connected(calls) == []
  {
    if calls != [] {
      assert calls[0] in calls;
      NoConnects(calls[1..]);
    }
  }
}
