/** The camera's sort-strategy dispatcher: which depth sorter is active, the
    configured sorter id it was made for, and the sorter's registrations on
    the message bus that tells it about map changes. */
module SortDispatch {

  datatype Option<T> = None | Some(value: T)

  /** The three depth-sorting strategies. */
  datatype SortKind = NoSort | TopologicalSort | DepthValueSort

  /** The two bus events a sorter listens to. */
  datatype Event = MapChanged | RenderStorageChanged

  /** A sorter instance. Two sorters of the same kind are still two
      different listeners on the bus. */
  class Sorter {
    const kind: SortKind

    constructor (kind: SortKind)
      ensures this.kind == kind
    {
      this.kind := kind;
    }
  }

  /** One listener registration on the bus. The listener is null when the
      camera registers while it has no sorter. */
  type Subscription = (Sorter?, Event)

  /** The sorter kind a configured id selects; ids other than 0, 1 and 2
      select none. */
  function KindFor(id: int): (k: Option<SortKind>)
    ensures k.Some? <==> 0 <= id <= 2
    ensures id == 0 ==> k == Some(NoSort)
    ensures id == 1 ==> k == Some(TopologicalSort)
    ensures id == 2 ==> k == Some(DepthValueSort)
  {
    match id
    case 0 => Some(NoSort)
    case 1 => Some(TopologicalSort)
    case 2 => Some(DepthValueSort)
    case _ => None
  }

  /** The registrations a sorter holds once subscribed: one per event. */
  function Registrations(l: Sorter?): multiset<Subscription> {
    multiset{(l, MapChanged), (l, RenderStorageChanged)}
  }

  /** `l` is registered exactly once for each of the two events. */
  predicate SubscribedOnce(subs: multiset<Subscription>, l: Sorter?) {
    subs[(l, MapChanged)] == 1 && subs[(l, RenderStorageChanged)] == 1
  }

  /** `l` is registered for neither event. */
  predicate Unsubscribed(subs: multiset<Subscription>, l: Sorter?) {
    subs[(l, MapChanged)] == 0 && subs[(l, RenderStorageChanged)] == 0
  }

  /** The bus after removing one registration of `from` per event (removal
      takes out one occurrence, and is a no-op where there is none) and then
      registering `to` for both events. */
  function Resubscribed(subs: multiset<Subscription>, from: Sorter?, to: Sorter?): multiset<Subscription> {
    subs - Registrations(from) + Registrations(to)
  }

  /** The registration count of any listener and event after a resubscription. */
  lemma ResubscribedCount(subs: multiset<Subscription>, from: Sorter?, to: Sorter?, l: Sorter?, e: Event)
    ensures Resubscribed(subs, from, to)[(l, e)]
         == (if l == from && subs[(l, e)] > 0 then subs[(l, e)] - 1 else subs[(l, e)])
          + (if l == to then 1 else 0)
  {
    assert Registrations(from)[(l, e)] == (if l == from then 1 else 0);
    assert Registrations(to)[(l, e)] == (if l == to then 1 else 0);
  }

  /** Removing `from` for each event and then adding `to` for each, one
      registration at a time, is a resubscription. */
  lemma ResubscribedStepwise(subs: multiset<Subscription>, from: Sorter?, to: Sorter?)
    ensures subs - multiset{(from, MapChanged)} - multiset{(from, RenderStorageChanged)}
                 + multiset{(to, MapChanged)} + multiset{(to, RenderStorageChanged)}
         == Resubscribed(subs, from, to)
  {
    var stepwise := subs - multiset{(from, MapChanged)} - multiset{(from, RenderStorageChanged)}
                         + multiset{(to, MapChanged)} + multiset{(to, RenderStorageChanged)};
    forall s: Subscription
      ensures stepwise[s] == Resubscribed(subs, from, to)[s]
    {
      ResubscribedCount(subs, from, to, s.0, s.1);
    }
  }

  /** Removing `l` for each event, one registration at a time, takes out
      its registrations; a listener registered once per event is left with
      none. */
  lemma UnsubscribedStepwise(subs: multiset<Subscription>, l: Sorter?)
    ensures subs - multiset{(l, MapChanged)} - multiset{(l, RenderStorageChanged)} == subs - Registrations(l)
    ensures SubscribedOnce(subs, l) ==> Unsubscribed(subs - Registrations(l), l)
  {
    var stepwise := subs - multiset{(l, MapChanged)} - multiset{(l, RenderStorageChanged)};
    forall s: Subscription
      ensures stepwise[s] == (subs - Registrations(l))[s]
    {
      assert Registrations(l)[s]
          == (if s == (l, MapChanged) || s == (l, RenderStorageChanged) then 1 else 0);
    }
    assert Registrations(l)[(l, MapChanged)] == 1 && Registrations(l)[(l, RenderStorageChanged)] == 1;
  }

  /** Swapping sorters moves the registrations: the old sorter ends up with
      none, the new one with exactly one per event, and every other
      listener's registrations are untouched. */
  lemma SwapMovesRegistrations(subs: multiset<Subscription>, from: Sorter?, to: Sorter?)
    requires from != to
    requires SubscribedOnce(subs, from)
    requires Unsubscribed(subs, to)
    ensures Unsubscribed(Resubscribed(subs, from, to), from)
    ensures SubscribedOnce(Resubscribed(subs, from, to), to)
    ensures forall l, e :: l != from && l != to ==> Resubscribed(subs, from, to)[(l, e)] == subs[(l, e)]
  {
    ResubscribedCount(subs, from, to, from, MapChanged);
    ResubscribedCount(subs, from, to, from, RenderStorageChanged);
    ResubscribedCount(subs, from, to, to, MapChanged);
    ResubscribedCount(subs, from, to, to, RenderStorageChanged);
    forall l, e | l != from && l != to
      ensures Resubscribed(subs, from, to)[(l, e)] == subs[(l, e)]
    {
      ResubscribedCount(subs, from, to, l, e);
    }
  }

  /** Re-registering a listener that is registered for both events leaves
      the bus as it was. */
  lemma ResubscribeSameIsIdentity(subs: multiset<Subscription>, l: Sorter?)
    requires subs[(l, MapChanged)] > 0 && subs[(l, RenderStorageChanged)] > 0
    ensures Resubscribed(subs, l, l) == subs
  {
    forall s: Subscription
      ensures Resubscribed(subs, l, l)[s] == subs[s]
    {
      ResubscribedCount(subs, l, l, s.0, s.1);
    }
  }

  /** The dispatcher's state: active sorter (null before the first one is
      made), the id it was made for, and the bus registrations. */
  datatype Dispatch = Dispatch(sorter: Sorter?, sorterId: int, subs: multiset<Subscription>)

  /** The dispatcher acts when the configured id differs from the recorded
      one or when there is no sorter yet. */
  predicate NeedsInit(d: Dispatch, configured: int) {
    configured != d.sorterId || d.sorter == null
  }

  /** One check of the configured sorter id. `created` is the sorter the
      check constructs when it acts on an id that selects a kind; for any
      other id the current sorter (possibly null) is kept but still
      unregistered and registered again, and the id is recorded. */
  function InitSorter(d: Dispatch, configured: int, created: Sorter?): (r: Dispatch)
    ensures r.sorterId == configured
    ensures !NeedsInit(d, configured) ==> r == d
    ensures NeedsInit(d, configured) && KindFor(configured).Some? ==> r.sorter == created
    ensures !KindFor(configured).Some? ==> r.sorter == d.sorter
  {
    if !NeedsInit(d, configured) then d
    else
      var next := if KindFor(configured).Some? then created else d.sorter;
      Dispatch(next, configured, Resubscribed(d.subs, d.sorter, next))
  }

  /** Checking the same configured id twice in a row changes nothing the
      second time, whichever sorter the second check would construct: no
      sorter is replaced and no registration is added. (A check that acts
      constructs a sorter, so `first` is not null.) */
  lemma InitSorterIdempotent(d: Dispatch, configured: int, first: Sorter, second: Sorter?)
    ensures InitSorter(InitSorter(d, configured, first), configured, second) == InitSorter(d, configured, first)
  {
    var r := InitSorter(d, configured, first);
    if NeedsInit(r, configured) {
      // only a null sorter can be kept past a check; it was registered again
      assert r.sorter == null && !KindFor(configured).Some?;
      assert NeedsInit(d, configured);
      ResubscribedCount(d.subs, d.sorter, r.sorter, r.sorter, MapChanged);
      ResubscribedCount(d.subs, d.sorter, r.sorter, r.sorter, RenderStorageChanged);
      ResubscribeSameIsIdentity(r.subs, r.sorter);
    }
  }

  /** An id change to a selectable kind replaces a registered sorter by the
      new one, which is registered once per event while the old one is
      unregistered entirely. */
  lemma {:induction false} InitSorterSwapsRegistrations(d: Dispatch, configured: int, created: Sorter?)
    requires configured != d.sorterId && KindFor(configured).Some?
    requires d.sorter != null && d.sorter != created
    requires SubscribedOnce(d.subs, d.sorter) && Unsubscribed(d.subs, created)
    ensures InitSorter(d, configured, created).sorter == created
    ensures SubscribedOnce(InitSorter(d, configured, created).subs, created)
    ensures Unsubscribed(InitSorter(d, configured, created).subs, d.sorter)
  {
    SwapMovesRegistrations(d.subs, d.sorter, created);
  }

  /** A check keeps the active sorter registered exactly once per event,
      provided the sorter it would construct is not registered yet. */
  lemma {:induction false} InitSorterKeepsSubscription(d: Dispatch, configured: int, created: Sorter?)
    requires d.sorter != null ==> SubscribedOnce(d.subs, d.sorter)
    requires created != d.sorter ==> Unsubscribed(d.subs, created)
    ensures InitSorter(d, configured, created).sorter != null ==>
      SubscribedOnce(InitSorter(d, configured, created).subs, InitSorter(d, configured, created).sorter)
  {
    var r := InitSorter(d, configured, created);
    if NeedsInit(d, configured) && r.sorter != null {
      if r.sorter == d.sorter {
        ResubscribeSameIsIdentity(d.subs, d.sorter);
      } else {
        ResubscribedCount(d.subs, d.sorter, r.sorter, r.sorter, MapChanged);
        ResubscribedCount(d.subs, d.sorter, r.sorter, r.sorter, RenderStorageChanged);
      }
    }
  }

  /** The message bus: a multiset of registrations, so that a listener
      registered twice for an event is visible as such. */
  class MessageBus {
    var subscriptions: multiset<Subscription>

    constructor ()
      ensures subscriptions == multiset{}
    {
      subscriptions := multiset{};
    }

    method AddListener(l: Sorter?, e: Event)
      modifies this
      ensures subscriptions == old(subscriptions) + multiset{(l, e)}
    {
      subscriptions := subscriptions + multiset{(l, e)};
    }

    /** Removes one registration of `l` for `e`, if there is one. */
    method RemoveListener(l: Sorter?, e: Event)
      modifies this
      ensures subscriptions == old(subscriptions) - multiset{(l, e)}
    {
      subscriptions := subscriptions - multiset{(l, e)};
    }
  }
}
