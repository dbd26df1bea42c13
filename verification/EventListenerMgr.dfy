/**
 * EventListenerMgr: a counter that has to agree, through registrations, removals and deaths of
 * remote listeners, with the number of listeners held in a registry nested three levels deep.
 */
module EventListenerMgr {
  import opened Options
  import opened PrintConstants
  import opened MapSums

  const MAX_LISTENERS_COUNT := 1000

  /** The identity of a remote listener object. */
  type Remote = nat

  /** CallbackEventType: 0-6 are printer events, 7-15 extension events, 16-22 job events. */
  type EventType = e: int | 0 <= e <= 23

  datatype Kind = PrinterKind | ExtensionKind | JobKind | UnknownKind

  function KindOf(e: EventType): Kind {
    if e <= 6 then PrinterKind else if e <= 15 then ExtensionKind else if e <= 22 then JobKind else UnknownKind
  }

  datatype Callback =
    | PrinterCallback(pid: int, listener: Remote)
    | ExtensionCallback(pid: int, listener: Remote, extensionId: string)
    | JobCallback(pid: int, listeners: map<string, Remote>, permitted: bool)

  /** How many listeners a callback holds: what its Clear returns. */
  function Held(c: Callback): nat {
    if c.JobCallback? then |c.listeners| else 1
  }

  /** IsRemoteDied */
  predicate Holds(c: Callback, remote: Remote) {
    match c
    case PrinterCallback(_, listener) => listener == remote
    case ExtensionCallback(_, listener, _) => listener == remote
    case JobCallback(_, listeners, _) => remote in listeners.Values
  }

  predicate HasKind(c: Callback, e: EventType) {
    match KindOf(e)
    case PrinterKind => c.PrinterCallback?
    case ExtensionKind => c.ExtensionCallback?
    case JobKind => c.JobCallback?
    case UnknownKind => true
  }

  type EventMap = map<EventType, seq<Callback>>
  /** int32_t userId */
  type UserId = Int32

  type Registry = map<UserId, EventMap>

  // ---------------------------------------------------------------------------------------
  // Totals
  // ---------------------------------------------------------------------------------------

  /** What is summed over the registry: the listeners held, or, for one remote, its holders or what they hold. */
  datatype Measure = Listeners | HoldersOf(remote: Remote) | HeldWith(remote: Remote)

  function Weight(c: Callback, k: Measure): nat {
    match k
    case Listeners => Held(c)
    case HoldersOf(remote) => if Holds(c, remote) then 1 else 0
    case HeldWith(remote) => if Holds(c, remote) then Held(c) else 0
  }

  function ListTotal(cs: seq<Callback>, k: Measure): nat {
    if cs == [] then 0 else ListTotal(cs[..|cs| - 1], k) + Weight(cs[|cs| - 1], k)
  }

  function EventTotals(events: EventMap, k: Measure): map<EventType, nat> {
    map e | e in events :: ListTotal(events[e], k)
  }

  ghost function UserTotals(registry: Registry, k: Measure): map<UserId, nat> {
    map u | u in registry :: EventTotal(registry[u], k)
  }

  ghost function EventTotal(events: EventMap, k: Measure): nat {
    Sum(EventTotals(events, k))
  }

  /** Over all registered callbacks: for Listeners, all the listeners they hold. */
  ghost function Total(registry: Registry, k: Measure): nat {
    Sum(UserTotals(registry, k))
  }

  function EventsOf(registry: Registry, user: UserId): EventMap {
    if user in registry then registry[user] else map[]
  }

  function ListOf(registry: Registry, user: UserId, e: EventType): seq<Callback> {
    if e in EventsOf(registry, user) then EventsOf(registry, user)[e] else []
  }

  function Put(registry: Registry, user: UserId, e: EventType, cs: seq<Callback>): Registry {
    registry[user := EventsOf(registry, user)[e := cs]]
  }

  lemma EventTotalPut(events: EventMap, e: EventType, cs: seq<Callback>, k: Measure)
    ensures EventTotal(events[e := cs], k) + (if e in events then ListTotal(events[e], k) else 0) ==
            EventTotal(events, k) + ListTotal(cs, k)
  {
    SumUpdate(EventTotals(events, k), e, ListTotal(cs, k));
    assert EventTotals(events[e := cs], k) == EventTotals(events, k)[e := ListTotal(cs, k)];
  }

  lemma UserTotalsPut(registry: Registry, user: UserId, events: EventMap, k: Measure)
    ensures UserTotals(registry[user := events], k) == UserTotals(registry, k)[user := EventTotal(events, k)]
  {
  }

  lemma UserTotalOf(registry: Registry, user: UserId, k: Measure)
    ensures EventTotal(EventsOf(registry, user), k) == if user in registry then UserTotals(registry, k)[user] else 0
  {
  }

  /** Replacing one list changes the total by the difference of the lists. */
  lemma TotalPut(registry: Registry, user: UserId, e: EventType, cs: seq<Callback>, k: Measure)
    ensures Total(Put(registry, user, e, cs), k) + ListTotal(ListOf(registry, user, e), k) ==
            Total(registry, k) + ListTotal(cs, k)
  {
    var events := EventsOf(registry, user);
    EventTotalPut(events, e, cs, k);
    UserTotalOf(registry, user, k);
    UserTotalsPut(registry, user, events[e := cs], k);
    SumUpdate(UserTotals(registry, k), user, EventTotal(events[e := cs], k));
  }

  lemma {:induction false} ListTotalConcat(a: seq<Callback>, b: seq<Callback>, k: Measure)
    ensures ListTotal(a + b, k) == ListTotal(a, k) + ListTotal(b, k)
  {
    if b == [] {
      assert a + b == a;
    } else {
      assert (a + b)[..|a + b| - 1] == a + b[..|b| - 1];
      ListTotalConcat(a, b[..|b| - 1], k);
    }
  }

  lemma ListTotalOne(c: Callback, k: Measure)
    ensures ListTotal([c], k) == Weight(c, k)
  {
  }

  /** A list with one callback replaced or left out. */
  lemma {:induction false} ListTotalAround(cs: seq<Callback>, i: nat, c: Callback, k: Measure)
    requires i < |cs|
    ensures ListTotal(cs[i := c], k) == ListTotal(cs, k) - Weight(cs[i], k) + Weight(c, k)
    ensures ListTotal(cs[..i] + cs[i + 1..], k) == ListTotal(cs, k) - Weight(cs[i], k)
    ensures Weight(cs[i], k) <= ListTotal(cs, k)
  {
    var a, b := cs[..i], cs[i + 1..];
    assert cs == a + [cs[i]] + b;
    assert cs[i := c] == a + [c] + b;
    ListTotalConcat(a + [cs[i]], b, k);
    ListTotalConcat(a, [cs[i]], k);
    ListTotalConcat(a + [c], b, k);
    ListTotalConcat(a, [c], k);
    ListTotalConcat(a, b, k);
    ListTotalOne(cs[i], k);
    ListTotalOne(c, k);
  }

  lemma {:induction false} ListTotalBounded(registry: Registry, user: UserId, e: EventType, k: Measure)
    ensures ListTotal(ListOf(registry, user, e), k) <= Total(registry, k)
  {
    TotalPut(registry, user, e, [], k);
  }

  // ---------------------------------------------------------------------------------------
  // Well-formed registries
  // ---------------------------------------------------------------------------------------

  /** One callback per process, of the kind the event calls for. */
  predicate ListOk(cs: seq<Callback>, e: EventType) {
    && (forall i, j | 0 <= i < j < |cs| :: cs[i].pid != cs[j].pid)
    && forall i | 0 <= i < |cs| :: HasKind(cs[i], e)
  }

  ghost predicate RegistryOk(registry: Registry) {
    forall u, e | u in registry && e in registry[u] :: ListOk(registry[u][e], e)
  }

  lemma PutKeepsOk(registry: Registry, user: UserId, e: EventType, cs: seq<Callback>)
    requires RegistryOk(registry) && ListOk(cs, e)
    ensures RegistryOk(Put(registry, user, e, cs))
  {
  }

  lemma ListIsOk(registry: Registry, user: UserId, e: EventType)
    requires RegistryOk(registry)
    ensures ListOk(ListOf(registry, user, e), e)
  {
  }

  /** FindCallback's loop: the callback of a process, or the length of the list. */
  function IndexOfPid(cs: seq<Callback>, pid: int): (i: nat)
    ensures i <= |cs|
    ensures i < |cs| ==> cs[i].pid == pid
    ensures i == |cs| ==> forall k | 0 <= k < |cs| :: cs[k].pid != pid
  {
    if cs == [] then 0
    else if IndexOfPid(cs[..|cs| - 1], pid) < |cs| - 1 then IndexOfPid(cs[..|cs| - 1], pid)
    else if cs[|cs| - 1].pid == pid then |cs| - 1
    else |cs|
  }

  lemma {:induction false} IndexOfPidIs(cs: seq<Callback>, e: EventType, i: nat)
    requires ListOk(cs, e) && i < |cs|
    ensures IndexOfPid(cs, cs[i].pid) == i
  {
  }

  // ---------------------------------------------------------------------------------------
  // The manager
  // ---------------------------------------------------------------------------------------

  class EventListenerMgr {
    var registeredListeners: Registry
    var counter: UInt32

    /** The counter is the number of listeners held, and within the limit. */
    ghost predicate Valid()
      reads this
    {
      && RegistryOk(registeredListeners)
      && counter == Total(registeredListeners, Listeners) <= 1000
    }

    constructor ()
      ensures Valid() && registeredListeners == map[] && counter == 0
    {
      registeredListeners, counter := map[], 0;
    }

    method FindCallback(userId: UserId, pid: int, e: EventType) returns (index: int)
      requires Valid()
      ensures
        var cs := ListOf(registeredListeners, userId, e);
        index == if IndexOfPid(cs, pid) < |cs| then IndexOfPid(cs, pid) else -1
    {
      index := -1;
      if userId in registeredListeners && e in registeredListeners[userId] {
        var cs := registeredListeners[userId][e];
        ListIsOk(registeredListeners, userId, e);
        var i := 0;
        while i < |cs|
          invariant 0 <= i <= |cs|
          invariant forall k | 0 <= k < i :: cs[k].pid != pid
        {
          if cs[i].pid == pid {
            IndexOfPidIs(cs, e, i);
            return i;
          }
          i := i + 1;
        }
      }
    }

    /** Replaces one list of the registry by one that holds more or fewer listeners, and counts them. */
    method Store(userId: UserId, e: EventType, cs: seq<Callback>, added: int)
      requires Valid() && ListOk(cs, e)
      requires ListTotal(cs, Listeners) == ListTotal(ListOf(registeredListeners, userId, e), Listeners) + added
      requires counter + added <= MAX_LISTENERS_COUNT
      modifies this
      ensures Valid() && registeredListeners == Put(old(registeredListeners), userId, e, cs)
      ensures counter == old(counter) + added
    {
      TotalPut(registeredListeners, userId, e, cs, Listeners);
      PutKeepsOk(registeredListeners, userId, e, cs);
      registeredListeners := Put(registeredListeners, userId, e, cs);
      counter := counter + added;
    }

    /** Appends a callback holding one listener, or refuses at the limit. */
    method Append(userId: UserId, e: EventType, c: Callback) returns (ok: bool)
      requires Valid() && Held(c) == 1 && HasKind(c, e)
      requires IndexOfPid(ListOf(registeredListeners, userId, e), c.pid) == |ListOf(registeredListeners, userId, e)|
      modifies this
      ensures Valid() && (ok <==> old(counter) < 1000)
      ensures registeredListeners == if ok then
                Put(old(registeredListeners), userId, e, ListOf(old(registeredListeners), userId, e) + [c])
                else old(registeredListeners)
      ensures counter == old(counter) + if ok then 1 else 0
    {
      if counter >= MAX_LISTENERS_COUNT {
        return false;
      }
      var cs := ListOf(registeredListeners, userId, e);
      ListIsOk(registeredListeners, userId, e);
      ListTotalConcat(cs, [c], Listeners);
      ListTotalOne(c, Listeners);
      Store(userId, e, cs + [c], 1);
      return true;
    }

    /** Replaces a process's callback by one holding as many or one more listener. */
    method Replace(userId: UserId, e: EventType, index: nat, c: Callback, added: int)
      requires Valid() && index < |ListOf(registeredListeners, userId, e)| && HasKind(c, e)
      requires c.pid == ListOf(registeredListeners, userId, e)[index].pid
      requires Held(c) == Held(ListOf(registeredListeners, userId, e)[index]) + added
      requires counter + added <= MAX_LISTENERS_COUNT
      modifies this
      ensures Valid() && counter == old(counter) + added
      ensures registeredListeners ==
              Put(old(registeredListeners), userId, e, ListOf(old(registeredListeners), userId, e)[index := c])
    {
      var cs := ListOf(registeredListeners, userId, e);
      ListIsOk(registeredListeners, userId, e);
      ListTotalAround(cs, index, c, Listeners);
      Store(userId, e, cs[index := c], added);
    }

    /** Takes a callback out, with all the listeners it holds. */
    method Remove(userId: UserId, e: EventType, index: nat)
      requires Valid() && index < |ListOf(registeredListeners, userId, e)|
      modifies this
      ensures
        var cs := ListOf(old(registeredListeners), userId, e);
        && Valid() && counter == old(counter) - Held(cs[index])
        && registeredListeners == Put(old(registeredListeners), userId, e, cs[..index] + cs[index + 1..])
    {
      var cs := ListOf(registeredListeners, userId, e);
      ListIsOk(registeredListeners, userId, e);
      ListTotalAround(cs, index, cs[index], Listeners);
      ListTotalBounded(registeredListeners, userId, e, Listeners);
      RemovedIsOk(cs, e, index);
      Store(userId, e, cs[..index] + cs[index + 1..], 0 - Held(cs[index]));
    }

    method RegisterPrinterListener(userId: UserId, pid: int, e: EventType, listener: Option<Remote>) returns (ok: bool)
      requires Valid() && KindOf(e) == PrinterKind
      modifies this
      ensures Valid()
      ensures
        var cs := ListOf(old(registeredListeners), userId, e);
        var i, c := IndexOfPid(cs, pid), PrinterCallback(pid, if listener.Some? then listener.value else 0);
        && (ok <==> listener.Some? && (i < |cs| || old(counter) < 1000))
        && (!ok ==> registeredListeners == old(registeredListeners) && counter == old(counter))
        && (ok ==> counter == (if i < |cs| then old(counter) else old(counter) + 1) &&
                   registeredListeners ==
                   Put(old(registeredListeners), userId, e, if i < |cs| then cs[i := c] else cs + [c]))
    {
      if listener.None? {
        return false;
      }
      ListIsOk(registeredListeners, userId, e);
      var index := FindCallback(userId, pid, e);
      if index >= 0 {
        Replace(userId, e, index, PrinterCallback(pid, listener.value), 0);
        return true;
      }
      ok := Append(userId, e, PrinterCallback(pid, listener.value));
    }

    method RegisterExtensionListener(
        userId: UserId, pid: int, e: EventType, extensionId: string, listener: Option<Remote>) returns (ok: bool)
      requires Valid() && KindOf(e) == ExtensionKind
      modifies this
      ensures Valid()
      ensures
        var cs := ListOf(old(registeredListeners), userId, e);
        var i := IndexOfPid(cs, pid);
        var c := ExtensionCallback(pid, if listener.Some? then listener.value else 0, extensionId);
        && (ok <==> listener.Some? && (i < |cs| || old(counter) < 1000))
        && (!ok ==> registeredListeners == old(registeredListeners) && counter == old(counter))
        && (ok ==> counter == (if i < |cs| then old(counter) else old(counter) + 1) &&
                   registeredListeners ==
                   Put(old(registeredListeners), userId, e, if i < |cs| then cs[i := c] else cs + [c]))
    {
      if listener.None? {
        return false;
      }
      ListIsOk(registeredListeners, userId, e);
      var index := FindCallback(userId, pid, e);
      if index >= 0 {
        Replace(userId, e, index, ExtensionCallback(pid, listener.value, extensionId), 0);
        return true;
      }
      ok := Append(userId, e, ExtensionCallback(pid, listener.value, extensionId));
    }

    /** A process holds one listener per job; only a job new to it counts. */
    method RegisterPrintJobListener(
        userId: UserId, pid: int, e: EventType, jobId: string, listener: Option<Remote>, permitted: bool)
      returns (ok: bool)
      requires Valid() && KindOf(e) == JobKind
      modifies this
      ensures Valid()
      ensures
        var cs := ListOf(old(registeredListeners), userId, e);
        var i := IndexOfPid(cs, pid);
        var known := i < |cs| && cs[i].JobCallback? && jobId in cs[i].listeners;
        && (ok <==> listener.Some? && (known || old(counter) < 1000))
        && (!ok ==> registeredListeners == old(registeredListeners) && counter == old(counter))
        && (ok ==>
              && counter == (if known then old(counter) else old(counter) + 1)
              && (i < |cs| ==> cs[i].JobCallback?)
              && registeredListeners ==
                 Put(old(registeredListeners), userId, e,
                     if i < |cs| then cs[i := cs[i].(listeners := cs[i].listeners[jobId := listener.value])]
                     else cs + [JobCallback(pid, map[jobId := listener.value], permitted)]))
    {
      if listener.None? {
        return false;
      }
      ListIsOk(registeredListeners, userId, e);
      var index := FindCallback(userId, pid, e);
      if index >= 0 {
        var c := ListOf(registeredListeners, userId, e)[index];
        assert HasKind(c, e);
        var existed := jobId in c.listeners;
        if !existed && counter >= MAX_LISTENERS_COUNT {
          return false;
        }
        HeldAfterSet(c, jobId, listener.value);
        Replace(userId, e, index, c.(listeners := c.listeners[jobId := listener.value]), if existed then 0 else 1);
        return true;
      }
      ok := Append(userId, e, JobCallback(pid, map[jobId := listener.value], permitted));
    }

    method UnRegisterPrinterListener(userId: UserId, pid: int, e: EventType) returns (ok: bool)
      requires Valid()
      modifies this
      ensures Valid()
      ensures
        var cs := ListOf(old(registeredListeners), userId, e);
        var i := IndexOfPid(cs, pid);
        && (ok <==> i < |cs|)
        && (!ok ==> registeredListeners == old(registeredListeners) && counter == old(counter))
        && (ok ==> counter == old(counter) - Held(cs[i]) &&
                   registeredListeners == Put(old(registeredListeners), userId, e, cs[..i] + cs[i + 1..]))
    {
      var index := FindCallback(userId, pid, e);
      if index < 0 {
        return false;
      }
      Remove(userId, e, index);
      return true;
    }

    /** TryDeletePrintJobListenerFromCallback: the callback stays, with one listener less. */
    method TryDelete(userId: UserId, e: EventType, index: nat, jobId: string) returns (ok: bool)
      requires Valid() && KindOf(e) == JobKind && index < |ListOf(registeredListeners, userId, e)|
      modifies this
      ensures Valid()
      ensures
        var cs := ListOf(old(registeredListeners), userId, e);
        && cs[index].JobCallback?
        && (ok <==> jobId in cs[index].listeners)
        && (!ok ==> registeredListeners == old(registeredListeners) && counter == old(counter))
        && (ok ==> Deleted(old(registeredListeners), registeredListeners, userId, e, index, jobId) &&
                   counter == old(counter) - 1)
    {
      ListIsOk(registeredListeners, userId, e);
      var c := ListOf(registeredListeners, userId, e)[index];
      assert HasKind(c, e);
      if jobId !in c.listeners {
        return false;
      }
      HeldAfterDelete(c, jobId);
      ListTotalAround(ListOf(registeredListeners, userId, e), index, c, Listeners);
      ListTotalBounded(registeredListeners, userId, e, Listeners);
      Replace(userId, e, index, c.(listeners := c.listeners - {jobId}), -1);
      return true;
    }

    /** A process unregisters from its own callback; the service itself from any that knows the job. */
    method UnRegisterPrintJobListener(userId: UserId, pid: int, isService: bool, e: EventType, jobId: string)
      returns (ok: bool)
      requires Valid() && KindOf(e) == JobKind
      modifies this
      ensures Valid()
      ensures !ok ==> registeredListeners == old(registeredListeners) && counter == old(counter)
      ensures ok ==> counter == old(counter) - 1 &&
                     exists u, i :: Deleted(old(registeredListeners), registeredListeners, u, e, i, jobId)
      ensures
        var cs := ListOf(old(registeredListeners), userId, e);
        var i := IndexOfPid(cs, pid);
        if i < |cs| then
          && (ok <==> cs[i].JobCallback? && jobId in cs[i].listeners)
          && (ok ==> Deleted(old(registeredListeners), registeredListeners, userId, e, i, jobId))
        else
          ok <==> isService && exists u, k :: Knows(old(registeredListeners), u, e, k, jobId)
    {
      var index := FindCallback(userId, pid, e);
      if index >= 0 {
        ok := TryDelete(userId, e, index, jobId);
        return;
      }
      if !isService {
        return false;
      }
      ok := DeletePrintJobListener(e, jobId);
    }

    /** Users are visited in no particular order; the first callback that knows the job loses it. */
    method DeletePrintJobListener(e: EventType, jobId: string) returns (ok: bool)
      requires Valid() && KindOf(e) == JobKind
      modifies this
      ensures Valid()
      ensures !ok ==> registeredListeners == old(registeredListeners) && counter == old(counter)
      ensures ok ==> counter == old(counter) - 1 &&
                     exists u, i :: Deleted(old(registeredListeners), registeredListeners, u, e, i, jobId)
      ensures ok <==> exists u, k :: Knows(old(registeredListeners), u, e, k, jobId)
    {
      var users: set<UserId> := registeredListeners.Keys;
      while users != {}
        invariant Valid() && registeredListeners == old(registeredListeners) && counter == old(counter)
        invariant users <= registeredListeners.Keys
        invariant forall u, k :: Knows(registeredListeners, u, e, k, jobId) ==> u in users
        decreases |users|
      {
        var u: UserId :| u in users;
        var cs := ListOf(registeredListeners, u, e);
        var k := 0;
        while k < |cs|
          invariant Valid() && registeredListeners == old(registeredListeners) && counter == old(counter)
          invariant 0 <= k <= |cs|
          invariant forall i :: Knows(registeredListeners, u, e, i, jobId) ==> k <= i
        {
          ok := TryDelete(u, e, k, jobId);
          if ok {
            assert Knows(old(registeredListeners), u, e, k, jobId);
            return;
          }
          k := k + 1;
        }
        users := users - {u};
      }
      return false;
    }

    /** RemoveDiedListener: the first callback of one list that holds the dead listener is removed. */
    method RemoveDiedListener(userId: UserId, e: EventType, remote: Remote) returns (removed: bool)
      requires Valid()
      modifies this
      ensures Valid()
      ensures removed <==> exists i :: HoldsAt(old(registeredListeners), userId, e, i, remote)
      ensures !removed ==> registeredListeners == old(registeredListeners) && counter == old(counter)
      ensures removed ==>
                exists i: nat ::
                  Buried(old(registeredListeners), registeredListeners, userId, e, i, remote, old(counter), counter)
    {
      var cs := ListOf(registeredListeners, userId, e);
      var i := 0;
      while i < |cs|
        invariant 0 <= i <= |cs|
        invariant forall k | 0 <= k < i :: !Holds(cs[k], remote)
      {
        if Holds(cs[i], remote) {
          assert HoldsAt(registeredListeners, userId, e, i, remote);
          Remove(userId, e, i);
          assert Buried(old(registeredListeners), registeredListeners, userId, e, i, remote, old(counter), counter);
          return true;
        }
        i := i + 1;
      }
      return false;
    }

    /**
     * One callback that stored the dead listener is removed, and counted out with all it held; if there is
     * none, nothing changes.
     */
    method OnRemoteListenerDied(listener: Option<Remote>)
      requires Valid()
      modifies this
      ensures Valid()
      ensures
        if listener.Some? && exists u, e, i :: HoldsAt(old(registeredListeners), u, e, i, listener.value) then
          exists u, e, i: nat ::
            Buried(old(registeredListeners), registeredListeners, u, e, i, listener.value, old(counter), counter)
        else
          registeredListeners == old(registeredListeners) && counter == old(counter)
      ensures listener.Some? ==> Notice(old(registeredListeners), registeredListeners, listener.value)
      ensures listener.Some? && IsStored(old(registeredListeners), listener.value) ==> counter < old(counter)
    {
      if listener.None? {
        return;
      }
      ghost var before := registeredListeners;
      VisitUsers(listener.value);
      if IsStored(before, listener.value) {
        NoticeTakesHolder(before, registeredListeners, listener.value);
      }
    }

    /** Users and events are visited in no particular order; one callback that held the dead listener is removed. */
    method VisitUsers(remote: Remote)
      requires Valid()
      modifies this
      ensures Valid()
      ensures
        if exists u, e, i :: HoldsAt(old(registeredListeners), u, e, i, remote) then
          exists u, e, i: nat ::
            Buried(old(registeredListeners), registeredListeners, u, e, i, remote, old(counter), counter)
        else
          registeredListeners == old(registeredListeners) && counter == old(counter)
    {
      var users: set<UserId> := registeredListeners.Keys;
      while users != {}
        invariant Valid() && registeredListeners == old(registeredListeners) && counter == old(counter)
        invariant users <= registeredListeners.Keys
        invariant forall u, e, i :: HoldsAt(registeredListeners, u, e, i, remote) ==> u in users
        decreases |users|
      {
        var u: UserId :| u in users;
        var found := VisitUser(u, remote);
        if found {
          return;
        }
        users := users - {u};
      }
    }

    method VisitUser(u: UserId, remote: Remote) returns (found: bool)
      requires Valid() && u in registeredListeners
      modifies this
      ensures Valid()
      ensures found <==> exists e, i :: HoldsAt(old(registeredListeners), u, e, i, remote)
      ensures !found ==> registeredListeners == old(registeredListeners) && counter == old(counter)
      ensures found ==>
                exists e, i: nat ::
                  Buried(old(registeredListeners), registeredListeners, u, e, i, remote, old(counter), counter)
    {
      var events: set<EventType> := registeredListeners[u].Keys;
      while events != {}
        invariant Valid() && registeredListeners == old(registeredListeners) && counter == old(counter)
        invariant events <= registeredListeners[u].Keys
        invariant forall e, i :: HoldsAt(registeredListeners, u, e, i, remote) ==> e in events
        decreases |events|
      {
        var e: EventType :| e in events;
        found := RemoveDiedListener(u, e, remote);
        if found {
          return;
        }
        events := events - {e};
      }
      return false;
    }

    /** ClearAllListeners: every list is emptied, nothing is held any more. */
    method ClearAllListeners()
      requires Valid()
      modifies this
      ensures Valid() && counter == 0
      ensures registeredListeners.Keys == old(registeredListeners).Keys
      ensures forall u, e :: ListOf(registeredListeners, u, e) == []
    {
      var users: set<UserId> := registeredListeners.Keys;
      while users != {}
        invariant users <= registeredListeners.Keys == old(registeredListeners).Keys
        invariant RegistryOk(registeredListeners)
        invariant forall u, e :: u !in users ==> ListOf(registeredListeners, u, e) == []
        decreases |users|
      {
        var u: UserId :| u in users;
        var events := registeredListeners[u];
        var emptied: EventMap := map e | e in events :: [];
        ghost var before := registeredListeners;
        registeredListeners := registeredListeners[u := emptied];
        users := users - {u};
        forall v, e | v !in users
          ensures ListOf(registeredListeners, v, e) == []
        {
          assert v != u ==> ListOf(registeredListeners, v, e) == ListOf(before, v, e);
        }
      }
      counter := 0;
      WeightlessTotal(registeredListeners, Listeners);
    }
  }

  // ---------------------------------------------------------------------------------------
  // Relations and small facts
  // ---------------------------------------------------------------------------------------

  predicate Knows(registry: Registry, user: UserId, e: EventType, i: nat, jobId: string) {
    var cs := ListOf(registry, user, e);
    i < |cs| && cs[i].JobCallback? && jobId in cs[i].listeners
  }

  /** Exactly one listener is gone: that of the job in the i-th callback of a user's event. */
  predicate Deleted(before: Registry, after: Registry, user: UserId, e: EventType, i: nat, jobId: string) {
    Knows(before, user, e, i, jobId) &&
    var cs := ListOf(before, user, e);
    after == Put(before, user, e, cs[i := cs[i].(listeners := cs[i].listeners - {jobId})])
  }

  predicate HoldsAt(registry: Registry, user: UserId, e: EventType, i: nat, remote: Remote) {
    i < |ListOf(registry, user, e)| && Holds(ListOf(registry, user, e)[i], remote)
  }

  /** The i-th callback of a user's event held the dead listener, and is gone. */
  predicate Taken(before: Registry, after: Registry, user: UserId, e: EventType, i: nat, remote: Remote) {
    HoldsAt(before, user, e, i, remote) &&
    var cs := ListOf(before, user, e);
    after == Put(before, user, e, cs[..i] + cs[i + 1..])
  }

  /** Such a callback is gone, and all the listeners it held are no longer counted. */
  predicate Buried(
      before: Registry, after: Registry, user: UserId, e: EventType, i: nat, remote: Remote, counted: int,
      left: int) {
    Taken(before, after, user, e, i, remote) && left == counted - Held(ListOf(before, user, e)[i])
  }

  /** What a notice of death does to the registry. */
  ghost predicate Notice(before: Registry, after: Registry, remote: Remote) {
    if exists u, e, i :: HoldsAt(before, u, e, i, remote)
    then exists u, e, i: nat :: Taken(before, after, u, e, i, remote)
    else after == before
  }

  /** Among the fields of a callback is this remote. */
  ghost predicate Stores(c: Callback, remote: Remote) {
    match c
    case PrinterCallback(_, listener) => listener == remote
    case ExtensionCallback(_, listener, _) => listener == remote
    case JobCallback(_, listeners, _) => exists jobId :: jobId in listeners && listeners[jobId] == remote
  }

  ghost predicate IsStored(registry: Registry, remote: Remote) {
    exists u, e, i: nat :: StoredAt(registry, u, e, i, remote)
  }

  ghost predicate StoredAt(registry: Registry, user: UserId, e: EventType, i: nat, remote: Remote) {
    i < |ListOf(registry, user, e)| && Stores(ListOf(registry, user, e)[i], remote)
  }

  lemma HoldsIff(c: Callback, remote: Remote)
    ensures Holds(c, remote) <==> Stores(c, remote)
    ensures Stores(c, remote) ==> Held(c) > 0
  {
    if c.JobCallback? && remote in c.listeners.Values {
      assert exists jobId :: jobId in c.listeners && c.listeners[jobId] == remote;
    }
  }

  lemma StoredIff(registry: Registry, remote: Remote)
    ensures IsStored(registry, remote) <==> exists u, e, i: nat :: HoldsAt(registry, u, e, i, remote)
    ensures IsStored(registry, remote) <==> !HeldNowhere(registry, remote)
  {
    forall u: UserId, e: EventType, i: nat
      ensures HoldsAt(registry, u, e, i, remote) <==> StoredAt(registry, u, e, i, remote)
    {
      if i < |ListOf(registry, u, e)| {
        HoldsIff(ListOf(registry, u, e)[i], remote);
      }
    }
  }

  /** A notice takes out one callback that stores the dead remote, if there is one, and that shows in the count. */
  lemma {:induction false} NoticeTakesHolder(before: Registry, after: Registry, remote: Remote)
    requires Notice(before, after, remote) && IsStored(before, remote)
    ensures Total(after, Listeners) < Total(before, Listeners)
    ensures exists u, e, i: nat ::
              && StoredAt(before, u, e, i, remote)
              && after == Put(before, u, e, ListOf(before, u, e)[..i] + ListOf(before, u, e)[i + 1..])
  {
    StoredIff(before, remote);
    var u: UserId, e: EventType, i: nat :| Taken(before, after, u, e, i, remote);
    HoldsIff(ListOf(before, u, e)[i], remote);
    assert StoredAt(before, u, e, i, remote);
    TakenTotal(before, after, u, e, i, remote, Listeners);
  }

  lemma RemovedIsOk(cs: seq<Callback>, e: EventType, i: nat)
    requires ListOk(cs, e) && i < |cs|
    ensures ListOk(cs[..i] + cs[i + 1..], e)
  {
  }

  lemma HeldAfterSet(c: Callback, jobId: string, remote: Remote)
    requires c.JobCallback?
    ensures |c.listeners[jobId := remote]| == |c.listeners| + if jobId in c.listeners then 0 else 1
  {
  }

  lemma HeldAfterDelete(c: Callback, jobId: string)
    requires c.JobCallback? && jobId in c.listeners
    ensures |c.listeners - {jobId}| == |c.listeners| - 1
  {
  }

  lemma {:induction false} WeightlessTotal(registry: Registry, k: Measure)
    requires forall u, e :: ListTotal(ListOf(registry, u, e), k) == 0
    ensures Total(registry, k) == 0
  {
    forall u | u in registry
      ensures EventTotal(registry[u], k) == 0
    {
      assert forall e | e in registry[u] :: ListOf(registry, u, e) == registry[u][e];
      SumOfZeros(EventTotals(registry[u], k));
    }
    SumOfZeros(UserTotals(registry, k));
  }

  /** Where a callback of the old registry is found after one was buried before it in the list. */
  lemma HeldAfterBurial(
      before: Registry, after: Registry, u: UserId, e: EventType, i: nat,
      v: UserId, f: EventType, k: nat, remote: Remote)
    requires i < |ListOf(before, u, e)|
    requires after == Put(before, u, e, ListOf(before, u, e)[..i] + ListOf(before, u, e)[i + 1..])
    ensures HoldsAt(after, v, f, k, remote) <==>
            HoldsAt(before, v, f, if v == u && f == e && k >= i then k + 1 else k, remote)
  {
  }

  ghost predicate HeldNowhere(registry: Registry, remote: Remote) {
    forall u, e, i: nat :: !HoldsAt(registry, u, e, i, remote)
  }

  ghost predicate HeldOnlyAt(registry: Registry, u: UserId, e: EventType, i: nat, remote: Remote) {
    forall v, f, k: nat :: HoldsAt(registry, v, f, k, remote) ==> v == u && f == e && k == i
  }

  lemma {:induction false} OtherHolderStays(
      before: Registry, after: Registry, u: UserId, e: EventType, i: nat, remote: Remote)
    requires i < |ListOf(before, u, e)| && !HeldOnlyAt(before, u, e, i, remote)
    requires after == Put(before, u, e, ListOf(before, u, e)[..i] + ListOf(before, u, e)[i + 1..])
    ensures !HeldNowhere(after, remote)
  {
    var v: UserId, f: EventType, k: nat :| HoldsAt(before, v, f, k, remote) && !(v == u && f == e && k == i);
    var k': nat := if v == u && f == e && k > i then k - 1 else k;
    HeldAfterBurial(before, after, u, e, i, v, f, k', remote);
    assert HoldsAt(after, v, f, k', remote);
  }

  /**
   * A notice of death removes one callback only. The dead listener is gone from the registry exactly
   * when no second callback held it; otherwise it stays, and stays counted, until a further notice.
   */
  lemma {:induction false} DeadListenerGoneIff(
      before: Registry, after: Registry, u: UserId, e: EventType, i: nat, remote: Remote, counted: int, left: int)
    requires Buried(before, after, u, e, i, remote, counted, left)
    ensures HeldNowhere(after, remote) <==> HeldOnlyAt(before, u, e, i, remote)
  {
    if HeldOnlyAt(before, u, e, i, remote) {
      forall v, f, k: nat
        ensures !HoldsAt(after, v, f, k, remote)
      {
        HeldAfterBurial(before, after, u, e, i, v, f, k, remote);
      }
    } else {
      OtherHolderStays(before, after, u, e, i, remote);
    }
  }

  lemma {:induction false} ListWithoutHolder(cs: seq<Callback>, remote: Remote)
    ensures ListTotal(cs, HoldersOf(remote)) == 0 <==> forall i | 0 <= i < |cs| :: !Holds(cs[i], remote)
    ensures ListTotal(cs, HoldersOf(remote)) == 0 ==> ListTotal(cs, HeldWith(remote)) == 0
  {
    if cs == [] {
    } else {
      ListWithoutHolder(cs[..|cs| - 1], remote);
    }
  }

  /** A listener is held nowhere exactly when its holders add up to none; nothing is held with it then. */
  lemma {:induction false} HeldNowhereIff(registry: Registry, remote: Remote)
    ensures HeldNowhere(registry, remote) <==> Total(registry, HoldersOf(remote)) == 0
    ensures HeldNowhere(registry, remote) ==> Total(registry, HeldWith(remote)) == 0
  {
    if HeldNowhere(registry, remote) {
      forall u, e
        ensures ListTotal(ListOf(registry, u, e), HoldersOf(remote)) == 0
        ensures ListTotal(ListOf(registry, u, e), HeldWith(remote)) == 0
      {
        var cs := ListOf(registry, u, e);
        assert forall i | 0 <= i < |cs| :: Holds(cs[i], remote) ==> HoldsAt(registry, u, e, i, remote);
        ListWithoutHolder(cs, remote);
      }
      WeightlessTotal(registry, HoldersOf(remote));
      WeightlessTotal(registry, HeldWith(remote));
    } else {
      var u: UserId, e: EventType, i: nat :| HoldsAt(registry, u, e, i, remote);
      ListWithoutHolder(ListOf(registry, u, e), remote);
      ListTotalBounded(registry, u, e, HoldersOf(remote));
    }
  }

  lemma {:induction false} TakenTotal(
      before: Registry, after: Registry, u: UserId, e: EventType, i: nat, remote: Remote, k: Measure)
    requires Taken(before, after, u, e, i, remote)
    ensures Total(after, k) == Total(before, k) - Weight(ListOf(before, u, e)[i], k)
  {
    var cs := ListOf(before, u, e);
    TotalPut(before, u, e, cs[..i] + cs[i + 1..], k);
    ListTotalAround(cs, i, cs[i], k);
  }

  /** One holder less, if there was one, and what it held is no longer counted. */
  ghost predicate TookOne(before: Registry, after: Registry, remote: Remote) {
    var k := Total(before, HoldersOf(remote));
    && Total(after, HoldersOf(remote)) == (if k == 0 then 0 else k - 1)
    && Total(before, Listeners) - Total(before, HeldWith(remote)) ==
       Total(after, Listeners) - Total(after, HeldWith(remote))
  }

  /** A notice takes one holder, if there is one, and with it exactly what it held. */
  lemma {:induction false} NoticeTakesOne(before: Registry, after: Registry, remote: Remote)
    requires Notice(before, after, remote)
    ensures TookOne(before, after, remote)
  {
    HeldNowhereIff(before, remote);
    if u, e, i :| HoldsAt(before, u, e, i, remote) {
      var v: UserId, f: EventType, k: nat :| Taken(before, after, v, f, k, remote);
      TakenTotal(before, after, v, f, k, remote, HoldersOf(remote));
      TakenTotal(before, after, v, f, k, remote, Listeners);
      TakenTotal(before, after, v, f, k, remote, HeldWith(remote));
    }
  }

  /** The registry before and after each of a number of notices. */
  ghost predicate Notices(rs: seq<Registry>, remote: Remote) {
    rs != [] && forall j | 0 < j < |rs| :: Notice(rs[j - 1], rs[j], remote)
  }

  lemma NoticesBefore(rs: seq<Registry>, remote: Remote)
    requires Notices(rs, remote) && |rs| > 1
    ensures Notices(rs[..|rs| - 1], remote) && Notice(rs[|rs| - 2], rs[|rs| - 1], remote)
  {
  }

  /** What has happened to the sums after n notices. */
  ghost predicate TookEach(first: Registry, last: Registry, n: nat, remote: Remote) {
    var k := Total(first, HoldersOf(remote));
    && Total(last, HoldersOf(remote)) == (if n < k then k - n else 0)
    && Total(last, Listeners) - Total(last, HeldWith(remote)) ==
       Total(first, Listeners) - Total(first, HeldWith(remote))
  }

  lemma TakesOneMore(first: Registry, before: Registry, after: Registry, n: nat, remote: Remote)
    requires TookEach(first, before, n, remote) && TookOne(before, after, remote)
    ensures TookEach(first, after, n + 1, remote)
  {
  }

  lemma {:induction false} NoticesTakeEach(rs: seq<Registry>, remote: Remote)
    requires Notices(rs, remote)
    ensures TookEach(rs[0], rs[|rs| - 1], |rs| - 1, remote)
  {
    var n := |rs| - 1;
    if n == 0 {
    } else {
      NoticesBefore(rs, remote);
      NoticesTakeEach(rs[..n], remote);
      NoticeTakesOne(rs[n - 1], rs[n], remote);
      TakesOneMore(rs[0], rs[n - 1], rs[n], n - 1, remote);
    }
  }

  /**
   * Any number of notices: a dead listener that k callbacks hold is gone after k of them and not before, and
   * then exactly what those callbacks held is no longer counted.
   */
  lemma {:induction false} DeadListenerGoneAfter(rs: seq<Registry>, remote: Remote)
    requires Notices(rs, remote)
    ensures
      var n, k := |rs| - 1, Total(rs[0], HoldersOf(remote));
      && (HeldNowhere(rs[n], remote) <==> n >= k)
      && (n >= k ==> Total(rs[n], Listeners) == Total(rs[0], Listeners) - Total(rs[0], HeldWith(remote)))
  {
    NoticesTakeEach(rs, remote);
    HeldNowhereIff(rs[|rs| - 1], remote);
  }

  /** After as many notices as there are callbacks storing the remote, or more, no field of any callback holds it. */
  lemma {:induction false} NothingStoredAfter(rs: seq<Registry>, remote: Remote)
    requires Notices(rs, remote) && |rs| > Total(rs[0], HoldersOf(remote))
    ensures !IsStored(rs[|rs| - 1], remote)
  {
    DeadListenerGoneAfter(rs, remote);
    StoredIff(rs[|rs| - 1], remote);
  }

  /** The only listener is one for a job: its death empties the registry. */
  method JobListenerDies(user: UserId, pid: int, jobId: string, remote: Remote) returns (mgr: EventListenerMgr)
    ensures mgr.Valid() && mgr.counter == 0 && !IsStored(mgr.registeredListeners, remote)
  {
    mgr := new EventListenerMgr();
    var ok := mgr.RegisterPrintJobListener(user, pid, 16, jobId, Some(remote), true);
    var c := ListOf(mgr.registeredListeners, user, 16)[0];
    assert jobId in c.listeners && c.listeners[jobId] == remote;
    assert StoredAt(mgr.registeredListeners, user, 16, 0, remote);
    mgr.OnRemoteListenerDied(Some(remote));
    NothingCounted(mgr, remote);
  }

  /** The same for the listener of an extension. */
  method ExtensionListenerDies(user: UserId, pid: int, extensionId: string, remote: Remote)
    returns (mgr: EventListenerMgr)
    ensures mgr.Valid() && mgr.counter == 0 && !IsStored(mgr.registeredListeners, remote)
  {
    mgr := new EventListenerMgr();
    var ok := mgr.RegisterExtensionListener(user, pid, 7, extensionId, Some(remote));
    assert StoredAt(mgr.registeredListeners, user, 7, 0, remote);
    mgr.OnRemoteListenerDied(Some(remote));
    NothingCounted(mgr, remote);
  }

  /** What is not counted is not there: a counter of zero leaves no remote stored. */
  lemma {:induction false} NothingCounted(mgr: EventListenerMgr, remote: Remote)
    requires mgr.Valid() && mgr.counter == 0
    ensures !IsStored(mgr.registeredListeners, remote)
  {
    var registry := mgr.registeredListeners;
    if IsStored(registry, remote) {
      var u: UserId, e: EventType, i: nat :| StoredAt(registry, u, e, i, remote);
      var cs := ListOf(registry, u, e);
      HoldsIff(cs[i], remote);
      ListTotalAround(cs, i, cs[i], Listeners);
      ListTotalBounded(registry, u, e, Listeners);
    }
  }

  lemma {:induction false} SecondHolderStays(
      before: Registry, after: Registry, user: UserId, remote: Remote, u: UserId, e: EventType, i: nat, left: int)
    requires HoldsAt(before, user, 0, 0, remote) && HoldsAt(before, user, 1, 0, remote)
    requires Buried(before, after, u, e, i, remote, 2, left)
    ensures !HeldNowhere(after, remote)
  {
    DeadListenerGoneIff(before, after, u, e, i, remote, 2, left);
  }

  method RegisterForTwoEvents(mgr: EventListenerMgr, user: UserId, pid: int, remote: Remote)
    requires mgr.Valid() && mgr.registeredListeners == map[] && mgr.counter == 0
    modifies mgr
    ensures mgr.Valid() && mgr.counter == 2
    ensures HoldsAt(mgr.registeredListeners, user, 0, 0, remote) && HoldsAt(mgr.registeredListeners, user, 1, 0, remote)
  {
    var first := mgr.RegisterPrinterListener(user, pid, 0, Some(remote));
    assert ListOf(mgr.registeredListeners, user, 0) == [PrinterCallback(pid, remote)];
    assert ListOf(mgr.registeredListeners, user, 1) == [];
    var second := mgr.RegisterPrinterListener(user, pid, 1, Some(remote));
    assert ListOf(mgr.registeredListeners, user, 0) == [PrinterCallback(pid, remote)];
    assert ListOf(mgr.registeredListeners, user, 1) == [PrinterCallback(pid, remote)];
  }

  /** One remote registered for two events: after a notice of its death a callback still holds it. */
  method DeadListenerCanStay(user: UserId, pid: int, remote: Remote) returns (mgr: EventListenerMgr)
    ensures mgr.Valid() && !HeldNowhere(mgr.registeredListeners, remote)
  {
    mgr := new EventListenerMgr();
    RegisterForTwoEvents(mgr, user, pid, remote);
    ghost var before := mgr.registeredListeners;
    mgr.OnRemoteListenerDied(Some(remote));
    ghost var after := mgr.registeredListeners;
    ghost var u: UserId, e: EventType, i: nat :| Buried(before, after, u, e, i, remote, 2, mgr.counter);
    SecondHolderStays(before, after, user, remote, u, e, i, mgr.counter);
  }
}
