/** Health-aware round-robin selection: the rotation and its three checks as a function of
    what the proxies look like, and the object that performs them in place. */
module Selectors {
  import opened Int64
  import opened TokenBuckets
  import opened CircuitBreakers
  import opened ProxyClients

  datatype Selection = Selected(index: nat) | AllBusy | Cancelled

  datatype Scan = Scan(views: seq<Client>, selection: Selection)

  /** One proxy's three checks and what they leave behind. */
  function Visit(v: Client, now: int): (Client, bool) {
    if !v.Healthy(now) || !v.SlotFree() then (v, false)
    else if v.TokenReady(now) then (v.TakeSlot().AskToken(now), true)
    else (v.AskToken(now), false)
  }

  /** The rotation from round `i` on: round k looks at index (start + k) mod n at time
      `clock(k)`; the context is seen cancelled from round `cancelAt` on. */
  function ScanFrom(views: seq<Client>, start: nat, i: nat, maxRetries: int, clock: nat -> int, cancelAt: nat): (s: Scan)
    requires views != []
    ensures |s.views| == |views|
    ensures s.selection.Selected? ==> s.selection.index < |views|
    decreases maxRetries - i
  {
    if i >= maxRetries then Scan(views, AllBusy)
    else if i >= cancelAt then Scan(views, Cancelled)
    else
      var idx := (start + i) % |views|;
      var (client, chosen) := Visit(views[idx], clock(i));
      if chosen then Scan(views[idx := client], Selected(idx))
      else ScanFrom(views[idx := client], start, i + 1, maxRetries, clock, cancelAt)
  }

  /** The ticket a call draws; the counter is an unsigned 64-bit word. */
  function NextTicket(current: int): nat
    requires 0 <= current < TWO_64
  {
    (current + 1) % TWO_64
  }

  datatype NewSelector = Created(selector: RoundRobinSelector) | NoProxies

  method NewRoundRobinSelector(clients: seq<ProxyClient>, maxRetries: int) returns (r: NewSelector)
    requires Separate(clients)
    ensures r.NoProxies? <==> clients == []
    ensures r.Created? ==>
              && fresh(r.selector) && r.selector.Valid()
              && r.selector.clients == clients
              && r.selector.maxRetries == (if maxRetries == 0 then |clients| else maxRetries)
              && r.selector.currentIndex == 0
              && r.selector.totalSelections == r.selector.successSelections == r.selector.failedSelections == 0
  {
    if |clients| == 0 {
      return NoProxies;
    }
    var s := new RoundRobinSelector(clients, if maxRetries == 0 then |clients| else maxRetries);
    return Created(s);
  }

  /** Proxies are different objects and have their own rate limiters. */
  ghost predicate Separate(clients: seq<ProxyClient>) {
    forall i, j :: 0 <= i < j < |clients| ==>
      clients[i] != clients[j] && (clients[i].limiter != clients[j].limiter || clients[i].limiter == null)
  }

  ghost function Limiters(clients: seq<ProxyClient>): set<TokenBucket> {
    set c | c in clients && c.limiter != null :: c.limiter
  }

  ghost function Breakers(clients: seq<ProxyClient>): set<CircuitBreaker> {
    set c | c in clients && c.breaker != null :: c.breaker
  }

  ghost function ViewsOf(clients: seq<ProxyClient>): (v: seq<Client>)
    reads clients, Limiters(clients), Breakers(clients)
    ensures |v| == |clients|
    ensures forall i :: 0 <= i < |clients| ==> v[i] == clients[i].View()
  {
    if clients == [] then [] else
      assert forall c :: c in clients[1..] ==> c in clients;
      assert clients[0] in clients;
      [clients[0].View()] + ViewsOf(clients[1..])
  }

  /** The checks on one proxy: its health, then a slot, then a token, with the slot undone
      if the token is refused. */
  method TryClient(client: ProxyClient, now: int) returns (chosen: bool)
    requires client.SemaphoreOk()
    modifies client`slots, client.limiter
    ensures client.SemaphoreOk()
    ensures (client.View(), chosen) == Visit(old(client.View()), now)
  {
    hide Bucket.TryAcquire;
    if client.breaker != null {
      var healthy := client.breaker.IsHealthy(now);
      if !healthy {
        return false;
      }
    }
    var slot := client.TryAcquireConcurrency();
    if !slot {
      return false;
    }
    if client.limiter != null {
      var granted := client.limiter.TryAcquire(now);
      if !granted {
        client.ReleaseConcurrency();
        return false;
      }
    }
    return true;
  }

  class RoundRobinSelector {
    const clients: seq<ProxyClient>
    const maxRetries: int
    var currentIndex: int
    var totalSelections: int
    var successSelections: int
    var failedSelections: int

    ghost predicate Valid()
      reads this
    {
      && clients != [] && Separate(clients)
      && 0 <= currentIndex < TWO_64
      && totalSelections == successSelections + failedSelections
    }

    constructor (clients: seq<ProxyClient>, maxRetries: int)
      requires clients != [] && Separate(clients)
      ensures Valid() && this.clients == clients && this.maxRetries == maxRetries
      ensures currentIndex == 0 && totalSelections == successSelections == failedSelections == 0
    {
      this.clients := clients;
      this.maxRetries := maxRetries;
      currentIndex := 0;
      totalSelections, successSelections, failedSelections := 0, 0, 0;
    }

    ghost predicate SemaphoresOk()
      reads clients
    {
      forall c :: c in clients ==> c.SemaphoreOk()
    }

    /** Selects a proxy, on which it leaves a slot and a token taken. */
    method Select(clock: nat -> int, cancelAt: nat) returns (client: ProxyClient?, selection: Selection)
      requires Valid() && SemaphoresOk()
      modifies this, (set c: ProxyClient | c in clients)`slots, Limiters(clients)
      ensures Valid() && SemaphoresOk()
      ensures currentIndex == NextTicket(old(currentIndex))
      ensures Scan(ViewsOf(clients), selection)
              == ScanFrom(old(ViewsOf(clients)), currentIndex % |clients|, 0, maxRetries, clock, cancelAt)
      ensures if selection.Selected? then selection.index < |clients| && client == clients[selection.index]
              else client == null
      ensures totalSelections == old(totalSelections) + 1
      ensures successSelections == old(successSelections) + if selection.Selected? then 1 else 0
    {
      hide ScanFrom, ViewsOf;
      totalSelections := totalSelections + 1;
      currentIndex := (currentIndex + 1) % TWO_64;
      assert ViewsOf(clients) == old(ViewsOf(clients));
      client, selection := Rotate(currentIndex % |clients|, clock, cancelAt);
      if selection.Selected? {
        successSelections := successSelections + 1;
      } else {
        failedSelections := failedSelections + 1;
      }
    }

    /** The retry loop of Select. */
    method Rotate(startIdx: nat, clock: nat -> int, cancelAt: nat) returns (client: ProxyClient?, selection: Selection)
      requires clients != [] && Separate(clients) && SemaphoresOk()
      modifies (set c: ProxyClient | c in clients)`slots, Limiters(clients)
      ensures SemaphoresOk()
      ensures Scan(ViewsOf(clients), selection)
              == ScanFrom(old(ViewsOf(clients)), startIdx, 0, maxRetries, clock, cancelAt)
      ensures if selection.Selected? then selection.index < |clients| && client == clients[selection.index]
              else client == null
    {
      hide Visit, ViewsOf;
      ghost var result := ScanFrom(ViewsOf(clients), startIdx, 0, maxRetries, clock, cancelAt);
      var i: nat := 0;
      while i < maxRetries
        invariant SemaphoresOk()
        invariant result == ScanFrom(ViewsOf(clients), startIdx, i, maxRetries, clock, cancelAt)
      {
        if i >= cancelAt {
          return null, Cancelled;
        }
        var idx := (startIdx + i) % |clients|;
        var chosen := TryAt(idx, clock(i));
        if chosen {
          return clients[idx], Selected(idx);
        }
        i := i + 1;
      }
      return null, AllBusy;
    }

    /** Visits one index of the rotation; every other proxy is left as it was. */
    method TryAt(idx: nat, now: int) returns (chosen: bool)
      requires Separate(clients) && SemaphoresOk() && idx < |clients|
      modifies (set c: ProxyClient | c in clients)`slots, Limiters(clients)
      ensures SemaphoresOk()
      ensures var v := old(ViewsOf(clients));
              var (client, ok) := Visit(v[idx], now);
              chosen == ok && ViewsOf(clients) == v[idx := client]
    {
      hide Visit, ViewsOf;
      var client := clients[idx];
      ghost var v := ViewsOf(clients);
      chosen := TryClient(client, now);
      forall j | 0 <= j < |clients| && j != idx
        ensures clients[j].View() == v[j]
      {
        assert clients[j] != client;
      }
    }
  }
}
