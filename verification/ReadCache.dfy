/** The private read cache of the interview client: `readCached`, `invalidateReads`, and the
    invalidation around progress-changing writes in `request`.  JavaScript runs each callback to
    its end, so every callback is one step. */
module ReadCache {
  import opened Outcomes

  type Account = nat

  type RequestId = nat

  const READ_CACHE_MS := 300000

  /** The storage key of a private view: "pc_read_v1:" account ":" path. */
  datatype Key = Key(account: Account, path: string)

  /** A stored view.  `requestedBy` and `requestedAt` are not in the source's entry: they record who
      sent the request the data came from, and at which step. */
  datatype Entry = Entry(data: string, at: int, generation: nat, requestedBy: Account, requestedAt: nat)

  /** What the response callback of a request has captured, and the step it was sent at. */
  datatype Request = Request(key: Key, generation: nat, sentAt: nat)

  /** What an update callback has captured: the request it waits for, and the reader's generation and
      account. */
  datatype Listener = Listener(request: RequestId, generation: nat, account: Account)

  /** Session storage and page memory.  `account` is the stored user, `loggedIn` an access token. */
  datatype Client = Client(generation: nat, entries: map<Key, Entry>, pending: map<Key, RequestId>,
                           account: Option<Account>, loggedIn: bool)

  // ---------- The callbacks ----------

  /** `invalidateReads`. */
  function Invalidated(c: Client): Client {
    c.(generation := c.generation + 1, entries := map[], pending := map[])
  }

  /** Who a private read would be cached for; None sends it straight to the server. */
  function Reader(c: Client): Option<Account> {
    if c.loggedIn then c.account else None
  }

  function Fresh(c: Client, key: Key, now: int): bool {
    key in c.entries && c.entries[key].generation == c.generation && now - c.entries[key].at < READ_CACHE_MS
  }

  /** The view `readCached` answers from the cache, if it does. */
  function Served(c: Client, path: string, now: int): Option<Entry> {
    if Reader(c).Some? && Fresh(c, Key(Reader(c).value, path), now)
    then Some(c.entries[Key(Reader(c).value, path)]) else None
  }

  predicate MayStore(c: Client, r: Request) {
    r.generation == c.generation && c.loggedIn && c.account == Some(r.key.account)
  }

  function Stored(c: Client, r: Request, data: string, now: int): Client {
    if MayStore(c, r)
    then c.(entries := c.entries[r.key := Entry(data, now, r.generation, r.key.account, r.sentAt)]) else c
  }

  function Settled(c: Client, r: Request, id: RequestId): Client {
    if r.key in c.pending && c.pending[r.key] == id then c.(pending := c.pending - {r.key}) else c
  }

  predicate MayUpdate(c: Client, l: Listener) {
    l.generation == c.generation && c.loggedIn && c.account == Some(l.account)
  }

  // ---------- Interleavings ----------

  /** `requests` are in flight; `steps` counts steps; `lastInvalidation` and `lastWrite` are the step
      counts just after the latest invalidation and the latest completed progress-changing write. */
  datatype World = World(client: Client, requests: map<RequestId, Request>, listeners: set<Listener>, clock: int,
                         steps: nat, lastInvalidation: nat, lastWrite: nat)

  const START: World := World(Client(0, map[], map[], None, false), map[], {}, 0, 0, 0, 0)

  datatype Event =
    | Tick(milliseconds: nat)
    | Login(account: Account)
    | Logout
    | Invalidate
    | Read(path: string, id: RequestId, watches: bool)
    | Respond(id: RequestId, data: string)
    | Settle(id: RequestId)
    | WriteBegins
    | WriteEnds
    | Reload

  function Invalidates(w: World): World {
    w.(client := Invalidated(w.client), lastInvalidation := w.steps)
  }

  /** The effect of one callback on the step-counted world. */
  function Effect(w: World, e: Event): World {
    match e
    case Tick(milliseconds) => w.(clock := w.clock + milliseconds)
    case Login(account) => w.(client := w.client.(account := Some(account), loggedIn := true))
    case Logout => var w' := Invalidates(w); w'.(client := w'.client.(account := None, loggedIn := false))
    case Invalidate => Invalidates(w)
    case Read(path, id, watches) =>
      if Reader(w.client).None? || id in w.requests then w
      else
        var account := Reader(w.client).value;
        var key := Key(account, path);
        var joined := if key in w.client.pending then w.client.pending[key] else id;
        var sent := if key in w.client.pending then w
                    else w.(client := w.client.(pending := w.client.pending[key := id]),
                            requests := w.requests[id := Request(key, w.client.generation, w.steps)]);
        if watches && Fresh(w.client, key, w.clock)
        then sent.(listeners := sent.listeners + {Listener(joined, w.client.generation, account)}) else sent
    case Respond(id, data) =>
      if id !in w.requests then w else w.(client := Stored(w.client, w.requests[id], data, w.clock))
    case Settle(id) =>
      if id !in w.requests then w else w.(client := Settled(w.client, w.requests[id], id))
    case WriteBegins => Invalidates(w)
    case WriteEnds => Invalidates(w).(lastWrite := w.steps)
    case Reload => w.(client := w.client.(pending := map[]), listeners := {})
  }

  function Step(w: World, e: Event): World {
    Effect(w.(steps := w.steps + 1), e)
  }

  function Run(w: World, events: seq<Event>): World {
    if events == [] then w else Step(Run(w, events[..|events| - 1]), events[|events| - 1])
  }

  /** Nothing of the present generation was requested before the last invalidation, and only the
      present generation is stored or joined. */
  ghost predicate Good(w: World) {
    && w.lastWrite <= w.lastInvalidation <= w.steps
    && (forall k :: k in w.client.entries ==> EntryOk(w, k))
    && (forall r :: r in w.requests ==> RequestOk(w, w.requests[r]))
    && (forall k :: k in w.client.pending ==>
          w.client.pending[k] in w.requests && JoinOk(w, k, w.requests[w.client.pending[k]]))
    && (forall l :: l in w.listeners ==> l.request in w.requests && ListenerOk(w, l, w.requests[l.request]))
  }

  ghost predicate EntryOk(w: World, k: Key)
    requires k in w.client.entries
  {
    var e := w.client.entries[k];
    e.generation == w.client.generation && e.requestedBy == k.account && w.lastInvalidation < e.requestedAt <= w.steps
  }

  ghost predicate RequestOk(w: World, r: Request) {
    r.generation <= w.client.generation && r.sentAt <= w.steps &&
    (r.generation == w.client.generation ==> w.lastInvalidation < r.sentAt)
  }

  ghost predicate JoinOk(w: World, k: Key, r: Request) {
    r.key == k && r.generation == w.client.generation
  }

  ghost predicate ListenerOk(w: World, l: Listener, r: Request) {
    l.generation <= w.client.generation && r.generation == l.generation && r.key.account == l.account
  }

  lemma InvalidatesGood(w: World)
    requires Good(w)
    ensures Good(Invalidates(w.(steps := w.steps + 1)))
  {
    var w' := Invalidates(w.(steps := w.steps + 1));
    forall r | r in w'.requests ensures RequestOk(w', w'.requests[r]) { assert RequestOk(w, w.requests[r]); }
    forall l | l in w'.listeners ensures ListenerOk(w', l, w'.requests[l.request]) {
      assert ListenerOk(w, l, w.requests[l.request]);
    }
  }

  lemma ReadGood(w: World, path: string, id: RequestId, watches: bool)
    requires Good(w)
    ensures Good(Step(w, Read(path, id, watches)))
  {
    var w' := Step(w, Read(path, id, watches));
    forall k | k in w'.client.entries ensures EntryOk(w', k) { assert EntryOk(w, k); }
    forall r | r in w'.requests ensures RequestOk(w', w'.requests[r]) {
      if r in w.requests { assert RequestOk(w, w.requests[r]); }
    }
    forall k | k in w'.client.pending
      ensures w'.client.pending[k] in w'.requests && JoinOk(w', k, w'.requests[w'.client.pending[k]])
    {
      if k in w.client.pending { assert JoinOk(w, k, w.requests[w.client.pending[k]]); }
    }
    forall l | l in w'.listeners ensures l.request in w'.requests && ListenerOk(w', l, w'.requests[l.request]) {
      if l in w.listeners { assert ListenerOk(w, l, w.requests[l.request]); }
    }
  }

  /** The steps that leave the generation alone and add nothing but, perhaps, one stored view. */
  lemma QuietGood(w: World, e: Event)
    requires Good(w) && (e.Tick? || e.Login? || e.Respond? || e.Settle? || e.Reload?)
    ensures Good(Step(w, e))
  {
    var w' := Step(w, e);
    forall k | k in w'.client.entries ensures EntryOk(w', k) {
      if e.Respond? && e.id in w.requests { assert RequestOk(w, w.requests[e.id]); }
      if k in w.client.entries { assert EntryOk(w, k); }
    }
    forall r | r in w'.requests ensures RequestOk(w', w'.requests[r]) { assert RequestOk(w, w.requests[r]); }
    forall k | k in w'.client.pending ensures JoinOk(w', k, w'.requests[w'.client.pending[k]]) {
      assert JoinOk(w, k, w.requests[w.client.pending[k]]);
    }
    forall l | l in w'.listeners ensures ListenerOk(w', l, w'.requests[l.request]) {
      assert ListenerOk(w, l, w.requests[l.request]);
    }
  }

  lemma StepGood(w: World, e: Event)
    requires Good(w)
    ensures Good(Step(w, e))
  {
    match e
    case Logout =>
      InvalidatesGood(w);
      var x := Invalidates(w.(steps := w.steps + 1));
      forall r | r in x.requests ensures RequestOk(Step(w, e), x.requests[r]) { assert RequestOk(x, x.requests[r]); }
      forall l | l in x.listeners ensures ListenerOk(Step(w, e), l, x.requests[l.request]) {
        assert ListenerOk(x, l, x.requests[l.request]);
      }
    case Invalidate => InvalidatesGood(w);
    case WriteBegins => InvalidatesGood(w);
    case WriteEnds =>
      InvalidatesGood(w);
      var x := Invalidates(w.(steps := w.steps + 1));
      forall r | r in x.requests ensures RequestOk(Step(w, e), x.requests[r]) { assert RequestOk(x, x.requests[r]); }
      forall l | l in x.listeners ensures ListenerOk(Step(w, e), l, x.requests[l.request]) {
        assert ListenerOk(x, l, x.requests[l.request]);
      }
    case Read(path, id, watches) => ReadGood(w, path, id, watches);
    case _ => QuietGood(w, e);
  }

  lemma {:induction false} RunGood(w: World, events: seq<Event>)
    requires Good(w)
    ensures Good(Run(w, events))
  {
    if events == [] {
    } else {
      RunGood(w, events[..|events| - 1]);
      StepGood(Run(w, events[..|events| - 1]), events[|events| - 1]);
    }
  }

  /** Coherence, over every interleaving: a private view served from the cache was requested by the
      signed-in account, after the latest invalidation, hence after the latest progress-changing
      write completed. */
  lemma ServedViewsAreCurrent(events: seq<Event>, path: string)
    ensures var w := Run(START, events);
            var served := Served(w.client, path, w.clock);
            served.Some? ==>
              && w.client.account == Some(served.value.requestedBy)
              && w.lastWrite <= w.lastInvalidation < served.value.requestedAt
              && w.clock - served.value.at < READ_CACHE_MS
  {
    RunGood(START, events);
    var w := Run(START, events);
    if Served(w.client, path, w.clock).Some? { assert EntryOk(w, Key(Reader(w.client).value, path)); }
  }

  /** The same of a request that a new read joins instead of sending its own. */
  lemma JoinedRequestsAreCurrent(events: seq<Event>, path: string)
    ensures var w := Run(START, events);
            Reader(w.client).Some? && Key(Reader(w.client).value, path) in w.client.pending ==>
              var id := w.client.pending[Key(Reader(w.client).value, path)];
              && id in w.requests
              && w.requests[id].key == Key(Reader(w.client).value, path)
              && w.lastWrite <= w.lastInvalidation < w.requests[id].sentAt
  {
    RunGood(START, events);
    var w := Run(START, events);
    if Reader(w.client).Some? && Key(Reader(w.client).value, path) in w.client.pending {
      var k := Key(Reader(w.client).value, path);
      assert JoinOk(w, k, w.requests[w.client.pending[k]]) && RequestOk(w, w.requests[w.client.pending[k]]);
    }
  }

  /** And of the response with which a late update callback may replace a cached view. */
  lemma UpdatesAreCurrent(events: seq<Event>, l: Listener)
    ensures var w := Run(START, events);
            l in w.listeners && MayUpdate(w.client, l) ==>
              && l.request in w.requests
              && w.client.loggedIn && w.client.account == Some(w.requests[l.request].key.account)
              && w.lastWrite <= w.lastInvalidation < w.requests[l.request].sentAt
  {
    RunGood(START, events);
    var w := Run(START, events);
    if l in w.listeners && MayUpdate(w.client, l) {
      assert ListenerOk(w, l, w.requests[l.request]) && RequestOk(w, w.requests[l.request]);
    }
  }

  // ---------- The cache does serve ----------

  /** The steps that drop or change the reader's views: invalidations, logging out, and logging in as
      someone else. */
  predicate Disturbs(e: Event, account: Account) {
    e.Logout? || e.Invalidate? || e.WriteBegins? || e.WriteEnds? || (e.Login? && e.account != account)
  }

  /** Event e is an answer that is stored under the key. */
  predicate Answers(w: World, e: Event, key: Key) {
    e.Respond? && e.id in w.requests && w.requests[e.id].key == key && MayStore(w.client, w.requests[e.id])
  }

  /** The data of the latest answer stored under the key, or `first` if there is none. */
  function LatestAnswer(w: World, events: seq<Event>, key: Key, first: string): string {
    if events == [] then first
    else
      var front, e := events[..|events| - 1], events[|events| - 1];
      if Answers(Run(w, front), e, key) then e.data else LatestAnswer(w, front, key, first)
  }

  /** The signed-in reader has a view of the present generation under the key, stored at or after
      `since`. */
  ghost predicate HasView(w: World, key: Key, data: string, since: int) {
    && w.client.loggedIn && w.client.account == Some(key.account)
    && key in w.client.entries && w.client.entries[key].data == data
    && w.client.entries[key].generation == w.client.generation
    && since <= w.client.entries[key].at && since <= w.clock
  }

  lemma StepKeepsView(w: World, e: Event, key: Key, data: string, since: int)
    requires HasView(w, key, data, since) && !Disturbs(e, key.account)
    ensures HasView(Step(w, e), key, if Answers(w, e, key) then e.data else data, since)
  {
  }

  lemma {:induction false} ViewIsKept(w: World, events: seq<Event>, key: Key, data: string, since: int)
    requires HasView(w, key, data, since) && forall k :: 0 <= k < |events| ==> !Disturbs(events[k], key.account)
    ensures HasView(Run(w, events), key, LatestAnswer(w, events, key, data), since)
  {
    if events == [] {
    } else {
      var front := events[..|events| - 1];
      ViewIsKept(w, front, key, data, since);
      StepKeepsView(Run(w, front), events[|events| - 1], key, LatestAnswer(w, front, key, data), since);
    }
  }

  /** A response that comes in the generation and for the account of its request is served to every read
      of that view for the next five minutes, whatever happens in between short of an invalidation or
      a change of account; a later answer for the same view replaces it. */
  lemma AnsweredReadIsServed(w: World, id: RequestId, data: string, events: seq<Event>)
    requires id in w.requests && MayStore(w.client, w.requests[id])
    requires forall k :: 0 <= k < |events| ==> !Disturbs(events[k], w.requests[id].key.account)
    requires Run(Step(w, Respond(id, data)), events).clock - w.clock < READ_CACHE_MS
    ensures var answered, key := Step(w, Respond(id, data)), w.requests[id].key;
            var later := Run(answered, events);
            var served := Served(later.client, key.path, later.clock);
            served.Some? && served.value.at >= w.clock && served.value.data == LatestAnswer(answered, events, key, data)
  {
    ViewIsKept(Step(w, Respond(id, data)), events, w.requests[id].key, data, w.clock);
  }

  // ---------- What an invalidation ends ----------

  /** The steps that invalidate: on demand, on logging out, and both before and after a
      progress-changing write. */
  predicate Clears(e: Event) {
    e.Invalidate? || e.Logout? || e.WriteBegins? || e.WriteEnds?
  }

  lemma {:induction false} GenerationsGrow(w: World, events: seq<Event>)
    ensures Run(w, events).client.generation >= w.client.generation
  {
    if events == [] {
    } else {
      GenerationsGrow(w, events[..|events| - 1]);
    }
  }

  /** An invalidation leaves nothing to serve or to join, and whatever was asked before it is never stored
      afterwards: no later read sees it. */
  lemma InvalidationEndsRequests(w: World, e: Event, events: seq<Event>, r: RequestId, path: string, now: int)
    requires Good(w) && Clears(e) && r in w.requests
    ensures var cleared := Step(w, e);
            var later := Run(cleared, events);
            && Served(cleared.client, path, now).None? && cleared.client.pending == map[]
            && !MayStore(later.client, w.requests[r])
            && (e.Logout? ==> Reader(cleared.client).None?)
  {
    assert RequestOk(w, w.requests[r]);
    GenerationsGrow(Step(w, e), events);
  }

  /** A request that has settled is joined no more, whatever became of it; other requests stay. */
  lemma SettledIsNotJoined(w: World, id: RequestId, k: Key)
    requires Good(w) && id in w.requests
    ensures var pending := Step(w, Settle(id)).client.pending;
            && (k in pending <==> k in w.client.pending && w.client.pending[k] != id)
            && (k in pending ==> pending[k] == w.client.pending[k])
  {
    if k in w.client.pending { assert JoinOk(w, k, w.requests[w.client.pending[k]]); }
  }

  /** Reads of one view share one request until it settles or an invalidation comes: a read that finds one
      pending sends none, and one that finds none sends its own. */
  lemma ReadsShareRequests(w: World, path: string, id: RequestId, watches: bool)
    requires Good(w) && id !in w.requests && w.client.loggedIn && w.client.account.Some?
    ensures var w', k := Step(w, Read(path, id, watches)), Key(w.client.account.value, path);
            && k in w'.client.pending
            && (k in w.client.pending ==> w'.client.pending == w.client.pending && w'.requests == w.requests)
            && (k !in w.client.pending ==> w'.client.pending == w.client.pending[k := id] && id in w'.requests
                                           && w'.requests[id] == Request(k, w.client.generation, w'.steps))
  {
  }

  // ---------- Late updates, and the session ----------

  /** A read that watches registers for its request exactly if it is answered from the cache. */
  lemma WatchingRegisters(w: World, path: string, id: RequestId, watches: bool)
    requires id !in w.requests && w.client.loggedIn && w.client.account.Some?
    ensures var w', k := Step(w, Read(path, id, watches)), Key(w.client.account.value, path);
            && k in w'.client.pending
            && w'.listeners == w.listeners +
               if watches && Served(w.client, path, w.clock).Some?
               then {Listener(w'.client.pending[k], w.client.generation, w.client.account.value)} else {}
  {
  }

  /** The reader of the present generation waits for an update. */
  ghost predicate Awaits(w: World, l: Listener) {
    l in w.listeners && l.generation == w.client.generation && w.client.loggedIn && w.client.account == Some(l.account)
  }

  /** A late update is let through as long as nothing invalidates, nobody else signs in and the page stays,
      and never again after an invalidation. */
  lemma {:induction false} UpdatesUntilDisturbed(w: World, events: seq<Event>, l: Listener)
    requires Awaits(w, l) && forall k :: 0 <= k < |events| ==> !Disturbs(events[k], l.account) && !events[k].Reload?
    ensures Awaits(Run(w, events), l) && MayUpdate(Run(w, events).client, l)
  {
    if events == [] {
    } else {
      UpdatesUntilDisturbed(w, events[..|events| - 1], l);
    }
  }

  lemma InvalidationEndsUpdates(w: World, e: Event, events: seq<Event>, l: Listener)
    requires Good(w) && Clears(e) && l in w.listeners
    ensures !MayUpdate(Run(Step(w, e), events).client, l)
  {
    assert ListenerOk(w, l, w.requests[l.request]);
    GenerationsGrow(Step(w, e), events);
  }

  /** Signing in and out, and loading the page again, which forgets what is pending and keeps the views. */
  lemma SessionSteps(w: World, account: Account)
    ensures Step(w, Login(account)).client == w.client.(account := Some(account), loggedIn := true)
    ensures var out := Step(w, Logout).client;
            out.account.None? && !out.loggedIn && out.generation > w.client.generation
    ensures var reloaded := Step(w, Reload);
            && reloaded.client.pending == map[] && reloaded.listeners == {}
            && reloaded.client.entries == w.client.entries && reloaded.client.generation == w.client.generation
  {
  }

  // ---------- The object ----------

  class InterviewApi {
    var generation: nat
    var entries: map<Key, Entry>
    var pending: map<Key, RequestId>
    var account: Option<Account>
    var loggedIn: bool

    function State(): Client
      reads this
    {
      Client(generation, entries, pending, account, loggedIn)
    }

    constructor ()
      ensures State() == START.client
    {
      generation, entries, pending, account, loggedIn := 0, map[], map[], None, false;
    }

    method InvalidateReads()
      modifies this
      ensures State() == Invalidated(old(State()))
    {
      generation := generation + 1;
      entries := map[];
      pending := map[];
    }

    /** The part of `readCached` before its first wait: the cached view to return at once, if any;
        the request it joins or sends for the cache, if it has a reader to cache for; and whether it
        sends a request of its own. */
    method BeginRead(path: string, id: RequestId, now: int, ghost w: World)
      returns (cached: Option<Entry>, joined: Option<RequestId>, sent: bool)
      requires w.client == State() && w.clock == now && id !in w.requests
      modifies this`pending
      ensures State() == Step(w, Read(path, id, false)).client
      ensures cached == Served(old(State()), path, now)
      ensures joined.Some? <==> Reader(old(State())).Some?
      ensures joined.Some? ==> Key(account.value, path) in pending && joined.value == pending[Key(account.value, path)]
      ensures sent <==> joined.None? || Key(account.value, path) !in old(pending)
    {
      if account.None? || !loggedIn { return None, None, true; }
      var key := Key(account.value, path);
      cached := if key in entries then Some(entries[key]) else None;
      sent := key !in pending;
      if sent { pending := pending[key := id]; }
      joined := Some(pending[key]);
      if cached.Some? && !(cached.value.generation == generation && now - cached.value.at < READ_CACHE_MS) {
        cached := None;
      }
    }

    /** The response callback. */
    method OnResponse(r: Request, data: string, now: int)
      modifies this`entries
      ensures State() == Stored(old(State()), r, data, now)
    {
      if r.generation == generation && account == Some(r.key.account) && loggedIn {
        entries := entries[r.key := Entry(data, now, r.generation, r.key.account, r.sentAt)];
      }
    }

    /** The `finally` callback. */
    method OnSettled(r: Request, id: RequestId)
      modifies this`pending
      ensures State() == Settled(old(State()), r, id)
    {
      if r.key in pending && pending[r.key] == id { pending := pending - {r.key}; }
    }
  }
}
