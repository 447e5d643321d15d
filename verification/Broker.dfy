// The PassFF broker (passff-shared/daemon.py, PassffBroker) as the atomic
// segments its coroutines run between two awaits, in any interleaving.
module Broker {
  import opened Wrappers

  type Key = seq<string>

  datatype Response = Response(exitCode: Option<int>, fields: map<string, string>)

  datatype Entry = Entry(expires: nat, obj: nat)

  // `said` remembers what the runner answered; `obj` is the object it is held in.
  datatype Progress = Queued | Running | Returned(obj: nat, said: Response) | Raised

  // A metadata scan has a key; a plain request has none.
  datatype Task = Task(key: Option<Key>, progress: Progress)

  datatype Status = Awaiting | Served(obj: nat) | Failed | Cancelled

  // One call of `handle`. It has no task when the cache answered it.
  datatype Client = Client(key: Option<Key>, task: Option<nat>, status: Status)

  datatype Stored = Stored(key: Key, response: Response, at: nat)

  // Tasks, clients and response objects are named by their index. `callbacks`
  // are the scans whose done-callback has not run; `stores` is history.
  datatype State = State(
    now: nat, ttl: nat,
    lock: Option<nat>,
    cache: map<Key, Entry>,
    inflight: map<Key, nat>,
    callbacks: set<nat>,
    tasks: seq<Task>,
    clients: seq<Client>,
    heap: seq<Response>,
    stores: seq<Stored>)

  datatype Action =
    | Tick(to: nat)
    | Handle(key: Option<Key>)
    | Acquire(task: nat)
    | Return(task: nat, response: Response)
    | Raise(task: nat)
    | DropInflight(task: nat)
    | Resume(client: nat)
    | Cancel(client: nat)                        // a waiter times out or disconnects
    | Mutate(client: nat, response: Response)    // a served client writes to its response

  predicate Over(t: Task) {
    t.progress.Returned? || t.progress.Raised?
  }

  predicate Enabled(s: State, a: Action) {
    match a
    case Tick(to) => s.now <= to
    case Handle(_) => true
    case Acquire(t) => t < |s.tasks| && s.tasks[t].progress.Queued? && s.lock.None?
    case Return(t, _) => t < |s.tasks| && s.tasks[t].progress.Running?
    case Raise(t) => t < |s.tasks| && s.tasks[t].progress.Running?
    case DropInflight(t) => t in s.callbacks && t < |s.tasks| && s.tasks[t].key.Some? && Over(s.tasks[t])
    case Resume(c) =>
      && c < |s.clients| && s.clients[c].status.Awaiting?
      && s.clients[c].task.Some? && s.clients[c].task.value < |s.tasks| && Over(s.tasks[s.clients[c].task.value])
    case Cancel(c) =>
      && c < |s.clients| && s.clients[c].status.Awaiting?
      && s.clients[c].task.Some? && s.clients[c].task.value < |s.tasks|
    case Mutate(c, _) => c < |s.clients| && s.clients[c].status.Served? && s.clients[c].status.obj < |s.heap|
  }

  // The deep copy's contents.
  function Content(s: State, obj: nat): Response {
    if obj < |s.heap| then s.heap[obj] else Response(None, map[])
  }

  predicate Hit(s: State, k: Key) {
    k in s.cache && s.now < s.cache[k].expires
  }

  function AfterHandle(s: State, key: Option<Key>): State {
    match key
    case None =>
      s.(tasks := s.tasks + [Task(None, Queued)], clients := s.clients + [Client(None, Some(|s.tasks|), Awaiting)])
    case Some(k) =>
      if Hit(s, k) then
        s.(heap := s.heap + [Content(s, s.cache[k].obj)],
           clients := s.clients + [Client(key, None, Served(|s.heap|))])
      else if k in s.inflight then
        s.(cache := s.cache - {k}, clients := s.clients + [Client(key, Some(s.inflight[k]), Awaiting)])
      else
        s.(cache := s.cache - {k},
           tasks := s.tasks + [Task(key, Queued)],
           inflight := s.inflight[k := |s.tasks|],
           callbacks := s.callbacks + {|s.tasks|},
           clients := s.clients + [Client(key, Some(|s.tasks|), Awaiting)])
  }

  function Moved(s: State, t: nat, p: Progress): seq<Task>
    requires t < |s.tasks|
  {
    s.tasks[t := s.tasks[t].(progress := p)]
  }

  function AfterReturn(s: State, t: nat, response: Response): State
    requires t < |s.tasks|
  {
    var done := s.(lock := None, tasks := Moved(s, t, Returned(|s.heap|, response)), heap := s.heap + [response]);
    match s.tasks[t].key
    case None => done
    case Some(k) =>
      if response.exitCode == Some(0) then
        done.(cache := s.cache[k := Entry(s.now + s.ttl, |s.heap| + 1)],
              heap := s.heap + [response, response],
              stores := s.stores + [Stored(k, response, s.now)])
      else done
  }

  // Removing the in-flight entry of a key only while it is this task.
  function Dropped(s: State, key: Option<Key>, t: nat): map<Key, nat> {
    if key.Some? && Lookup(s.inflight, key.value) == Some(t) then s.inflight - {key.value} else s.inflight
  }

  function Leave(s: State, c: nat, status: Status): State
    requires Enabled(s, Cancel(c))
  {
    var t := s.clients[c].task.value;
    s.(clients := s.clients[c := s.clients[c].(status := status)],
       inflight := if Over(s.tasks[t]) then Dropped(s, s.clients[c].key, t) else s.inflight)
  }

  function AfterResume(s: State, c: nat): State
    requires Enabled(s, Resume(c))
  {
    match s.tasks[s.clients[c].task.value].progress
    case Returned(obj, _) =>
      if s.clients[c].key.None? then Leave(s, c, Served(obj))
      else Leave(s, c, Served(|s.heap|)).(heap := s.heap + [Content(s, obj)])
    case _ => Leave(s, c, Failed)
  }

  function After(s: State, a: Action): State
    requires Enabled(s, a)
  {
    match a
    case Tick(to) => s.(now := to)
    case Handle(key) => AfterHandle(s, key)
    case Acquire(t) => s.(lock := Some(t), tasks := Moved(s, t, Running))
    case Return(t, response) => AfterReturn(s, t, response)
    case Raise(t) => s.(lock := None, tasks := Moved(s, t, Raised))
    case DropInflight(t) => s.(callbacks := s.callbacks - {t}, inflight := Dropped(s, s.tasks[t].key, t))
    case Resume(c) => AfterResume(s, c)
    case Cancel(c) => Leave(s, c, Cancelled)
    case Mutate(c, response) => s.(heap := s.heap[s.clients[c].status.obj := response])
  }

  // ---- the broker object ---------------------------------------------------------

  class PassffBroker {
    const ttl: nat
    var now: nat
    var lock: Option<nat>
    var cache: map<Key, Entry>
    var inflight: map<Key, nat>
    var callbacks: set<nat>
    var tasks: seq<Task>
    var clients: seq<Client>
    var heap: seq<Response>
    ghost var stores: seq<Stored>

    constructor (ttl: nat, now: nat)
      ensures Snapshot() == Started(now, ttl)
    {
      this.ttl, this.now, lock := ttl, now, None;
      cache, inflight, callbacks := map[], map[], {};
      tasks, clients, heap, stores := [], [], [], [];
    }

    ghost function Snapshot(): State
      reads this
    {
      State(now, ttl, lock, cache, inflight, callbacks, tasks, clients, heap, stores)
    }

    // `handle` up to its first await.
    method Handle(key: Option<Key>)
      modifies this
      ensures Snapshot() == After(old(Snapshot()), Action.Handle(key))
    {
      ghost var before := Snapshot();
      if key.None? {
        tasks := tasks + [Task(None, Queued)];
        clients := clients + [Client(None, Some(|tasks| - 1), Awaiting)];
        return;
      }
      var k := key.value;
      if k in cache {
        var entry := cache[k];
        if now < entry.expires {
          var copied := if entry.obj < |heap| then heap[entry.obj] else Response(None, map[]);
          heap := heap + [copied];
          clients := clients + [Client(key, None, Served(|heap| - 1))];
          return;
        }
        cache := cache - {k};
      }
      assert cache == before.cache - {k};
      if k !in inflight {
        tasks := tasks + [Task(key, Queued)];
        inflight := inflight[k := |tasks| - 1];
        callbacks := callbacks + {|tasks| - 1};
      }
      clients := clients + [Client(key, Some(inflight[k]), Awaiting)];
    }

    method Acquire(task: nat)
      requires Enabled(Snapshot(), Action.Acquire(task))
      modifies this`lock, this`tasks
      ensures Snapshot() == After(old(Snapshot()), Action.Acquire(task))
    {
      lock := Some(task);
      tasks := tasks[task := tasks[task].(progress := Running)];
    }

    // The rest of `_run_serialized` or `_run_metadata_scan`: the runner is back
    // with a response, or with an exception.
    method Return(task: nat, response: Option<Response>)
      requires task < |tasks| && tasks[task].progress.Running?
      modifies this
      ensures Snapshot() == After(old(Snapshot()),
                                  if response.Some? then Action.Return(task, response.value) else Action.Raise(task))
    {
      ghost var before := Snapshot();
      lock := None;
      if response.None? {
        tasks := tasks[task := tasks[task].(progress := Raised)];
        return;
      }
      heap := heap + [response.value];
      var result := |heap| - 1;
      if tasks[task].key.Some? && response.value.exitCode == Some(0) {
        heap := heap + [response.value];
        cache := cache[tasks[task].key.value := Entry(now + ttl, |heap| - 1)];
        stores := stores + [Stored(tasks[task].key.value, response.value, now)];
        assert heap == before.heap + [response.value, response.value];
      }
      tasks := tasks[task := tasks[task].(progress := Returned(result, response.value))];
    }

    method DropInflight(task: nat)
      requires Enabled(Snapshot(), Action.DropInflight(task))
      modifies this`inflight, this`callbacks
      ensures Snapshot() == After(old(Snapshot()), Action.DropInflight(task))
    {
      callbacks := callbacks - {task};
      DropEntry(tasks[task].key.value, task);
    }

    method DropEntry(key: Key, task: nat)
      modifies this`inflight
      ensures inflight == Dropped(old(Snapshot()), Some(key), task)
    {
      if key in inflight && inflight[key] == task {
        inflight := inflight - {key};
      }
    }

    // `handle` from its await to its end: its answer is there, or the waiter is
    // cancelled.
    method Finish(client: nat, cancelled: bool)
      requires Enabled(Snapshot(), if cancelled then Action.Cancel(client) else Action.Resume(client))
      modifies this
      ensures Snapshot() == After(old(Snapshot()), if cancelled then Action.Cancel(client) else Action.Resume(client))
    {
      var caller := clients[client];
      var task := tasks[caller.task.value];
      var status := if cancelled then Cancelled else Failed;
      if !cancelled && task.progress.Returned? {
        if caller.key.Some? {
          var copied := if task.progress.obj < |heap| then heap[task.progress.obj] else Response(None, map[]);
          heap := heap + [copied];
          status := Served(|heap| - 1);
        } else {
          status := Served(task.progress.obj);
        }
      }
      clients := clients[client := caller.(status := status)];
      if caller.key.Some? && (task.progress.Returned? || task.progress.Raised?) {
        DropEntry(caller.key.value, caller.task.value);
      }
    }
  }

  function Started(now: nat, ttl: nat): State {
    State(now, ttl, None, map[], map[], {}, [], [], [], [])
  }

  // ---- the invariant ---------------------------------------------------------------

  // The lock holder is the one running task; an unfinished scan is the in-flight
  // entry of its key; an in-flight entry still has its callback to come.
  ghost predicate SingleFlight(s: State) {
    && (s.lock.Some? ==> s.lock.value < |s.tasks|)
    && (forall t | 0 <= t < |s.tasks| :: s.tasks[t].progress.Running? <==> s.lock == Some(t))
    && (forall t | 0 <= t < |s.tasks| && s.tasks[t].key.Some? && !Over(s.tasks[t]) ::
          Lookup(s.inflight, s.tasks[t].key.value) == Some(t))
    && (forall k | k in s.inflight ::
          && s.inflight[k] < |s.tasks| && s.tasks[s.inflight[k]].key == Some(k)
          && s.inflight[k] in s.callbacks)
  }

  predicate CallerOk(s: State, c: nat)
    requires c < |s.clients|
  {
    match s.clients[c].task
    case Some(t) => t < |s.tasks| && s.tasks[t].key == s.clients[c].key
    case None => s.clients[c].status.Served? && s.clients[c].key.Some?
  }

  // Every caller waits for a task of its own request; plain requests share none.
  ghost predicate Callers(s: State) {
    && (forall c: nat | c < |s.clients| :: CallerOk(s, c))
    && (forall c, d | 0 <= c < d < |s.clients| && s.clients[c].key.None? && s.clients[d].key.None? ::
          s.clients[c].task != s.clients[d].task)
  }

  // Who may hold a response object: the cache, a finished task, or a served
  // client.
  datatype Holder = OfCache(key: Key) | OfTask(task: nat) | OfClient(client: nat)

  function Held(s: State, h: Holder): Option<nat> {
    match h
    case OfCache(k) => if k in s.cache then Some(s.cache[k].obj) else None
    case OfTask(t) =>
      if t < |s.tasks| && s.tasks[t].progress.Returned? then Some(s.tasks[t].progress.obj) else None
    case OfClient(c) =>
      if c < |s.clients| && s.clients[c].status.Served? then Some(s.clients[c].status.obj) else None
  }

  // A plain request's only caller is handed the very object its task returned.
  predicate HandedOver(s: State, g: Holder, h: Holder) {
    && g.OfTask? && h.OfClient?
    && g.task < |s.tasks| && s.tasks[g.task].key.None?
    && h.client < |s.clients| && s.clients[h.client].task == Some(g.task)
  }

  // No two holders share an object otherwise.
  ghost predicate Separate(s: State) {
    && (forall h | Held(s, h).Some? :: Held(s, h).value < |s.heap|)
    && (forall g, h | Held(s, g).Some? && Held(s, g) == Held(s, h) ::
          g == h || HandedOver(s, g, h) || HandedOver(s, h, g))
  }

  // The last response stored for a key.
  function LatestStore(stores: seq<Stored>, k: Key): Option<Stored> {
    if stores == [] then None
    else if stores[|stores| - 1].key == k then Some(stores[|stores| - 1])
    else LatestStore(stores[..|stores| - 1], k)
  }

  predicate Young(s: State, stored: Option<Stored>) {
    stored.Some? && stored.value.at <= s.now < stored.value.at + s.ttl
  }

  // The cache holds a key exactly while nobody has found its last stored response
  // too old, and holds that response.
  predicate FreshAt(s: State, k: Key) {
    var stored := LatestStore(s.stores, k);
    && (stored.Some? ==> stored.value.at <= s.now)
    && (k in s.cache ==>
          && stored.Some?
          && stored.value.response.exitCode == Some(0)
          && s.cache[k].expires == stored.value.at + s.ttl
          && Content(s, s.cache[k].obj) == stored.value.response)
    && (Young(s, stored) ==> k in s.cache)
  }

  ghost predicate Fresh(s: State) {
    forall k :: FreshAt(s, k)
  }

  predicate Says(s: State, t: nat) {
    t < |s.tasks| && s.tasks[t].progress.Returned? ==>
      Content(s, s.tasks[t].progress.obj) == s.tasks[t].progress.said
  }

  // What a task holds is still what the runner said, for as long as anyone may be
  // given it.
  ghost predicate Intact(s: State) {
    && (forall t: nat | t < |s.tasks| && s.tasks[t].key.Some? :: Says(s, t))
    && (forall c: nat | c < |s.clients| && s.clients[c].status.Awaiting? && s.clients[c].task.Some? ::
          Says(s, s.clients[c].task.value))
  }

  ghost predicate Inv(s: State) {
    SingleFlight(s) && Callers(s) && Separate(s) && Fresh(s) && Intact(s)
  }

  lemma HandleKeepsFlight(s: State, key: Option<Key>)
    requires SingleFlight(s)
    ensures SingleFlight(After(s, Handle(key)))
  {
  }

  lemma AcquireKeepsFlight(s: State, t: nat)
    requires SingleFlight(s) && Enabled(s, Acquire(t))
    ensures SingleFlight(After(s, Acquire(t)))
  {
  }

  lemma ReturnKeepsFlight(s: State, t: nat, response: Response)
    requires SingleFlight(s) && Enabled(s, Return(t, response))
    ensures SingleFlight(After(s, Return(t, response)))
  {
  }

  lemma RaiseKeepsFlight(s: State, t: nat)
    requires SingleFlight(s) && Enabled(s, Raise(t))
    ensures SingleFlight(After(s, Raise(t)))
  {
  }

  lemma DropKeepsFlight(s: State, t: nat)
    requires SingleFlight(s) && Enabled(s, DropInflight(t))
    ensures SingleFlight(After(s, DropInflight(t)))
  {
  }

  lemma LeavingKeepsFlight(s: State, c: nat, status: Status)
    requires SingleFlight(s) && Callers(s) && Enabled(s, Cancel(c))
    ensures SingleFlight(Leave(s, c, status))
  {
  }

  lemma SingleFlightStep(s: State, a: Action)
    requires SingleFlight(s) && Callers(s) && Enabled(s, a)
    ensures SingleFlight(After(s, a))
  {
    match a
    case Handle(key) => HandleKeepsFlight(s, key);
    case Resume(c) =>
      forall status { LeavingKeepsFlight(s, c, status); }
    case Cancel(c) => LeavingKeepsFlight(s, c, Cancelled);
    case Tick(_) =>
    case Mutate(_, _) =>
    case Acquire(t) => AcquireKeepsFlight(s, t);
    case Return(t, response) => ReturnKeepsFlight(s, t, response);
    case Raise(t) => RaiseKeepsFlight(s, t);
    case DropInflight(t) => DropKeepsFlight(s, t);
  }

  // Requests are never rewritten, and at most one is added.
  ghost predicate Grown(s: State, after: State) {
    && |s.tasks| <= |after.tasks| && |s.clients| <= |after.clients| <= |s.clients| + 1
    && (forall t: nat | t < |s.tasks| :: after.tasks[t].key == s.tasks[t].key)
    && (forall c: nat | c < |s.clients| ::
          && after.clients[c].key == s.clients[c].key && after.clients[c].task == s.clients[c].task
          && (s.clients[c].status.Served? ==> after.clients[c].status == s.clients[c].status))
  }

  lemma StepGrows(s: State, a: Action)
    requires Enabled(s, a)
    ensures Grown(s, After(s, a))
  {
  }

  lemma NewCallerOk(s: State, key: Option<Key>)
    requires SingleFlight(s)
    ensures var after := AfterHandle(s, key);
            && |after.clients| == |s.clients| + 1 && CallerOk(after, |s.clients|)
            && (key.None? ==> after.clients[|s.clients|].task == Some(|s.tasks|))
            && after.clients[|s.clients|].key == key
  {
  }

  lemma CallersGrown(s: State, after: State)
    requires Callers(s) && Grown(s, after)
    requires forall c: nat | |s.clients| <= c < |after.clients| ::
               && CallerOk(after, c)
               && (after.clients[c].key.None? ==> after.clients[c].task == Some(|s.tasks|))
    ensures Callers(after)
  {
    forall c: nat | c < |after.clients|
      ensures CallerOk(after, c)
    {
      assert c < |s.clients| ==> CallerOk(s, c);
    }
    forall c, d | 0 <= c < d < |after.clients| && after.clients[c].key.None? && after.clients[d].key.None?
      ensures after.clients[c].task != after.clients[d].task
    {
      assert CallerOk(s, c);
    }
  }

  lemma CallersStep(s: State, a: Action)
    requires SingleFlight(s) && Callers(s) && Enabled(s, a)
    ensures Callers(After(s, a))
  {
    StepGrows(s, a);
    if a.Handle? {
      NewCallerOk(s, a.key);
    }
    CallersGrown(s, After(s, a));
  }

  // Every holder keeps its object, lets go of it, or holds a new one nobody else
  // has; or it is a plain request's caller being handed its task's.
  lemma HeldStep(s: State, a: Action, h: Holder)
    requires Enabled(s, a)
    ensures |s.heap| <= |After(s, a).heap|
    ensures var after := Held(After(s, a), h);
            || after.None? || after == Held(s, h)
            || |s.heap| <= after.value < |After(s, a).heap|
            || (a.Resume? && h == OfClient(a.client) && s.clients[a.client].key.None?
                && after == Held(s, OfTask(s.clients[a.client].task.value)))
  {
    match a {
      case Tick(_) =>
      case Handle(_) =>
      case Acquire(_) =>
      case Return(_, _) =>
      case Raise(_) =>
      case DropInflight(_) =>
      case Resume(_) =>
      case Cancel(_) =>
      case Mutate(_, _) =>
    }
  }

  // The one holder of an object this step makes.
  function Maker(s: State, a: Action, obj: nat): Holder
    requires Enabled(s, a)
  {
    match a
    case Return(t, _) =>
      if obj == |s.heap| || s.tasks[t].key.None? then OfTask(t) else OfCache(s.tasks[t].key.value)
    case Resume(c) => OfClient(c)
    case _ => OfClient(|s.clients|)
  }

  lemma NewlyHeld(s: State, a: Action, h: Holder)
    requires Enabled(s, a)
    requires Held(s, h).Some? ==> Held(s, h).value < |s.heap|
    requires Callers(s) && Separate(s)
    ensures var after := Held(After(s, a), h);
            after.Some? && after.value >= |s.heap| ==> h == Maker(s, a, after.value)
  {
    HeldStep(s, a, h);
    if a.Resume? && s.clients[a.client].key.None? {
      assert Held(s, OfTask(s.clients[a.client].task.value)).Some? ==>
          Held(s, OfTask(s.clients[a.client].task.value)).value < |s.heap|;
    }
  }

  // A plain request's caller is given an object only its task holds.
  lemma HandedOnce(s: State, c: nat, h: Holder)
    requires Callers(s) && Separate(s) && Enabled(s, Resume(c)) && s.clients[c].key.None?
    requires Held(s, h).Some? && Held(s, h) == Held(s, OfTask(s.clients[c].task.value))
    ensures h == OfTask(s.clients[c].task.value)
    ensures HandedOver(After(s, Resume(c)), h, OfClient(c))
  {
    assert CallerOk(s, c);
    assert h.OfClient? && h.client < |s.clients| ==> CallerOk(s, h.client);
  }

  lemma SeparateStep(s: State, a: Action)
    requires Callers(s) && Separate(s) && Enabled(s, a)
    ensures Separate(After(s, a))
  {
    var after := After(s, a);
    forall h | Held(after, h).Some?
      ensures Held(after, h).value < |after.heap|
    {
      HeldStep(s, a, h);
    }
    forall g, h | Held(after, g).Some? && Held(after, g) == Held(after, h)
      ensures g == h || HandedOver(after, g, h) || HandedOver(after, h, g)
    {
      StepGrows(s, a);
      HeldStep(s, a, g);
      HeldStep(s, a, h);
      if Held(after, g).value >= |s.heap| {
        NewlyHeld(s, a, g);
        NewlyHeld(s, a, h);
      } else if Held(after, g) == Held(s, g) && Held(after, h) == Held(s, h) {
        assert g == h || HandedOver(s, g, h) || HandedOver(s, h, g);
      } else if Held(after, g) == Held(s, g) {
        HandedOnce(s, a.client, g);
      } else if Held(after, h) == Held(s, h) {
        HandedOnce(s, a.client, h);
      }
    }
  }

  lemma StoreAppended(stores: seq<Stored>, stored: Stored, k: Key)
    ensures LatestStore(stores + [stored], k) == if stored.key == k then Some(stored) else LatestStore(stores, k)
  {
    assert (stores + [stored])[..|stores|] == stores;
  }

  // Only a served client writes to an object, and only to its own.
  lemma OthersUntouched(s: State, a: Action, h: Holder)
    requires Callers(s) && Separate(s) && Enabled(s, a)
    requires Held(s, h).Some?
    requires h.OfCache? || (h.OfTask? && s.tasks[h.task].key.Some?)
             || (h.OfTask? && exists c | 0 <= c < |s.clients| :: Waits(s, c, h.task))
    ensures Content(After(s, a), Held(s, h).value) == Content(s, Held(s, h).value)
  {
    if a.Mutate? && Held(s, OfClient(a.client)) == Held(s, h) {
      assert CallerOk(s, a.client);
      if c: nat :| c < |s.clients| && h.OfTask? && Waits(s, c, h.task) {
        assert CallerOk(s, c);
      }
    }
  }

  predicate Waits(s: State, c: nat, t: nat) {
    c < |s.clients| && s.clients[c].status.Awaiting? && s.clients[c].task == Some(t)
  }

  lemma StoreStep(s: State, a: Action, k: Key)
    requires Enabled(s, a)
    ensures LatestStore(After(s, a).stores, k)
         == if a.Return? && s.tasks[a.task].key == Some(k) && a.response.exitCode == Some(0)
            then Some(Stored(k, a.response, s.now)) else LatestStore(s.stores, k)
  {
    if a.Return? && s.tasks[a.task].key.Some? {
      StoreAppended(s.stores, Stored(s.tasks[a.task].key.value, a.response, s.now), k);
    }
  }

  lemma CacheStep(s: State, a: Action, k: Key)
    requires Enabled(s, a)
    ensures var after := After(s, a);
            if a.Return? && s.tasks[a.task].key == Some(k) && a.response.exitCode == Some(0)
            then k in after.cache && after.cache[k].expires == s.now + s.ttl
                 && Content(after, after.cache[k].obj) == a.response
            else (k in after.cache ==> k in s.cache && after.cache[k] == s.cache[k])
                 && (k in s.cache && k !in after.cache ==> s.cache[k].expires <= s.now)
    ensures After(s, a).ttl == s.ttl && s.now <= After(s, a).now
  {
  }

  lemma FreshStep(s: State, a: Action, k: Key)
    requires Callers(s) && Separate(s) && FreshAt(s, k) && Enabled(s, a)
    ensures FreshAt(After(s, a), k)
  {
    if k in s.cache {
      OthersUntouched(s, a, OfCache(k));
    }
    StoreStep(s, a, k);
    CacheStep(s, a, k);
  }

  lemma SaysStep(s: State, a: Action, t: nat)
    requires Callers(s) && Separate(s) && Enabled(s, a) && Says(s, t) && t < |s.tasks|
    requires s.tasks[t].key.Some? || exists c | 0 <= c < |s.clients| :: Waits(s, c, t)
    ensures Says(After(s, a), t)
  {
    if s.tasks[t].progress.Returned? {
      OthersUntouched(s, a, OfTask(t));
    }
  }

  lemma TaskIntact(s: State, a: Action, t: nat)
    requires Callers(s) && Separate(s) && Enabled(s, a)
    requires t < |s.tasks| && s.tasks[t].key.Some? ==> Says(s, t)
    requires t < |After(s, a).tasks| && After(s, a).tasks[t].key.Some?
    ensures Says(After(s, a), t)
  {
    StepGrows(s, a);
    if t < |s.tasks| {
      SaysStep(s, a, t);
    }
  }

  lemma CallerIntact(s: State, a: Action, c: nat)
    requires Callers(s) && Separate(s) && Enabled(s, a) && c < |s.clients|
    requires After(s, a).clients[c].status.Awaiting? && s.clients[c].task.Some?
    requires s.clients[c].status.Awaiting? ==> Says(s, s.clients[c].task.value)
    ensures Says(After(s, a), s.clients[c].task.value)
  {
    assert CallerOk(s, c);
    assert Waits(s, c, s.clients[c].task.value);
    SaysStep(s, a, s.clients[c].task.value);
  }

  // A caller that has just come waits for a task that has only started, or for a
  // scan.
  lemma NewCallerIntact(s: State, a: Action, t: nat)
    requires SingleFlight(s) && Enabled(s, a) && a.Handle?
    requires |s.clients| < |After(s, a).clients| && After(s, a).clients[|s.clients|].task == Some(t)
    ensures t < |After(s, a).tasks|
    ensures After(s, a).tasks[t].key.Some? || After(s, a).tasks[t].progress.Queued?
  {
  }

  lemma IntactStep(s: State, a: Action)
    requires SingleFlight(s) && Callers(s) && Separate(s) && Intact(s) && Enabled(s, a)
    ensures Intact(After(s, a))
  {
    var after := After(s, a);
    forall t: nat | t < |after.tasks| && after.tasks[t].key.Some?
      ensures Says(after, t)
    {
      StepGrows(s, a);
      TaskIntact(s, a, t);
    }
    forall c: nat | c < |after.clients| && after.clients[c].status.Awaiting? && after.clients[c].task.Some?
      ensures Says(after, after.clients[c].task.value)
    {
      StepGrows(s, a);
      if c < |s.clients| {
        CallerIntact(s, a, c);
      } else {
        NewCallerIntact(s, a, after.clients[c].task.value);
      }
    }
  }

  ghost predicate IsExecution(states: seq<State>, actions: seq<Action>) {
    && |states| == |actions| + 1
    && states[0] == Started(states[0].now, states[0].ttl)
    && forall i | 0 <= i < |actions| :: Enabled(states[i], actions[i]) && states[i + 1] == After(states[i], actions[i])
  }

  lemma {:induction false} ExecutionInv(states: seq<State>, actions: seq<Action>, i: nat)
    requires IsExecution(states, actions) && i <= |actions|
    ensures Inv(states[i])
  {
    if i > 0 {
      ExecutionInv(states, actions, i - 1);
      SingleFlightStep(states[i - 1], actions[i - 1]);
      CallersStep(states[i - 1], actions[i - 1]);
      SeparateStep(states[i - 1], actions[i - 1]);
      forall k
        ensures FreshAt(states[i], k)
      {
        FreshStep(states[i - 1], actions[i - 1], k);
      }
      IntactStep(states[i - 1], actions[i - 1]);
    }
  }

  // ---- what every interleaving keeps -------------------------------------------------

  // One runner call at a time, and one unfinished scan per key: the entry later
  // callers join.
  lemma OneRunnerOneScan(states: seq<State>, actions: seq<Action>, i: nat, t: nat, u: nat)
    requires IsExecution(states, actions) && i <= |actions|
    requires t < |states[i].tasks| && u < |states[i].tasks|
    ensures var tasks := states[i].tasks;
            && (tasks[t].progress.Running? && tasks[u].progress.Running? ==> t == u)
            && (tasks[t].key.Some? && tasks[t].key == tasks[u].key && !Over(tasks[t]) && !Over(tasks[u]) ==> t == u)
            && (tasks[t].key.Some? && !Over(tasks[t]) ==>
                  Lookup(states[i].inflight, tasks[t].key.value) == Some(t))
  {
    ExecutionInv(states, actions, i);
  }

  // A request is answered from the cache exactly when the last successful scan of
  // its key was stored less than the TTL ago, and then with what that scan said,
  // whatever served clients did to their copies.
  lemma CacheServesTheLastScan(states: seq<State>, actions: seq<Action>, i: nat, k: Key)
    requires IsExecution(states, actions) && i < |actions| && actions[i] == Handle(Some(k))
    ensures var (s, after) := (states[i], states[i + 1]);
            var stored := LatestStore(s.stores, k);
            var caller := after.clients[|s.clients|];
            && (caller.status.Served? <==> Young(s, stored))
            && (caller.status.Served? ==>
                  && stored.value.response.exitCode == Some(0)
                  && Content(after, caller.status.obj) == stored.value.response)
            && (!caller.status.Served? ==> caller.status.Awaiting?)
  {
    ExecutionInv(states, actions, i);
    assert FreshAt(states[i], k);
  }

  // A response handed out is neither the cached object nor another caller's.
  lemma ResponsesAreNotShared(states: seq<State>, actions: seq<Action>, i: nat, c: nat)
    requires IsExecution(states, actions) && i <= |actions|
    requires c < |states[i].clients| && states[i].clients[c].status.Served?
    ensures var s := states[i];
            var obj := s.clients[c].status.obj;
            && (forall k | k in s.cache :: s.cache[k].obj != obj)
            && (forall d: nat | d < |s.clients| && s.clients[d].status == Served(obj) :: d == c)
  {
    ExecutionInv(states, actions, i);
    var s := states[i];
    var obj := s.clients[c].status.obj;
    assert Held(s, OfClient(c)) == Some(obj);
    forall k | k in s.cache
      ensures s.cache[k].obj != obj
    {
      assert Held(s, OfCache(k)) == Some(s.cache[k].obj);
    }
    forall d: nat | d < |s.clients| && s.clients[d].status == Served(obj)
      ensures d == c
    {
      assert Held(s, OfClient(d)) == Some(obj);
    }
  }

  // Whoever waited to the end gets what the runner said, or its failure.
  lemma WaiterGetsTheAnswer(states: seq<State>, actions: seq<Action>, i: nat, c: nat)
    requires IsExecution(states, actions) && i < |actions| && actions[i] == Resume(c)
    ensures var task := states[i].tasks[states[i].clients[c].task.value];
            var after := states[i + 1];
            && task.key == states[i].clients[c].key
            && if task.progress.Returned?
               then after.clients[c].status.Served?
                    && Content(after, after.clients[c].status.obj) == task.progress.said
               else after.clients[c].status == Failed
  {
    ExecutionInv(states, actions, i);
    var s := states[i];
    assert CallerOk(s, c);
    var t := s.clients[c].task.value;
    assert Says(s, t);
    assert s.tasks[t].progress.Returned? ==> Held(s, OfTask(t)).Some?;
  }

  // A finished scan does not keep its key: its callback is still to come, and a
  // request after the callback starts a new scan or joins a newer one.
  lemma FinishedScanLetsGo(states: seq<State>, actions: seq<Action>, i: nat, k: Key)
    requires IsExecution(states, actions) && i < |actions| && actions[i] == Handle(Some(k))
    ensures var (s, after) := (states[i], states[i + 1]);
            var caller := after.clients[|s.clients|];
            caller.status.Awaiting? ==>
              && caller.task.Some? && caller.task.value < |after.tasks|
              && after.tasks[caller.task.value].key == Some(k)
              && (Over(after.tasks[caller.task.value]) ==> caller.task.value in s.callbacks)
  {
    ExecutionInv(states, actions, i);
    ExecutionInv(states, actions, i + 1);
    assert CallerOk(states[i + 1], |states[i].clients|);
  }
}
