/** The in-memory snapshot of enabled tools and its change subscribers. */
module ToolCache {
  import opened Prelude
  import Json

  /** A row of the tools table with its eager-loaded grants. */
  datatype ToolRow = ToolRow(
    id: int, name: string, description: string, dispatcher: string, config: Json.Value,
    inputSchema: Json.Value, grants: seq<string>, customerGrants: seq<string>)

  datatype ToolView = ToolView(
    id: int, name: string, description: string, dispatcher: string, config: Json.Value,
    inputSchema: Json.Value, roles: set<string>, customerCodes: set<string>)

  /** `ToolView.from_model`. */
  function FromModel(t: ToolRow): ToolView {
    ToolView(t.id, t.name, t.description, t.dispatcher, t.config, t.inputSchema,
      set g | g in t.grants, set g | g in t.customerGrants)
  }

  function Views(rows: seq<ToolRow>): seq<ToolView> {
    seq(|rows|, i requires 0 <= i < |rows| => FromModel(rows[i]))
  }

  /** `{v.name: v for v in views}`: a later view replaces an earlier one of the same name. */
  function Index(views: seq<ToolView>): map<string, ToolView> {
    if views == [] then map[]
    else Index(views[..|views| - 1])[views[|views| - 1].name := views[|views| - 1]]
  }

  /** Tool names are unique in the table. */
  ghost predicate UniqueNames(views: seq<ToolView>) {
    forall i, j | 0 <= i < j < |views| :: views[i].name != views[j].name
  }

  /** The index finds a view under each listed name and nothing else; while names are unique it
      finds the listed view itself. */
  lemma {:induction false} IndexFinds(views: seq<ToolView>)
    ensures forall n | n in Index(views) :: Index(views)[n] in views && Index(views)[n].name == n
    ensures forall v | v in views :: v.name in Index(views)
    ensures UniqueNames(views) ==> forall v | v in views :: Index(views)[v.name] == v
  {
    if views != [] {
      var init, last := views[..|views| - 1], views[|views| - 1];
      assert views == init + [last];
      IndexFinds(init);
      if UniqueNames(views) {
        forall v | v in views ensures Index(views)[v.name] == v {
          if v != last {
            var i :| 0 <= i < |init| && init[i] == v;
            assert views[i].name != views[|views| - 1].name;
          }
        }
      }
    }
  }

  /** A view tells what its row tells: the same fields, and each grant in its own channel. */
  ghost predicate Describes(v: ToolView, t: ToolRow) {
    && v.id == t.id && v.name == t.name && v.description == t.description
    && v.dispatcher == t.dispatcher && v.config == t.config && v.inputSchema == t.inputSchema
    && (forall role :: role in v.roles <==> role in t.grants)
    && (forall code :: code in v.customerCodes <==> code in t.customerGrants)
  }

  /** One view per row, in order. */
  ghost predicate Shows(views: seq<ToolView>, rows: seq<ToolRow>) {
    |views| == |rows| && forall i | 0 <= i < |rows| :: Describes(views[i], rows[i])
  }

  lemma ViewsShow(rows: seq<ToolRow>)
    ensures Shows(Views(rows), rows)
  {
  }

  /** What the cache holds. */
  datatype Snapshot = Snapshot(tools: seq<ToolView>, byName: map<string, ToolView>, loadedAt: int)

  predicate Fresh(s: Snapshot, now: int, ttl: int) {
    s.tools != [] && now - s.loadedAt < ttl
  }

  function Installed(rows: seq<ToolRow>, now: int): Snapshot {
    Snapshot(Views(rows), Index(Views(rows)), now)
  }

  function Invalidated(s: Snapshot): Snapshot {
    s.(loadedAt := 0)
  }

  // ---------- Subscriber queues ----------

  const QUEUE_LIMIT := 16

  type Events = seq<string>

  /** `put_nowait` on a bounded queue; a full queue drops the event. */
  function Offered(events: Events, event: string): Events {
    if |events| < QUEUE_LIMIT then events + [event] else events
  }

  class EventQueue {
    var events: Events

    constructor ()
      ensures events == []
    {
      events := [];
    }

    method Offer(event: string)
      modifies this
      ensures events == Offered(old(events), event)
      ensures |old(events)| < 16 ==> events == old(events) + [event]
      ensures |old(events)| >= 16 ==> events == old(events)
    {
      if |events| < QUEUE_LIMIT {
        events := events + [event];
      }
    }

    method Take() returns (event: string)
      requires events != []
      modifies this
      ensures [event] + events == old(events)
    {
      event := events[0];
      events := events[1..];
    }
  }

  class Cache {
    const ttl: int
    var tools: seq<ToolView>
    var byName: map<string, ToolView>
    var loadedAt: int
    var subscribers: seq<EventQueue>

    ghost function State(): Snapshot
      reads this
    {
      Snapshot(tools, byName, loadedAt)
    }

    /** No queue is registered twice. */
    ghost predicate Valid()
      reads this
    {
      && byName == Index(tools)
      && forall i, j | 0 <= i < j < |subscribers| :: subscribers[i] != subscribers[j]
    }

    constructor (ttl: int)
      ensures Valid() && State() == Snapshot([], map[], 0) && subscribers == [] && this.ttl == ttl
    {
      this.ttl := ttl;
      tools, byName, loadedAt, subscribers := [], map[], 0, [];
    }

    predicate IsFresh(now: int)
      reads this
      ensures IsFresh(now) == Fresh(State(), now, ttl)
    {
      tools != [] && now - loadedAt < ttl
    }

    /** `_load` once the loader has answered; `rows` is None when it raised. */
    method Load(rows: Option<seq<ToolRow>>, now: int) returns (ok: bool)
      requires Valid()
      modifies this`tools, this`byName, this`loadedAt
      ensures Valid() && ok == rows.Some?
      ensures State() == if rows.Some? then Installed(rows.value, now) else old(State())
      ensures rows.Some? ==> Shows(tools, rows.value) && loadedAt == now
    {
      if rows.None? {
        return false;
      }
      ViewsShow(rows.value);
      tools := Views(rows.value);
      byName := map[];
      var i := 0;
      while i < |tools|
        invariant 0 <= i <= |tools| && tools == Views(rows.value)
        invariant byName == Index(tools[..i])
        invariant loadedAt == old(loadedAt)
      {
        assert tools[..i + 1][..i] == tools[..i];
        byName := byName[tools[i].name := tools[i]];
        i := i + 1;
      }
      assert tools[..i] == tools;
      loadedAt := now;
      return true;
    }

    /** `ensure_fresh` without competition for the lock. */
    method EnsureFresh(now: int, rows: Option<seq<ToolRow>>, later: int) returns (ok: bool)
      requires Valid()
      modifies this`tools, this`byName, this`loadedAt
      ensures Valid()
      ensures ok <==> old(IsFresh(now)) || rows.Some?
      ensures State() == if old(IsFresh(now)) || rows.None? then old(State()) else Installed(rows.value, later)
      ensures !old(IsFresh(now)) && rows.Some? ==> Shows(tools, rows.value)
    {
      if IsFresh(now) {
        return true;
      }
      ok := Load(rows, later);
    }

    /** `invalidate_and_reload` without competition for the lock: subscribers hear of it only
        when the load succeeds. */
    method InvalidateAndReload(rows: Option<seq<ToolRow>>, now: int) returns (ok: bool)
      requires Valid()
      modifies this`tools, this`byName, this`loadedAt, subscribers
      ensures Valid() && subscribers == old(subscribers) && ok == rows.Some?
      ensures State() == if rows.Some? then Installed(rows.value, now) else Invalidated(old(State()))
      ensures forall q | q in subscribers ::
        q.events == if rows.Some? then Offered(old(q.events), "tools_changed") else old(q.events)
    {
      loadedAt := 0;
      ok := Load(rows, now);
      if ok {
        Broadcast("tools_changed");
      }
    }

    method Subscribe() returns (q: EventQueue)
      requires Valid()
      modifies this`subscribers
      ensures Valid() && fresh(q) && q.events == []
      ensures subscribers == old(subscribers) + [q]
    {
      q := new EventQueue();
      subscribers := subscribers + [q];
    }

    /** Removing a queue that is not registered is no error. */
    method Unsubscribe(q: EventQueue)
      requires Valid()
      modifies this`subscribers
      ensures Valid()
      ensures q !in old(subscribers) ==> subscribers == old(subscribers)
      ensures q in old(subscribers) ==>
        exists left, right :: old(subscribers) == left + [q] + right && subscribers == left + right
      ensures forall s :: s in subscribers <==> s in old(subscribers) && s != q
    {
      var i := 0;
      while i < |subscribers|
        invariant 0 <= i <= |subscribers|
        invariant forall k | 0 <= k < i :: subscribers[k] != q
        invariant subscribers == old(subscribers) && Valid()
      {
        if subscribers[i] == q {
          var left, right := subscribers[..i], subscribers[i + 1..];
          assert subscribers == left + [q] + right;
          forall k | 0 <= k < |right| ensures right[k] != q {
            assert subscribers[i + 1 + k] == right[k];
          }
          subscribers := left + right;
          return;
        }
        i := i + 1;
      }
    }

    method Broadcast(event: string)
      requires Valid()
      modifies subscribers
      ensures Valid()
      ensures forall q | q in subscribers :: q.events == Offered(old(q.events), event)
    {
      var i := 0;
      while i < |subscribers|
        invariant 0 <= i <= |subscribers|
        invariant forall k | 0 <= k < i :: subscribers[k].events == Offered(old(subscribers[k].events), event)
        invariant forall k | i <= k < |subscribers| :: subscribers[k].events == old(subscribers[k].events)
        modifies subscribers
      {
        subscribers[i].Offer(event);
        i := i + 1;
      }
    }
  }
}
