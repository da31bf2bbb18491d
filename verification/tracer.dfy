/** The tracer registry of a set of Express applications: `configureExpressApp`,
    `instrument`, `callTracers`, `trace` and the mount bridge, on mutable state. */
module ExpressTracer {
  import opened TraceTypes
  import opened Propagation

  /** `n` copies of `x`. */
  function Repeat(x: Observer, n: nat): (r: seq<Observer>)
    ensures |r| == n && forall i :: 0 <= i < n ==> r[i] == x
  {
    if n == 0 then [] else Repeat(x, n - 1) + [x]
  }

  /** The applications of one process, with the tracers each has registered,
      every tracer call made so far and the number of clock readings taken. */
  class Apps {
    /** `app.tracers` of every configured application. */
    var tracers: Table
    /** How many 'mount' handlers `configureExpressApp` has attached to each
        configured application (one per configuration). */
    var listeners: map<AppId, nat>
    /** Every tracer call, in the order they were made. */
    var log: seq<Delivery>
    /** How many times `new Date()` has been read. */
    var readings: nat
    /** The wall clock: the value of the `k`-th reading. */
    const clock: nat -> Date
    /** Depth in the intended mount tree: a parent ranks below its children. */
    ghost const rank: AppId -> nat

    ghost predicate Valid()
      reads this`tracers, this`listeners
    {
      && tracers.Keys == listeners.Keys
      && (forall a :: a in listeners ==> listeners[a] >= 1)
      && Ranked(tracers, rank)
    }

    constructor (clock: nat -> Date, ghost rank: AppId -> nat)
      ensures Valid()
      ensures tracers == map[] && listeners == map[] && log == [] && readings == 0
      ensures this.clock == clock && this.rank == rank
    {
      tracers, listeners, log, readings := map[], map[], [], 0;
      this.clock, this.rank := clock, rank;
    }

    /** `configureExpressApp(app)`: an empty tracer list and one more 'mount'
        handler. */
    method Configure(app: AppId)
      requires Valid()
      modifies this`tracers, this`listeners
      ensures Valid()
      ensures tracers == old(tracers)[app := []]
      ensures listeners == old(listeners)[app := (if app in old(listeners) then old(listeners)[app] else 0) + 1]
    {
      tracers := tracers[app := []];
      listeners := listeners[app := (if app in listeners then listeners[app] else 0) + 1];
    }

    /** `this.tracers.push(tracer)`. */
    method Push(app: AppId, x: Observer)
      requires Valid() && app in tracers
      requires x.Bridge? ==> rank(x.parent) < rank(app)
      modifies this`tracers
      ensures Valid()
      ensures tracers == old(tracers)[app := old(tracers)[app] + [x]]
    {
      var obs := tracers[app] + [x];
      assert BridgesBelow(obs, rank, app) by {
        forall i | 0 <= i < |obs| && obs[i].Bridge? ensures rank(obs[i].parent) < rank(app) {
          if i < |obs| - 1 { assert obs[i] == tracers[app][i]; }
        }
      }
      tracers := tracers[app := obs];
    }

    /** `app.instrument(tracer)`: only a function is registered, at the end of
        the list, and the application is returned for chaining. */
    method Instrument(app: AppId, tracer: Value) returns (r: Result<AppId>)
      requires Valid()
      modifies this`tracers
      ensures Valid()
      ensures app !in old(tracers) ==> r == Err(NotConfigured) && tracers == old(tracers)
      ensures app in old(tracers) && !tracer.Function? ==> r == Err(NotAFunction) && tracers == old(tracers)
      ensures app in old(tracers) && tracer.Function? ==>
                r == Ok(app) && tracers == old(tracers)[app := old(tracers)[app] + [User(tracer.id)]]
    {
      if app !in tracers {
        return Err(NotConfigured);
      }
      if tracer == Undefined || !tracer.Function? {
        return Err(NotAFunction);
      }
      Push(app, User(tracer.id));
      return Ok(app);
    }

    /** `tracers[i](options)`: a call of one tracer with the record. A user
        tracer is only recorded as called; the bridge `callParentTracer`
        passes the record's `res`, `event` and `args` to
        `parent.callTracers`. */
    method Invoke(observer: Observer, record: Record) returns (error: Option<Error>)
      requires Valid()
      requires observer.Bridge? ==> rank(observer.parent) < rank(record.app)
      modifies this`log, this`readings
      ensures var call := Call(tracers, rank, clock, observer, record, old(readings));
              log == old(log) + call.deliveries && readings == call.next && error == call.error
      decreases rank(record.app), 0
    {
      log := log + [Delivery(observer, record)];
      match observer {
        case User(_) =>
          error := None;
        case Bridge(parent) =>
          error := CallTracers(parent, record.res, record.event, record.args);
      }
    }

    /** `app.callTracers(res, event, args)`: one clock reading, one record, and
        each tracer present on entry called in index order; an exception from
        a tracer ends the loop. */
    method CallTracers(app: AppId, res: Response, event: Value, args: seq<Value>) returns (error: Option<Error>)
      requires Valid()
      modifies this`log, this`readings
      ensures var o := Dispatch(tracers, rank, clock, app, res, event, args, old(readings));
              log == old(log) + o.deliveries && readings == o.next && error == o.error
      decreases rank(app), 1
    {
      if app !in tracers {
        return Some(NotConfigured);
      }
      var date := clock(readings);
      readings := readings + 1;
      var list := tracers[app];
      var length := |list|;
      var record := Record(app, res, res.req, event, date, args);
      ghost var start := readings;
      var i := 0;
      ghost var done := Deliver(tracers, rank, clock, [], record, start);
      while i < length
        invariant 0 <= i <= length
        invariant BridgesBelow(list[..i], rank, app)
        invariant done == Deliver(tracers, rank, clock, list[..i], record, start)
        invariant done.error.None? && log == old(log) + done.deliveries && readings == done.next
      {
        DeliverStep(tracers, rank, clock, list, i, record, start);
        var e := Invoke(list[i], record);
        done := Deliver(tracers, rank, clock, list[..i + 1], record, start);
        if e.Some? {
          DeliverStops(tracers, rank, clock, list, i + 1, record, start);
          return e;
        }
        i := i + 1;
      }
      assert list[..length] == list;
      return None;
    }

    /** `res.trace(event, ...)`: the arguments after the event become `args`,
        the dispatch runs on `res.app`, and `res` is returned for chaining. */
    method Trace(res: Response, arguments: seq<Value>) returns (r: Result<Response>)
      requires Valid()
      modifies this`log, this`readings
      ensures |arguments| == 0 ==> r == Err(NoEvent) && log == old(log) && readings == old(readings)
      ensures |arguments| > 0 ==>
                var o := Dispatch(tracers, rank, clock, res.app, res, arguments[0], arguments[1..], old(readings));
                log == old(log) + o.deliveries && readings == o.next &&
                r == (if o.error.None? then Ok(res) else Err(o.error.value))
    {
      var collected := CollectArgs(arguments);
      if collected.Err? {
        return Err(collected.error);
      }
      var e := CallTracers(res.app, res, arguments[0], collected.value);
      if e.Some? {
        return Err(e.value);
      }
      return Ok(res);
    }

    /** The 'mount' event of `child` under `parent`: every handler attached by
        `configureExpressApp` registers one bridge to `parent` at the end of
        the child's list. */
    method Mount(child: AppId, parent: AppId)
      requires Valid()
      requires child in tracers ==> rank(parent) < rank(child)
      modifies this`tracers
      ensures Valid()
      ensures child !in old(tracers) ==> tracers == old(tracers)
      ensures child in old(tracers) ==>
                tracers == old(tracers)[child := old(tracers)[child] + Repeat(Bridge(parent), listeners[child])]
    {
      if child in listeners {
        var k := 0;
        assert old(tracers)[child] + Repeat(Bridge(parent), 0) == old(tracers)[child];
        while k < listeners[child]
          invariant 0 <= k <= listeners[child]
          invariant Valid() && child in tracers
          invariant tracers == old(tracers)[child := old(tracers)[child] + Repeat(Bridge(parent), k)]
        {
          Push(child, Bridge(parent));
          assert old(tracers)[child] + Repeat(Bridge(parent), k) + [Bridge(parent)]
              == old(tracers)[child] + Repeat(Bridge(parent), k + 1);
          k := k + 1;
        }
      }
    }
  }
}
