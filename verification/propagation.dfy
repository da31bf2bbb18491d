/** What `callTracers` and `trace` do, as functions of the tracer table, and
    the properties of event propagation up the mount chain. */
module Propagation {
  import opened TraceTypes

  /** The `tracers` array of every configured application. An application
      that was never configured has no entry. */
  type Table = map<AppId, seq<Observer>>

  /** Every bridge in `obs`, registered on `app`, points at an application of
      lower rank. */
  ghost predicate BridgesBelow(obs: seq<Observer>, rank: AppId -> nat, app: AppId)
  {
    forall i :: 0 <= i < |obs| && obs[i].Bridge? ==> rank(obs[i].parent) < rank(app)
  }

  /** The mount relation recorded by the bridges of `tr` is acyclic, witnessed
      by `rank`: a parent always ranks below its child. */
  ghost predicate Ranked(tr: Table, rank: AppId -> nat)
  {
    forall a :: a in tr ==> BridgesBelow(tr[a], rank, a)
  }

  /** The argument collection of `trace`: the first argument is the event and
      the remaining ones, in order, become `args`; no argument at all is the
      error 'No event defined!'. */
  function CollectArgs(arguments: seq<Value>): (r: Result<seq<Value>>)
    ensures r.Err? <==> |arguments| == 0
    ensures r.Err? ==> r.error == NoEvent
    ensures r.Ok? ==> r.value == arguments[1..]
    ensures r.Ok? ==> [arguments[0]] + r.value == arguments
  {
    if |arguments| == 0 then Err(NoEvent)
    else if |arguments| == 1 then Ok([])
    else if |arguments| == 2 then Ok([arguments[1]])
    else Ok(arguments[1..])
  }

  /** `app.callTracers(res, event, args)` starting at the `t`-th clock
      reading: an unconfigured application has no `callTracers` and fails;
      otherwise one record is built with one clock reading and handed to
      every tracer of the application. */
  function Dispatch(tr: Table, rank: AppId -> nat, clock: nat -> Date,
                    app: AppId, res: Response, event: Value, args: seq<Value>, t: nat): Outcome
    requires Ranked(tr, rank)
    decreases rank(app), 2, 0
  {
    if app !in tr then Outcome([], Some(NotConfigured), t)
    else Deliver(tr, rank, clock, tr[app], Record(app, res, res.req, event, clock(t), args), t + 1)
  }

  /** The tracer loop of `callTracers` over `obs` with the record `rec`: each
      tracer is called in index order, and an exception from one of them
      stops the loop. */
  function Deliver(tr: Table, rank: AppId -> nat, clock: nat -> Date,
                   obs: seq<Observer>, rec: Record, t: nat): Outcome
    requires Ranked(tr, rank) && BridgesBelow(obs, rank, rec.app)
    decreases rank(rec.app), 1, |obs|
  {
    if obs == [] then Outcome([], None, t)
    else
      var done := Deliver(tr, rank, clock, obs[..|obs| - 1], rec, t);
      if done.error.Some? then done
      else
        var call := Call(tr, rank, clock, obs[|obs| - 1], rec, done.next);
        Outcome(done.deliveries + call.deliveries, call.error, call.next)
  }

  /** One tracer called with `rec`: a user tracer is only recorded as called;
      the bridge `callParentTracer` re-dispatches the record's `res`, `event`
      and `args` on its parent. */
  function Call(tr: Table, rank: AppId -> nat, clock: nat -> Date, x: Observer, rec: Record, t: nat): Outcome
    requires Ranked(tr, rank) && (x.Bridge? ==> rank(x.parent) < rank(rec.app))
    decreases rank(rec.app), 0, 0
  {
    match x
    case User(_) => Outcome([Delivery(x, rec)], None, t)
    case Bridge(parent) =>
      var up := Dispatch(tr, rank, clock, parent, rec.res, rec.event, rec.args, t);
      Outcome([Delivery(x, rec)] + up.deliveries, up.error, up.next)
  }

  lemma BridgesBelowPrefix(obs: seq<Observer>, rank: AppId -> nat, app: AppId, k: nat)
    requires BridgesBelow(obs, rank, app) && k <= |obs|
    ensures BridgesBelow(obs[..k], rank, app)
  {
    forall i | 0 <= i < k && obs[..k][i].Bridge? ensures rank(obs[..k][i].parent) < rank(app) {
      assert obs[..k][i] == obs[i];
    }
  }

  /** Turn `i` of the tracer loop over `obs`: calling `obs[i]` after the
      tracers before it have all returned. */
  lemma DeliverStep(tr: Table, rank: AppId -> nat, clock: nat -> Date,
                    obs: seq<Observer>, i: nat, rec: Record, t: nat)
    requires Ranked(tr, rank) && BridgesBelow(obs, rank, rec.app) && i < |obs|
    ensures BridgesBelow(obs[..i + 1], rank, rec.app)
    ensures obs[i].Bridge? ==> rank(obs[i].parent) < rank(rec.app)
    ensures BridgesBelow(obs[..i], rank, rec.app) ==>
            var done := Deliver(tr, rank, clock, obs[..i], rec, t);
            var call := Call(tr, rank, clock, obs[i], rec, done.next);
            done.error.None? ==>
              Deliver(tr, rank, clock, obs[..i + 1], rec, t) == Outcome(done.deliveries + call.deliveries, call.error, call.next)
  {
    BridgesBelowPrefix(obs, rank, rec.app, i + 1);
    assert obs[..i + 1][..i] == obs[..i];
  }

  /** A list of one tracer is one call of it. */
  lemma DeliverSingle(tr: Table, rank: AppId -> nat, clock: nat -> Date, x: Observer, rec: Record, t: nat)
    requires Ranked(tr, rank) && (x.Bridge? ==> rank(x.parent) < rank(rec.app))
    ensures BridgesBelow([x], rank, rec.app)
    ensures Deliver(tr, rank, clock, [x], rec, t) == Call(tr, rank, clock, x, rec, t)
  {
    assert [x][..0] == [];
    assert Deliver(tr, rank, clock, [], rec, t) == Outcome([], None, t);
  }

  /** Once a tracer has thrown, the rest of the list is not called: the loop
      over `obs` ends as the loop over its first `k` tracers did. */
  lemma {:induction false} DeliverStops(tr: Table, rank: AppId -> nat, clock: nat -> Date,
                                        obs: seq<Observer>, k: nat, rec: Record, t: nat)
    requires Ranked(tr, rank) && BridgesBelow(obs, rank, rec.app) && k <= |obs|
    requires BridgesBelow(obs[..k], rank, rec.app)
    requires Deliver(tr, rank, clock, obs[..k], rec, t).error.Some?
    ensures Deliver(tr, rank, clock, obs, rec, t) == Deliver(tr, rank, clock, obs[..k], rec, t)
    decreases |obs|
  {
    if k == |obs| {
      assert obs[..k] == obs;
    } else {
      var init := obs[..|obs| - 1];
      BridgesBelowPrefix(obs, rank, rec.app, |obs| - 1);
      assert init[..k] == obs[..k];
      DeliverStops(tr, rank, clock, init, k, rec, t);
    }
  }

  /** The tracers called with a record whose `app` is `app`, in call order. */
  function Local(ds: seq<Delivery>, app: AppId): seq<Observer>
  {
    if ds == [] then []
    else
      var last := ds[|ds| - 1];
      Local(ds[..|ds| - 1], app) + (if last.record.app == app then [last.observer] else [])
  }

  lemma {:induction false} LocalAppend(xs: seq<Delivery>, ys: seq<Delivery>, app: AppId)
    ensures Local(xs + ys, app) == Local(xs, app) + Local(ys, app)
    decreases |ys|
  {
    if ys != [] {
      var n := |ys| - 1;
      assert (xs + ys)[..|xs + ys| - 1] == xs + ys[..n];
      assert (xs + ys)[|xs + ys| - 1] == ys[n];
      LocalAppend(xs, ys[..n], app);
    } else {
      assert xs + ys == xs;
    }
  }

  lemma {:induction false} LocalElsewhere(ds: seq<Delivery>, app: AppId)
    requires forall d :: d in ds ==> d.record.app != app
    ensures Local(ds, app) == []
    decreases |ds|
  {
    if ds != [] {
      LocalElsewhere(ds[..|ds| - 1], app);
    }
  }

  /** A delivery made while dispatching `rec` carries the same response,
      request, event and arguments; if it is on `rec.app` it is `rec` itself,
      otherwise it is on an application of strictly lower rank. */
  ghost predicate Carries(d: Delivery, rec: Record, rank: AppId -> nat)
  {
    && d.record.res == rec.res
    && d.record.req == rec.req
    && d.record.event == rec.event
    && d.record.args == rec.args
    && (if d.record.app == rec.app then d.record == rec else rank(d.record.app) < rank(rec.app))
  }

  /** Every tracer reached by one dispatch, on the dispatching application or
      up the mount chain, sees the original response, its request, the event
      and the arguments unchanged; the tracers of the dispatching application
      all get the one record built with one clock reading. */
  lemma {:induction false} DispatchCarries(tr: Table, rank: AppId -> nat, clock: nat -> Date,
                                           app: AppId, res: Response, event: Value, args: seq<Value>, t: nat)
    requires Ranked(tr, rank)
    ensures forall d :: d in Dispatch(tr, rank, clock, app, res, event, args, t).deliveries ==>
              Carries(d, Record(app, res, res.req, event, clock(t), args), rank)
    decreases rank(app), 2, 0
  {
    if app in tr {
      DeliverCarries(tr, rank, clock, tr[app], Record(app, res, res.req, event, clock(t), args), t + 1);
    }
  }

  lemma {:induction false} DeliverCarries(tr: Table, rank: AppId -> nat, clock: nat -> Date,
                                          obs: seq<Observer>, rec: Record, t: nat)
    requires Ranked(tr, rank) && BridgesBelow(obs, rank, rec.app)
    requires rec.req == rec.res.req
    ensures forall d :: d in Deliver(tr, rank, clock, obs, rec, t).deliveries ==> Carries(d, rec, rank)
    decreases rank(rec.app), 1, |obs|
  {
    if obs != [] {
      var init := obs[..|obs| - 1];
      DeliverCarries(tr, rank, clock, init, rec, t);
      var done := Deliver(tr, rank, clock, init, rec, t);
      if done.error.None? {
        CallCarries(tr, rank, clock, obs[|obs| - 1], rec, done.next);
      }
    }
  }

  lemma {:induction false} CallCarries(tr: Table, rank: AppId -> nat, clock: nat -> Date,
                                       x: Observer, rec: Record, t: nat)
    requires Ranked(tr, rank) && (x.Bridge? ==> rank(x.parent) < rank(rec.app))
    requires rec.req == rec.res.req
    ensures forall d :: d in Call(tr, rank, clock, x, rec, t).deliveries ==> Carries(d, rec, rank)
    decreases rank(rec.app), 0, 0
  {
    if x.Bridge? {
      DispatchCarries(tr, rank, clock, x.parent, rec.res, rec.event, rec.args, t);
    }
  }

  /** A parent's dispatch calls no tracer of a child ranked above it. */
  lemma ParentDispatchElsewhere(tr: Table, rank: AppId -> nat, clock: nat -> Date, parent: AppId,
                                res: Response, event: Value, args: seq<Value>, t: nat, app: AppId)
    requires Ranked(tr, rank) && rank(parent) < rank(app)
    ensures Local(Dispatch(tr, rank, clock, parent, res, event, args, t).deliveries, app) == []
  {
    var ds := Dispatch(tr, rank, clock, parent, res, event, args, t).deliveries;
    DispatchCarries(tr, rank, clock, parent, res, event, args, t);
    forall d | d in ds ensures d.record.app != app {
      assert Carries(d, Record(parent, res, res.req, event, clock(t), args), rank);
    }
    LocalElsewhere(ds, app);
  }

  /** A call of `x` with `rec` calls `x` and, on `rec.app`, nothing else. */
  lemma CallHere(tr: Table, rank: AppId -> nat, clock: nat -> Date, x: Observer, rec: Record, t: nat)
    requires Ranked(tr, rank) && (x.Bridge? ==> rank(x.parent) < rank(rec.app))
    ensures Local(Call(tr, rank, clock, x, rec, t).deliveries, rec.app) == [x]
  {
    var first := [Delivery(x, rec)];
    assert Local(first, rec.app) == [x] by { assert first[..0] == []; }
    if x.Bridge? {
      var up := Dispatch(tr, rank, clock, x.parent, rec.res, rec.event, rec.args, t);
      ParentDispatchElsewhere(tr, rank, clock, x.parent, rec.res, rec.event, rec.args, t, rec.app);
      LocalAppend(first, up.deliveries, rec.app);
    }
  }

  /** A call of `x` with `rec` calls `x` first and, on `rec.app`, nothing
      else; every later call, made by a bridge's re-dispatch, is at the
      bridge's parent or at an application reachable from it. */
  lemma CallLocal(tr: Table, rank: AppId -> nat, clock: nat -> Date, x: Observer, rec: Record, t: nat)
    requires Ranked(tr, rank) && (x.Bridge? ==> rank(x.parent) < rank(rec.app))
    ensures var ds := Call(tr, rank, clock, x, rec, t).deliveries;
            |ds| > 0 && ds[0] == Delivery(x, rec) && Local(ds, rec.app) == [x]
    ensures x.User? ==> Call(tr, rank, clock, x, rec, t).deliveries == [Delivery(x, rec)]
    ensures x.Bridge? ==>
              forall d :: d in Call(tr, rank, clock, x, rec, t).deliveries[1..] ==> Reaches(tr, rank, x.parent, d.record.app)
  {
    CallHere(tr, rank, clock, x, rec, t);
    if x.Bridge? {
      var up := Dispatch(tr, rank, clock, x.parent, rec.res, rec.event, rec.args, t);
      DispatchStaysOnChain(tr, rank, clock, x.parent, rec.res, rec.event, rec.args, t);
      assert Call(tr, rank, clock, x, rec, t).deliveries[1..] == up.deliveries;
    }
  }

  lemma {:induction false} DeliverLocal(tr: Table, rank: AppId -> nat, clock: nat -> Date,
                                        obs: seq<Observer>, rec: Record, t: nat)
    requires Ranked(tr, rank) && BridgesBelow(obs, rank, rec.app)
    ensures var o := Deliver(tr, rank, clock, obs, rec, t);
            Local(o.deliveries, rec.app) <= obs &&
            (o.error.None? ==> Local(o.deliveries, rec.app) == obs)
    decreases |obs|
  {
    if obs != [] {
      var init := obs[..|obs| - 1];
      var last := obs[|obs| - 1];
      assert obs == init + [last];
      DeliverLocal(tr, rank, clock, init, rec, t);
      var done := Deliver(tr, rank, clock, init, rec, t);
      if done.error.None? {
        var call := Call(tr, rank, clock, last, rec, done.next);
        CallHere(tr, rank, clock, last, rec, done.next);
        LocalAppend(done.deliveries, call.deliveries, rec.app);
      }
    }
  }

  /** `callTracers` calls the tracers registered on the application when it
      is entered, each once and in index order, every one with the same
      record; an exception from a bridge cuts the list short. */
  lemma DispatchLocal(tr: Table, rank: AppId -> nat, clock: nat -> Date,
                      app: AppId, res: Response, event: Value, args: seq<Value>, t: nat)
    requires Ranked(tr, rank)
    ensures var o := Dispatch(tr, rank, clock, app, res, event, args, t);
            (app !in tr ==> o.deliveries == [] && o.error == Some(NotConfigured)) &&
            (app in tr ==> Local(o.deliveries, app) <= tr[app]) &&
            (app in tr && o.error.None? ==> Local(o.deliveries, app) == tr[app]) &&
            (forall d :: d in o.deliveries && d.record.app == app ==>
               d.record == Record(app, res, res.req, event, clock(t), args))
  {
    DispatchCarries(tr, rank, clock, app, res, event, args, t);
    if app in tr {
      DeliverLocal(tr, rank, clock, tr[app], Record(app, res, res.req, event, clock(t), args), t + 1);
    }
  }

  /** `b` is `a` or an ancestor of `a` along the bridges of `tr`. */
  ghost predicate Reaches(tr: Table, rank: AppId -> nat, a: AppId, b: AppId)
    requires Ranked(tr, rank)
    decreases rank(a)
  {
    a == b ||
    (a in tr && exists i :: 0 <= i < |tr[a]| && tr[a][i].Bridge? && Reaches(tr, rank, tr[a][i].parent, b))
  }

  /** Every application reachable from `a` is configured. */
  ghost predicate Closed(tr: Table, rank: AppId -> nat, a: AppId)
    requires Ranked(tr, rank)
  {
    forall b :: Reaches(tr, rank, a, b) ==> b in tr
  }

  lemma ClosedUnfold(tr: Table, rank: AppId -> nat, a: AppId)
    requires Ranked(tr, rank)
    ensures Closed(tr, rank, a) <==>
            a in tr && forall i :: 0 <= i < |tr[a]| && tr[a][i].Bridge? ==> Closed(tr, rank, tr[a][i].parent)
  {
    if Closed(tr, rank, a) {
      assert Reaches(tr, rank, a, a);
      forall i | 0 <= i < |tr[a]| && tr[a][i].Bridge?
        ensures Closed(tr, rank, tr[a][i].parent)
      {
        forall b | Reaches(tr, rank, tr[a][i].parent, b) ensures b in tr {
          assert Reaches(tr, rank, a, b);
        }
      }
    }
  }

  /** A dispatch ends without exception exactly when every application up
      the mount chain is configured. */
  lemma {:induction false} DispatchSucceeds(tr: Table, rank: AppId -> nat, clock: nat -> Date,
                                            app: AppId, res: Response, event: Value, args: seq<Value>, t: nat)
    requires Ranked(tr, rank)
    ensures Dispatch(tr, rank, clock, app, res, event, args, t).error.None? <==> Closed(tr, rank, app)
    ensures Dispatch(tr, rank, clock, app, res, event, args, t).error.Some? ==>
            Dispatch(tr, rank, clock, app, res, event, args, t).error == Some(NotConfigured)
    decreases rank(app), 1
  {
    ClosedUnfold(tr, rank, app);
    if app in tr {
      DeliverSucceeds(tr, rank, clock, tr[app], Record(app, res, res.req, event, clock(t), args), t + 1);
    }
  }

  lemma {:induction false} DeliverSucceeds(tr: Table, rank: AppId -> nat, clock: nat -> Date,
                                           obs: seq<Observer>, rec: Record, t: nat)
    requires Ranked(tr, rank) && BridgesBelow(obs, rank, rec.app)
    ensures Deliver(tr, rank, clock, obs, rec, t).error.None? <==>
            forall i :: 0 <= i < |obs| && obs[i].Bridge? ==> Closed(tr, rank, obs[i].parent)
    ensures Deliver(tr, rank, clock, obs, rec, t).error.Some? ==>
            Deliver(tr, rank, clock, obs, rec, t).error == Some(NotConfigured)
    decreases rank(rec.app), 0, |obs|
  {
    if obs != [] {
      var init := obs[..|obs| - 1];
      var last := obs[|obs| - 1];
      DeliverSucceeds(tr, rank, clock, init, rec, t);
      var done := Deliver(tr, rank, clock, init, rec, t);
      assert forall i :: 0 <= i < |init| ==> init[i] == obs[i];
      if done.error.None? && last.Bridge? {
        DispatchSucceeds(tr, rank, clock, last.parent, rec.res, rec.event, rec.args, done.next);
      }
    }
  }

  /** `obs` occurs in `calls` as one contiguous run starting at index `k`. */
  ghost predicate RunAt(calls: seq<Observer>, obs: seq<Observer>, k: int)
  {
    0 <= k <= |calls| - |obs| && calls[k..k + |obs|] == obs
  }

  /** `obs` occurs in `calls` as one contiguous run. */
  ghost predicate Runs(calls: seq<Observer>, obs: seq<Observer>)
  {
    exists k :: RunAt(calls, obs, k)
  }

  lemma RunsWithin(xs: seq<Observer>, ys: seq<Observer>, zs: seq<Observer>, obs: seq<Observer>)
    requires Runs(ys, obs)
    ensures Runs(xs + ys + zs, obs)
  {
    var k :| RunAt(ys, obs, k);
    assert (xs + ys + zs)[|xs| + k..|xs| + k + |obs|] == ys[k..k + |obs|];
    assert RunAt(xs + ys + zs, obs, |xs| + k);
  }

  /** When the loop over `obs` completes, the parent dispatch made by the
      bridge at index `i` appears whole, and without exception, among its
      deliveries. */
  lemma {:induction false} DeliverEmbeds(tr: Table, rank: AppId -> nat, clock: nat -> Date,
                                         obs: seq<Observer>, rec: Record, t: nat, i: nat)
      returns (t': nat, before: seq<Delivery>, after: seq<Delivery>)
    requires Ranked(tr, rank) && BridgesBelow(obs, rank, rec.app)
    requires i < |obs| && obs[i].Bridge?
    requires Deliver(tr, rank, clock, obs, rec, t).error.None?
    ensures var up := Dispatch(tr, rank, clock, obs[i].parent, rec.res, rec.event, rec.args, t');
            up.error.None? &&
            Deliver(tr, rank, clock, obs, rec, t).deliveries == before + up.deliveries + after
    decreases |obs|
  {
    var init := obs[..|obs| - 1];
    var last := obs[|obs| - 1];
    var done := Deliver(tr, rank, clock, init, rec, t);
    var o := Deliver(tr, rank, clock, obs, rec, t);
    if i == |obs| - 1 {
      t' := done.next;
      before := done.deliveries + [Delivery(last, rec)];
      after := [];
    } else {
      assert init[i] == obs[i];
      var rest;
      t', before, rest := DeliverEmbeds(tr, rank, clock, init, rec, t, i);
      after := rest + o.deliveries[|done.deliveries|..];
    }
  }

  /** One dispatch that ends without exception runs, for every application up
      the mount chain (the dispatching one included), that application's
      whole tracer list in order; and every tracer it calls belongs to such
      an application. */
  lemma {:induction false} DispatchReachesAncestors(tr: Table, rank: AppId -> nat, clock: nat -> Date,
                                                    app: AppId, res: Response, event: Value, args: seq<Value>,
                                                    t: nat, b: AppId)
    requires Ranked(tr, rank)
    requires Dispatch(tr, rank, clock, app, res, event, args, t).error.None?
    requires Reaches(tr, rank, app, b)
    ensures b in tr && Runs(Local(Dispatch(tr, rank, clock, app, res, event, args, t).deliveries, b), tr[b])
    decreases rank(app)
  {
    var o := Dispatch(tr, rank, clock, app, res, event, args, t);
    DispatchSucceeds(tr, rank, clock, app, res, event, args, t);
    if b == app {
      DispatchLocal(tr, rank, clock, app, res, event, args, t);
      assert Local(o.deliveries, b)[0..|tr[b]|] == tr[b];
      assert RunAt(Local(o.deliveries, b), tr[b], 0);
    } else {
      var i :| 0 <= i < |tr[app]| && tr[app][i].Bridge? && Reaches(tr, rank, tr[app][i].parent, b);
      var rec := Record(app, res, res.req, event, clock(t), args);
      var t', before, after := DeliverEmbeds(tr, rank, clock, tr[app], rec, t + 1, i);
      var up := Dispatch(tr, rank, clock, tr[app][i].parent, res, event, args, t');
      DispatchReachesAncestors(tr, rank, clock, tr[app][i].parent, res, event, args, t', b);
      LocalAppend(before, up.deliveries, b);
      LocalAppend(before + up.deliveries, after, b);
      RunsWithin(Local(before, b), Local(up.deliveries, b), Local(after, b), tr[b]);
    }
  }

  lemma {:induction false} DispatchStaysOnChain(tr: Table, rank: AppId -> nat, clock: nat -> Date,
                                                app: AppId, res: Response, event: Value, args: seq<Value>, t: nat)
    requires Ranked(tr, rank)
    ensures forall d :: d in Dispatch(tr, rank, clock, app, res, event, args, t).deliveries ==>
              Reaches(tr, rank, app, d.record.app)
    decreases rank(app), 1, 0
  {
    if app in tr {
      var rec := Record(app, res, res.req, event, clock(t), args);
      DeliverStaysOnChain(tr, rank, clock, tr[app], rec, t + 1);
      forall d | d in Dispatch(tr, rank, clock, app, res, event, args, t).deliveries
        ensures Reaches(tr, rank, app, d.record.app)
      {
        if d.record.app != app {
          var i :| 0 <= i < |tr[app]| && tr[app][i].Bridge? && Reaches(tr, rank, tr[app][i].parent, d.record.app);
        }
      }
    }
  }

  lemma {:induction false} DeliverStaysOnChain(tr: Table, rank: AppId -> nat, clock: nat -> Date,
                                               obs: seq<Observer>, rec: Record, t: nat)
    requires Ranked(tr, rank) && BridgesBelow(obs, rank, rec.app)
    ensures forall d :: d in Deliver(tr, rank, clock, obs, rec, t).deliveries ==>
              d.record.app == rec.app ||
              exists i :: 0 <= i < |obs| && obs[i].Bridge? && Reaches(tr, rank, obs[i].parent, d.record.app)
    decreases rank(rec.app), 0, |obs|
  {
    if obs != [] {
      var init := obs[..|obs| - 1];
      var last := obs[|obs| - 1];
      DeliverStaysOnChain(tr, rank, clock, init, rec, t);
      var done := Deliver(tr, rank, clock, init, rec, t);
      assert forall i :: 0 <= i < |init| ==> init[i] == obs[i];
      if done.error.None? && last.Bridge? {
        DispatchStaysOnChain(tr, rank, clock, last.parent, rec.res, rec.event, rec.args, done.next);
      }
    }
  }

  /** `tr1` and `tr2` agree on every application ranked below `r`. */
  ghost predicate AgreeBelow(tr1: Table, tr2: Table, rank: AppId -> nat, r: nat)
  {
    forall a :: rank(a) < r ==> (a in tr1 <==> a in tr2) && (a in tr1 ==> tr1[a] == tr2[a])
  }

  /** A dispatch depends only on the tracers of the dispatching application
      and of the applications ranked below it, where all its ancestors are. */
  lemma {:induction false} DispatchFrame(tr1: Table, tr2: Table, rank: AppId -> nat, clock: nat -> Date,
                                         app: AppId, res: Response, event: Value, args: seq<Value>, t: nat)
    requires Ranked(tr1, rank) && Ranked(tr2, rank)
    requires AgreeBelow(tr1, tr2, rank, rank(app))
    requires (app in tr1 <==> app in tr2) && (app in tr1 ==> tr1[app] == tr2[app])
    ensures Dispatch(tr1, rank, clock, app, res, event, args, t) == Dispatch(tr2, rank, clock, app, res, event, args, t)
    decreases rank(app), 1, 0
  {
    if app in tr1 {
      DeliverFrame(tr1, tr2, rank, clock, tr1[app], Record(app, res, res.req, event, clock(t), args), t + 1);
    }
  }

  lemma {:induction false} DeliverFrame(tr1: Table, tr2: Table, rank: AppId -> nat, clock: nat -> Date,
                                        obs: seq<Observer>, rec: Record, t: nat)
    requires Ranked(tr1, rank) && Ranked(tr2, rank) && BridgesBelow(obs, rank, rec.app)
    requires AgreeBelow(tr1, tr2, rank, rank(rec.app))
    ensures Deliver(tr1, rank, clock, obs, rec, t) == Deliver(tr2, rank, clock, obs, rec, t)
    decreases rank(rec.app), 0, |obs|
  {
    if obs != [] {
      var init := obs[..|obs| - 1];
      var last := obs[|obs| - 1];
      DeliverFrame(tr1, tr2, rank, clock, init, rec, t);
      var done := Deliver(tr1, rank, clock, init, rec, t);
      if done.error.None? && last.Bridge? {
        DispatchFrame(tr1, tr2, rank, clock, last.parent, rec.res, rec.event, rec.args, done.next);
      }
    }
  }

  /** Appending a tracer `x` to the list of `app` leaves every earlier call of
      a dispatch on `app` as it was and adds the call of `x` after them: a
      tracer registered after the mount runs after the whole upward chain of
      an earlier bridge, and a new bridge re-dispatches on its parent last. */
  lemma DispatchAfterAppend(tr: Table, rank: AppId -> nat, clock: nat -> Date, app: AppId, x: Observer,
                            res: Response, event: Value, args: seq<Value>, t: nat)
    requires Ranked(tr, rank) && app in tr
    requires x.Bridge? ==> rank(x.parent) < rank(app)
    requires Dispatch(tr, rank, clock, app, res, event, args, t).error.None?
    ensures Ranked(tr[app := tr[app] + [x]], rank)
    ensures var before := Dispatch(tr, rank, clock, app, res, event, args, t);
            var rec := Record(app, res, res.req, event, clock(t), args);
            var call := Call(tr, rank, clock, x, rec, before.next);
            Dispatch(tr[app := tr[app] + [x]], rank, clock, app, res, event, args, t)
              == Outcome(before.deliveries + call.deliveries, call.error, call.next)
  {
    var tr' := tr[app := tr[app] + [x]];
    var obs := tr[app] + [x];
    assert BridgesBelow(obs, rank, app) by {
      forall i | 0 <= i < |obs| && obs[i].Bridge? ensures rank(obs[i].parent) < rank(app) {
        if i < |tr[app]| { assert obs[i] == tr[app][i]; }
      }
    }
    assert Ranked(tr', rank);
    var rec := Record(app, res, res.req, event, clock(t), args);
    assert obs[..|obs| - 1] == tr[app];
    DeliverFrame(tr', tr, rank, clock, tr[app], rec, t + 1);
    var done := Deliver(tr, rank, clock, tr[app], rec, t + 1);
    assert Dispatch(tr, rank, clock, app, res, event, args, t) == done;
    if x.Bridge? {
      DispatchFrame(tr', tr, rank, clock, x.parent, res, event, args, done.next);
    }
    assert Call(tr', rank, clock, x, rec, done.next) == Call(tr, rank, clock, x, rec, done.next);
    assert Dispatch(tr', rank, clock, app, res, event, args, t) == Deliver(tr', rank, clock, obs, rec, t + 1);
  }
}
