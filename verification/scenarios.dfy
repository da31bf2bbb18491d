/** Whole runs of the registry, from configuration to a traced event, on
    small concrete mount trees, and the registration errors. */
module Scenarios {
  import opened TraceTypes
  import opened Propagation
  import opened ExpressTracer

  /** Dispatch from application 1, mounted under the root 0 which has one
      user tracer: the bridge is called, then the root's tracer with a record
      whose `app` is the root and whose response, event and arguments are the
      original ones. */
  lemma LoginDispatch(rank: AppId -> nat, clock: nat -> Date, res: Response, event: Value, args: seq<Value>, t: nat)
    requires rank(0) < rank(1)
    ensures var tr := map[0 := [User(5)], 1 := [Bridge(0)]];
            Ranked(tr, rank) &&
            Dispatch(tr, rank, clock, 1, res, event, args, t) ==
              Outcome([Delivery(Bridge(0), Record(1, res, res.req, event, clock(t), args)),
                       Delivery(User(5), Record(0, res, res.req, event, clock(t + 1), args))], None, t + 2)
  {
    var tr := map[0 := [User(5)], 1 := [Bridge(0)]];
    assert Ranked(tr, rank);
    var root := Record(0, res, res.req, event, clock(t + 1), args);
    var child := Record(1, res, res.req, event, clock(t), args);
    DeliverSingle(tr, rank, clock, User(5), root, t + 2);
    assert Dispatch(tr, rank, clock, 0, res, event, args, t + 1) == Outcome([Delivery(User(5), root)], None, t + 2);
    DeliverSingle(tr, rank, clock, Bridge(0), child, t + 1);
  }

  /** Root 0 registers user tracer 5 and application 1 is mounted under it. */
  method LoginSetup(clock: nat -> Date, ghost rank: AppId -> nat) returns (apps: Apps)
    requires rank(0) < rank(1)
    ensures fresh(apps) && apps.Valid() && apps.rank == rank && apps.clock == clock
    ensures apps.tracers == map[0 := [User(5)], 1 := [Bridge(0)]]
    ensures apps.log == [] && apps.readings == 0
  {
    apps := new Apps(clock, rank);
    apps.Configure(0);
    apps.Configure(1);
    var ok := apps.Instrument(0, Function(5));
    assert [] + [User(5)] == [User(5)];
    apps.Mount(1, 0);
    assert [] + Repeat(Bridge(0), 1) == [Bridge(0)];
  }

  /** A response of application 1 traces 'user:login'
      with one argument. The root's tracer is called once, after the bridge,
      with the same response, event and argument. */
  method LoginReachesRoot(clock: nat -> Date, ghost rank: AppId -> nat) returns (log: seq<Delivery>, r: Result<Response>)
    requires rank(0) < rank(1)
    ensures r == Ok(Response(7, 1, 70))
    ensures log == [Delivery(Bridge(0), Record(1, Response(7, 1, 70), 70, Str("user:login"), clock(0), [Object(42)])),
                    Delivery(User(5), Record(0, Response(7, 1, 70), 70, Str("user:login"), clock(1), [Object(42)]))]
  {
    var apps := LoginSetup(clock, rank);
    var res := Response(7, 1, 70);
    var arguments := [Str("user:login"), Object(42)];
    assert arguments[1..] == [Object(42)];
    LoginDispatch(rank, clock, res, Str("user:login"), [Object(42)], 0);
    r := apps.Trace(res, arguments);
    log := apps.log;
  }

  /** Grandchild 2 mounted under 1, 1 under the root 0, and only the root has
      a tracer: one dispatch at the grandchild calls the two bridges and then
      that tracer, with the grandchild's response and arguments. */
  lemma ThreeLevelChain(rank: AppId -> nat, clock: nat -> Date, res: Response, event: Value, args: seq<Value>, t: nat)
    requires rank(0) < rank(1) < rank(2)
    ensures var tr := map[0 := [User(9)], 1 := [Bridge(0)], 2 := [Bridge(1)]];
            Ranked(tr, rank) &&
            Dispatch(tr, rank, clock, 2, res, event, args, t) ==
              Outcome([Delivery(Bridge(1), Record(2, res, res.req, event, clock(t), args)),
                       Delivery(Bridge(0), Record(1, res, res.req, event, clock(t + 1), args)),
                       Delivery(User(9), Record(0, res, res.req, event, clock(t + 2), args))], None, t + 3)
  {
    var tr := map[0 := [User(9)], 1 := [Bridge(0)], 2 := [Bridge(1)]];
    assert Ranked(tr, rank);
    var r0 := Record(0, res, res.req, event, clock(t + 2), args);
    var r1 := Record(1, res, res.req, event, clock(t + 1), args);
    var r2 := Record(2, res, res.req, event, clock(t), args);
    var d0, d1 := Delivery(User(9), r0), Delivery(Bridge(0), r1);
    DeliverSingle(tr, rank, clock, User(9), r0, t + 3);
    assert Dispatch(tr, rank, clock, 0, res, event, args, t + 2) == Outcome([d0], None, t + 3);
    DeliverSingle(tr, rank, clock, Bridge(0), r1, t + 2);
    assert Dispatch(tr, rank, clock, 1, res, event, args, t + 1) == Outcome([d1, d0], None, t + 3);
    DeliverSingle(tr, rank, clock, Bridge(1), r2, t + 1);
  }

  /** Per-application calls of a sequence shaped like the chain's run. */
  lemma ChainShapeLocal(d2: Delivery, d1: Delivery, d0: Delivery)
    requires d2.record.app == 2 && d1.record.app == 1 && d0.record.app == 0
    ensures Local([d2, d1, d0], 0) == [d0.observer]
    ensures Local([d2, d1, d0], 1) == [d1.observer]
    ensures Local([d2, d1, d0], 2) == [d2.observer]
  {
    assert [d2, d1, d0][..2] == [d2, d1] && [d2, d1][..1] == [d2] && [d2][..0] == [];
    assert Local([d2], 0) == [];
    assert Local([d2], 1) == [];
    assert Local([d2], 2) == [d2.observer];
    assert Local([d2, d1], 0) == [] && Local([d2, d1], 1) == [d1.observer] && Local([d2, d1], 2) == [d2.observer];
  }

  /** In the three-level chain each application is called exactly once: the
      grandchild's bridge, the child's bridge and the root's tracer. */
  lemma ThreeLevelChainRoot(rank: AppId -> nat, clock: nat -> Date, res: Response, event: Value, args: seq<Value>, t: nat)
    requires rank(0) < rank(1) < rank(2)
    ensures var tr := map[0 := [User(9)], 1 := [Bridge(0)], 2 := [Bridge(1)]];
            Ranked(tr, rank) &&
            var o := Dispatch(tr, rank, clock, 2, res, event, args, t);
            Local(o.deliveries, 0) == [User(9)] && Local(o.deliveries, 1) == [Bridge(0)] &&
            Local(o.deliveries, 2) == [Bridge(1)]
  {
    ThreeLevelChain(rank, clock, res, event, args, t);
    ChainShapeLocal(Delivery(Bridge(1), Record(2, res, res.req, event, clock(t), args)),
                    Delivery(Bridge(0), Record(1, res, res.req, event, clock(t + 1), args)),
                    Delivery(User(9), Record(0, res, res.req, event, clock(t + 2), args)));
  }

  /** Application 1 mounted twice under the root 0: its two bridges each
      re-dispatch on the root, one clock reading apart. */
  lemma MountTwiceDispatch(rank: AppId -> nat, clock: nat -> Date, res: Response, event: Value, args: seq<Value>, t: nat)
    requires rank(0) < rank(1)
    ensures var tr := map[0 := [User(4)], 1 := [Bridge(0), Bridge(0)]];
            var r1 := Record(1, res, res.req, event, clock(t), args);
            Ranked(tr, rank) &&
            Dispatch(tr, rank, clock, 1, res, event, args, t) ==
              Outcome([Delivery(Bridge(0), r1), Delivery(User(4), Record(0, res, res.req, event, clock(t + 1), args)),
                       Delivery(Bridge(0), r1), Delivery(User(4), Record(0, res, res.req, event, clock(t + 2), args))], None, t + 3)
  {
    var tr := map[0 := [User(4)], 1 := [Bridge(0), Bridge(0)]];
    assert Ranked(tr, rank);
    var r1 := Record(1, res, res.req, event, clock(t), args);
    var first := Record(0, res, res.req, event, clock(t + 1), args);
    var second := Record(0, res, res.req, event, clock(t + 2), args);
    var b, d1, d2 := Delivery(Bridge(0), r1), Delivery(User(4), first), Delivery(User(4), second);
    DeliverSingle(tr, rank, clock, User(4), first, t + 2);
    DeliverSingle(tr, rank, clock, User(4), second, t + 3);
    assert Dispatch(tr, rank, clock, 0, res, event, args, t + 1) == Outcome([d1], None, t + 2);
    assert Dispatch(tr, rank, clock, 0, res, event, args, t + 2) == Outcome([d2], None, t + 3);
    DeliverSingle(tr, rank, clock, Bridge(0), r1, t + 1);
    assert Deliver(tr, rank, clock, [Bridge(0)], r1, t + 1) == Outcome([b, d1], None, t + 2);
    DeliverStep(tr, rank, clock, [Bridge(0), Bridge(0)], 1, r1, t + 1);
    assert [Bridge(0), Bridge(0)][..1] == [Bridge(0)] && [Bridge(0), Bridge(0)][..2] == [Bridge(0), Bridge(0)];
    assert [b, d1] + [b, d2] == [b, d1, b, d2];
  }

  /** Per-application calls of a sequence shaped like the double mount's run. */
  lemma DoubleMountShapeLocal(b: Delivery, d1: Delivery, d2: Delivery)
    requires b.record.app == 1 && d1.record.app == 0 && d2.record.app == 0
    ensures Local([b, d1, b, d2], 0) == [d1.observer, d2.observer]
    ensures Local([b, d1, b, d2], 1) == [b.observer, b.observer]
  {
    var ds := [b, d1, b, d2];
    assert ds[..3] == [b, d1, b] && [b, d1, b][..2] == [b, d1] && [b, d1][..1] == [b] && [b][..0] == [];
    assert Local([b], 0) == [] && Local([b], 1) == [b.observer];
    assert Local([b, d1], 0) == [d1.observer] && Local([b, d1], 1) == [b.observer];
    assert Local([b, d1, b], 0) == [d1.observer] && Local([b, d1, b], 1) == [b.observer, b.observer];
  }

  /** With application 1 mounted twice under the root 0, one dispatch from 1
      calls the root's tracer twice and each of 1's two bridges once: bridges
      are never deduplicated. */
  lemma MountTwiceDuplicates(rank: AppId -> nat, clock: nat -> Date, res: Response, event: Value, args: seq<Value>, t: nat)
    requires rank(0) < rank(1)
    ensures var tr := map[0 := [User(4)], 1 := [Bridge(0), Bridge(0)]];
            Ranked(tr, rank) &&
            var o := Dispatch(tr, rank, clock, 1, res, event, args, t);
            o.error == None && Local(o.deliveries, 0) == [User(4), User(4)] &&
            Local(o.deliveries, 1) == [Bridge(0), Bridge(0)]
  {
    MountTwiceDispatch(rank, clock, res, event, args, t);
    DoubleMountShapeLocal(Delivery(Bridge(0), Record(1, res, res.req, event, clock(t), args)),
                          Delivery(User(4), Record(0, res, res.req, event, clock(t + 1), args)),
                          Delivery(User(4), Record(0, res, res.req, event, clock(t + 2), args)));
  }

  /** Mounting twice registers a second bridge at the end of the child's list. */
  method MountTwice() returns (list: seq<Observer>)
    ensures list == [Bridge(0), Bridge(0)]
  {
    var apps := new Apps(k => k, a => a);
    apps.Configure(0);
    apps.Configure(1);
    apps.Mount(1, 0);
    apps.Mount(1, 0);
    assert Repeat(Bridge(0), 1) == [Bridge(0)];
    list := apps.tracers[1];
  }

  /** The registration errors: an application that was never configured has
      no `instrument`, a configured one refuses anything but a function, and
      neither changes the tracer list; `trace` with no event calls nothing. */
  method RegistrationErrors() returns (unconfigured: Result<AppId>, notFunction: Result<AppId>,
                                       undefined: Result<AppId>, noEvent: Result<Response>, calls: nat)
    ensures unconfigured == Err(NotConfigured)
    ensures notFunction == Err(NotAFunction) && undefined == Err(NotAFunction)
    ensures noEvent == Err(NoEvent) && calls == 0
  {
    var apps := new Apps(k => k, a => a);
    unconfigured := apps.Instrument(0, Str("notatracer"));
    apps.Configure(0);
    notFunction := apps.Instrument(0, Str("notatracer"));
    undefined := apps.Instrument(0, Undefined);
    noEvent := apps.Trace(Response(1, 0, 1), []);
    calls := |apps.log|;
  }

  /** An application configured twice has two 'mount' handlers: its earlier
      tracers are dropped and one mount registers two bridges. */
  method ConfigureTwice() returns (list: seq<Observer>)
    ensures list == [Bridge(0), Bridge(0)]
  {
    var apps := new Apps(k => k, a => a);
    apps.Configure(0);
    apps.Configure(1);
    var ok := apps.Instrument(1, Function(3));
    apps.Configure(1);
    apps.Mount(1, 0);
    assert Repeat(Bridge(0), 2) == [Bridge(0), Bridge(0)];
    list := apps.tracers[1];
  }
}
