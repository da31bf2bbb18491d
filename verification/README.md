# express-tracer, modelled in Dafny

express-tracer adds event tracing to Express applications. `configureExpressApp(app)`
gives an application an ordered list of tracers (`app.tracers`), the methods
`instrument` and `callTracers`, a `trace` method on its responses, and a 'mount'
handler. When a response calls `res.trace(event, ...args)`, `callTracers` on the
response's application reads the clock once and builds one option record
(`app`, `res`, `req`, `event`, `date`, `args`). It then calls every tracer that
was in the list on entry, in order. When the application is mounted under a
parent, the 'mount' handler registers a bridge tracer, `callParentTracer`. The
bridge calls `parent.callTracers` with the same response, event and arguments,
so a traced event climbs to every ancestor of the tree.

The model has three layers:

- `TraceTypes` (types.dfy) holds the values: applications by identity, the
  JavaScript values that matter (function or not), responses, tracers (a user
  function or a bridge to a parent), option records, tracer calls and the
  three exceptions.
- `Propagation` (propagation.dfy) describes a dispatch as functions of the
  tracer table:
  - `Dispatch` is `callTracers`;
  - `Deliver` is its loop over the tracer list;
  - `Call` is one tracer call, which on a bridge is a dispatch on the parent;
  - `CollectArgs` is the argument switch of `trace`.
  It proves what a dispatch does: which tracers run, with which record, in
  which order, when it fails, and how it changes when a tracer is added.
- `ExpressTracer` (tracer.dfy) is the registry as mutable state, a class
  `Apps`. Its fields are the tracer lists, the number of 'mount' handlers per
  application, the log of tracer calls and the number of clock readings.
  Its methods are `Configure`, `Instrument`, `CallTracers` (with the source's
  loop), `Trace` and `Mount`. `Invoke`, `CallTracers` and `Trace` are proved
  against the `Propagation` functions. `Configure`, `Push`, `Instrument` and
  `Mount` state the exact update of the tracer table.

`Scenarios` (scenarios.dfy) works through concrete runs: a 'user:login' event
traced from a mounted application, a three-level chain, a double mount, a reconfiguration and the registration
errors.

The wall clock (`new Date()`) is the parameter `clock`: the `k`-th reading
of the process. The registry counts its readings. Mount trees are acyclic by
a ghost `rank` fixed when the registry is created: a bridge always points to
a parent of lower rank. This is what makes a dispatch terminate.

## Model

| member | source | states |
|---|---|---|
| Propagation.CollectArgs | index.js:66-79 | `trace` with no argument fails with 'No event defined!' and nothing else. Otherwise the event is the first argument and `args` are exactly the remaining ones, so event plus args give back the arguments. |
| Propagation.DeliverSingle | index.js:51-53 | A one-tracer list makes exactly that tracer's call. |
| Propagation.DeliverStops | index.js:51-53 | An exception thrown by the call of tracer `k-1` ends the loop: later tracers are not called and the outcome is that of the first `k` tracers. |
| Propagation.LocalAppend | index.js:51-53 | The calls made at one application over two consecutive runs are those of the first run followed by those of the second. |
| Propagation.DispatchLocal | index.js:36-53 | `callTracers` on an unconfigured application makes no call and fails with NotConfigured. On a configured one, the tracers called with this application's record are a prefix of its list on entry, and exactly the whole list, in order, when no exception occurs. Every one of them receives the same record `{app, res, req: res.req, event, date: clock(t), args}`. |
| Propagation.DeliverLocal | index.js:51-53 | The loop calls the list's tracers at its own application in index order: a prefix of the list, and all of it when nothing throws. |
| Propagation.CallLocal | index.js:52 | One tracer call first calls that tracer with the record, and makes no other call at the record's own application. A user tracer's call is only that. Every later call, made by the bridge's re-dispatch, is at the bridge's parent or at an application reachable from it. |
| Propagation.ParentDispatchElsewhere | index.js:90-93 | A dispatch on a parent never calls a tracer with a record of a lower child. |
| Propagation.DispatchCarries | index.js:42-49 | Every call of a dispatch, at any ancestor, carries the original response, its request, the event and the args. A call at the origin carries exactly the origin's record, and any other call is made at a strictly higher application of the tree. |
| Propagation.DeliverCarries | index.js:42-53 | Every call the loop makes carries the record's response, request, event and args. |
| Propagation.CallCarries | index.js:91-93 | The same for one tracer call, including the bridge, which passes `options.res`, `options.event` and `options.args` on unchanged. |
| Propagation.ClosedUnfold | index.js:90-93 | An application is closed (every application its bridges lead to is configured) exactly when it is configured and every parent its bridges point to is closed. |
| Propagation.DispatchSucceeds | index.js:36-54 | A dispatch throws no exception if and only if every application reachable through bridges is configured. The only exception it can raise is NotConfigured. |
| Propagation.DeliverSucceeds | index.js:51-53 | The loop completes if and only if every bridge in the list leads to a closed parent. Any failure is NotConfigured. |
| Propagation.DeliverEmbeds | index.js:51-53 | When the loop completes, the calls of each bridge's re-dispatch on its parent appear as one contiguous block of the loop's calls. |
| Propagation.DispatchReachesAncestors | index.js:90-93 | When a dispatch completes, every ancestor reachable through bridges is configured, and its whole tracer list is called in order within the dispatch. An event fired deep in the tree reaches every ancestor's tracers. |
| Propagation.DispatchStaysOnChain | index.js:90-93 | Every call a dispatch makes is at the origin application or at an application reachable from it through bridges: events never flow down or sideways. |
| Propagation.DeliverStaysOnChain | index.js:51-53 | Every call made by the loop is at the loop's own application or reachable through one of the list's bridges. |
| Propagation.DispatchFrame | index.js:36-54 | A dispatch depends only on the origin's tracer list and on the lists of applications ranked below the origin, where all its ancestors are. Two tables that agree there give the same outcome. |
| Propagation.DeliverFrame | index.js:51-53 | The loop depends only on the tracer lists of applications above its own. |
| Propagation.DispatchAfterAppend | index.js:18-54 | Registering one more tracer at an application changes a dispatch there (one that completed before) only by one extra tracer call at the end, with the same record and the next clock readings. |
| ExpressTracer.Repeat | index.js:90-94 | The bridges registered by `n` 'mount' handlers: exactly `n` copies of the bridge. |
| ExpressTracer.Apps.constructor | index.js:85-95 | A new registry has no configured application, no tracer call and no clock reading. |
| ExpressTracer.Apps.Configure | index.js:85-90 | `configureExpressApp` sets the application's tracers to an empty list and attaches one more 'mount' handler. Other applications are unchanged, and the registry stays well formed. |
| ExpressTracer.Apps.Push | index.js:21 | `this.tracers.push(tracer)` appends exactly one tracer at the end of the list and changes nothing else. |
| ExpressTracer.Apps.Instrument | index.js:18-23 | An unconfigured application has no `instrument` (NotConfigured). Anything but a function is refused with NotAFunction and the list is unchanged. A function is appended to the end of the list and the application is returned. |
| ExpressTracer.Apps.Invoke | index.js:91-93 | One tracer call appends exactly the calls and clock readings of `Call`. A bridge runs `parent.callTracers(options.res, options.event, options.args)`. |
| ExpressTracer.Apps.CallTracers | index.js:36-54 | The loop over the list on entry appends exactly the tracer calls of `Dispatch` to the log, takes its clock readings and raises its exception. |
| ExpressTracer.Apps.Trace | index.js:66-82 | With no argument it fails with NoEvent before any tracer runs or the clock is read. Otherwise it dispatches on `res.app` with the first argument as event and the rest as `args`, and returns `res` when no exception occurs. |
| ExpressTracer.Apps.Mount | index.js:90-94 | Each 'mount' handler of the child registers one bridge to the parent at the end of the child's list. An unconfigured child has no handler and is unchanged. |
| Scenarios.LoginDispatch | index.js:36-54 | With application 1 mounted under root 0, which has one tracer, a dispatch from 1 calls the bridge and then the root's tracer once. The root's record has the same response, event and args and the next clock reading. |
| Scenarios.LoginSetup | index.js:85-94 | Configuring 0 and 1, instrumenting 0 and mounting 1 under 0 gives the expected tracer table, with no call and no clock reading yet. |
| Scenarios.LoginReachesRoot | index.js:66-82 | `res.trace('user:login', obj)` from application 1 returns the response. The root's tracer is called exactly once, after the bridge, with the response, 'user:login' and `[obj]`. |
| Scenarios.ThreeLevelChain | index.js:90-93 | In a grandchild → child → root chain, a dispatch at the grandchild calls the two bridges and then the root's tracer, one clock reading per level. |
| Scenarios.ThreeLevelChainRoot | index.js:90-93 | In the dispatch from the grandchild of that chain, each application is called exactly once: the grandchild's bridge, the child's bridge and the root's tracer. |
| Scenarios.MountTwiceDispatch | index.js:90-94 | A child mounted twice under the same parent re-dispatches on the parent twice, one clock reading apart. |
| Scenarios.MountTwiceDuplicates | index.js:90-94 | In the dispatch from a child whose list holds two bridges to the root, the dispatch completes, the root's tracer is called twice and each bridge once: bridges are never deduplicated. |
| Scenarios.MountTwice | index.js:90-94 | Two mounts of the same child register two bridges. |
| Scenarios.RegistrationErrors | test/app.instrument.js:18-23 | `instrument('notatracer')` on an unconfigured application fails (the test's case). On a configured one, a string or `undefined` fails with NotAFunction. `trace()` fails with NoEvent and calls no tracer. |
| Scenarios.ConfigureTwice | index.js:85-94 | An application configured twice loses its earlier tracers. Its two 'mount' handlers register two bridges on one mount. |

## Left out

- Express itself is not modelled: `express()`, the request and response prototypes, the patching of `app.response.__proto__`, and the 'mount' event machinery. A mount is the `Mount` operation, and a response is a value naming its application.
- `trace` is installed on a shared response prototype, so in the source it exists once any application has been configured. The model gives it to every response. Calling it on a response of an unconfigured application raises NotConfigured, as `this.app.callTracers` is then undefined.
- The wall clock is the parameter `clock`. Only the number of readings is state.
- User tracers are opaque identities: their bodies and side effects are not modelled. This includes a user tracer that throws, and one that registers tracers during a dispatch. In the model only a bridge to an unconfigured parent throws. Without reentrant registration, the list snapshot `length` taken on entry is the list itself.
- ExpressTracer.Apps.Mount: requires a parent of lower rank than the child, so the tree is acyclic. A cycle of mounts makes the source recurse without bound until the stack overflows, and this is not modelled.
- JavaScript's dynamic checks are reduced to the distinctions the core makes. `typeof tracer !== 'function'` is the `Function` case of `Value`; `arguments.length` is the length of the argument sequence.
- Object identity and aliasing of `res`, `req` and the options object are modelled by value equality. The bridge receives the same option values, which is what `options.res` passes on.
- Concurrency and asynchronous tracers: a dispatch is synchronous in the source and is modelled as one step.
- No check that the event is a non-empty string. The comment at index.js:10 describes `event` as a string, but index.js:68-70 throws only when `trace` gets no argument at all, so `trace(undefined)` and `trace('')` dispatch normally. The model adds no check the code does not make.
- No deduplication of 'mount' handlers or bridges. index.js:90-94 attaches one handler per `configureExpressApp` call and each handler registers one bridge, so an application configured twice gets two bridges per mount, and a second mount adds more. The model keeps every one of them.
