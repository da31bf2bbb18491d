/** Values exchanged between the tracer registry, the dispatcher and the
    response-side emitter of express-tracer. */
module TraceTypes {

  /** An Express application, by identity. */
  type AppId = nat

  /** A timestamp as read from the wall clock (`new Date()`). */
  type Date = int

  /** The JavaScript values a caller can hand to `instrument` or `trace`;
      only the distinction "function or not" matters to the core. */
  datatype Value =
    | Undefined
    | Str(s: string)
    | Function(id: nat)
    | Object(id: nat)

  /** A response object: its identity, the application it belongs to
      (`res.app`) and its request (`res.req`), both opaque to the core. */
  datatype Response = Response(id: nat, app: AppId, req: nat)

  /** A registered tracer: a user function, known only by identity, or the
      `callParentTracer` closure installed when the application is mounted. */
  datatype Observer = User(id: nat) | Bridge(parent: AppId)

  /** The option object built once per `callTracers` call. */
  datatype Record = Record(app: AppId, res: Response, req: nat, event: Value, date: Date, args: seq<Value>)

  /** One call of one tracer with one record. */
  datatype Delivery = Delivery(observer: Observer, record: Record)

  /** The exceptions the core raises: a TypeError because the application was
      never configured (`app.instrument` / `app.callTracers` is undefined), a
      TypeError because the tracer is not a function, and the plain Error
      'No event defined!'. */
  datatype Error = NotConfigured | NotAFunction | NoEvent

  datatype Option<T> = None | Some(value: T)

  datatype Result<T> = Ok(value: T) | Err(error: Error)

  /** What one dispatch does: the tracer calls it makes, in order, the
      exception it ends with (if any), and how many clock readings have been
      taken once it is over. */
  datatype Outcome = Outcome(deliveries: seq<Delivery>, error: Option<Error>, next: nat)
}
