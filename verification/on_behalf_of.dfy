/** The scoped on-behalf-of identity switch of the CurrencyCloud client.

    A client holds one override slot. `Enter` models `onBehalfOfDo(id, work)`:
    it validates `id`, refuses to nest inside an active scope, sets the slot,
    runs `work` and clears the slot again on every exit path. Java exceptions
    become `Outcome` values; the work a caller passes is a small program
    (`Work`) whose steps either read the slot, throw, make a nested
    `onBehalfOfDo` call or catch a failure of a sub-block. */
module OnBehalfOf {
  import opened JavaLang
  import opened Uuid

  /** The fragment the nesting refusal's message carries. */
  const NestMessage := "Can't nest on-behalf-of calls"

  /** The fragment the format refusal's message ends with. */
  const NotUuidMessage := "is not a UUID"

  /** A `CurrencyCloudClient`: its server address and the override slot that
      `getOnBehalfOf()` reads (`Null` when no override is set). */
  datatype Client = Client(server: string, onBehalfOf: Nullable<string>)
  {
    predicate Idle() { onBehalfOf.Null? }
    predicate Active() { onBehalfOf.NonNull? }
  }

  /** The exception a unit of work may throw (`CurrencyCloudException`). */
  datatype WorkError = CurrencyCloudException(detail: string)

  /** How a call returns control: normally, or with one of the exceptions. */
  datatype Outcome =
    | Ok
    | IllegalArgument(msg: string)
    | IllegalState(msg: string)
    | WorkFailed(error: WorkError)

  /** The body of a `Runnable`, as a sequence of observable steps. */
  datatype Work =
    | Done
      /** read `getOnBehalfOf()`, then continue */
    | Observe(rest: Work)
      /** throw the given exception */
    | Throw(error: WorkError)
      /** call `onBehalfOfDo(id, body)` on the same client; if it throws,
          the exception escapes, otherwise continue */
    | Nest(id: string, body: Work, rest: Work)
      /** `try { body } catch (RuntimeException ignore) {}`, then continue */
    | Try(body: Work, rest: Work)

  /** What a run of work was seen to do, in order. */
  datatype Event = Saw(slot: Nullable<string>) | Raised(error: WorkError)

  /** The outcome of a call, the client afterwards and the steps of work that ran. */
  datatype Exec = Exec(outcome: Outcome, client: Client, trace: seq<Event>)

  /** Every slot read recorded in `trace` returned `v`. */
  predicate SawOnly(trace: seq<Event>, v: Nullable<string>)
  {
    forall k | 0 <= k < |trace| :: trace[k].Saw? ==> trace[k].slot == v
  }

  /** A refusal carries the message fragment callers look for: "is not a UUID"
      for a malformed id, "Can't nest on-behalf-of calls" for a nested call. */
  predicate CarriesMessage(o: Outcome)
  {
    && (o.IllegalArgument? ==> Contains(o.msg, NotUuidMessage))
    && (o.IllegalState? ==> Contains(o.msg, NestMessage))
  }

  /** A failure that escaped a run was raised by one of the run's own steps. */
  predicate FailureWasRaised(x: Exec)
  {
    x.outcome.WorkFailed? ==> Raised(x.outcome.error) in x.trace
  }

  /** `new CurrencyCloudClient(server)`: no override is set. */
  function NewClient(server: string): (c: Client)
    ensures c.Idle() && c.server == server
  {
    Client(server, Null)
  }

  /** The slot reset of the `finally` block: idle afterwards, and a no-op on an idle client. */
  function Clear(c: Client): (r: Client)
    ensures r.Idle() && r.server == c.server
    ensures c.Idle() ==> r == c
  {
    c.(onBehalfOf := Null)
  }

  /** The exception a refused call raises: a malformed id is reported first,
      then an already active scope; `Null` when the call may proceed. */
  function Refusal(c: Client, id: string): (r: Nullable<Outcome>)
    ensures r == Null <==> IsUuid(id) && c.Idle()
    ensures r.NonNull? ==> (r.value.IllegalArgument? <==> !IsUuid(id))
    ensures r.NonNull? ==> r.value.IllegalArgument? || r.value.IllegalState?
    ensures r.NonNull? ==> CarriesMessage(r.value)
  {
    if !IsUuid(id) then
      ContainsSuffix(id + " ", NotUuidMessage);
      NonNull(IllegalArgument(id + " " + NotUuidMessage))
    else if c.Active() then
      assert OccursAt(NestMessage, NestMessage, 0);
      NonNull(IllegalState(NestMessage))
    else
      Null
  }

  /** `client.onBehalfOfDo(id, w)`.

      A refused call changes nothing and runs no work. An accepted call runs
      `w` with the slot set to `id`, so every read inside it sees exactly
      `id`, and returns the client with the slot cleared, whatever `w` did;
      a failure of `w` reaches the caller as `w` raised it. */
  function Enter(c: Client, id: string, w: Work): (r: Exec)
    decreases w, 1
    ensures r.client == c
    ensures !IsUuid(id) ==> r.outcome.IllegalArgument? && r.trace == []
    ensures IsUuid(id) && c.Active() ==> r.outcome.IllegalState? && r.trace == []
    ensures CarriesMessage(r.outcome)
    ensures SawOnly(r.trace, NonNull(id))
    ensures FailureWasRaised(r)
  {
    match Refusal(c, id)
    case NonNull(failure) => Exec(failure, c, [])
    case Null =>
      var inside := Run(c.(onBehalfOf := NonNull(id)), w);
      Exec(inside.outcome, Clear(inside.client), inside.trace)
  }

  /** Runs work against client `c`, outside or inside a scope.

      Work cannot change the client as the caller sees it, since every nested
      call restores what it found; inside a scope each read sees the scope's id. */
  function Run(c: Client, w: Work): (r: Exec)
    decreases w, 0
    ensures r.client == c
    ensures c.Active() ==> SawOnly(r.trace, c.onBehalfOf)
    ensures CarriesMessage(r.outcome)
    ensures FailureWasRaised(r)
  {
    match w
    case Done => Exec(Ok, c, [])
    case Observe(rest) =>
      var after := Run(c, rest);
      Exec(after.outcome, after.client, [Saw(c.onBehalfOf)] + after.trace)
    case Throw(e) => Exec(WorkFailed(e), c, [Raised(e)])
    case Nest(id, body, rest) =>
      var nested := Enter(c, id, body);
      if nested.outcome != Ok then nested
      else
        var after := Run(nested.client, rest);
        Exec(after.outcome, after.client, nested.trace + after.trace)
    case Try(body, rest) =>
      var tried := Run(c, body);
      var after := Run(tried.client, rest);
      Exec(after.outcome, after.client, tried.trace + after.trace)
  }

  /** Reference semantics of a unit of work run inside a single-depth scope
      for `id`, with no client state at all: every read yields `id`, and
      every nested call is refused outright. */
  function Scoped(w: Work, id: string): (r: (Outcome, seq<Event>))
  {
    match w
    case Done => (Ok, [])
    case Observe(rest) =>
      var (o, t) := Scoped(rest, id);
      (o, [Saw(NonNull(id))] + t)
    case Throw(e) => (WorkFailed(e), [Raised(e)])
    case Nest(inner, _, _) =>
      if IsUuid(inner) then (IllegalState(NestMessage), [])
      else (IllegalArgument(inner + " " + NotUuidMessage), [])
    case Try(body, rest) =>
      var (_, tb) := Scoped(body, id);
      var (o, tr) := Scoped(rest, id);
      (o, tb + tr)
  }

  /** Inside an active scope, running work is exactly the reference semantics. */
  lemma {:induction false} RunInScopeIsScoped(c: Client, id: string, w: Work)
    requires c.onBehalfOf == NonNull(id)
    ensures (Run(c, w).outcome, Run(c, w).trace) == Scoped(w, id)
  {
    match w
    case Done =>
    case Observe(rest) => RunInScopeIsScoped(c, id, rest);
    case Throw(_) =>
    case Nest(inner, body, rest) =>
    case Try(body, rest) =>
      RunInScopeIsScoped(c, id, body);
      RunInScopeIsScoped(c, id, rest);
  }

  /** An accepted call from an idle client behaves as the reference scope
      prescribes and leaves the client as it found it. */
  lemma EnterFollowsScoped(c: Client, id: string, w: Work)
    requires c.Idle() && IsUuid(id)
    ensures Enter(c, id, w) == Exec(Scoped(w, id).0, c, Scoped(w, id).1)
  {
    RunInScopeIsScoped(c.(onBehalfOf := NonNull(id)), id, w);
  }

  /** A failure thrown by the work reaches the caller unchanged, after the
      slot has been cleared. */
  lemma WorkFailurePropagates(c: Client, id: string, e: WorkError, w: Work)
    requires c.Idle() && IsUuid(id)
    ensures Enter(c, id, Observe(Throw(e))).outcome == WorkFailed(e)
    ensures Enter(c, id, Try(w, Throw(e))).outcome == WorkFailed(e)
    ensures Enter(c, id, Observe(Throw(e))).client.Idle()
  {
    EnterFollowsScoped(c, id, Observe(Throw(e)));
    EnterFollowsScoped(c, id, Try(w, Throw(e)));
  }

  /** A nested call inside an active scope is refused, its body never runs,
      and the outer scope is untouched: a read after the refused call, once
      caught, still sees the outer id. */
  lemma NestedCallIsRefused(c: Client, outer: string, inner: string, body: Work)
    requires c.Idle() && IsUuid(outer) && IsUuid(inner)
    ensures Enter(c, outer, Nest(inner, body, Done)).outcome.IllegalState?
    ensures Enter(c, outer, Nest(inner, body, Done)).trace == []
    ensures Enter(c, outer, Try(Nest(inner, body, Done), Observe(Done))).trace == [Saw(NonNull(outer))]
  {
    EnterFollowsScoped(c, outer, Nest(inner, body, Done));
    EnterFollowsScoped(c, outer, Try(Nest(inner, body, Done), Observe(Done)));
    assert Scoped(Observe(Done), outer).1 == [Saw(NonNull(outer))];
  }

  /** Sequential calls on one client do not leak into each other: the second
      call sees only its own id and ends as on a fresh client. */
  lemma SequentialCallsDoNotLeak(c: Client, id1: string, w1: Work, id2: string, w2: Work)
    requires c.Idle()
    ensures Enter(Enter(c, id1, w1).client, id2, w2) == Enter(NewClient(c.server), id2, w2)
    ensures SawOnly(Enter(Enter(c, id1, w1).client, id2, w2).trace, NonNull(id2))
  {
  }
}
