/**
  The base of every backend GATT server: it owns a service collection, created empty,
  and brackets a body between `start` and `stop` when used as an async context manager.
  `start`, `stop` and `add_service` belong to the backend; here they are hooks whose
  outcome is a parameter and whose calls are recorded in the ghost `calls` trace.
 */
module Server {
  import opened Wrappers
  import opened Gatt

  /** A call into the backend's part of the server. */
  datatype ServerCall =
    | StartCall
    | StopCall
    | AddServiceCall(service: GattService)

  /** The calls `add_service` receives for the services of a body, in order. */
  function AddServiceCalls(body: seq<GattService>): (r: seq<ServerCall>)
    ensures |r| == |body|
    ensures forall i :: 0 <= i < |body| ==> r[i] == AddServiceCall(body[i])
  {
    seq(|body|, i requires 0 <= i < |body| => AddServiceCall(body[i]))
  }

  /** How many times `c` occurs in `calls`. */
  function Occurrences(calls: seq<ServerCall>, c: ServerCall): nat
  {
    if calls == [] then 0
    else Occurrences(calls[..|calls| - 1], c) + (if calls[|calls| - 1] == c then 1 else 0)
  }

  lemma {:induction false} OccurrencesConcat(a: seq<ServerCall>, b: seq<ServerCall>, c: ServerCall)
    ensures Occurrences(a + b, c) == Occurrences(a, c) + Occurrences(b, c)
    decreases |b|
  {
    if b == [] {
      assert a + b == a;
    } else {
      var n := |b| - 1;
      assert (a + b)[..|a + b| - 1] == a + b[..n];
      OccurrencesConcat(a, b[..n], c);
    }
  }

  /** A body's calls hold neither a start nor a stop. */
  lemma {:induction false} BodyHasNoStartOrStop(body: seq<GattService>)
    ensures Occurrences(AddServiceCalls(body), StartCall) == 0
    ensures Occurrences(AddServiceCalls(body), StopCall) == 0
  {
    if body != [] {
      var n := |body| - 1;
      BodyHasNoStartOrStop(body[..n]);
      assert AddServiceCalls(body)[..n] == AddServiceCalls(body[..n]);
    }
  }

  /**
    What the bracket contributes, whatever the body calls: `start` comes first and `stop`
    last, and each occurs exactly once more than in the body alone.
   */
  lemma Bracketed(body: seq<ServerCall>)
    ensures var t := [StartCall] + body + [StopCall];
      && t[0] == StartCall && t[|t| - 1] == StopCall
      && Occurrences(t, StartCall) == 1 + Occurrences(body, StartCall)
      && Occurrences(t, StopCall) == 1 + Occurrences(body, StopCall)
  {
    OccurrencesConcat([StartCall], body, StartCall);
    OccurrencesConcat([StartCall] + body, [StopCall], StartCall);
    OccurrencesConcat([StartCall], body, StopCall);
    OccurrencesConcat([StartCall] + body, [StopCall], StopCall);
    assert [StartCall][..0] == [] && [StopCall][..0] == [];
  }

  /** A body that only adds services sees `start` exactly once, first, and `stop` exactly once, last. */
  lemma BracketedServices(services: seq<GattService>)
    ensures var t := [StartCall] + AddServiceCalls(services) + [StopCall];
      && t[0] == StartCall && t[|t| - 1] == StopCall
      && Occurrences(t, StartCall) == 1 && Occurrences(t, StopCall) == 1
  {
    BodyHasNoStartOrStop(services);
    Bracketed(AddServiceCalls(services));
  }

  class BaseServer {
    /** The server's service collection. */
    const services: ServiceCollection
    ghost var calls: seq<ServerCall>

    /** `__init__`: a fresh, empty service collection, and nothing called yet. */
    constructor ()
      ensures fresh(services)
      ensures services.services == [] && services.characteristics == [] && services.descriptors == []
      ensures calls == []
    {
      services := new ServiceCollection();
      calls := [];
    }

    /**
      `start`: the backend starts the server and reports whether it did, or raises;
      `outcome` is what the backend does.
     */
    method Start(outcome: Result<bool, string>) returns (r: Result<bool, string>)
      modifies this`calls
      ensures r == outcome
      ensures calls == old(calls) + [StartCall]
    {
      calls := calls + [StartCall];
      return outcome;
    }

    /**
      `stop`: the backend stops the server and reports whether it did, or raises;
      `outcome` is what the backend does.
     */
    method Stop(outcome: Result<bool, string>) returns (r: Result<bool, string>)
      modifies this`calls
      ensures r == outcome
      ensures calls == old(calls) + [StopCall]
    {
      calls := calls + [StopCall];
      return outcome;
    }

    /** `add_service`: the backend takes one service. */
    method AddService(service: GattService)
      modifies this`calls
      ensures calls == old(calls) + [AddServiceCall(service)]
    {
      calls := calls + [AddServiceCall(service)];
    }

    /**
      `__aenter__`: start once, then hand back the server itself. When `start` raises,
      its exception leaves `__aenter__` and no server is handed back.
     */
    method Enter(startOutcome: Result<bool, string>) returns (r: Result<BaseServer, string>)
      modifies this`calls
      ensures startOutcome.Success? ==> r == Success(this)
      ensures startOutcome.Failure? ==> r == Failure(startOutcome.error)
      ensures calls == old(calls) + [StartCall]
    {
      var started := Start(startOutcome);
      if started.Failure? {
        return Failure(started.error);
      }
      return Success(this);
    }

    /**
      `__aexit__`: stop once, whatever exception the body raised. It returns None, so
      the body's exception, if any, is not suppressed: a normal exit reports false. When
      `stop` raises, its exception leaves `__aexit__` instead.
     */
    method Exit(raised: Option<string>, stopOutcome: Result<bool, string>) returns (r: Result<bool, string>)
      modifies this`calls
      ensures stopOutcome.Success? ==> r == Success(false)
      ensures stopOutcome.Failure? ==> r == Failure(stopOutcome.error)
      ensures calls == old(calls) + [StopCall]
    {
      var stopped := Stop(stopOutcome);
      if stopped.Failure? {
        return Failure(stopped.error);
      }
      return Success(false);
    }

    /**
      One call a body makes on the server; a start or stop the body makes itself reports
      `outcome` (one that raises is the body raising, after its calls).
     */
    method Perform(call: ServerCall, outcome: bool)
      modifies this`calls
      ensures calls == old(calls) + [call]
    {
      match call
      case StartCall =>
        var _ := Start(Success(outcome));
      case StopCall =>
        var _ := Stop(Success(outcome));
      case AddServiceCall(service) =>
        AddService(service);
    }

    /**
      `async with server:` around a body that makes the calls `body` on the server and
      then raises `raised`, if anything. When `start` raises, the body and `stop` never
      run and start's exception reaches the caller. Otherwise the backend sees one start,
      the body's calls and one stop, and the caller gets stop's exception if it raises,
      or else the body's exception unchanged.
     */
    method Use(body: seq<ServerCall>, raised: Option<string>, bodyOutcome: bool,
               startOutcome: Result<bool, string>, stopOutcome: Result<bool, string>)
      returns (propagated: Option<string>)
      modifies this`calls
      ensures startOutcome.Failure? ==>
        propagated == Some(startOutcome.error) && calls == old(calls) + [StartCall]
      ensures startOutcome.Success? && stopOutcome.Failure? ==> propagated == Some(stopOutcome.error)
      ensures startOutcome.Success? && stopOutcome.Success? ==> propagated == raised
      ensures startOutcome.Success? ==> calls == old(calls) + [StartCall] + body + [StopCall]
    {
      var entered := Enter(startOutcome);
      if entered.Failure? {
        return Some(entered.error);
      }
      var self := entered.value;
      ghost var started := calls;
      for i := 0 to |body|
        invariant calls == started + body[..i]
      {
        assert body[..i + 1] == body[..i] + [body[i]];
        self.Perform(body[i], bodyOutcome);
      }
      assert body[..|body|] == body;
      var exited := Exit(raised, stopOutcome);
      if exited.Failure? {
        return Some(exited.error);
      }
      propagated := if exited.value then None else raised;
    }
  }
}
