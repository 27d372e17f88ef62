/** A service locator: a table from service name to a registration record,
    with three lifecycles (transient, singleton, request-scoped), resolution
    through Get and GetScoped, and the loop of the request middleware that
    builds every scoped service into the request context.

    Builders are opaque closures in locator.go; here a builder is a total function of
    the number of builder invocations the locator has made so far (and, for a
    scoped builder, of the request). The locator records every invocation, so
    "the builder ran" and "the builder did not run" are observable. */
module Locator {

  /** An opaque value a builder produces, or Go's nil. */
  datatype Value = Nil | Instance(id: nat)

  /** The inbound request handed to scoped builders. */
  datatype Request = Request(id: nat)

  /** The request context: values keyed by service name. */
  type Context = map<string, Value>

  /** Builds an instance; the argument is the number of builder invocations made before this one. */
  type ServiceBuilder = nat -> Value

  /** Builds a request-scoped instance from the request. */
  type ScopedServiceBuilder = (Request, nat) -> Value

  /** The registration record. The kind is a tag instead of the two flags of
      the Go record, so each kind carries the builder shape it is called with;
      only a singleton has an instance slot. */
  datatype Service =
    | TransientService(build: ServiceBuilder)
    | SingletonService(build: ServiceBuilder, instance: Value)
    | ScopedService(buildScoped: ScopedServiceBuilder)

  /** The three conditions on which locator.go stops the process. */
  datatype Error =
    | ServiceNotFound(name: string)   // "could not find service"
    | UseGetScoped(name: string)      // Get on a scoped service
    | NotScoped(name: string)         // GetScoped on a service that is not scoped

  datatype Result<T> = Ok(value: T) | Fatal(error: Error)

  /** The locator's state as a value: its table and the log of builder invocations. */
  datatype State = State(services: map<string, Service>, invocations: seq<string>)

  /** The outcome of one Get: what it returns and the state after it. */
  datatype Step = Step(result: Result<Value>, next: State)

  /** A record as registration leaves it: a singleton's instance slot empty. */
  function AsRegistered(svc: Service): (r: Service)
  {
    if svc.SingletonService? then SingletonService(svc.build, Nil) else svc
  }

  /** Specification of Get. Get changes no registration (no kind, no
      builder), writes at most the instance of the record under `name`, and
      runs at most one builder, the one registered under `name`. */
  function GetStep(s: State, name: string): (o: Step)
    ensures o.next.services.Keys == s.services.Keys
    ensures forall k :: k in s.services ==> AsRegistered(o.next.services[k]) == AsRegistered(s.services[k])
    ensures forall k :: k in s.services && k != name ==> o.next.services[k] == s.services[k]
    ensures o.next.invocations == s.invocations || o.next.invocations == s.invocations + [name]
    ensures o.result.Fatal? ==> o.next == s
  {
    if name !in s.services then
      Step(Fatal(ServiceNotFound(name)), s)
    else
      match s.services[name]
      case SingletonService(build, instance) =>
        if instance.Nil? then
          var v := build(|s.invocations|);
          Step(Ok(v), State(s.services[name := SingletonService(build, v)], s.invocations + [name]))
        else
          Step(Ok(instance), s)
      case ScopedService(_) =>
        Step(Fatal(UseGetScoped(name)), s)
      case TransientService(build) =>
        Step(Ok(build(|s.invocations|)), State(s.services, s.invocations + [name]))
  }

  /** The names registered as scoped. */
  function ScopedNames(services: map<string, Service>): (names: set<string>)
  {
    set k | k in services && services[k].ScopedService?
  }

  /** Every element of `order` is a scoped name of `services`. */
  ghost predicate AllScoped(services: map<string, Service>, order: seq<string>)
  {
    forall i :: 0 <= i < |order| ==> order[i] in ScopedNames(services)
  }

  /** `order` lists every element of `names` exactly once. */
  ghost predicate Enumerates(order: seq<string>, names: set<string>)
  {
    (forall i :: 0 <= i < |order| ==> order[i] in names) &&
    (forall k :: k in names ==> k in order) &&
    (forall i, j :: 0 <= i < j < |order| ==> order[i] != order[j])
  }

  /** The context the middleware loop produces from `ctx` when it visits the
      scoped names in `order`, the first build being invocation number `n`. */
  ghost function Scope(services: map<string, Service>, req: Request, ctx: Context, n: nat, order: seq<string>): (c: Context)
    requires AllScoped(services, order)
    decreases |order|
  {
    if order == [] then ctx
    else
      var k := order[|order| - 1];
      Scope(services, req, ctx, n, order[..|order| - 1])[k := services[k].buildScoped(req, n + |order| - 1)]
  }

  /** The names in `order`. */
  function Elements(order: seq<string>): (names: set<string>)
  {
    set i | 0 <= i < |order| :: order[i]
  }

  /** Scope adds exactly the visited names to the context. */
  lemma {:induction false} ScopeKeys(services: map<string, Service>, req: Request, ctx: Context, n: nat, order: seq<string>)
    requires AllScoped(services, order)
    ensures Scope(services, req, ctx, n, order).Keys == ctx.Keys + Elements(order)
  {
    if order != [] {
      var prefix := order[..|order| - 1];
      ScopeKeys(services, req, ctx, n, prefix);
      assert Elements(order) == Elements(prefix) + {order[|order| - 1]} by {
        forall k | k in Elements(order) ensures k in Elements(prefix) + {order[|order| - 1]} {
          var i :| 0 <= i < |order| && order[i] == k;
          if i < |order| - 1 { assert prefix[i] == k; }
        }
      }
    }
  }

  /** A name not visited keeps its earlier context entry, or stays absent. */
  lemma {:induction false} ScopeElsewhere(services: map<string, Service>, req: Request, ctx: Context, n: nat, order: seq<string>, k: string)
    requires AllScoped(services, order)
    requires k !in order
    ensures k in Scope(services, req, ctx, n, order) <==> k in ctx
    ensures k in ctx ==> Scope(services, req, ctx, n, order)[k] == ctx[k]
  {
    if order != [] {
      ScopeElsewhere(services, req, ctx, n, order[..|order| - 1], k);
    }
  }

  /** The i-th visited name holds its builder's result for the request, built
      as invocation number n + i. */
  lemma {:induction false} ScopeAt(services: map<string, Service>, req: Request, ctx: Context, n: nat, order: seq<string>, i: nat)
    requires AllScoped(services, order)
    requires forall p, q :: 0 <= p < q < |order| ==> order[p] != order[q]
    requires i < |order|
    ensures order[i] in Scope(services, req, ctx, n, order)
    ensures Scope(services, req, ctx, n, order)[order[i]] == services[order[i]].buildScoped(req, n + i)
  {
    if i < |order| - 1 {
      ScopeAt(services, req, ctx, n, order[..|order| - 1], i);
    }
  }

  /** The state of the middleware's walk over the table: `remaining` holds
      the names not visited yet, `order` the scoped names visited so far, in
      visiting order, and `scoped` the context built so far. */
  ghost predicate Walk(services: map<string, Service>, req: Request, ctx: Context, n: nat,
                       remaining: set<string>, order: seq<string>, scoped: Context)
  {
    remaining <= services.Keys &&
    AllScoped(services, order) &&
    (forall i :: 0 <= i < |order| ==> order[i] !in remaining) &&
    (forall i, j :: 0 <= i < j < |order| ==> order[i] != order[j]) &&
    (forall k :: k in ScopedNames(services) ==> k in remaining || k in order) &&
    scoped == Scope(services, req, ctx, n, order)
  }

  lemma WalkStart(services: map<string, Service>, req: Request, ctx: Context, n: nat)
    ensures Walk(services, req, ctx, n, services.Keys, [], ctx)
  {
  }

  /** Visiting a scoped name adds the value its builder gives for the request. */
  lemma WalkScoped(services: map<string, Service>, req: Request, ctx: Context, n: nat,
                   remaining: set<string>, order: seq<string>, scoped: Context, name: string, value: Value)
    requires Walk(services, req, ctx, n, remaining, order, scoped)
    requires name in remaining && services[name].ScopedService?
    requires value == services[name].buildScoped(req, n + |order|)
    ensures Walk(services, req, ctx, n, remaining - {name}, order + [name], scoped[name := value])
  {
  }

  /** Visiting a name that is not scoped changes nothing but the names left. */
  lemma WalkSkip(services: map<string, Service>, req: Request, ctx: Context, n: nat,
                 remaining: set<string>, order: seq<string>, scoped: Context, name: string)
    requires Walk(services, req, ctx, n, remaining, order, scoped)
    requires name in remaining && name in services && !services[name].ScopedService?
    ensures Walk(services, req, ctx, n, remaining - {name}, order, scoped)
  {
  }

  /** What a walk that visits every scoped name exactly once produces: the
      scoped names are added, each built for the request, and every other
      entry of the context is kept. */
  lemma ScopeOfEnumeration(services: map<string, Service>, req: Request, ctx: Context, n: nat, order: seq<string>, scoped: Context)
    requires AllScoped(services, order)
    requires Enumerates(order, ScopedNames(services))
    requires scoped == Scope(services, req, ctx, n, order)
    ensures scoped.Keys == ctx.Keys + ScopedNames(services)
    ensures forall k :: k in ctx && k !in ScopedNames(services) ==> k in scoped && scoped[k] == ctx[k]
    ensures forall i :: 0 <= i < |order| ==>
              order[i] in services && services[order[i]].ScopedService? && order[i] in scoped &&
              scoped[order[i]] == services[order[i]].buildScoped(req, n + i)
  {
    ScopeKeys(services, req, ctx, n, order);
    assert Elements(order) == ScopedNames(services);
    forall k | k in ctx && k !in ScopedNames(services)
      ensures scoped[k] == ctx[k]
    {
      ScopeElsewhere(services, req, ctx, n, order, k);
    }
    forall i | 0 <= i < |order|
      ensures scoped[order[i]] == services[order[i]].buildScoped(req, n + i)
    {
      ScopeAt(services, req, ctx, n, order, i);
    }
  }

  /** A finished walk visited every scoped name exactly once. */
  lemma WalkDone(services: map<string, Service>, req: Request, ctx: Context, n: nat, order: seq<string>, scoped: Context)
    requires Walk(services, req, ctx, n, {}, order, scoped)
    ensures Enumerates(order, ScopedNames(services)) && AllScoped(services, order)
    ensures scoped == Scope(services, req, ctx, n, order)
  {
  }

  class DefaultLocator {
    var services: map<string, Service>
    /** Names whose builder has run, oldest first (stands for the builders' side effects). */
    var invocations: seq<string>

    function Snapshot(): (s: State)
      reads this
    {
      State(services, invocations)
    }

    /** New: a locator with an empty table. */
    constructor New()
      ensures services == map[] && invocations == []
    {
      services := map[];
      invocations := [];
    }

    /** Registers `name` as transient, replacing any earlier record under it. */
    method Transient(name: string, builder: ServiceBuilder)
      modifies this
      ensures services == old(services)[name := TransientService(builder)]
      ensures invocations == old(invocations)
    {
      services := services[name := TransientService(builder)];
    }

    /** Registers `name` as request scoped, replacing any earlier record under it. */
    method Scoped(name: string, builder: ScopedServiceBuilder)
      modifies this
      ensures services == old(services)[name := ScopedService(builder)]
      ensures invocations == old(invocations)
    {
      services := services[name := ScopedService(builder)];
    }

    /** Registers `name` as a singleton with an empty instance slot, replacing
        any earlier record (and its cached instance) under it. */
    method Singleton(name: string, builder: ServiceBuilder)
      modifies this
      ensures services == old(services)[name := SingletonService(builder, Nil)]
      ensures invocations == old(invocations)
    {
      services := services[name := SingletonService(builder, Nil)];
    }

    /** Resolves a transient or singleton service. */
    method Get(name: string) returns (r: Result<Value>)
      modifies this
      ensures Step(r, Snapshot()) == GetStep(old(Snapshot()), name)
      ensures r.Fatal? ==> services == old(services) && invocations == old(invocations)
    {
      if name !in services {
        return Fatal(ServiceNotFound(name));
      }
      var srv := services[name];
      if srv.SingletonService? {
        if srv.instance.Nil? {
          var v := srv.build(|invocations|);
          invocations := invocations + [name];
          services := services[name := srv.(instance := v)];
        }
        return Ok(services[name].instance);
      }
      if srv.ScopedService? {
        return Fatal(UseGetScoped(name));
      }
      r := Ok(srv.build(|invocations|));
      invocations := invocations + [name];
    }

    /** Resolves a scoped service from the request context. */
    method GetScoped(ctx: Context, name: string) returns (r: Result<Value>)
      ensures name !in services ==> r == Fatal(ServiceNotFound(name))
      ensures name in services && !services[name].ScopedService? ==> r == Fatal(NotScoped(name))
      ensures name in services && services[name].ScopedService? ==>
                r == Ok(if name in ctx then ctx[name] else Nil)
    {
      if name !in services {
        return Fatal(ServiceNotFound(name));
      }
      if !services[name].ScopedService? {
        return Fatal(NotScoped(name));
      }
      r := Ok(if name in ctx then ctx[name] else Nil);
    }

    /** The loop of the request middleware: builds every scoped service for
        `req` and adds it to `ctx` under its name. `order` is the order in
        which the table was walked. */
    method Middleware(req: Request, ctx: Context) returns (scoped: Context, ghost order: seq<string>)
      modifies this
      ensures services == old(services)
      ensures Enumerates(order, ScopedNames(services)) && AllScoped(services, order)
      ensures invocations == old(invocations) + order
      ensures scoped == Scope(services, req, ctx, |old(invocations)|, order)
      ensures scoped.Keys == ctx.Keys + ScopedNames(services)
    {
      ghost var n0 := |invocations|;
      var log := invocations;
      var remaining := services.Keys;
      scoped := ctx;
      order := [];
      WalkStart(services, req, ctx, n0);
      while remaining != {}
        invariant Walk(services, req, ctx, n0, remaining, order, scoped)
        invariant log == invocations + order
        modifies {}
        decreases remaining
      {
        var name :| name in remaining;
        var srv := services[name];
        if srv.ScopedService? {
          var value := srv.buildScoped(req, |log|);
          WalkScoped(services, req, ctx, n0, remaining, order, scoped, name, value);
          scoped := scoped[name := value];
          log := log + [name];
          order := order + [name];
        } else {
          WalkSkip(services, req, ctx, n0, remaining, order, scoped, name);
        }
        remaining := remaining - {name};
      }
      WalkDone(services, req, ctx, n0, order, scoped);
      ScopeOfEnumeration(services, req, ctx, n0, order, scoped);
      invocations := log;
    }
  }
}
