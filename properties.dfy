/** Properties of the locator that relate several operations: memoisation of
    singletons, freshness of transients, the effect of re-registration, and
    how the contexts the middleware builds depend on the request and on the
    order in which the table is walked. */
module LocatorProperties {
  import opened Locator

  /** The state after a series of Gets, one per name, in order. In locator.go
      a fatal Get stops the process; here the series goes on past it, which
      changes nothing, because a fatal step leaves the state as it was (the
      last ensures of GetStep). So a name that fails counts as requested but
      runs no builder. */
  function RunGets(s: State, names: seq<string>): (t: State)
    decreases |names|
  {
    if names == [] then s else RunGets(GetStep(s, names[0]).next, names[1..])
  }

  lemma GetUnknownFails(s: State, name: string)
    requires name !in s.services
    ensures GetStep(s, name) == Step(Fatal(ServiceNotFound(name)), s)
  {
  }

  lemma GetScopedServiceFails(s: State, name: string)
    requires name in s.services && s.services[name].ScopedService?
    ensures GetStep(s, name) == Step(Fatal(UseGetScoped(name)), s)
  {
  }

  /** Two Gets of a transient run its builder twice, with consecutive
      invocation numbers, and leave the table as it was. */
  lemma TransientBuiltOnEachGet(s: State, name: string)
    requires name in s.services && s.services[name].TransientService?
    ensures var first := GetStep(s, name);
            var second := GetStep(first.next, name);
            var build := s.services[name].build;
            var n := |s.invocations|;
            first.result == Ok(build(n)) && second.result == Ok(build(n + 1)) &&
            second.next == State(s.services, s.invocations + [name, name])
  {
  }

  /** A transient's builder runs once per Get of its name, whatever other
      names are resolved in between. */
  lemma {:induction false} TransientBuildCount(s: State, names: seq<string>, name: string)
    requires name in s.services && s.services[name].TransientService?
    decreases |names|
    ensures var t := RunGets(s, names);
            name in t.services && t.services[name] == s.services[name] &&
            multiset(t.invocations)[name] == multiset(s.invocations)[name] + multiset(names)[name]
  {
    if names != [] {
      var s1 := GetStep(s, names[0]).next;
      assert multiset(s1.invocations)[name] == multiset(s.invocations)[name] + (if names[0] == name then 1 else 0);
      TransientBuildCount(s1, names[1..], name);
      assert names == [names[0]] + names[1..];
    }
  }

  /** A singleton whose instance is set is returned as it is, without
      running any builder. */
  lemma SingletonCachedIsReturned(s: State, name: string)
    requires name in s.services && s.services[name].SingletonService?
    requires s.services[name].instance != Nil
    ensures GetStep(s, name) == Step(Ok(s.services[name].instance), s)
  {
  }

  /** The first Get of a singleton runs its builder once and stores the
      result. The next Get returns that same instance without building again,
      unless the builder returned nil, in which case it builds again. */
  lemma SingletonBuiltOnFirstGet(s: State, name: string)
    requires name in s.services && s.services[name].SingletonService?
    requires s.services[name].instance == Nil
    ensures var first := GetStep(s, name);
            var second := GetStep(first.next, name);
            var build := s.services[name].build;
            var v := build(|s.invocations|);
            first.result == Ok(v) &&
            first.next == State(s.services[name := SingletonService(build, v)], s.invocations + [name]) &&
            (v != Nil ==> second == Step(Ok(v), first.next)) &&
            (v == Nil ==> second.result == Ok(build(|s.invocations| + 1)) &&
                          second.next.invocations == s.invocations + [name, name])
  {
  }

  /** Across any series of Gets, a singleton whose builder never returns nil
      is built at most once, and once built it keeps its instance. */
  lemma {:induction false} SingletonBuiltAtMostOnce(s: State, names: seq<string>, name: string)
    requires name in s.services && s.services[name].SingletonService?
    requires forall n: nat :: s.services[name].build(n) != Nil
    decreases |names|
    ensures var t := RunGets(s, names);
            name in t.services && AsRegistered(t.services[name]) == AsRegistered(s.services[name]) &&
            multiset(t.invocations)[name] <= multiset(s.invocations)[name] + (if s.services[name].instance == Nil then 1 else 0) &&
            (s.services[name].instance != Nil ==> t.services[name] == s.services[name])
  {
    if names != [] {
      var s1 := GetStep(s, names[0]).next;
      if names[0] == name {
        assert s1.services[name].instance != Nil;
        assert s.services[name].instance != Nil ==> s1 == s;
      } else {
        assert s1.services[name] == s.services[name];
        assert multiset(s1.invocations)[name] == multiset(s.invocations)[name];
      }
      SingletonBuiltAtMostOnce(s1, names[1..], name);
    }
  }

  /** Registering a name leaves the resolution of every other name unchanged. */
  lemma RegistrationLeavesOtherNames(s: State, name: string, svc: Service, other: string)
    requires other != name
    ensures GetStep(State(s.services[name := svc], s.invocations), other).result == GetStep(s, other).result
  {
  }

  /** Registering a singleton again discards its cached instance: the next
      Get runs the new builder. */
  lemma ReRegisteredSingletonIsRebuilt(s: State, name: string, build: ServiceBuilder)
    ensures GetStep(State(s.services[name := SingletonService(build, Nil)], s.invocations), name).result
            == Ok(build(|s.invocations|))
  {
  }

  /** The keys of the context the middleware builds do not depend on the
      order in which the table is walked. */
  lemma ScopeKeysIndependentOfOrder(services: map<string, Service>, req: Request, ctx: Context, n: nat,
                                    order1: seq<string>, order2: seq<string>)
    requires AllScoped(services, order1) && AllScoped(services, order2)
    requires Enumerates(order1, ScopedNames(services)) && Enumerates(order2, ScopedNames(services))
    ensures Scope(services, req, ctx, n, order1).Keys == Scope(services, req, ctx, n, order2).Keys
  {
    ScopeOfEnumeration(services, req, ctx, n, order1, Scope(services, req, ctx, n, order1));
    ScopeOfEnumeration(services, req, ctx, n, order2, Scope(services, req, ctx, n, order2));
  }

  /** Scoped builders whose result depends on the request only. */
  ghost predicate RequestOnlyBuilders(services: map<string, Service>, req: Request)
  {
    forall k, m: nat, n: nat :: k in ScopedNames(services) ==>
      services[k].buildScoped(req, m) == services[k].buildScoped(req, n)
  }

  /** When every scoped builder depends on the request only, the whole
      context the middleware builds does not depend on the walk order. */
  lemma ScopeIndependentOfOrder(services: map<string, Service>, req: Request, ctx: Context, n: nat,
                                order1: seq<string>, order2: seq<string>)
    requires AllScoped(services, order1) && AllScoped(services, order2)
    requires Enumerates(order1, ScopedNames(services)) && Enumerates(order2, ScopedNames(services))
    requires RequestOnlyBuilders(services, req)
    ensures Scope(services, req, ctx, n, order1) == Scope(services, req, ctx, n, order2)
  {
    var c1 := Scope(services, req, ctx, n, order1);
    var c2 := Scope(services, req, ctx, n, order2);
    ScopeOfEnumeration(services, req, ctx, n, order1, c1);
    ScopeOfEnumeration(services, req, ctx, n, order2, c2);
    forall k | k in c1.Keys
      ensures c1[k] == c2[k]
    {
      if k in ScopedNames(services) {
        var i :| 0 <= i < |order1| && order1[i] == k;
        var j :| 0 <= j < |order2| && order2[j] == k;
        assert c1[k] == services[k].buildScoped(req, n + i);
        assert c2[k] == services[k].buildScoped(req, n + j);
      }
    }
  }

  /** Two requests get their own instances: the value under a scoped name in
      the context built for one request is built from that request, so a
      builder that tells the requests apart gives the two contexts different
      values. The two tables may differ elsewhere (a singleton cached in
      between, say) as long as the record under `name` is the same. */
  lemma ScopedIsolation(name: string,
                        services1: map<string, Service>, req1: Request, ctx1: Context, n1: nat, order1: seq<string>,
                        services2: map<string, Service>, req2: Request, ctx2: Context, n2: nat, order2: seq<string>)
    requires AllScoped(services1, order1) && Enumerates(order1, ScopedNames(services1))
    requires AllScoped(services2, order2) && Enumerates(order2, ScopedNames(services2))
    requires name in services1 && name in services2 && services1[name] == services2[name]
    requires services1[name].ScopedService?
    requires forall m: nat, n: nat :: services1[name].buildScoped(req1, m) != services1[name].buildScoped(req2, n)
    ensures name in Scope(services1, req1, ctx1, n1, order1) && name in Scope(services2, req2, ctx2, n2, order2)
    ensures Scope(services1, req1, ctx1, n1, order1)[name] != Scope(services2, req2, ctx2, n2, order2)[name]
  {
    var c1 := Scope(services1, req1, ctx1, n1, order1);
    var c2 := Scope(services2, req2, ctx2, n2, order2);
    ScopeOfEnumeration(services1, req1, ctx1, n1, order1, c1);
    ScopeOfEnumeration(services2, req2, ctx2, n2, order2, c2);
    assert name in ScopedNames(services1) && name in ScopedNames(services2);
    var i :| 0 <= i < |order1| && order1[i] == name;
    var j :| 0 <= j < |order2| && order2[j] == name;
    assert c1[name] == services1[name].buildScoped(req1, n1 + i);
    assert c2[name] == services2[name].buildScoped(req2, n2 + j);
  }
}
