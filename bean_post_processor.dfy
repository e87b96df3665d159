/**
 * The bean post-processor itself: an object holding the application
 * context and two lazily filled caches, whose methods walk a bean's class
 * chain and fill its @GrpcClient fields and setters. Every method is proved
 * to compute the reference functions of InjectionSpec.
 */
module GrpcClientInject {
  import opened GrpcTypes
  import opened InjectionSpec

  /**
   * A managed bean: its class chain (runtime class first, then each
   * superclass up to java.lang.Object) and the values assigned to its
   * members. For a setter, the entry records the argument it was invoked with.
   */
  class Bean {
    const chain: seq<ClassDesc>
    var injected: map<MemberId, Value>

    constructor (chain: seq<ClassDesc>, injected: map<MemberId, Value>)
      ensures this.chain == chain && this.injected == injected
    {
      this.chain := chain;
      this.injected := injected;
    }
  }

  class GrpcClientBeanPostProcessor {
    const applicationContext: ApplicationContext

    // Lazily initialised on first use.
    var channelFactory: Option<ChannelFactory>
    var stubTransformers: Option<seq<StubTransformer>>

    /** Every createChannel call made so far, in order. */
    ghost var channelRequests: seq<ChannelRequest>

    /** Every lookup made in the context to fill a cache, in order. */
    ghost var lookups: seq<Lookup>

    /** The caches only ever hold what the context yields. */
    ghost predicate Valid()
      reads this
    {
      && (channelFactory.Some? ==> channelFactory == applicationContext.channelFactory)
      && (stubTransformers.Some? ==> stubTransformers.value == applicationContext.stubTransformers)
    }

    /** The caches as the reference walk sees them; with Valid(), this fixes both fields. */
    ghost function Caches(): CacheState
      reads this
    {
      CacheState(channelFactory.Some?, stubTransformers.Some?, lookups)
    }

    constructor (applicationContext: ApplicationContext)
      ensures Valid()
      ensures this.applicationContext == applicationContext
      ensures channelFactory == None && stubTransformers == None
      ensures channelRequests == [] && lookups == []
    {
      this.applicationContext := applicationContext;
      channelFactory := None;
      stubTransformers := None;
      channelRequests := [];
      lookups := [];
    }

    /**
     * getChannelFactory: consults the context only while the cache is empty;
     * None stands for getBean throwing, which leaves the cache empty.
     */
    method GetChannelFactory() returns (r: Option<ChannelFactory>)
      requires Valid()
      modifies this`channelFactory, this`lookups
      ensures Valid()
      ensures old(channelFactory).Some? ==> r == old(channelFactory)
      ensures r == applicationContext.channelFactory
      ensures channelFactory == r
      ensures lookups == old(lookups) + (if old(channelFactory).None? then [FactoryLookup] else [])
    {
      if channelFactory.None? {
        var factory := applicationContext.channelFactory;
        lookups := lookups + [FactoryLookup];
        if factory.Some? {
          channelFactory := factory;
        }
        return factory;
      }
      return channelFactory;
    }

    /** getStubTransformers: fetched once, then always the same list. */
    method GetStubTransformers() returns (ts: seq<StubTransformer>)
      requires Valid()
      modifies this`stubTransformers, this`lookups
      ensures Valid()
      ensures old(stubTransformers).Some? ==> ts == old(stubTransformers).value
      ensures ts == applicationContext.stubTransformers
      ensures stubTransformers == Some(ts)
      ensures lookups == old(lookups) + (if old(stubTransformers).None? then [TransformerLookup] else [])
    {
      if stubTransformers.None? {
        var transformers := applicationContext.stubTransformers;
        lookups := lookups + [TransformerLookup];
        stubTransformers := Some(transformers);
        return transformers;
      }
      return stubTransformers.value;
    }

    /** interceptorsFromAnnotation: class references, then name references, appended in order. */
    method InterceptorsFromAnnotation(annotation: GrpcClient) returns (r: Result<seq<Interceptor>, Error>)
      ensures r == InterceptorsFor(applicationContext, annotation)
    {
      var ctx := applicationContext;
      var list: seq<Interceptor> := [];
      var i := 0;
      while i < |annotation.interceptors|
        invariant 0 <= i <= |annotation.interceptors|
        invariant ResolveAll(ctx, References(annotation)[..i]) == Ok(list)
      {
        var interceptorClass := annotation.interceptors[i];
        var clientInterceptor: Interceptor;
        if |ctx.interceptorBeanNames| > 0 {
          if interceptorClass.name !in ctx.interceptorsByClass {
            r := Err(NoSuchBean(interceptorClass.name));
            ClassRefResolved(ctx, annotation, i, list, Err(r.error));
            return;
          }
          clientInterceptor := ctx.interceptorsByClass[interceptorClass.name];
        } else {
          if interceptorClass.newInstance.None? {
            r := Err(InterceptorCreationFailed(interceptorClass.name));
            ClassRefResolved(ctx, annotation, i, list, Err(r.error));
            return;
          }
          clientInterceptor := interceptorClass.newInstance.value;
        }
        ClassRefResolved(ctx, annotation, i, list, Ok(clientInterceptor));
        list := list + [clientInterceptor];
        i := i + 1;
      }
      var j := 0;
      while j < |annotation.interceptorNames|
        invariant 0 <= j <= |annotation.interceptorNames|
        invariant ResolveAll(ctx, References(annotation)[..|annotation.interceptors| + j]) == Ok(list)
      {
        var interceptorName := annotation.interceptorNames[j];
        if interceptorName !in ctx.beansByName {
          r := Err(NoSuchBean(interceptorName));
          NameRefResolved(ctx, annotation, j, list, Err(r.error));
          return;
        }
        match ctx.beansByName[interceptorName]
        case OtherBean(_) =>
          r := Err(BeanNotOfRequiredType(interceptorName));
          NameRefResolved(ctx, annotation, j, list, Err(r.error));
          return;
        case InterceptorBean(interceptor) =>
          NameRefResolved(ctx, annotation, j, list, Ok(interceptor));
          list := list + [interceptor];
        j := j + 1;
      }
      assert References(annotation)[..|annotation.interceptors| + j] == References(annotation);
      r := Ok(list);
    }

    /**
     * valueForMember: the three-way type dispatch; for a stub, construct it
     * over the channel and fold it through the cached transformers.
     * None stands for a null result.
     */
    method ValueForMember(name: string, injectionTarget: MemberId, injectionType: InjectionType, channel: Channel)
      returns (r: Result<Option<Value>, Error>)
      requires Valid()
      modifies this`stubTransformers, this`lookups
      ensures Valid()
      ensures r == ValueFor(applicationContext, name, injectionTarget, injectionType, channel)
      ensures stubTransformers ==
                if FetchesTransformers(injectionType, channel) then Some(applicationContext.stubTransformers)
                else old(stubTransformers)
      ensures Caches() == if FetchesTransformers(injectionType, channel) then FetchTransformers(old(Caches()))
                          else old(Caches())
    {
      match injectionType
      case ChannelType =>
        r := Ok(Some(ChannelValue(channel)));
      case OtherType(cls) =>
        r := Err(UnsupportedType(injectionTarget, cls));
      case StubType(cls, ctor) =>
        if ctor.NoChannelConstructor? {
          r := Err(StubInstantiationFailed(cls, injectionTarget));
          return;
        }
        var created := ctor.newInstance(channel);
        if created.None? {
          r := Err(StubInstantiationFailed(cls, injectionTarget));
          return;
        }
        var stub: Option<Stub> := created;
        var transformers := GetStubTransformers();
        var i := 0;
        while i < |transformers|
          invariant 0 <= i <= |transformers|
          invariant ApplyTransformers(transformers[..i], name, created) == Ok(stub)
          invariant stubTransformers == Some(transformers)
          invariant Caches() == FetchTransformers(old(Caches()))
        {
          var outcome := transformers[i].transform(name, stub);
          ApplyTransformersStep(transformers, i, name, created, stub);
          match outcome
          case Raised(k) =>
            r := if k.IllegalArgumentException? then Err(StubInstantiationFailed(cls, injectionTarget))
                 else Err(Uncaught(k));
            return;
          case Returned(s) =>
            stub := s;
          i := i + 1;
        }
        assert transformers[..i] == transformers;
        if stub.None? {
          r := Ok(None);
        } else if IsInstance(stub.value, cls) {
          r := Ok(Some(StubValue(stub.value)));
        } else {
          r := Err(Uncaught(ClassCastException));
        }
    }

    /**
     * processInjectionPoint: resolve the interceptors, create the channel
     * (wrapping a missing factory, a null channel and a factory exception),
     * compute the value and reject null.
     */
    method ProcessInjectionPoint(injectionTarget: MemberId, injectionType: InjectionType, annotation: GrpcClient)
      returns (r: Result<Value, Error>)
      requires Valid()
      modifies this`channelFactory, this`stubTransformers, this`channelRequests, this`lookups
      ensures Valid()
      ensures var p := Process(applicationContext, injectionTarget, injectionType, annotation);
              r == p.result && channelRequests == old(channelRequests) + RequestsOf(p.request)
      ensures Caches() == ProcessCaches(applicationContext, old(Caches()), injectionType, annotation)
      ensures channelFactory ==
                if InterceptorsFor(applicationContext, annotation).Ok? then applicationContext.channelFactory
                else old(channelFactory)
      ensures stubTransformers ==
                if ReachesTransformers(applicationContext, injectionType, annotation) then Some(applicationContext.stubTransformers)
                else old(stubTransformers)
    {
      var interceptors := InterceptorsFromAnnotation(annotation);
      if interceptors.Err? {
        r := Err(interceptors.error);
        return;
      }
      var name := annotation.value;
      var factory := GetChannelFactory();
      if factory.None? {
        r := Err(ChannelCreationFailed(name, FactoryMissing));
        return;
      }
      var outcome := factory.value.createChannel(name, interceptors.value);
      channelRequests := channelRequests + [ChannelRequest(name, interceptors.value)];
      var channel: Channel;
      match outcome
      case NullChannel =>
        r := Err(ChannelCreationFailed(name, NullChannelCreated));
        return;
      case Threw(k) =>
        r := Err(ChannelCreationFailed(name, FactoryThrew(k)));
        return;
      case Created(ch) =>
        channel := ch;
      var value := ValueForMember(name, injectionTarget, injectionType, channel);
      match value
      case Err(e) =>
        r := Err(e);
      case Ok(None) =>
        r := Err(NullInjectionValue(name, injectionTarget));
      case Ok(Some(v)) =>
        r := Ok(v);
    }

    /** The pass so far, seen as a walk state, with the exception that ended it, if any. */
    ghost function State(bean: Bean, error: Option<Error>): WalkState
      reads this, bean
    {
      WalkState(bean.injected, channelRequests, Caches(), error)
    }

    /**
     * The first loop of one round of postProcessBeforeInitialization: each
     * declared field of the class, in order. Returns the exception that ends
     * the pass, if any.
     */
    method InjectDeclaredFields(bean: Bean, clazz: ClassDesc) returns (error: Option<Error>)
      requires Valid()
      modifies this`channelFactory, this`stubTransformers, this`channelRequests, this`lookups, bean`injected
      ensures Valid()
      ensures State(bean, error) == WalkFields(applicationContext, old(State(bean, None)), clazz.fields)
    {
      var ctx := applicationContext;
      ghost var goal := WalkFields(ctx, State(bean, None), clazz.fields);
      assert clazz.fields[0..] == clazz.fields;
      var i := 0;
      while i < |clazz.fields|
        invariant 0 <= i <= |clazz.fields|
        invariant Valid()
        invariant goal == WalkFields(ctx, State(bean, None), clazz.fields[i..])
      {
        var field := clazz.fields[i];
        FieldVisited(ctx, State(bean, None), clazz.fields, i);
        ghost var next := FieldStep(ctx, State(bean, None), field);
        if field.annotation.Some? {
          ghost var before := State(bean, None);
          var value := ProcessInjectionPoint(field.id, field.fieldType, field.annotation.value);
          FieldRecorded(ctx, before, field, value, channelRequests, Caches());
          if value.Err? {
            error := Some(value.error);
            WalkFieldsStopped(ctx, next, clazz.fields[i + 1..]);
            return;
          }
          bean.injected := bean.injected[field.id := value.value];
        }
        assert State(bean, None) == next;
        i := i + 1;
      }
      error := None;
    }

    /**
     * The second loop of one round of postProcessBeforeInitialization: each
     * declared method of the class, in order, its arity checked before
     * anything else. Returns the exception that ends the pass, if any.
     */
    method InjectDeclaredMethods(bean: Bean, clazz: ClassDesc) returns (error: Option<Error>)
      requires Valid()
      modifies this`channelFactory, this`stubTransformers, this`channelRequests, this`lookups, bean`injected
      ensures Valid()
      ensures State(bean, error) == WalkMethods(applicationContext, old(State(bean, None)), clazz.methods)
    {
      var ctx := applicationContext;
      ghost var goal := WalkMethods(ctx, State(bean, None), clazz.methods);
      assert clazz.methods[0..] == clazz.methods;
      var j := 0;
      while j < |clazz.methods|
        invariant 0 <= j <= |clazz.methods|
        invariant Valid()
        invariant goal == WalkMethods(ctx, State(bean, None), clazz.methods[j..])
      {
        var setter := clazz.methods[j];
        MethodVisited(ctx, State(bean, None), clazz.methods, j);
        ghost var next := MethodStep(ctx, State(bean, None), setter);
        if setter.annotation.Some? {
          if |setter.paramTypes| != 1 {
            error := Some(ArityMismatch(setter.id, |setter.paramTypes|));
            WalkMethodsStopped(ctx, next, clazz.methods[j + 1..]);
            return;
          }
          ghost var before := State(bean, None);
          var value := ProcessInjectionPoint(setter.id, setter.paramTypes[0], setter.annotation.value);
          MethodRecorded(ctx, before, setter, value, channelRequests, Caches());
          if value.Err? {
            error := Some(value.error);
            WalkMethodsStopped(ctx, next, clazz.methods[j + 1..]);
            return;
          }
          bean.injected := bean.injected[setter.id := value.value];
        }
        assert State(bean, None) == next;
        j := j + 1;
      }
      error := None;
    }

    /**
     * postProcessBeforeInitialization: for the runtime class and then each
     * superclass, the declared fields and then the declared methods; the
     * same bean is returned unless an exception ends the pass.
     */
    method PostProcessBeforeInitialization(bean: Bean, beanName: string) returns (r: Result<Bean, Error>)
      requires Valid()
      modifies this`channelFactory, this`stubTransformers, this`channelRequests, this`lookups, bean`injected
      ensures Valid()
      ensures var out := WalkChain(applicationContext,
                                   WalkState(old(bean.injected), old(channelRequests), old(Caches()), None), bean.chain);
              && bean.injected == out.injected
              && channelRequests == out.requests
              && Caches() == out.caches
              && r == if out.error.Some? then Err(out.error.value) else Ok(bean)
      ensures (forall c :: c in bean.chain ==> Unmarked(c)) ==>
                && r == Ok(bean) && bean.injected == old(bean.injected) && channelRequests == old(channelRequests)
                && channelFactory == old(channelFactory) && stubTransformers == old(stubTransformers)
                && lookups == old(lookups)
    {
      var ctx := applicationContext;
      ghost var initial := State(bean, None);
      ghost var goal := WalkChain(ctx, initial, bean.chain);
      var k := 0;
      while k < |bean.chain|
        invariant 0 <= k <= |bean.chain|
        invariant Valid()
        invariant goal == WalkChain(ctx, State(bean, None), bean.chain[k..])
      {
        var clazz := bean.chain[k];
        ClassVisited(ctx, State(bean, None), bean.chain, k);
        var error := InjectDeclaredFields(bean, clazz);
        if error.Some? {
          WalkMethodsStopped(ctx, State(bean, error), clazz.methods);
        } else {
          error := InjectDeclaredMethods(bean, clazz);
        }
        if error.Some? {
          r := Err(error.value);
          WalkChainStopped(ctx, State(bean, error), bean.chain[k + 1..]);
          if forall c :: c in bean.chain ==> Unmarked(c) {
            UnmarkedChainIsNoOp(ctx, initial, bean.chain);
          }
          return;
        }
        k := k + 1;
      }
      r := Ok(bean);
      if forall c :: c in bean.chain ==> Unmarked(c) {
        UnmarkedChainIsNoOp(ctx, initial, bean.chain);
      }
    }
  }
}
