# gRPC client injection, modelled in Dafny

This project models `GrpcClientBeanPostProcessor`, the Spring bean
post-processor of grpc-spring-boot-starter. It fills every member of a bean
that is marked `@GrpcClient` with a gRPC channel or stub. For each managed
bean it walks the runtime class and then every superclass. In each class it
visits the declared fields first, then the declared methods. For each marked
member it does four things:

- it resolves the interceptors the annotation names;
- it asks a lazily fetched `GrpcChannelFactory` for a channel;
- it turns the channel into the value to inject (the channel itself, or a stub
  built over it and passed through the `StubTransformer`s);
- it assigns that value to the field, or passes it to a one-parameter setter.

Files:

- `grpc_types.dfy` (module `GrpcTypes`): the data model. It holds the
  `@GrpcClient` annotation, the field, method and class descriptors that
  stand in for reflection, and the application context as a record. It also
  holds the opaque gRPC values and the exceptions, as an `Error` datatype
  tagged with the Java exception class (`Error.Kind`). Channel creation, stub
  constructors and stub transformers are function values stored in these
  records.
- `injection_spec.dfy` (module `InjectionSpec`): the reference semantics as
  functions of the application context. It covers interceptor resolution
  (`ResolveAll` over `References`), the transformer fold
  (`ApplyTransformers`), the value of one member (`ValueFor`), one injection
  point (`Process`), the lookups that fill the two lazy caches
  (`ProcessCaches` over `CacheState`) and the walk over the class chain
  (`WalkChain`). The lemmas state the properties the procedure promises.
- `bean_post_processor.dfy` (module `GrpcClientInject`): the processor as a
  class. The two lazy caches are `Option` fields. One ghost log records
  every `createChannel` call, and another records every lookup the getters
  make in the context. A `Bean` class holds the values assigned to a bean's
  members. Each method uses the source's loops and is proved to compute the
  reference function. `Valid()` states that the caches only hold what the
  context yields. The two loops of one round of the class walk are
  separate methods (`InjectDeclaredFields`, `InjectDeclaredMethods`).

Three behaviours of the code to note:

- An unsupported declared type is rejected only after the channel has been
  created (`UnsupportedTypeRejected`).
- A channel-creation failure names the channel, not the member.
- A missing `GrpcChannelFactory` bean fails inside the `try`, so it is
  wrapped like a factory failure (`ChannelCause.FactoryMissing`).

## Model

| member | source | states |
|---|---|---|
| GrpcClientInject.GrpcClientBeanPostProcessor.constructor | grpc-client-spring-boot-autoconfigure/src/main/java/net/devh/boot/grpc/client/inject/GrpcClientBeanPostProcessor.java:58-67 | the processor keeps the given context and starts with both lazy caches empty |
| GrpcClientInject.GrpcClientBeanPostProcessor.GetChannelFactory | grpc-client-spring-boot-autoconfigure/src/main/java/net/devh/boot/grpc/client/inject/GrpcClientBeanPostProcessor.java:134-141 | the context's factory is returned; a lookup is logged exactly when the cache was empty; a filled cache is returned unchanged, and a failed lookup leaves the cache empty |
| GrpcClientInject.GrpcClientBeanPostProcessor.GetStubTransformers | grpc-client-spring-boot-autoconfigure/src/main/java/net/devh/boot/grpc/client/inject/GrpcClientBeanPostProcessor.java:148-156 | the context's transformer list is returned and cached; a lookup is logged exactly when the cache was empty, so only the first call consults the context |
| GrpcClientInject.GrpcClientBeanPostProcessor.InterceptorsFromAnnotation | grpc-client-spring-boot-autoconfigure/src/main/java/net/devh/boot/grpc/client/inject/GrpcClientBeanPostProcessor.java:170-189 | the two appending loops return exactly the ordered resolution of the class references followed by the name references, or the first failure |
| GrpcClientInject.GrpcClientBeanPostProcessor.ValueForMember | grpc-client-spring-boot-autoconfigure/src/main/java/net/devh/boot/grpc/client/inject/GrpcClientBeanPostProcessor.java:202-227 | the result is the three-way dispatch `ValueFor`; the transformer cache is fetched (and the lookup logged) only when a stub was constructed |
| GrpcClientInject.GrpcClientBeanPostProcessor.ProcessInjectionPoint | grpc-client-spring-boot-autoconfigure/src/main/java/net/devh/boot/grpc/client/inject/GrpcClientBeanPostProcessor.java:107-127 | the result is `Process` (interceptors, then the channel, then the value, then the null check); exactly the channel request `Process` names is logged; the caches and lookups are `ProcessCaches`: the factory is fetched only once the interceptors resolved, the transformers only once a stub was constructed |
| GrpcClientInject.GrpcClientBeanPostProcessor.InjectDeclaredFields | grpc-client-spring-boot-autoconfigure/src/main/java/net/devh/boot/grpc/client/inject/GrpcClientBeanPostProcessor.java:73-79 | the fields of one class, in order, end in exactly the state `WalkFields` gives |
| GrpcClientInject.GrpcClientBeanPostProcessor.InjectDeclaredMethods | grpc-client-spring-boot-autoconfigure/src/main/java/net/devh/boot/grpc/client/inject/GrpcClientBeanPostProcessor.java:80-92 | the methods of one class, in order and arity first, end in exactly the state `WalkMethods` gives |
| GrpcClientInject.GrpcClientBeanPostProcessor.PostProcessBeforeInitialization | grpc-client-spring-boot-autoconfigure/src/main/java/net/devh/boot/grpc/client/inject/GrpcClientBeanPostProcessor.java:70-95 | the bean's assignments, the channel requests, the caches and the lookups are those of the walk over the chain (runtime class first, fields before methods); the same bean is returned unless the walk threw; with no marked member, the bean, both caches and both logs are left as they were |
| InjectionSpec.ResolveAllOk | grpc-client-spring-boot-autoconfigure/src/main/java/net/devh/boot/grpc/client/inject/GrpcClientBeanPostProcessor.java:170-189 | resolution succeeds if and only if every reference resolves; the list then has one entry per reference, in order |
| InjectionSpec.ResolveAllFirstFailure | grpc-client-spring-boot-autoconfigure/src/main/java/net/devh/boot/grpc/client/inject/GrpcClientBeanPostProcessor.java:172-187 | when reference k is the first to fail, its exception is the one thrown |
| InjectionSpec.ResolveAllErrorIsFirstFailure | grpc-client-spring-boot-autoconfigure/src/main/java/net/devh/boot/grpc/client/inject/GrpcClientBeanPostProcessor.java:172-187 | conversely, any failure is the failure of the first reference that fails, after all earlier ones resolved |
| InjectionSpec.InterceptorListResolvesAll | grpc-client-spring-boot-autoconfigure/src/main/java/net/devh/boot/grpc/client/inject/GrpcClientBeanPostProcessor.java:170-189 | the interceptor list exists if and only if every class reference and every name reference resolves |
| InjectionSpec.InterceptorListShape | grpc-client-spring-boot-autoconfigure/src/main/java/net/devh/boot/grpc/client/inject/GrpcClientBeanPostProcessor.java:170-189 | the list has `\|interceptors\| + \|interceptorNames\|` entries: class references first, then name references, each group in annotation order |
| InjectionSpec.ConstructOrLookUp | grpc-client-spring-boot-autoconfigure/src/main/java/net/devh/boot/grpc/client/inject/GrpcClientBeanPostProcessor.java:172-183 | with any ClientInterceptor bean in the context, the no-arg constructor is never consulted; with none, the by-class lookup is never consulted |
| InjectionSpec.UnrelatedInterceptorBeanPreventsConstruction | grpc-client-spring-boot-autoconfigure/src/main/java/net/devh/boot/grpc/client/inject/GrpcClientBeanPostProcessor.java:174-181 | the condition is "any interceptor bean exists": one unrelated interceptor bean turns a constructible, unregistered class into a lookup failure |
| InjectionSpec.ApplyTransformersAppend | grpc-client-spring-boot-autoconfigure/src/main/java/net/devh/boot/grpc/client/inject/GrpcClientBeanPostProcessor.java:213-216 | folding through `ts1 + ts2` is folding through `ts1`, then through `ts2`: each transformer is applied once, in list order, and an exception stops the rest |
| InjectionSpec.ApplyOneTransformer | grpc-client-spring-boot-autoconfigure/src/main/java/net/devh/boot/grpc/client/inject/GrpcClientBeanPostProcessor.java:214-216 | one transformer is called once, with the channel name and the stub |
| InjectionSpec.FetchMemoised | grpc-client-spring-boot-autoconfigure/src/main/java/net/devh/boot/grpc/client/inject/GrpcClientBeanPostProcessor.java:134-156 | once a lookup filled a cache, fetching again makes no lookup and changes nothing; a factory lookup that failed is repeated on the next call |
| InjectionSpec.LazyLookups | grpc-client-spring-boot-autoconfigure/src/main/java/net/devh/boot/grpc/client/inject/GrpcClientBeanPostProcessor.java:109-113 | when the interceptors fail, no lookup is made; afterwards the factory is cached exactly when the context has one; a transformer lookup happens only when a stub was constructed over a created channel and none was cached |
| InjectionSpec.ProcessLooksUpOnce | grpc-client-spring-boot-autoconfigure/src/main/java/net/devh/boot/grpc/client/inject/GrpcClientBeanPostProcessor.java:107-156 | one injection point fills each cache with at most one lookup and never empties a cache |
| InjectionSpec.InterceptorsResolvedFirst | grpc-client-spring-boot-autoconfigure/src/main/java/net/devh/boot/grpc/client/inject/GrpcClientBeanPostProcessor.java:109-113 | when the interceptors fail, that failure is thrown and no channel is requested |
| InjectionSpec.ChannelRequested | grpc-client-spring-boot-autoconfigure/src/main/java/net/devh/boot/grpc/client/inject/GrpcClientBeanPostProcessor.java:109-113 | a channel is requested if and only if the interceptors resolve and the factory exists, with the annotation's name and that interceptor list |
| InjectionSpec.ChannelFailureWrapped | grpc-client-spring-boot-autoconfigure/src/main/java/net/devh/boot/grpc/client/inject/GrpcClientBeanPostProcessor.java:112-119 | a null channel, a factory exception or a missing factory, and nothing else, ends as IllegalStateException "Failed to create channel" for that name |
| InjectionSpec.ChannelInjectedUnwrapped | grpc-client-spring-boot-autoconfigure/src/main/java/net/devh/boot/grpc/client/inject/GrpcClientBeanPostProcessor.java:204-205 | for a declared type of exactly Channel, the created channel itself is injected |
| InjectionSpec.StubInjectedAfterTransformers | grpc-client-spring-boot-autoconfigure/src/main/java/net/devh/boot/grpc/client/inject/GrpcClientBeanPostProcessor.java:206-217 | for a stub type, the value is a stub if and only if it was constructed over the channel and the whole transformer fold gave a non-null stub of the declared class, and it is that stub |
| InjectionSpec.StubConstructionFailure | grpc-client-spring-boot-autoconfigure/src/main/java/net/devh/boot/grpc/client/inject/GrpcClientBeanPostProcessor.java:211-222 | a missing (Channel) constructor or a failed instantiation throws BeanInstantiationException |
| InjectionSpec.UnsupportedTypeRejected | grpc-client-spring-boot-autoconfigure/src/main/java/net/devh/boot/grpc/client/inject/GrpcClientBeanPostProcessor.java:223-226 | any other type throws InvalidPropertyException after the channel was requested and without constructing a stub |
| InjectionSpec.NullValueRejected | grpc-client-spring-boot-autoconfigure/src/main/java/net/devh/boot/grpc/client/inject/GrpcClientBeanPostProcessor.java:121-126 | a null value, which only the stub branch can produce, becomes IllegalStateException, so a null is never injected |
| InjectionSpec.ArityCheckedFirst | grpc-client-spring-boot-autoconfigure/src/main/java/net/devh/boot/grpc/client/inject/GrpcClientBeanPostProcessor.java:80-91 | a marked method without exactly one parameter throws BeanDefinitionStoreException and requests no channel; earlier assignments stay |
| InjectionSpec.WalkChainStopped | grpc-client-spring-boot-autoconfigure/src/main/java/net/devh/boot/grpc/client/inject/GrpcClientBeanPostProcessor.java:70-95 | once an exception is thrown, no later member or class is visited |
| InjectionSpec.UnmarkedChainIsNoOp | grpc-client-spring-boot-autoconfigure/src/main/java/net/devh/boot/grpc/client/inject/GrpcClientBeanPostProcessor.java:70-95 | with no marked member anywhere in the chain, nothing is assigned, no channel is requested and nothing is thrown |
| InjectionSpec.WalkChainExtends | grpc-client-spring-boot-autoconfigure/src/main/java/net/devh/boot/grpc/client/inject/GrpcClientBeanPostProcessor.java:60-94 | assignments are never rolled back, even when a later member fails; channel requests and lookups are only appended; over a whole pass the transformer list, and an existing factory, are each looked up at most once, and not at all when already cached |
| InjectionSpec.WalkChainSplit | grpc-client-spring-boot-autoconfigure/src/main/java/net/devh/boot/grpc/client/inject/GrpcClientBeanPostProcessor.java:72-94 | the walk goes class by class up the chain: the first k classes, then the superclasses above them |

## Left out

- Reflection and annotation lookup (`getDeclaredFields`, `findAnnotation`, `makeAccessible`, `setField`, `invokeMethod`) are replaced by pre-extracted descriptors. A setter's own effect is not modelled: its entry in `Bean.injected` records the argument it received. Every field assignment and setter call is taken to succeed. In the code, a setter that throws, or `setField` on a static final field, ends the pass with that exception. Invoking an overridden annotated setter through a superclass's `Method` dispatches to the override; the model does not capture this.
- Members are keyed by `MemberId`: a field by its declaring class and name, a method also by its parameter types. So a field and a method of the same name are distinct. The model does not check that the parameter types in a `MethodId` agree with those of its `MethodDesc`.
- Real gRPC channels, stubs and interceptors are opaque values. Creating a channel, constructing a stub and transforming a stub are function values, so their behaviour depends only on their arguments. A fresh interceptor from a no-arg constructor has no identity of its own.
- `getBean(Class)` is a map, where an absent class means NoSuchBeanDefinitionException (including the not-unique case). `getBeansOfType(StubTransformer.class)` is a given sequence and is assumed not to fail.
- The context is immutable, and the two lazy caches are accessed sequentially. The source has no synchronisation, and concurrent first access is not modelled.
- `Error` carries the member and the name, not the exact message strings. Only the exception classes the code names are distinguished. `Error`s thrown by the JVM (as opposed to exceptions) are not modelled.
- `GrpcClientAutoConfiguration` only declares Spring beans that return library objects, and it is not part of this model.
