/**
 * Data model of the gRPC client injection procedure: the annotation, the
 * member descriptors of a bean's class chain, the application context and
 * the opaque gRPC values (channels, interceptors, stubs) it hands out.
 *
 * Reflection is replaced by pre-extracted descriptors; library behaviour
 * (channel creation, stub constructors, stub transformers) by function
 * values stored in those descriptors.
 */
module GrpcTypes {

  datatype Option<T> = None | Some(value: T)

  datatype Result<T, E> = Ok(value: T) | Err(error: E)

  type ClassName = string
  type BeanName = string

  /** The Java exception classes the procedure raises or lets through. */
  datatype ExceptionKind =
    | BeanDefinitionStoreException
    | BeanCreationException
    | NoSuchBeanDefinitionException
    | BeanNotOfRequiredTypeException
    | IllegalStateException
    | BeanInstantiationException
    | InvalidPropertyException
    | IllegalArgumentException
    | ClassCastException
    | OtherRuntimeException(name: string)

  /**
   * A declared field (its declaring class and name) or a declared method
   * (its declaring class, name and parameter types), so that a field and a
   * method of the same name, or two overloads, are distinct members.
   */
  datatype MemberId =
    | FieldId(declaringClass: ClassName, name: string)
    | MethodId(declaringClass: ClassName, name: string, paramTypes: seq<ClassName>)

  /** An opaque io.grpc.Channel (never null once created). */
  datatype Channel = Channel(target: string, id: nat)

  /** An opaque io.grpc.ClientInterceptor instance. */
  datatype Interceptor = Interceptor(cls: ClassName, id: nat)

  /** An AbstractStub instance: its runtime class and the classes it can be cast to. */
  datatype Stub = Stub(cls: ClassName, supertypes: set<ClassName>, id: nat)

  /** Class.cast succeeds on a non-null stub exactly when this holds. */
  predicate IsInstance(s: Stub, c: ClassName)
  {
    s.cls == c || c in s.supertypes
  }

  /** A value the procedure injects: the channel itself or a stub over it. */
  datatype Value = ChannelValue(channel: Channel) | StubValue(stub: Stub)

  /** What GrpcChannelFactory.createChannel does for one call. */
  datatype ChannelOutcome = Created(channel: Channel) | NullChannel | Threw(kind: ExceptionKind)

  datatype ChannelFactory = ChannelFactory(createChannel: (string, seq<Interceptor>) -> ChannelOutcome)

  /** What StubTransformer.transform does for one call; a stub argument or result may be null (None). */
  datatype TransformOutcome = Returned(stub: Option<Stub>) | Raised(kind: ExceptionKind)

  datatype StubTransformer = StubTransformer(transform: (string, Option<Stub>) -> TransformOutcome)

  /**
   * A class listed in GrpcClient.interceptors(), with the instance its public
   * no-argument constructor yields (None: the constructor is missing or throws).
   */
  datatype InterceptorClass = InterceptorClass(name: ClassName, newInstance: Option<Interceptor>)

  /**
   * The accessible (Channel) constructor of a stub class, if any; newInstance
   * yields None when instantiation fails (abstract class, access, or the
   * constructor throws).
   */
  datatype StubConstructor =
    | NoChannelConstructor
    | ChannelConstructor(newInstance: Channel -> Option<Stub>)

  /**
   * The declared type of an injection point: exactly io.grpc.Channel, a
   * subclass of AbstractStub, or anything else (including subclasses of
   * Channel such as ManagedChannel).
   */
  datatype InjectionType =
    | ChannelType
    | StubType(cls: ClassName, ctor: StubConstructor)
    | OtherType(cls: ClassName)

  /** The @GrpcClient annotation: channel name, interceptor classes, interceptor bean names. */
  datatype GrpcClient = GrpcClient(value: string, interceptors: seq<InterceptorClass>, interceptorNames: seq<BeanName>)

  datatype FieldDesc = FieldDesc(id: MemberId, fieldType: InjectionType, annotation: Option<GrpcClient>)

  datatype MethodDesc = MethodDesc(id: MemberId, paramTypes: seq<InjectionType>, annotation: Option<GrpcClient>)

  /** One class of the chain: its declared fields and declared methods, in declaration order. */
  datatype ClassDesc = ClassDesc(name: ClassName, fields: seq<FieldDesc>, methods: seq<MethodDesc>)

  /** A bean registered under a name: a ClientInterceptor or something else. */
  datatype RegisteredBean = InterceptorBean(interceptor: Interceptor) | OtherBean(cls: ClassName)

  /**
   * The parts of the Spring ApplicationContext the procedure consults:
   * the names of ClientInterceptor beans, getBean(Class) for interceptor
   * classes (a class is present when exactly one bean matches),
   * getBean(name, ClientInterceptor.class), getBean(GrpcChannelFactory.class)
   * and getBeansOfType(StubTransformer.class) in iteration order.
   */
  datatype ApplicationContext = ApplicationContext(
    interceptorBeanNames: set<BeanName>,
    interceptorsByClass: map<ClassName, Interceptor>,
    beansByName: map<BeanName, RegisteredBean>,
    channelFactory: Option<ChannelFactory>,
    stubTransformers: seq<StubTransformer>)

  /** Why a channel could not be created. */
  datatype ChannelCause = FactoryMissing | NullChannelCreated | FactoryThrew(kind: ExceptionKind)

  /** The exceptions that end a post-processing pass, with the context they carry. */
  datatype Error =
    | ArityMismatch(setter: MemberId, paramCount: nat)
    | InterceptorCreationFailed(cls: ClassName)
    | NoSuchBean(key: string)
    | BeanNotOfRequiredType(name: BeanName)
    | ChannelCreationFailed(name: string, cause: ChannelCause)
    | NullInjectionValue(name: string, member: MemberId)
    | StubInstantiationFailed(cls: ClassName, member: MemberId)
    | UnsupportedType(member: MemberId, cls: ClassName)
    | Uncaught(kind: ExceptionKind)
  {
    /** The Java exception class thrown for this error. */
    function Kind(): ExceptionKind
    {
      match this
      case ArityMismatch(_, _) => BeanDefinitionStoreException
      case InterceptorCreationFailed(_) => BeanCreationException
      case NoSuchBean(_) => NoSuchBeanDefinitionException
      case BeanNotOfRequiredType(_) => BeanNotOfRequiredTypeException
      case ChannelCreationFailed(_, _) => IllegalStateException
      case NullInjectionValue(_, _) => IllegalStateException
      case StubInstantiationFailed(_, _) => BeanInstantiationException
      case UnsupportedType(_, _) => InvalidPropertyException
      case Uncaught(k) => k
    }
  }
}
