/** The converter between a nullable `Class` attribute and a nullable
    `String` column holding the class's name. Loading a class by name is a
    facility of the Java runtime; here it is an explicit parameter, the
    resolver, and the overridable `loadClass` hook is a parameter too. */
module ClassToString {
  import opened Wrappers

  /** A loaded class: an identity of its own and the name it reports.
      Two distinct classes may share a name (loaded by different class
      loaders), so the name alone does not identify a class. */
  datatype Class = Class(identity: nat, name: string)

  /** What `Class.forName` in the caller's class loader finds for a
      non-null name, or `None` where it would throw
      `ClassNotFoundException`. */
  type Resolver = string -> Option<Class>

  /** `ClassNotFoundException`, carrying the name that was not found. */
  datatype ClassNotFound = ClassNotFound(name: string)

  /** `IllegalArgumentException`: its message is the class name that was
      being converted (null if that was null) and its cause the
      `ClassNotFoundException` it translates. */
  datatype IllegalArgument = IllegalArgument(message: Option<string>, cause: ClassNotFound)

  /** The signature of the protected `loadClass` hook, which a subclass
      may replace. */
  type Loader = Option<string> -> Result<Option<Class>, ClassNotFound>

  /** convertToDatabaseColumn: null stays null, any other class is
      stored as its name. This direction never fails. */
  function ToColumn(cls: Option<Class>): (r: Option<string>)
    ensures r.None? <==> cls.None?
    ensures cls.Some? ==> r == Some(cls.value.name)
  {
    if cls.None? then None else Some(cls.value.name)
  }

  /** The default loadClass: null gives null without asking the
      resolver; a name the resolver knows gives exactly the resolver's
      class; any other name throws `ClassNotFoundException`. */
  function LoadClass(resolve: Resolver, name: Option<string>): (r: Result<Option<Class>, ClassNotFound>)
    ensures name.None? ==> r == Success(None)
    ensures name.Some? ==> (r.Failure? <==> resolve(name.value).None?)
    ensures name.Some? && r.Success? ==> r.value == resolve(name.value) && r.value.Some?
    ensures r.Failure? ==> name.Some? && r.error == ClassNotFound(name.value)
  {
    if name.None? then Success(None)
    else
      match resolve(name.value)
      case Some(c) => Success(Some(c))
      case None => Failure(ClassNotFound(name.value))
  }

  /** convertToEntityAttribute over any loadClass hook: whatever the hook
      returns is returned unchanged, and a `ClassNotFoundException` from
      the hook becomes an `IllegalArgumentException` whose message is the
      class name and whose cause is that exception. */
  function ToEntityWith(loadClass: Loader, className: Option<string>): (r: Result<Option<Class>, IllegalArgument>)
    ensures r.Success? <==> loadClass(className).Success?
    ensures r.Success? ==> r.value == loadClass(className).value
    ensures r.Failure? ==> r.error == IllegalArgument(className, loadClass(className).error)
  {
    match loadClass(className)
    case Success(c) => Success(c)
    case Failure(cnfe) => Failure(IllegalArgument(className, cnfe))
  }

  /** convertToEntityAttribute with the default loadClass over the given
      resolver. */
  function ToEntity(resolve: Resolver, className: Option<string>): (r: Result<Option<Class>, IllegalArgument>)
    ensures className.None? ==> r == Success(None)
    ensures className.Some? ==> (r.Failure? <==> resolve(className.value).None?)
    ensures className.Some? && r.Success? ==> r.value == resolve(className.value)
    ensures r.Failure? ==> r.error.message == className && r.error.cause == ClassNotFound(className.value)
  {
    ToEntityWith(n => LoadClass(resolve, n), className)
  }

  /** Loading null never consults the resolver: any two resolvers give
      the same answer. */
  lemma LoadClassNullIgnoresResolver(resolve1: Resolver, resolve2: Resolver)
    ensures LoadClass(resolve1, None) == LoadClass(resolve2, None) == Success(None)
  {
  }

  /** The resolver maps the name of `c` back to `c` itself. */
  ghost predicate ResolvesBack(resolve: Resolver, c: Class)
  {
    resolve(c.name) == Some(c)
  }

  /** Storing a class and reading it back gives the same class, null
      included, when the resolver maps the class's name back to it. */
  lemma EntityRoundTrip(resolve: Resolver, cls: Option<Class>)
    requires cls.Some? ==> ResolvesBack(resolve, cls.value)
    ensures ToEntity(resolve, ToColumn(cls)) == Success(cls)
  {
  }

  /** Reading a stored name and storing it again gives the same name,
      null included, when the resolver only ever returns a class bearing
      the name it was asked for. */
  lemma ColumnRoundTrip(resolve: Resolver, className: Option<string>)
    requires className.Some? && resolve(className.value).Some? ==> resolve(className.value).value.name == className.value
    ensures ToEntity(resolve, className).Success? ==> ToColumn(ToEntity(resolve, className).value) == className
  {
  }

  /** A fixed registry of classes keyed by name, as a replacement for the
      class-loader lookup that a subclass may install. */
  function RegistryResolver(registry: map<string, Class>): Resolver
  {
    n => if n in registry then Some(registry[n]) else None
  }

  /** A registry whose every entry is filed under its class's name. */
  ghost predicate KeyedByName(registry: map<string, Class>)
  {
    forall n :: n in registry ==> registry[n].name == n
  }

  /** With a registry keyed by name, every registered class survives a
      write and a read, and every name outside the registry is rejected
      with an `IllegalArgumentException` naming it. */
  lemma RegistryRoundTrip(registry: map<string, Class>, cls: Class, missing: string)
    requires KeyedByName(registry)
    requires cls in registry.Values
    requires missing !in registry
    ensures ToEntity(RegistryResolver(registry), ToColumn(Some(cls))) == Success(Some(cls))
    ensures ToEntity(RegistryResolver(registry), Some(missing)) == Failure(IllegalArgument(Some(missing), ClassNotFound(missing)))
  {
  }
}
