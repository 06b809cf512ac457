# JPA attribute converters, modelled in Dafny

The library provides JPA attribute converters. Each one is a stateless
pair of functions. One direction turns an entity attribute into a database
column value (`convertToDatabaseColumn`). The other turns a column value
back into an attribute (`convertToEntityAttribute`). This model covers two
of the converters:

- `BooleanToShortConverter` (module `BooleanToShort`, file
  `boolean_to_short.dfy`) maps a nullable `Boolean` to a nullable `Short`
  (a TINYINT column). Java's `short` is the 16-bit newtype `int16` and
  Java's null is `Option.None`. Writing TRUE stores 1 and writing FALSE
  stores 0. Reading gives TRUE for every positive short and FALSE for zero
  and every negative short. The asymmetry is the library's own and is kept.
  Round trips in both directions are proved, and so is how the read
  direction partitions all 65536 shorts (32767 read as TRUE, 32769 as FALSE).
  Of all shorts, only 0 and 1 survive a read followed by a write.
- `ClassToStringConverter` (module `ClassToString`, file
  `class_to_string.dfy`) maps a nullable `Class` to its name. A class is a
  value with an identity and a name. Looking a class up by name is a
  `Resolver` parameter. The resolver stands for `Class.forName` with the
  thread's context class loader, and `None` means the class was not found.
  The protected, overridable `loadClass` hook is modelled by `LoadClass`,
  the default implementation. `ToEntityWith` takes any hook. A
  `ClassNotFoundException` from the hook becomes a `Failure` that carries
  an `IllegalArgument` value. That value holds the class name as its
  message and the original exception as its cause.

`wrappers.dfy` holds `Option` for Java references that may be null, and
`Result` for calls that may throw.

## Model

| member | source | states |
|---|---|---|
| `BooleanToShort.ToColumn` | src/main/java/com/edugility/jpa/converters/BooleanToShortConverter.java:74-84 | null is stored as null. TRUE is stored as 1 and FALSE as 0. Every stored value is null, 0 or 1. |
| `BooleanToShort.ToEntity` | src/main/java/com/edugility/jpa/converters/BooleanToShortConverter.java:111-121 | null reads as null. A non-null short reads as TRUE exactly when it is greater than 0, and as FALSE exactly when it is 0 or negative. |
| `BooleanToShort.EntityRoundTrip` | src/main/java/com/edugility/jpa/converters/BooleanToShortConverter.java:74-121 | Writing and then reading gives back every attribute value: null, TRUE and FALSE. |
| `BooleanToShort.ColumnRoundTrip` | src/main/java/com/edugility/jpa/converters/BooleanToShortConverter.java:74-121 | Reading and then writing gives back a column value exactly when it is null, 0 or 1. A positive short comes back as 1, and zero or a negative short comes back as 0. |
| `BooleanToShort.ToColumnInjective` | src/main/java/com/edugility/jpa/converters/BooleanToShortConverter.java:74-84 | Distinct attribute values are stored as distinct column values. |
| `BooleanToShort.ReadPartition` | src/main/java/com/edugility/jpa/converters/BooleanToShortConverter.java:113-119 | The shorts that read as TRUE are exactly the 32767 values 1..32767. The shorts that read as FALSE are exactly the 32769 values -32768..0. |
| `BooleanToShort.FixedColumnsAreZeroAndOne` | src/main/java/com/edugility/jpa/converters/BooleanToShortConverter.java:74-121 | Of all shorts, exactly 0 and 1 are unchanged by a read followed by a write. |
| `ClassToString.ToColumn` | src/main/java/com/edugility/jpa/converters/ClassToStringConverter.java:69-74 | null is stored as null, and a class is stored as its name. This direction never fails. |
| `ClassToString.LoadClass` | src/main/java/com/edugility/jpa/converters/ClassToStringConverter.java:127-135 | A null name gives null. A name the resolver knows gives exactly the resolver's class. Any other name fails with `ClassNotFoundException` carrying that name. |
| `ClassToString.ToEntityWith` | src/main/java/com/edugility/jpa/converters/ClassToStringConverter.java:89-95 | For any `loadClass` hook, the hook's result is returned unchanged. The hook's `ClassNotFoundException` becomes an `IllegalArgumentException` whose message is the class name and whose cause is that exception. |
| `ClassToString.ToEntity` | src/main/java/com/edugility/jpa/converters/ClassToStringConverter.java:89-95 | With the default hook, null reads as null with no error. A name fails exactly when the resolver does not know it. The failure's message is that name. On success the result is exactly the resolver's class. |
| `ClassToString.LoadClassNullIgnoresResolver` | src/main/java/com/edugility/jpa/converters/ClassToStringConverter.java:129-130 | Loading null gives null whatever the resolver is, so the resolver is not consulted. |
| `ClassToString.EntityRoundTrip` | src/main/java/com/edugility/jpa/converters/ClassToStringConverter.java:69-95 | If the resolver maps a class's name back to that class, storing and then reading gives back that same class. Null also comes back as null. |
| `ClassToString.ColumnRoundTrip` | src/main/java/com/edugility/jpa/converters/ClassToStringConverter.java:69-95 | If the resolver returns only classes with the requested name, reading a stored name and storing the result again gives back the same name. Null also comes back as null. |
| `ClassToString.RegistryRoundTrip` | src/main/java/com/edugility/jpa/converters/ClassToStringConverter.java:127-135 | Replace the lookup with a fixed registry keyed by class name. Every registered class then round-trips. Every unregistered name fails with an `IllegalArgumentException` that names it. |

## Left out

- `LocaleToLanguageTagConverter`: apart from its null checks, it only delegates to `java.util.Locale.toLanguageTag` and `Locale.forLanguageTag`. Those implement BCP 47 (RFC 5646) formatting and parsing inside the JDK, and modelling them would mean inventing the JDK's canonicalisation rules.
- Real class loading: `Class.forName`, the thread's context class loader, and the static initialisation that loading a class triggers. They are foreign runtime facilities, so the model takes an abstract `Resolver` parameter instead. The side effect of initialisation is not modelled.
- The JPA `@Converter` annotations, the `AttributeConverter` interface and the no-argument constructors. These only register the converters and have no behaviour.
- Concurrency: the converters keep no state, so there is nothing to model.
