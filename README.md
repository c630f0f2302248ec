# qark type registry and XML output archive, in Dafny

This project models two pieces of qark, the reflection-based XML
serialization framework that Qt Creator's modeling library uses.

- **Type registries** (`typeregistry.h`). One global pair of hashes relates
  the compiler's typeid name of a class to the type uid written into archives.
  For every archive class and base class there is also a hash. It maps the
  typeid name of each derived class to a `typeInfo`, a pair of save and load
  function slots. Registration checks consistency and then inserts. Lookups
  fall back to default values. `flattenTypename` turns a C++ type name into
  a uid.
- **`QXmlOutArchive`** (`qxmloutarchive.h`). Each `begin*` other than
  `beginDocument` writes one start element to a `QXmlStreamWriter`, and each
  matching `end*` writes one end element. `beginDocument` and `endDocument`
  write a start-document and an end-document.
  Reference brackets set and clear a flag, and pointers are written as their
  reference number. Two conditions raise an exception: a forward reference, and dangling
  references when the archive is destroyed.

Modelling choices:

- A C++ type is its typeid name plus a const flag (`TypeRegistry.CxxType`).
  `typeid` ignores top-level const, so `T` and `const T` share the name.
- A function pointer is a token naming the template instantiation it points
  to (`SavePointer(archive, base, derived)` and `LoadPointer(...)`). A null
  pointer is `None`. The struct `typeInfo` (`typeregistry.h:138-162`) is the
  datatype `TypeInfo`. Its two constructors are `DefaultTypeInfo()` and the
  datatype constructor. Its `operator==` is `TypeInfoEqual`, which is proved
  to coincide with datatype equality.
- `TypeNameMaps<0>` is the class `TypeRegistry.TypeNameMaps`. The debug-only
  `QMT_CHECK` consistency checks on registration become `requires` clauses.
  `hasNameToUidMap` / `hasUidToNameMap` are the field `initialized`.
- `TypeRegistries` holds every `TypeRegistry<Archive, BASE>` instantiation in
  one map, keyed by `(archive, base type)`. A key is present exactly when that
  instantiation's `init` has run, so `hasMap` is `key in maps`.
- The lookups `getTypeUid` and `getTypeInfo(uid)` are pure functions over the
  map values (`TypeUid`, `TypeInfoByUid`). The lemmas are stated about these.
  On the global state they are `TypeNameMaps.GetTypeUid` and
  `TypeRegistries.GetTypeInfoByUid`. These require that the maps exist: `init`
  must have run, so the map pointers are not null. `QHash::value` is `ValueOr`,
  returning the empty string or the null-slot `typeInfo` for a missing key. `getTypeInfo(const T &)` uses the
  inserting `operator[]`, so it is a method that changes the table.
- The stream writer is the class `XmlStream.XmlStreamWriter`, whose state is
  the sequence of events it was asked to write. The archive holds it by
  reference. The number of open elements is `OpenCount(events)`. Each archive
  method states what it appends, how it changes that count, and that a
  well-nested output stays well nested.
- `impl::SavingRefMap` is not part of this model. Its observable state is a
  value `SavingRefMap`: the defined references with their numbers, and the
  count of dangling references. The source's constructor takes only the
  stream and default-constructs the map. The model's constructor takes a
  `refMap` parameter instead, standing for whatever state that unseen map is
  in. Nothing in `qxmloutarchive.h` adds a defined reference. So if the
  default map is empty, `write(T *)` always throws and `isReference(p)` is
  just the flag.
- `QString::number` for integers is the concrete function
  `Decimal.IntToString`: base 10, a leading `-` for negative values, no
  leading zeros. It is proved to be inverted by a parser.

## Model

| member | source | states |
|---|---|---|
| TypeRegistry.AddConst | src/libs/3rdparty/modeling/qtserialization/inc/qark/typeregistry.h:333-336 | `add_const` gives a const type with the same typeid name |
| TypeRegistry.DefaultTypeInfo | src/libs/3rdparty/modeling/qtserialization/inc/qark/typeregistry.h:143-147 | the default `typeInfo` has a null save slot and a null load slot |
| TypeRegistry.TypeInfoEqual | src/libs/3rdparty/modeling/qtserialization/inc/qark/typeregistry.h:155-158 | `operator==` holds exactly when both slots are equal, which is equality of the two values |
| TypeRegistry.ValueOr | src/libs/3rdparty/modeling/qtserialization/inc/qark/typeregistry.h:274 | `QHash::value`: the stored value for a present key, the default for a missing one |
| TypeRegistry.CanRegisterName | src/libs/3rdparty/modeling/qtserialization/inc/qark/typeregistry.h:124-125 | the two checks pass exactly when neither insert at 126-127 overwrites an existing binding |
| TypeRegistry.CanRegisterDerived | src/libs/3rdparty/modeling/qtserialization/inc/qark/typeregistry.h:214 | the check passes exactly when the insert at 215 overwrites no existing binding |
| TypeRegistry.TypeNameMaps.GetTypeUid | src/libs/3rdparty/modeling/qtserialization/inc/qark/typeregistry.h:266-287 | requires the maps to exist; the registered uid or the empty string; under the invariant that uid maps back to the name |
| TypeRegistry.TypeRegistries.GetTypeInfoByUid | src/libs/3rdparty/modeling/qtserialization/inc/qark/typeregistry.h:301-311 | requires the uid map and the table to exist; the entry of the uid's name, both slots null for an unregistered name, the empty name's entry for an unknown uid |
| TypeRegistry.FlattenTypename | src/libs/3rdparty/modeling/qtserialization/inc/qark/typeregistry.h:258-262 | result has the input's length; position k holds '-' where the input has ':' and the input's character elsewhere |
| TypeRegistry.FlattenedHasNoColon | src/libs/3rdparty/modeling/qtserialization/inc/qark/typeregistry.h:258-262 | a flattened name contains no ':' |
| TypeRegistry.FlattenIdempotent | src/libs/3rdparty/modeling/qtserialization/inc/qark/typeregistry.h:258-262 | flattening twice equals flattening once |
| TypeRegistry.FlattenWithoutColonIsIdentity | src/libs/3rdparty/modeling/qtserialization/inc/qark/typeregistry.h:258-262 | a name without ':' is unchanged by flattening |
| TypeRegistry.RegisterNamePreservesInverse | src/libs/3rdparty/modeling/qtserialization/inc/qark/typeregistry.h:121-129 | if the two consistency checks pass on mutually inverse maps, inserting (name, uid) into both keeps them mutual inverses |
| TypeRegistry.ReRegisterNameIsNoOp | src/libs/3rdparty/modeling/qtserialization/inc/qark/typeregistry.h:124-127 | re-registering a registered (name, uid) pair passes the checks and leaves both maps equal to what they were |
| TypeRegistry.TypeUid | src/libs/3rdparty/modeling/qtserialization/inc/qark/typeregistry.h:266-287 | the uid registered for the typeid name, or the empty string for an unregistered name |
| TypeRegistry.TypeUidRoundTrip | src/libs/3rdparty/modeling/qtserialization/inc/qark/typeregistry.h:124-127 | under the inverse invariant the uid of a registered name maps back to that name |
| TypeRegistry.RegisterDerivedIdempotent | src/libs/3rdparty/modeling/qtserialization/inc/qark/typeregistry.h:211-217 | registering the same slots again passes the check and leaves the table unchanged; a present name already bound equally is untouched |
| TypeRegistry.InArchiveTypeInfo | src/libs/3rdparty/modeling/qtserialization/inc/qark/typeregistry.h:326-329 | the in-archive entry has a null save slot and the load function of the in-archive for the derived class |
| TypeRegistry.OutArchiveTypeInfo | src/libs/3rdparty/modeling/qtserialization/inc/qark/typeregistry.h:330-336 | the out-archive entries have the save function of the out-archive for the derived class and a null load slot |
| TypeRegistry.TypeInfoByUid | src/libs/3rdparty/modeling/qtserialization/inc/qark/typeregistry.h:301-311 | known uid and registered name: that entry; known uid, unregistered name: both slots null; unknown uid: the entry for the empty name, else both slots null |
| TypeRegistry.TypeInfoByUidOfRegisteredName | src/libs/3rdparty/modeling/qtserialization/inc/qark/typeregistry.h:301-311 | looking a registered class up through its uid gives what its typeid name gives in the table, both slots null if absent |
| TypeRegistry.RegisteredClassFoundByUid | src/libs/3rdparty/modeling/qtserialization/inc/qark/typeregistry.h:121-129 | after registering (name, uid) and the name's slots, `getTypeUid` gives the uid and `getTypeInfo(uid)` gives the slots |
| TypeRegistry.TypeNameMaps.constructor | src/libs/3rdparty/modeling/qtserialization/inc/qark/typeregistry.h:102-106 | before any init the maps are absent (uninitialized, empty) |
| TypeRegistry.TypeNameMaps.Init | src/libs/3rdparty/modeling/qtserialization/inc/qark/typeregistry.h:82-93 | afterwards initialized with the maps unchanged; a second call changes nothing |
| TypeRegistry.TypeNameMaps.RegisterTypeName | src/libs/3rdparty/modeling/qtserialization/inc/qark/typeregistry.h:121-129 | requires both checks; afterwards nameToUid[name] = uid and uidToName[uid] = name, nothing else changes, the maps stay inverse, re-registration changes nothing |
| TypeRegistry.TypeNameMaps.RegisterType | src/libs/3rdparty/modeling/qtserialization/inc/qark/typeregistry.h:322-324 | registers the flattened spelling of the type as its uid; that uid contains no ':' |
| TypeRegistry.TypeRegistries.constructor | src/libs/3rdparty/modeling/qtserialization/inc/qark/typeregistry.h:191-192 | no instantiation has a table before its init |
| TypeRegistry.TypeRegistries.Init | src/libs/3rdparty/modeling/qtserialization/inc/qark/typeregistry.h:176-184 | the first call creates that instantiation's empty table; later calls change nothing; other tables untouched |
| TypeRegistry.TypeRegistries.RegisterDerived | src/libs/3rdparty/modeling/qtserialization/inc/qark/typeregistry.h:211-217 | requires the name be absent or bound to an equal typeInfo; afterwards the table maps it to typeInfo(save, load) and nothing else changes |
| TypeRegistry.TypeRegistries.RegisterDerivedClass | src/libs/3rdparty/modeling/qtserialization/inc/qark/typeregistry.h:326-336 | three entries: in-archive (null save, load function), out-archive and const out-archive (save function, null load); nothing else changes |
| TypeRegistry.TypeRegistries.TypeInfoOf | src/libs/3rdparty/modeling/qtserialization/inc/qark/typeregistry.h:289-299 | returns the entry of the dynamic typeid name; a missing name is inserted with both slots null and returned |
| Decimal.NatToString | src/libs/3rdparty/modeling/qtserialization/inc/qark/qxmloutarchive.h:91-107 | non-empty, all digits, no leading zero except for "0" |
| Decimal.IntToString | src/libs/3rdparty/modeling/qtserialization/inc/qark/qxmloutarchive.h:91-107 | non-empty; starts with '-' exactly for negative values; the digits (after the '-', if any) have no leading zero except in "0" |
| Decimal.ParseNatToString | src/libs/3rdparty/modeling/qtserialization/inc/qark/qxmloutarchive.h:91-107 | parsing the digits of n gives n |
| Decimal.IntToStringRoundTrip | src/libs/3rdparty/modeling/qtserialization/inc/qark/qxmloutarchive.h:91-107 | parsing the written integer gives it back |
| Decimal.IntToStringInjective | src/libs/3rdparty/modeling/qtserialization/inc/qark/qxmloutarchive.h:82-89 | different reference numbers are written as different texts |
| XmlStream.OpenCountAppend | src/libs/3rdparty/modeling/qtserialization/inc/qark/qxmloutarchive.h:135-155 | appending an event changes the open-element count by that event's +1/-1/0 |
| XmlStream.OpenCountConcat | src/libs/3rdparty/modeling/qtserialization/inc/qark/qxmloutarchive.h:135-155 | the open-element count of a concatenation is the sum of the parts' counts |
| XmlStream.WellNestedOpenCount | src/libs/3rdparty/modeling/qtserialization/inc/qark/qxmloutarchive.h:135-155 | well-nested output has a non-negative open-element count |
| XmlStream.WellNestedAppend | src/libs/3rdparty/modeling/qtserialization/inc/qark/qxmloutarchive.h:135-150 | appending anything but an end element keeps output well nested |
| XmlStream.WellNestedAppendEnd | src/libs/3rdparty/modeling/qtserialization/inc/qark/qxmloutarchive.h:152-155 | appending an end element while one is open keeps output well nested and lowers the count by one |
| XmlStream.WellNestedConcat | src/libs/3rdparty/modeling/qtserialization/inc/qark/qxmloutarchive.h:135-155 | well-nested output followed by well-nested output is well nested |
| XmlStream.BalancedWrap | src/libs/3rdparty/modeling/qtserialization/inc/qark/qxmloutarchive.h:305-339 | a start element, a balanced body and an end element form balanced output, as a matched begin/end pair around bracketed calls does |
| XmlStream.BalancedConcat | src/libs/3rdparty/modeling/qtserialization/inc/qark/qxmloutarchive.h:135-176 | balanced outputs in sequence are balanced |
| XmlStream.XmlStreamWriter.constructor | src/libs/3rdparty/modeling/qtserialization/inc/qark/qxmloutarchive.h:342 | a fresh writer holds no events |
| XmlStream.XmlStreamWriter.WriteStartDocument | src/libs/3rdparty/modeling/qtserialization/inc/qark/qxmloutarchive.h:127 | appends StartDocument; count unchanged; nesting kept |
| XmlStream.XmlStreamWriter.WriteEndDocument | src/libs/3rdparty/modeling/qtserialization/inc/qark/qxmloutarchive.h:132 | appends EndDocument; count unchanged; nesting kept |
| XmlStream.XmlStreamWriter.WriteStartElement | src/libs/3rdparty/modeling/qtserialization/inc/qark/qxmloutarchive.h:137 | appends StartElement(name); count up by one; nesting kept |
| XmlStream.XmlStreamWriter.WriteEndElement | src/libs/3rdparty/modeling/qtserialization/inc/qark/qxmloutarchive.h:154 | appends EndElement; count down by one; nesting kept when an element was open |
| XmlStream.XmlStreamWriter.WriteAttribute | src/libs/3rdparty/modeling/qtserialization/inc/qark/qxmloutarchive.h:333 | appends Attribute(name, value); count unchanged; nesting kept |
| XmlStream.XmlStreamWriter.WriteCharacters | src/libs/3rdparty/modeling/qtserialization/inc/qark/qxmloutarchive.h:94 | appends Characters(text); count unchanged; nesting kept |
| XmlOutArchive.HasDefinedRef | src/libs/3rdparty/modeling/qtserialization/inc/qark/qxmloutarchive.h:85 | `hasDefinedRef(p)`: p is among the pointers that have a reference number |
| XmlOutArchive.BoolText | src/libs/3rdparty/modeling/qtserialization/inc/qark/qxmloutarchive.h:113-116 | "true" for true, "false" for false |
| XmlOutArchive.QXmlOutArchive.constructor | src/libs/3rdparty/modeling/qtserialization/inc/qark/qxmloutarchive.h:67-71 | the flag is false and nothing is written to the stream |
| XmlOutArchive.QXmlOutArchive.Destroy | src/libs/3rdparty/modeling/qtserialization/inc/qark/qxmloutarchive.h:73-78 | fails with DanglingReferences exactly when the dangling count is positive; writes nothing |
| XmlOutArchive.QXmlOutArchive.WritePointer | src/libs/3rdparty/modeling/qtserialization/inc/qark/qxmloutarchive.h:82-89 | fails with UnsupportedForwardReference exactly when the pointer has no defined reference, then writes nothing; otherwise writes the decimal text of its reference number |
| XmlOutArchive.QXmlOutArchive.WriteInteger | src/libs/3rdparty/modeling/qtserialization/inc/qark/qxmloutarchive.h:91-107 | appends exactly the decimal text of the integer |
| XmlOutArchive.QXmlOutArchive.WriteBool | src/libs/3rdparty/modeling/qtserialization/inc/qark/qxmloutarchive.h:113-116 | appends exactly "true" or "false" |
| XmlOutArchive.QXmlOutArchive.WriteString | src/libs/3rdparty/modeling/qtserialization/inc/qark/qxmloutarchive.h:118-121 | appends the string unchanged |
| XmlOutArchive.QXmlOutArchive.BeginDocument | src/libs/3rdparty/modeling/qtserialization/inc/qark/qxmloutarchive.h:125-128 | appends StartDocument only |
| XmlOutArchive.QXmlOutArchive.EndDocument | src/libs/3rdparty/modeling/qtserialization/inc/qark/qxmloutarchive.h:130-133 | appends EndDocument only |
| XmlOutArchive.QXmlOutArchive.BeginElement | src/libs/3rdparty/modeling/qtserialization/inc/qark/qxmloutarchive.h:135-150 | appends one start element named by the qualified name; count up by one |
| XmlOutArchive.QXmlOutArchive.EndElement | src/libs/3rdparty/modeling/qtserialization/inc/qark/qxmloutarchive.h:152-155 | appends one end element; count down by one |
| XmlOutArchive.QXmlOutArchive.BeginBase | src/libs/3rdparty/modeling/qtserialization/inc/qark/qxmloutarchive.h:157-161 | appends one start element; count up by one |
| XmlOutArchive.QXmlOutArchive.EndBase | src/libs/3rdparty/modeling/qtserialization/inc/qark/qxmloutarchive.h:163-167 | appends one end element; count down by one |
| XmlOutArchive.QXmlOutArchive.BeginAttribute | src/libs/3rdparty/modeling/qtserialization/inc/qark/qxmloutarchive.h:169-221 | appends one start element for every attribute kind; count up by one |
| XmlOutArchive.QXmlOutArchive.EndAttribute | src/libs/3rdparty/modeling/qtserialization/inc/qark/qxmloutarchive.h:175-227 | appends one end element for every attribute kind; count down by one |
| XmlOutArchive.QXmlOutArchive.BeginReference | src/libs/3rdparty/modeling/qtserialization/inc/qark/qxmloutarchive.h:229-290 | appends one start element and sets the next-pointer-is-reference flag, so that every pointer then counts as a reference |
| XmlOutArchive.QXmlOutArchive.EndReference | src/libs/3rdparty/modeling/qtserialization/inc/qark/qxmloutarchive.h:236-297 | clears the flag and appends one end element; afterwards a pointer counts as a reference exactly when it has a defined reference |
| XmlOutArchive.QXmlOutArchive.IsReference | src/libs/3rdparty/modeling/qtserialization/inc/qark/qxmloutarchive.h:299-303 | true exactly inside a reference bracket or when the pointer has a defined reference; reads state only |
| XmlOutArchive.QXmlOutArchive.BeginNullPointer | src/libs/3rdparty/modeling/qtserialization/inc/qark/qxmloutarchive.h:305-308 | appends a start element named "null" |
| XmlOutArchive.QXmlOutArchive.EndNullPointer | src/libs/3rdparty/modeling/qtserialization/inc/qark/qxmloutarchive.h:310-313 | appends one end element |
| XmlOutArchive.QXmlOutArchive.BeginPointer | src/libs/3rdparty/modeling/qtserialization/inc/qark/qxmloutarchive.h:315-318 | appends a start element named "reference" |
| XmlOutArchive.QXmlOutArchive.EndPointer | src/libs/3rdparty/modeling/qtserialization/inc/qark/qxmloutarchive.h:320-323 | appends one end element |
| XmlOutArchive.QXmlOutArchive.BeginInstance | src/libs/3rdparty/modeling/qtserialization/inc/qark/qxmloutarchive.h:325-328 | appends a start element named "instance" and no attribute |
| XmlOutArchive.QXmlOutArchive.BeginInstanceOfType | src/libs/3rdparty/modeling/qtserialization/inc/qark/qxmloutarchive.h:330-334 | appends a start element named "instance" followed by the attribute type = uid |
| XmlOutArchive.QXmlOutArchive.EndInstance | src/libs/3rdparty/modeling/qtserialization/inc/qark/qxmloutarchive.h:336-339 | appends one end element |

## Left out

- `write(float)` and `write(double)` (`qxmloutarchive.h:108-109`): floating-point formatting by `QString::number` is not modelled.
- XmlOutArchive.QXmlOutArchive.WriteInteger: takes a mathematical integer for all eleven integer overloads. A C++ argument already lies in its type's range, and the decimal text does not depend on the type, so the integer widths are not modelled separately.
- `impl::SavingRefMap`: its internals are not part of this model. Only `hasDefinedRef`, the reference number and `countDanglingReferences` are modelled, as an abstract value given to the archive's constructor. Nothing in `qxmloutarchive.h` changes that map.
- `QXmlStreamWriter`: escaping, the text it produces, and its own handling of an end element with no open element are not modelled. It is an event sequence.
- XmlStream.XmlStreamWriter.WriteEndDocument: records only the request. Qt's `writeEndDocument` also closes every element still open. The events are what the archive asks for, not what the writer writes, so the open-element count stays unchanged.
- XmlOutArchive.QXmlOutArchive.Destroy: `Fail` records that the destructor throws `DanglingReferences`. Whether a caller can catch it is not modelled. A destructor is implicitly `noexcept` in C++11 unless a base or member destructor may throw, and those classes (`ArchiveBasics`, `impl::SavingRefMap`) are not part of this model. If it is `noexcept`, the throw calls `std::terminate`.
- `ArchiveBasics`, the base class of the archive, is not part of this model.
- TypeRegistry.TypeNameMaps.GetTypeUid: the debug assertion that the typeid name is registered (`typeregistry.h:271-272`, `283-284`) is not a precondition. The model gives the release-build result, the empty string, for an unregistered name. The assertion that the maps exist (`270`, `282`) is the precondition `initialized`.
- TypeRegistry.TypeUid: a pure function over a map value, without the map-existence check. `TypeNameMaps.GetTypeUid` carries the check.
- TypeRegistry.TypeInfoByUid: a pure function over map values, without the map-existence checks (`typeregistry.h:305-308`). `TypeRegistries.GetTypeInfoByUid` carries them. `TableOf`'s empty table stands for an instantiation whose `init` has not run; the source would dereference a null map pointer there.
- TypeRegistry.TypeRegistries.RegisterDerivedClass: requires distinct in- and out-archive classes and an unqualified base class. The macro is used that way, and then its three registrations go into three different tables. With a const base, the out-archive registration and its const variant would share one table.
- `savePointer`, `loadPointer` and `loadNonVirtualPointer` (`typeregistry.h:220-250`): they depend on `dynamic_cast`, `new`, and `save`/`load` overloads that are not shown. They appear only as the tokens `SavePointer` and `LoadPointer`. The `abstractType` exception is thrown only there, so it is left out too.
- `unregisteredType` (`typeregistry.h:48-51`) is declared but not thrown in these files.
- `demangleTypename` (`typeregistry.h:252-256`) is the identity and is used only in debug messages. Typeid names are plain strings, with no compiler mangling.
- C++ static-initialization order of the `__static_init` members is not modelled. Each registration macro is a method call the caller makes.
- The GUI files (`shapepaintvisitor.cpp`, `associationitem.cpp`, `annotationitem.h`) are not part of this model. They hold painting, scene items and floating-point geometry.
