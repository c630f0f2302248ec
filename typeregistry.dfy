/**
 * The qark type registries.
 *
 * - `TypeNameMaps` holds the two global hashes that relate the compiler's
 *   typeid name of a class to the user-visible type uid written into archives.
 * - `TypeRegistries` holds, for every archive class and base class, the hash
 *   from the typeid name of a derived class to the pair of functions that save
 *   and load a base-class pointer to an object of that derived class.
 *
 * C++ types are modelled by their typeid name and whether they are
 * const-qualified; function pointers are modelled by tokens naming the
 * template instantiation they point to, and a null pointer by `None`.
 */
module TypeRegistry {
  import opened Wrappers

  /** A C++ class type. `typeid` ignores top-level const, so a const-qualified
      type and its unqualified version share `typeidName`. */
  datatype CxxType = CxxType(typeidName: string, isConst: bool)

  /** `std::add_const<T>::type`. */
  function AddConst(t: CxxType): (r: CxxType)
    ensures r.isConst && r.typeidName == t.typeidName
  {
    t.(isConst := true)
  }

  /** The instantiation `savePointer<archive, base, derived>`. */
  datatype SaveFunc = SavePointer(archive: string, base: CxxType, derived: CxxType)

  /** The instantiation `loadPointer<archive, base, derived>`. */
  datatype LoadFunc = LoadPointer(archive: string, base: CxxType, derived: CxxType)

  /** `TypeRegistry<Archive, BASE>::typeInfo`: a save slot and a load slot.
      Datatype equality is the source's `operator==`: both slots equal. */
  datatype TypeInfo = TypeInfo(saveFunc: Option<SaveFunc>, loadFunc: Option<LoadFunc>)

  /** The default constructor `typeInfo()`: both slots null. */
  function DefaultTypeInfo(): (r: TypeInfo)
    ensures r.saveFunc == None && r.loadFunc == None
  {
    TypeInfo(None, None)
  }

  /** `typeInfo::operator==`: both slots equal. It coincides with equality of
      the datatype values, which the rest of the model uses. */
  predicate TypeInfoEqual(a: TypeInfo, b: TypeInfo)
    ensures TypeInfoEqual(a, b) <==> a == b
  {
    a.saveFunc == b.saveFunc && a.loadFunc == b.loadFunc
  }

  /** Identifies one instantiation `TypeRegistry<Archive, BASE>`. */
  datatype RegistryKey = RegistryKey(archive: string, base: CxxType)

  /** `QHash::value(key)`: the stored value, or `default` for a missing key. */
  function ValueOr<K, V>(m: map<K, V>, key: K, default: V): (r: V)
    ensures key in m ==> r == m[key]
    ensures key !in m ==> r == default
  {
    if key in m then m[key] else default
  }

  /** Qt's default-constructed QString. */
  const EmptyString: string := ""

  // ---------------------------------------------------------------------
  // Type names and type uids
  // ---------------------------------------------------------------------

  /** `flattenTypename`: every ':' becomes '-', everything else stays. */
  function FlattenTypename(typeName: string): (r: string)
    ensures |r| == |typeName|
    ensures forall k :: 0 <= k < |r| ==> r[k] == (if typeName[k] == ':' then '-' else typeName[k])
  {
    if typeName == [] then []
    else [if typeName[0] == ':' then '-' else typeName[0]] + FlattenTypename(typeName[1..])
  }

  /** A flattened name holds no ':'. */
  lemma FlattenedHasNoColon(typeName: string)
    ensures ':' !in FlattenTypename(typeName)
  {
  }

  /** Flattening twice is flattening once. */
  lemma FlattenIdempotent(typeName: string)
    ensures FlattenTypename(FlattenTypename(typeName)) == FlattenTypename(typeName)
  {
  }

  /** A name without ':' is its own flattening. */
  lemma FlattenWithoutColonIsIdentity(typeName: string)
    requires ':' !in typeName
    ensures FlattenTypename(typeName) == typeName
  {
  }

  /** The two name maps are mutual inverses. */
  predicate NameMapsInverse(nameToUid: map<string, string>, uidToName: map<string, string>)
  {
    (forall n :: n in nameToUid ==> nameToUid[n] in uidToName && uidToName[nameToUid[n]] == n) &&
    (forall u :: u in uidToName ==> uidToName[u] in nameToUid && nameToUid[uidToName[u]] == u)
  }

  /** The two consistency checks `TypeNameRegistry::__init` makes before it
      registers typeid name `n` under uid `u`: they pass exactly when neither
      of the two inserts overwrites a binding that is already there. */
  predicate CanRegisterName(nameToUid: map<string, string>, uidToName: map<string, string>, n: string, u: string)
    ensures CanRegisterName(nameToUid, uidToName, n, u) <==>
      (forall k :: k in nameToUid ==> nameToUid[n := u][k] == nameToUid[k]) &&
      (forall k :: k in uidToName ==> uidToName[u := n][k] == uidToName[k])
  {
    (n !in nameToUid || nameToUid[n] == u) && (u !in uidToName || uidToName[u] == n)
  }

  /** Registration keeps the name maps mutual inverses. */
  lemma RegisterNamePreservesInverse(nameToUid: map<string, string>, uidToName: map<string, string>, n: string, u: string)
    requires NameMapsInverse(nameToUid, uidToName)
    requires CanRegisterName(nameToUid, uidToName, n, u)
    ensures NameMapsInverse(nameToUid[n := u], uidToName[u := n])
  {
  }

  /** Registering a pair that is already registered changes neither map. */
  lemma ReRegisterNameIsNoOp(nameToUid: map<string, string>, uidToName: map<string, string>, n: string, u: string)
    requires NameMapsInverse(nameToUid, uidToName)
    requires n in nameToUid && nameToUid[n] == u
    ensures CanRegisterName(nameToUid, uidToName, n, u)
    ensures nameToUid[n := u] == nameToUid && uidToName[u := n] == uidToName
  {
  }

  /** `getTypeUid`: the uid registered for a typeid name, or the empty string.
      Both overloads look the name up in the same map; the one taking an object
      passes the typeid name of the object's dynamic type. */
  function TypeUid(nameToUid: map<string, string>, typeidName: string): (r: string)
    ensures typeidName in nameToUid ==> r == nameToUid[typeidName]
    ensures typeidName !in nameToUid ==> r == EmptyString
  {
    ValueOr(nameToUid, typeidName, EmptyString)
  }

  /** Under the inverse invariant, a registered name's uid leads back to it. */
  lemma TypeUidRoundTrip(nameToUid: map<string, string>, uidToName: map<string, string>, n: string)
    requires NameMapsInverse(nameToUid, uidToName)
    requires n in nameToUid
    ensures TypeUid(nameToUid, n) in uidToName
    ensures ValueOr(uidToName, TypeUid(nameToUid, n), EmptyString) == n
  {
  }

  // ---------------------------------------------------------------------
  // Derived-class tables
  // ---------------------------------------------------------------------

  /** The check `DerivedTypeRegistry::__init` makes before it binds typeid name
      `d` to `info`: it passes exactly when the insert overwrites no binding
      that is already there. */
  predicate CanRegisterDerived(table: map<string, TypeInfo>, d: string, info: TypeInfo)
    ensures CanRegisterDerived(table, d, info) <==> forall k :: k in table ==> table[d := info][k] == table[k]
  {
    d !in table || TypeInfoEqual(table[d], info)
  }

  /** Re-registering a derived class with the same slots leaves the table as
      it is; registering it again after that is allowed. */
  lemma RegisterDerivedIdempotent(table: map<string, TypeInfo>, d: string, info: TypeInfo)
    requires CanRegisterDerived(table, d, info)
    ensures CanRegisterDerived(table[d := info], d, info)
    ensures table[d := info][d := info] == table[d := info]
    ensures d in table ==> table[d := info] == table
  {
  }

  /** The entry `QARK_REGISTER_DERIVED_CLASS` makes for the in-archive:
      no save slot, the load function for `derived`. */
  function InArchiveTypeInfo(inArchive: string, base: CxxType, derived: CxxType): (r: TypeInfo)
    ensures r.saveFunc.None? && r.loadFunc.Some?
    ensures r.loadFunc.value.archive == inArchive && r.loadFunc.value.derived == derived
  {
    TypeInfo(None, Some(LoadPointer(inArchive, base, derived)))
  }

  /** The entry `QARK_REGISTER_DERIVED_CLASS` makes for the out-archive (and,
      with const-qualified types, its const variant): the save function for
      `derived`, no load slot. */
  function OutArchiveTypeInfo(outArchive: string, base: CxxType, derived: CxxType): (r: TypeInfo)
    ensures r.saveFunc.Some? && r.loadFunc.None?
    ensures r.saveFunc.value.archive == outArchive && r.saveFunc.value.derived == derived
  {
    TypeInfo(Some(SavePointer(outArchive, base, derived)), None)
  }

  /** The table of one `TypeRegistry` instantiation; empty before its `init`. */
  function TableOf(maps: map<RegistryKey, map<string, TypeInfo>>, key: RegistryKey): (table: map<string, TypeInfo>)
  {
    ValueOr(maps, key, map[])
  }

  /** `getTypeInfo<Archive, T>(uid)`: the uid is turned into a typeid name
      through the uid map (the empty string when unknown) and that name is
      looked up in the table (the null-slot `typeInfo` when unknown). */
  function TypeInfoByUid(uidToName: map<string, string>, table: map<string, TypeInfo>, uid: string): (r: TypeInfo)
    ensures uid in uidToName && uidToName[uid] in table ==> r == table[uidToName[uid]]
    ensures uid in uidToName && uidToName[uid] !in table ==> r == DefaultTypeInfo()
    ensures uid !in uidToName ==> r == ValueOr(table, EmptyString, DefaultTypeInfo())
  {
    ValueOr(table, ValueOr(uidToName, uid, EmptyString), DefaultTypeInfo())
  }

  /** Looking a class up by its uid finds what it was registered with under
      its typeid name, and an unregistered class gets both slots null. */
  lemma TypeInfoByUidOfRegisteredName(nameToUid: map<string, string>, uidToName: map<string, string>,
                                      table: map<string, TypeInfo>, n: string)
    requires NameMapsInverse(nameToUid, uidToName)
    requires n in nameToUid
    ensures TypeInfoByUid(uidToName, table, TypeUid(nameToUid, n)) == ValueOr(table, n, DefaultTypeInfo())
  {
  }

  /** After a class is registered by name and as a derived class, its uid
      finds exactly the registered slots. */
  lemma RegisteredClassFoundByUid(nameToUid: map<string, string>, uidToName: map<string, string>,
                                  table: map<string, TypeInfo>, n: string, u: string, info: TypeInfo)
    requires NameMapsInverse(nameToUid, uidToName)
    requires CanRegisterName(nameToUid, uidToName, n, u)
    ensures NameMapsInverse(nameToUid[n := u], uidToName[u := n])
    ensures TypeUid(nameToUid[n := u], n) == u
    ensures TypeInfoByUid(uidToName[u := n], table[n := info], u) == info
  {
  }

  // ---------------------------------------------------------------------
  // The global state
  // ---------------------------------------------------------------------

  /** `TypeNameMaps<0>`: the name-to-uid and uid-to-name hashes shared by all
      `TypeNameRegistry<T>`. Before `init` the map pointers are null, which
      the model shows as `initialized == false` with both maps empty. */
  class TypeNameMaps {
    var initialized: bool
    var nameToUid: map<string, string>
    var uidToName: map<string, string>

    predicate Valid()
      reads this
    {
      (!initialized ==> nameToUid == map[] && uidToName == map[]) &&
      NameMapsInverse(nameToUid, uidToName)
    }

    /** The static state before any registration runs. */
    constructor ()
      ensures Valid() && !initialized
    {
      initialized := false;
      nameToUid := map[];
      uidToName := map[];
    }

    /** `TypeNameMaps::init`: the first call points at the (empty) static
        maps; later calls change nothing. */
    method Init()
      requires Valid()
      modifies this`initialized
      ensures Valid() && initialized
      ensures old(initialized) ==> unchanged(this)
    {
      if !initialized {
        initialized := true;
      }
    }

    /** `TypeNameRegistry<T>::__init(name)` for a class whose typeid name is
        `typeidName`: both maps get the pair, nothing else changes, and the
        maps stay mutual inverses. The consistency checks are required. */
    method RegisterTypeName(typeidName: string, uid: string)
      requires Valid()
      requires CanRegisterName(nameToUid, uidToName, typeidName, uid)
      modifies this
      ensures Valid() && initialized
      ensures nameToUid == old(nameToUid)[typeidName := uid]
      ensures uidToName == old(uidToName)[uid := typeidName]
      ensures old(typeidName in nameToUid) ==> nameToUid == old(nameToUid) && uidToName == old(uidToName)
    {
      Init();
      nameToUid := nameToUid[typeidName := uid];
      uidToName := uidToName[uid := typeidName];
    }

    /** `getTypeUid<T>()` / `getTypeUid(const T &)` on the global state: the
        maps must exist, that is, `init` must have run. */
    function GetTypeUid(typeidName: string): (r: string)
      reads this
      requires initialized
      ensures typeidName in nameToUid ==> r == nameToUid[typeidName]
      ensures typeidName !in nameToUid ==> r == EmptyString
      ensures Valid() && typeidName in nameToUid ==> uidToName[r] == typeidName
    {
      TypeUid(nameToUid, typeidName)
    }

    /** `QARK_REGISTER_TYPE(T)`: the uid is the flattened spelling of `T`. */
    method RegisterType(typeidName: string, spelling: string)
      requires Valid()
      requires CanRegisterName(nameToUid, uidToName, typeidName, FlattenTypename(spelling))
      modifies this
      ensures Valid() && initialized
      ensures nameToUid == old(nameToUid)[typeidName := FlattenTypename(spelling)]
      ensures uidToName == old(uidToName)[FlattenTypename(spelling) := typeidName]
      ensures ':' !in nameToUid[typeidName]
    {
      RegisterTypeName(typeidName, FlattenTypename(spelling));
    }
  }

  /** All instantiations `TypeRegistry<Archive, BASE>` at once: `maps` holds a
      table for every key whose `init` has run. */
  class TypeRegistries {
    var maps: map<RegistryKey, map<string, TypeInfo>>

    /** The static state before any registration runs. */
    constructor ()
      ensures maps == map[]
    {
      maps := map[];
    }

    /** `TypeRegistry<Archive, BASE>::init`: the first call creates the empty
        table; later calls change nothing. */
    method Init(key: RegistryKey)
      modifies this
      ensures key in maps
      ensures maps == old(maps)[key := TableOf(old(maps), key)]
      ensures old(key in maps) ==> maps == old(maps)
      ensures key !in old(maps) ==> maps[key] == map[]
    {
      if key !in maps {
        maps := maps[key := map[]];
      }
    }

    /** `DerivedTypeRegistry<Archive, BASE, DERIVED>::__init(sfunc, lfunc)`:
        binds the typeid name of the derived class to the two slots in the
        table of `key`; the consistency check is required. */
    method RegisterDerived(key: RegistryKey, derivedTypeidName: string, sfunc: Option<SaveFunc>, lfunc: Option<LoadFunc>)
      requires CanRegisterDerived(TableOf(maps, key), derivedTypeidName, TypeInfo(sfunc, lfunc))
      modifies this
      ensures key in maps
      ensures maps == old(maps)[key := TableOf(old(maps), key)[derivedTypeidName := TypeInfo(sfunc, lfunc)]]
      ensures maps[key][derivedTypeidName] == TypeInfo(sfunc, lfunc)
    {
      Init(key);
      maps := maps[key := maps[key][derivedTypeidName := TypeInfo(sfunc, lfunc)]];
    }

    /** `QARK_REGISTER_DERIVED_CLASS(INARCHIVE, OUTARCHIVE, DERIVED, BASE)`:
        three registrations — the in-archive gets only a load function, the
        out-archive and its const variant get only a save function. */
    method RegisterDerivedClass(inArchive: string, outArchive: string, derived: CxxType, base: CxxType)
      requires inArchive != outArchive && !base.isConst
      requires CanRegisterDerived(TableOf(maps, RegistryKey(inArchive, base)), derived.typeidName,
                                  InArchiveTypeInfo(inArchive, base, derived))
      requires CanRegisterDerived(TableOf(maps, RegistryKey(outArchive, base)), derived.typeidName,
                                  OutArchiveTypeInfo(outArchive, base, derived))
      requires CanRegisterDerived(TableOf(maps, RegistryKey(outArchive, AddConst(base))), derived.typeidName,
                                  OutArchiveTypeInfo(outArchive, AddConst(base), AddConst(derived)))
      modifies this
      ensures maps == old(maps)
        [RegistryKey(inArchive, base) :=
           TableOf(old(maps), RegistryKey(inArchive, base))[derived.typeidName := InArchiveTypeInfo(inArchive, base, derived)]]
        [RegistryKey(outArchive, base) :=
           TableOf(old(maps), RegistryKey(outArchive, base))[derived.typeidName := OutArchiveTypeInfo(outArchive, base, derived)]]
        [RegistryKey(outArchive, AddConst(base)) :=
           TableOf(old(maps), RegistryKey(outArchive, AddConst(base)))[derived.typeidName :=
             OutArchiveTypeInfo(outArchive, AddConst(base), AddConst(derived))]]
      ensures var e := maps[RegistryKey(inArchive, base)][derived.typeidName];
        e.saveFunc == None && e.loadFunc == Some(LoadPointer(inArchive, base, derived))
      ensures var e := maps[RegistryKey(outArchive, base)][derived.typeidName];
        e.saveFunc == Some(SavePointer(outArchive, base, derived)) && e.loadFunc == None
      ensures var e := maps[RegistryKey(outArchive, AddConst(base))][derived.typeidName];
        e.saveFunc == Some(SavePointer(outArchive, AddConst(base), AddConst(derived))) && e.loadFunc == None
    {
      RegisterDerived(RegistryKey(inArchive, base), derived.typeidName, None, Some(LoadPointer(inArchive, base, derived)));
      RegisterDerived(RegistryKey(outArchive, base), derived.typeidName, Some(SavePointer(outArchive, base, derived)), None);
      RegisterDerived(RegistryKey(outArchive, AddConst(base)), derived.typeidName,
                      Some(SavePointer(outArchive, AddConst(base), AddConst(derived))), None);
    }

    /** `getTypeInfo<Archive, T>(uid)` on the global state: the uid-to-name
        map and the table of `key` must exist, that is, both `init`s must have
        run. */
    function GetTypeInfoByUid(names: TypeNameMaps, key: RegistryKey, uid: string): (r: TypeInfo)
      reads this, names
      requires names.initialized && key in maps
      ensures uid in names.uidToName && names.uidToName[uid] in maps[key] ==> r == maps[key][names.uidToName[uid]]
      ensures uid in names.uidToName && names.uidToName[uid] !in maps[key] ==> r == DefaultTypeInfo()
      ensures uid !in names.uidToName ==> r == ValueOr(maps[key], EmptyString, DefaultTypeInfo())
    {
      TypeInfoByUid(names.uidToName, maps[key], uid)
    }

    /** `getTypeInfo<Archive, T>(const T &t)`: `operator[]` on the table of
        `key` with the typeid name of the object's dynamic type, which inserts
        the null-slot `typeInfo` when the name is missing. */
    method TypeInfoOf(key: RegistryKey, dynamicTypeidName: string) returns (info: TypeInfo)
      requires key in maps
      modifies this
      ensures info == ValueOr(old(maps[key]), dynamicTypeidName, DefaultTypeInfo())
      ensures maps == old(maps)[key := old(maps[key])[dynamicTypeidName := info]]
      ensures old(dynamicTypeidName in maps[key]) ==> maps == old(maps)
    {
      if dynamicTypeidName !in maps[key] {
        maps := maps[key := maps[key][dynamicTypeidName := DefaultTypeInfo()]];
      }
      info := maps[key][dynamicTypeidName];
      assert maps[key][dynamicTypeidName := info] == maps[key];
      assert maps[key := maps[key]] == maps;
    }
  }
}
