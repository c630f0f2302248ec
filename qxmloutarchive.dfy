/**
 * `QXmlOutArchive`: the archive that writes a qark object graph as XML.
 * Every `begin*` other than `beginDocument` writes one start element, and
 * every matching `end*` one end element;
 * reference brackets switch on and off whether the next pointer is written as
 * a reference; pointers are written as the reference number the saving
 * reference map assigned to them.
 */
module XmlOutArchive {
  import opened Wrappers
  import opened Decimal
  import opened XmlStream

  /** An object address. */
  type Pointer = nat

  /** The two exceptions the archive throws. */
  datatype ArchiveError = UnsupportedForwardReference | DanglingReferences

  /** What the archive asks of its `impl::SavingRefMap`: which pointers have a
      defined reference and its number, and how many references are still
      dangling. How the map gets filled is not part of this model. */
  datatype SavingRefMap = SavingRefMap(definedRefs: map<Pointer, int>, danglingReferences: nat)

  /** `true` when `p` already has a reference number. */
  predicate HasDefinedRef(m: SavingRefMap, p: Pointer)
    ensures HasDefinedRef(m, p) <==> p in m.definedRefs.Keys
  {
    p in m.definedRefs
  }

  /** The text `write(bool)` emits. */
  function BoolText(b: bool): (r: string)
    ensures b ==> r == "true"
    ensures !b ==> r == "false"
  {
    if b then "true" else "false"
  }

  class QXmlOutArchive {
    const stream: XmlStreamWriter
    var refMap: SavingRefMap
    var nextPointerIsReference: bool

    /** Binds the archive to `stream`; writes nothing. The source
        default-constructs its reference map, whose class is not part of this
        model; `refMap` stands for the state that map is in. */
    constructor (stream: XmlStreamWriter, refMap: SavingRefMap)
      ensures this.stream == stream && this.refMap == refMap
      ensures !nextPointerIsReference
      ensures stream.events == old(stream.events)
    {
      this.stream := stream;
      this.refMap := refMap;
      nextPointerIsReference := false;
    }

    /** The destructor: throws `DanglingReferences` exactly when some
        reference is still dangling; writes nothing. */
    method Destroy() returns (outcome: Outcome<ArchiveError>)
      ensures outcome.Fail? <==> refMap.danglingReferences > 0
      ensures outcome.Fail? ==> outcome.error == DanglingReferences
    {
      if refMap.danglingReferences > 0 {
        return Fail(DanglingReferences);
      }
      return Pass;
    }

    /** `write(T *p)`: a pointer without a defined reference is a forward
        reference, which throws and writes nothing; otherwise its reference
        number is written as an integer. */
    method WritePointer(p: Pointer) returns (outcome: Outcome<ArchiveError>)
      modifies stream
      ensures outcome.Fail? <==> !HasDefinedRef(refMap, p)
      ensures outcome.Fail? ==> outcome.error == UnsupportedForwardReference && stream.events == old(stream.events)
      ensures outcome.Pass? ==> stream.events == old(stream.events) + [Characters(IntToString(refMap.definedRefs[p]))]
      ensures OpenCount(stream.events) == OpenCount(old(stream.events))
      ensures WellNested(old(stream.events)) ==> WellNested(stream.events)
    {
      if !HasDefinedRef(refMap, p) {
        return Fail(UnsupportedForwardReference);
      }
      WriteInteger(refMap.definedRefs[p]);
      return Pass;
    }

    /** `write(i)` for every integer type: `QString::number(i)` as characters.
        The value is a mathematical integer; a C++ argument of any integer
        type lies in its type's range, and the decimal text does not depend
        on the type. */
    method WriteInteger(i: int)
      modifies stream
      ensures stream.events == old(stream.events) + [Characters(IntToString(i))]
      ensures OpenCount(stream.events) == OpenCount(old(stream.events))
      ensures WellNested(old(stream.events)) ==> WellNested(stream.events)
    {
      stream.WriteCharacters(IntToString(i));
    }

    /** `write(bool)`: the characters "true" or "false". */
    method WriteBool(b: bool)
      modifies stream
      ensures stream.events == old(stream.events) + [Characters(if b then "true" else "false")]
      ensures OpenCount(stream.events) == OpenCount(old(stream.events))
      ensures WellNested(old(stream.events)) ==> WellNested(stream.events)
    {
      stream.WriteCharacters(BoolText(b));
    }

    /** `write(const QString &)`: the string itself as characters. */
    method WriteString(s: string)
      modifies stream
      ensures stream.events == old(stream.events) + [Characters(s)]
      ensures OpenCount(stream.events) == OpenCount(old(stream.events))
      ensures WellNested(old(stream.events)) ==> WellNested(stream.events)
    {
      stream.WriteCharacters(s);
    }

    method BeginDocument()
      modifies stream
      ensures stream.events == old(stream.events) + [StartDocument]
      ensures OpenCount(stream.events) == OpenCount(old(stream.events))
      ensures WellNested(old(stream.events)) ==> WellNested(stream.events)
    {
      stream.WriteStartDocument();
    }

    method EndDocument()
      modifies stream
      ensures stream.events == old(stream.events) + [XmlStream.EndDocument]
      ensures OpenCount(stream.events) == OpenCount(old(stream.events))
      ensures WellNested(old(stream.events)) ==> WellNested(stream.events)
    {
      stream.WriteEndDocument();
    }

    /** `beginElement` for a `Tag` or an `Object<T>`: a start element named by
        its qualified name. */
    method BeginElement(qualifiedName: string)
      modifies stream
      ensures stream.events == old(stream.events) + [StartElement(qualifiedName)]
      ensures OpenCount(stream.events) == OpenCount(old(stream.events)) + 1
      ensures WellNested(old(stream.events)) ==> WellNested(stream.events)
    {
      stream.WriteStartElement(qualifiedName);
    }

    /** `endElement(End)`. */
    method EndElement()
      modifies stream
      ensures stream.events == old(stream.events) + [XmlStream.EndElement]
      ensures OpenCount(stream.events) == OpenCount(old(stream.events)) - 1
      ensures WellNested(old(stream.events)) && OpenCount(old(stream.events)) > 0 ==> WellNested(stream.events)
    {
      stream.WriteEndElement();
    }

    /** `beginBase(Base<T, U>)`. */
    method BeginBase(qualifiedName: string)
      modifies stream
      ensures stream.events == old(stream.events) + [StartElement(qualifiedName)]
      ensures OpenCount(stream.events) == OpenCount(old(stream.events)) + 1
      ensures WellNested(old(stream.events)) ==> WellNested(stream.events)
    {
      stream.WriteStartElement(qualifiedName);
    }

    /** `endBase(Base<T, U>)`. */
    method EndBase()
      modifies stream
      ensures stream.events == old(stream.events) + [XmlStream.EndElement]
      ensures OpenCount(stream.events) == OpenCount(old(stream.events)) - 1
      ensures WellNested(old(stream.events)) && OpenCount(old(stream.events)) > 0 ==> WellNested(stream.events)
    {
      stream.WriteEndElement();
    }

    /** `beginAttribute` for all five attribute kinds (`Attr`, `GetterAttr`,
        `GetterSetterAttr`, `GetFuncAttr`, `GetSetFuncAttr`). */
    method BeginAttribute(qualifiedName: string)
      modifies stream
      ensures stream.events == old(stream.events) + [StartElement(qualifiedName)]
      ensures OpenCount(stream.events) == OpenCount(old(stream.events)) + 1
      ensures WellNested(old(stream.events)) ==> WellNested(stream.events)
    {
      stream.WriteStartElement(qualifiedName);
    }

    /** `endAttribute` for all five attribute kinds. */
    method EndAttribute()
      modifies stream
      ensures stream.events == old(stream.events) + [XmlStream.EndElement]
      ensures OpenCount(stream.events) == OpenCount(old(stream.events)) - 1
      ensures WellNested(old(stream.events)) && OpenCount(old(stream.events)) > 0 ==> WellNested(stream.events)
    {
      stream.WriteEndElement();
    }

    /** `beginReference` for all five reference kinds (`Ref`, `GetterRef`,
        `GetterSetterRef`, `GetFuncRef`, `GetSetFuncRef`): a start element,
        then the next pointer is written as a reference. */
    method BeginReference(qualifiedName: string)
      modifies stream, this`nextPointerIsReference
      ensures stream.events == old(stream.events) + [StartElement(qualifiedName)]
      ensures nextPointerIsReference
      ensures forall q :: IsReference(q)
      ensures OpenCount(stream.events) == OpenCount(old(stream.events)) + 1
      ensures WellNested(old(stream.events)) ==> WellNested(stream.events)
    {
      stream.WriteStartElement(qualifiedName);
      nextPointerIsReference := true;
    }

    /** `endReference` for all five reference kinds: the flag is cleared,
        then an end element is written. */
    method EndReference()
      modifies stream, this`nextPointerIsReference
      ensures stream.events == old(stream.events) + [XmlStream.EndElement]
      ensures !nextPointerIsReference
      ensures forall q :: IsReference(q) <==> HasDefinedRef(refMap, q)
      ensures OpenCount(stream.events) == OpenCount(old(stream.events)) - 1
      ensures WellNested(old(stream.events)) && OpenCount(old(stream.events)) > 0 ==> WellNested(stream.events)
    {
      nextPointerIsReference := false;
      stream.WriteEndElement();
    }

    /** `isReference(p)`: inside a reference bracket, or `p` already has a
        reference number. */
    function IsReference(p: Pointer): (r: bool)
      reads this
      ensures r <==> nextPointerIsReference || HasDefinedRef(refMap, p)
    {
      nextPointerIsReference || HasDefinedRef(refMap, p)
    }

    method BeginNullPointer()
      modifies stream
      ensures stream.events == old(stream.events) + [StartElement("null")]
      ensures OpenCount(stream.events) == OpenCount(old(stream.events)) + 1
      ensures WellNested(old(stream.events)) ==> WellNested(stream.events)
    {
      stream.WriteStartElement("null");
    }

    method EndNullPointer()
      modifies stream
      ensures stream.events == old(stream.events) + [XmlStream.EndElement]
      ensures OpenCount(stream.events) == OpenCount(old(stream.events)) - 1
      ensures WellNested(old(stream.events)) && OpenCount(old(stream.events)) > 0 ==> WellNested(stream.events)
    {
      stream.WriteEndElement();
    }

    method BeginPointer()
      modifies stream
      ensures stream.events == old(stream.events) + [StartElement("reference")]
      ensures OpenCount(stream.events) == OpenCount(old(stream.events)) + 1
      ensures WellNested(old(stream.events)) ==> WellNested(stream.events)
    {
      stream.WriteStartElement("reference");
    }

    method EndPointer()
      modifies stream
      ensures stream.events == old(stream.events) + [XmlStream.EndElement]
      ensures OpenCount(stream.events) == OpenCount(old(stream.events)) - 1
      ensures WellNested(old(stream.events)) && OpenCount(old(stream.events)) > 0 ==> WellNested(stream.events)
    {
      stream.WriteEndElement();
    }

    /** `beginInstance()`: an "instance" element without attributes. */
    method BeginInstance()
      modifies stream
      ensures stream.events == old(stream.events) + [StartElement("instance")]
      ensures OpenCount(stream.events) == OpenCount(old(stream.events)) + 1
      ensures WellNested(old(stream.events)) ==> WellNested(stream.events)
    {
      stream.WriteStartElement("instance");
    }

    /** `beginInstance(typeUid)`: an "instance" element carrying the
        attribute type = `typeUid`. */
    method BeginInstanceOfType(typeUid: string)
      modifies stream
      ensures stream.events == old(stream.events) + [StartElement("instance"), Attribute("type", typeUid)]
      ensures OpenCount(stream.events) == OpenCount(old(stream.events)) + 1
      ensures WellNested(old(stream.events)) ==> WellNested(stream.events)
    {
      stream.WriteStartElement("instance");
      stream.WriteAttribute("type", typeUid);
    }

    method EndInstance()
      modifies stream
      ensures stream.events == old(stream.events) + [XmlStream.EndElement]
      ensures OpenCount(stream.events) == OpenCount(old(stream.events)) - 1
      ensures WellNested(old(stream.events)) && OpenCount(old(stream.events)) > 0 ==> WellNested(stream.events)
    {
      stream.WriteEndElement();
    }
  }
}
