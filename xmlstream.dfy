/**
 * What a `QXmlStreamWriter` is asked to write, as a sequence of events, and
 * what it means for that sequence to open and close elements properly.
 */
module XmlStream {

  datatype XmlEvent =
    | StartDocument
    | EndDocument
    | StartElement(name: string)
    | EndElement
    | Attribute(name: string, value: string)
    | Characters(text: string)

  /** How an event changes the number of open elements. */
  function Delta(e: XmlEvent): (d: int)
  {
    match e
    case StartElement(_) => 1
    case EndElement => -1
    case _ => 0
  }

  /** Started minus ended elements in `s`. */
  function OpenCount(s: seq<XmlEvent>): (n: int)
  {
    if s == [] then 0 else OpenCount(s[..|s| - 1]) + Delta(s[|s| - 1])
  }

  /** No prefix of `s` ends more elements than it started. */
  predicate WellNested(s: seq<XmlEvent>)
  {
    forall k :: 0 <= k <= |s| ==> OpenCount(s[..k]) >= 0
  }

  /** Every element `s` starts is ended, in order. */
  predicate Balanced(s: seq<XmlEvent>)
  {
    WellNested(s) && OpenCount(s) == 0
  }

  lemma OpenCountAppend(s: seq<XmlEvent>, e: XmlEvent)
    ensures OpenCount(s + [e]) == OpenCount(s) + Delta(e)
  {
  }

  /** The open-element count of a concatenation is the sum of the parts'. */
  lemma {:induction false} OpenCountConcat(a: seq<XmlEvent>, b: seq<XmlEvent>)
    ensures OpenCount(a + b) == OpenCount(a) + OpenCount(b)
    decreases |b|
  {
    if b != [] {
      var b' := b[..|b| - 1];
      assert a + b == (a + b') + [b[|b| - 1]];
      assert b == b' + [b[|b| - 1]];
      OpenCountConcat(a, b');
      OpenCountAppend(a + b', b[|b| - 1]);
      OpenCountAppend(b', b[|b| - 1]);
    } else {
      assert a + b == a;
    }
  }

  /** A well-nested output's open-element count is never negative. */
  lemma WellNestedOpenCount(s: seq<XmlEvent>)
    requires WellNested(s)
    ensures OpenCount(s) >= 0
  {
    assert s[..|s|] == s;
  }

  /** Appending an event that is not an end element keeps the output
      well nested. */
  lemma WellNestedAppend(s: seq<XmlEvent>, e: XmlEvent)
    requires WellNested(s) && e != EndElement
    ensures WellNested(s + [e])
    ensures OpenCount(s + [e]) == OpenCount(s) + Delta(e)
  {
    OpenCountAppend(s, e);
    WellNestedOpenCount(s);
    forall k | 0 <= k <= |s + [e]| ensures OpenCount((s + [e])[..k]) >= 0 {
      if k <= |s| {
        assert (s + [e])[..k] == s[..k];
      } else {
        assert (s + [e])[..k] == s + [e];
      }
    }
  }

  /** Appending an end element while an element is open keeps the output
      well nested. */
  lemma WellNestedAppendEnd(s: seq<XmlEvent>)
    requires WellNested(s) && OpenCount(s) > 0
    ensures WellNested(s + [EndElement])
    ensures OpenCount(s + [EndElement]) == OpenCount(s) - 1
  {
    OpenCountAppend(s, EndElement);
    forall k | 0 <= k <= |s + [EndElement]| ensures OpenCount((s + [EndElement])[..k]) >= 0 {
      if k <= |s| {
        assert (s + [EndElement])[..k] == s[..k];
      } else {
        assert (s + [EndElement])[..k] == s + [EndElement];
      }
    }
  }

  /** Writing well-nested output after well-nested output is well nested. */
  lemma WellNestedConcat(a: seq<XmlEvent>, b: seq<XmlEvent>)
    requires WellNested(a) && WellNested(b)
    ensures WellNested(a + b)
    ensures OpenCount(a + b) == OpenCount(a) + OpenCount(b)
  {
    OpenCountConcat(a, b);
    WellNestedOpenCount(a);
    forall k | 0 <= k <= |a + b| ensures OpenCount((a + b)[..k]) >= 0 {
      if k <= |a| {
        assert (a + b)[..k] == a[..k];
      } else {
        assert (a + b)[..k] == a + b[..k - |a|];
        OpenCountConcat(a, b[..k - |a|]);
      }
    }
  }

  /** One element around a balanced body is balanced: what a `begin*` and
      its matching `end*` produce around properly bracketed inner calls. */
  lemma BalancedWrap(name: string, body: seq<XmlEvent>)
    requires Balanced(body)
    ensures Balanced([StartElement(name)] + body + [EndElement])
  {
    var open := [StartElement(name)];
    assert WellNested(open) by {
      forall k | 0 <= k <= 1 ensures OpenCount(open[..k]) >= 0 {
        if k == 1 { assert open[..k] == [] + [StartElement(name)]; }
      }
    }
    WellNestedConcat(open, body);
    assert OpenCount(open) == OpenCount([] + [StartElement(name)]);
    WellNestedAppendEnd(open + body);
  }

  /** Balanced outputs written one after the other are balanced. */
  lemma BalancedConcat(a: seq<XmlEvent>, b: seq<XmlEvent>)
    requires Balanced(a) && Balanced(b)
    ensures Balanced(a + b)
  {
    WellNestedConcat(a, b);
  }

  /** The writer the archive writes to; `events` is everything it has been
      asked to write so far. Escaping and the text form are not modelled. */
  class XmlStreamWriter {
    var events: seq<XmlEvent>

    constructor ()
      ensures events == []
    {
      events := [];
    }

    method WriteStartDocument()
      modifies this
      ensures events == old(events) + [StartDocument]
      ensures OpenCount(events) == OpenCount(old(events))
      ensures WellNested(old(events)) ==> WellNested(events)
    {
      Emit(StartDocument);
    }

    method WriteEndDocument()
      modifies this
      ensures events == old(events) + [EndDocument]
      ensures OpenCount(events) == OpenCount(old(events))
      ensures WellNested(old(events)) ==> WellNested(events)
    {
      Emit(EndDocument);
    }

    method WriteStartElement(name: string)
      modifies this
      ensures events == old(events) + [StartElement(name)]
      ensures OpenCount(events) == OpenCount(old(events)) + 1
      ensures WellNested(old(events)) ==> WellNested(events)
    {
      Emit(StartElement(name));
    }

    method WriteEndElement()
      modifies this
      ensures events == old(events) + [EndElement]
      ensures OpenCount(events) == OpenCount(old(events)) - 1
      ensures WellNested(old(events)) && OpenCount(old(events)) > 0 ==> WellNested(events)
    {
      OpenCountAppend(events, EndElement);
      if WellNested(events) && OpenCount(events) > 0 {
        WellNestedAppendEnd(events);
      }
      events := events + [EndElement];
    }

    method WriteAttribute(name: string, value: string)
      modifies this
      ensures events == old(events) + [Attribute(name, value)]
      ensures OpenCount(events) == OpenCount(old(events))
      ensures WellNested(old(events)) ==> WellNested(events)
    {
      Emit(Attribute(name, value));
    }

    method WriteCharacters(text: string)
      modifies this
      ensures events == old(events) + [Characters(text)]
      ensures OpenCount(events) == OpenCount(old(events))
      ensures WellNested(old(events)) ==> WellNested(events)
    {
      Emit(Characters(text));
    }

    /** Appends an event that is not an end element. */
    method Emit(e: XmlEvent)
      requires e != EndElement
      modifies this
      ensures events == old(events) + [e]
      ensures OpenCount(events) == OpenCount(old(events)) + Delta(e)
      ensures WellNested(old(events)) ==> WellNested(events)
    {
      OpenCountAppend(events, e);
      if WellNested(events) {
        WellNestedAppend(events, e);
      }
      events := events + [e];
    }
  }
}
