/**
 * The contract of a feed item's optional ("extension") elements: an item
 * keeps its mandatory fields behind their own accessors and every other
 * field as a named element in an ordered collection, where one name may
 * occur several times (repeated category tags, for instance).
 */
module Items {
  import opened Common

  /** One optional element: its tag name, its value and its attributes. */
  datatype Element = Element(name: string, value: string, attributes: map<string, string>)

  /** The elements of `s` named `name`, in the order they occur in `s`. */
  function ElementsNamed(s: seq<Element>, name: string): (r: seq<Element>)
    ensures |r| <= |s|
    ensures forall e :: e in r <==> e in s && e.name == name
  {
    if s == [] then []
    else
      assert forall e :: e in s <==> e == s[0] || e in s[1..];
      (if s[0].name == name then [s[0]] else []) + ElementsNamed(s[1..], name)
  }

  /** Selecting by name commutes with concatenation, so it keeps insertion order. */
  lemma {:induction false} ElementsNamedAppend(s: seq<Element>, t: seq<Element>, name: string)
    ensures ElementsNamed(s + t, name) == ElementsNamed(s, name) + ElementsNamed(t, name)
  {
    if s == [] {
      assert s + t == t;
    } else {
      assert (s + t)[0] == s[0];
      assert (s + t)[1..] == s[1..] + t;
      ElementsNamedAppend(s[1..], t, name);
    }
  }

  /** Rewriting an element in place without renaming it leaves every other name's elements as they were. */
  lemma ElementsNamedUpdate(s: seq<Element>, k: nat, e: Element, name: string)
    requires k < |s| && s[k].name == e.name && name != e.name
    ensures ElementsNamed(s[k := e], name) == ElementsNamed(s, name)
  {
    assert s == s[..k] + [s[k]] + s[k + 1..];
    assert s[k := e] == s[..k] + [e] + s[k + 1..];
    ElementsNamedAppend(s[..k] + [s[k]], s[k + 1..], name);
    ElementsNamedAppend(s[..k], [s[k]], name);
    ElementsNamedAppend(s[..k] + [e], s[k + 1..], name);
    ElementsNamedAppend(s[..k], [e], name);
  }

  /** The tag names of the elements of `s`, one per element, in order. */
  function NamesOf(s: seq<Element>): (r: seq<string>)
    ensures |r| == |s|
    ensures forall i :: 0 <= i < |s| ==> r[i] == s[i].name
  {
    if s == [] then [] else [s[0].name] + NamesOf(s[1..])
  }

  /** A name is listed exactly when some element carries it. */
  lemma NamesOfListsPresentNames(s: seq<Element>, name: string)
    ensures name in NamesOf(s) <==> ElementsNamed(s, name) != []
  {
    if name in NamesOf(s) {
      var i :| 0 <= i < |s| && NamesOf(s)[i] == name;
      assert s[i] in ElementsNamed(s, name);
    }
    if ElementsNamed(s, name) != [] {
      var e := ElementsNamed(s, name)[0];
      assert e in ElementsNamed(s, name);
      var i :| 0 <= i < |s| && s[i] == e;
      assert NamesOf(s)[i] == name;
    }
  }

  /** An item's optional elements, in insertion order. */
  class Item {
    var elements: seq<Element>

    constructor ()
      ensures elements == []
    {
      elements := [];
    }

    /** A detached element for the caller to fill in; the item is not changed. */
    method NewElement() returns (e: Element)
      ensures e.name == "" && e.value == "" && e.attributes == map[]
    {
      e := Element("", "", map[]);
    }

    /** The value of an element named `name`, or nothing when there is none. */
    function GetValue(name: string): (r: Option<string>)
      reads this
      ensures r.Some? <==> HasElement(name)
      ensures r.Some? ==> exists e :: e in elements && e.name == name && e.value == r.value
    {
      var named := ElementsNamed(elements, name);
      if named == [] then None
      else
        assert named[0] in named;
        Some(named[0].value)
    }

    /**
     * Stores `value` under the non-mandatory name `name` and returns the item
     * for chaining. Whether an element already carrying that name is
     * overwritten or a further one is appended is left open by the
     * interface; both are allowed here.
     */
    method Set(name: string, value: string) returns (r: Item)
      modifies this
      ensures r == this
      ensures || elements == old(elements) + [Element(name, value, map[])]
              || exists k :: 0 <= k < |old(elements)| && old(elements)[k].name == name &&
                             elements == old(elements)[k := old(elements)[k].(value := value)]
      ensures exists e :: e in elements && e.name == name && e.value == value
      ensures forall n :: n != name ==> ElementsNamed(elements, n) == ElementsNamed(old(elements), n)
    {
      if * {
        elements := AppendNamed(elements, name, value);
      } else if exists k :: 0 <= k < |elements| && elements[k].name == name {
        var k :| 0 <= k < |elements| && elements[k].name == name;
        var updated := elements[k].(value := value);
        forall n | n != name
          ensures ElementsNamed(elements[k := updated], n) == ElementsNamed(elements, n)
        {
          ElementsNamedUpdate(elements, k, updated, n);
        }
        elements := elements[k := updated];
        assert elements[k] == updated;
      } else {
        elements := AppendNamed(elements, name, value);
      }
      r := this;
    }

    /** The elements named `name`, in insertion order; empty when there are none. */
    function GetElementIterator(name: string): (r: seq<Element>)
      reads this
      ensures forall e :: e in r <==> e in elements && e.name == name
    {
      ElementsNamed(elements, name)
    }

    /** Whether some optional element is named `name`. */
    function HasElement(name: string): (b: bool)
      reads this
      ensures b <==> exists e :: e in elements && e.name == name
    {
      var named := ElementsNamed(elements, name);
      if named == [] then false
      else
        assert named[0] in named;
        true
    }

    /** Appends `element` whatever its name, and returns the item for chaining. */
    method AddElement(element: Element) returns (r: Item)
      modifies this
      ensures r == this
      ensures elements == old(elements) + [element]
      ensures element in GetAllElements() && HasElement(element.name)
      ensures GetElementIterator(element.name) == old(GetElementIterator(element.name)) + [element]
    {
      ElementsNamedAppend(elements, [element], element.name);
      elements := elements + [element];
      r := this;
    }

    /** All optional elements, in insertion order. */
    function GetAllElements(): (r: seq<Element>)
      reads this
      ensures |r| == |elements| && forall i :: 0 <= i < |r| ==> r[i] == elements[i]
    {
      elements
    }

    /** The tag names of the optional elements; a name is listed iff the item has an element of that name. */
    function ListElements(): (r: seq<string>)
      reads this
      ensures |r| == |GetAllElements()|
      ensures forall i :: 0 <= i < |r| ==> r[i] == GetAllElements()[i].name
      ensures forall name :: name in r <==> HasElement(name)
    {
      var names := NamesOf(elements);
      assert forall name :: name in names <==> ElementsNamed(elements, name) != [] by {
        forall name ensures name in names <==> ElementsNamed(elements, name) != [] {
          NamesOfListsPresentNames(elements, name);
        }
      }
      names
    }
  }

  /** `s` with a new element named `name` holding `value` appended. */
  function AppendNamed(s: seq<Element>, name: string, value: string): (r: seq<Element>)
    ensures Element(name, value, map[]) in r
    ensures forall n :: n != name ==> ElementsNamed(r, n) == ElementsNamed(s, n)
  {
    var e := Element(name, value, map[]);
    assert forall n :: ElementsNamed(s + [e], n) == ElementsNamed(s, n) + ElementsNamed([e], n) by {
      forall n ensures ElementsNamed(s + [e], n) == ElementsNamed(s, n) + ElementsNamed([e], n) {
        ElementsNamedAppend(s, [e], n);
      }
    }
    s + [e]
  }

  /** The extension elements category=a, author=x, category=b select to exactly a and b, and a missing name to nothing. */
  lemma CategoryExample()
    ensures var a := Element("category", "a", map[]);
            var x := Element("author", "x", map[]);
            var b := Element("category", "b", map[]);
            ElementsNamed([a, x, b], "category") == [a, b] && ElementsNamed([a, x, b], "missing") == []
  {
    var a := Element("category", "a", map[]);
    var x := Element("author", "x", map[]);
    var b := Element("category", "b", map[]);
    assert [a, x, b][1..] == [x, b];
    assert [x, b][1..] == [b];
    assert [b][1..] == [];
    assert ElementsNamed([b], "missing") == [];
    assert ElementsNamed([x, b], "missing") == [];
  }
}
