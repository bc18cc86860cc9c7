/** The attribute lookup by property name, and the message of the exception it raises
    when the property does not exist. */
module ExtensionMethods {
  import opened Values
  import opened Metadata

  /** The type declares a public property called `name`: a data property, or the
      `Is…Set` flag property of a guarded one. */
  predicate Declares(props: seq<PropertyInfo>, name: string)
  {
    exists i :: 0 <= i < |props| &&
      (props[i].name == name || (props[i].accessor.Guarded? && props[i].accessor.flag == name))
  }

  /** Type.GetProperty(name), reduced to the attributes declared on the property found:
      none for a flag property, and `None` when no property has that name. */
  function FindProperty(props: seq<PropertyInfo>, name: string): (r: Option<seq<AttributeData>>)
    ensures r.Some? <==> Declares(props, name)
    ensures r.Some? ==> r.value == [] || exists p :: p in props && p.name == name && r.value == p.attributes
  {
    if props == [] then None
    else if props[0].name == name then Some(props[0].attributes)
    else if props[0].accessor.Guarded? && props[0].accessor.flag == name then Some([])
    else
      var r := FindProperty(props[1..], name);
      assert Declares(props[1..], name) ==> Declares(props, name) by {
        if Declares(props[1..], name) {
          var i :| 0 <= i < |props[1..]| &&
            (props[1..][i].name == name || (props[1..][i].accessor.Guarded? && props[1..][i].accessor.flag == name));
          assert props[i + 1] == props[1..][i];
        }
      }
      assert Declares(props, name) ==> Declares(props[1..], name) by {
        if Declares(props, name) {
          var i :| 0 <= i < |props| &&
            (props[i].name == name || (props[i].accessor.Guarded? && props[i].accessor.flag == name));
          assert i != 0;
          assert props[1..][i - 1] == props[i];
        }
      }
      r
  }

  /** What `GetPropertyAttributes<K>(source, name)` returns for a source whose runtime type
      is `t`: the attributes of kind `k` on the named property, in order, or the
      not-found failure. */
  function PropertyAttributes(t: TypeInfo, name: string, k: AttributeKind): Result<seq<AttributeData>>
  {
    match FindProperty(t.properties, name)
    case None => Err(PropertyNotFound(name, t.name, KindName(k)))
    case Some(attrs) => Ok(OfKind(attrs, k))
  }

  /** The lookup: find the property, fail if it is missing, and copy the attributes of the
      requested kind into a new array one by one. Every lookup includes inherited
      attributes, which the metadata table does not distinguish. */
  method GetPropertyAttributes(sourceType: TypeInfo, propertyName: string, k: AttributeKind)
    returns (r: Result<array<AttributeData>>)
    ensures PropertyAttributes(sourceType, propertyName, k).Err? <==> r.Err?
    ensures r.Err? ==> r.error == PropertyAttributes(sourceType, propertyName, k).error
    ensures r.Ok? ==> fresh(r.value) && r.value[..] == PropertyAttributes(sourceType, propertyName, k).value
  {
    var returnValue := new AttributeData[0];
    var property := FindProperty(sourceType.properties, propertyName);
    if property.None? {
      return Err(PropertyNotFound(propertyName, sourceType.name, KindName(k)));
    }
    var attrs := OfKind(property.value, k);
    if |attrs| > 0 {
      returnValue := new AttributeData[|attrs|];
      for i := 0 to |attrs|
        invariant returnValue.Length == |attrs|
        invariant returnValue[..i] == attrs[..i]
      {
        returnValue[i] := attrs[i];
      }
      assert returnValue[..] == returnValue[..|attrs|];
    } else {
      assert returnValue[..] == [];
    }
    return Ok(returnValue);
  }

  /** The lookup fails exactly when the runtime type declares no property of that name, and
      the failure names the property, the class and the attribute kind. */
  lemma NotFoundExactlyWhenMissing(t: TypeInfo, name: string, k: AttributeKind)
    ensures PropertyAttributes(t, name, k).Err? <==> !Declares(t.properties, name)
    ensures PropertyAttributes(t, name, k).Err? ==>
      PropertyAttributes(t, name, k).error == PropertyNotFound(name, t.name, KindName(k))
  {
  }

  /** A declared property without attributes of kind `k` (a flag property among them)
      gives an empty array, not a failure. */
  lemma NoAttributesGiveEmpty(t: TypeInfo, name: string, k: AttributeKind)
    requires Declares(t.properties, name)
    requires forall p :: p in t.properties && p.name == name ==> OfKind(p.attributes, k) == []
    ensures PropertyAttributes(t, name, k) == Ok([])
  {
  }

  /** The result lists the named property's attributes of the requested kind, all of them,
      in their declared order. */
  lemma FoundAttributesInOrder(t: TypeInfo, i: nat, k: AttributeKind)
    requires i < |t.properties|
    requires DistinctNames(t.properties)
    requires forall q :: q in t.properties ==> q.accessor.Guarded? ==> q.accessor.flag != t.properties[i].name
    ensures PropertyAttributes(t, t.properties[i].name, k) == Ok(OfKind(t.properties[i].attributes, k))
  {
    FindFirst(t.properties, i);
  }

  lemma {:induction false} FindFirst(props: seq<PropertyInfo>, i: nat)
    requires i < |props|
    requires DistinctNames(props)
    requires forall q :: q in props ==> q.accessor.Guarded? ==> q.accessor.flag != props[i].name
    ensures FindProperty(props, props[i].name) == Some(props[i].attributes)
  {
    if i > 0 {
      assert props[0] in props;
      assert props[1..][i - 1] == props[i];
      forall q | q in props[1..] ensures q.accessor.Guarded? ==> q.accessor.flag != props[i].name {
        assert q in props;
      }
      FindFirst(props[1..], i - 1);
    }
  }

  // The exception's message

  datatype Piece = Literal(text: string) | Placeholder(index: nat)

  /** PROPERTY_NOT_FOUND_MESSAGE, cut at its placeholders. */
  const PropertyNotFoundTemplate: seq<Piece> := [
    Literal("Could not retrieve "), Placeholder(2), Literal(" attributes of the property "),
    Placeholder(0), Literal(" in class "), Placeholder(1), Literal(".  Property "),
    Placeholder(0), Literal(" does not exist.")]

  predicate Fits(template: seq<Piece>, args: seq<string>)
  {
    forall i :: 0 <= i < |template| && template[i].Placeholder? ==> template[i].index < |args|
  }

  /** String.Format: each placeholder replaced by the argument at its index. */
  function Format(template: seq<Piece>, args: seq<string>): string
    requires Fits(template, args)
  {
    if template == [] then ""
    else
      (match template[0] case Literal(s) => s case Placeholder(i) => args[i])
      + Format(template[1..], args)
  }

  /** The message as the exception's constructor builds it: the format arguments are given
      as (propertyName, attributeName, className). */
  function NotFoundMessageAsWritten(propertyName: string, className: string, attributeName: string): string
  {
    Format(PropertyNotFoundTemplate, [propertyName, attributeName, className])
  }

  /** The message the wording asks for: the attribute name in the "attributes" slot and the
      class name in the "class" slot. */
  function NotFoundMessage(propertyName: string, className: string, attributeName: string): string
  {
    Format(PropertyNotFoundTemplate, [propertyName, className, attributeName])
  }

  /** The message carried by the PropertyNotFoundException the lookup raises: built by its
      constructor, with the format arguments in the order it passes them. */
  function Message(e: Error): string
    requires e.PropertyNotFound?
  {
    NotFoundMessageAsWritten(e.propertyName, e.className, e.attributeName)
  }

  /** The template formats to its wording with the arguments in the slots {2}, {0}, {1},
      {0}, in reading order. */
  lemma FormatText(args: seq<string>)
    requires |args| == 3
    ensures Fits(PropertyNotFoundTemplate, args)
    ensures Format(PropertyNotFoundTemplate, args) ==
      "Could not retrieve " + args[2] + " attributes of the property " + args[0] + " in class "
      + args[1] + ".  Property " + args[0] + " does not exist."
  {
    var t := PropertyNotFoundTemplate;
    assert |t| == 9 && t[1] == Placeholder(2) && t[3] == Placeholder(0) && t[5] == Placeholder(1) && t[7] == Placeholder(0);
    assert t[0] == Literal("Could not retrieve ") && t[2] == Literal(" attributes of the property ")
      && t[4] == Literal(" in class ") && t[6] == Literal(".  Property ") && t[8] == Literal(" does not exist.");
    FormatAlternating(t, args);
  }

  /** A template of five literals around the placeholders {2}, {0}, {1}, {0} formats to
      the literals with those arguments between them, whatever the literals say. */
  lemma FormatAlternating(t: seq<Piece>, args: seq<string>)
    requires |t| == 9 && |args| == 3
    requires t[0].Literal? && t[2].Literal? && t[4].Literal? && t[6].Literal? && t[8].Literal?
    requires t[1] == Placeholder(2) && t[3] == Placeholder(0) && t[5] == Placeholder(1) && t[7] == Placeholder(0)
    ensures Fits(t, args)
    ensures Format(t, args) == t[0].text + args[2] + t[2].text + args[0] + t[4].text + args[1]
      + t[6].text + args[0] + t[8].text
  {
    var f8 := t[8].text;
    var f7 := args[0] + f8;
    var f6 := t[6].text + f7;
    var f5 := args[1] + f6;
    var f4 := t[4].text + f5;
    var f3 := args[0] + f4;
    var f2 := t[2].text + f3;
    var f1 := args[2] + f2;
    assert Format(t[8..], args) == f8 by { assert t[8..][1..] == []; }
    assert Format(t[7..], args) == f7 by { assert t[7..][1..] == t[8..]; }
    assert Format(t[6..], args) == f6 by { assert t[6..][1..] == t[7..]; }
    assert Format(t[5..], args) == f5 by { assert t[5..][1..] == t[6..]; }
    assert Format(t[4..], args) == f4 by { assert t[4..][1..] == t[5..]; }
    assert Format(t[3..], args) == f3 by { assert t[3..][1..] == t[4..]; }
    assert Format(t[2..], args) == f2 by { assert t[2..][1..] == t[3..]; }
    assert Format(t[1..], args) == f1 by { assert t[1..][1..] == t[2..]; }
    assert Format(t, args) == t[0].text + f1;
    Associate9(t[0].text, args[2], t[2].text, args[0], t[4].text, args[1], t[6].text, args[0], t[8].text);
  }

  /** Nine strings concatenated from the right are the same strings concatenated from
      the left. */
  lemma Associate9(a: string, b: string, c: string, d: string, e: string, f: string, g: string, h: string, i: string)
    ensures a + (b + (c + (d + (e + (f + (g + (h + i))))))) == a + b + c + d + e + f + g + h + i
  {
    assert h + i == h + i;
    assert g + (h + i) == g + h + i;
    assert f + (g + h + i) == f + g + h + i;
    assert e + (f + g + h + i) == e + f + g + h + i;
    assert d + (e + f + g + h + i) == d + e + f + g + h + i;
    assert c + (d + e + f + g + h + i) == c + d + e + f + g + h + i;
    assert b + (c + d + e + f + g + h + i) == b + c + d + e + f + g + h + i;
  }

  /** As written, the class name fills the "attributes" slot and the attribute name the
      "class" slot. */
  lemma AsWrittenSwapsNames(propertyName: string, className: string, attributeName: string)
    ensures NotFoundMessageAsWritten(propertyName, className, attributeName) ==
      "Could not retrieve " + className + " attributes of the property " + propertyName + " in class "
      + attributeName + ".  Property " + propertyName + " does not exist."
  {
    FormatText([propertyName, attributeName, className]);
  }

  /** The corrected message names the attribute kind and the class where the wording says. */
  lemma MessageNamesClassAndKind(propertyName: string, className: string, attributeName: string)
    ensures NotFoundMessage(propertyName, className, attributeName) ==
      "Could not retrieve " + attributeName + " attributes of the property " + propertyName + " in class "
      + className + ".  Property " + propertyName + " does not exist."
  {
    FormatText([propertyName, className, attributeName]);
  }

  /** A lookup of the missing property "Color" on Supplier shows the swap: the exception
      carries "Could not retrieve Supplier attributes of the property Color in class
      DynamicProperty. …", where the corrected message reads "Could not retrieve
      DynamicProperty attributes of the property Color in class Supplier. …"; the two
      already differ at the first filled slot. */
  lemma AsWrittenMessageIsWrong()
    ensures Message(PropertyNotFound("Color", "Supplier", "DynamicProperty")) ==
      "Could not retrieve " + "Supplier" + " attributes of the property " + "Color" + " in class "
      + "DynamicProperty" + ".  Property " + "Color" + " does not exist."
    ensures NotFoundMessage("Color", "Supplier", "DynamicProperty") ==
      "Could not retrieve " + "DynamicProperty" + " attributes of the property " + "Color" + " in class "
      + "Supplier" + ".  Property " + "Color" + " does not exist."
    ensures Message(PropertyNotFound("Color", "Supplier", "DynamicProperty"))
      != NotFoundMessage("Color", "Supplier", "DynamicProperty")
  {
    AsWrittenSwapsNames("Color", "Supplier", "DynamicProperty");
    MessageNamesClassAndKind("Color", "Supplier", "DynamicProperty");
    var asWritten := Message(PropertyNotFound("Color", "Supplier", "DynamicProperty"));
    var corrected := NotFoundMessage("Color", "Supplier", "DynamicProperty");
    assert asWritten[19] == 'S';
    assert corrected[19] == 'D';
  }
}
