/**
  The text XML writer: a handle holding a property table, an output target,
  the text emitted so far, the stack of open elements and at most one start
  tag that has been begun but not yet written.

  Start tags are deferred.  WriteStartElement and the attribute calls only
  stage data; the start tag is written exactly once, in open form `<a ...>`
  when the caller ends it, writes into the element or starts a child, or in
  self-closing form `<a .../>` when the element is ended straight away.
 */
module XmlWriter {
  import opened WsErrors
  import opened XmlNames
  import opened XmlText
  import opened WriterProperties

  /** An XML buffer created on a heap; the writer only needs its identity. */
  class XmlBuffer {
    constructor () {}
  }

  /** Where the writer's output goes: its own buffer, or a caller's XML buffer. */
  datatype OutputTarget = WriterBuffer | ToXmlBuffer(buffer: XmlBuffer)

  /**
    A start tag that is staged but not yet written: the element's name, its
    attributes so far in the order they were started, and whether the last of
    them is still receiving text.
   */
  datatype StartTag = StartTag(name: QName, attributes: seq<Attribute>, inAttribute: bool)

  /** An element whose start tag is written and whose end tag is not, with the declarations its start tag made. */
  datatype OpenElement = OpenElement(name: QName, declared: seq<Binding>)

  /** The names of the attributes that carry a prefix, in order. */
  function PrefixedNames(attrs: seq<Attribute>): seq<QName>
    decreases |attrs|
  {
    if attrs == [] then []
    else
      var last := attrs[|attrs| - 1];
      PrefixedNames(attrs[..|attrs| - 1]) + (if last.name.prefix == [] then [] else [last.name])
  }

  /** The names whose prefixes a start tag must have in scope: its own, then its prefixed attributes'. */
  function TagNames(tag: StartTag): seq<QName> {
    [tag.name] + PrefixedNames(tag.attributes)
  }

  /** The declarations visible inside the open elements `open`, outermost first. */
  function Scope(open: seq<OpenElement>): seq<Binding>
    decreases |open|
  {
    if open == [] then [] else Scope(open[..|open| - 1]) + open[|open| - 1].declared
  }

  function TagDeclarations(scope: seq<Binding>, tag: StartTag): seq<Binding> {
    Declarations(scope, TagNames(tag))
  }

  /** `tag` written in open form inside `scope`. */
  function OpenForm(scope: seq<Binding>, tag: StartTag): string {
    StartTagText(tag.name, tag.attributes, TagDeclarations(scope, tag), false)
  }

  /** `tag` written in self-closing form inside `scope`. */
  function SelfClosedForm(scope: seq<Binding>, tag: StartTag): string {
    StartTagText(tag.name, tag.attributes, TagDeclarations(scope, tag), true)
  }

  /** The open element a start tag becomes once it is written in open form. */
  function Opened(scope: seq<Binding>, tag: StartTag): OpenElement {
    OpenElement(tag.name, TagDeclarations(scope, tag))
  }

  /**
    Every open element's prefix stands for its namespace in the scope its own
    start tag completes.
   */
  ghost predicate WellScoped(open: seq<OpenElement>)
    decreases |open|
  {
    open == [] ||
      var inner := open[|open| - 1];
      WellScoped(open[..|open| - 1]) && Resolve(Scope(open), inner.name.prefix) == Some(inner.name.ns)
  }

  /** An element has a local name, does not use the reserved prefix, and has a namespace when it has a prefix. */
  predicate ElementNameOk(n: QName) {
    n.local != [] && n.prefix != "xmlns" && (n.prefix != [] ==> n.ns != [])
  }

  /** An attribute has a local name, and has a namespace exactly when it has a prefix. */
  predicate AttributeNameOk(n: QName) {
    && n.local != []
    && n.prefix != "xmlns"
    && (n.prefix == [] <==> n.ns == [])
    && (n.prefix == [] ==> n.local != "xmlns")
  }

  /** An attribute with the same local name and namespace as `n` is already staged. */
  predicate Duplicate(attrs: seq<Attribute>, n: QName) {
    exists i :: 0 <= i < |attrs| && attrs[i].name.local == n.local && attrs[i].name.ns == n.ns
  }

  /** One of `names` already gives the prefix of `n` another namespace. */
  predicate Clashes(names: seq<QName>, n: QName) {
    exists i :: 0 <= i < |names| && names[i].prefix == n.prefix && names[i].ns != n.ns
  }

  /** A staged start tag that can be written as well-formed, namespace-correct markup. */
  ghost predicate TagOk(tag: StartTag) {
    && ElementNameOk(tag.name)
    && ConflictFree(TagNames(tag))
    && (tag.inAttribute ==> tag.attributes != [])
    && (forall i :: 0 <= i < |tag.attributes| ==> AttributeNameOk(tag.attributes[i].name))
    && (forall i, j :: 0 <= i < j < |tag.attributes| ==>
          !(tag.attributes[i].name.local == tag.attributes[j].name.local &&
            tag.attributes[i].name.ns == tag.attributes[j].name.ns))
  }

  /** Writing a start tag in open form keeps every open element's namespace in scope. */
  lemma OpenedWellScoped(open: seq<OpenElement>, tag: StartTag)
    requires WellScoped(open) && ConflictFree(TagNames(tag))
    ensures WellScoped(open + [Opened(Scope(open), tag)])
  {
    var e := Opened(Scope(open), tag);
    var open' := open + [e];
    assert open'[..|open|] == open;
    assert Scope(open') == Scope(open) + e.declared;
    DeclarationsBindEveryName(Scope(open), TagNames(tag));
    assert TagNames(tag)[0] == tag.name;
  }

  /** A staged tag with one more attribute, which now receives text. */
  function WithAttribute(tag: StartTag, a: Attribute): StartTag {
    StartTag(tag.name, tag.attributes + [a], true)
  }

  /** A staged tag whose last attribute has `text` appended to its value. */
  function WithText(tag: StartTag, text: string): StartTag
    requires tag.attributes != []
  {
    var k := |tag.attributes| - 1;
    var last := tag.attributes[k];
    tag.(attributes := tag.attributes[..k] + [last.(value := last.value + text)])
  }

  lemma WithAttributeOk(tag: StartTag, a: Attribute)
    requires TagOk(tag) && AttributeNameOk(a.name) && !Duplicate(tag.attributes, a.name)
    requires a.name.prefix != [] ==> !Clashes(TagNames(tag), a.name)
    ensures TagOk(WithAttribute(tag, a))
  {
    var attrs := tag.attributes + [a];
    assert attrs[..|tag.attributes|] == tag.attributes;
    var names := TagNames(tag);
    if a.name.prefix != [] {
      assert TagNames(WithAttribute(tag, a)) == names + [a.name];
      forall i | 0 <= i < |names| && names[i].prefix == a.name.prefix ensures names[i].ns == a.name.ns {
        if names[i].ns != a.name.ns { assert Clashes(names, a.name); }
      }
    } else {
      assert TagNames(WithAttribute(tag, a)) == names;
    }
    assert forall i :: 0 <= i < |tag.attributes| ==>
      !(tag.attributes[i].name.local == a.name.local && tag.attributes[i].name.ns == a.name.ns);
    assert forall i :: 0 <= i < |tag.attributes| ==> attrs[i] == tag.attributes[i];
  }

  lemma WithTextOk(tag: StartTag, text: string)
    requires TagOk(tag) && tag.attributes != []
    ensures TagOk(WithText(tag, text))
    ensures WithText(tag, text).name == tag.name && TagNames(WithText(tag, text)) == TagNames(tag)
  {
    var k := |tag.attributes| - 1;
    var attrs := WithText(tag, text).attributes;
    assert attrs[..k] == tag.attributes[..k];
    assert forall i :: 0 <= i < |attrs| ==> attrs[i].name == tag.attributes[i].name;
  }

  class Writer {
    var properties: PropertyTable
    var output: Option<OutputTarget>
    var emitted: string
    var open: seq<OpenElement>
    var pending: Option<StartTag>

    ghost predicate Valid()
      reads this
    {
      && TableOk(properties)
      && (output.None? ==> emitted == [] && open == [] && pending.None?)
      && WellScoped(open)
      && (pending.Some? ==> TagOk(pending.value))
    }

    /** A writer with the given property table and no output. */
    constructor (table: PropertyTable)
      requires TableOk(table)
      ensures Valid()
      ensures properties == table && output.None? && emitted == [] && open == [] && pending.None?
    {
      properties := table;
      output := None;
      emitted := [];
      open := [];
      pending := None;
    }

    predicate InsideAttribute()
      reads this
    {
      pending.Some? && pending.value.inAttribute
    }

    /** The outcome of attaching output with the property array `props`. */
    function SetOutputStatus(props: seq<Property>): Status
      reads this
      requires TableOk(properties)
    {
      if ApplyProperties(properties, props).Failure? then Failed(InvalidArg) else Ok
    }

    /**
      Attaches the writer's own buffer as output, applying `props` to the
      property table.  Whatever was written before is dropped: the emitted
      text is empty again and no element is open or staged.
     */
    method SetOutput(props: seq<Property>) returns (r: Status)
      requires Valid()
      modifies this
      ensures Valid()
      ensures r == old(SetOutputStatus(props))
      ensures r.Failed? ==> unchanged(this)
      ensures r.Ok? ==> && properties == ApplyProperties(old(properties), props).value
                        && output == Some(WriterBuffer)
                        && emitted == [] && open == [] && pending.None?
    {
      var t := ApplyProperties(properties, props);
      if t.Failure? {
        return Failed(InvalidArg);
      }
      properties, output, emitted, open, pending := t.value, Some(WriterBuffer), [], [], None;
      r := Ok;
    }

    /** As SetOutput, with the caller's XML buffer as output; a null buffer is refused. */
    method SetOutputToBuffer(buffer: XmlBuffer?, props: seq<Property>) returns (r: Status)
      requires Valid()
      modifies this
      ensures Valid()
      ensures r == if buffer == null then Failed(InvalidArg) else old(SetOutputStatus(props))
      ensures r.Failed? ==> unchanged(this)
      ensures r.Ok? ==> && buffer != null
                        && properties == ApplyProperties(old(properties), props).value
                        && output == Some(ToXmlBuffer(buffer))
                        && emitted == [] && open == [] && pending.None?
    {
      if buffer == null {
        return Failed(InvalidArg);
      }
      var t := ApplyProperties(properties, props);
      if t.Failure? {
        return Failed(InvalidArg);
      }
      properties, output, emitted, open, pending := t.value, Some(ToXmlBuffer(buffer)), [], [], None;
      r := Ok;
    }

    /**
      Reads property `id` into the caller's variable, which holds `buf`
      beforehand.  Nothing can be read before output is attached, and the
      variable then keeps its value.  Bytes reads the text emitted so far,
      InAttribute whether an attribute is receiving text, BytesWritten the
      length of the emitted text as a ULONG; the other identifiers read the
      table.  While a caller's XML buffer is the output the text is not the
      writer's to hand out, and reading Bytes is refused with InvalidArg.
     */
    method GetProperty(id: PropertyId, buf: PropValue) returns (r: Status, value: PropValue)
      requires Valid()
      ensures r == if output.None? then Failed(InvalidOperation)
                   else if id == Bytes && output.value.ToXmlBuffer? then Failed(InvalidArg)
                   else Ok
      ensures r.Failed? ==> value == buf
      ensures r.Ok? ==> ValueKind(value) == KindOf(id)
      ensures r.Ok? && id == Bytes ==> value == BytesValue(emitted)
      ensures r.Ok? && id == InAttribute ==> value == BoolValue(InsideAttribute())
      ensures r.Ok? && id == BytesWritten ==> value == UInt32Value((|emitted| % 0x1_0000_0000) as uint32)
      ensures r.Ok? && id != Bytes && id != InAttribute && id != BytesWritten ==> value == properties[id]
    {
      if output.None? {
        return Failed(InvalidOperation), buf;
      }
      if id == Bytes && output.value.ToXmlBuffer? {
        return Failed(InvalidArg), buf;
      }
      r := Ok;
      if id == Bytes {
        value := BytesValue(emitted);
      } else if id == InAttribute {
        value := BoolValue(InsideAttribute());
      } else if id == BytesWritten {
        value := UInt32Value((|emitted| % 0x1_0000_0000) as uint32);
      } else {
        value := properties[id];
      }
    }

    /** Writes the staged start tag in open form and makes its element the innermost open one. */
    method FlushStartTag()
      requires Valid() && pending.Some? && !pending.value.inAttribute
      modifies this
      ensures Valid()
      ensures properties == old(properties) && output == old(output) && pending.None?
      ensures emitted == old(emitted) + OpenForm(Scope(old(open)), old(pending).value)
      ensures open == old(open) + [Opened(Scope(old(open)), old(pending).value)]
    {
      var tag := pending.value;
      OpenedWellScoped(open, tag);
      emitted := emitted + OpenForm(Scope(open), tag);
      open := open + [Opened(Scope(open), tag)];
      pending := None;
    }

    function StartElementStatus(name: QName): Status
      reads this
    {
      if !ElementNameOk(name) then Failed(InvalidArg)
      else if output.None? || InsideAttribute() then Failed(InvalidOperation)
      else Ok
    }

    /**
      Begins element `prefix:localName` in namespace `ns`.  Nothing of the new
      element is written; a start tag staged before it is written in open
      form, since the new element is its child.
     */
    method WriteStartElement(prefix: string, localName: string, ns: string) returns (r: Status)
      requires Valid()
      modifies this
      ensures Valid()
      ensures r == old(StartElementStatus(QName(prefix, localName, ns)))
      ensures r.Failed? ==> unchanged(this)
      ensures r.Ok? ==> && properties == old(properties) && output == old(output)
                        && pending == Some(StartTag(QName(prefix, localName, ns), [], false))
      ensures r.Ok? && old(pending).None? ==> emitted == old(emitted) && open == old(open)
      ensures r.Ok? && old(pending).Some? ==>
        && emitted == old(emitted) + OpenForm(Scope(old(open)), old(pending).value)
        && open == old(open) + [Opened(Scope(old(open)), old(pending).value)]
    {
      var name := QName(prefix, localName, ns);
      r := StartElementStatus(name);
      if r.Failed? {
        return;
      }
      if pending.Some? {
        FlushStartTag();
      }
      pending := Some(StartTag(name, [], false));
    }

    function StartAttributeStatus(name: QName): Status
      reads this
    {
      if !AttributeNameOk(name) then Failed(InvalidArg)
      else if output.None? || pending.None? || pending.value.inAttribute then Failed(InvalidOperation)
      else if Duplicate(pending.value.attributes, name) then Failed(InvalidArg)
      else if name.prefix != [] && Clashes(TagNames(pending.value), name) then Failed(InvalidArg)
      else Ok
    }

    /**
      Begins attribute `prefix:localName` in namespace `ns` on the staged start
      tag.  Nothing is written: the attribute is staged, with an empty value,
      and receives the text written until WriteEndAttribute.
     */
    method WriteStartAttribute(prefix: string, localName: string, ns: string, singleQuote: bool) returns (r: Status)
      requires Valid()
      modifies this
      ensures Valid()
      ensures r == old(StartAttributeStatus(QName(prefix, localName, ns)))
      ensures r.Failed? ==> unchanged(this)
      ensures r.Ok? ==> && properties == old(properties) && output == old(output)
                        && emitted == old(emitted) && open == old(open)
                        && pending == Some(WithAttribute(old(pending).value, Attribute(QName(prefix, localName, ns), [], singleQuote)))
    {
      var name := QName(prefix, localName, ns);
      r := StartAttributeStatus(name);
      if r.Failed? {
        return;
      }
      var a := Attribute(name, [], singleQuote);
      WithAttributeOk(pending.value, a);
      pending := Some(WithAttribute(pending.value, a));
    }

    function WriteTextStatus(): Status
      reads this
    {
      if output.None? then Failed(InvalidOperation)
      else if pending.None? && open == [] then Failed(InvalidOperation)
      else Ok
    }

    /**
      Writes `text`.  Inside an attribute it is appended to the attribute's
      value and nothing is written; inside an element it is written escaped,
      after the staged start tag, if any, in open form.
     */
    method WriteText(text: string) returns (r: Status)
      requires Valid()
      modifies this
      ensures Valid()
      ensures r == old(WriteTextStatus())
      ensures r.Failed? ==> unchanged(this)
      ensures r.Ok? ==> properties == old(properties) && output == old(output)
      ensures r.Ok? && old(InsideAttribute()) ==>
        && emitted == old(emitted) && open == old(open)
        && pending == Some(WithText(old(pending).value, text))
      ensures r.Ok? && old(pending).Some? && !old(InsideAttribute()) ==>
        && emitted == old(emitted) + OpenForm(Scope(old(open)), old(pending).value) + Escape(text, false)
        && open == old(open) + [Opened(Scope(old(open)), old(pending).value)]
        && pending.None?
      ensures r.Ok? && old(pending).None? ==>
        emitted == old(emitted) + Escape(text, false) && open == old(open) && pending.None?
    {
      r := WriteTextStatus();
      if r.Failed? {
        return;
      }
      if InsideAttribute() {
        WithTextOk(pending.value, text);
        pending := Some(WithText(pending.value, text));
        return;
      }
      if pending.Some? {
        FlushStartTag();
      }
      emitted := emitted + Escape(text, false);
    }

    function EndAttributeStatus(): Status
      reads this
    {
      if output.None? || !InsideAttribute() then Failed(InvalidOperation) else Ok
    }

    /** Ends the attribute receiving text.  Nothing is written. */
    method WriteEndAttribute() returns (r: Status)
      requires Valid()
      modifies this
      ensures Valid()
      ensures r == old(EndAttributeStatus())
      ensures r.Failed? ==> unchanged(this)
      ensures r.Ok? ==> && properties == old(properties) && output == old(output)
                        && emitted == old(emitted) && open == old(open)
                        && pending == Some(old(pending).value.(inAttribute := false))
    {
      r := EndAttributeStatus();
      if r.Failed? {
        return;
      }
      pending := Some(pending.value.(inAttribute := false));
    }

    function EndStartElementStatus(): Status
      reads this
    {
      if output.None? || pending.None? || InsideAttribute() then Failed(InvalidOperation) else Ok
    }

    /** Writes the staged start tag in open form. */
    method WriteEndStartElement() returns (r: Status)
      requires Valid()
      modifies this
      ensures Valid()
      ensures r == old(EndStartElementStatus())
      ensures r.Failed? ==> unchanged(this)
      ensures r.Ok? ==> && properties == old(properties) && output == old(output)
                        && emitted == old(emitted) + OpenForm(Scope(old(open)), old(pending).value)
                        && open == old(open) + [Opened(Scope(old(open)), old(pending).value)]
                        && pending.None?
    {
      r := EndStartElementStatus();
      if r.Failed? {
        return;
      }
      FlushStartTag();
    }

    function EndElementStatus(): Status
      reads this
    {
      if output.None? || InsideAttribute() || (pending.None? && open == []) then Failed(InvalidOperation)
      else Ok
    }

    /**
      Ends the innermost element: a start tag still staged is written in
      self-closing form; otherwise the end tag of the innermost open element
      is written and that element is closed.
     */
    method WriteEndElement() returns (r: Status)
      requires Valid()
      modifies this
      ensures Valid()
      ensures r == old(EndElementStatus())
      ensures r.Failed? ==> unchanged(this)
      ensures r.Ok? ==> properties == old(properties) && output == old(output) && pending.None?
      ensures r.Ok? && old(pending).Some? ==>
        emitted == old(emitted) + SelfClosedForm(Scope(old(open)), old(pending).value) && open == old(open)
      ensures r.Ok? && old(pending).None? ==>
        && emitted == old(emitted) + EndTagText(old(open)[|old(open)| - 1].name)
        && open == old(open)[..|old(open)| - 1]
    {
      r := EndElementStatus();
      if r.Failed? {
        return;
      }
      if pending.Some? {
        emitted := emitted + SelfClosedForm(Scope(open), pending.value);
        pending := None;
      } else {
        emitted := emitted + EndTagText(open[|open| - 1].name);
        open := open[..|open| - 1];
      }
    }
  }

  /**
    WsCreateWriter: a writer with the default table overridden by `props`,
    and no output.  Without a place to return the handle (`wantHandle`
    false), or with a property that may not be supplied, nothing is created.
   */
  method WsCreateWriter(props: seq<Property>, wantHandle: bool) returns (r: Status, writer: Writer?)
    ensures r.Ok? <==> wantHandle && ApplyProperties(DefaultTable(), props).Success?
    ensures r.Failed? ==> r.error == InvalidArg && writer == null
    ensures r.Ok? ==> && writer != null && fresh(writer) && writer.Valid()
                      && writer.properties == ApplyProperties(DefaultTable(), props).value
                      && writer.output.None? && writer.emitted == [] && writer.open == [] && writer.pending.None?
  {
    if !wantHandle {
      return Failed(InvalidArg), null;
    }
    var t := ApplyProperties(DefaultTable(), props);
    if t.Failure? {
      return Failed(InvalidArg), null;
    }
    writer := new Writer(t.value);
    r := Ok;
  }

  /** WsSetOutput on a possibly null handle. */
  method WsSetOutput(writer: Writer?, props: seq<Property>) returns (r: Status)
    requires writer != null ==> writer.Valid()
    modifies writer
    ensures writer == null ==> r == Failed(InvalidArg)
    ensures writer != null ==> writer.Valid() && r == old(writer.SetOutputStatus(props))
    ensures writer != null && r.Failed? ==> unchanged(writer)
    ensures writer != null && r.Ok? ==>
      && writer.properties == ApplyProperties(old(writer.properties), props).value
      && writer.output == Some(WriterBuffer)
      && writer.emitted == [] && writer.open == [] && writer.pending.None?
  {
    if writer == null {
      return Failed(InvalidArg);
    }
    r := writer.SetOutput(props);
  }

  /** WsSetOutputToBuffer on a possibly null handle. */
  method WsSetOutputToBuffer(writer: Writer?, buffer: XmlBuffer?, props: seq<Property>) returns (r: Status)
    requires writer != null ==> writer.Valid()
    modifies writer
    ensures writer == null ==> r == Failed(InvalidArg)
    ensures writer != null ==>
      writer.Valid() && r == if buffer == null then Failed(InvalidArg) else old(writer.SetOutputStatus(props))
    ensures writer != null && r.Failed? ==> unchanged(writer)
    ensures writer != null && r.Ok? ==>
      && buffer != null
      && writer.properties == ApplyProperties(old(writer.properties), props).value
      && writer.output == Some(ToXmlBuffer(buffer))
      && writer.emitted == [] && writer.open == [] && writer.pending.None?
  {
    if writer == null {
      return Failed(InvalidArg);
    }
    r := writer.SetOutputToBuffer(buffer, props);
  }

  /** WsWriteStartElement on a possibly null handle. */
  method WsWriteStartElement(writer: Writer?, prefix: string, localName: string, ns: string) returns (r: Status)
    requires writer != null ==> writer.Valid()
    modifies writer
    ensures writer == null ==> r == Failed(InvalidArg)
    ensures writer != null ==> writer.Valid() && r == old(writer.StartElementStatus(QName(prefix, localName, ns)))
  {
    if writer == null {
      return Failed(InvalidArg);
    }
    r := writer.WriteStartElement(prefix, localName, ns);
  }

  /** WsWriteStartAttribute on a possibly null handle. */
  method WsWriteStartAttribute(writer: Writer?, prefix: string, localName: string, ns: string, singleQuote: bool)
    returns (r: Status)
    requires writer != null ==> writer.Valid()
    modifies writer
    ensures writer == null ==> r == Failed(InvalidArg)
    ensures writer != null ==> writer.Valid() && r == old(writer.StartAttributeStatus(QName(prefix, localName, ns)))
  {
    if writer == null {
      return Failed(InvalidArg);
    }
    r := writer.WriteStartAttribute(prefix, localName, ns, singleQuote);
  }
}
