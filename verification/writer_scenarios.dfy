/**
  The writer test suite's call sequences, each stated as calls on the model.
  Every method returns the status codes and values its sequence observes, and
  its postcondition, proved, states the values the suite expects.
 */
module WriterScenarios {
  import opened WsErrors
  import opened XmlNames
  import opened XmlText
  import opened WriterProperties
  import opened XmlWriter

  /** The text written so far, read through the Bytes property of a writer with its own buffer attached. */
  method CheckOutput(w: Writer) returns (r: Status, text: string)
    requires w.Valid() && w.output == Some(WriterBuffer)
    ensures r == Ok && text == w.emitted
  {
    var value;
    r, value := w.GetProperty(Bytes, BytesValue([]));
    text := value.data;
  }

  /** The identifiers the creation test reads after output is attached, in its order. */
  const DefaultIds := [MaxDepth, AllowFragment, MaxAttributes, WriteDeclaration, Indent, BufferTrimSize,
                       CharacterSet, Buffers, BufferMaxSize, Bytes, MaxMimePartsBufferSize, InitialBuffer,
                       MaxNamespaces]

  /** Proof step: the per-identifier defaults, spelled out as the list the test reads. */
  lemma DefaultsInOrder(values: seq<PropValue>)
    requires |values| == |DefaultIds| && forall i :: 0 <= i < |DefaultIds| ==> values[i] == Default(DefaultIds[i])
    ensures values == [
      UInt32Value(32), BoolValue(false), UInt32Value(128), BoolValue(false), UInt32Value(0),
      UInt32Value(4096), CharsetValue(Utf8), BuffersValue([]), UInt32Value(65536), BytesValue([]),
      UInt32Value(65536), BytesValue([]), UInt32Value(32)]
  {
  }

  /** Lines 47-61 of the creation test: no place for the handle, then a read before output is attached. */
  method CreateWriterScenario() returns (noHandle: Status, created: Status, beforeOutput: Status, untouched: PropValue)
    ensures noHandle == Failed(InvalidArg) && created == Ok
    ensures beforeOutput == Failed(InvalidOperation) && untouched == UInt32Value(0xdeadbeef)
  {
    var w;
    noHandle, w := WsCreateWriter([], false);
    created, w := WsCreateWriter([], true);
    beforeOutput, untouched := w.GetProperty(MaxDepth, UInt32Value(0xdeadbeef));
  }

  /** Lines 62-149 of the creation test: every readable property holds its default once output is attached. */
  method DefaultPropertiesScenario() returns (created: Status, attach: Status, readStatuses: seq<Status>, defaults: seq<PropValue>)
    ensures created == Ok && attach == Ok
    ensures |readStatuses| == 13 && forall i :: 0 <= i < |readStatuses| ==> readStatuses[i] == Ok
    ensures defaults == [
      UInt32Value(32), BoolValue(false), UInt32Value(128), BoolValue(false), UInt32Value(0),
      UInt32Value(4096), CharsetValue(Utf8), BuffersValue([]), UInt32Value(65536), BytesValue([]),
      UInt32Value(65536), BytesValue([]), UInt32Value(32)]
  {
    var w;
    created, w := WsCreateWriter([], true);
    attach := w.SetOutput([]);
    assert w.properties == DefaultTable();
    readStatuses, defaults := [], [];
    var k := 0;
    while k < |DefaultIds|
      invariant 0 <= k <= |DefaultIds|
      invariant w.Valid() && w.output == Some(WriterBuffer) && w.properties == DefaultTable() && w.emitted == []
      invariant |readStatuses| == k && forall i :: 0 <= i < k ==> readStatuses[i] == Ok
      invariant |defaults| == k
      invariant forall i :: 0 <= i < k ==> defaults[i] == Default(DefaultIds[i])
    {
      var r, value := w.GetProperty(DefaultIds[k], UInt32Value(0xdeadbeef));
      readStatuses, defaults := readStatuses + [r], defaults + [value];
      k := k + 1;
    }
    DefaultsInOrder(defaults);
  }

  /** Lines 152-167 of the creation test: a property supplied at creation is read back. */
  method MaxDepthOverrideScenario() returns (created: Status, attach: Status, read: Status, depth: PropValue)
    ensures created == Ok && attach == Ok && read == Ok && depth == UInt32Value(16)
  {
    var w;
    var override := Property(MaxDepth, UInt32Value(16));
    assert Settable(override);
    created, w := WsCreateWriter([override], true);
    LastSettingWins(DefaultTable(), [override], 0);
    attach := w.SetOutput([]);
    read, depth := w.GetProperty(MaxDepth, UInt32Value(0xdeadbeef));
  }

  /** Lines 170-190 of the creation test: read-only properties cannot be supplied at creation. */
  method ReadOnlyScenario() returns (refused: seq<Status>)
    ensures refused == [Failed(InvalidArg), Failed(InvalidArg), Failed(InvalidArg)]
  {
    var w;
    var r1, r2, r3;
    r1, w := WsCreateWriter([Property(InAttribute, BoolValue(true))], true);
    r2, w := WsCreateWriter([Property(BytesWritten, UInt32Value(1))], true);
    r3, w := WsCreateWriter([Property(BytesToClose, UInt32Value(1))], true);
    refused := [r1, r2, r3];
  }

  /**
    Lines 219-231 of the XML-buffer test: no bytes before output is attached,
    then a caller's buffer is accepted, and its bytes cannot be read through
    the writer.
   */
  method XmlBufferScenario() returns (created: Status, beforeOutput: Status, attach: Status, afterOutput: Status)
    ensures created == Ok && beforeOutput == Failed(InvalidOperation) && attach == Ok
    ensures afterOutput == Failed(InvalidArg)
  {
    var buffer := new XmlBuffer();
    var w;
    created, w := WsCreateWriter([], true);
    var value;
    beforeOutput, value := w.GetProperty(Bytes, BytesValue([]));
    attach := w.SetOutputToBuffer(buffer, []);
    afterOutput, value := w.GetProperty(Bytes, BytesValue([]));
  }

  /** The SetOutput test: a null handle is refused, output may be attached again, and properties set on the way. */
  method SetOutputScenario() returns (created: Status, nullHandle: Status, attaches: seq<Status>, read: Status, depth: PropValue)
    ensures created == Ok && nullHandle == Failed(InvalidArg)
    ensures attaches == [Ok, Ok, Ok]
    ensures read == Ok && depth == UInt32Value(16)
  {
    var w;
    created, w := WsCreateWriter([], true);
    nullHandle := WsSetOutput(null, []);
    var first := WsSetOutput(w, []);
    var second := WsSetOutput(w, []);
    var override := Property(MaxDepth, UInt32Value(16));
    assert Settable(override);
    LastSettingWins(w.properties, [override], 0);
    var third := WsSetOutput(w, [override]);
    attaches := [first, second, third];
    read, depth := w.GetProperty(MaxDepth, UInt32Value(0xdeadbeef));
  }

  /** The SetOutputToBuffer test: null handle and null buffer are refused; otherwise as the SetOutput test. */
  method SetOutputToBufferScenario()
    returns (nullHandle: Status, created: Status, nullBuffer: Status, attaches: seq<Status>, read: Status, depth: PropValue)
    ensures nullHandle == Failed(InvalidArg) && created == Ok && nullBuffer == Failed(InvalidArg)
    ensures attaches == [Ok, Ok, Ok]
    ensures read == Ok && depth == UInt32Value(16)
  {
    nullHandle := WsSetOutputToBuffer(null, null, []);
    var w;
    created, w := WsCreateWriter([], true);
    nullBuffer := WsSetOutputToBuffer(w, null, []);
    var buffer := new XmlBuffer();
    var first := WsSetOutputToBuffer(w, buffer, []);
    var second := WsSetOutputToBuffer(w, buffer, []);
    var override := Property(MaxDepth, UInt32Value(16));
    assert Settable(override);
    LastSettingWins(w.properties, [override], 0);
    var third := WsSetOutputToBuffer(w, buffer, [override]);
    attaches := [first, second, third];
    read, depth := w.GetProperty(MaxDepth, UInt32Value(0xdeadbeef));
  }

  // The markup the sequences below write, worked out one piece at a time.

  const PA := QName("p", "a", "ns")
  const A := QName("", "a", "ns")
  const B := QName("", "b", "ns")
  const Str := QName("p", "str", "ns")
  const Len := QName("p", "len", "ns")

  lemma OpenBare(scope: seq<Binding>, n: QName)
    ensures OpenForm(scope, StartTag(n, [], false)) == "<" + QNameText(n) + DeclarationsText(Declarations(scope, [n])) + ">"
  {
    assert TagNames(StartTag(n, [], false)) == [n];
    assert AttributesText([]) == [];
  }

  lemma ClosedBare(scope: seq<Binding>, n: QName)
    ensures SelfClosedForm(scope, StartTag(n, [], false)) == "<" + QNameText(n) + DeclarationsText(Declarations(scope, [n])) + "/>"
  {
    assert TagNames(StartTag(n, [], false)) == [n];
    assert AttributesText([]) == [];
  }

  lemma DeclareOne(scope: seq<Binding>, n: QName)
    ensures Declarations(scope, [n]) == if Resolve(scope, n.prefix) == Some(n.ns) then [] else [Binding(n.prefix, n.ns)]
  {
    assert [n][..0] == [];
    assert scope + [] == scope;
  }

  lemma DeclarationTexts()
    ensures DeclarationsText([Binding("p", "ns")]) == " xmlns:p=\"ns\""
    ensures DeclarationsText([Binding("", "ns")]) == " xmlns=\"ns\""
  {
    assert Escape("ns", true) == "ns";
  }

  /**
    Proof step: the concatenations of string literals the markup below is
    built from, kept apart so the methods that use them stay cheap to verify.
   */
  lemma Literals()
    ensures "<" + "p:a" + " xmlns:p=\"ns\"" + ">" == "<p:a xmlns:p=\"ns\">"
    ensures "<" + "p:a" + " xmlns:p=\"ns\"" + "/>" == "<p:a xmlns:p=\"ns\"/>"
    ensures "<p:a xmlns:p=\"ns\">" + "</p:a>" == "<p:a xmlns:p=\"ns\"></p:a>"
    ensures "<" + "a" + " xmlns=\"ns\"" + ">" == "<a xmlns=\"ns\">"
    ensures "<a xmlns=\"ns\">" + "<b/>" == "<a xmlns=\"ns\"><b/>"
    ensures "<a xmlns=\"ns\"><b/>" + "</a>" == "<a xmlns=\"ns\"><b/></a>"
  {
  }

  lemma ElementPA()
    ensures OpenForm([], StartTag(PA, [], false)) == "<p:a xmlns:p=\"ns\">"
    ensures SelfClosedForm([], StartTag(PA, [], false)) == "<p:a xmlns:p=\"ns\"/>"
    ensures EndTagText(PA) == "</p:a>"
  {
    OpenBare([], PA);
    ClosedBare([], PA);
    DeclareOne([], PA);
    DeclarationTexts();
    assert QNameText(PA) == "p:a";
    Literals();
  }

  lemma ElementA()
    ensures OpenForm([], StartTag(A, [], false)) == "<a xmlns=\"ns\">"
    ensures Opened([], StartTag(A, [], false)) == OpenElement(A, [Binding("", "ns")])
    ensures EndTagText(A) == "</a>"
  {
    OpenBare([], A);
    DeclareOne([], A);
    assert TagNames(StartTag(A, [], false)) == [A];
    DeclarationTexts();
    assert QNameText(A) == "a";
    Literals();
  }

  lemma ElementB()
    ensures Scope([OpenElement(A, [Binding("", "ns")])]) == [Binding("", "ns")]
    ensures SelfClosedForm([Binding("", "ns")], StartTag(B, [], false)) == "<b/>"
  {
    var scope := [Binding("", "ns")];
    assert Scope([OpenElement(A, scope)]) == [] + scope;
    ClosedBare(scope, B);
    DeclareOne(scope, B);
    assert QNameText(B) == "b";
  }

  /** Proof step: the literal pieces of the attributed start tag, as for Literals. */
  lemma AttributeLiterals()
    ensures "<" + "p:str" + " p:len=\"0\"" + " xmlns:p=\"ns\"" + "/>" == "<p:str p:len=\"0\" xmlns:p=\"ns\"/>"
    ensures " " + "p:len" + "=" + "\"" + "0" + "\"" == " p:len=\"0\""
  {
  }

  lemma StrAcceptsLen()
    ensures AttributeNameOk(Len) && !Duplicate([], Len)
    ensures TagNames(StartTag(Str, [], false)) == [Str] && !Clashes([Str], Len)
  {
    assert PrefixedNames([]) == [];
  }

  /** The tag of the attribute sequence, once `0` is written into its attribute and the attribute is ended. */
  lemma StagedStr()
    ensures WithText(WithAttribute(StartTag(Str, [], false), Attribute(Len, [], false)), "0").(inAttribute := false)
      == StartTag(Str, [Attribute(Len, "0", false)], false)
  {
    var t := WithAttribute(StartTag(Str, [], false), Attribute(Len, [], false));
    assert t.attributes == [Attribute(Len, [], false)];
    assert t.attributes[..0] == [];
    assert [] + "0" == "0";
  }

  lemma ElementStr()
    ensures SelfClosedForm([], StartTag(Str, [Attribute(Len, "0", false)], false)) == "<p:str p:len=\"0\" xmlns:p=\"ns\"/>"
  {
    var attrs := [Attribute(Len, "0", false)];
    var tag := StartTag(Str, attrs, false);
    assert PrefixedNames(attrs) == [Len] by {
      assert attrs[..0] == [];
    }
    assert TagNames(tag) == [Str, Len];
    assert Declarations([], [Str, Len]) == [Binding("p", "ns")] by {
      assert [Str, Len][..1] == [Str];
      DeclareOne([], Str);
      assert [] + [Binding("p", "ns")] == [Binding("p", "ns")];
    }
    assert AttributesText(attrs) == " p:len=\"0\"" by {
      assert Escape("0", true) == "0";
      assert QNameText(Len) == "p:len";
      AttributeLiterals();
    }
    DeclarationTexts();
    assert QNameText(Str) == "p:str";
    AttributeLiterals();
  }

  lemma DeferredSteps()
    ensures [] + OpenForm(Scope([]), StartTag(PA, [], false)) == "<p:a xmlns:p=\"ns\">"
    ensures ([] + [Opened(Scope([]), StartTag(PA, [], false))])[0].name == PA
    ensures "<p:a xmlns:p=\"ns\">" + EndTagText(PA) == "<p:a xmlns:p=\"ns\"></p:a>"
  {
    assert Scope([]) == [];
    ElementPA();
    Literals();
  }

  lemma SelfClosingStep()
    ensures [] + SelfClosedForm(Scope([]), StartTag(PA, [], false)) == "<p:a xmlns:p=\"ns\"/>"
  {
    assert Scope([]) == [];
    ElementPA();
  }

  lemma NestedSteps()
    ensures [] + OpenForm(Scope([]), StartTag(A, [], false)) == "<a xmlns=\"ns\">"
    ensures [] + [Opened(Scope([]), StartTag(A, [], false))] == [OpenElement(A, [Binding("", "ns")])]
    ensures "<a xmlns=\"ns\">" + SelfClosedForm(Scope([OpenElement(A, [Binding("", "ns")])]), StartTag(B, [], false))
      == "<a xmlns=\"ns\"><b/>"
    ensures "<a xmlns=\"ns\"><b/>" + EndTagText(A) == "<a xmlns=\"ns\"><b/></a>"
  {
    assert Scope([]) == [];
    ElementA();
    ElementB();
    Literals();
  }

  lemma AttributeStep()
    ensures [] + SelfClosedForm(Scope([]), StartTag(Str, [Attribute(Len, "0", false)], false))
      == "<p:str p:len=\"0\" xmlns:p=\"ns\"/>"
  {
    assert Scope([]) == [];
    ElementStr();
  }

  /** Lines 360-372 of the start-element test: a start tag is written only once it is ended, in open form. */
  method DeferredStartTag(w: Writer) returns (statuses: seq<Status>, outputs: seq<string>)
    requires w.Valid() && w.output == Some(WriterBuffer) && w.emitted == [] && w.open == [] && w.pending.None?
    modifies w
    ensures w.Valid()
    ensures statuses == [Ok, Ok, Ok, Ok, Ok, Ok]
    ensures outputs == ["", "<p:a xmlns:p=\"ns\">", "<p:a xmlns:p=\"ns\"></p:a>"]
  {
    DeferredSteps();
    var s1 := w.WriteStartElement("p", "a", "ns");
    assert s1 == Ok;
    var c1, o1 := CheckOutput(w);
    var s2 := w.WriteEndStartElement();
    assert s2 == Ok;
    var c2, o2 := CheckOutput(w);
    var s3 := w.WriteEndElement();
    assert s3 == Ok;
    var c3, o3 := CheckOutput(w);
    statuses := [s1, c1, s2, c2, s3, c3];
    outputs := [o1, o2, o3];
  }

  /**
    Lines 374-382 of the start-element test: whatever was written before,
    output attached again starts empty, and an element ended at once is
    written in self-closing form.
   */
  method SelfClosing(w: Writer) returns (statuses: seq<Status>, output: string)
    requires w.Valid()
    modifies w
    ensures w.Valid()
    ensures statuses == [Ok, Ok, Ok, Ok]
    ensures output == "<p:a xmlns:p=\"ns\"/>"
  {
    SelfClosingStep();
    var s0 := w.SetOutput([]);
    assert s0 == Ok;
    var s1 := w.WriteStartElement("p", "a", "ns");
    assert s1 == Ok;
    var s2 := w.WriteEndElement();
    assert s2 == Ok;
    var c;
    c, output := CheckOutput(w);
    statuses := [s0, s1, s2, c];
  }

  /** Lines 384-394 of the start-element test: a child's start element writes its parent's start tag, with the declaration. */
  method NestedOpen(w: Writer) returns (statuses: seq<Status>, outputs: seq<string>)
    requires w.Valid()
    modifies w
    ensures w.Valid() && w.output == Some(WriterBuffer)
    ensures w.emitted == "<a xmlns=\"ns\">" && w.open == [OpenElement(A, [Binding("", "ns")])]
    ensures w.pending == Some(StartTag(B, [], false))
    ensures statuses == [Ok, Ok, Ok, Ok, Ok]
    ensures outputs == ["", "<a xmlns=\"ns\">"]
  {
    NestedSteps();
    var s0 := w.SetOutput([]);
    assert s0 == Ok;
    var s1 := w.WriteStartElement([], "a", "ns");
    assert s1 == Ok;
    var c1, o1 := CheckOutput(w);
    var s2 := w.WriteStartElement([], "b", "ns");
    assert s2 == Ok;
    var c2, o2 := CheckOutput(w);
    statuses := [s0, s1, c1, s2, c2];
    outputs := [o1, o2];
  }

  /** Lines 396-402 of the start-element test: the child, in the parent's default namespace, needs no declaration. */
  method NestedClose(w: Writer) returns (statuses: seq<Status>, outputs: seq<string>)
    requires w.Valid() && w.output == Some(WriterBuffer)
    requires w.emitted == "<a xmlns=\"ns\">" && w.open == [OpenElement(A, [Binding("", "ns")])]
    requires w.pending == Some(StartTag(B, [], false))
    modifies w
    ensures w.Valid()
    ensures statuses == [Ok, Ok, Ok, Ok]
    ensures outputs == ["<a xmlns=\"ns\"><b/>", "<a xmlns=\"ns\"><b/></a>"]
  {
    NestedSteps();
    var s1 := w.WriteEndElement();
    assert s1 == Ok;
    var c1, o1 := CheckOutput(w);
    var s2 := w.WriteEndElement();
    assert s2 == Ok;
    var c2, o2 := CheckOutput(w);
    statuses := [s1, c1, s2, c2];
    outputs := [o1, o2];
  }

  /**
    The start-element test, phase by phase: the status of each call and the
    text read after each step.  Only the call on a null handle fails.
   */
  method StartElementScenario()
    returns (setup: seq<Status>, nullHandle: Status,
             deferred: seq<Status>, deferredOutputs: seq<string>,
             selfClosing: seq<Status>, selfClosedOutput: string,
             nestedOpen: seq<Status>, nestedClose: seq<Status>, nestedOutputs: seq<string>)
    ensures setup == [Ok, Ok] && nullHandle == Failed(InvalidArg)
    ensures deferred == [Ok, Ok, Ok, Ok, Ok, Ok]
    ensures deferredOutputs == ["", "<p:a xmlns:p=\"ns\">", "<p:a xmlns:p=\"ns\"></p:a>"]
    ensures selfClosing == [Ok, Ok, Ok, Ok] && selfClosedOutput == "<p:a xmlns:p=\"ns\"/>"
    ensures nestedOpen == [Ok, Ok, Ok, Ok, Ok] && nestedClose == [Ok, Ok, Ok, Ok]
    ensures nestedOutputs == ["", "<a xmlns=\"ns\">", "<a xmlns=\"ns\"><b/>", "<a xmlns=\"ns\"><b/></a>"]
  {
    var created, w := WsCreateWriter([], true);
    var attach := w.SetOutput([]);
    setup := [created, attach];
    nullHandle := WsWriteStartElement(null, "p", "a", "ns");
    deferred, deferredOutputs := DeferredStartTag(w);
    selfClosing, selfClosedOutput := SelfClosing(w);
    var openOutputs, closeOutputs;
    nestedOpen, openOutputs := NestedOpen(w);
    nestedClose, closeOutputs := NestedClose(w);
    nestedOutputs := openOutputs + closeOutputs;
  }

  /** Lines 426-442 of the start-attribute test: staging an attribute and writing its text writes nothing. */
  method StageAttribute(w: Writer) returns (statuses: seq<Status>, outputs: seq<string>)
    requires w.Valid() && w.output == Some(WriterBuffer) && w.emitted == [] && w.open == []
    requires w.pending == Some(StartTag(Str, [], false))
    modifies w
    ensures w.Valid() && w.output == Some(WriterBuffer) && w.emitted == [] && w.open == []
    ensures w.pending == Some(StartTag(Str, [Attribute(Len, "0", false)], false))
    ensures statuses == [Ok, Ok, Ok, Ok, Ok, Ok]
    ensures outputs == ["", "", ""]
  {
    StrAcceptsLen();
    StagedStr();
    var s1 := w.WriteStartAttribute("p", "len", "ns", false);
    assert s1 == Ok;
    var c1, o1 := CheckOutput(w);
    var s2 := w.WriteText("0");
    assert s2 == Ok;
    var c2, o2 := CheckOutput(w);
    var s3 := w.WriteEndAttribute();
    assert s3 == Ok;
    var c3, o3 := CheckOutput(w);
    statuses := [s1, c1, s2, c2, s3, c3];
    outputs := [o1, o2, o3];
  }

  /** Lines 444-447 of the start-attribute test: ending the element writes its tag, self-closing, with the attribute and then the declaration. */
  method EndAttributedElement(w: Writer) returns (statuses: seq<Status>, output: string)
    requires w.Valid() && w.output == Some(WriterBuffer) && w.emitted == [] && w.open == []
    requires w.pending == Some(StartTag(Str, [Attribute(Len, "0", false)], false))
    modifies w
    ensures w.Valid()
    ensures statuses == [Ok, Ok]
    ensures output == "<p:str p:len=\"0\" xmlns:p=\"ns\"/>"
  {
    AttributeStep();
    var ended := w.WriteEndElement();
    assert ended == Ok;
    var read;
    read, output := CheckOutput(w);
    statuses := [ended, read];
  }

  /**
    The start-attribute test, phase by phase: the status of each call and the
    text read after each step.  Only the call on a null handle fails.
   */
  method StartAttributeScenario()
    returns (setup: seq<Status>, nullHandle: Status, staged: seq<Status>, stagedOutputs: seq<string>,
             ended: seq<Status>, endedOutput: string)
    ensures setup == [Ok, Ok, Ok] && nullHandle == Failed(InvalidArg)
    ensures staged == [Ok, Ok, Ok, Ok, Ok, Ok] && stagedOutputs == ["", "", ""]
    ensures ended == [Ok, Ok] && endedOutput == "<p:str p:len=\"0\" xmlns:p=\"ns\"/>"
  {
    var created, w := WsCreateWriter([], true);
    var attach := w.SetOutput([]);
    var started := w.WriteStartElement("p", "str", "ns");
    setup := [created, attach, started];
    nullHandle := WsWriteStartAttribute(null, "p", "str", "ns", false);
    staged, stagedOutputs := StageAttribute(w);
    ended, endedOutput := EndAttributedElement(w);
  }
}
