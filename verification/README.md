# Text XML writer of Wine's WebServices library

This project models the XML writer of Wine's `webservices.dll`. A writer is a
handle created by `WsCreateWriter`. It holds:

- a **property table**. Defaults come first. Overrides are applied from the
  property array given at creation and at each output attach. Some identifiers
  are read-only.
- an **output target**. Nothing is attached at first. `WsSetOutput` attaches
  the writer's own buffer and `WsSetOutputToBuffer` attaches a caller's XML
  buffer. Both may be called again. Each attach drops what was written before.
- the **text emitted so far**, which the Bytes property reads back.
- the **stack of open elements**, each with the namespace declarations its
  start tag made.
- at most one **staged start tag**. `WsWriteStartElement` and
  `WsWriteStartAttribute` write nothing. The start tag is written exactly once:
  - in open form `<p:a ...>` when the caller ends it, writes text into the
    element, or starts a child;
  - in self-closing form `<p:a .../>` when the element is ended straight away.

  Namespace declarations (`xmlns:p="ns"`, `xmlns="ns"`) follow the attributes.
  A start tag declares a prefix only if that prefix does not already stand for
  the namespace in the enclosing scope.

The modules follow the writer's structure:

- `WsErrors`: status codes.
- `XmlNames`: qualified names and namespace scoping.
- `XmlText`: escaping and tag markup.
- `WriterProperties`: the property table.
- `XmlWriter`: the `Writer` class, plus the entry points that take a possibly
  null handle.
- `WriterScenarios`: the call sequences of the writer's test suite, each with
  the statuses and text that suite expects, proved against the model.

The model states what the test suite
`lib-src/wine-1.9.1/dlls/webservices/tests/writer.c` asserts; the
implementation in `dlls/webservices/writer.c` is not modelled. Where a test
marks an expectation as a known difference of Wine from Windows (`todo_wine`),
the model takes the expected Windows behaviour. What the tests leave open
follows the documented API, as listed under "## Left out": escaping, text
inside an element, and the refusals of malformed names, duplicate attributes
and clashing prefixes.

Two modelling choices:

- A NULL prefix is the empty prefix. The nested-element test passes NULL and
  expects `xmlns="ns"`.
- The fifth argument of `WsWriteStartAttribute` is the quote choice
  (`singleQuote`), as the API's signature names it. The tests pass FALSE and
  expect double quotes.

## Model

| member | source | states |
|---|---|---|
| WriterProperties.DefaultTable | lib-src/wine-1.9.1/dlls/webservices/tests/writer.c:65-148 | every identifier holds a value of its own kind, namely its documented default (depth 32, 128 attributes, trim 4096, max size 65536, UTF-8, empty bytes and buffers, 32 namespaces) |
| WriterProperties.ApplyProperties | lib-src/wine-1.9.1/dlls/webservices/tests/writer.c:169-190 | a property array is accepted exactly when every entry names a writable identifier with a value of the right kind; otherwise the whole array is refused with InvalidArg; an accepted table stays well-kinded |
| WriterProperties.UnmentionedKept | lib-src/wine-1.9.1/dlls/webservices/tests/writer.c:264-276 | identifiers the array does not mention keep their previous values, so an override survives later attaches |
| WriterProperties.LastSettingWins | lib-src/wine-1.9.1/dlls/webservices/tests/writer.c:151-166 | after an accepted array, an identifier holds the value of its last entry (MAX_DEPTH reads 16 after overriding it) |
| XmlNames.ResolveAppend | lib-src/wine-1.9.1/dlls/webservices/tests/writer.c:384-402 | an innermost declaration decides its own prefix and leaves every other prefix as it was |
| XmlNames.ResolveSkip | lib-src/wine-1.9.1/dlls/webservices/tests/writer.c:384-402 | declarations of other prefixes do not change what a prefix stands for |
| XmlNames.DeclarationsBindEveryName | lib-src/wine-1.9.1/dlls/webservices/tests/writer.c:364-366 | with a start tag's declarations in scope, the element's name and every prefixed attribute name stand for their own namespaces |
| XmlNames.DeclarationsComeFromNames | lib-src/wine-1.9.1/dlls/webservices/tests/writer.c:444-447 | every declaration a start tag makes is the prefix and namespace of one of its names |
| XmlNames.DeclarationsAreMinimal | lib-src/wine-1.9.1/dlls/webservices/tests/writer.c:444-447 | no declaration was already in force in the enclosing scope, and no prefix is declared twice on one tag (`p` once for both `p:str` and `p:len`) |
| XmlNames.DeclarationsEmptyWhenBound | lib-src/wine-1.9.1/dlls/webservices/tests/writer.c:396-398 | a tag whose names are all bound in the enclosing scope declares nothing (the child `<b/>` does not repeat `xmlns="ns"`) |
| XmlText.EscapeIsMarkupFree | lib-src/wine-1.9.1/dlls/webservices/tests/writer.c:432-437 | escaped text contains no `<` or `>`, and escaped attribute text contains no quote character |
| XmlText.UnescapeEscape | lib-src/wine-1.9.1/dlls/webservices/tests/writer.c:432-437 | reading escaped text back gives the text that was written, in element content and in attribute values |
| XmlText.SelfClosingIsOpenFormClosed | lib-src/wine-1.9.1/dlls/webservices/tests/writer.c:360-382 | the two forms of a start tag have the same name, attributes and declarations; the self-closing form is the open form with its final `>` replaced by `/>` |
| XmlText.AttributeValueStaysQuoted | lib-src/wine-1.9.1/dlls/webservices/tests/writer.c:444-447 | an attribute's text ends with its quote character, and that character does not occur in the value, whatever text was written |
| XmlWriter.OpenedWellScoped | lib-src/wine-1.9.1/dlls/webservices/tests/writer.c:384-402 | writing a start tag in open form keeps the name of every open element, the new one included, bound to its namespace |
| XmlWriter.WithAttributeOk | lib-src/wine-1.9.1/dlls/webservices/tests/writer.c:426-430 | staging an attribute that is neither a duplicate nor a prefix clash leaves a start tag that can be written as well-formed markup |
| XmlWriter.WithTextOk | lib-src/wine-1.9.1/dlls/webservices/tests/writer.c:432-437 | text written into an attribute keeps the tag well-formed and changes none of its names |
| XmlWriter.Writer.constructor | lib-src/wine-1.9.1/dlls/webservices/tests/writer.c:51-54 | a new writer has the given table, no output, nothing emitted, nothing open and nothing staged |
| XmlWriter.Writer.SetOutput | lib-src/wine-1.9.1/dlls/webservices/tests/writer.c:257-270 | attaches the writer's buffer after applying the properties; it may be repeated, each attach empties the output and the element state, and a refused array changes nothing |
| XmlWriter.Writer.SetOutputToBuffer | lib-src/wine-1.9.1/dlls/webservices/tests/writer.c:295-317 | as SetOutput with a caller's XML buffer as target; a null buffer is InvalidArg and changes nothing |
| XmlWriter.Writer.GetProperty | lib-src/wine-1.9.1/dlls/webservices/tests/writer.c:56-61 | before output is attached every read is InvalidOperation and leaves the caller's variable untouched; reading Bytes while a caller's XML buffer is the output is InvalidArg (lines 229-231); otherwise the value has the identifier's kind, and Bytes, InAttribute and BytesWritten reflect the emitted text and the staged tag |
| XmlWriter.Writer.FlushStartTag | lib-src/wine-1.9.1/dlls/webservices/tests/writer.c:364-366 | writes the staged tag in open form, with the declarations the enclosing scope lacks, and pushes its element |
| XmlWriter.Writer.WriteStartElement | lib-src/wine-1.9.1/dlls/webservices/tests/writer.c:360-363 | stages the new element's tag without writing it; a tag already staged is written in open form as its parent; it fails without output or inside an attribute |
| XmlWriter.Writer.WriteStartAttribute | lib-src/wine-1.9.1/dlls/webservices/tests/writer.c:426-430 | stages an attribute with an empty value on the staged tag and writes nothing; it fails with no staged tag, inside an attribute, for a duplicate or for a prefix clash |
| XmlWriter.Writer.WriteText | lib-src/wine-1.9.1/dlls/webservices/tests/writer.c:432-437 | inside an attribute, appends to its value and writes nothing; in an element, writes the staged tag in open form and then the escaped text |
| XmlWriter.Writer.WriteEndAttribute | lib-src/wine-1.9.1/dlls/webservices/tests/writer.c:439-442 | ends the attribute receiving text and writes nothing; it fails outside an attribute |
| XmlWriter.Writer.WriteEndStartElement | lib-src/wine-1.9.1/dlls/webservices/tests/writer.c:364-366 | writes the staged tag in open form and opens its element; it fails when nothing is staged |
| XmlWriter.Writer.WriteEndElement | lib-src/wine-1.9.1/dlls/webservices/tests/writer.c:368-382 | a staged tag is written in self-closing form; otherwise the innermost element's end tag is written and the element is popped |
| XmlWriter.WsCreateWriter | lib-src/wine-1.9.1/dlls/webservices/tests/writer.c:47-54 | without a place for the handle, or with a refused property array, creation is InvalidArg and yields no writer; otherwise a fresh writer with the defaults overridden and no output |
| XmlWriter.WsSetOutput | lib-src/wine-1.9.1/dlls/webservices/tests/writer.c:249-250 | a null handle is InvalidArg; otherwise as Writer.SetOutput |
| XmlWriter.WsSetOutputToBuffer | lib-src/wine-1.9.1/dlls/webservices/tests/writer.c:289-296 | a null handle is InvalidArg; otherwise as Writer.SetOutputToBuffer, including the null-buffer refusal |
| XmlWriter.WsWriteStartElement | lib-src/wine-1.9.1/dlls/webservices/tests/writer.c:357-358 | a null handle is InvalidArg; otherwise the status of Writer.WriteStartElement |
| XmlWriter.WsWriteStartAttribute | lib-src/wine-1.9.1/dlls/webservices/tests/writer.c:423-424 | a null handle is InvalidArg; otherwise the status of Writer.WriteStartAttribute |
| WriterScenarios.CheckOutput | lib-src/wine-1.9.1/dlls/webservices/tests/writer.c:329-342 | reading Bytes from a writer with its own buffer succeeds and yields exactly the emitted text |
| WriterScenarios.CreateWriterScenario | lib-src/wine-1.9.1/dlls/webservices/tests/writer.c:47-61 | creation without a handle pointer is InvalidArg; a created writer refuses reads before output and leaves 0xdeadbeef in place |
| WriterScenarios.DefaultPropertiesScenario | lib-src/wine-1.9.1/dlls/webservices/tests/writer.c:62-149 | creation and attach succeed; after output is attached, all thirteen reads succeed and the properties read in order hold the defaults the test expects |
| WriterScenarios.MaxDepthOverrideScenario | lib-src/wine-1.9.1/dlls/webservices/tests/writer.c:151-167 | creation, attach and read succeed, and a MAX_DEPTH of 16 given at creation reads back as 16 once output is attached |
| WriterScenarios.ReadOnlyScenario | lib-src/wine-1.9.1/dlls/webservices/tests/writer.c:169-190 | creating a writer with IN_ATTRIBUTE, BYTES_WRITTEN or BYTES_TO_CLOSE is InvalidArg each time |
| WriterScenarios.XmlBufferScenario | lib-src/wine-1.9.1/dlls/webservices/tests/writer.c:219-231 | creation succeeds; Bytes cannot be read before output (InvalidOperation); attaching an XML buffer succeeds; Bytes then cannot be read through the writer (InvalidArg) |
| WriterScenarios.SetOutputScenario | lib-src/wine-1.9.1/dlls/webservices/tests/writer.c:237-278 | creation succeeds; a null handle is InvalidArg; three attaches succeed; the read succeeds and the last attach's MAX_DEPTH of 16 reads back |
| WriterScenarios.SetOutputToBufferScenario | lib-src/wine-1.9.1/dlls/webservices/tests/writer.c:280-327 | a null handle is InvalidArg; creation succeeds; a null buffer is InvalidArg; three attaches succeed; the read succeeds and the last attach's MAX_DEPTH of 16 reads back |
| WriterScenarios.DeferredStartTag | lib-src/wine-1.9.1/dlls/webservices/tests/writer.c:360-372 | starting `p:a` writes nothing; ending its start tag writes `<p:a xmlns:p="ns">`; ending the element adds `</p:a>` |
| WriterScenarios.SelfClosing | lib-src/wine-1.9.1/dlls/webservices/tests/writer.c:374-382 | after a fresh attach, an element ended straight away is written `<p:a xmlns:p="ns"/>` |
| WriterScenarios.NestedOpen | lib-src/wine-1.9.1/dlls/webservices/tests/writer.c:384-394 | starting `a` writes nothing; starting its child `b` writes `<a xmlns="ns">` |
| WriterScenarios.NestedClose | lib-src/wine-1.9.1/dlls/webservices/tests/writer.c:396-402 | ending `b` adds `<b/>` without a second declaration; ending `a` adds `</a>` |
| WriterScenarios.StartElementScenario | lib-src/wine-1.9.1/dlls/webservices/tests/writer.c:344-403 | the whole start-element test: every status and every text the test checks |
| WriterScenarios.StageAttribute | lib-src/wine-1.9.1/dlls/webservices/tests/writer.c:426-442 | starting attribute `p:len`, writing `0` into it and ending it write nothing, and leave the attribute staged with value `0` |
| WriterScenarios.EndAttributedElement | lib-src/wine-1.9.1/dlls/webservices/tests/writer.c:444-447 | ending the element writes `<p:str p:len="0" xmlns:p="ns"/>`, with the declaration after the attribute |
| WriterScenarios.StartAttributeScenario | lib-src/wine-1.9.1/dlls/webservices/tests/writer.c:405-449 | the whole start-attribute test: every status and every text the test checks |

## Left out

- Heaps and XML buffer creation (`WsCreateHeap`, `WsCreateXmlBuffer` and its argument checks): an XML buffer is modelled only by its identity. `WsFreeWriter` and `WsFreeHeap` are left out because memory release is not modelled.
- Encodings: the encoding and output descriptors of `WsSetOutput` are not modelled. The output is always UTF-8 text, and the CharacterSet property has no effect on it.
- Raw property buffers: a `valueSize` that does not match the property's type is modelled as a value of the wrong kind. Pointers and sizes are not modelled.
- Status codes are `Ok`, `InvalidArg` (E_INVALIDARG) and `InvalidOperation` (WS_E_INVALID_OPERATION). Other HRESULTs are not modelled.
- Bytes and characters: text is modelled as a sequence of characters, one per byte of UTF-8 output.
- Quotas: MaxDepth, MaxAttributes, MaxNamespaces and the buffer sizes are stored and read back but not enforced.
- Reading Bytes while a caller's XML buffer is the output is modelled as the InvalidArg the test expects of Windows (lines 229-231), which that test marks as not yet matched by Wine's implementation.
- XmlWriter.Writer.GetProperty: BytesToClose and Buffers read their table defaults. Only the writer's own buffer is modelled as holding the text.
- XmlWriter.WsWriteStartElement: states the null-handle case, `Valid()` and the status. The effect on the writer is stated by Writer.WriteStartElement, which the scenarios call.
- XmlWriter.WsWriteStartAttribute: states the null-handle case, `Valid()` and the status. The effect on the writer is stated by Writer.WriteStartAttribute, which the scenarios call.
- The reserved prefix `xml` is not treated specially. Only `xmlns` is refused as a prefix.
- Buffers and Bytes are read-only, as the API documentation describes them; the tests assert read-only only for IN_ATTRIBUTE, BYTES_WRITTEN and BYTES_TO_CLOSE.
- The behaviours the tests do not assert are extensions taken from the documented API and are not checked by any scenario:
  - escaping of `&`, `<`, `>` and quotes;
  - text in element content;
  - refusal of duplicate attributes and clashing prefixes (InvalidArg);
  - refusal of an element name that is empty, uses the prefix `xmlns`, or has a prefix but no namespace (InvalidArg);
  - refusal of an attribute name that is empty, uses the prefix `xmlns`, has a prefix without a namespace or a namespace without a prefix, or is an unprefixed `xmlns` (InvalidArg);
  - refusal of WriteStartElement, WriteEndStartElement and WriteEndElement while an attribute is receiving text (InvalidOperation);
  - refusal of top-level text (InvalidOperation).
