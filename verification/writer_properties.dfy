/**
  The writer's property table: the identifiers, the kind of value each one
  holds, its default, and which identifiers a caller may supply when creating
  the writer or attaching its output.
 */
module WriterProperties {
  import opened WsErrors

  newtype uint32 = x: int | 0 <= x < 0x1_0000_0000

  /** The writer property identifiers, in the order of their numeric values. */
  datatype PropertyId =
    | MaxDepth | AllowFragment | MaxAttributes | WriteDeclaration | Indent
    | BufferTrimSize | CharacterSet | Buffers | BufferMaxSize | Bytes
    | InAttribute | MaxMimePartsBufferSize | InitialBuffer | MaxNamespaces
    | BytesWritten | BytesToClose

  datatype Charset = Utf8 | Utf16LE | Utf16BE

  /** A property value: a ULONG, a BOOL, a charset, a list of byte ranges or one byte range. */
  datatype PropValue =
    | UInt32Value(n: uint32)
    | BoolValue(b: bool)
    | CharsetValue(charset: Charset)
    | BuffersValue(buffers: seq<string>)
    | BytesValue(data: string)

  /** One entry of a property array handed to the writer. */
  datatype Property = Property(id: PropertyId, value: PropValue)

  datatype Kind = ULongKind | BoolKind | CharsetKind | BuffersKind | BytesKind

  /** The kind of value each identifier holds. */
  function KindOf(id: PropertyId): Kind {
    match id
    case AllowFragment | WriteDeclaration | InAttribute => BoolKind
    case CharacterSet => CharsetKind
    case Buffers => BuffersKind
    case Bytes | InitialBuffer => BytesKind
    case _ => ULongKind
  }

  function ValueKind(v: PropValue): Kind {
    match v
    case UInt32Value(_) => ULongKind
    case BoolValue(_) => BoolKind
    case CharsetValue(_) => CharsetKind
    case BuffersValue(_) => BuffersKind
    case BytesValue(_) => BytesKind
  }

  /** Identifiers whose values the writer computes and a caller may never supply. */
  predicate ReadOnly(id: PropertyId) {
    id == Buffers || id == Bytes || id == InAttribute || id == BytesWritten || id == BytesToClose
  }

  /** The value each property has until a caller overrides it. */
  function Default(id: PropertyId): PropValue {
    match id
    case MaxDepth => UInt32Value(32)
    case AllowFragment => BoolValue(false)
    case MaxAttributes => UInt32Value(128)
    case WriteDeclaration => BoolValue(false)
    case Indent => UInt32Value(0)
    case BufferTrimSize => UInt32Value(4096)
    case CharacterSet => CharsetValue(Utf8)
    case Buffers => BuffersValue([])
    case BufferMaxSize => UInt32Value(65536)
    case Bytes => BytesValue([])
    case InAttribute => BoolValue(false)
    case MaxMimePartsBufferSize => UInt32Value(65536)
    case InitialBuffer => BytesValue([])
    case MaxNamespaces => UInt32Value(32)
    case BytesWritten => UInt32Value(0)
    case BytesToClose => UInt32Value(0)
  }

  const AllIds: set<PropertyId> := {
    MaxDepth, AllowFragment, MaxAttributes, WriteDeclaration, Indent,
    BufferTrimSize, CharacterSet, Buffers, BufferMaxSize, Bytes,
    InAttribute, MaxMimePartsBufferSize, InitialBuffer, MaxNamespaces,
    BytesWritten, BytesToClose }

  lemma AllIdsComplete()
    ensures forall id: PropertyId :: id in AllIds
  {
    forall id: PropertyId ensures id in AllIds {
      match id
      case MaxDepth => case AllowFragment => case MaxAttributes => case WriteDeclaration =>
      case Indent => case BufferTrimSize => case CharacterSet => case Buffers =>
      case BufferMaxSize => case Bytes => case InAttribute => case MaxMimePartsBufferSize =>
      case InitialBuffer => case MaxNamespaces => case BytesWritten => case BytesToClose =>
    }
  }

  type PropertyTable = map<PropertyId, PropValue>

  /** Every identifier has a value of its own kind. */
  ghost predicate TableOk(t: PropertyTable) {
    forall id: PropertyId :: id in t && ValueKind(t[id]) == KindOf(id)
  }

  /** The table of a writer created without properties. */
  function DefaultTable(): (t: PropertyTable)
    ensures TableOk(t)
    ensures forall id :: t[id] == Default(id)
  {
    AllIdsComplete();
    map id | id in AllIds :: Default(id)
  }

  /** A caller may supply `p`: its identifier is not read-only and its value has the right kind. */
  predicate Settable(p: Property) {
    !ReadOnly(p.id) && ValueKind(p.value) == KindOf(p.id)
  }

  /**
    The table after a caller's property array is applied in order: the whole
    array is refused with InvalidArg if any entry may not be supplied.
   */
  function ApplyProperties(t: PropertyTable, props: seq<Property>): (r: Result<PropertyTable>)
    requires TableOk(t)
    ensures r.Success? <==> forall i :: 0 <= i < |props| ==> Settable(props[i])
    ensures r.Failure? ==> r.error == InvalidArg
    ensures r.Success? ==> TableOk(r.value)
    decreases |props|
  {
    if props == [] then Success(t)
    else if !Settable(props[0]) then Failure(InvalidArg)
    else
      var r := ApplyProperties(t[props[0].id := props[0].value], props[1..]);
      assert forall i :: 1 <= i < |props| ==> props[i] == props[1..][i - 1];
      r
  }

  /** Identifiers the array does not mention keep their values. */
  lemma {:induction false} UnmentionedKept(t: PropertyTable, props: seq<Property>, id: PropertyId)
    requires TableOk(t)
    requires forall i :: 0 <= i < |props| ==> props[i].id != id
    ensures ApplyProperties(t, props).Success? ==> ApplyProperties(t, props).value[id] == t[id]
    decreases |props|
  {
    if props != [] && Settable(props[0]) {
      var t' := t[props[0].id := props[0].value];
      assert forall i :: 0 <= i < |props| - 1 ==> props[1..][i] == props[i + 1];
      UnmentionedKept(t', props[1..], id);
    }
  }

  /** The last entry for an identifier decides its value. */
  lemma {:induction false} LastSettingWins(t: PropertyTable, props: seq<Property>, i: nat)
    requires TableOk(t)
    requires i < |props| && forall j :: i < j < |props| ==> props[j].id != props[i].id
    ensures ApplyProperties(t, props).Success? ==> ApplyProperties(t, props).value[props[i].id] == props[i].value
    decreases |props|
  {
    if Settable(props[0]) {
      var t' := t[props[0].id := props[0].value];
      assert forall j :: 0 <= j < |props| - 1 ==> props[1..][j] == props[j + 1];
      if i == 0 {
        UnmentionedKept(t', props[1..], props[0].id);
      } else {
        LastSettingWins(t', props[1..], i - 1);
      }
    }
  }
}
