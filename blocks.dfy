/**
 * The i3bar block: one segment of the bar with the fields the i3bar protocol
 * defines, and how it is serialised. The separator is a pointer to a bool in
 * the Go code, so it has three states: nil (the bar draws its default
 * separator), explicit false, and explicit true.
 */
module Blocks {
  import opened Wrappers
  import opened Json

  datatype SepState = Unset | Set(value: bool)

  datatype Block = Block(
    fullText: string,
    shortText: string,
    color: string,
    background: string,
    border: string,
    borderTop: int,
    borderRight: int,
    borderBottom: int,
    borderLeft: int,
    minWidth: string,
    align: string,
    urgent: bool,
    name: string,
    instance: string,
    separator: SepState,
    separatorBlockWidth: int,
    markup: string)

  /** Block{}: every field at Go's zero value, the separator pointer nil. */
  const ZERO: Block := Block("", "", "", "", "", 0, 0, 0, 0, "", "", false, "", "", Unset, 0, "")

  /** NewBlock(sepWidth): separator explicitly false, the given width, nothing else set. */
  function NewBlock(sepWidth: int): (b: Block)
    ensures b.separator == Set(false)
    ensures b.separatorBlockWidth == sepWidth
    ensures b.(separator := Unset, separatorBlockWidth := 0) == ZERO
  {
    ZERO.(separator := Set(false), separatorBlockWidth := sepWidth)
  }

  /** A `*Block` that a module is still filling in before it appends it. */
  class BlockRef {
    var val: Block

    /** NewBlock(sepWidth), which allocates the block and returns its address. */
    constructor (sepWidth: int)
      ensures val == NewBlock(sepWidth)
    {
      val := NewBlock(sepWidth);
    }

    /** Sets the separator pointer to nil, so that the bar's default applies. */
    method AddSeparator()
      modifies this
      ensures val == old(val).(separator := Unset)
    {
      val := val.(separator := Unset);
    }

    /** Points the separator at a fresh false. */
    method RemoveSeparator()
      modifies this
      ensures val == old(val).(separator := Set(false))
    {
      val := val.(separator := Set(false));
    }
  }

  /**
   * Applies the separator operations in the orders a module could, starting
   * from a new block: adding gives the default separator and adding again
   * changes nothing; removing then gives back NewBlock's block, and removing
   * again changes nothing.
   */
  method SeparatorMoves(sepWidth: int) returns (added: Block, addedTwice: Block, removed: Block, removedTwice: Block)
    ensures added == NewBlock(sepWidth).(separator := Unset)
    ensures addedTwice == added
    ensures removed == NewBlock(sepWidth)
    ensures removedTwice == removed
  {
    var r := new BlockRef(sepWidth);
    r.AddSeparator();
    added := r.val;
    r.AddSeparator();
    addedTwice := r.val;
    r.RemoveSeparator();
    removed := r.val;
    r.RemoveSeparator();
    removedTwice := r.val;
  }

  /** The JSON keys of the block's fields, as its struct tags name them. */
  datatype Key =
    | FullText | ShortText | Color | Background | Border
    | BorderTop | BorderRight | BorderBottom | BorderLeft
    | MinWidth | Align | Urgent | Name | Instance
    | Separator | SeparatorBlockWidth | Markup

  function KeyName(k: Key): string {
    match k
    case FullText => "full_text"
    case ShortText => "short_text"
    case Color => "color"
    case Background => "background"
    case Border => "border"
    case BorderTop => "border_top"
    case BorderRight => "border_right"
    case BorderBottom => "border_bottom"
    case BorderLeft => "border_left"
    case MinWidth => "min_width"
    case Align => "align"
    case Urgent => "urgent"
    case Name => "name"
    case Instance => "instance"
    case Separator => "separator"
    case SeparatorBlockWidth => "separator_block_width"
    case Markup => "markup"
  }

  /** The Go value of the field a key names. */
  function FieldValue(b: Block, k: Key): GoValue {
    match k
    case FullText => GoString(b.fullText)
    case ShortText => GoString(b.shortText)
    case Color => GoString(b.color)
    case Background => GoString(b.background)
    case Border => GoString(b.border)
    case BorderTop => GoInt(b.borderTop)
    case BorderRight => GoInt(b.borderRight)
    case BorderBottom => GoInt(b.borderBottom)
    case BorderLeft => GoInt(b.borderLeft)
    case MinWidth => GoString(b.minWidth)
    case Align => GoString(b.align)
    case Urgent => GoBool(b.urgent)
    case Name => GoString(b.name)
    case Instance => GoString(b.instance)
    case Separator => GoBoolPtr(if b.separator.Set? then Some(b.separator.value) else None)
    case SeparatorBlockWidth => GoInt(b.separatorBlockWidth)
    case Markup => GoString(b.markup)
  }

  /** Whether the field's tag carries `omitempty`: every field but `full_text` does. */
  predicate OmitEmpty(k: Key) {
    k != FullText
  }

  /** The struct's fields in declaration order, the order json.Marshal writes them in. */
  const FIELD_ORDER: seq<Key> := [
    FullText, ShortText, Color, Background, Border,
    BorderTop, BorderRight, BorderBottom, BorderLeft,
    MinWidth, Align, Urgent, Name, Instance,
    Separator, SeparatorBlockWidth, Markup]

  /** The members json.Marshal writes for the listed fields of a block, in list order. */
  function Marshal(b: Block, keys: seq<Key>): seq<Member<Key>> {
    if |keys| == 0 then []
    else TaggedField(keys[0], FieldValue(b, keys[0]), OmitEmpty(keys[0])) + Marshal(b, keys[1..])
  }

  /** Whether json.Marshal writes the field at all. */
  predicate Written(b: Block, k: Key) {
    !(OmitEmpty(k) && IsEmpty(FieldValue(b, k)))
  }

  lemma {:induction false} MarshalMembers(b: Block, keys: seq<Key>, k: Key, v: Value)
    ensures Member(k, v) in Marshal(b, keys) <==> k in keys && Written(b, k) && v == Encode(FieldValue(b, k))
  {
    if |keys| > 0 {
      MarshalMembers(b, keys[1..], k, v);
      assert keys == [keys[0]] + keys[1..];
    }
  }

  lemma EveryFieldListed(k: Key)
    ensures k in FIELD_ORDER
  {
    match k
    case FullText => assert FIELD_ORDER[0] == k;
    case ShortText => assert FIELD_ORDER[1] == k;
    case Color => assert FIELD_ORDER[2] == k;
    case Background => assert FIELD_ORDER[3] == k;
    case Border => assert FIELD_ORDER[4] == k;
    case BorderTop => assert FIELD_ORDER[5] == k;
    case BorderRight => assert FIELD_ORDER[6] == k;
    case BorderBottom => assert FIELD_ORDER[7] == k;
    case BorderLeft => assert FIELD_ORDER[8] == k;
    case MinWidth => assert FIELD_ORDER[9] == k;
    case Align => assert FIELD_ORDER[10] == k;
    case Urgent => assert FIELD_ORDER[11] == k;
    case Name => assert FIELD_ORDER[12] == k;
    case Instance => assert FIELD_ORDER[13] == k;
    case Separator => assert FIELD_ORDER[14] == k;
    case SeparatorBlockWidth => assert FIELD_ORDER[15] == k;
    case Markup => assert FIELD_ORDER[16] == k;
  }

  /**
   * The members json.Marshal writes for a block: a member for a field exactly
   * when the field is written, and then with the field's encoded value;
   * omitempty fields drop out when empty, `full_text` never does.
   */
  function Fields(b: Block): (ms: seq<Member<Key>>)
    ensures forall k, v :: Member(k, v) in ms <==> !(OmitEmpty(k) && IsEmpty(FieldValue(b, k))) && v == Encode(FieldValue(b, k))
  {
    var ms := Marshal(b, FIELD_ORDER);
    assert forall k, v :: Member(k, v) in ms <==> !(OmitEmpty(k) && IsEmpty(FieldValue(b, k))) && v == Encode(FieldValue(b, k)) by {
      forall k, v ensures Member(k, v) in ms <==> !(OmitEmpty(k) && IsEmpty(FieldValue(b, k))) && v == Encode(FieldValue(b, k)) {
        MarshalMembers(b, FIELD_ORDER, k, v);
        EveryFieldListed(k);
      }
    }
    ms
  }

  /** The JSON object a block serialises to. */
  function BlockText(b: Block): (t: string)
    ensures Printable(t)
  {
    ObjectText(Fields(b), KeyName)
  }

  /** `full_text` is always written, even when empty. */
  lemma FullTextAlways(b: Block)
    ensures Member(FullText, JString(b.fullText)) in Fields(b)
    ensures forall v :: Member(FullText, v) in Fields(b) ==> v == JString(b.fullText)
  {
  }

  /** `separator` is omitted exactly when unset; an explicit false is written as false. */
  lemma SeparatorField(b: Block)
    ensures forall v :: Member(Separator, v) in Fields(b) <==> b.separator.Set? && v == JBool(b.separator.value)
    ensures b.separator == Set(false) ==> Member(Separator, JBool(false)) in Fields(b)
  {
  }

  /** Every other string field is written exactly when it is not empty. */
  lemma OmitEmptyStrings(b: Block)
    ensures forall v :: Member(ShortText, v) in Fields(b) <==> b.shortText != "" && v == JString(b.shortText)
    ensures forall v :: Member(Color, v) in Fields(b) <==> b.color != "" && v == JString(b.color)
    ensures forall v :: Member(Background, v) in Fields(b) <==> b.background != "" && v == JString(b.background)
    ensures forall v :: Member(Border, v) in Fields(b) <==> b.border != "" && v == JString(b.border)
    ensures forall v :: Member(MinWidth, v) in Fields(b) <==> b.minWidth != "" && v == JString(b.minWidth)
    ensures forall v :: Member(Align, v) in Fields(b) <==> b.align != "" && v == JString(b.align)
    ensures forall v :: Member(Name, v) in Fields(b) <==> b.name != "" && v == JString(b.name)
    ensures forall v :: Member(Instance, v) in Fields(b) <==> b.instance != "" && v == JString(b.instance)
    ensures forall v :: Member(Markup, v) in Fields(b) <==> b.markup != "" && v == JString(b.markup)
  {
  }

  /** Every integer and bool field is written exactly when it is not 0 or false. */
  lemma OmitEmptyNumbers(b: Block)
    ensures forall v :: Member(BorderTop, v) in Fields(b) <==> b.borderTop != 0 && v == JInt(b.borderTop)
    ensures forall v :: Member(BorderRight, v) in Fields(b) <==> b.borderRight != 0 && v == JInt(b.borderRight)
    ensures forall v :: Member(BorderBottom, v) in Fields(b) <==> b.borderBottom != 0 && v == JInt(b.borderBottom)
    ensures forall v :: Member(BorderLeft, v) in Fields(b) <==> b.borderLeft != 0 && v == JInt(b.borderLeft)
    ensures forall v :: Member(Urgent, v) in Fields(b) <==> b.urgent && v == JBool(true)
    ensures forall v :: Member(SeparatorBlockWidth, v) in Fields(b) <==> b.separatorBlockWidth != 0 && v == JInt(b.separatorBlockWidth)
  {
  }

  /**
   * The tri-state separator on the wire: NewBlock(w) writes `"separator":false`
   * and its width; after AddSeparator the `separator` member disappears.
   */
  lemma SeparatorOnTheWire(w: int)
    ensures Member(Separator, JBool(false)) in Fields(NewBlock(w))
    ensures w != 0 ==> Member(SeparatorBlockWidth, JInt(w)) in Fields(NewBlock(w))
    ensures forall v :: Member(Separator, v) !in Fields(NewBlock(w).(separator := Unset))
  {
    SeparatorField(NewBlock(w));
    OmitEmptyNumbers(NewBlock(w));
    SeparatorField(NewBlock(w).(separator := Unset));
  }
}
