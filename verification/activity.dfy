/**
 * The eight presence fields, the payload each one carries, and the decoders that
 * turn a script value into that payload (src/activity.rs).
 */
module Activity {
  import opened Wrappers
  import opened Script

  /** The closed set of field identifiers. */
  datatype Tag = Active | State | Details | Timestamp | FirstButton | SecondButton | LargeImage | SmallImage

  datatype Image = Image(asset: string, text: Option<string>)

  datatype Button = Button(text: string, url: string)

  datatype Timestamp = Timestamp(start: Option<i64>, end: Option<i64>)

  /** One field update: one variant per tag, carrying that field's payload. */
  datatype Data =
    | Active(active: bool)
    | State(state: string)
    | Details(details: string)
    | Timestamp(timestamp: Timestamp)
    | FirstButton(button1: Button)
    | SecondButton(button2: Button)
    | LargeImage(largeImage: Image)
    | SmallImage(smallImage: Image)
  {
    /** The field this update is for. */
    function FieldTag(): Tag
    {
      match this
      case Active(_) => Tag.Active
      case State(_) => Tag.State
      case Details(_) => Tag.Details
      case Timestamp(_) => Tag.Timestamp
      case FirstButton(_) => Tag.FirstButton
      case SecondButton(_) => Tag.SecondButton
      case LargeImage(_) => Tag.LargeImage
      case SmallImage(_) => Tag.SmallImage
    }
  }

  /** Image: a string is the asset with no caption; a table gives the asset in slot 1
      and an optional caption under "text". */
  function DecodeImage(v: Value): (r: Result<Image, Error>)
    ensures v.Str? ==> r == Ok(Image(v.s, None))
    ensures v.Table? ==> (r.Ok? <==> Slot(v, 1).Str? && (Field(v, "text").Nil? || Field(v, "text").Str?))
    ensures v.Table? && r.Ok? ==> r.value.asset == Slot(v, 1).s
    ensures v.Table? && r.Ok? ==> (r.value.text.Some? <==> Field(v, "text").Str?)
    ensures v.Table? && r.Ok? && r.value.text.Some? ==> r.value.text.value == Field(v, "text").s
    ensures !v.Table? && !v.Str? ==> r == Err(ConversionError(TypeName(v), "Image"))
  {
    match v
    case Table(_, _) =>
      var asset :- ToString(Slot(v, 1));
      var text :- ToOptString(Field(v, "text"));
      Ok(Image(asset, text))
    case Str(s) => Ok(Image(s, None))
    case _ => Err(ConversionError(TypeName(v), "Image"))
  }

  /** Button: a string is both the label and the url; a table gives the label in
      slot 1 and the url under "url", both required. */
  function DecodeButton(v: Value): (r: Result<Button, Error>)
    ensures v.Str? ==> r == Ok(Button(v.s, v.s))
    ensures v.Table? ==> (r.Ok? <==> Slot(v, 1).Str? && Field(v, "url").Str?)
    ensures v.Table? && r.Ok? ==> r.value == Button(Slot(v, 1).s, Field(v, "url").s)
    ensures !v.Table? && !v.Str? ==> r == Err(ConversionError(TypeName(v), "Button"))
  {
    match v
    case Table(_, _) =>
      var text :- ToString(Slot(v, 1));
      var url :- ToString(Field(v, "url"));
      Ok(Button(text, url))
    case Str(s) => Ok(Button(s, s))
    case _ => Err(ConversionError(TypeName(v), "Button"))
  }

  /** Timestamp: an integer is a start with no end; a table gives an optional start
      under "start" and an optional end under "_end". This is the decoder the rest of
      the model uses; DecodeTimestampAsWritten below is the one the source has. */
  function DecodeTimestamp(v: Value): (r: Result<Timestamp, Error>)
    ensures v.Int? ==> r == Ok(Timestamp.Timestamp(Some(v.n), None))
    ensures v.Table? ==>
      (r.Ok? <==> (Field(v, "start").Nil? || Field(v, "start").Int?) && (Field(v, "_end").Nil? || Field(v, "_end").Int?))
    ensures v.Table? && r.Ok? ==> (r.value.start.Some? <==> Field(v, "start").Int?)
    ensures v.Table? && r.Ok? && r.value.start.Some? ==> r.value.start.value == Field(v, "start").n
    ensures v.Table? && r.Ok? ==> (r.value.end.Some? <==> Field(v, "_end").Int?)
    ensures v.Table? && r.Ok? && r.value.end.Some? ==> r.value.end.value == Field(v, "_end").n
    ensures !v.Table? && !v.Int? ==> r == Err(ConversionError(TypeName(v), "Timestamp"))
  {
    match v
    case Table(_, _) => TimestampTable(v)
    case Int(n) =>
      // an optional integer read from an integer is always present
      Ok(Timestamp.Timestamp(Some(n), None))
    case _ => Err(ConversionError(TypeName(v), "Timestamp"))
  }

  /** The table form of a timestamp: both keys are optional integers. */
  function TimestampTable(v: Value): Result<Timestamp, Error>
    requires v.Table?
  {
    var start :- ToOptI64(Field(v, "start"));
    var end :- ToOptI64(Field(v, "_end"));
    Ok(Timestamp.Timestamp(start, end))
  }

  /** The timestamp decoder as the source writes it: it dispatches on the type name,
      and its scalar arm expects the name "number", which the binding gives only to
      floating-point values; a whole-number literal such as `1700000000` is an
      "integer" and falls through to the error arm. Floating-point numbers are not
      part of this model, so here every non-table value is rejected. */
  function DecodeTimestampAsWritten(v: Value): (r: Result<Timestamp, Error>)
    ensures !v.Int? ==> r == DecodeTimestamp(v)
    ensures v.Int? ==> r == Err(ConversionError("integer", "Timestamp"))
  {
    if TypeName(v) == "table" then TimestampTable(v)
    else Err(ConversionError(TypeName(v), "Timestamp"))
  }

  /** The discrepancy: `Timestamp = 1700000000` is rejected by the source's decoder,
      while a start time with no end is evidently what it means. */
  lemma WholeNumberTimestampRejected()
    ensures DecodeTimestampAsWritten(Int(1700000000)).Err?
    ensures DecodeTimestamp(Int(1700000000)) == Ok(Timestamp.Timestamp(Some(1700000000), None))
  {
  }

  /** Decoding a value as the payload of field `tag`, wrapped in that field's variant. */
  function Decode(tag: Tag, v: Value): (r: Result<Data, Error>)
    ensures r.Ok? ==> r.value.FieldTag() == tag
    ensures tag == Tag.Active ==> r == Ok(Data.Active(ToBool(v)))
    ensures (tag == Tag.State || tag == Tag.Details) ==> (r.Ok? <==> v.Str?)
    ensures tag == Tag.Timestamp ==> (r.Ok? <==> DecodeTimestamp(v).Ok?)
    ensures (tag == Tag.FirstButton || tag == Tag.SecondButton) ==> (r.Ok? <==> DecodeButton(v).Ok?)
    ensures (tag == Tag.LargeImage || tag == Tag.SmallImage) ==> (r.Ok? <==> DecodeImage(v).Ok?)
    // The payload is the one the field's decoder produced, and a failure is its error.
    ensures tag == Tag.State && v.Str? ==> r == Ok(Data.State(v.s))
    ensures tag == Tag.Details && v.Str? ==> r == Ok(Data.Details(v.s))
    ensures (tag == Tag.State || tag == Tag.Details) && !v.Str? ==> r == Err(ToString(v).error)
    ensures tag == Tag.Timestamp && r.Ok? ==> r.value.timestamp == DecodeTimestamp(v).value
    ensures tag == Tag.FirstButton && r.Ok? ==> r.value.button1 == DecodeButton(v).value
    ensures tag == Tag.SecondButton && r.Ok? ==> r.value.button2 == DecodeButton(v).value
    ensures tag == Tag.LargeImage && r.Ok? ==> r.value.largeImage == DecodeImage(v).value
    ensures tag == Tag.SmallImage && r.Ok? ==> r.value.smallImage == DecodeImage(v).value
    ensures tag == Tag.Timestamp && r.Err? ==> r.error == DecodeTimestamp(v).error
    ensures (tag == Tag.FirstButton || tag == Tag.SecondButton) && r.Err? ==> r.error == DecodeButton(v).error
    ensures (tag == Tag.LargeImage || tag == Tag.SmallImage) && r.Err? ==> r.error == DecodeImage(v).error
  {
    match tag
    case Active => Ok(Data.Active(ToBool(v)))
    case State => var s :- ToString(v); Ok(Data.State(s))
    case Details => var s :- ToString(v); Ok(Data.Details(s))
    case Timestamp => var t :- DecodeTimestamp(v); Ok(Data.Timestamp(t))
    case FirstButton => var b :- DecodeButton(v); Ok(Data.FirstButton(b))
    case SecondButton => var b :- DecodeButton(v); Ok(Data.SecondButton(b))
    case LargeImage => var i :- DecodeImage(v); Ok(Data.LargeImage(i))
    case SmallImage => var i :- DecodeImage(v); Ok(Data.SmallImage(i))
  }

  /** A script value that decodes to `d`: the table form of every payload. */
  function Encode(d: Data): Value
  {
    match d
    case Active(a) => Bool(a)
    case State(s) => Str(s)
    case Details(s) => Str(s)
    case Timestamp(t) => Table([], OptIntField("start", t.start) + OptIntField("_end", t.end))
    case FirstButton(b) => Table([Str(b.text)], map["url" := Str(b.url)])
    case SecondButton(b) => Table([Str(b.text)], map["url" := Str(b.url)])
    case LargeImage(i) => ImageTable(i)
    case SmallImage(i) => ImageTable(i)
  }

  function OptIntField(key: string, n: Option<i64>): map<string, Value>
  {
    if n.Some? then map[key := Int(n.value)] else map[]
  }

  function ImageTable(i: Image): Value
  {
    Table([Str(i.asset)], if i.text.Some? then map["text" := Str(i.text.value)] else map[])
  }

  /** Every payload can be written in the script: decoding its table form gives it back. */
  lemma DecodeEncode(d: Data)
    ensures Decode(d.FieldTag(), Encode(d)) == Ok(d)
  {
    match d
    case Timestamp(t) =>
      var v := Encode(d);
      assert "start" != "_end";
      assert Field(v, "start") == if t.start.Some? then Int(t.start.value) else Nil;
      assert Field(v, "_end") == if t.end.Some? then Int(t.end.value) else Nil;
    case LargeImage(i) =>
      assert Field(Encode(d), "text") == if i.text.Some? then Str(i.text.value) else Nil;
    case SmallImage(i) =>
      assert Field(Encode(d), "text") == if i.text.Some? then Str(i.text.value) else Nil;
    case _ =>
  }

  /** The scalar forms are shorthands for table forms. */
  lemma ShorthandsAreTables(s: string, n: i64, fields: map<string, Value>)
    requires "text" !in fields && "start" !in fields && "_end" !in fields
    ensures DecodeImage(Str(s)) == DecodeImage(Table([Str(s)], fields))
    ensures DecodeButton(Str(s)) == DecodeButton(Table([Str(s)], fields["url" := Str(s)]))
    ensures DecodeTimestamp(Int(n)) == DecodeTimestamp(Table([], fields["start" := Int(n)]))
  {
    assert "start" != "_end";
  }
}
