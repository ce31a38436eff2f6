/** INI value conversion of aiobp/config/conf.py: the strings ConfigParser reads are
    turned into lists or booleans according to the field annotations of the section's
    dataclass; everything else passes through. */
module Conf {
  import opened Builtins

  /** The classes a field annotation can name or be parameterised from. */
  datatype PyClass = ListClass | BoolClass | StrClass | IntClass | OtherClass(name: string)

  /** A dataclass field annotation. */
  datatype FieldType =
    | Plain(cls: PyClass)                               // list, bool, str, a class
    | Generic(origin: PyClass, args: seq<FieldType>)    // list[str], dict[str, int]
    | SpecialForm(form: string, args: seq<FieldType>)   // Annotated[...], Optional[...]

  /** The `t` parse_value receives: `types.get(k)`, so nothing for an unannotated key. */
  datatype Target = NoTarget | ClassTarget(cls: PyClass) | FormTarget(form: string)

  /** A configuration value: the string ConfigParser produced, a converted list or
      boolean, or any other Python value. */
  datatype ConfValue = Text(s: string) | Items(items: seq<string>) | Flag(b: bool) | Other(id: nat)

  /** `get_origin(v) or v`: a parameterised class reduces to its class, a typing special
      form to the form itself, a plain class to itself. */
  function OriginOf(a: FieldType): (t: Target)
    ensures t.ClassTarget? <==> a.Plain? || a.Generic?
    ensures a.Generic? ==> t == ClassTarget(a.origin)
    ensures a.Plain? ==> t == ClassTarget(a.cls)
  {
    match a
    case Plain(c) => ClassTarget(c)
    case Generic(origin, _) => ClassTarget(origin)
    case SpecialForm(form, _) => FormTarget(form)
  }

  /** The strings that read as True, after lower-casing. */
  const TrueWords: seq<string> := ["1", "true", "yes"]

  /** `[v.strip() for v in pieces]` */
  function StripAll(pieces: seq<string>): (r: seq<string>)
    ensures |r| == |pieces|
    ensures forall i :: 0 <= i < |r| ==> r[i] == Strip(pieces[i])
  {
    seq(|pieces|, i requires 0 <= i < |pieces| => Strip(pieces[i]))
  }

  /** parse_value(s, t) */
  function ParseValue(v: ConfValue, t: Target): (r: ConfValue)
    ensures !v.Text? ==> r == v
    ensures v.Text? && t == ClassTarget(ListClass) ==>
              && r.Items?
              && |r.items| == Count(v.s, ',') + 1
              && forall i :: 0 <= i < |r.items| ==> r.items[i] == Strip(Split(v.s, ',')[i])
    ensures v.Text? && t == ClassTarget(BoolClass) ==>
              r.Flag? && (r.b <==> Lower(v.s) == "1" || Lower(v.s) == "true" || Lower(v.s) == "yes")
    ensures v.Text? && t != ClassTarget(ListClass) && t != ClassTarget(BoolClass) ==> r == v
  {
    match v
    case Text(s) =>
      if t == ClassTarget(ListClass) then
        Items(StripAll(Split(s, ',')))
      else if t == ClassTarget(BoolClass) then Flag(Lower(s) in TrueWords)
      else v
    case _ => v
  }

  /** A list field reads back the items it was written from: joining trimmed,
      comma-free items with "," and converting gives exactly those items. */
  lemma ListRoundTrip(items: seq<string>)
    requires |items| > 0
    requires forall i :: 0 <= i < |items| ==> ',' !in items[i] && Trimmed(items[i])
    ensures ParseValue(Text(Join(items, ',')), ClassTarget(ListClass)) == Items(items)
  {
    SplitJoin(items, ',');
    var stripped := StripAll(items);
    assert forall i :: 0 <= i < |items| ==> stripped[i] == items[i];
    assert stripped == items;
  }

  /** The items of a list field are the comma-separated pieces of the string, each with
      its surrounding whitespace removed, and nothing of the string is lost between the
      pieces. */
  lemma ListPieces(s: string)
    ensures var pieces := Split(s, ',');
            && Join(pieces, ',') == s
            && ParseValue(Text(s), ClassTarget(ListClass)).items == StripAll(pieces)
  {
    JoinSplit(s, ',');
  }

  /** A bool field does not care about letter case. */
  lemma BoolCaseInsensitive(s: string)
    ensures ParseValue(Text(s), ClassTarget(BoolClass)) == ParseValue(Text(Lower(s)), ClassTarget(BoolClass))
  {
    LowerIdempotent(s);
  }

  /** The field types after origin reduction: `types` of ini_parser. */
  function Types(annotations: map<string, FieldType>): (types: map<string, Target>)
    ensures types.Keys == annotations.Keys
    ensures forall k :: k in annotations ==> types[k] == OriginOf(annotations[k])
  {
    map k | k in annotations :: OriginOf(annotations[k])
  }

  /** ini_parser(cls, data): every key of the data is kept and converted according to
      its field's annotation; a key without an annotation passes through unchanged. */
  function IniParser(annotations: map<string, FieldType>, data: map<string, ConfValue>): (r: map<string, ConfValue>)
    ensures r.Keys == data.Keys
    ensures forall k :: k in data && k !in annotations ==> r[k] == data[k]
    ensures forall k :: k in data && k in annotations ==> r[k] == ParseValue(data[k], OriginOf(annotations[k]))
  {
    var types := Types(annotations);
    map k | k in data :: ParseValue(data[k], if k in types then types[k] else NoTarget)
  }

  /** A parameterised list such as list[str] is split like a plain list, while a list
      under a typing form such as Annotated[list, ...] or Optional[list] is left a string. */
  lemma IniParserOrigins(annotations: map<string, FieldType>, data: map<string, ConfValue>, k: string, s: string)
    requires k in data && data[k] == Text(s) && k in annotations
    ensures annotations[k].Generic? && annotations[k].origin == ListClass ==>
              IniParser(annotations, data)[k] == ParseValue(Text(s), ClassTarget(ListClass))
    ensures annotations[k].SpecialForm? ==> IniParser(annotations, data)[k] == Text(s)
  {
  }
}
