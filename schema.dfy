/** The `Journal` document schema: which documents the store accepts, and how
    the fields handed to `new Journal({...})` are cast and defaulted into the
    stored record. */
module JournalSchema {
  import opened Maybe
  import opened Text
  import opened Js

  const MaxTextLength := 500
  const SeverityNone := "none"
  const SeverityUrgent := "urgent"

  /** The `enum` of the `severity` path. */
  predicate AllowedSeverity(s: string) {
    s == SeverityNone || s == SeverityUrgent
  }

  /** The fields handed to the document constructor. `text` is always a
      string where the handlers build a document; the other fields are the
      values the handler read, `None` standing for `undefined`. */
  datatype Draft = Draft(
    text: string,
    mood: Option<JsValue>,
    reflection: Option<JsValue>,
    suggestions: seq<JsValue>,
    severity: Option<JsValue>,
    createdAt: Option<int>)

  /** A stored journal record: the store-assigned `id` (its `_id`), the cast
      field values, and `createdAt` as a timestamp. */
  datatype Entry = Entry(
    id: nat,
    text: string,
    mood: Option<string>,
    reflection: Option<string>,
    suggestions: seq<string>,
    severity: string,
    createdAt: int)

  datatype SchemaError = TextRequired | TextTooLong | NotAString(path: string) | SeverityNotInEnum

  /** What every stored record satisfies: `text` is present (non-empty) and at
      most 500 UTF-16 units long, and `severity` is one of the enum values. */
  predicate ValidEntry(e: Entry) {
    e.text != "" && Utf16Length(e.text) <= MaxTextLength && AllowedSeverity(e.severity)
  }

  /** The outcome of casting a value to a `String` path: `null` leaves the
      path empty, strings are kept, numbers and booleans become their text,
      arrays and plain objects are rejected. */
  datatype Cast = Missing | Text(s: string) | Uncastable

  predicate IsDigits(r: string) {
    forall i :: 0 <= i < |r| ==> '0' <= r[i] <= '9'
  }

  /** The number a string of decimal digits denotes. */
  function DigitsValue(r: string): nat
    requires IsDigits(r)
  {
    if r == [] then 0 else 10 * DigitsValue(r[..|r| - 1]) + (r[|r| - 1] as int - '0' as int)
  }

  /** Decimal digits of a natural number, without leading zeros: they denote
      the number. */
  function Digits(n: nat): (r: string)
    ensures |r| > 0 && IsDigits(r)
    ensures r[0] == '0' <==> n == 0
    ensures DigitsValue(r) == n
  {
    if n < 10 then [('0' as int + n) as char]
    else
      var d := Digits(n / 10);
      var r := d + [('0' as int + n % 10) as char];
      assert r[..|r| - 1] == d;
      r
  }

  /** JavaScript's text for an integer number: a minus sign for a negative
      one, then the digits of its magnitude. */
  function DecimalText(n: int): (r: string)
    ensures |r| > 0
    ensures r[0] == '-' <==> n < 0
    ensures n < 0 ==> IsDigits(r[1..]) && DigitsValue(r[1..]) == -n
    ensures n >= 0 ==> IsDigits(r) && DigitsValue(r) == n
  {
    if n < 0 then
      var d := Digits(-n);
      assert ("-" + d)[1..] == d;
      "-" + d
    else Digits(n)
  }

  function CastString(v: JsValue): (r: Cast)
    ensures v.JsString? ==> r == Text(v.s)
    ensures r.Missing? <==> v.JsNull?
    ensures r.Uncastable? <==> v.JsArray? || v.JsObject?
    ensures Truthy(v) && !r.Uncastable? ==> r.Text? && r.s != ""
  {
    match v
    case JsNull => Missing
    case JsBool(b) => Text(if b then "true" else "false")
    case JsNumber(n) => Text(DecimalText(n))
    case JsString(s) => Text(s)
    case JsArray(_) => Uncastable
    case JsObject(_) => Uncastable
  }

  /** Casting a field that may be `undefined`. */
  function CastField(o: Option<JsValue>): Cast {
    if o.None? then Missing else CastString(o.value)
  }

  /** The cast of a `[String]` path: every element must become a string. */
  function CastList(vs: seq<JsValue>): (r: Option<seq<string>>)
    ensures r.Some? <==> forall i :: 0 <= i < |vs| ==> CastString(vs[i]).Text?
    ensures r.Some? ==> |r.value| == |vs| && forall i :: 0 <= i < |vs| ==> CastString(vs[i]) == Text(r.value[i])
  {
    if vs == [] then Some([])
    else match CastString(vs[0])
      case Text(s) =>
        (match CastList(vs[1..])
         case Some(rest) => Some([s] + rest)
         case None => None)
      case _ => None
  }

  /** The `severity` path after its default: `"none"` when not supplied. */
  function SeverityCast(o: Option<JsValue>): Cast {
    if o.None? then Text(SeverityNone) else CastString(o.value)
  }

  /** The schema's constraints on a draft, path by path. */
  predicate Conforms(d: Draft) {
    && d.text != "" && Utf16Length(d.text) <= MaxTextLength
    && !CastField(d.mood).Uncastable?
    && !CastField(d.reflection).Uncastable?
    && (forall i :: 0 <= i < |d.suggestions| ==> CastString(d.suggestions[i]).Text?)
    && SeverityCast(d.severity).Text? && AllowedSeverity(SeverityCast(d.severity).s)
  }

  function OptionalText(c: Cast): Option<string>
    requires !c.Uncastable?
  {
    if c.Text? then Some(c.s) else None
  }

  /** `new Journal(d)` followed by validation: the record to be stored under
      `id` at time `now`, or the validation error. */
  function Create(d: Draft, id: nat, now: int): (r: Result<Entry, SchemaError>)
    ensures r.Ok? <==> Conforms(d)
    ensures r.Ok? ==> ValidEntry(r.value)
    ensures r.Ok? ==> r.value.id == id && r.value.text == d.text
    ensures r.Ok? ==> r.value.createdAt == (if d.createdAt.Some? then d.createdAt.value else now)
    ensures r.Ok? ==> CastField(d.mood) == (if r.value.mood.Some? then Text(r.value.mood.value) else Missing)
    ensures r.Ok? ==> CastField(d.reflection) == (if r.value.reflection.Some? then Text(r.value.reflection.value) else Missing)
    ensures r.Ok? ==> |r.value.suggestions| == |d.suggestions|
    ensures r.Ok? ==> forall i :: 0 <= i < |d.suggestions| ==> CastString(d.suggestions[i]) == Text(r.value.suggestions[i])
    ensures r.Ok? ==> SeverityCast(d.severity) == Text(r.value.severity)
  {
    if d.text == "" then Err(TextRequired)
    else if Utf16Length(d.text) > MaxTextLength then Err(TextTooLong)
    else
      var mood := CastField(d.mood);
      var reflection := CastField(d.reflection);
      var suggestions := CastList(d.suggestions);
      var severity := SeverityCast(d.severity);
      if mood.Uncastable? then Err(NotAString("mood"))
      else if reflection.Uncastable? then Err(NotAString("reflection"))
      else if suggestions.None? then Err(NotAString("suggestions"))
      else if !severity.Text? || !AllowedSeverity(severity.s) then Err(SeverityNotInEnum)
      else
        Ok(Entry(id, d.text, OptionalText(mood), OptionalText(reflection), suggestions.value,
                 severity.s, if d.createdAt.Some? then d.createdAt.value else now))
  }

  /** A severity that is supplied, casts to text, and is neither `"none"` nor
      `"urgent"` makes the document fail validation. */
  lemma OutOfEnumSeverityRejected(d: Draft, id: nat, now: int, v: JsValue)
    requires d.severity == Some(v)
    requires CastString(v).Text? && !AllowedSeverity(CastString(v).s)
    ensures Create(d, id, now).Err?
  {
  }

  /** A supplied severity that is truthy and neither of the two enum strings
      does not pass as a severity: strings outside the enum, numbers and
      `true` cast to text outside the enum, arrays and objects do not cast. */
  lemma TruthySeverityOutsideEnum(w: JsValue)
    requires Truthy(w) && w != JsString(SeverityNone) && w != JsString(SeverityUrgent)
    ensures !(SeverityCast(Some(w)).Text? && AllowedSeverity(SeverityCast(Some(w)).s))
  {
    if w.JsNumber? {
      var t := DecimalText(w.n);
      assert t[0] == '-' || '0' <= t[0] <= '9';
    }
  }

  /** A draft without a severity is stored with severity `"none"`, and one
      without a timestamp is stamped with the creation time. */
  lemma DefaultsApplied(d: Draft, id: nat, now: int)
    requires Conforms(d) && d.severity.None? && d.createdAt.None?
    ensures Create(d, id, now).Ok?
    ensures Create(d, id, now).value.severity == SeverityNone
    ensures Create(d, id, now).value.createdAt == now
  {
  }
}
