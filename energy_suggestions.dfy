/** The energy-suggestion panel: which part of the stored reply it shows
    (structured recommendations, formatted text, or the energy picker). */
module EnergySuggestions {
  import opened Wrappers
  import opened JsValue
  import opened TextFormat

  /** `energySuggestions.data || energySuggestions`. */
  function Body(es: Json): (r: Json)
    ensures TruthyOpt(Field(es, "data")) ==> Field(es, "data") == Some(r)
    ensures !TruthyOpt(Field(es, "data")) ==> r == es
  {
    if TruthyOpt(Field(es, "data")) then Field(es, "data").value else es
  }

  /** A truthy `recommendedTasks`, `energyTip` or `avoidTasks`. */
  predicate HasStructure(d: Json) {
    || TruthyOpt(Field(d, "recommendedTasks"))
    || TruthyOpt(Field(d, "energyTip"))
    || TruthyOpt(Field(d, "avoidTasks"))
  }

  /** `getStructuredData()`: the body, when the stored reply is truthy and its
      body carries one of the three structured fields. */
  function StructuredData(es: Json): (r: Option<Json>)
    ensures r.Some? <==> Truthy(es) && HasStructure(Body(es))
    ensures r.Some? ==> r.value == Body(es) && r.value.JObj?
  {
    if !Truthy(es) then None
    else if HasStructure(Body(es)) then Some(Body(es))
    else None
  }

  /** `getSuggestionText()`: nothing when the reply is falsy or structured;
      otherwise the first truthy of the reply itself (a string), its
      `suggestion`, its `data.suggestion`, its `data` (when a string, even
      an empty one), its `message` and its `data.message`. */
  function SuggestionText(es: Json): (r: Option<Json>)
    ensures !Truthy(es) || StructuredData(es).Some? ==> r.None?
    ensures PlainReply(es) && es.JStr? ==> r == Some(es)
    ensures PlainReply(es) && !es.JStr? ==> r == FirstText(es, TextSources(es))
    ensures r.Some? ==> Truthy(r.value) || r.value == JStr("")
    ensures r.Some? && !Truthy(r.value) ==> Field(es, "data") == Some(JStr(""))
  {
    var data := Field(es, "data");
    FirstTextOfSources(es);
    if !Truthy(es) || StructuredData(es).Some? then None
    else if es.JStr? then Some(es)
    else if TruthyOpt(Field(es, "suggestion")) then Field(es, "suggestion")
    else if TruthyOpt(FieldOpt(data, "suggestion")) then FieldOpt(data, "suggestion")
    else if data.Some? && data.value.JStr? then data
    else if TruthyOpt(Field(es, "message")) then Field(es, "message")
    else if TruthyOpt(FieldOpt(data, "message")) then FieldOpt(data, "message")
    else None
  }

  /** A truthy reply that is not structured: the panel looks for text in it. */
  predicate PlainReply(es: Json) {
    Truthy(es) && StructuredData(es).None?
  }

  /** The places `getSuggestionText` looks for text in an object reply, in
      order: `suggestion`, `data.suggestion`, `data` itself, `message` and
      `data.message`. */
  datatype TextSource = Suggestion | DataSuggestion | DataString | Message | DataMessage

  function TextSources(es: Json): seq<TextSource> {
    [Suggestion, DataSuggestion, DataString, Message, DataMessage]
  }

  /** What one place offers: a truthy value, or for `data` any string (its
      test is `typeof`, not truthiness). */
  function Offered(es: Json, src: TextSource): Option<Json> {
    var data := Field(es, "data");
    match src
    case Suggestion => if TruthyOpt(Field(es, "suggestion")) then Field(es, "suggestion") else None
    case DataSuggestion => if TruthyOpt(FieldOpt(data, "suggestion")) then FieldOpt(data, "suggestion") else None
    case DataString => if data.Some? && data.value.JStr? then data else None
    case Message => if TruthyOpt(Field(es, "message")) then Field(es, "message") else None
    case DataMessage => if TruthyOpt(FieldOpt(data, "message")) then FieldOpt(data, "message") else None
  }

  /** The first of the places that offers something, or nothing. */
  function FirstText(es: Json, srcs: seq<TextSource>): (r: Option<Json>)
    ensures r.None? <==> forall i :: 0 <= i < |srcs| ==> Offered(es, srcs[i]).None?
    ensures forall i :: (0 <= i < |srcs| && Offered(es, srcs[i]).Some?
                         && forall j :: 0 <= j < i ==> Offered(es, srcs[j]).None?) ==> r == Offered(es, srcs[i])
  {
    if srcs == [] then None
    else if Offered(es, srcs[0]).Some? then Offered(es, srcs[0])
    else
      assert forall i :: 1 <= i < |srcs| ==> srcs[i] == srcs[1..][i - 1];
      FirstText(es, srcs[1..])
  }

  /** The search through the five places, step by step. */
  lemma {:induction false} FirstTextOfSources(es: Json)
    ensures FirstText(es, TextSources(es)) ==
      if Offered(es, Suggestion).Some? then Offered(es, Suggestion)
      else if Offered(es, DataSuggestion).Some? then Offered(es, DataSuggestion)
      else if Offered(es, DataString).Some? then Offered(es, DataString)
      else if Offered(es, Message).Some? then Offered(es, Message)
      else Offered(es, DataMessage)
  {
    var srcs := TextSources(es);
    assert srcs[0] == Suggestion && srcs[1] == DataSuggestion && srcs[2] == DataString;
    assert srcs[3] == Message && srcs[4] == DataMessage && |srcs| == 5;
  }

  /** `hasData`: the panel has something to show (and offers Clear). */
  predicate HasData(es: Json) {
    StructuredData(es).Some? || TruthyOpt(SuggestionText(es))
  }

  /** `v.length > 0` on a truthy value: arrays and strings by their length;
      an object by a numeric or boolean `length` property (other values of
      that property are read as not positive). */
  predicate LengthPositive(v: Json) {
    match v
    case JArr(items) => items != []
    case JStr(str) => str != ""
    case JObj(_) =>
      var n := Field(v, "length");
      n.Some? && ((n.value.JNum? && n.value.n > 0) || n.value == JBool(true))
    case _ => false
  }

  /** How one list of `renderStructuredData` comes out: not shown, shown
      with its entries, or the TypeError its rendering throws. */
  datatype Listing = Unlisted | Listed(items: seq<Json>) | ListingTypeError

  /** `v && v.length > 0 && v.map(render)`: only an array has `map`; when
      `render` reads a property of each entry (`readsEntries`), a null entry
      throws as well. */
  function ListSection(v: Option<Json>, readsEntries: bool): (r: Listing)
    ensures r.Unlisted? <==> !(v.Some? && LengthPositive(v.value))
    ensures r.Listed? <==> v.Some? && v.value.JArr? && v.value.items != []
                           && !(readsEntries && JNull in v.value.items)
    ensures r.Listed? ==> v == Some(JArr(r.items))
  {
    if !(v.Some? && LengthPositive(v.value)) then Unlisted
    else if !v.value.JArr? || (readsEntries && JNull in v.value.items) then ListingTypeError
    else Listed(v.value.items)
  }

  /** What `renderStructuredData` shows: the tip when truthy, the recommended
      tasks (whose titles are read) and the tasks to avoid. */
  datatype StructuredView = StructuredView(tip: Option<Json>, recommended: Listing, avoid: Listing)

  function Sections(data: Json): (r: StructuredView)
    ensures r.tip.Some? <==> TruthyOpt(Field(data, "energyTip"))
    ensures r.tip.Some? ==> Field(data, "energyTip") == r.tip
    ensures r.recommended == ListSection(Field(data, "recommendedTasks"), true)
    ensures r.avoid == ListSection(Field(data, "avoidTasks"), false)
  {
    StructuredView(
      if TruthyOpt(Field(data, "energyTip")) then Field(data, "energyTip") else None,
      ListSection(Field(data, "recommendedTasks"), true),
      ListSection(Field(data, "avoidTasks"), false))
  }

  /** The structured view throws when one of its lists does. */
  predicate Throws(view: StructuredView) {
    view.recommended.ListingTypeError? || view.avoid.ListingTypeError?
  }

  /** A recommended list given as a non-empty string is not an array:
      `.map` throws. */
  lemma {:induction false} StringListThrows(str: string)
    requires str != ""
    ensures Throws(Sections(JObj(map["recommendedTasks" := JStr(str)])))
  {
    var d := JObj(map["recommendedTasks" := JStr(str)]);
    assert Field(d, "recommendedTasks") == Some(JStr(str));
  }

  /** The panel body: the energy picker (with its buttons' disabled state and
      the "add tasks first" hint), the structured sections, or the formatted
      suggestion text. */
  datatype Panel =
    | Picker(buttonsDisabled: bool, noTasksHint: bool)
    | StructuredPanel(view: StructuredView)
    | TextPanel(rendered: Rendered)

  function EnergyPanel(es: Json, isLoading: bool, taskCount: nat): (r: Panel)
    ensures r.Picker? <==> !HasData(es)
    ensures r.Picker? ==> (r.buttonsDisabled <==> isLoading || taskCount == 0)
    ensures r.Picker? ==> (r.noTasksHint <==> taskCount == 0)
    ensures r.StructuredPanel? <==> StructuredData(es).Some?
    ensures r.StructuredPanel? ==> r.view == Sections(StructuredData(es).value)
    ensures r.TextPanel? ==> r.rendered == FormatValue(SuggestionMarks, SuggestionText(es))
    ensures r.TextPanel? ==> !r.rendered.NotRendered?
    ensures r.TextPanel? ==> (r.rendered.TypeError? <==> !SuggestionText(es).value.JStr?)
  {
    if !HasData(es) then Picker(isLoading || taskCount == 0, taskCount == 0)
    else if StructuredData(es).Some? then StructuredPanel(Sections(StructuredData(es).value))
    else TextPanel(FormatValue(SuggestionMarks, SuggestionText(es)))
  }

  /** After `clearEnergySuggestions` the stored reply is null and the picker
      is back. */
  lemma {:induction false} ClearedShowsPicker(isLoading: bool, taskCount: nat)
    ensures EnergyPanel(JNull, isLoading, taskCount).Picker?
  {
  }

  /** A non-empty string reply is formatted as it stands. */
  lemma {:induction false} StringReplyIsFormatted(s: string, isLoading: bool, taskCount: nat)
    requires s != []
    ensures EnergyPanel(JStr(s), isLoading, taskCount) == TextPanel(Blocks(Format(SuggestionMarks, s).value))
  {
    assert StructuredData(JStr(s)).None?;
    assert SuggestionText(JStr(s)) == Some(JStr(s));
    assert FormatValue(SuggestionMarks, Some(JStr(s))) == Blocks(Format(SuggestionMarks, s).value);
  }

  /** Structured fields under `data` win over a `suggestion` text. */
  lemma {:induction false} StructureWinsOverText(es: Json, isLoading: bool, taskCount: nat)
    requires es.JObj? && "data" in es.fields && TruthyOpt(Field(es, "data"))
    requires HasStructure(es.fields["data"])
    ensures EnergyPanel(es, isLoading, taskCount) == StructuredPanel(Sections(es.fields["data"]))
    ensures SuggestionText(es).None?
  {
  }

  /** A reply `{ suggestion: s }` whose `data` is absent shows `s`, even when
      it also carries a message. */
  lemma {:induction false} SuggestionBeforeMessage(s: string, m: Json, isLoading: bool, taskCount: nat)
    requires s != []
    ensures
      var es := JObj(map["suggestion" := JStr(s), "message" := m]);
      EnergyPanel(es, isLoading, taskCount) == TextPanel(Blocks(Format(SuggestionMarks, s).value))
  {
    var es := JObj(map["suggestion" := JStr(s), "message" := m]);
    SuggestionReplyText(es, s, m);
    assert FormatValue(SuggestionMarks, Some(JStr(s))) == Blocks(Format(SuggestionMarks, s).value);
  }

  lemma {:induction false} SuggestionReplyText(es: Json, s: string, m: Json)
    requires s != [] && es == JObj(map["suggestion" := JStr(s), "message" := m])
    ensures StructuredData(es).None? && SuggestionText(es) == Some(JStr(s))
  {
    assert Field(es, "data").None? && Body(es) == es;
    assert Field(es, "recommendedTasks").None? && Field(es, "energyTip").None? && Field(es, "avoidTasks").None?;
    assert Field(es, "suggestion") == Some(JStr(s));
  }
}
