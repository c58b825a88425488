/** Fields a model extracted are marked as such, and the mark is what guards acting on them. */
module Provenance {
  import opened Basics
  import opened Values
  import opened Workflows
  import opened Manifest
  import C = Compare

  // ----- The mark -----

  /** The field names a mark holds: a list of strings, or the strings of a list that was decoded from text. */
  function NamesIn(v: Value): (names: seq<string>)
  {
    match v
    case Texts(ss) => ss
    case List(items) => TextsIn(items)
    case _ => []
  }

  function TextsIn(items: seq<Value>): (names: seq<string>)
  {
    if items == [] then []
    else TextsIn(items[..|items| - 1]) + if items[|items| - 1].Text? then [items[|items| - 1].s] else []
  }

  function MarkedIn(ctx: Context): (names: seq<string>)
  {
    if MODEL_DERIVED_KEY in ctx then NamesIn(ctx[MODEL_DERIVED_KEY]) else []
  }

  /** Reading the mark, as both the injector and the guard do it. */
  method ProvenanceOf(ctx: Context) returns (names: seq<string>)
    ensures names == MarkedIn(ctx)
  {
    if MODEL_DERIVED_KEY !in ctx {
      return [];
    }
    match ctx[MODEL_DERIVED_KEY] {
      case Texts(ss) => names := ss;
      case List(items) =>
        names := [];
        for i := 0 to |items|
          invariant names == TextsIn(items[..i])
        {
          assert items[..i + 1][..i] == items[..i];
          if items[i].Text? {
            names := names + [items[i].s];
          }
        }
        assert items[..|items|] == items;
      case _ => names := [];
    }
  }

  ghost predicate Marked(ctx: Context, field: string)
  {
    field in MarkedIn(ctx)
  }

  /** The context's mark lists the field, as a list of strings or as a list decoded from text. */
  ghost predicate MarkLists(ctx: Context, field: string)
  {
    && "cee.model_derived" in ctx
    && match ctx["cee.model_derived"]
       case Texts(ss) => field in ss
       case List(items) => Text(field) in items
       case _ => false
  }

  lemma {:induction false} TextsAreIn(items: seq<Value>, field: string)
    ensures field in TextsIn(items) <==> Text(field) in items
    decreases |items|
  {
    if items != [] {
      var init, last := items[..|items| - 1], items[|items| - 1];
      assert items == init + [last];
      TextsAreIn(init, field);
    }
  }

  /** Reading the mark finds exactly the fields it lists. */
  lemma MarkedExactly(ctx: Context, field: string)
    ensures Marked(ctx, field) <==> MarkLists(ctx, field)
  {
    assert MODEL_DERIVED_KEY == "cee.model_derived";
    if MODEL_DERIVED_KEY in ctx && ctx[MODEL_DERIVED_KEY].List? {
      TextsAreIn(ctx[MODEL_DERIVED_KEY].items, field);
    }
  }

  // ----- Extraction -----

  datatype FieldType = FieldString | FieldFloat64 | FieldBool

  type Schema = map<string, FieldType>

  datatype Extracted = Payload(fields: Context) | ExtractorFailed(reason: string)

  type Extractor = string -> Extracted

  datatype Registration = Registration(schema: Schema, extractor: Extractor)

  datatype Complaint =
    | NoSchema(ref: string)
    | FromExtractor(reason: string)
    | MissingField(field: string)
    | WrongType(field: string)

  datatype ExtractionResult = ExtractionResult(success: bool, payload: Context, complaints: seq<Complaint>,
                                               modelDerived: seq<string>)

  predicate MatchesType(v: Value, wanted: FieldType)
  {
    match wanted
    case FieldString => v.Text?
    case FieldFloat64 => v.Number?
    case FieldBool => v.Bool?
  }

  /** What is wrong with one field of the payload. */
  function Complains(schema: Schema, payload: Context, field: string): Option<Complaint>
    requires field in schema
  {
    if field !in payload then Some(MissingField(field))
    else if !MatchesType(payload[field], schema[field]) then Some(WrongType(field))
    else None
  }

  /** The payload holds the field, with this type. */
  ghost predicate HasType(payload: Context, field: string, wanted: FieldType)
  {
    && field in payload && (wanted.FieldString? ==> payload[field].Text?)
    && (wanted.FieldFloat64? ==> payload[field].Number?) && (wanted.FieldBool? ==> payload[field].Bool?)
  }

  /** The complaint is about a field of the schema that the payload lacks, or holds with another type. */
  ghost predicate IsAbout(schema: Schema, payload: Context, c: Complaint)
  {
    || (c.MissingField? && c.field in schema && c.field !in payload)
    || (c.WrongType? && c.field in schema && c.field in payload && !HasType(payload, c.field, schema[c.field]))
  }

  lemma ComplainsExactly(schema: Schema, payload: Context, field: string)
    requires field in schema
    ensures var c := Complains(schema, payload, field);
            && (c.None? <==> HasType(payload, field, schema[field]))
            && forall d :: c == Some(d) <==> (d.MissingField? || d.WrongType?) && d.field == field
                                             && IsAbout(schema, payload, d)
  {
  }

  class Injector {
    var registrations: map<string, Registration>

    constructor ()
      ensures registrations == map[]
    {
      registrations := map[];
    }

    method RegisterSchema(ref: string, schema: Schema, extractor: Extractor)
      modifies this
      ensures registrations == old(registrations)[ref := Registration(schema, extractor)]
    {
      registrations := registrations[ref := Registration(schema, extractor)];
    }

    /** Succeeds exactly when every field of the schema is there with its type; then it hands on those fields and no
        others, and names every one of them as derived, each once, in order. */
    method Extract(ref: string, rawText: string) returns (r: ExtractionResult)
      ensures r.success <==>
                && ref in registrations && registrations[ref].extractor(rawText).Payload?
                && forall f :: f in registrations[ref].schema ==>
                     HasType(registrations[ref].extractor(rawText).fields, f, registrations[ref].schema[f])
      ensures r.success ==>
                && r.payload.Keys == registrations[ref].schema.Keys && r.complaints == []
                && (forall f :: f in r.payload ==> r.payload[f] == registrations[ref].extractor(rawText).fields[f])
                && C.Increasing(r.modelDerived) && (forall f :: f in r.modelDerived <==> f in r.payload)
      ensures !r.success ==> r.payload == map[] && r.modelDerived == [] && r.complaints != []
      ensures ref !in registrations ==> r.complaints == [NoSchema(ref)]
      ensures ref in registrations ==>
                match registrations[ref].extractor(rawText)
                case ExtractorFailed(reason) => r.complaints == [FromExtractor(reason)]
                case Payload(fields) => forall c :: c in r.complaints <==> IsAbout(registrations[ref].schema, fields, c)
    {
      if ref !in registrations {
        return ExtractionResult(false, map[], [NoSchema(ref)], []);
      }
      var reg := registrations[ref];
      var extracted := reg.extractor(rawText);
      if extracted.ExtractorFailed? {
        return ExtractionResult(false, map[], [FromExtractor(extracted.reason)], []);
      }
      var complaints: seq<Complaint>, clean: Context := [], map[];
      var left := reg.schema.Keys;
      while left != {}
        invariant left <= reg.schema.Keys
        invariant forall f :: f in clean <==>
                    f in reg.schema.Keys - left && Complains(reg.schema, extracted.fields, f).None?
        invariant forall f :: f in clean ==> f in extracted.fields && clean[f] == extracted.fields[f]
        invariant complaints == [] <==> forall f :: f in reg.schema.Keys - left ==>
                    Complains(reg.schema, extracted.fields, f).None?
        invariant forall c :: c in complaints <==>
                    IsAbout(reg.schema, extracted.fields, c) && c.field in reg.schema.Keys - left
      {
        hide IsAbout, HasType, Complains;
        var field :| field in left;
        ComplainsExactly(reg.schema, extracted.fields, field);
        left := left - {field};
        var complaint := Complains(reg.schema, extracted.fields, field);
        if complaint.Some? {
          complaints := complaints + [complaint.value];
        } else {
          clean := clean[field := extracted.fields[field]];
        }
      }
      if |complaints| > 0 {
        return ExtractionResult(false, map[], complaints, []);
      }
      assert clean.Keys == reg.schema.Keys;
      var derived := C.SortedKeys(clean.Keys);
      r := ExtractionResult(true, clean, [], derived);
    }
  }

  /** The base context with the extracted fields, and a mark that holds every name marked before or derived now. */
  method ContextFrom(base: Context, result: ExtractionResult) returns (ctx: Context)
    ensures ctx == WithMark(Merge(base, result.payload), MarkedIn(base) + result.modelDerived)
  {
    hide C.Increasing;
    ctx := Merge(base, result.payload);
    var existing := ProvenanceOf(base);
    var derived: set<string> := {};
    for i := 0 to |existing|
      invariant derived == set f | f in existing[..i]
    {
      derived := derived + {existing[i]};
    }
    for i := 0 to |result.modelDerived|
      invariant derived == set f | f in existing + result.modelDerived[..i]
    {
      derived := derived + {result.modelDerived[i]};
    }
    assert result.modelDerived[..|result.modelDerived|] == result.modelDerived;
    if derived == {} {
      NoNames(existing + result.modelDerived, derived);
      return ctx;
    }
    var names := C.SortedKeys(derived);
    SortedOnce(names, existing + result.modelDerived);
    ctx := ctx[MODEL_DERIVED_KEY := Texts(names)];
  }

  lemma NoNames(names: seq<string>, all: set<string>)
    requires all == set f | f in names
    ensures all == {} ==> names == []
  {
    assert names != [] ==> names[0] in all;
  }

  /** The names in order, each once. */
  ghost function Ordered(names: seq<string>): (sorted: seq<string>)
    ensures C.Increasing(sorted) && forall f :: f in sorted <==> f in names
  {
    OrderedExists(names);
    var sorted :| C.Increasing(sorted) && forall f :: f in sorted <==> f in names;
    sorted
  }

  lemma {:induction false} OrderedExists(names: seq<string>)
    ensures exists sorted :: C.Increasing(sorted) && forall f :: f in sorted <==> f in names
  {
    if names == [] {
      assert C.Increasing([]);
    } else {
      OrderedExists(names[1..]);
      var rest :| C.Increasing(rest) && forall f :: f in rest <==> f in names[1..];
      assert names == [names[0]] + names[1..];
      if names[0] !in rest {
        Insert(rest, names[0]);
        var sorted :| C.Increasing(sorted) && forall f :: f in sorted <==> f in rest || f == names[0];
        assert C.Increasing(sorted) && forall f :: f in sorted <==> f in names;
      } else {
        assert forall f :: f in rest <==> f in names;
      }
    }
  }

  lemma {:induction false} Insert(sorted: seq<string>, name: string)
    requires C.Increasing(sorted) && name !in sorted
    ensures exists longer :: C.Increasing(longer) && forall f :: f in longer <==> f in sorted || f == name
  {
    if sorted == [] {
      assert C.Increasing([name]);
    } else {
      var last := sorted[|sorted| - 1];
      C.LessIsTotal(last, name);
      if C.Less(last, name) {
        var longer := sorted + [name];
        forall i | 0 <= i < |sorted| ensures C.Less(sorted[i], name) {
          if i < |sorted| - 1 {
            C.LessIsTransitive(sorted[i], last, name);
          }
        }
        assert C.Increasing(longer);
      } else {
        var init := sorted[..|sorted| - 1];
        assert sorted == init + [last];
        Insert(init, name);
        var longer :| C.Increasing(longer) && forall f :: f in longer <==> f in init || f == name;
        forall f | f in longer ensures C.Less(f, last) {
          if f in init {
            var i :| 0 <= i < |init| && init[i] == f;
            assert sorted[i] == f;
          }
        }
        assert C.Increasing(longer + [last]);
      }
    }
  }

  lemma SortedOnce(sorted: seq<string>, names: seq<string>)
    requires C.Increasing(sorted) && forall f :: f in sorted <==> f in set g | g in names
    ensures sorted == Ordered(names)
  {
    C.IncreasingIsUnique(sorted, Ordered(names));
  }

  ghost function WithMark(ctx: Context, names: seq<string>): Context
  {
    if names == [] then ctx else ctx[MODEL_DERIVED_KEY := Texts(Ordered(names))]
  }

  /** After extraction exactly the names marked before and the ones derived now are marked, in order and each once,
      unless there are none; extracting again adds to them and loses nothing. */
  lemma MarksAddUp(base: Context, result: ExtractionResult)
    requires MarkedIn(base) + result.modelDerived != []
    ensures var ctx := WithMark(Merge(base, result.payload), MarkedIn(base) + result.modelDerived);
            && C.Increasing(MarkedIn(ctx))
            && (forall f :: Marked(ctx, f) <==> Marked(base, f) || f in result.modelDerived)
  {
  }

  // ----- The guard -----

  /** `std.require_verified`: refuses as soon as one of its fields is marked. */
  function RequireVerified(fields: seq<string>): Action
  {
    (ctx: Context) => if Guessed(fields, MarkedIn(ctx)) == [] then Output(map[])
                      else Failure(Refusing(Guessed(fields, MarkedIn(ctx))))
  }

  function Guessed(fields: seq<string>, marked: seq<string>): (guessed: seq<string>)
  {
    Select(fields, (f: string) => f in marked)
  }

  function Listed(names: seq<string>): string
  {
    if names == [] then ""
    else if |names| == 1 then names[0]
    else Listed(names[..|names| - 1]) + ", " + names[|names| - 1]
  }

  function Refusing(guessed: seq<string>): string
  {
    "refusing to act on model-derived " + Listed(guessed) + ": extracted values are not verified facts"
  }

  /** The names a parameter list holds, unless one of them is empty or no string. */
  function FieldNames(items: seq<Value>, i: nat, names: seq<string>): Option<seq<string>>
    requires i <= |items|
    decreases |items| - i
  {
    if i == |items| then Some(names)
    else if !items[i].Text? || items[i].s == "" then None
    else FieldNames(items, i + 1, names + [items[i].s])
  }

  lemma {:induction false} NamesParsed(items: seq<Value>, i: nat, names: seq<string>)
    requires i == |names| <= |items|
    requires forall j :: 0 <= j < i ==> items[j].Text? && items[j].s != "" && names[j] == items[j].s
    ensures var r := FieldNames(items, i, names);
            && (r.Some? <==> forall item :: item in items ==> item.Text? && item.s != "")
            && (r.Some? ==> |r.value| == |items|
                            && forall j :: 0 <= j < |items| ==> items[j].Text? && r.value[j] == items[j].s)
    decreases |items| - i
  {
    if i < |items| && items[i].Text? && items[i].s != "" {
      NamesParsed(items, i + 1, names + [items[i].s]);
    }
  }

  function RequireVerifiedFactory(params: Context): Made
  {
    if "fields" !in params then Misconfigured("std.require_verified requires a 'fields' array")
    else if !params["fields"].List? || params["fields"].items == [] then
      Misconfigured("std.require_verified 'fields' must be a non-empty array")
    else
      match FieldNames(params["fields"].items, 0, [])
      case None => Misconfigured("std.require_verified 'fields' must contain non-empty strings")
      case Some(names) => Made(RequireVerified(names))
  }

  /** The guard lets an action pass, adding nothing, exactly when the mark lists none of its fields; otherwise it fails
      and names the fields that are listed. */
  lemma GuardExactly(fields: seq<string>, ctx: Context)
    ensures RequireVerified(fields)(ctx).Output? <==> forall f :: f in fields ==> !Marked(ctx, f)
    ensures var r := RequireVerified(fields)(ctx);
            if forall f :: f in fields ==> !MarkLists(ctx, f) then r == Output(map[])
            else exists guessed :: r == Failure(Refusing(guessed))
                                   && forall f :: f in guessed <==> f in fields && MarkLists(ctx, f)
  {
    forall f ensures Marked(ctx, f) <==> MarkLists(ctx, f) {
      MarkedExactly(ctx, f);
    }
    var marked := MarkedIn(ctx);
    forall f ensures f in Guessed(fields, marked) <==> f in fields && f in marked {
      SelectHas(fields, (g: string) => g in marked, f);
    }
    assert Guessed(fields, marked) != [] ==> Guessed(fields, marked)[0] in Guessed(fields, marked);
  }

  /** The guard's parameters are parsed as the loop of its factory does it. */
  method ParseFields(items: seq<Value>) returns (fields: Option<seq<string>>)
    ensures fields == FieldNames(items, 0, [])
    ensures fields.Some? <==> forall i :: 0 <= i < |items| ==> items[i].Text? && items[i].s != ""
    ensures fields.Some? ==> |fields.value| == |items| && forall i :: 0 <= i < |items| ==> fields.value[i] == items[i].s
  {
    var names: seq<string> := [];
    for i := 0 to |items|
      invariant FieldNames(items, 0, []) == FieldNames(items, i, names)
      invariant |names| == i && forall j :: 0 <= j < i ==> items[j].Text? && items[j].s != "" && names[j] == items[j].s
    {
      if !items[i].Text? || items[i].s == "" {
        return None;
      }
      names := names + [items[i].s];
    }
    fields := Some(names);
  }
}
