/** The standard actions a manifest can name without any code, and which of them can touch the mark on extracted fields.
    */
module StdLib {
  import opened Basics
  import opened Values
  import opened Workflows
  import opened Manifest
  import opened Provenance

  // ----- Comparing -----

  /** How a comparison comes out; `Blows` is the runtime panic of comparing two maps or two lists. */
  datatype Verdict = Holds(yes: bool) | NotComparable(reason: string) | Blows(value: string)

  predicate ValidOp(op: string)
  {
    op in {"eq", "neq", "gt", "gte", "lt", "lte", "in"}
  }

  /** Maps and lists, of either kind, have no built-in equality. */
  predicate Uncomparable(v: Value)
  {
    v.Object? || v.List? || v.Texts?
  }

  predicate SameUncomparable(a: Value, b: Value)
  {
    (a.Object? && b.Object?) || (a.List? && b.List?) || (a.Texts? && b.Texts?)
  }

  function TypeName(v: Value): string
    requires Uncomparable(v)
  {
    if v.Object? then "map[string]interface {}" else if v.List? then "[]interface {}" else "[]string"
  }

  function Blowing(v: Value): Verdict
    requires Uncomparable(v)
  {
    Blows("runtime error: comparing uncomparable type " + TypeName(v))
  }

  /** Numbers compare as numbers, and values of different types are different; two maps, two lists or two lists of
      strings cannot be compared, not even with themselves. */
  function Equals(a: Value, b: Value): (v: Verdict)
    ensures !v.NotComparable?
  {
    if SameUncomparable(a, b) then Blowing(a) else Holds(a == b)
  }

  /** Looking for a value item by item, until one is equal or cannot be compared. */
  function Among(got: Value, items: seq<Value>): (v: Verdict)
    ensures !v.NotComparable?
  {
    if items == [] then Holds(false)
    else
      var v := Equals(got, items[0]);
      if v.Blows? || v.yes then v else Among(got, items[1..])
  }

  /** A value that can be found is never compared with one that cannot be compared with it. */
  lemma {:induction false} AmongMeans(got: Value, items: seq<Value>)
    ensures Among(got, items)
         == if exists item :: item in items && SameUncomparable(got, item) then Blowing(got) else Holds(got in items)
  {
    if items != [] {
      AmongMeans(got, items[1..]);
      assert forall item :: item in items <==> item == items[0] || item in items[1..];
    }
  }

  const NO_LIST := "op 'in' requires 'value' to be an array"

  function Compared(got: Value, op: string, want: Value): Verdict
  {
    if op == "eq" then Equals(got, want)
    else if op == "neq" then Negated(Equals(got, want))
    else if op == "in" then
      if want.List? then Among(got, want.items) else NotComparable(NO_LIST)
    else Ordered(got, op, want)
  }

  function Ordered(got: Value, op: string, want: Value): Verdict
  {
    if op in {"gt", "gte", "lt", "lte"} then
      if got.Number? && want.Number? then
        Holds(if op == "gt" then got.n > want.n
              else if op == "gte" then got.n >= want.n
              else if op == "lt" then got.n < want.n
              else got.n <= want.n)
      else NotComparable("op " + op + " requires numeric operands")
    else NotComparable("unknown op " + op)
  }

  function Negated(v: Verdict): Verdict
  {
    if v.Holds? then Holds(!v.yes) else v
  }

  method OneOf(got: Value, items: seq<Value>) returns (v: Verdict)
    ensures v == Among(got, items)
  {
    hide Equals;
    for i := 0 to |items|
      invariant Among(got, items) == Among(got, items[i..])
    {
      assert items[i..][0] == items[i] && items[i..][1..] == items[i + 1..];
      var e := Equals(got, items[i]);
      if e.Blows? || e.yes {
        return e;
      }
    }
    v := Holds(false);
  }

  /** The comparison as it is made. */
  method Compare(got: Value, op: string, want: Value) returns (v: Verdict)
    ensures v == Compared(got, op, want)
  {
    hide Equals, Among, Ordered;
    if op == "eq" {
      v := Equals(got, want);
    } else if op == "neq" {
      v := Negated(Equals(got, want));
    } else if op != "in" {
      v := Ordered(got, op, want);
    } else if want.List? {
      v := OneOf(got, want.items);
    } else {
      v := NotComparable(NO_LIST);
    }
  }

  /** Whether some context can make the comparison come out at all. */
  predicate CanCompare(op: string, want: Value)
  {
    op in {"eq", "neq"} || (op == "in" && want.List?) || (op in {"gt", "gte", "lt", "lte"} && want.Number?)
  }

  lemma ComparesExactly(op: string, want: Value)
    ensures CanCompare(op, want) <==> exists got :: Compared(got, op, want).Holds?
  {
    if op == "in" && want.List? {
      AmongMeans(Null, want.items);
    }
    if CanCompare(op, want) {
      assert Compared(if want.Number? then want else Null, op, want).Holds?;
    }
  }

  /** Whether some context can make the comparison panic. */
  predicate CanBlow(op: string, want: Value)
  {
    || (op in {"eq", "neq"} && Uncomparable(want))
    || (op == "in" && want.List? && exists item :: item in want.items && Uncomparable(item))
  }

  lemma BlowsExactly(op: string, want: Value)
    ensures CanBlow(op, want) <==> exists got :: Compared(got, op, want).Blows?
  {
    hide Among;
    if op in {"eq", "neq"} && Uncomparable(want) {
      assert Compared(want, op, want).Blows?;
    } else if op == "in" && want.List? {
      forall got ensures Compared(got, op, want).Blows?
                         <==> exists item :: item in want.items && SameUncomparable(got, item) {
        AmongMeans(got, want.items);
      }
      if item :| item in want.items && Uncomparable(item) {
        assert SameUncomparable(item, item);
        assert Compared(item, op, want).Blows?;
      }
    }
  }

  // ----- Factories -----

  function TextParam(params: Context, name: string): Option<string>
  {
    if name in params && params[name].Text? && params[name].s != "" then Some(params[name].s) else None
  }

  datatype Comparison = Comparison(field: string, op: string, want: Value) | BadComparison(reason: string)

  function ComparisonParams(action: string, params: Context): Comparison
  {
    var field, op := TextParam(params, "field"), TextParam(params, "op");
    if field.None? then BadComparison(action + " requires a non-empty 'field' string")
    else if op.None? || !ValidOp(op.value) then
      BadComparison(action + " requires 'op' to be one of eq/neq/gt/gte/lt/lte/in")
    else if "value" !in params then BadComparison(action + " requires a 'value'")
    else Comparison(field.value, op.value, params["value"])
  }

  function Lookup(ctx: Context, field: string): Value
  {
    if field in ctx then ctx[field] else Null
  }

  function SetFactory(params: Context): Made
  {
    if "fields" !in params then Misconfigured("std.set requires a 'fields' object")
    else if !params["fields"].Object? then Misconfigured("std.set 'fields' must be an object")
    else
      var fields := params["fields"].fields;
      Made((ctx: Context) => Output(fields))
  }

  function RequireFactory(params: Context): Made
  {
    match ComparisonParams("std.require", params)
    case BadComparison(reason) => Misconfigured(reason)
    case Comparison(field, op, want) =>
      Made((ctx: Context) =>
             match Compared(Lookup(ctx, field), op, want)
             case NotComparable(reason) => Failure(reason)
             case Blows(value) => Panic(value)
             case Holds(yes) => if yes then Output(map[]) else Failure("requirement not met: field " + field))
  }

  function RuleCheckFactory(params: Context): Made
  {
    match ComparisonParams("std.rule_check", params)
    case BadComparison(reason) => Misconfigured(reason)
    case Comparison(field, op, want) =>
      match TextParam(params, "result_field")
      case None => Misconfigured("std.rule_check requires a non-empty 'result_field' string")
      case Some(result) =>
        Made((ctx: Context) =>
               match Compared(Lookup(ctx, field), op, want)
               case NotComparable(reason) => Failure(reason)
               case Blows(value) => Panic(value)
               case Holds(yes) => Output(map[result := Bool(yes)]))
  }

  function SuspendFactory(params: Context): Made
  {
    match TextParam(params, "reason")
    case None => Misconfigured("std.suspend requires a non-empty 'reason' string")
    case Some(reason) =>
      var audience := if "audience" in params && params["audience"].Text? then params["audience"].s else "";
      Made((ctx: Context) => Suspended(reason, audience))
  }

  function Default(): Library
  {
    map["std.set" := SetFactory, "std.require" := RequireFactory, "std.rule_check" := RuleCheckFactory,
        "std.suspend" := SuspendFactory, "std.require_verified" := RequireVerifiedFactory]
  }

  // ----- What they decide -----

  /** The relation the operation names holds between the two. */
  ghost predicate Stands(got: Value, op: string, want: Value)
  {
    || (op == "eq" && got == want)
    || (op == "neq" && got != want)
    || (op == "in" && want.List? && got in want.items)
    || (got.Number? && want.Number?
        && ((op == "gt" && got.n > want.n) || (op == "gte" && got.n >= want.n)
            || (op == "lt" && got.n < want.n) || (op == "lte" && got.n <= want.n)))
  }

  /** The question has an answer: nothing is asked of things without equality, only a list is looked into, and only
      numbers are put in order. */
  ghost predicate Answerable(got: Value, op: string, want: Value)
  {
    && (op in {"eq", "neq"} ==> !SameUncomparable(got, want))
    && (op == "in" ==> want.List? && forall item :: item in want.items ==> !SameUncomparable(got, item))
    && (op in {"gt", "gte", "lt", "lte"} ==> got.Number? && want.Number?)
  }

  /** Two things without equality are compared. */
  ghost predicate Unequatable(got: Value, op: string, want: Value)
  {
    || (op in {"eq", "neq"} && SameUncomparable(got, want))
    || (op == "in" && want.List? && exists item :: item in want.items && SameUncomparable(got, item))
  }

  lemma ComparedMeans(got: Value, op: string, want: Value)
    requires ValidOp(op)
    ensures var v := Compared(got, op, want);
            && (v.Holds? <==> Answerable(got, op, want)) && (v.Holds? ==> (v.yes <==> Stands(got, op, want)))
            && (v.Blows? <==> Unequatable(got, op, want))
  {
    hide Among, Ordered, Equals;
    if op == "in" {
      if want.List? {
        AmongMeans(got, want.items);
      }
    } else if op in {"eq", "neq"} {
      EqualsMeans(got, want);
    } else {
      OrderedMeans(got, op, want);
    }
  }

  lemma EqualsMeans(got: Value, want: Value)
    ensures var v := Equals(got, want);
            (v.Blows? <==> SameUncomparable(got, want)) && (v.Holds? ==> (v.yes <==> got == want))
  {
  }

  lemma OrderedMeans(got: Value, op: string, want: Value)
    requires op in {"gt", "gte", "lt", "lte"}
    ensures var v := Ordered(got, op, want);
            && (v.Holds? <==> got.Number? && want.Number?) && !v.Blows?
            && (v.Holds? ==> (v.yes <==> Stands(got, op, want)))
  {
  }

  /** The parameters name a field, one of the seven operations and a value to compare with. */
  ghost predicate AsksComparison(params: Context)
  {
    && "field" in params && params["field"].Text? && params["field"].s != ""
    && "op" in params && params["op"].Text? && params["op"].s in {"eq", "neq", "gt", "gte", "lt", "lte", "in"}
    && "value" in params
  }

  lemma ComparisonAsked(action: string, params: Context)
    ensures var c := ComparisonParams(action, params);
            && (c.Comparison? <==> AsksComparison(params))
            && (c.Comparison? ==> c == Comparison(params["field"].s, params["op"].s, params["value"]) && ValidOp(c.op))
  {
  }

  /** The context's value of the field the parameters name, or null if it has none. */
  ghost function Compares(params: Context, ctx: Context): Value
    requires AsksComparison(params)
  {
    if params["field"].s in ctx then ctx[params["field"].s] else Null
  }

  /** `std.require` passes, adding nothing, exactly when the field stands in the named relation to the value; it panics
      exactly when two things without equality are compared, and otherwise fails. */
  lemma RequireDecides(params: Context, ctx: Context)
    ensures "std.require" in Default()
    ensures Default()["std.require"](params).Made? <==> AsksComparison(params)
    ensures AsksComparison(params) ==>
              var r, got := Default()["std.require"](params).action(ctx), Compares(params, ctx);
              var op, want := params["op"].s, params["value"];
              if Unequatable(got, op, want) then r.Panic?
              else if Answerable(got, op, want) && Stands(got, op, want) then r == Output(map[])
              else r.Failure?
  {
    hide Compared, ComparisonParams, Stands, Answerable, Unequatable;
    ComparisonAsked("std.require", params);
    if AsksComparison(params) {
      ComparedMeans(Compares(params, ctx), params["op"].s, params["value"]);
    }
  }

  /** `std.rule_check` writes one field, the one its parameters name: whether the field stands in the relation to the
      value. It fails where there is no answer and panics where `std.require` does. */
  lemma RuleCheckDecides(params: Context, ctx: Context)
    ensures "std.rule_check" in Default()
    ensures Default()["std.rule_check"](params).Made? <==>
              AsksComparison(params) && "result_field" in params && params["result_field"].Text?
              && params["result_field"].s != ""
    ensures Default()["std.rule_check"](params).Made? ==>
              var r, got := Default()["std.rule_check"](params).action(ctx), Compares(params, ctx);
              var op, want := params["op"].s, params["value"];
              if Unequatable(got, op, want) then r.Panic?
              else if Answerable(got, op, want) then
                r == Output(map[params["result_field"].s := Bool(Stands(got, op, want))])
              else r.Failure?
  {
    hide Compared, ComparisonParams, Stands, Answerable, Unequatable;
    ComparisonAsked("std.rule_check", params);
    if AsksComparison(params) {
      ComparedMeans(Compares(params, ctx), params["op"].s, params["value"]);
    }
  }

  /** `std.set` outputs exactly its fields, whatever the context; `std.suspend` asks to suspend for its reason and
      audience, and an audience that is no text counts as none. */
  lemma SetAndSuspendDecide(params: Context, ctx: Context)
    ensures "std.set" in Default() && "std.suspend" in Default()
    ensures Default()["std.set"](params).Made? <==> "fields" in params && params["fields"].Object?
    ensures Default()["std.set"](params).Made? ==>
              Default()["std.set"](params).action(ctx) == Output(params["fields"].fields)
    ensures Default()["std.suspend"](params).Made? <==>
              "reason" in params && params["reason"].Text? && params["reason"].s != ""
    ensures Default()["std.suspend"](params).Made? ==>
              exists audience :: Default()["std.suspend"](params).action(ctx) == Suspended(params["reason"].s, audience)
                && audience == if "audience" in params && params["audience"].Text? then params["audience"].s else ""
  {
  }

  /** `std.require_verified` passes, adding nothing, exactly when the mark lists none of the fields it names, and fails
      otherwise. */
  lemma RequireVerifiedDecides(params: Context, ctx: Context)
    ensures "std.require_verified" in Default()
    ensures Default()["std.require_verified"](params).Made? <==>
              && "fields" in params && params["fields"].List? && params["fields"].items != []
              && forall item :: item in params["fields"].items ==> item.Text? && item.s != ""
    ensures Default()["std.require_verified"](params).Made? ==>
              var r := Default()["std.require_verified"](params).action(ctx);
              if forall item :: item in params["fields"].items ==> !MarkLists(ctx, item.s) then r == Output(map[])
              else r.Failure?
  {
    if "fields" in params && params["fields"].List? {
      var items := params["fields"].items;
      NamesParsed(items, 0, []);
      if FieldNames(items, 0, []).Some? {
        var names := FieldNames(items, 0, []).value;
        GuardExactly(names, ctx);
        assert forall item :: item in items ==> exists k :: 0 <= k < |items| && items[k] == item && names[k] == item.s;
        assert forall name :: name in names ==> exists k :: 0 <= k < |items| && names[k] == name && items[k].s == name;
      }
    }
  }

  // ----- Who can panic -----

  /** The parameters make the action compare with something that has no built-in equality. */
  predicate CanPanic(action: string, params: Context)
  {
    && action in {"std.require", "std.rule_check"}
    && var c := ComparisonParams(action, params); c.Comparison? && CanBlow(c.op, c.want)
  }

  ghost predicate PanicsSomewhere(run: Action)
  {
    exists ctx :: run(ctx).Panic?
  }

  lemma ComparingPanics(action: string, params: Context)
    requires action in {"std.require", "std.rule_check"} && Default()[action](params).Made?
    ensures PanicsSomewhere(Default()[action](params).action) <==> CanPanic(action, params)
  {
    hide Compared, CanBlow;
    var run, c := Default()[action](params).action, ComparisonParams(action, params);
    BlowsExactly(c.op, c.want);
    forall ctx ensures run(ctx).Panic? <==> Compared(Lookup(ctx, c.field), c.op, c.want).Blows? {
    }
    if got :| Compared(got, c.op, c.want).Blows? {
      var ctx: Context := map[c.field := got];
      assert Lookup(ctx, c.field) == got;
      assert run(ctx).Panic?;
    }
  }

  lemma RequiringPanics(params: Context, ctx: Context)
    requires var c := ComparisonParams("std.require", params);
             c.Comparison? && Compared(Lookup(ctx, c.field), c.op, c.want).Blows?
    ensures RequireFactory(params).Made? && Default()["std.require"](params) == RequireFactory(params)
    ensures var c := ComparisonParams("std.require", params);
            RequireFactory(params).action(ctx) == Panic(Compared(Lookup(ctx, c.field), c.op, c.want).value)
  {
    hide Compared, ComparisonParams, Lookup;
  }

  /** A configured standard action panics on some context exactly when it is `std.require` or `std.rule_check` and
      compares for equality with a map or a list, or looks for the field in a list that holds a map or a list. */
  lemma StandardActionsPanicExactly(action: string, params: Context)
    requires action in Default() && Default()[action](params).Made?
    ensures PanicsSomewhere(Default()[action](params).action) <==> CanPanic(action, params)
  {
    if action in {"std.require", "std.rule_check"} {
      ComparingPanics(action, params);
    } else {
      assert action in {"std.set", "std.suspend", "std.require_verified"};
    }
  }

  // ----- Who can touch the mark -----

  /** The parameters make the action write the mark: `std.set` among its fields, `std.rule_check` as its result. */
  predicate WritesMark(action: string, params: Context)
  {
    || (action == "std.set" && "fields" in params && params["fields"].Object?
        && MODEL_DERIVED_KEY in params["fields"].fields)
    || (action == "std.rule_check" && TextParam(params, "result_field") == Some(MODEL_DERIVED_KEY)
        && ComparisonParams(action, params).Comparison?
        && CanCompare(ComparisonParams(action, params).op, ComparisonParams(action, params).want))
  }

  ghost predicate NeverWritesMark(run: Action)
  {
    forall ctx :: run(ctx).Output? ==> MODEL_DERIVED_KEY !in run(ctx).fields
  }

  lemma SetTouches(params: Context)
    requires SetFactory(params).Made?
    ensures NeverWritesMark(SetFactory(params).action) <==> !WritesMark("std.set", params)
  {
    var run := SetFactory(params).action;
    assert run(map[]).Output? && run(map[]).fields == params["fields"].fields;
  }

  lemma RuleCheckTouches(params: Context)
    requires RuleCheckFactory(params).Made?
    ensures NeverWritesMark(RuleCheckFactory(params).action) <==> !WritesMark("std.rule_check", params)
  {
    var run, c := RuleCheckFactory(params).action, ComparisonParams("std.rule_check", params);
    ComparesExactly(c.op, c.want);
    var result := TextParam(params, "result_field").value;
    if WritesMark("std.rule_check", params) {
      var got :| Compared(got, c.op, c.want).Holds?;
      var ctx := map[c.field := got];
      assert run(ctx) == Output(map[result := Bool(Compared(got, c.op, c.want).yes)]);
    } else {
      forall ctx | run(ctx).Output? ensures MODEL_DERIVED_KEY !in run(ctx).fields {
        assert Compared(Lookup(ctx, c.field), c.op, c.want).Holds?;
        assert run(ctx).fields.Keys == {result};
      }
    }
  }

  /** A configured standard action can write the mark exactly when its parameters say so. */
  lemma StandardActionsTouchTheMarkExactly(action: string, params: Context)
    requires action in Default() && Default()[action](params).Made?
    ensures NeverWritesMark(Default()[action](params).action) <==> !WritesMark(action, params)
  {
    if action == "std.set" {
      SetTouches(params);
    } else if action == "std.rule_check" {
      RuleCheckTouches(params);
    } else if action == "std.require_verified" {
      VerifiedTouches(params);
    } else {
      assert action == "std.require" || action == "std.suspend";
    }
  }

  lemma VerifiedTouches(params: Context)
    requires RequireVerifiedFactory(params).Made?
    ensures NeverWritesMark(RequireVerifiedFactory(params).action)
  {
  }
}
