/** Values carried in a workflow context, and the two ways the engine combines contexts. */
module Values {

  /** A context field. Equality is structural, as `reflect.DeepEqual` is on these shapes. */
  datatype Value =
    | Null
    | Bool(b: bool)
    | Number(n: real)
    | Text(s: string)
    | Texts(ss: seq<string>)
    | List(items: seq<Value>)
    | Object(fields: map<string, Value>)

  type Context = map<string, Value>

  /** One field two branches wrote different values to: who wrote it first, and what each of the two wrote. */
  datatype Rivals = Rivals(first: string, firstValue: Value, secondValue: Value)

  /** Both contexts together; the overlay wins where they differ. */
  function Merge(base: Context, overlay: Context): (out: Context)
    ensures out.Keys == base.Keys + overlay.Keys
    ensures forall k :: k in out ==> out[k] == if k in overlay then overlay[k] else base[k]
  {
    base + overlay
  }

  /** Every field of `news` is in the context with its new value, every other field has its old one. */
  ghost predicate Overlaid(before: Context, news: Context, after: Context)
  {
    && (forall k :: k in after <==> k in before || k in news)
    && (forall k :: k in news ==> after[k] == news[k])
    && (forall k :: k in before && k !in news ==> after[k] == before[k])
  }

  /** The fields of `after` that `before` lacks or holds with another value. */
  function Delta(before: Context, after: Context): (delta: Context)
    ensures forall k :: k in delta <==> k in after && (k !in before || before[k] != after[k])
    ensures forall k :: k in delta ==> delta[k] == after[k]
  {
    map k | k in after && (k !in before || before[k] != after[k]) :: after[k]
  }

  /** A context that kept every field is recovered from its delta. */
  lemma MergeOfDelta(before: Context, after: Context)
    ensures Merge(before, Delta(before, after)) == after <==> before.Keys <= after.Keys
  {
    var out := Merge(before, Delta(before, after));
    if before.Keys <= after.Keys {
      forall k | k in out ensures k in after && out[k] == after[k] {
      }
      assert out.Keys == after.Keys;
    } else {
      var k :| k in before.Keys && k !in after.Keys;
      assert k in out;
    }
  }
}
