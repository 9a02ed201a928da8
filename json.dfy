/**
 * JSON values as the routes read and write them (`results_json`, model replies, schemas),
 * JavaScript truthiness and property lookup on them, and the extraction of the JSON object
 * from a model reply with the regex `/\{[\s\S]*\}/`.
 */
module Json {
  import opened Wrappers
  import opened Text

  /** A JSON value.  Numbers are integers; objects are maps from key to value. */
  datatype Json =
    | JNull
    | JBool(b: bool)
    | JNum(n: int)
    | JStr(s: string)
    | JArr(items: seq<Json>)
    | JObj(fields: map<string, Json>)

  /** JavaScript truthiness: `null`, `false`, `0` and `''` are falsy; arrays and objects are not. */
  predicate Truthy(j: Json) {
    match j
    case JNull => false
    case JBool(b) => b
    case JNum(n) => n != 0
    case JStr(s) => s != []
    case _ => true
  }

  /** `j.key`: a property of an object, `None` standing for `undefined`. */
  function Get(j: Json, key: string): (r: Option<Json>)
    ensures r.Some? <==> j.JObj? && key in j.fields
  {
    if j.JObj? && key in j.fields then Some(j.fields[key]) else None
  }

  /** `a || b` where `a` may be `undefined`. */
  function OrElse(a: Option<Json>, b: Json): (r: Json)
    ensures a.Some? && Truthy(a.value) ==> r == a.value
    ensures !(a.Some? && Truthy(a.value)) ==> r == b
  {
    if a.Some? && Truthy(a.value) then a.value else b
  }

  /** An object from a list of key/value pairs; a later pair wins over an earlier one. */
  function Obj(pairs: seq<(string, Json)>): (r: Json)
    ensures r.JObj?
    ensures forall k | k in r.fields :: exists i | 0 <= i < |pairs| :: pairs[i].0 == k
  {
    if pairs == [] then JObj(map[])
    else
      var init := Obj(pairs[..|pairs| - 1]);
      var last := pairs[|pairs| - 1];
      JObj(init.fields[last.0 := last.1])
  }

  lemma {:induction false} ObjHasKey(pairs: seq<(string, Json)>, i: nat)
    requires i < |pairs|
    requires forall j | i < j < |pairs| :: pairs[j].0 != pairs[i].0
    ensures pairs[i].0 in Obj(pairs).fields && Obj(pairs).fields[pairs[i].0] == pairs[i].1
  {
    if i < |pairs| - 1 {
      ObjHasKey(pairs[..|pairs| - 1], i);
    }
  }

  // ---------------------------------------------------------------------------
  // contentText.match(/\{[\s\S]*\}/)
  // ---------------------------------------------------------------------------

  /** Some `{` is followed, somewhere later, by a `}`. */
  predicate HasBraceSpan(s: string) {
    exists i, j | 0 <= i < j < |s| :: s[i] == '{' && s[j] == '}'
  }

  /** The greedy match of `/\{[\s\S]*\}/`: from the first `{` to the last `}` of the text.
      Nothing makes the braces in between balance. */
  function BraceSpan(s: string): (r: Option<string>)
    ensures r.Some? <==> HasBraceSpan(s)
    ensures r.Some? ==> exists i | 0 <= i < |s| ::
      OccursAt(s, i, r.value) && '{' !in s[..i] && '}' !in s[i + |r.value|..]
    ensures r.Some? ==> |r.value| >= 2 && r.value[0] == '{' && r.value[|r.value| - 1] == '}'
  {
    var i := FirstOf(s, '{');
    var j := LastOf(s, '}');
    if i < j then
      assert s[i..j + 1][0] == s[i];
      var t := s[j + 1..];
      assert '}' !in t by {
        forall k | 0 <= k < |t| ensures t[k] != '}' {
          assert t[k] == s[j + 1 + k];
        }
      }
      assert OccursAt(s, i, s[i..j + 1]);
      Some(s[i..j + 1])
    else
      None
  }

  /** `JSON.parse` of a span that starts with `{` and ends with `}`: an object, or the error thrown. */
  type Parser = string -> Result<map<string, Json>, string>

  /** The match starts at the first `{` and ends at the last `}`, so a reply holding two objects
      yields one span covering both and whatever lies between them. */
  lemma SpanCoversBothObjects(a: string, x: string, b: string, y: string, c: string)
    requires '{' !in a && '}' !in c
    ensures BraceSpan(a + "{" + x + "}" + b + "{" + y + "}" + c)
         == Some("{" + x + "}" + b + "{" + y + "}")
  {
    var s := a + "{" + x + "}" + b + "{" + y + "}" + c;
    var i := FirstOf(s, '{');
    var j := LastOf(s, '}');
    assert s[|a|] == '{' && s[..|a|] == a;
    var e := |a| + |x| + |b| + |y| + 3;
    assert s[e] == '}' && s[e + 1..] == c;
    assert i == |a|;
    assert j == e;
    assert s[i..j + 1] == "{" + x + "}" + b + "{" + y + "}";
  }
}
