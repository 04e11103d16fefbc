/** The values `json.loads` produces, as far as the core inspects them:
    Python's `in` on the parsed value, `dict.get`, truthiness, and the
    conversion of a value into a worksheet cell. Floating-point numbers are
    not modelled; a JSON object is a dictionary, so a repeated key keeps its
    last value. */
module JsonValues {
  import opened Wrappers
  import Cells

  datatype Json =
    | JNull
    | JBool(b: bool)
    | JNumber(n: int)
    | JString(s: string)
    | JArray(items: seq<Json>)
    | JObject(fields: map<string, Json>)

  /** `bool(value)` in Python. */
  predicate Truthy(j: Json) {
    match j
    case JNull => false
    case JBool(b) => b
    case JNumber(n) => n != 0
    case JString(s) => s != ""
    case JArray(items) => items != []
    case JObject(fields) => fields != map[]
  }

  /** `sub` occurs in `s` at some position. */
  predicate IsSubstring(sub: string, s: string)
    decreases |s|
  {
    sub <= s || (|s| > 0 && IsSubstring(sub, s[1..]))
  }

  /** `sub` starts at position `i` of `s`. */
  predicate OccursAt(sub: string, s: string, i: int) {
    0 <= i <= |s| - |sub| && s[i..i + |sub|] == sub
  }

  /** `IsSubstring` is the existence of a position where `sub` starts. */
  lemma {:induction false} IsSubstringIff(sub: string, s: string)
    ensures IsSubstring(sub, s) <==> exists i :: OccursAt(sub, s, i)
  {
    if IsSubstring(sub, s) {
      SubstringOccurs(sub, s);
    }
    forall i | OccursAt(sub, s, i)
      ensures IsSubstring(sub, s)
    {
      OccurrenceIsSubstring(sub, s, i);
    }
  }

  lemma {:induction false} SubstringOccurs(sub: string, s: string)
    requires IsSubstring(sub, s)
    ensures exists i :: OccursAt(sub, s, i)
    decreases |s|
  {
    if sub <= s {
      assert OccursAt(sub, s, 0);
    } else {
      SubstringOccurs(sub, s[1..]);
      var i :| OccursAt(sub, s[1..], i);
      assert s[1..][i..i + |sub|] == s[i + 1..i + 1 + |sub|];
      assert OccursAt(sub, s, i + 1);
    }
  }

  lemma {:induction false} OccurrenceIsSubstring(sub: string, s: string, i: int)
    requires OccursAt(sub, s, i)
    ensures IsSubstring(sub, s)
    decreases i
  {
    if i == 0 {
      assert sub <= s;
    } else {
      assert s[1..][i - 1..i - 1 + |sub|] == s[i..i + |sub|];
      OccurrenceIsSubstring(sub, s[1..], i - 1);
    }
  }

  /** The values Python's `in` can look into. */
  predicate IsContainer(j: Json) {
    j.JObject? || j.JString? || j.JArray?
  }

  /** `key in container`: a key of a dictionary, a substring of a string or
      an element of a list (a string equals only a string); `None` where
      Python raises `TypeError` because the value is not iterable. */
  function Contains(container: Json, key: string): (r: Option<bool>)
    ensures r.None? <==> !IsContainer(container)
  {
    match container
    case JObject(fields) => Some(key in fields)
    case JString(s) => Some(IsSubstring(key, s))
    case JArray(items) => Some(JString(key) in items)
    case _ => None
  }

  /** `value.get(key, default)`: `None` where Python raises `AttributeError`
      because the value is not a dictionary. */
  function GetOr(j: Json, key: string, default: Json): (r: Option<Json>)
    ensures r.Some? <==> j.JObject?
    ensures j.JObject? && key in j.fields ==> r == Some(j.fields[key])
    ensures j.JObject? && key !in j.fields ==> r == Some(default)
  {
    match j
    case JObject(fields) => Some(if key in fields then fields[key] else default)
    case _ => None
  }

  /** The cell value openpyxl stores for a parsed value; `None` where it
      raises because a list or a dictionary cannot go into a cell. */
  function ToCell(j: Json): (r: Option<Cells.Value>)
    ensures r.None? <==> j.JArray? || j.JObject?
    ensures j.JString? ==> r == Some(Cells.Str(j.s))
  {
    match j
    case JNull => Some(Cells.Null)
    case JBool(b) => Some(Cells.Bool(b))
    case JNumber(n) => Some(Cells.Int(n))
    case JString(s) => Some(Cells.Str(s))
    case _ => None
  }
}
