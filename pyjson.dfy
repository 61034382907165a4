/**
 * A decoded JSON value as Python holds it after `response.json()`, and the Python
 * operations the provider applies to it: subscription `v[k]`, the membership test
 * `k in v`, `v.get(k, default)` and `str(v)`. Each operation says which exception it
 * raises on a value of the wrong kind, because the provider catches some of them and
 * not others.
 */
module PyJson {
  import opened Wrappers
  import opened PyCore

  /** `null`, booleans, integers, strings, arrays (`list`) and objects (`dict`, in
      the order the decoder read the members). */
  datatype Json =
    | JNull
    | JBool(b: bool)
    | JInt(i: int)
    | JStr(s: string)
    | JArr(items: seq<Json>)
    | JObj(fields: seq<(string, Json)>)

  /** A subscript: a string key or a non-negative list index. */
  datatype Key = Name(name: string) | Position(index: nat)

  /** The value a dict built from `fields` holds under `name`: a later member with the
      same name replaces an earlier one, as the decoder builds the dict member by member. */
  function Lookup(fields: seq<(string, Json)>, name: string): (r: Option<Json>)
    ensures r.None? <==> forall i :: 0 <= i < |fields| ==> fields[i].0 != name
    decreases |fields|
  {
    if fields == [] then None
    else if fields[|fields| - 1].0 == name then Some(fields[|fields| - 1].1)
    else Lookup(fields[..|fields| - 1], name)
  }

  /** On a hit, the value is that of the last member with the key: no member after it
      has the same name. */
  lemma {:induction false} LookupLastWins(fields: seq<(string, Json)>, name: string)
    requires Lookup(fields, name).Some?
    ensures exists i :: 0 <= i < |fields| && fields[i] == (name, Lookup(fields, name).value) &&
                        forall j :: i < j < |fields| ==> fields[j].0 != name
    decreases |fields|
  {
    var n := |fields| - 1;
    if fields[n].0 == name {
      assert fields[n] == (name, Lookup(fields, name).value);
    } else {
      var init := fields[..n];
      LookupLastWins(init, name);
      var i :| 0 <= i < |init| && init[i] == (name, Lookup(init, name).value) &&
               forall j :: i < j < |init| ==> init[j].0 != name;
      assert fields[i] == init[i];
      assert forall j :: i < j < |fields| ==> fields[j].0 != name by {
        forall j | i < j < |fields| ensures fields[j].0 != name {
          if j < n { assert fields[j] == init[j]; }
        }
      }
    }
  }

  /** `v[k]`: a dict looks the key up (an integer key is never present, since JSON
      keys are strings); a list or a string takes an integer index and refuses a string
      key; every other value is not subscriptable. */
  function Index(v: Json, k: Key): (r: PyResult<Json>)
    ensures r.Raise? ==> r.exc in {KeyError, IndexError, TypeError}
    ensures r.Raise? && r.exc == KeyError ==> v.JObj?
    ensures r.Raise? && r.exc == IndexError ==> (v.JArr? || v.JStr?) && k.Position?
    ensures r.Ok? ==> v.JObj? || v.JArr? || v.JStr?
  {
    match v
    case JObj(fields) =>
      if k.Name? && Lookup(fields, k.name).Some? then Ok(Lookup(fields, k.name).value)
      else Raise(KeyError)
    case JArr(items) =>
      if k.Name? then Raise(TypeError)
      else if k.index < |items| then Ok(items[k.index])
      else Raise(IndexError)
    case JStr(s) =>
      if k.Name? then Raise(TypeError)
      else if k.index < |s| then Ok(JStr([s[k.index]]))
      else Raise(IndexError)
    case _ => Raise(TypeError)
  }

  /** `v[k1][k2]...`: subscription applied left to right, stopping at the first
      exception. */
  function Path(v: Json, keys: seq<Key>): (r: PyResult<Json>)
    ensures r.Raise? ==> r.exc in {KeyError, IndexError, TypeError}
    ensures keys == [] ==> r == Ok(v)
    decreases |keys|
  {
    if keys == [] then Ok(v)
    else match Index(v, keys[0])
      case Ok(w) => Path(w, keys[1..])
      case Raise(e) => Raise(e)
  }

  /** `needle in v` for a string `needle`: a key of a dict, an element of a list,
      a substring of a string; numbers, booleans and `None` are not iterable. */
  function Contains(v: Json, needle: string): (r: PyResult<bool>)
    ensures r.Raise? <==> !(v.JObj? || v.JArr? || v.JStr?)
    ensures r.Raise? ==> r.exc == TypeError
    ensures v.JObj? ==> r == Ok(Lookup(v.fields, needle).Some?)
  {
    match v
    case JObj(fields) => Ok(Lookup(fields, needle).Some?)
    case JArr(items) => Ok(JStr(needle) in items)
    case JStr(s) => Ok(Occurs(needle, s))
    case _ => Raise(TypeError)
  }

  /** `v.get(name, default)`: only a dict has `get`. */
  function Get(v: Json, name: string, default: Json): (r: PyResult<Json>)
    ensures r.Raise? <==> !v.JObj?
    ensures r.Raise? ==> r.exc == AttributeError
  {
    match v
    case JObj(fields) => Ok(if Lookup(fields, name).Some? then Lookup(fields, name).value else default)
    case _ => Raise(AttributeError)
  }

  // ---------------------------------------------------------------------------
  // str() and repr()

  /** `str(v)`: a string is itself; every other value is shown as its `repr`. */
  function Str(v: Json): (r: string)
    ensures v.JStr? ==> r == v.s
    ensures !v.JStr? ==> |r| > 0
  {
    if v.JStr? then v.s else Repr(v)
  }

  /** `repr(v)` of the decoded value, as `str(list)` and `str(dict)` show their elements. */
  function Repr(v: Json): (r: string)
    ensures |r| > 0
    decreases v, 1
  {
    match v
    case JNull => "None"
    case JBool(b) => if b then "True" else "False"
    case JInt(i) => IntToStr(i)
    case JStr(s) => QuoteStr(s)
    case JArr(items) => "[" + ReprItems(v, 0) + "]"
    case JObj(fields) => "{" + ReprFields(v, 0) + "}"
  }

  /** The elements of the list `v` from position `i` on, separated by `", "`. */
  function ReprItems(v: Json, i: nat): string
    requires v.JArr? && i <= |v.items|
    decreases v, 0, |v.items| - i
  {
    if i == |v.items| then ""
    else Repr(v.items[i]) + (if i + 1 == |v.items| then "" else ", " + ReprItems(v, i + 1))
  }

  /** The members of the dict `v` from position `i` on, each as `'key': value`. */
  function ReprFields(v: Json, i: nat): string
    requires v.JObj? && i <= |v.fields|
    decreases v, 0, |v.fields| - i
  {
    if i == |v.fields| then ""
    else
      assert v.fields[i] in v.fields;
      QuoteStr(v.fields[i].0) + ": " + Repr(v.fields[i].1)
      + (if i + 1 == |v.fields| then "" else ", " + ReprFields(v, i + 1))
  }

  /** `repr(s)` of a string: single quotes unless the text holds a single quote and no
      double quote; the backslash, the chosen quote, newline, carriage return and tab are
      escaped. */
  function QuoteStr(s: string): string
  {
    var q := if '\'' in s && '"' !in s then '"' else '\'';
    [q] + Escape(s, q) + [q]
  }

  /** The characters `repr` writes with a backslash, given the chosen quote `q`. */
  predicate Special(c: char, q: char)
  {
    c == '\\' || c == q || c == '\n' || c == '\r' || c == '\t'
  }

  function Escape(s: string, q: char): (r: string)
    ensures |r| >= |s|
    decreases |s|
  {
    if s == [] then []
    else
      var c := s[0];
      var e := if c == '\\' then "\\\\"
               else if c == q then ['\\', q]
               else if c == '\n' then "\\n"
               else if c == '\r' then "\\r"
               else if c == '\t' then "\\t"
               else [c];
      e + Escape(s[1..], q)
  }

  /** Escaping is the identity exactly on the strings without a special character, and
      lengthens every other string. */
  lemma {:induction false} EscapeIdentityIff(s: string, q: char)
    ensures Escape(s, q) == s <==> forall i :: 0 <= i < |s| ==> !Special(s[i], q)
    ensures (exists i :: 0 <= i < |s| && Special(s[i], q)) ==> |Escape(s, q)| > |s|
    decreases |s|
  {
    if s != [] {
      EscapeIdentityIff(s[1..], q);
      assert forall i :: 1 <= i < |s| ==> s[i] == s[1..][i - 1];
      if Special(s[0], q) {
        assert |Escape(s, q)| > |s|;
      } else if exists i :: 0 <= i < |s| && Special(s[i], q) {
        var i :| 0 <= i < |s| && Special(s[i], q);
        assert Special(s[1..][i - 1], q);
      }
    }
  }

  /** `str()` of a string without special characters inside a list or dict shows it
      between single quotes, unchanged. */
  lemma QuotePlain(s: string)
    requires forall i :: 0 <= i < |s| ==> !Special(s[i], '\'')
    ensures Str(JArr([JStr(s)])) == "['" + s + "']"
  {
    assert '\'' !in s by {
      forall i | 0 <= i < |s| ensures s[i] != '\'' {
        assert !Special(s[i], '\'');
      }
    }
    EscapeIdentityIff(s, '\'');
    var v := JArr([JStr(s)]);
    assert ReprItems(v, 0) == QuoteStr(s) == "'" + s + "'";
  }

}
