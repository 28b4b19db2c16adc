/** Decoded JSON (and YAML) values as the Python code sees them after
    `json.loads` / `yaml.safe_load`, with Python's truthiness and `str()`. */
module Json {
  import opened Wrappers
  import opened Text

  datatype Json =
    | JNull
    | JBool(b: bool)
    | JInt(i: int)
    | JFloat(r: real)
    | JStr(s: string)
    | JArr(items: seq<Json>)
    | JObj(fields: map<string, Json>)

  /** A Python `dict` with string keys. */
  type Dict = map<string, Json>

  /** Python's truth value: `None`, `False`, zero and empty containers are false. */
  predicate Truthy(j: Json) {
    match j
    case JNull => false
    case JBool(b) => b
    case JInt(i) => i != 0
    case JFloat(r) => r != 0.0
    case JStr(s) => s != ""
    case JArr(xs) => xs != []
    case JObj(m) => m != map[]
  }

  /** `d.get(key, default)`. */
  function Get(d: Dict, key: string, default: Json): (r: Json)
    ensures key in d ==> r == d[key]
    ensures key !in d ==> r == default
  {
    if key in d then d[key] else default
  }

  /** Lists and dicts cannot be hashed, so using one as a dict key raises `TypeError`. */
  predicate Hashable(j: Json) {
    !j.JArr? && !j.JObj?
  }

  /** `str(j)`. Exact for None, booleans, integers, strings and lists of those
      (strings inside a list are quoted without escaping); a float with a
      fractional part or a dict is rendered by a placeholder. */
  function PyStr(j: Json): (r: string)
    decreases j, 0
  {
    match j
    case JNull => "None"
    case JBool(b) => if b then "True" else "False"
    case JInt(i) => IntToString(i)
    case JFloat(r) => if r == r.Floor as real then IntToString(r.Floor) + ".0" else "<float>"
    case JStr(s) => s
    case JArr(xs) => "[" + JoinWith(", ", seq(|xs|, k requires 0 <= k < |xs| => PyRepr(xs[k]))) + "]"
    case JObj(_) => "{...}"
  }

  /** `repr(j)` as it appears inside the text of a list. */
  function PyRepr(j: Json): string
    decreases j, 1
  {
    match j
    case JStr(s) => "'" + s + "'"
    case _ => PyStr(j)
  }

  /** A list of strings as a JSON array. */
  function StrArray(xs: seq<string>): (r: Json)
    ensures r.JArr? && |r.items| == |xs|
    ensures forall k :: 0 <= k < |xs| ==> r.items[k] == JStr(xs[k])
  {
    JArr(seq(|xs|, k requires 0 <= k < |xs| => JStr(xs[k])))
  }

  // ---------------------------------------------------------------------
  // Building a dict entry by entry, as successive `d[k] = v` assignments do

  /** The dict that assigning each present entry in turn builds: a later entry with the
      same key overwrites an earlier one, an absent entry assigns nothing. */
  function Assemble(entries: seq<(string, Option<Json>)>): Dict
    decreases |entries|
  {
    if entries == [] then map[]
    else
      var last := entries[|entries| - 1];
      var before := Assemble(entries[..|entries| - 1]);
      if last.1.Some? then before[last.0 := last.1.value] else before
  }

  /** Every key of the assembled dict comes from its last present entry. */
  lemma {:induction false} AssembleLookup(entries: seq<(string, Option<Json>)>, k: string)
    requires k in Assemble(entries)
    ensures exists i :: (0 <= i < |entries| && entries[i].0 == k && entries[i].1 == Some(Assemble(entries)[k]) &&
                         forall j :: i < j < |entries| && entries[j].0 == k ==> entries[j].1.None?)
    decreases |entries|
  {
    var n := |entries|;
    var last := entries[n - 1];
    var init := entries[..n - 1];
    if last.1.Some? && last.0 == k {
      assert entries[n - 1].0 == k && entries[n - 1].1 == Some(Assemble(entries)[k]);
    } else {
      assert k in Assemble(init) && Assemble(entries)[k] == Assemble(init)[k];
      AssembleLookup(init, k);
      var i :| 0 <= i < |init| && init[i].0 == k && init[i].1 == Some(Assemble(init)[k]) &&
        forall j :: i < j < |init| && init[j].0 == k ==> init[j].1.None?;
      assert entries[i] == init[i];
      forall j | i < j < n && entries[j].0 == k
        ensures entries[j].1.None?
      {
        if j < n - 1 {
          assert entries[j] == init[j];
        }
      }
    }
  }

  /** A key with a present entry is in the assembled dict. */
  lemma {:induction false} AssembleHas(entries: seq<(string, Option<Json>)>, i: int)
    requires 0 <= i < |entries| && entries[i].1.Some?
    ensures entries[i].0 in Assemble(entries)
    decreases |entries|
  {
    var n := |entries|;
    if i < n - 1 {
      var init := entries[..n - 1];
      assert init[i] == entries[i];
      AssembleHas(init, i);
    }
  }

  /** A key without any present entry is not in the assembled dict. */
  lemma AssembleOnly(entries: seq<(string, Option<Json>)>, k: string)
    requires forall i :: 0 <= i < |entries| && entries[i].0 == k ==> entries[i].1.None?
    ensures k !in Assemble(entries)
  {
    if k in Assemble(entries) {
      AssembleLookup(entries, k);
    }
  }

  /** The value of the last present entry for a key is the value in the dict. */
  lemma AssembleLast(entries: seq<(string, Option<Json>)>, i: int)
    requires 0 <= i < |entries| && entries[i].1.Some?
    requires forall j :: i < j < |entries| ==> entries[j].0 != entries[i].0
    ensures entries[i].0 in Assemble(entries) && Assemble(entries)[entries[i].0] == entries[i].1.value
  {
    var k := entries[i].0;
    AssembleHas(entries, i);
    AssembleLookup(entries, k);
    var i' :| 0 <= i' < |entries| && entries[i'].0 == k && entries[i'].1 == Some(Assemble(entries)[k]) &&
      forall j :: i' < j < |entries| && entries[j].0 == k ==> entries[j].1.None?;
    assert i' == i;
  }

  // ---------------------------------------------------------------------
  // `d.update(u)`

  /** One element of a non-dict argument of `d.update`: a two-element list whose first
      element is a string, or a two-character string. */
  function UpdatePair(j: Json): Option<(string, Option<Json>)> {
    match j
    case JArr(xs) => if |xs| == 2 && xs[0].JStr? then Some((xs[0].s, Some(xs[1]))) else None
    case JStr(s) => if |s| == 2 then Some(([s[0]], Some(JStr([s[1]])))) else None
    case _ => None
  }

  function UpdatePairs(items: seq<Json>): Option<seq<(string, Option<Json>)>> {
    if items == [] then Some([])
    else match (UpdatePair(items[0]), UpdatePairs(items[1..]))
      case (Some(p), Some(ps)) => Some([p] + ps)
      case _ => None
  }

  /** Elements that are all pairs give the pairs in order. */
  lemma {:induction false} UpdatePairsAt(items: seq<Json>)
    requires forall j :: 0 <= j < |items| ==> UpdatePair(items[j]).Some?
    ensures UpdatePairs(items).Some? && |UpdatePairs(items).value| == |items|
    ensures forall j :: 0 <= j < |items| ==> UpdatePairs(items).value[j] == UpdatePair(items[j]).value
    decreases |items|
  {
    if items != [] {
      assert forall j :: 0 <= j < |items| - 1 ==> items[1..][j] == items[j + 1];
      UpdatePairsAt(items[1..]);
    }
  }

  /** A list of pairs merges the keys of its pairs and no other key. */
  lemma UpdateArgumentPairs(items: seq<Json>, k: string)
    requires forall j :: 0 <= j < |items| ==> UpdatePair(items[j]).Some?
    ensures UpdateArgument(JArr(items)).Success?
    ensures k in UpdateArgument(JArr(items)).value <==>
      exists j :: 0 <= j < |items| && UpdatePair(items[j]).value.0 == k
  {
    UpdatePairsAt(items);
    var ps := UpdatePairs(items).value;
    assert UpdateArgument(JArr(items)) == Success(Assemble(ps));
    if k in Assemble(ps) {
      AssembleLookup(ps, k);
      var i :| 0 <= i < |ps| && ps[i].0 == k && ps[i].1 == Some(Assemble(ps)[k]) &&
        forall j :: i < j < |ps| && ps[j].0 == k ==> ps[j].1.None?;
      assert UpdatePair(items[i]).value.0 == k;
    }
    if exists j :: 0 <= j < |items| && UpdatePair(items[j]).value.0 == k {
      var j :| 0 <= j < |items| && UpdatePair(items[j]).value.0 == k;
      AssembleHas(ps, j);
    }
  }

  /** In a list of pairs, the last pair for a key gives its value. */
  lemma UpdateArgumentLastPair(items: seq<Json>, i: int)
    requires forall j :: 0 <= j < |items| ==> UpdatePair(items[j]).Some?
    requires 0 <= i < |items|
    requires forall j :: i < j < |items| ==> UpdatePair(items[j]).value.0 != UpdatePair(items[i]).value.0
    ensures UpdateArgument(JArr(items)).Success?
    ensures UpdatePair(items[i]).value.0 in UpdateArgument(JArr(items)).value
    ensures UpdateArgument(JArr(items)).value[UpdatePair(items[i]).value.0] == UpdatePair(items[i]).value.1.value
  {
    UpdatePairsAt(items);
    var ps := UpdatePairs(items).value;
    assert UpdateArgument(JArr(items)) == Success(Assemble(ps));
    AssembleLast(ps, i);
  }

  /** What `d.update(u)` merges into `d`: a dict itself, or the pairs of a list, later
      pairs winning. Anything else makes `update` raise; the text says why. */
  function UpdateArgument(u: Json): (r: Result<Dict, string>)
    ensures u.JObj? ==> r == Success(u.fields)
    ensures !u.JObj? && !u.JArr? ==> r.Failure?
    ensures u == JArr([]) ==> r == Success(map[])
  {
    match u
    case JObj(m) => Success(m)
    case JArr(items) =>
      (match UpdatePairs(items)
       case Some(ps) => Success(Assemble(ps))
       case None => Failure("dictionary update sequence element is not a key/value pair"))
    case _ => Failure("dict.update argument is not a mapping or a sequence of pairs")
  }
}
