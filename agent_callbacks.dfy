/** The helpers of the agent graph that work on JSON-like values: the schema clean-up of
    the Ollama adapter and the callbacks that update the session state between agents. */
module AgentCallbacks {
  import opened Wrappers
  import opened Text
  import opened Json
  import opened FileSystem
  import opened PathUtils
  import opened WordAmount

  // ---------------------------------------------------------------------
  // Schema clean-up

  /** `OllamaLlm._lower_types`: a string under a `"type"` key is lower-cased; every other
      value of a dict, and every item of a list, is cleaned up in turn. */
  function LowerTypes(j: Json): (r: Json)
    decreases j, 0
    ensures j.JObj? <==> r.JObj?
    ensures j.JObj? ==> r.fields.Keys == j.fields.Keys
    ensures j.JArr? <==> r.JArr?
    ensures j.JArr? ==> |r.items| == |j.items|
    ensures !j.JObj? && !j.JArr? ==> r == j
  {
    match j
    case JObj(m) => JObj(map k | k in m :: LowerField(k, m[k]))
    case JArr(xs) => JArr(seq(|xs|, i requires 0 <= i < |xs| => LowerTypes(xs[i])))
    case _ => j
  }

  /** The new value of field `k`. */
  function LowerField(k: string, v: Json): Json
    decreases v, 1
  {
    if k == "type" && v.JStr? then JStr(Lower(v.s)) else LowerTypes(v)
  }

  /** Every string under a `"type"` key, at any depth, is in lower case. */
  predicate TypesLowered(j: Json) {
    match j
    case JObj(m) =>
      forall k :: k in m ==> (if k == "type" && m[k].JStr? then Lower(m[k].s) == m[k].s else TypesLowered(m[k]))
    case JArr(xs) => forall i :: 0 <= i < |xs| ==> TypesLowered(xs[i])
    case _ => true
  }

  /** No dict at any depth has a `"type"` key. */
  predicate NoTypeKey(j: Json) {
    match j
    case JObj(m) => "type" !in m && forall k :: k in m ==> NoTypeKey(m[k])
    case JArr(xs) => forall i :: 0 <= i < |xs| ==> NoTypeKey(xs[i])
    case _ => true
  }

  lemma LowerIdempotent(s: string)
    ensures Lower(Lower(s)) == Lower(s)
  {
  }

  /** Items of a list are cleaned up one by one, in place. */
  lemma LowerTypesItem(xs: seq<Json>, i: int)
    requires 0 <= i < |xs|
    ensures LowerTypes(JArr(xs)).items[i] == LowerTypes(xs[i])
  {
  }

  /** Fields of a dict are cleaned up one by one, under the same key. */
  lemma LowerTypesField(m: map<string, Json>, k: string)
    requires k in m
    ensures LowerTypes(JObj(m)).fields[k] == LowerField(k, m[k])
  {
  }

  /** After the clean-up every `"type"` string is in lower case, at any depth. */
  lemma {:induction false} LowerTypesLowers(j: Json)
    ensures TypesLowered(LowerTypes(j))
  {
    match j
    case JObj(m) =>
      var r := LowerTypes(j).fields;
      forall k | k in r
        ensures if k == "type" && r[k].JStr? then Lower(r[k].s) == r[k].s else TypesLowered(r[k])
      {
        LowerTypesField(m, k);
        if k == "type" && m[k].JStr? {
          LowerIdempotent(m[k].s);
        } else {
          LowerTypesLowers(m[k]);
          if k == "type" {
            assert !r[k].JStr?;
          }
        }
      }
    case JArr(xs) =>
      var r := LowerTypes(j).items;
      forall i | 0 <= i < |r| ensures TypesLowered(r[i]) {
        LowerTypesItem(xs, i);
        LowerTypesLowers(xs[i]);
      }
    case _ =>
  }

  /** A value without `"type"` keys comes back unchanged. */
  lemma {:induction false} LowerTypesNoType(j: Json)
    requires NoTypeKey(j)
    ensures LowerTypes(j) == j
  {
    match j
    case JObj(m) =>
      var r := LowerTypes(j).fields;
      forall k | k in m ensures r[k] == m[k] {
        LowerTypesField(m, k);
        LowerTypesNoType(m[k]);
      }
      assert r == m;
    case JArr(xs) =>
      var r := LowerTypes(j).items;
      forall i | 0 <= i < |xs| ensures r[i] == xs[i] {
        LowerTypesItem(xs, i);
        LowerTypesNoType(xs[i]);
      }
      assert r == xs;
    case _ =>
  }

  /** Cleaning up twice is cleaning up once. */
  lemma {:induction false} LowerTypesIdempotent(j: Json)
    ensures LowerTypes(LowerTypes(j)) == LowerTypes(j)
  {
    match j
    case JObj(m) =>
      var once := LowerTypes(j).fields;
      var twice := LowerTypes(LowerTypes(j)).fields;
      forall k | k in once ensures twice[k] == once[k] {
        LowerTypesField(m, k);
        LowerTypesField(once, k);
        if k == "type" && m[k].JStr? {
          LowerIdempotent(m[k].s);
        } else {
          LowerTypesIdempotent(m[k]);
          if k == "type" {
            assert !once[k].JStr?;
          }
        }
      }
      assert twice == once;
    case JArr(xs) =>
      var once := LowerTypes(j).items;
      var twice := LowerTypes(LowerTypes(j)).items;
      forall i | 0 <= i < |once| ensures twice[i] == once[i] {
        LowerTypesItem(xs, i);
        LowerTypesItem(once, i);
        LowerTypesIdempotent(xs[i]);
      }
      assert twice == once;
    case _ =>
  }

  // ---------------------------------------------------------------------
  // Exceptions the callbacks can raise

  /** `KeyError(key)` for a missing key, `TypeError` for an operation on a value of the
      wrong type (its message is not modelled). */
  datatype Raised = KeyError(key: string) | TypeError

  /** `d[key]` on a Python value. */
  function Subscript(d: Json, key: string): Result<Json, Raised> {
    if !d.JObj? then Failure(TypeError)
    else if key !in d.fields then Failure(KeyError(key))
    else Success(d.fields[key])
  }

  // ---------------------------------------------------------------------
  // The article-discovery tool counter

  const CounterKey := "_article_discoverer_agent_tool_call_count"
  const StopKey := "_stop_tools"

  /** `x + 1`: numbers (and `bool`, an `int` in Python) add; anything else raises. */
  function PlusOne(x: Json): Result<Json, Raised> {
    match x
    case JInt(i) => Success(JInt(i + 1))
    case JBool(b) => Success(JInt((if b then 1 else 0) + 1))
    case JFloat(r) => Success(JFloat(r + 1.0))
    case _ => Failure(TypeError)
  }

  /** `x >= maxCalls` for the numbers `PlusOne` gives. */
  predicate AtLeast(x: Json, maxCalls: int) {
    match x
    case JInt(i) => i >= maxCalls
    case JFloat(r) => r >= maxCalls as real
    case _ => false
  }

  /** The state after `after_article_discovery_agent_tool`. */
  function ToolCalled(s: Dict, maxCalls: int): Result<Dict, Raised> {
    match PlusOne(Get(s, CounterKey, JInt(0)))
    case Failure(e) => Failure(e)
    case Success(n) =>
      var s1 := s[CounterKey := n];
      Success(if AtLeast(n, maxCalls) then s1[StopKey := JBool(true)] else s1)
  }

  /** The state after `n` tool calls, or the exception that stops them. */
  function ToolCalls(s: Dict, maxCalls: int, n: nat): Result<Dict, Raised> {
    if n == 0 then Success(s)
    else match ToolCalls(s, maxCalls, n - 1)
      case Failure(e) => Failure(e)
      case Success(s1) => ToolCalled(s1, maxCalls)
  }

  /** From a state without a counter, `n` calls leave the counter at `n`, raise the stop
      flag exactly when the `n`-th call reached the maximum, and change nothing else. */
  lemma {:induction false} ToolCallsCounted(s: Dict, maxCalls: int, n: nat)
    requires CounterKey !in s && StopKey !in s
    ensures ToolCalls(s, maxCalls, n).Success?
    ensures var r := ToolCalls(s, maxCalls, n).value;
      (n > 0 ==> CounterKey in r && r[CounterKey] == JInt(n)) &&
      (StopKey in r <==> n >= 1 && n >= maxCalls) &&
      (StopKey in r ==> r[StopKey] == JBool(true)) &&
      r.Keys <= s.Keys + {CounterKey, StopKey} &&
      (forall k :: k in s ==> k in r && r[k] == s[k])
  {
    if n > 0 {
      ToolCallsCounted(s, maxCalls, n - 1);
      var prev := ToolCalls(s, maxCalls, n - 1).value;
      assert Get(prev, CounterKey, JInt(0)) == JInt(n - 1) by {
        if n == 1 {
          assert prev == s;
        }
      }
      var r := ToolCalls(s, maxCalls, n).value;
      assert r == ToolCalled(prev, maxCalls).value;
      if n >= maxCalls {
        assert StopKey in r;
      }
    }
  }

  /** Once the stop flag is up it stays up, and the counter only grows. */
  lemma ToolCalledMonotone(s: Dict, maxCalls: int, c: int)
    requires CounterKey in s && s[CounterKey] == JInt(c)
    ensures ToolCalled(s, maxCalls).Success?
    ensures var r := ToolCalled(s, maxCalls).value;
      r[CounterKey] == JInt(c + 1) &&
      (StopKey in s && s[StopKey] == JBool(true) ==> StopKey in r && r[StopKey] == JBool(true)) &&
      (c + 1 >= maxCalls ==> StopKey in r && r[StopKey] == JBool(true))
  {
  }

  // ---------------------------------------------------------------------
  // The image drafts

  const DraftPromptsKey := "draft_prompts"
  const ToDownloadKey := "to_download"

  /** `for draft in xs`: a list gives its items; an empty dict or string gives nothing; any
      other dict or string gives keys or characters, which are strings, so the first
      `draft["id"]` raises `TypeError`; other values are not iterable. */
  function Drafts(xs: Json): Result<seq<Json>, Raised> {
    match xs
    case JArr(items) => Success(items)
    case JObj(m) => if m == map[] then Success([]) else Failure(TypeError)
    case JStr(s) => if s == "" then Success([]) else Failure(TypeError)
    case _ => Failure(TypeError)
  }

  /** `{"id": draft["id"], "prompt": draft["prompt"]}`. */
  function Projection(draft: Json): Result<Json, Raised> {
    match Subscript(draft, "id")
    case Failure(e) => Failure(e)
    case Success(id) =>
      match Subscript(draft, "prompt")
      case Failure(e) => Failure(e)
      case Success(prompt) => Success(JObj(map["id" := id, "prompt" := prompt]))
  }

  /** A draft that projects: a dict with an `id` and a `prompt`. */
  predicate WellFormed(draft: Json) {
    draft.JObj? && "id" in draft.fields && "prompt" in draft.fields
  }

  /** The projection of a draft known to be well formed. */
  function Prompt(draft: Json): Json
    requires WellFormed(draft)
  {
    JObj(map["id" := draft.fields["id"], "prompt" := draft.fields["prompt"]])
  }

  /** The new `draft_prompts`: every draft projected, in order. */
  function Projections(drafts: seq<Json>): Result<seq<Json>, Raised> {
    if drafts == [] then Success([])
    else match Projection(drafts[0])
      case Failure(e) => Failure(e)
      case Success(p) =>
        match Projections(drafts[1..])
        case Failure(e) => Failure(e)
        case Success(ps) => Success([p] + ps)
  }

  /** A well-formed draft that says whether it is real. */
  predicate Flagged(draft: Json) {
    WellFormed(draft) && "is_real" in draft.fields
  }

  /** `draft["is_real"] is True`: only the boolean `True`, not 1. */
  predicate IsReal(draft: Json)
    requires Flagged(draft)
  {
    draft.fields["is_real"] == JBool(true)
  }

  /** The new `to_download`: the real drafts projected, in order; the filter reads
      `is_real` before the projection. */
  function RealProjections(drafts: seq<Json>): Result<seq<Json>, Raised> {
    if drafts == [] then Success([])
    else
      var d := drafts[0];
      match Subscript(d, "is_real")
      case Failure(e) => Failure(e)
      case Success(flag) =>
        var head := if flag == JBool(true) then Projection(d) else Success(JNull);
        match head
        case Failure(e) => Failure(e)
        case Success(p) =>
          match RealProjections(drafts[1..])
          case Failure(e) => Failure(e)
          case Success(ps) => Success((if flag == JBool(true) then [p] else []) + ps)
  }

  /** The projection succeeds exactly when every draft is well formed, and then keeps the
      number and the order of the drafts, with only their `id` and `prompt`. */
  lemma {:induction false} ProjectionsMeaning(drafts: seq<Json>)
    ensures Projections(drafts).Success? <==> forall i :: 0 <= i < |drafts| ==> WellFormed(drafts[i])
    ensures Projections(drafts).Success? ==>
      |Projections(drafts).value| == |drafts| &&
      forall i :: 0 <= i < |drafts| ==> Projections(drafts).value[i] == Prompt(drafts[i])
  {
    if drafts != [] {
      ProjectionsMeaning(drafts[1..]);
      assert forall i :: 1 <= i < |drafts| ==> drafts[i] == drafts[1..][i - 1];
      if Projections(drafts).Success? {
        var ps := Projections(drafts[1..]).value;
        assert Projections(drafts).value == [Prompt(drafts[0])] + ps;
        forall i | 0 <= i < |drafts| ensures Projections(drafts).value[i] == Prompt(drafts[i]) {
          if i > 0 {
            ConsIndex(Prompt(drafts[0]), ps, i);
          }
        }
      }
    }
  }

  /** The drafts `to_download` keeps: indices of the drafts whose `is_real` is `True`. */
  predicate Keeps(drafts: seq<Json>, idx: seq<int>)
    requires forall i :: 0 <= i < |drafts| ==> Flagged(drafts[i])
  {
    (forall k :: 0 <= k < |idx| ==> 0 <= idx[k] < |drafts|) &&
    (forall k, l :: 0 <= k < l < |idx| ==> idx[k] < idx[l]) &&
    (forall i :: 0 <= i < |drafts| ==> (IsReal(drafts[i]) <==> i in idx))
  }

  /** With well-formed drafts that all say whether they are real, `to_download` is the
      projection of exactly the real ones, in their order. */
  lemma {:induction false} RealProjectionsMeaning(drafts: seq<Json>) returns (idx: seq<int>)
    requires forall i :: 0 <= i < |drafts| ==> Flagged(drafts[i])
    ensures RealProjections(drafts).Success?
    ensures Keeps(drafts, idx)
    ensures |RealProjections(drafts).value| == |idx|
    ensures forall k :: 0 <= k < |idx| ==> RealProjections(drafts).value[k] == Prompt(drafts[idx[k]])
  {
    if drafts == [] {
      return [];
    }
    var rest := RealProjectionsMeaning(drafts[1..]);
    var shifted := ShiftIndices(drafts, rest);
    var ps := RealProjections(drafts[1..]).value;
    RealProjectionsCons(drafts);
    if IsReal(drafts[0]) {
      idx := KeepHead(drafts, shifted, ps);
    } else {
      SkipHead(drafts, shifted, ps);
      idx := shifted;
    }
  }

  /** A head draft that is not real is skipped: the tail's kept drafts are all there is. */
  lemma SkipHead(drafts: seq<Json>, shifted: seq<int>, ps: seq<Json>)
    requires |drafts| > 0 && forall i :: 0 <= i < |drafts| ==> Flagged(drafts[i])
    requires !IsReal(drafts[0]) && 0 !in shifted
    requires forall k :: 0 <= k < |shifted| ==> 1 <= shifted[k] < |drafts|
    requires forall k, l :: 0 <= k < l < |shifted| ==> shifted[k] < shifted[l]
    requires forall i :: 0 < i < |drafts| ==> (IsReal(drafts[i]) <==> i in shifted)
    requires |ps| == |shifted| && forall k :: 0 <= k < |ps| ==> Flagged(drafts[shifted[k]]) && ps[k] == Prompt(drafts[shifted[k]])
    ensures Keeps(drafts, shifted)
    ensures forall k :: 0 <= k < |shifted| ==> ([] + ps)[k] == Prompt(drafts[shifted[k]])
  {
    assert [] + ps == ps;
  }

  /** A real head draft comes first, before the tail's kept drafts. */
  lemma KeepHead(drafts: seq<Json>, shifted: seq<int>, ps: seq<Json>) returns (idx: seq<int>)
    requires |drafts| > 0 && forall i :: 0 <= i < |drafts| ==> Flagged(drafts[i])
    requires IsReal(drafts[0])
    requires forall k :: 0 <= k < |shifted| ==> 1 <= shifted[k] < |drafts|
    requires forall k, l :: 0 <= k < l < |shifted| ==> shifted[k] < shifted[l]
    requires forall i :: 0 < i < |drafts| ==> (IsReal(drafts[i]) <==> i in shifted)
    requires |ps| == |shifted| && forall k :: 0 <= k < |ps| ==> Flagged(drafts[shifted[k]]) && ps[k] == Prompt(drafts[shifted[k]])
    ensures Keeps(drafts, idx) && |idx| == |ps| + 1
    ensures forall k :: 0 <= k < |idx| ==> ([Prompt(drafts[0])] + ps)[k] == Prompt(drafts[idx[k]])
  {
    idx := [0] + shifted;
    forall k | 0 <= k < |idx| ensures ([Prompt(drafts[0])] + ps)[k] == Prompt(drafts[idx[k]]) {
      if k > 0 {
        ConsIndex(Prompt(drafts[0]), ps, k);
        ConsIndex(0, shifted, k);
      }
    }
    forall k, l | 0 <= k < l < |idx| ensures idx[k] < idx[l] {
      ConsIndex(0, shifted, l);
      if k > 0 {
        ConsIndex(0, shifted, k);
      }
    }
    forall i | 0 <= i < |drafts| ensures IsReal(drafts[i]) <==> i in idx {
      assert i in idx <==> i == 0 || i in shifted;
    }
  }

  /** The first step of `to_download`: the head draft, when real, before the rest. */
  lemma RealProjectionsCons(drafts: seq<Json>)
    requires |drafts| > 0 && Flagged(drafts[0])
    requires RealProjections(drafts[1..]).Success?
    ensures RealProjections(drafts) ==
      Success((if IsReal(drafts[0]) then [Prompt(drafts[0])] else []) + RealProjections(drafts[1..]).value)
  {
  }

  /** The indices kept from the tail, counted from the head. */
  lemma ShiftIndices(drafts: seq<Json>, rest: seq<int>) returns (shifted: seq<int>)
    requires |drafts| > 0 && forall i :: 0 <= i < |drafts| ==> Flagged(drafts[i])
    requires Keeps(drafts[1..], rest)
    ensures |shifted| == |rest| && forall k :: 0 <= k < |rest| ==> shifted[k] == rest[k] + 1
    ensures forall k :: 0 <= k < |shifted| ==> 1 <= shifted[k] < |drafts|
    ensures forall k, l :: 0 <= k < l < |shifted| ==> shifted[k] < shifted[l]
    ensures forall i :: 0 < i < |drafts| ==> (IsReal(drafts[i]) <==> i in shifted)
    ensures 0 !in shifted
  {
    shifted := seq(|rest|, k requires 0 <= k < |rest| => rest[k] + 1);
    forall i | 0 < i < |drafts| ensures IsReal(drafts[i]) <==> i in shifted {
      assert drafts[i] == drafts[1..][i - 1];
      if i - 1 in rest {
        var k :| 0 <= k < |rest| && rest[k] == i - 1;
        assert shifted[k] == i;
      }
      if i in shifted {
        var k :| 0 <= k < |shifted| && shifted[k] == i;
        assert rest[k] == i - 1;
      }
    }
  }

  /** The projection of a draft does not depend on its `is_real` flag, so every entry of
      `to_download` is also in `draft_prompts`. */
  lemma ToDownloadAmongDraftPrompts(drafts: seq<Json>, p: Json)
    requires forall i :: 0 <= i < |drafts| ==> Flagged(drafts[i])
    requires RealProjections(drafts).Success? && p in RealProjections(drafts).value
    ensures Projections(drafts).Success? && p in Projections(drafts).value
  {
    var idx := RealProjectionsMeaning(drafts);
    ProjectionsMeaning(drafts);
    var k :| 0 <= k < |idx| && RealProjections(drafts).value[k] == p;
    assert Projections(drafts).value[idx[k]] == p;
  }

  /** What `after_scripts_generator_agent` does to the state: the two comprehensions are
      evaluated in turn, so an exception in the second leaves the first one's write. */
  function ScriptsGenerated(s: Dict): (Dict, Option<Raised>) {
    if DraftPromptsKey !in s then (s, Some(KeyError(DraftPromptsKey)))
    else
      match Subscript(s[DraftPromptsKey], "drafts")
      case Failure(e) => (s, Some(e))
      case Success(xs) =>
        match Drafts(xs)
        case Failure(e) => (s, Some(e))
        case Success(drafts) =>
          match Projections(drafts)
          case Failure(e) => (s, Some(e))
          case Success(ps) =>
            var s1 := s[DraftPromptsKey := JArr(ps)];
            match RealProjections(drafts)
            case Failure(e) => (s1, Some(e))
            case Success(rs) => (s1[ToDownloadKey := JArr(rs)], None)
  }

  /** A missing flag raises `KeyError` after `draft_prompts` was rewritten, and nothing
      is added under `to_download`. */
  lemma MissingFlagKeepsProjection(s: Dict, drafts: seq<Json>, i: int)
    requires DraftPromptsKey in s
    requires Subscript(s[DraftPromptsKey], "drafts") == Success(JArr(drafts))
    requires forall j :: 0 <= j < |drafts| ==> WellFormed(drafts[j])
    requires 0 <= i < |drafts| && !Flagged(drafts[i])
    requires forall j :: 0 <= j < i ==> Flagged(drafts[j])
    ensures ScriptsGenerated(s).1 == Some(KeyError("is_real"))
    ensures Projections(drafts).Success?
    ensures ScriptsGenerated(s).0 == s[DraftPromptsKey := JArr(Projections(drafts).value)]
  {
    ProjectionsMeaning(drafts);
    FirstMissingFlag(drafts, i);
  }

  lemma {:induction false} FirstMissingFlag(drafts: seq<Json>, i: int)
    requires forall j :: 0 <= j < |drafts| ==> WellFormed(drafts[j])
    requires 0 <= i < |drafts| && !Flagged(drafts[i])
    requires forall j :: 0 <= j < i ==> Flagged(drafts[j])
    ensures RealProjections(drafts) == Failure(KeyError("is_real"))
  {
    if i > 0 {
      assert forall j :: 0 <= j < i - 1 ==> drafts[1..][j] == drafts[j + 1];
      FirstMissingFlag(drafts[1..], i - 1);
    }
  }

  // ---------------------------------------------------------------------
  // The session state

  const ScriptInsightsKey := "script_insights"
  const WordsAmountKey := "words_amount"

  /** The session state the callbacks receive (`callback_context.state`). */
  class Session {
    var state: Dict

    constructor (initial: Dict)
      ensures state == initial
    {
      state := initial;
    }

    /** `after_article_discovery_agent_tool`; `maxCalls` is three times the number of the
        discovery agent's tools. */
    method AfterArticleDiscoveryTool(maxCalls: int) returns (raised: Option<Raised>)
      modifies this
      ensures ToolCalled(old(state), maxCalls).Success? ==>
        state == ToolCalled(old(state), maxCalls).value && raised == None
      ensures ToolCalled(old(state), maxCalls).Failure? ==>
        state == old(state) && raised == Some(ToolCalled(old(state), maxCalls).error)
    {
      var count := PlusOne(Get(state, CounterKey, JInt(0)));
      if count.Failure? {
        return Some(count.error);
      }
      state := state[CounterKey := count.value];
      if AtLeast(state[CounterKey], maxCalls) {
        state := state[StopKey := JBool(true)];
      }
      return None;
    }

    /** `after_scripts_generator_agent`. */
    method AfterScriptsGenerator() returns (raised: Option<Raised>)
      modifies this
      ensures (state, raised) == ScriptsGenerated(old(state))
    {
      if DraftPromptsKey !in state {
        return Some(KeyError(DraftPromptsKey));
      }
      var tmp := state[DraftPromptsKey];
      var xs := Subscript(tmp, "drafts");
      if xs.Failure? {
        return Some(xs.error);
      }
      var drafts := Drafts(xs.value);
      if drafts.Failure? {
        return Some(drafts.error);
      }
      var prompts := Projections(drafts.value);
      if prompts.Failure? {
        return Some(prompts.error);
      }
      state := state[DraftPromptsKey := JArr(prompts.value)];
      var reals := RealProjections(drafts.value);
      if reals.Failure? {
        return Some(reals.error);
      }
      state := state[ToDownloadKey := JArr(reals.value)];
      return None;
    }

    /** `after_insights_generator_agent`: the words the script needs for the duration the
        insights give; a failed computation has no `words_amount` and raises `KeyError`. */
    method AfterInsightsGenerator(fs: Fs, env: Env) returns (raised: Option<Raised>)
      modifies this
      ensures ScriptInsightsKey !in old(state) ==>
        raised == Some(KeyError(ScriptInsightsKey)) && state == old(state)
      ensures ScriptInsightsKey in old(state) && Subscript(old(state)[ScriptInsightsKey], "duration").Failure? ==>
        raised == Some(Subscript(old(state)[ScriptInsightsKey], "duration").error) && state == old(state)
      ensures ScriptInsightsKey in old(state) && Subscript(old(state)[ScriptInsightsKey], "duration").Success? ==>
        var d := Subscript(old(state)[ScriptInsightsKey], "duration").value;
          if !d.JInt? then raised == Some(TypeError) && state == old(state)
          else if IsFile(fs, SpeedFile(env)) && SpeedOf(ReadLines(fs[SpeedFile(env)].content)).Speed? then
            raised == None &&
            state == old(state)[WordsAmountKey := JInt(d.i * SpeedOf(ReadLines(fs[SpeedFile(env)].content)).v)]
          else raised == Some(KeyError(WordsAmountKey)) && state == old(state)
    {
      if ScriptInsightsKey !in state {
        return Some(KeyError(ScriptInsightsKey));
      }
      var duration := Subscript(state[ScriptInsightsKey], "duration");
      if duration.Failure? {
        return Some(duration.error);
      }
      if !duration.value.JInt? {
        return Some(TypeError);
      }
      var response := CalculateScriptWordAmount(fs, env, duration.value.i);
      if WordsAmountKey !in response {
        return Some(KeyError(WordsAmountKey));
      }
      state := state[WordsAmountKey := response[WordsAmountKey]];
      return None;
    }
  }
}
