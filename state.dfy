/** The persisted workflow state: the accumulated data, the step counter with a status
    per step, the turn counter and the append-only history of results. */
module State {
  import opened Wrappers
  import opened Text
  import opened Json

  const InProgress := "in_progress"
  const Completed := "completed"

  /** The six fields of a `WorkflowState` as one value. Step statuses are keyed by the
      step number; the file holds the number's decimal text. `lastResult` is `JNull` for `None`. */
  datatype Snapshot = Snapshot(
    data: Dict,
    currentStep: int,
    stepStatuses: map<int, string>,
    turn: int,
    lastResult: Json,
    history: seq<Json>)

  /** A new `WorkflowState()`. */
  function Initial(): Snapshot {
    Snapshot(map[], 1, map[1 := InProgress], 0, JNull, [])
  }

  /** `update(u)`: `data.update(u)`, later keys winning. */
  function Merged(s: Snapshot, updates: Dict): (r: Snapshot)
    ensures r.data.Keys == s.data.Keys + updates.Keys
    ensures forall k :: k in r.data ==> r.data[k] == if k in updates then updates[k] else s.data[k]
    ensures r.(data := s.data) == s
  {
    s.(data := s.data + updates)
  }

  /** `advance_step()`. */
  function Advanced(s: Snapshot): (r: Snapshot)
    ensures r.currentStep == s.currentStep + 1
    ensures r.stepStatuses.Keys == s.stepStatuses.Keys + {s.currentStep, s.currentStep + 1}
    ensures r.stepStatuses[s.currentStep] == Completed && r.stepStatuses[s.currentStep + 1] == InProgress
    ensures forall j :: j in s.stepStatuses && j != s.currentStep && j != s.currentStep + 1 ==>
      r.stepStatuses[j] == s.stepStatuses[j]
    ensures r.(currentStep := s.currentStep, stepStatuses := s.stepStatuses) == s
  {
    var k := s.currentStep;
    s.(stepStatuses := s.stepStatuses[k := Completed][k + 1 := InProgress], currentStep := k + 1)
  }

  /** The history entry `{"turn": t, "result": r}`. */
  function HistoryEntry(turn: int, result: Json): Json {
    JObj(map["turn" := JInt(turn), "result" := result])
  }

  /** `set_last_result(r)`. */
  function Recorded(s: Snapshot, result: Json): (r: Snapshot)
    ensures r.lastResult == result && r.turn == s.turn + 1
    ensures r.history == s.history + [HistoryEntry(s.turn, result)]
    ensures r.(lastResult := s.lastResult, turn := s.turn, history := s.history) == s
  {
    s.(lastResult := result, history := s.history + [HistoryEntry(s.turn, result)], turn := s.turn + 1)
  }

  // ---------------------------------------------------------------------
  // Step history

  lemma NoMemberEmpty(s: set<int>)
    ensures (forall y :: y !in s) ==> s == {}
  {
    if forall y :: y !in s {
      assert s == {};
    }
  }

  /** The smallest element of a non-empty finite set. */
  lemma {:induction false} SmallestOf(s: set<int>) returns (m: int)
    requires s != {}
    ensures m in s && forall y :: y in s ==> m <= y
    decreases |s|
  {
    NoMemberEmpty(s);
    var x :| x in s;
    var rest := s - {x};
    assert forall y :: y in s ==> y == x || y in rest;
    if rest == {} {
      m := x;
    } else {
      var m' := SmallestOf(rest);
      m := if x < m' then x else m';
    }
  }

  lemma MinExists(s: set<int>)
    requires s != {}
    ensures exists m :: m in s && forall x :: x in s ==> m <= x
  {
    var m := SmallestOf(s);
  }

  ghost function Min(s: set<int>): (m: int)
    requires s != {}
    ensures m in s && forall x :: x in s ==> m <= x
  {
    MinExists(s);
    var m :| m in s && forall x :: x in s ==> m <= x;
    m
  }

  /** The elements of `s` in ascending order. */
  ghost function SortedKeys(s: set<int>): (r: seq<int>)
    ensures |r| == |s|
    ensures forall x :: x in r <==> x in s
    ensures forall i, j :: 0 <= i < j < |r| ==> r[i] < r[j]
    decreases |s|
  {
    if s == {} then []
    else
      var m := Min(s);
      [m] + SortedKeys(s - {m})
  }

  lemma AppendAssoc<T>(a: seq<T>, b: seq<T>, c: seq<T>)
    ensures a + b + c == a + (b + c)
  {
  }

  /** Taking the smallest element first is how the ascending order starts. */
  lemma SortedKeysStep(s: set<int>, m: int)
    requires m in s && forall x :: x in s ==> m <= x
    ensures SortedKeys(s) == [m] + SortedKeys(s - {m})
  {
    assert Min(s) == m;
  }

  function StatusEntry(step: int, status: string): Json {
    JObj(map["step" := JInt(step), "status" := JStr(status)])
  }

  /** The history entries for `keys`, in that order. */
  ghost function Entries(statuses: map<int, string>, keys: seq<int>): seq<Json>
    requires forall k :: k in keys ==> k in statuses
  {
    if keys == [] then [] else [StatusEntry(keys[0], statuses[keys[0]])] + Entries(statuses, keys[1..])
  }

  lemma EntriesCons(statuses: map<int, string>, m: int, rest: seq<int>)
    requires m in statuses && forall k :: k in rest ==> k in statuses
    ensures Entries(statuses, [m] + rest) == [StatusEntry(m, statuses[m])] + Entries(statuses, rest)
  {
    assert ([m] + rest)[1..] == rest;
  }

  /** One step of `get_step_history`: taking the smallest remaining step number appends
      its entry, and the entries of the rest follow. */
  lemma HistoryStep(statuses: map<int, string>, remaining: set<int>, m: int, entries: seq<Json>)
    requires remaining <= statuses.Keys
    requires m in remaining && forall x :: x in remaining ==> m <= x
    ensures entries + Entries(statuses, SortedKeys(remaining)) ==
      (entries + [StatusEntry(m, statuses[m])]) + Entries(statuses, SortedKeys(remaining - {m}))
  {
    SortedKeysStep(remaining, m);
    EntriesCons(statuses, m, SortedKeys(remaining - {m}));
    AppendAssoc(entries, [StatusEntry(m, statuses[m])], Entries(statuses, SortedKeys(remaining - {m})));
  }

  /** Entry `i` describes the `i`-th key and its status. */
  lemma {:induction false} EntriesAt(statuses: map<int, string>, keys: seq<int>, i: int)
    requires forall k :: k in keys ==> k in statuses
    requires 0 <= i < |keys|
    ensures |Entries(statuses, keys)| == |keys|
    ensures Entries(statuses, keys)[i] == StatusEntry(keys[i], statuses[keys[i]])
    decreases |keys|
  {
    if i > 0 {
      EntriesAt(statuses, keys[1..], i - 1);
    } else if |keys| > 1 {
      EntriesAt(statuses, keys[1..], 0);
    }
  }

  /** `get_step_history()`: one entry per status, ordered by step number. */
  ghost function StepHistory(s: Snapshot): seq<Json> {
    Entries(s.stepStatuses, SortedKeys(s.stepStatuses.Keys))
  }

  // ---------------------------------------------------------------------
  // The state file

  /** Decoded state files by path; a path that is absent has no file. */
  type Store = map<string, Json>

  lemma IntToStringInjectiveAll()
    ensures forall i, j :: IntToString(i) == IntToString(j) ==> i == j
  {
    forall i, j | IntToString(i) == IntToString(j) {
      IntToStringInjective(i, j);
    }
  }

  /** The statuses as `save()` writes them: keyed by the decimal text of the step number. */
  function StatusesJson(statuses: map<int, string>): Dict {
    IntToStringInjectiveAll();
    map i | i in statuses :: IntToString(i) := JStr(statuses[i])
  }

  /** Every status is written under its step's text, and nothing else is written. */
  lemma StatusesJsonKeys(statuses: map<int, string>)
    ensures forall i :: i in statuses ==>
      IntToString(i) in StatusesJson(statuses) && StatusesJson(statuses)[IntToString(i)] == JStr(statuses[i])
    ensures forall k :: k in StatusesJson(statuses) ==> exists i :: i in statuses && k == IntToString(i)
  {
    IntToStringInjectiveAll();
  }

  /** The document `save()` writes. */
  function SaveJson(s: Snapshot): (r: Json)
    ensures r.JObj? && r.fields.Keys == {"data", "current_step", "step_statuses", "turn", "last_result", "history"}
  {
    JObj(map[
      "data" := JObj(s.data),
      "current_step" := JInt(s.currentStep),
      "step_statuses" := JObj(StatusesJson(s.stepStatuses)),
      "turn" := JInt(s.turn),
      "last_result" := s.lastResult,
      "history" := JArr(s.history)])
  }

  /** A status key as `save()` writes it: the decimal text of a step number. */
  predicate CanonicalKey(k: string) {
    ParseInt(k).Some? && IntToString(ParseInt(k).value) == k
  }

  function StatusesOf(m: Dict): Result<map<int, string>, string> {
    if forall k :: k in m ==> CanonicalKey(k) && m[k].JStr? then
      CanonicalKeysInjective(m.Keys);
      Success(map k | k in m :: ParseInt(k).value := m[k].s)
    else Failure("step_statuses must map step numbers to strings")
  }

  lemma CanonicalKeysInjective(keys: set<string>)
    requires forall k :: k in keys ==> CanonicalKey(k)
    ensures forall a, b ::
      (a in keys && b in keys && CanonicalKey(a) && CanonicalKey(b) && ParseInt(a).value == ParseInt(b).value) ==> a == b
  {
  }

  /** `WorkflowState.load(path)`: the defaults when there is no file. A document that is
      not an object, or whose fields are not of the types `save()` writes, is refused. */
  function Load(store: Store, path: string): (r: Result<Snapshot, string>)
    ensures path !in store ==> r == Success(Initial())
    ensures path in store && !store[path].JObj? ==> r == Failure("state file must hold a JSON object")
  {
    if path !in store then Success(Initial())
    else if !store[path].JObj? then Failure("state file must hold a JSON object")
    else LoadFields(store[path].fields)
  }

  /** The fields of a state document, each missing key falling back to its default. */
  function LoadFields(p: Dict): Result<Snapshot, string> {
    var data := Get(p, "data", JObj(map[]));
    var step := Get(p, "current_step", JInt(1));
    var statuses := Get(p, "step_statuses", JObj(map["1" := JStr(InProgress)]));
    var turn := Get(p, "turn", JInt(0));
    var last := Get(p, "last_result", JNull);
    var history := Get(p, "history", JArr([]));
    if !(data.JObj? && step.JInt? && statuses.JObj? && turn.JInt? && history.JArr?) then
      Failure("state file fields have unexpected types")
    else
      match StatusesOf(statuses.fields)
      case Failure(e) => Failure(e)
      case Success(st) => Success(Snapshot(data.fields, step.i, st, turn.i, last, history.items))
  }

  /** The keys `save()` writes for the statuses are exactly the ones `load()` accepts. */
  lemma StatusesJsonCanonical(statuses: map<int, string>)
    ensures forall k :: k in StatusesJson(statuses) ==> CanonicalKey(k) && StatusesJson(statuses)[k].JStr?
  {
    var m := StatusesJson(statuses);
    StatusesJsonKeys(statuses);
    forall k | k in m
      ensures CanonicalKey(k) && m[k].JStr?
    {
      var i :| i in statuses && IntToString(i) == k;
      IntToStringParses(i);
    }
  }

  /** The saved statuses are accepted when read back. */
  lemma StatusesReadable(statuses: map<int, string>)
    ensures StatusesOf(StatusesJson(statuses)).Success?
  {
    StatusesJsonCanonical(statuses);
  }

  /** Every saved status is read back under its own step. */
  lemma StatusesReadBackAll(statuses: map<int, string>)
    ensures StatusesOf(StatusesJson(statuses)).Success?
    ensures forall i :: i in statuses ==>
      i in StatusesOf(StatusesJson(statuses)).value && StatusesOf(StatusesJson(statuses)).value[i] == statuses[i]
  {
    StatusesReadable(statuses);
    var m := StatusesJson(statuses);
    var back := StatusesOf(m).value;
    StatusesJsonKeys(statuses);
    forall i | i in statuses
      ensures i in back && back[i] == statuses[i]
    {
      IntToStringParses(i);
      assert IntToString(i) in m;
    }
  }

  /** Nothing but the saved steps is read back. */
  lemma StatusesReadBackOnly(statuses: map<int, string>)
    ensures StatusesOf(StatusesJson(statuses)).Success?
    ensures forall i :: i in StatusesOf(StatusesJson(statuses)).value ==> i in statuses
  {
    StatusesReadable(statuses);
    var m := StatusesJson(statuses);
    var back := StatusesOf(m).value;
    StatusesJsonKeys(statuses);
    forall i | i in back
      ensures i in statuses
    {
      var k :| k in m && ParseInt(k).value == i;
      var j :| j in statuses && IntToString(j) == k;
      IntToStringParses(j);
    }
  }

  lemma SameEntriesSameMap(a: map<int, string>, b: map<int, string>)
    requires forall i :: i in a <==> i in b
    requires forall i :: i in a ==> a[i] == b[i]
    ensures a == b
  {
    forall i | i in a ensures i in b && a[i] == b[i] {}
    forall i | i in b ensures i in a {}
  }

  /** Reading back the saved statuses gives the statuses. */
  lemma StatusesRoundTrip(statuses: map<int, string>)
    ensures StatusesOf(StatusesJson(statuses)) == Success(statuses)
  {
    StatusesReadBackAll(statuses);
    StatusesReadBackOnly(statuses);
    var back := StatusesOf(StatusesJson(statuses)).value;
    SameEntriesSameMap(back, statuses);
  }

  /** The document `save()` writes holds each field under its key. */
  lemma SaveJsonFields(s: Snapshot)
    ensures SaveJson(s).fields["data"] == JObj(s.data)
    ensures SaveJson(s).fields["current_step"] == JInt(s.currentStep)
    ensures SaveJson(s).fields["step_statuses"] == JObj(StatusesJson(s.stepStatuses))
    ensures SaveJson(s).fields["turn"] == JInt(s.turn)
    ensures SaveJson(s).fields["last_result"] == s.lastResult
    ensures SaveJson(s).fields["history"] == JArr(s.history)
  {
  }

  /** Loading what was saved gives back all six fields. */
  lemma LoadSave(store: Store, path: string, s: Snapshot)
    ensures Load(store[path := SaveJson(s)], path) == Success(s)
  {
    SaveJsonFields(s);
    StatusesRoundTrip(s.stepStatuses);
    var p := SaveJson(s).fields;
    assert store[path := SaveJson(s)][path] == SaveJson(s);
    assert Get(p, "data", JObj(map[])) == JObj(s.data);
    assert Get(p, "current_step", JInt(1)) == JInt(s.currentStep);
    assert Get(p, "step_statuses", JObj(map["1" := JStr(InProgress)])) == JObj(StatusesJson(s.stepStatuses));
    assert Get(p, "turn", JInt(0)) == JInt(s.turn);
    assert Get(p, "last_result", JNull) == s.lastResult;
    assert Get(p, "history", JArr([])) == JArr(s.history);
  }

  /** The statuses of a fresh state, as the file holds them, read back. */
  lemma InitialStatusesRead()
    ensures StatusesOf(map["1" := JStr(InProgress)]) == Success(map[1 := InProgress])
  {
    var d := map["1" := JStr(InProgress)];
    assert IntToString(1) == "1";
    assert d == StatusesJson(map[1 := InProgress]);
    StatusesRoundTrip(map[1 := InProgress]);
  }

  /** A file holding an empty object loads as a fresh state. */
  lemma LoadEmptyDocument(store: Store, path: string)
    ensures Load(store[path := JObj(map[])], path) == Success(Initial())
  {
    InitialStatusesRead();
  }

  /** A loaded object keeps the value of every key it has, and each key it lacks takes
      its default. */
  lemma LoadFieldsPerKey(store: Store, path: string, p: Dict)
    ensures Load(store[path := JObj(p)], path) == LoadFields(p)
    ensures LoadFields(p).Success? ==> var s := LoadFields(p).value;
      ("data" in p ==> JObj(s.data) == p["data"]) && ("data" !in p ==> s.data == map[])
    ensures LoadFields(p).Success? ==> var s := LoadFields(p).value;
      ("current_step" in p ==> JInt(s.currentStep) == p["current_step"]) && ("current_step" !in p ==> s.currentStep == 1)
    ensures LoadFields(p).Success? ==> var s := LoadFields(p).value;
      ("step_statuses" in p ==> p["step_statuses"].JObj? && StatusesOf(p["step_statuses"].fields) == Success(s.stepStatuses)) &&
      ("step_statuses" !in p ==> s.stepStatuses == map[1 := InProgress])
    ensures LoadFields(p).Success? ==> var s := LoadFields(p).value;
      ("turn" in p ==> JInt(s.turn) == p["turn"]) && ("turn" !in p ==> s.turn == 0)
    ensures LoadFields(p).Success? ==> var s := LoadFields(p).value;
      ("last_result" in p ==> s.lastResult == p["last_result"]) && ("last_result" !in p ==> s.lastResult == JNull)
    ensures LoadFields(p).Success? ==> var s := LoadFields(p).value;
      ("history" in p ==> JArr(s.history) == p["history"]) && ("history" !in p ==> s.history == [])
  {
    if "step_statuses" !in p {
      InitialStatusesRead();
    }
  }

  /** `reset()`: the state file is removed when it exists. */
  function Reset(store: Store, path: string): (r: Store)
    ensures path !in r && forall p :: p != path ==> (p in r <==> p in store) && (p in r ==> r[p] == store[p])
  {
    if path in store then store - {path} else store
  }

  /** Resetting twice is resetting once, and a reset store loads as a fresh state. */
  lemma ResetIdempotent(store: Store, path: string)
    ensures Reset(Reset(store, path), path) == Reset(store, path)
    ensures Load(Reset(store, path), path) == Success(Initial())
  {
  }

  // ---------------------------------------------------------------------
  // The states a run goes through

  /** The statuses after reaching step `k` from step 1: every earlier step completed, `k` in progress. */
  function StatusesAt(k: int): (r: map<int, string>)
    requires k >= 1
    ensures forall i :: i in r <==> 1 <= i <= k
    ensures forall i :: i in r ==> r[i] == if i < k then Completed else InProgress
  {
    if k == 1 then map[1 := InProgress] else StatusesAt(k - 1)[k - 1 := Completed][k := InProgress]
  }

  /** What `WorkflowState` keeps true when built fresh and changed only by its own methods:
      steps before the current one are completed, the current one is in progress, and the
      history holds one entry per turn, numbered from 0, the last one being the last result. */
  predicate Reachable(s: Snapshot) {
    s.currentStep >= 1 &&
    s.stepStatuses == StatusesAt(s.currentStep) &&
    |s.history| == s.turn &&
    (forall i :: 0 <= i < |s.history| ==>
      s.history[i].JObj? && "turn" in s.history[i].fields && s.history[i].fields["turn"] == JInt(i) &&
      "result" in s.history[i].fields) &&
    s.lastResult == (if s.turn == 0 then JNull else s.history[s.turn - 1].fields["result"])
  }

  lemma InitialReachable()
    ensures Reachable(Initial())
  {
    assert StatusesAt(1) == map[1 := InProgress];
  }

  lemma MergedReachable(s: Snapshot, updates: Dict)
    requires Reachable(s)
    ensures Reachable(Merged(s, updates))
  {
  }

  lemma AdvancedStatuses(s: Snapshot)
    ensures Advanced(s).stepStatuses == s.stepStatuses[s.currentStep := Completed][s.currentStep + 1 := InProgress]
  {
  }

  lemma AdvancedReachable(s: Snapshot)
    requires Reachable(s)
    ensures Reachable(Advanced(s))
  {
    var k := s.currentStep;
    var r := Advanced(s);
    assert r.history == s.history && r.turn == s.turn && r.lastResult == s.lastResult;
    assert r.stepStatuses == StatusesAt(k + 1) by {
      AdvancedStatuses(s);
      assert StatusesAt(k + 1) == StatusesAt(k)[k := Completed][k + 1 := InProgress];
    }
  }

  lemma RecordedReachable(s: Snapshot, result: Json)
    requires Reachable(s)
    ensures Reachable(Recorded(s, result))
  {
    var r := Recorded(s, result);
    assert r.history[s.turn] == HistoryEntry(s.turn, result);
    assert forall i :: 0 <= i < |s.history| ==> r.history[i] == s.history[i];
  }

  /** `n` calls of `advance_step`. */
  function AdvancedTimes(s: Snapshot, n: nat): Snapshot {
    if n == 0 then s else Advanced(AdvancedTimes(s, n - 1))
  }

  /** Any number of steps from a fresh state keeps the state reachable. */
  lemma {:induction false} AdvancedTimesReachable(n: nat)
    ensures Reachable(AdvancedTimes(Initial(), n)) && AdvancedTimes(Initial(), n).currentStep == n + 1
  {
    if n == 0 {
      InitialReachable();
    } else {
      var prev := AdvancedTimes(Initial(), n - 1);
      AdvancedTimesReachable(n - 1);
      AdvancedReachable(prev);
    }
  }

  /** After `n` steps from a fresh state, steps 1..n are completed and step n+1 is in progress. */
  lemma AdvanceFromInitial(n: nat)
    ensures AdvancedTimes(Initial(), n).currentStep == n + 1
    ensures AdvancedTimes(Initial(), n).stepStatuses == StatusesAt(n + 1)
  {
    AdvancedTimesReachable(n);
  }

  /** One entry per recorded result: from a fresh state, the history is as long as the turn count. */
  lemma HistoryMatchesTurn(s: Snapshot)
    requires Reachable(s)
    ensures |s.history| == s.turn && s.turn >= 0
  {
  }

  // ---------------------------------------------------------------------
  // The object

  class WorkflowState {
    var data: Dict
    var currentStep: int
    var stepStatuses: map<int, string>
    var turn: int
    var lastResult: Json
    var history: seq<Json>

    function Snap(): Snapshot
      reads this
    {
      Snapshot(data, currentStep, stepStatuses, turn, lastResult, history)
    }

    constructor ()
      ensures Snap() == Initial()
    {
      data := map[];
      currentStep := 1;
      stepStatuses := map[1 := InProgress];
      turn := 0;
      lastResult := JNull;
      history := [];
    }

    method Update(updates: Dict)
      modifies this
      ensures Snap() == Merged(old(Snap()), updates)
    {
      data := data + updates;
    }

    method AdvanceStep()
      modifies this
      ensures Snap() == Advanced(old(Snap()))
    {
      stepStatuses := stepStatuses[currentStep := Completed];
      currentStep := currentStep + 1;
      stepStatuses := stepStatuses[currentStep := InProgress];
    }

    method SetLastResult(result: Json)
      modifies this
      ensures Snap() == Recorded(old(Snap()), result)
    {
      lastResult := result;
      history := history + [HistoryEntry(turn, result)];
      turn := turn + 1;
    }

    /** `get_step_history()`, taking the smallest remaining step number each time. */
    method GetStepHistory() returns (entries: seq<Json>)
      ensures entries == StepHistory(Snap())
    {
      var statuses := stepStatuses;
      var remaining := statuses.Keys;
      entries := [];
      ghost var all := Entries(statuses, SortedKeys(statuses.Keys));
      assert entries + all == all;
      while remaining != {}
        invariant remaining <= statuses.Keys
        invariant entries + Entries(statuses, SortedKeys(remaining)) == Entries(statuses, SortedKeys(statuses.Keys))
        decreases |remaining|
      {
        MinExists(remaining);
        var m :| m in remaining && forall x :: x in remaining ==> m <= x;
        HistoryStep(statuses, remaining, m, entries);
        entries := entries + [StatusEntry(m, statuses[m])];
        remaining := remaining - {m};
      }
      assert SortedKeys(remaining) == [];
      assert entries + [] == entries;
    }

    /** `save(path)`. */
    method Save(store: Store, path: string) returns (saved: Store)
      ensures saved == store[path := SaveJson(Snap())]
    {
      saved := store[path := SaveJson(Snapshot(data, currentStep, stepStatuses, turn, lastResult, history))];
    }

    /** `WorkflowState.load(path)`: a fresh object with the loaded fields. */
    static method LoadFrom(store: Store, path: string) returns (r: Result<WorkflowState, string>)
      ensures Load(store, path).Failure? <==> r.Failure?
      ensures r.Failure? ==> r.error == Load(store, path).error
      ensures r.Success? ==> fresh(r.value) && r.value.Snap() == Load(store, path).value
    {
      var loaded := Load(store, path);
      if loaded.Failure? {
        return Failure(loaded.error);
      }
      var state := new WorkflowState();
      state.data := loaded.value.data;
      state.currentStep := loaded.value.currentStep;
      state.stepStatuses := loaded.value.stepStatuses;
      state.turn := loaded.value.turn;
      state.lastResult := loaded.value.lastResult;
      state.history := loaded.value.history;
      return Success(state);
    }
  }
}
