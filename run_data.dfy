/** The validated parameter store of one ensemble member (run_brer/run_data.py):
    general parameters shared by all restraints, and one parameter map per
    restraint ("pair").  The pure functions over `Params` say what each
    operation does; the class `RunData` holds the two maps and changes them
    in place as the Python object does. */
module RunParams {
  import opened Values

  /** The keys `RunData.set` accepts without a restraint name. */
  const GeneralRequirements: set<string> :=
    {"ensemble_num", "iteration", "phase", "start_time", "tau",
     "tolerance", "num_samples", "sample_period", "production_time"}

  /** The keys `RunData.set` accepts for a named restraint. */
  const PairRequirements: set<string> :=
    {"sites", "logging_filename", "alpha", "target", "A"}

  /** The general parameters of a fresh RunData. */
  const DefaultGeneral: map<string, Json> :=
    map["ensemble_num" := JInt(1),
        "iteration" := JInt(0),
        "phase" := JStr("training"),
        "start_time" := JInt(0),
        "tau" := JInt(50),
        "tolerance" := JReal(0.1),
        "num_samples" := JInt(50),
        "sample_period" := JInt(100),
        "production_time" := JInt(10000)]

  const GeneralKey := "general parameters"
  const PairKey := "pair parameters"

  datatype Params = Params(general: map<string, Json>, pairs: map<string, map<string, Json>>)

  /** The pair metadata one restraint is created from. */
  datatype PairData = PairData(name: string, sites: Json)

  /** Python truthiness of the `name` argument: None and "" both mean "no name". */
  predicate Named(name: Option<string>)
  {
    name.Some? && name.value != ""
  }

  /** Whether `set` accepts `key` for `name` in state `p` (no exception). */
  predicate Accepts(p: Params, name: Option<string>, key: string)
  {
    if Named(name) then name.value in p.pairs && key in PairRequirements
    else key in GeneralRequirements
  }

  /** The exception `set` raises for a key it refuses. */
  function Refusal(p: Params, name: Option<string>, key: string): Error
  {
    if Named(name) && name.value !in p.pairs then KeyError(name.value) else ValueError(key)
  }

  /** One iteration of the loop in `set`. */
  function SetOne(p: Params, name: Option<string>, key: string, v: Json): (r: Result<Params>)
    ensures r.Ok? <==> Accepts(p, name, key)
    ensures r.Err? ==> r.error == Refusal(p, name, key)
    ensures r.Ok? ==> r.value.pairs.Keys == p.pairs.Keys
  {
    if !Named(name) then
      if key in GeneralRequirements then Ok(p.(general := p.general[key := v]))
      else Err(ValueError(key))
    else if name.value !in p.pairs then Err(KeyError(name.value))
    else if key in PairRequirements then
      Ok(p.(pairs := p.pairs[name.value := p.pairs[name.value][key := v]]))
    else Err(ValueError(key))
  }

  /** `set(name, **kwargs)`: the keyword arguments applied in order; the state
      reached and the exception raised, if any.  Keys set before a refused key
      keep their new values. */
  function SetAll(p: Params, name: Option<string>, kwargs: seq<(string, Json)>): (Params, Option<Error>)
    decreases |kwargs|
  {
    if kwargs == [] then (p, None)
    else
      match SetOne(p, name, kwargs[0].0, kwargs[0].1)
      case Ok(q) => SetAll(q, name, kwargs[1..])
      case Err(e) => (p, Some(e))
  }

  /** The map that results from assigning the keyword arguments in order. */
  function Assign(m: map<string, Json>, kwargs: seq<(string, Json)>): map<string, Json>
    decreases |kwargs|
  {
    if kwargs == [] then m else Assign(m[kwargs[0].0 := kwargs[0].1], kwargs[1..])
  }

  /** The keys the keyword arguments assign. */
  function KeysOf(kwargs: seq<(string, Json)>): set<string>
    decreases |kwargs|
  {
    if kwargs == [] then {} else {kwargs[0].0} + KeysOf(kwargs[1..])
  }

  /** A key no keyword argument names is not among the assigned keys. */
  lemma {:induction false} KeysOfExcludes(kwargs: seq<(string, Json)>, k: string)
    requires forall j :: 0 <= j < |kwargs| ==> kwargs[j].0 != k
    ensures k !in KeysOf(kwargs)
    decreases |kwargs|
  {
    if kwargs != [] {
      assert forall j :: 0 <= j < |kwargs[1..]| ==> kwargs[1..][j] == kwargs[j + 1];
      KeysOfExcludes(kwargs[1..], k);
    }
  }

  /** The key of the i-th keyword argument is not assigned again later. */
  predicate LastAssignment(kwargs: seq<(string, Json)>, i: int)
    requires 0 <= i < |kwargs|
  {
    forall j :: i < j < |kwargs| ==> kwargs[j].0 != kwargs[i].0
  }

  /** Assignment adds exactly the assigned keys. */
  lemma {:induction false} AssignKeys(m: map<string, Json>, kwargs: seq<(string, Json)>)
    ensures Assign(m, kwargs).Keys == m.Keys + KeysOf(kwargs)
    decreases |kwargs|
  {
    if kwargs != [] {
      AssignKeys(m[kwargs[0].0 := kwargs[0].1], kwargs[1..]);
    }
  }

  /** A key no keyword argument assigns keeps its value. */
  lemma {:induction false} AssignUntouched(m: map<string, Json>, kwargs: seq<(string, Json)>, k: string)
    requires k in m && k !in KeysOf(kwargs)
    ensures k in Assign(m, kwargs) && Assign(m, kwargs)[k] == m[k]
    decreases |kwargs|
  {
    if kwargs != [] {
      AssignUntouched(m[kwargs[0].0 := kwargs[0].1], kwargs[1..], k);
    }
  }

  /** The last assignment to a key wins. */
  lemma {:induction false} AssignLast(m: map<string, Json>, kwargs: seq<(string, Json)>, i: nat)
    requires i < |kwargs| && LastAssignment(kwargs, i)
    ensures kwargs[i].0 in Assign(m, kwargs) && Assign(m, kwargs)[kwargs[i].0] == kwargs[i].1
    decreases |kwargs|
  {
    var m' := m[kwargs[0].0 := kwargs[0].1];
    var rest := kwargs[1..];
    if i == 0 {
      assert forall j :: 0 <= j < |rest| ==> rest[j] == kwargs[j + 1];
      KeysOfExcludes(rest, kwargs[0].0);
      AssignUntouched(m', rest, kwargs[0].0);
    } else {
      assert LastAssignment(rest, i - 1) by {
        forall j | i - 1 < j < |rest| ensures rest[j].0 != rest[i - 1].0 {
          assert rest[j] == kwargs[j + 1];
        }
      }
      AssignLast(m', rest, i - 1);
    }
  }

  /** `set` raises no exception exactly when every key is accepted; then the
      targeted map receives every assignment, in order, and the other map is
      untouched. */
  lemma {:induction false} SetAllSucceeds(p: Params, name: Option<string>, kwargs: seq<(string, Json)>)
    ensures SetAll(p, name, kwargs).1 == None <==>
            forall i :: 0 <= i < |kwargs| ==> Accepts(p, name, kwargs[i].0)
    ensures SetAll(p, name, kwargs).1 == None && !Named(name) ==>
            SetAll(p, name, kwargs).0 == Params(Assign(p.general, kwargs), p.pairs)
    ensures SetAll(p, name, kwargs).1 == None && Named(name) && kwargs != [] ==>
            SetAll(p, name, kwargs).0 ==
            Params(p.general, p.pairs[name.value := Assign(p.pairs[name.value], kwargs)])
    decreases |kwargs|
  {
    if kwargs != [] {
      var rest := kwargs[1..];
      var r := SetOne(p, name, kwargs[0].0, kwargs[0].1);
      if r.Ok? {
        var q := r.value;
        SetAllSucceeds(q, name, rest);
        assert forall i :: 0 <= i < |rest| ==> rest[i] == kwargs[i + 1];
        assert forall k :: Accepts(q, name, k) == Accepts(p, name, k);
        if Named(name) && rest != [] {
          assert q.pairs[name.value := Assign(q.pairs[name.value], rest)]
              == p.pairs[name.value := Assign(p.pairs[name.value], kwargs)];
        }
      }
    }
  }

  /** `set` stops at the first refused key: the keys before it are applied and
      the exception names the refused key (or the unknown restraint). */
  lemma {:induction false} SetAllStopsAtFirstRefusal(p: Params, name: Option<string>, kwargs: seq<(string, Json)>, k: nat)
    requires k < |kwargs|
    requires forall i :: 0 <= i < k ==> Accepts(p, name, kwargs[i].0)
    requires !Accepts(p, name, kwargs[k].0)
    ensures SetAll(p, name, kwargs) == (SetAll(p, name, kwargs[..k]).0, Some(Refusal(p, name, kwargs[k].0)))
    decreases k
  {
    if k > 0 {
      var q := SetOne(p, name, kwargs[0].0, kwargs[0].1).value;
      assert forall key :: Accepts(q, name, key) == Accepts(p, name, key);
      assert forall key :: Refusal(q, name, key) == Refusal(p, name, key);
      SetAllStopsAtFirstRefusal(q, name, kwargs[1..], k - 1);
      assert kwargs[..k][1..] == kwargs[1..][..k - 1];
    }
  }

  /** `get(key, name)`: a general key is looked up in the general parameters,
      whatever the name; any other key needs a name. */
  function Get(p: Params, key: string, name: Option<string>): Result<Json>
  {
    if key in GeneralRequirements then Lookup(p.general, key)
    else if Named(name) then
      if name.value in p.pairs then Lookup(p.pairs[name.value], key)
      else Err(KeyError(name.value))
    else Err(ValueError(key))
  }

  /** A general key is read from the general parameters even when a restraint
      name is given; a pair key without a name raises ValueError. */
  lemma GetGeneralIgnoresName(p: Params, key: string, name: Option<string>)
    ensures key in GeneralRequirements ==> Get(p, key, name) == Get(p, key, None)
    ensures key !in GeneralRequirements && !Named(name) ==> Get(p, key, name) == Err(ValueError(key))
    ensures key in GeneralRequirements && key in p.general ==> Get(p, key, name) == Ok(p.general[key])
  {
  }

  /** `get` reads back what `set` stored: after a successful `set` on a named
      restraint, each pair key reads as its last assigned value. */
  lemma SetThenGet(p: Params, name: Option<string>, kwargs: seq<(string, Json)>, i: nat)
    requires Named(name)
    requires i < |kwargs| && LastAssignment(kwargs, i)
    requires SetAll(p, name, kwargs).1 == None
    ensures Get(SetAll(p, name, kwargs).0, kwargs[i].0, name) == Ok(kwargs[i].1)
  {
    SetAllSucceeds(p, name, kwargs);
    assert Accepts(p, name, kwargs[i].0);
    AssignLast(p.pairs[name.value], kwargs, i);
  }

  /** `as_dictionary()`: exactly the two top-level keys, and one pair entry per
      restraint in the store. */
  function AsDictionary(p: Params): (d: Json)
    ensures d.JObj? && d.fields.Keys == {GeneralKey, PairKey}
    ensures d.fields[GeneralKey] == JObj(p.general)
    ensures d.fields[PairKey].JObj? && d.fields[PairKey].fields.Keys == p.pairs.Keys
    ensures forall n :: n in p.pairs ==> d.fields[PairKey].fields[n] == JObj(p.pairs[n])
  {
    JObj(map[GeneralKey := JObj(p.general),
             PairKey := JObj(map n | n in p.pairs :: JObj(p.pairs[n]))])
  }

  /** Every value of a JSON object is itself an object. */
  predicate AllObjects(m: map<string, Json>)
  {
    forall n :: n in m ==> m[n].JObj?
  }

  /** `from_dictionary(data)`: the general parameters are replaced first, then
      an entry is rebuilt for each pair named in `data`; pairs not named in
      `data` are kept.  A missing key raises KeyError after the general
      parameters were already replaced. */
  function Loaded(p: Params, data: Json): (Params, Option<Error>)
  {
    if !data.JObj? then (p, Some(TypeError))
    else if GeneralKey !in data.fields then (p, Some(KeyError(GeneralKey)))
    else if !data.fields[GeneralKey].JObj? then (p, Some(TypeError))
    else
      var q := p.(general := data.fields[GeneralKey].fields);
      if PairKey !in data.fields then (q, Some(KeyError(PairKey)))
      else if !data.fields[PairKey].JObj? || !AllObjects(data.fields[PairKey].fields) then (q, Some(TypeError))
      else
        var pp := data.fields[PairKey].fields;
        (q.(pairs := p.pairs + map n | n in pp :: pp[n].fields), None)
  }

  /** Loading a saved dictionary restores its general parameters and every
      saved pair; pairs the loading store had and the document lacks stay. */
  lemma {:induction false} SaveLoadRoundTrip(p: Params, q: Params)
    ensures Loaded(q, AsDictionary(p)) == (Params(p.general, q.pairs + p.pairs), None)
    ensures q.pairs.Keys <= p.pairs.Keys ==> Loaded(q, AsDictionary(p)).0 == p
    ensures q.pairs.Keys <= p.pairs.Keys ==> AsDictionary(Loaded(q, AsDictionary(p)).0) == AsDictionary(p)
  {
    var pp := AsDictionary(p).fields[PairKey].fields;
    assert (map n | n in pp :: pp[n].fields) == p.pairs;
    if q.pairs.Keys <= p.pairs.Keys {
      assert q.pairs + p.pairs == p.pairs;
    }
  }

  /** `from_pair_data(pd)`: the parameter map of one new restraint. */
  function FreshPair(pd: PairData): map<string, Json>
  {
    map["sites" := pd.sites,
        "logging_filename" := JStr(pd.name + ".log"),
        "alpha" := JInt(0),
        "target" := JReal(3.0),
        "A" := JInt(50)]
  }

  /** `from_pair_data` creates or overwrites only the entry of `pd`, with every
      pair requirement set, and leaves the general parameters alone. */
  function WithPair(p: Params, pd: PairData): (r: Params)
    ensures r.general == p.general
    ensures r.pairs.Keys == p.pairs.Keys + {pd.name}
    ensures forall n :: n in p.pairs && n != pd.name ==> r.pairs[n] == p.pairs[n]
    ensures r.pairs[pd.name] == FreshPair(pd)
    ensures r.pairs[pd.name].Keys == PairRequirements
    ensures Get(r, "A", Some(pd.name)) == Ok(JInt(50)) || pd.name == ""
    ensures Get(r, "target", Some(pd.name)) == Ok(JReal(3.0)) || pd.name == ""
  {
    p.(pairs := p.pairs[pd.name := FreshPair(pd)])
  }

  /** `from_pair_data` applied to each pair in turn, as `RunConfig.__init__`
      does on a fresh start. */
  function WithPairs(p: Params, pds: seq<PairData>): Params
    decreases |pds|
  {
    if pds == [] then p else WithPairs(WithPair(p, pds[0]), pds[1..])
  }

  /** The restraint names of the pair data, in order (`MultiPair.names`). */
  function PairNames(pds: seq<PairData>): seq<string>
    decreases |pds|
  {
    if pds == [] then [] else [pds[0].name] + PairNames(pds[1..])
  }

  /** After loading the pair data every restraint has its fresh entry (the
      last one when a name repeats), the pairs already present and not named
      are kept, and the general parameters are untouched. */
  lemma {:induction false} WithPairsEffect(p: Params, pds: seq<PairData>)
    ensures var r := WithPairs(p, pds);
            r.general == p.general &&
            (forall n :: n in r.pairs <==> n in p.pairs || n in PairNames(pds)) &&
            (forall n :: n in p.pairs && n !in PairNames(pds) ==> r.pairs[n] == p.pairs[n]) &&
            (forall i :: 0 <= i < |pds| && pds[i].name !in PairNames(pds[i + 1..]) ==>
                           pds[i].name in r.pairs && r.pairs[pds[i].name] == FreshPair(pds[i]))
    decreases |pds|
  {
    if pds != [] {
      var q := WithPair(p, pds[0]);
      var rest := pds[1..];
      WithPairsEffect(q, rest);
      forall i | 0 < i < |pds| ensures pds[i] == rest[i - 1] && pds[i + 1..] == rest[i..] { }
    }
  }

  /** The RunData object: the two parameter maps, changed in place. */
  class RunData {
    var general: map<string, Json>
    var pairs: map<string, map<string, Json>>

    function Value(): Params
      reads this
    {
      Params(general, pairs)
    }

    /** A fresh store: the default general parameters and no pairs. */
    constructor ()
      ensures Value() == Params(DefaultGeneral, map[])
      ensures Get(Value(), "iteration", None) == Ok(JInt(0))
      ensures Get(Value(), "phase", None) == Ok(JStr("training"))
      ensures Get(Value(), "start_time", None) == Ok(JInt(0))
      ensures Get(Value(), "production_time", None) == Ok(JInt(10000))
    {
      general := DefaultGeneral;
      pairs := map[];
    }

    /** `set(name, **kwargs)`, one key at a time, raising on the first refused key. */
    method Set(name: Option<string>, kwargs: seq<(string, Json)>) returns (err: Option<Error>)
      modifies this
      ensures (Value(), err) == SetAll(old(Value()), name, kwargs)
    {
      var i := 0;
      while i < |kwargs|
        invariant 0 <= i <= |kwargs|
        invariant SetAll(old(Value()), name, kwargs) == SetAll(Value(), name, kwargs[i..])
      {
        assert kwargs[i..][1..] == kwargs[i + 1..];
        var (key, v) := kwargs[i];
        if !Named(name) {
          if key in GeneralRequirements {
            general := general[key := v];
          } else {
            return Some(ValueError(key));
          }
        } else {
          if name.value !in pairs {
            return Some(KeyError(name.value));
          }
          if key in PairRequirements {
            pairs := pairs[name.value := pairs[name.value][key := v]];
          } else {
            return Some(ValueError(key));
          }
        }
        i := i + 1;
      }
      return None;
    }

    /** `from_dictionary(data)`: replaces the general parameters, then rebuilds
        the entry of every pair the document names, one name at a time. */
    method FromDictionary(data: Json) returns (err: Option<Error>)
      modifies this
      ensures (Value(), err) == Loaded(old(Value()), data)
    {
      if !data.JObj? { return Some(TypeError); }
      if GeneralKey !in data.fields { return Some(KeyError(GeneralKey)); }
      if !data.fields[GeneralKey].JObj? { return Some(TypeError); }
      general := data.fields[GeneralKey].fields;
      if PairKey !in data.fields { return Some(KeyError(PairKey)); }
      if !data.fields[PairKey].JObj? || !AllObjects(data.fields[PairKey].fields) {
        return Some(TypeError);
      }
      var pp := data.fields[PairKey].fields;
      var todo := pp.Keys;
      while todo != {}
        invariant todo <= pp.Keys
        invariant general == data.fields[GeneralKey].fields
        invariant pairs == old(pairs) + map n | n in pp.Keys - todo :: pp[n].fields
        decreases todo
      {
        var n :| n in todo;
        pairs := pairs[n := pp[n].fields];
        todo := todo - {n};
      }
      assert pp.Keys - todo == pp.Keys;
      assert pairs == old(pairs) + map n | n in pp :: pp[n].fields;
      return None;
    }

    /** `from_pair_data(pd)`. */
    method FromPairData(pd: PairData)
      modifies this
      ensures Value() == WithPair(old(Value()), pd)
    {
      pairs := pairs[pd.name := FreshPair(pd)];
    }

    /** `clear_pair_data()`: no pairs remain, the general parameters stay. */
    method ClearPairData()
      modifies this
      ensures pairs == map[] && general == old(general)
    {
      pairs := map[];
    }
  }
}
