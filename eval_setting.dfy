/** The evaluation setting of the recommender pipeline: four optional records of intent
    (grouping, ordering, splitting, negative sampling), filled in from the configuration
    and changed through setters that validate the strategy name. */
module EvalSettings {
  import opened Wrappers
  import opened Values
  import Sorting

  const StrategyKey := "strategy"
  const UserIdKey := "USER_ID_FIELD"

  /** The attributes the constructor copies from the configuration, in the order it copies them. */
  const PresettingArgs: seq<string> := ["group_field", "ordering_args", "split_args", "neg_sample_args"]

  const OrderingStrategies: set<string> := {"none", "shuffle", "by"}
  const SplitStrategies: set<string> := {"none", "by_ratio", "by_value", "loo"}
  const NegSampleStrategies: set<string> := {"none", "to", "by"}

  /** The four concerns, in the order the summary lists them. */
  datatype Concern = Grouping | Ordering | Splitting | NegSampling

  /** The exceptions the setting raises. */
  datatype Error =
    | InvalidStrategy(concern: Concern, strategy: string, legal: set<string>)  // ValueError: strategy not in the legal set
    | MissingGrouping                                                          // ValueError: leave-one-out before grouping
    | TypeMismatch(parameter: string, given: Value)                            // ValueError: a failed isinstance check
    | NoLength(given: Value)                                                   // TypeError: len() of a value without one
    | NoStrategyKey(spec: Value)                                               // KeyError: spec['strategy'] on a dict without it
    | NotSubscriptable(spec: Value)                                            // TypeError: spec['strategy'] on a non-dict

  /** One line of the summary: the header, a "No ..." line, or a line showing the stored value. */
  datatype Line = Header | Off(concern: Concern) | On(concern: Concern, shown: Value)

  /** The argument `values` of `split_by_value`: a single number or the caller's list. */
  datatype Cutoffs = Scalar(x: int) | Listed(list: array<int>)

  function LegalStrategies(c: Concern): (legal: set<string>) {
    match c
    case Grouping => {}
    case Ordering => OrderingStrategies
    case Splitting => SplitStrategies
    case NegSampling => NegSampleStrategies
  }

  /** The dictionary `{'strategy': strategy}` updated with the keyword arguments:
      exactly the strategy key and the extras' keys, whatever was stored before. */
  function SpecDict(strategy: string, extras: map<string, Value>): (d: Value)
    requires StrategyKey !in extras
    ensures d.Dict?
    ensures d.entries.Keys == {StrategyKey} + extras.Keys
    ensures d.entries[StrategyKey] == Str(strategy)
    ensures forall k :: k in extras ==> d.entries[k] == extras[k]
  {
    Dict(map[StrategyKey := Str(strategy)] + extras)
  }

  /** `ascending` as `sort_by` chooses it when the caller omits it, for a field of length n:
      the scalar True for one field, otherwise n copies of True. */
  function DefaultAscending(n: nat): (v: Value)
    ensures n == 1 <==> v == Bool(true)
    ensures n != 1 ==> v.List? && |v.items| == n && forall k :: 0 <= k < n ==> v.items[k] == Bool(true)
  {
    if n == 1 then Bool(true) else List(Trues(n))
  }

  /** A spec whose `strategy` entry the summary can read without raising. */
  predicate Readable(spec: Option<Value>) {
    spec.None? || (spec.value.Dict? && StrategyKey in spec.value.entries)
  }

  /** The summary shows "No ..." for this concern: nothing stored, or (except for grouping)
      a stored strategy equal to 'none'. */
  predicate Disabled(c: Concern, spec: Option<Value>) {
    spec.None? ||
    (c != Grouping && spec.value.Dict? && StrategyKey in spec.value.entries &&
     spec.value.entries[StrategyKey] == Str("none"))
  }

  /** The exception `spec['strategy']` raises on a value that is not Readable. */
  function ReadError(spec: Value): (e: Error) {
    if spec.Dict? then NoStrategyKey(spec) else NotSubscriptable(spec)
  }

  /** The summary line for one concern. */
  function Summary(c: Concern, spec: Option<Value>): (line: Line) {
    if Disabled(c, spec) then Off(c) else On(c, spec.value)
  }

  /** A spec that only a successful setter of concern c can have stored. */
  predicate Legal(c: Concern, spec: Option<Value>) {
    spec.None? ||
    (spec.value.Dict? && StrategyKey in spec.value.entries &&
     spec.value.entries[StrategyKey].Str? && spec.value.entries[StrategyKey].s in LegalStrategies(c))
  }

  /** The summary line of an ordering, splitting or negative-sampling spec, or the
      exception reading its strategy raises. */
  function LineFor(c: Concern, spec: Option<Value>): (r: Result<Line, Error>)
    requires c != Grouping
    ensures r.Success? <==> Readable(spec)
    ensures r.Failure? ==> r.error == ReadError(spec.value)
    ensures r.Success? ==> r.value == Summary(c, spec)
    ensures r.Success? ==> r.value.concern == c && (r.value.Off? <==> Disabled(c, spec))
  {
    match spec
    case None => Success(Off(c))
    case Some(v) =>
      match v
      case Dict(entries) =>
        if StrategyKey !in entries then Failure(NoStrategyKey(v))
        else if entries[StrategyKey] != Str("none") then Success(On(c, v))
        else Success(Off(c))
      case _ => Failure(NotSubscriptable(v))
  }

  class EvalSetting {
    const config: map<string, Value>
    var groupField: Option<Value>
    var orderingArgs: Option<Value>
    var splitArgs: Option<Value>
    var negSampleArgs: Option<Value>

    /** The data attribute of that name; None for any other name. */
    function Field(name: string): Option<Value>
      reads this
    {
      if name == "group_field" then groupField
      else if name == "ordering_args" then orderingArgs
      else if name == "split_args" then splitArgs
      else if name == "neg_sample_args" then negSampleArgs
      else None
    }

    /** `self.<name> is None`. Only the four data attributes can hold None; any other
        attribute name (such as the method `group_by`) denotes a bound method. */
    predicate AttributeIsNone(name: string)
      reads this
      ensures AttributeIsNone(name) ==> name in PresettingArgs
      ensures name == "group_field" ==> (AttributeIsNone(name) <==> groupField.None?)
      ensures name == "group_by" ==> !AttributeIsNone(name)
    {
      name in PresettingArgs && Field(name).None?
    }

    /** Every stored spec has a strategy its setter accepts. */
    predicate Validated()
      reads this
    {
      Legal(Ordering, orderingArgs) && Legal(Splitting, splitArgs) && Legal(NegSampling, negSampleArgs)
    }

    /** `EvalSetting(config)`: copies each presetting attribute the configuration holds,
        without validating it. */
    constructor (config: map<string, Value>)
      ensures this.config == config
      ensures groupField == Lookup(config, "group_field")
      ensures orderingArgs == Lookup(config, "ordering_args")
      ensures splitArgs == Lookup(config, "split_args")
      ensures negSampleArgs == Lookup(config, "neg_sample_args")
    {
      this.config := config;
      groupField, orderingArgs, splitArgs, negSampleArgs := None, None, None, None;
      new;
      var i := 0;
      while i < |PresettingArgs|
        invariant 0 <= i <= |PresettingArgs|
        invariant this.config == config
        invariant forall j :: 0 <= j < i ==> Field(PresettingArgs[j]) == Lookup(config, PresettingArgs[j])
        invariant forall j :: i <= j < |PresettingArgs| ==> Field(PresettingArgs[j]).None?
      {
        var v := Lookup(config, PresettingArgs[i]);
        if v.Some? {
          SetAttr(PresettingArgs[i], v.value);
        }
        i := i + 1;
      }
      assert Field(PresettingArgs[0]) == groupField;
      assert Field(PresettingArgs[1]) == orderingArgs;
      assert Field(PresettingArgs[2]) == splitArgs;
      assert Field(PresettingArgs[3]) == negSampleArgs;
    }

    /** `setattr(self, name, v)` for one of the four data attributes. */
    method SetAttr(name: string, v: Value)
      requires name in PresettingArgs
      modifies this
      ensures Field(name) == Some(v)
      ensures forall n :: n in PresettingArgs && n != name ==> Field(n) == old(Field(n))
    {
      if name == "group_field" {
        groupField := Some(v);
      } else if name == "ordering_args" {
        orderingArgs := Some(v);
      } else if name == "split_args" {
        splitArgs := Some(v);
      } else {
        negSampleArgs := Some(v);
      }
    }

    /** `__str__`: the header, then one line per concern in the order grouping, ordering,
        splitting, negative sampling; raises where a stored spec cannot be subscripted by
        'strategy', at the first such spec. */
    method Render() returns (r: Result<seq<Line>, Error>)
      ensures r.Success? <==> Readable(orderingArgs) && Readable(splitArgs) && Readable(negSampleArgs)
      ensures Validated() ==> r.Success?
      ensures !Readable(orderingArgs) ==> r == Failure(ReadError(orderingArgs.value))
      ensures Readable(orderingArgs) && !Readable(splitArgs) ==> r == Failure(ReadError(splitArgs.value))
      ensures Readable(orderingArgs) && Readable(splitArgs) && !Readable(negSampleArgs) ==>
                r == Failure(ReadError(negSampleArgs.value))
      ensures r.Success? ==> r.value == [Header, Summary(Grouping, groupField), Summary(Ordering, orderingArgs),
                                         Summary(Splitting, splitArgs), Summary(NegSampling, negSampleArgs)]
    {
      var info := [Header];
      info := info + [if groupField.Some? then On(Grouping, groupField.value) else Off(Grouping)];
      var ordering :- LineFor(Ordering, orderingArgs);
      info := info + [ordering];
      var splitting :- LineFor(Splitting, splitArgs);
      info := info + [splitting];
      var sampling :- LineFor(NegSampling, negSampleArgs);
      info := info + [sampling];
      r := Success(info);
    }

    /** `group_by(field)`: no validation; None clears the grouping. */
    method GroupBy(field: Option<Value>)
      modifies this
      ensures groupField == field
      ensures unchanged(this`orderingArgs, this`splitArgs, this`negSampleArgs)
      ensures old(Validated()) ==> Validated()
    {
      groupField := field;
    }

    /** `group_by_user()`: groups by the configured user-id field, None if the configuration has none. */
    method GroupByUser()
      modifies this
      ensures groupField == Lookup(config, UserIdKey)
      ensures unchanged(this`orderingArgs, this`splitArgs, this`negSampleArgs)
      ensures old(Validated()) ==> Validated()
    {
      groupField := Lookup(config, UserIdKey);
    }

    /** `set_ordering(strategy, **extras)`: an unknown strategy raises before anything changes;
        otherwise the ordering spec is replaced, not merged. */
    method SetOrdering(strategy: string, extras: map<string, Value>) returns (r: Outcome<Error>)
      requires StrategyKey !in extras  // Python binds a keyword named `strategy` to the parameter itself
      modifies this
      ensures r.Pass? <==> strategy in OrderingStrategies
      ensures r.Fail? ==> r.error == InvalidStrategy(Ordering, strategy, OrderingStrategies) && unchanged(this)
      ensures r.Pass? ==> orderingArgs == Some(SpecDict(strategy, extras))
      ensures unchanged(this`groupField, this`splitArgs, this`negSampleArgs)
      ensures old(Validated()) ==> Validated()
    {
      if strategy !in OrderingStrategies {
        return Fail(InvalidStrategy(Ordering, strategy, OrderingStrategies));
      }
      var spec := map[StrategyKey := Str(strategy)];
      spec := spec + extras;
      orderingArgs := Some(Dict(spec));
      r := Pass;
    }

    /** `shuffle()` */
    method Shuffle() returns (r: Outcome<Error>)
      modifies this
      ensures r == Pass && orderingArgs == Some(SpecDict("shuffle", map[]))
      ensures unchanged(this`groupField, this`splitArgs, this`negSampleArgs)
      ensures old(Validated()) ==> Validated()
    {
      r := SetOrdering("shuffle", map[]);
    }

    /** `sort_by(field, ascending=None)`. When `ascending` is omitted it becomes `len(field)`
        copies of True, collapsed to the scalar True when that length is 1; `len` of a string
        counts its characters, and `len` of a value without a length raises. */
    method SortBy(field: Value, ascending: Option<Value>) returns (r: Outcome<Error>)
      modifies this
      ensures r.Fail? <==> ascending.None? && Len(field).None?
      ensures r.Fail? ==> r.error == NoLength(field) && unchanged(this)
      ensures r.Pass? ==> orderingArgs == Some(SpecDict("by", map[
                "field" := field,
                "ascending" := if ascending.Some? then ascending.value else DefaultAscending(Len(field).value)]))
      ensures unchanged(this`groupField, this`splitArgs, this`negSampleArgs)
      ensures old(Validated()) ==> Validated()
    {
      var asc: Value;
      if ascending.None? {
        var n := Len(field);
        if n.None? {
          return Fail(NoLength(field));
        }
        var flags := Trues(n.value);
        asc := List(flags);
        if |flags| == 1 {
          asc := Bool(true);
        }
      } else {
        asc := ascending.value;
      }
      r := SetOrdering("by", map["field" := field, "ascending" := asc]);
    }

    /** `sort_by` as evidently intended: a string field names one field, so the default
        `ascending` is the scalar True. */
    method SortByFixed(field: Value, ascending: Option<Value>) returns (r: Outcome<Error>)
      modifies this
      ensures r.Fail? <==> ascending.None? && Len(field).None?
      ensures r.Fail? ==> r.error == NoLength(field) && unchanged(this)
      ensures r.Pass? && ascending.None? && field.Str? ==>
                orderingArgs == Some(SpecDict("by", map["field" := field, "ascending" := Bool(true)]))
      ensures r.Pass? && !field.Str? ==> orderingArgs == Some(SpecDict("by", map[
                "field" := field,
                "ascending" := if ascending.Some? then ascending.value else DefaultAscending(Len(field).value)]))
      ensures r.Pass? && ascending.Some? ==>
                orderingArgs == Some(SpecDict("by", map["field" := field, "ascending" := ascending.value]))
      ensures unchanged(this`groupField, this`splitArgs, this`negSampleArgs)
      ensures old(Validated()) ==> Validated()
    {
      var asc: Value;
      if ascending.None? {
        var n := if field.Str? then Some(1) else Len(field);
        if n.None? {
          return Fail(NoLength(field));
        }
        var flags := Trues(n.value);
        asc := List(flags);
        if |flags| == 1 {
          asc := Bool(true);
        }
      } else {
        asc := ascending.value;
      }
      r := SetOrdering("by", map["field" := field, "ascending" := asc]);
    }

    /** `set_splitting(strategy, **extras)` as written: its leave-one-out guard tests the
        attribute `group_by`, a bound method, which is never None, so only the strategy
        name is checked. */
    method SetSplitting(strategy: string, extras: map<string, Value>) returns (r: Outcome<Error>)
      requires StrategyKey !in extras
      modifies this
      ensures r.Pass? <==> strategy in SplitStrategies
      ensures r.Fail? ==> r.error == InvalidStrategy(Splitting, strategy, SplitStrategies) && unchanged(this)
      ensures r.Pass? ==> splitArgs == Some(SpecDict(strategy, extras))
      ensures unchanged(this`groupField, this`orderingArgs, this`negSampleArgs)
      ensures old(Validated()) ==> Validated()
    {
      if strategy !in SplitStrategies {
        return Fail(InvalidStrategy(Splitting, strategy, SplitStrategies));
      }
      if strategy == "loo" && AttributeIsNone("group_by") {
        return Fail(MissingGrouping);
      }
      var spec := map[StrategyKey := Str(strategy)];
      spec := spec + extras;
      splitArgs := Some(Dict(spec));
      r := Pass;
    }

    /** `set_splitting` with the guard testing `group_field`, as evidently intended:
        leave-one-out without a grouping field raises and changes nothing. */
    method SetSplittingFixed(strategy: string, extras: map<string, Value>) returns (r: Outcome<Error>)
      requires StrategyKey !in extras
      modifies this
      ensures strategy !in SplitStrategies ==>
                r == Fail(InvalidStrategy(Splitting, strategy, SplitStrategies)) && unchanged(this)
      ensures strategy == "loo" && old(groupField).None? ==> r == Fail(MissingGrouping) && unchanged(this)
      ensures r.Pass? <==> strategy in SplitStrategies && (strategy == "loo" ==> old(groupField).Some?)
      ensures r.Pass? ==> splitArgs == Some(SpecDict(strategy, extras))
      ensures r.Fail? ==> unchanged(this)
      ensures unchanged(this`groupField, this`orderingArgs, this`negSampleArgs)
      ensures old(Validated()) ==> Validated()
    {
      if strategy !in SplitStrategies {
        return Fail(InvalidStrategy(Splitting, strategy, SplitStrategies));
      }
      if strategy == "loo" && AttributeIsNone("group_field") {
        return Fail(MissingGrouping);
      }
      var spec := map[StrategyKey := Str(strategy)];
      spec := spec + extras;
      splitArgs := Some(Dict(spec));
      r := Pass;
    }

    /** `leave_one_out()`: succeeds whatever the grouping is. */
    method LeaveOneOut() returns (r: Outcome<Error>)
      modifies this
      ensures r == Pass && splitArgs == Some(SpecDict("loo", map[]))
      ensures unchanged(this`groupField, this`orderingArgs, this`negSampleArgs)
      ensures old(Validated()) ==> Validated()
    {
      r := SetSplitting("loo", map[]);
    }

    /** `leave_one_out()` over the corrected guard. */
    method LeaveOneOutFixed() returns (r: Outcome<Error>)
      modifies this
      ensures r.Pass? <==> old(groupField).Some?
      ensures r.Fail? ==> r.error == MissingGrouping && unchanged(this)
      ensures r.Pass? ==> splitArgs == Some(SpecDict("loo", map[]))
      ensures unchanged(this`groupField, this`orderingArgs, this`negSampleArgs)
      ensures old(Validated()) ==> Validated()
    {
      r := SetSplittingFixed("loo", map[]);
    }

    /** `split_by_ratio(ratios)`: anything but a list raises; the ratios are stored as given. */
    method SplitByRatio(ratios: Value) returns (r: Outcome<Error>)
      modifies this
      ensures r.Pass? <==> ratios.List?
      ensures r.Fail? ==> r.error == TypeMismatch("ratios", ratios) && unchanged(this)
      ensures r.Pass? ==> splitArgs == Some(SpecDict("by_ratio", map["ratios" := ratios]))
      ensures unchanged(this`groupField, this`orderingArgs, this`negSampleArgs)
      ensures old(Validated()) ==> Validated()
    {
      if !ratios.List? {
        return Fail(TypeMismatch("ratios", ratios));
      }
      r := SetSplitting("by_ratio", map["ratios" := ratios]);
    }

    /** `split_by_value(field, values, ascending)`: a non-string field raises before anything
        changes; a scalar becomes a one-element list; the list is sorted in place (descending
        when not `ascending`) and stored with `ascending`; the field itself is not stored. */
    method SplitByValue(field: Value, values: Cutoffs, ascending: bool) returns (r: Outcome<Error>)
      modifies this, if values.Listed? then {values.list} else {}
      ensures r.Pass? <==> field.Str?
      ensures r.Fail? ==> r.error == TypeMismatch("field", field) && unchanged(this)
      ensures r.Fail? && values.Listed? ==> unchanged(values.list)
      ensures r.Pass? ==> splitArgs == Some(SpecDict("by_value", map[
                "values" := List(Ints(Sorting.Sorted(if values.Scalar? then [values.x] else old(values.list[..]), !ascending))),
                "ascending" := Bool(ascending)]))
      ensures r.Pass? && values.Listed? ==> values.list[..] == Sorting.Sorted(old(values.list[..]), !ascending)
      ensures unchanged(this`groupField, this`orderingArgs, this`negSampleArgs)
      ensures old(Validated()) ==> Validated()
    {
      if !field.Str? {
        return Fail(TypeMismatch("field", field));
      }
      var list: array<int>;
      if values.Listed? {
        list := values.list;
      } else {
        list := new int[1];
        list[0] := values.x;
        assert list[..] == [values.x];
      }
      Sorting.SortInPlace(list, !ascending);
      r := SetSplitting("by_value", map["values" := List(Ints(list[..])), "ascending" := Bool(ascending)]);
    }

    /** `set_neg_sampling(strategy, **extras)`: an unknown strategy raises before anything
        changes; otherwise the negative-sampling spec is replaced, not merged. */
    method SetNegSampling(strategy: string, extras: map<string, Value>) returns (r: Outcome<Error>)
      requires StrategyKey !in extras
      modifies this
      ensures r.Pass? <==> strategy in NegSampleStrategies
      ensures r.Fail? ==> r.error == InvalidStrategy(NegSampling, strategy, NegSampleStrategies) && unchanged(this)
      ensures r.Pass? ==> negSampleArgs == Some(SpecDict(strategy, extras))
      ensures unchanged(this`groupField, this`orderingArgs, this`splitArgs)
      ensures old(Validated()) ==> Validated()
    {
      if strategy !in NegSampleStrategies {
        return Fail(InvalidStrategy(NegSampling, strategy, NegSampleStrategies));
      }
      var spec := map[StrategyKey := Str(strategy)];
      spec := spec + extras;
      negSampleArgs := Some(Dict(spec));
      r := Pass;
    }

    /** `neg_sample_to(to)`; `to == -1` means ranking against every candidate. */
    method NegSampleTo(to: Value) returns (r: Outcome<Error>)
      modifies this
      ensures r == Pass && negSampleArgs == Some(SpecDict("to", map["to" := to]))
      ensures unchanged(this`groupField, this`orderingArgs, this`splitArgs)
      ensures old(Validated()) ==> Validated()
    {
      r := SetNegSampling("to", map["to" := to]);
    }

    /** `full_sort()`: the same as `neg_sample_to(-1)`. */
    method FullSort() returns (r: Outcome<Error>)
      modifies this
      ensures r == Pass && negSampleArgs == Some(SpecDict("to", map["to" := Int(-1)]))
      ensures unchanged(this`groupField, this`orderingArgs, this`splitArgs)
      ensures old(Validated()) ==> Validated()
    {
      r := NegSampleTo(Int(-1));
    }

    /** `neg_sample_by(by)`: `by` negatives for each positive (the parameter is renamed,
        `by` being a Dafny keyword). */
    method NegSampleBy(count: Value) returns (r: Outcome<Error>)
      modifies this
      ensures r == Pass && negSampleArgs == Some(SpecDict("by", map["by" := count]))
      ensures unchanged(this`groupField, this`orderingArgs, this`splitArgs)
      ensures old(Validated()) ==> Validated()
    {
      r := SetNegSampling("by", map["by" := count]);
    }
  }
}
