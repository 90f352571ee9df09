/** Client code, as the docstrings of the evaluation setting use it, with what the
    contracts of the setting let a caller conclude. */
module Scenarios {
  import opened Wrappers
  import opened Values
  import opened EvalSettings

  /** A configuration holding only `group_field` groups and leaves the three specs unset. */
  method OnlyGroupFieldConfigured() returns (es: EvalSetting)
    ensures es.groupField == Some(Str("user_id"))
    ensures es.orderingArgs.None? && es.splitArgs.None? && es.negSampleArgs.None?
  {
    es := new EvalSetting(map["group_field" := Str("user_id")]);
  }

  /** A fresh setting renders the header and the four "No ..." lines in order. */
  method FreshSummary() returns (r: Result<seq<Line>, Error>)
    ensures r == Success([Header, Off(Grouping), Off(Ordering), Off(Splitting), Off(NegSampling)])
  {
    var es := new EvalSetting(map[]);
    r := es.Render();
  }

  /** A spec copied in from the configuration is not validated: a dictionary without a
      strategy is accepted at construction and makes the summary raise. */
  method UnvalidatedConfigSpec() returns (r: Result<seq<Line>, Error>)
    ensures r == Failure(NoStrategyKey(Dict(map["field" := Str("timestamp")])))
  {
    var es := new EvalSetting(map["ordering_args" := Dict(map["field" := Str("timestamp")])]);
    r := es.Render();
  }

  /** An unknown ordering strategy is rejected and the previous spec survives. */
  method UnknownOrderingKeepsSpec() returns (r: Outcome<Error>, stored: Option<Value>)
    ensures r == Fail(InvalidStrategy(Ordering, "random", OrderingStrategies))
    ensures stored == Some(SpecDict("shuffle", map[]))
  {
    var es := new EvalSetting(map[]);
    var _ := es.Shuffle();
    r := es.SetOrdering("random", map[]);
    stored := es.orderingArgs;
  }

  /** A later `set_ordering` discards the extras of the earlier one. */
  method SetOrderingReplaces() returns (stored: Option<Value>)
    ensures stored.Some? && stored.value.Dict? && stored.value.entries.Keys == {StrategyKey}
  {
    var es := new EvalSetting(map[]);
    var _ := es.SetOrdering("by", map["field" := Str("timestamp")]);
    var _ := es.SetOrdering("shuffle", map[]);
    stored := es.orderingArgs;
  }

  /** `sort_by(['a', 'b'])` stores `ascending = [True, True]`. */
  method SortByTwoFields() returns (stored: Option<Value>)
    ensures stored == Some(SpecDict("by", map[
              "field" := List([Str("a"), Str("b")]),
              "ascending" := List([Bool(true), Bool(true)])]))
  {
    var es := new EvalSetting(map[]);
    var _ := es.SortBy(List([Str("a"), Str("b")]), None);
    stored := es.orderingArgs;
    assert Trues(2) == [Bool(true), Bool(true)];
  }

  /** `sort_by(['a'])` stores the scalar `ascending = True`. */
  method SortByOneField() returns (stored: Option<Value>)
    ensures stored == Some(SpecDict("by", map["field" := List([Str("a")]), "ascending" := Bool(true)]))
  {
    var es := new EvalSetting(map[]);
    var _ := es.SortBy(List([Str("a")]), None);
    stored := es.orderingArgs;
  }

  /** As written, `sort_by('timestamp')` measures the string: nine copies of True. */
  method SortByStringCountsCharacters() returns (stored: Option<Value>)
    ensures stored == Some(SpecDict("by", map["field" := Str("timestamp"), "ascending" := List(Trues(9))]))
  {
    var es := new EvalSetting(map[]);
    var _ := es.SortBy(Str("timestamp"), None);
    stored := es.orderingArgs;
  }

  /** Corrected, `sort_by('timestamp')` stores the scalar True. */
  method SortByStringFixed() returns (stored: Option<Value>)
    ensures stored == Some(SpecDict("by", map["field" := Str("timestamp"), "ascending" := Bool(true)]))
  {
    var es := new EvalSetting(map[]);
    var _ := es.SortByFixed(Str("timestamp"), None);
    stored := es.orderingArgs;
  }

  /** As written, leave-one-out is accepted on a setting that has no grouping. */
  method LeaveOneOutWithoutGrouping() returns (grouping: Option<Value>, r: Outcome<Error>)
    ensures grouping.None? && r == Pass
  {
    var es := new EvalSetting(map[]);
    grouping := es.groupField;
    r := es.LeaveOneOut();
  }

  /** Corrected, leave-one-out without grouping raises; after `group_by_user` it succeeds. */
  method LeaveOneOutFixedNeedsGrouping() returns (before: Outcome<Error>, after: Outcome<Error>)
    ensures before == Fail(MissingGrouping)
    ensures after == Pass
  {
    var es := new EvalSetting(map[UserIdKey := Str("user_id")]);
    before := es.LeaveOneOutFixed();
    es.GroupByUser();
    after := es.LeaveOneOutFixed();
  }

  /** `split_by_ratio(0.8)` raises. */
  method SplitByScalarRatio() returns (r: Outcome<Error>, stored: Option<Value>)
    ensures r == Fail(TypeMismatch("ratios", Float(0.8))) && stored.None?
  {
    var es := new EvalSetting(map[]);
    r := es.SplitByRatio(Float(0.8));
    stored := es.splitArgs;
  }

  /** `split_by_value('month', [6, 7], ascending=False)` sorts the caller's list to [7, 6]. */
  method SplitByValueDescending() returns (callers: seq<int>, stored: Option<Value>)
    ensures callers == [7, 6]
    ensures stored == Some(SpecDict("by_value", map["values" := List([Int(7), Int(6)]), "ascending" := Bool(false)]))
  {
    var es := new EvalSetting(map[]);
    var list := new int[2];
    list[0], list[1] := 6, 7;
    assert list[..] == [6, 7];
    assert Sorting.Sorted([6, 7], true) == [7, 6] by {
      assert Sorting.Sorted([7], true) == [7];
      assert [6, 7][1..] == [7];
    }
    var _ := es.SplitByValue(Str("month"), Listed(list), false);
    callers := list[..];
    stored := es.splitArgs;
    assert Ints([7, 6]) == [Int(7), Int(6)];
  }

  /** `split_by_value('month', 7)` stores the one-element list [7]. */
  method SplitByScalarValue() returns (stored: Option<Value>)
    ensures stored == Some(SpecDict("by_value", map["values" := List([Int(7)]), "ascending" := Bool(true)]))
  {
    var es := new EvalSetting(map[]);
    var _ := es.SplitByValue(Str("month"), Scalar(7), true);
    stored := es.splitArgs;
    assert Ints([7]) == [Int(7)];
  }

  /** `full_sort()` and `neg_sample_to(-1)` leave equal settings. */
  method FullSortIsNegSampleToMinusOne(config: map<string, Value>) returns (a: Option<Value>, b: Option<Value>)
    ensures a == b
    ensures a == Some(SpecDict("to", map["to" := Int(-1)]))
  {
    var x := new EvalSetting(config);
    var y := new EvalSetting(config);
    var _ := x.FullSort();
    var _ := y.NegSampleTo(Int(-1));
    a, b := x.negSampleArgs, y.negSampleArgs;
  }
}
