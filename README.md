# EvalSetting — a Dafny model

This project models `EvalSetting`, the evaluation-setting builder of a recommender
evaluation pipeline (config/eval_setting.py). The object records intent for four concerns:
grouping, ordering, splitting and negative sampling. Each is an optional value. The
constructor copies them from the configuration without validation. Setters check a strategy
name against a fixed legal set and then replace the whole spec with `{'strategy': s}` plus
the keyword arguments. Convenience wrappers (`shuffle`, `sort_by`, `leave_one_out`,
`split_by_ratio`, `split_by_value`, `neg_sample_to`, `full_sort`, `neg_sample_by`) call the
setters. `__str__` summarises the four concerns.

Layout:

- `wrappers.dfy` — `Option` (Python's None), `Result` (a value or a raised exception),
  `Outcome` (a method that returns None or raises).
- `values.dfy` — Python values (`Value`), the configuration as `map<string, Value>` with
  `Lookup`, and the built-in `len` (`Len`).
- `sorting.dfy` — `list.sort(reverse=...)` on ints. `Sorted` is the reference definition, an
  insertion sort. `SortInPlace` sorts an array in place and is proved equal to it.
- `eval_setting.dfy` — the class `EvalSetting`, its errors, and the summary lines.
- `scenarios.dfy` — client code: the docstrings' examples and a few further calls, with what
  the contracts let a caller conclude.

The model follows the code as written. Two places where the behaviour differs from the
intent stated by the docstrings and messages are reproduced, and each has a corrected member beside it (see Findings):

- The leave-one-out guard tests the bound method `group_by`, not `group_field`, so it never
  fires. `SetSplitting` models this by testing `AttributeIsNone("group_by")`, which is always
  false.
- `sort_by` measures a string field with `len`, which counts its characters.

Three more places where the model follows the code rather than the intent its text suggests:

- The message at config/eval_setting.py:106 ("Leave-One-Out request group firstly") states an
  intent that the guard at line 105 never enforces. `SetSplitting` never raises
  `MissingGrouping`.
- The test `len(ascending) == 1` at line 80 also holds when `field` is a one-character string
  or a one-key dict. In those cases the default `ascending` collapses to the scalar True too.
- The two `isinstance` failures at lines 115 and 120 raise `ValueError`. The model names them
  `TypeMismatch(parameter, given)`.

The constructor trusts the configuration and the setters validate. `Validated()` says that every
stored spec is a dict with a strategy its setter accepts. Every mutating method keeps
`Validated()`, and `Render` succeeds on every setting that satisfies it. A spec copied in by the
constructor can break it (`Scenarios.UnvalidatedConfigSpec`).

## Model

| member | source | states |
|---|---|---|
| Values.Lookup | config/eval_setting.py:17 | `config[key]` is the stored value when the key is present and None otherwise |
| Values.Len | config/eval_setting.py:79 | `len` is defined exactly for strings (character count), lists and dicts; anything else raises |
| EvalSettings.SpecDict | config/eval_setting.py:71-72 | the stored spec has exactly the keys `strategy` and the extras' keys, holding the strategy and the extras' values; nothing from an earlier spec is kept |
| EvalSettings.DefaultAscending | config/eval_setting.py:78-81 | the default `ascending` is the scalar True exactly when the length is 1, otherwise a list of that many Trues |
| EvalSettings.LineFor | config/eval_setting.py:23-25 | a spec line is readable exactly when the spec is None or a dict with a `strategy` key; it is the "No …" line exactly when the spec is None or its strategy is 'none'; otherwise the KeyError or TypeError that `spec['strategy']` raises |
| Values.Trues | config/eval_setting.py:79 | `[True] * n` is n copies of True |
| EvalSettings.EvalSetting.constructor | config/eval_setting.py:7-18 | each of the four attributes equals `config[key]` when the configuration holds it and is None otherwise; no validation |
| EvalSettings.EvalSetting.SetAttr | config/eval_setting.py:18 | `setattr` changes the named data attribute and no other |
| EvalSettings.EvalSetting.Render | config/eval_setting.py:20-26 | the header then exactly four lines: grouping, ordering, splitting, negative sampling; each is "No …" exactly when its spec is None or (not for grouping) has strategy 'none'; raises at the first spec whose strategy cannot be read; never raises on a setting whose specs all came from setters (`Validated()`) |
| EvalSettings.EvalSetting.AttributeIsNone | config/eval_setting.py:105 | `self.<name> is None` can hold only for the four data attributes; for `group_by`, a bound method, it is false, and for `group_field` it is exactly "no grouping" |
| EvalSettings.EvalSetting.GroupBy | config/eval_setting.py:41-42 | the grouping field becomes the argument (None clears it); nothing else changes; keeps `Validated()` |
| EvalSettings.EvalSetting.GroupByUser | config/eval_setting.py:44-45 | the grouping field becomes `config['USER_ID_FIELD']`; nothing else changes; keeps `Validated()` |
| EvalSettings.EvalSetting.SetOrdering | config/eval_setting.py:67-72 | succeeds exactly for 'none', 'shuffle' and 'by'; otherwise raises with the offending name and the legal set and changes nothing; on success replaces the ordering spec and changes no other field; keeps `Validated()` |
| EvalSettings.EvalSetting.Shuffle | config/eval_setting.py:74-75 | the ordering spec becomes `{strategy: shuffle}`; keeps `Validated()` |
| EvalSettings.EvalSetting.SortBy | config/eval_setting.py:77-82 | stores strategy 'by', the field unchanged, and the given `ascending` or the default for `len(field)`; raises without change when `ascending` is omitted and `field` has no length; keeps `Validated()` |
| EvalSettings.EvalSetting.SortByFixed | config/eval_setting.py:77-82 | as SortBy, except that a string field gets the scalar True by default; keeps `Validated()` |
| EvalSettings.EvalSetting.SetSplitting | config/eval_setting.py:101-108 | succeeds exactly for 'none', 'by_ratio', 'by_value' and 'loo', whatever the grouping; otherwise raises and changes nothing; on success replaces the split spec only; keeps `Validated()` |
| EvalSettings.EvalSetting.SetSplittingFixed | config/eval_setting.py:101-108 | as SetSplitting, but 'loo' without a grouping field raises MissingGrouping and changes nothing; keeps `Validated()` |
| EvalSettings.EvalSetting.LeaveOneOut | config/eval_setting.py:110-111 | always succeeds and stores `{strategy: loo}`; keeps `Validated()` |
| EvalSettings.EvalSetting.LeaveOneOutFixed | config/eval_setting.py:110-111 | succeeds exactly when a grouping field is set; keeps `Validated()` |
| EvalSettings.EvalSetting.SplitByRatio | config/eval_setting.py:113-116 | a non-list raises and changes nothing; a list is stored as given under 'by_ratio'; keeps `Validated()` |
| EvalSettings.EvalSetting.SplitByValue | config/eval_setting.py:118-124 | a non-string field raises before anything changes; a scalar becomes a one-element list; the caller's list is sorted in place; the stored spec holds only strategy, the sorted values and `ascending`; keeps `Validated()` |
| EvalSettings.EvalSetting.SetNegSampling | config/eval_setting.py:140-145 | succeeds exactly for 'none', 'to' and 'by'; otherwise raises and changes nothing; on success replaces the negative-sampling spec only; keeps `Validated()` |
| EvalSettings.EvalSetting.NegSampleTo | config/eval_setting.py:147-148 | stores `{strategy: to, to: to}`; keeps `Validated()` |
| EvalSettings.EvalSetting.FullSort | config/eval_setting.py:150-151 | stores the same spec as `neg_sample_to(-1)`; keeps `Validated()` |
| EvalSettings.EvalSetting.NegSampleBy | config/eval_setting.py:153-154 | stores `{strategy: by, by: by}`; keeps `Validated()` |
| Sorting.Insert | config/eval_setting.py:123 | inserting places one more element; with InsertOrdered and InsertPermutes, the step of the reference sort |
| Sorting.Sorted | config/eval_setting.py:123 | the reference result of `values.sort(reverse=...)`, as long as its input; ordered and a permutation by SortedOrdered and SortedPermutes |
| Sorting.SortInPlace | config/eval_setting.py:123 | the array ends up equal to `Sorted` of its old contents |
| Sorting.SortedOrdered | config/eval_setting.py:123 | the sorted list is non-decreasing, or non-increasing when `reverse` |
| Sorting.SortedPermutes | config/eval_setting.py:123 | the sorted list is a permutation of the input |
| Sorting.OrderedUnique | config/eval_setting.py:123 | two ordered permutations of the same elements are equal, so any correct sort gives `Sorted`'s result |
| Sorting.OrderedPermutationIsSorted | config/eval_setting.py:123 | an ordered permutation of the input is `Sorted` of it |
| Sorting.InsertOrdered | config/eval_setting.py:123 | inserting into an ordered list keeps it ordered |
| Sorting.InsertPermutes | config/eval_setting.py:123 | inserting adds exactly the one element |
| Scenarios.OnlyGroupFieldConfigured | config/eval_setting.py:15-18 | a configuration holding only `group_field` sets the grouping and leaves the three specs None |
| Scenarios.FreshSummary | config/eval_setting.py:21-25 | a fresh setting renders the header and the four "No …" lines |
| Scenarios.UnvalidatedConfigSpec | config/eval_setting.py:17-18 | a configured spec without a strategy is accepted at construction and makes the summary raise KeyError |
| Scenarios.UnknownOrderingKeepsSpec | config/eval_setting.py:69-70 | an unknown ordering strategy raises and the earlier spec survives |
| Scenarios.SetOrderingReplaces | config/eval_setting.py:71-72 | a second `set_ordering` discards the first one's extras |
| Scenarios.SortByTwoFields | config/eval_setting.py:77-82 | `sort_by(['a', 'b'])` stores `ascending = [True, True]` |
| Scenarios.SortByOneField | config/eval_setting.py:80-81 | `sort_by(['a'])` stores the scalar True |
| Scenarios.SortByStringCountsCharacters | config/eval_setting.py:64 | `sort_by('timestamp')` stores nine Trues |
| Scenarios.SortByStringFixed | config/eval_setting.py:64 | corrected, `sort_by('timestamp')` stores the scalar True |
| Scenarios.LeaveOneOutWithoutGrouping | config/eval_setting.py:105 | leave-one-out is accepted with no grouping field |
| Scenarios.LeaveOneOutFixedNeedsGrouping | config/eval_setting.py:105-106 | corrected, leave-one-out raises before `group_by_user` and succeeds after it |
| Scenarios.SplitByScalarRatio | config/eval_setting.py:114-115 | `split_by_ratio(0.8)` raises and stores nothing |
| Scenarios.SplitByValueDescending | config/eval_setting.py:98 | `split_by_value('month', [6, 7], ascending=False)` leaves the caller's list and the stored values as [7, 6] |
| Scenarios.SplitByScalarValue | config/eval_setting.py:121-122 | `split_by_value('month', 7)` stores [7] |
| Scenarios.FullSortIsNegSampleToMinusOne | config/eval_setting.py:137 | `full_sort()` and `neg_sample_to(-1)` leave equal negative-sampling specs |

## Left out

- Exact text of `__str__` and of the exception messages. This is Python `str.format` of dicts and lists. The summary is modelled as a sequence of `Line`s (header, "No …" line, or line showing the stored value), and exceptions as `Error` values carrying what the message reports.
- `__repr__`: it only delegates to `__str__`.
- Float semantics: `ratios` is stored as an opaque `Value`, and no sum-to-one check exists to model.
- EvalSettings.EvalSetting.SplitByValue: the cut-off values are ints. Python's sort of floats, of mixed types, or of types where comparison raises is not modelled.
- Aliasing of stored objects. Specs store `Value`s, which are immutable snapshots. In Python the spec holds the caller's own objects. This affects every setter's keyword arguments (`sort_by(field=lst)` stores `lst`, lines 72 and 82). It affects the list that `split_by_value` sorts and stores (lines 123-124). It affects the configuration's dicts, which the constructor copies in (line 18). Later changes to those objects show in the Python spec but not in the model.
- The configuration object's own lookup: it is a map, and a key the configuration holds as None is modelled as an absent key.
- Python dynamic typing beyond the two `isinstance` checks and `len`. Strategy names are strings. Dictionary keys are strings.
- `Value` has no None case. So None cannot be passed as a keyword argument or as the `values` of `split_by_value`. Examples are `neg_sample_to(None)`, `set_ordering('by', field=None)`, and `split_by_value('month', None)`, which in Python stores `[None]` (lines 121-124). A list element cannot be None either. None is expressible only as a whole attribute (`Option`) and as the argument of `group_by`.
- Default parameter values (`strategy='none'`, `field=None`, `ascending=True`): callers pass every argument. An omitted `ascending` of `sort_by` is `None`.
- Dict key order in the stored specs (visible only in the rendered text): specs are maps.
- Downstream grouping, ordering, splitting and sampling of data: these are not part of this file.

## Findings

| source | as written | input that shows it | evidently intended | confidence | as-written member | corrected member |
|---|---|---|---|---|---|---|
| config/eval_setting.py:105 | the guard tests `self.group_by is None`, a bound method that is never None, so leave-one-out is never refused | `leave_one_out()` on a setting whose `group_field` is None: it succeeds | test `self.group_field is None` and raise | high (not executed) | Scenarios.LeaveOneOutWithoutGrouping (over EvalSettings.EvalSetting.SetSplitting) | EvalSettings.EvalSetting.SetSplittingFixed (Scenarios.LeaveOneOutFixedNeedsGrouping) |
| config/eval_setting.py:79 | `[True] * len(field)` counts the characters of a string field | `sort_by('timestamp')` (the docstring's own example at line 64) stores nine Trues | a string names one field, so the default is the scalar True | medium (not executed) | Scenarios.SortByStringCountsCharacters (over EvalSettings.EvalSetting.SortBy) | EvalSettings.EvalSetting.SortByFixed (Scenarios.SortByStringFixed) |
