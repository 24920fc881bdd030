# neuro-metrics: group comparison and palette model

A Dafny model of the two pieces of the neuro-metrics repository that hold
decision logic rather than plotting plumbing:

- **`compare_groups`** (`src/sber_neuro/stats/tests.py`). It compares two
  samples. It drops NaN entries from each sample. It classifies each sample
  as normal or not from a Shapiro-Wilk p-value (normal when p ≥ 0.05). A
  `ValueError` from that diagnostic counts as "neither sample is normal". It
  runs the independent T-test when both samples are normal and the
  Mann-Whitney U test otherwise. It flags the result significant when
  p < 0.05. When significant, it names the group with the strictly higher
  mean (a tie names group B). Finally it assembles and strips the message.
- **The colour palettes** (`src/neuro_metrics/colors.py`). They cover the
  corporate colour constants and the named palettes. `get_palette` looks a
  name up, falls back to the primary palette, and returns the whole palette,
  a slice or a cyclic extension. `get_color` indexes the primary palette
  modulo its length.

Files:

- `stats.dfy`, module `Stats`: the comparison pipeline.
- `pytext.dfy`, module `PyText`: Python's `str.strip()`, which the message
  assembly ends with.
- `colors.dfy`, module `Colors`: the palettes.

Both source files are pure, so the model is functions, datatypes and lemmas.
The scipy routines are not modelled. They are a parameter, `Backend`, with
one total function each for `stats.shapiro`, `stats.ttest_ind` and
`stats.mannwhitneyu`. Each returns an `Outcome`: a p-value that may be NaN,
or a raised exception (`ValueError` or any other). The `:.4f` formatter is a
parameter `fmt: Num -> string`. A numpy float is `Num = NaN | Val(r: real)`.

Behaviour of the code worth knowing, and how the model states it:

- A tie of the means names group B (`TieGoesToB`).
- The code defines no error of its own. An exception raised by the selected
  test, or a non-`ValueError` raised by the diagnostic, propagates
  unchanged. The model returns `Err` with that exception (`Decide`,
  `CompareGroups`).
- A sample of fewer than three values reaches the rank test through the
  diagnostic. Depending on the scipy version, `stats.shapiro` either raises
  `ValueError` for it or reports a NaN p-value, and NaN ≥ 0.05 is false.
  The model states the rank-test choice for both outcomes
  (`DiagnosticFailureForcesMannWhitney`).
- Empty samples are not rejected. `np.mean` of an empty sample is NaN, and
  NaN compares false, so group B is named. `Mean` returns `NaN` for `[]`,
  and `Higher` then names group B.

## Model

| member | source | states |
|---|---|---|
| `Stats.DropNaN` | src/sber_neuro/stats/tests.py:29-30 | The filtered sample is never longer than the input, and is exactly as long iff the input has no NaN |
| `Stats.DropNaNAppend` | src/sber_neuro/stats/tests.py:28-30 | Filtering a concatenation is the concatenation of the filtered parts; with the singleton cases this fixes the filter as "the non-NaN values in their original order" |
| `Stats.DropNaNMembers` | src/sber_neuro/stats/tests.py:28-30 | A value survives filtering iff it occurs as a non-NaN entry |
| `Stats.DropNaNKeepsValues` | src/sber_neuro/stats/tests.py:28-30 | A sample without NaN is kept whole: same length, same values at every index |
| `Stats.DropNaNIgnoresInsertedNaN` | src/sber_neuro/stats/tests.py:28-30 | Inserting a NaN anywhere leaves the filtered sample unchanged |
| `Stats.PassesNormality` | src/sber_neuro/stats/tests.py:37-38 | A NaN p-value never passes the normality threshold; a numeric p-value passes iff it is not significant (p ≥ 0.05 versus p < 0.05) |
| `Stats.Classify` | src/sber_neuro/stats/tests.py:34-43 | A sample is normal iff both diagnostics completed and its own p-value is ≥ 0.05; a `ValueError` on either sample (also on `b` after `a` succeeded) makes both not normal; any other exception propagates, and `b` is not diagnosed once `a` raised |
| `Stats.Select` | src/sber_neuro/stats/tests.py:47-54 | The T-test iff both samples are normal, the Mann-Whitney U test otherwise |
| `Stats.Run` | src/sber_neuro/stats/tests.py:49-53 | The T-test choice returns `ttest_ind`'s outcome and the Mann-Whitney choice returns `mannwhitneyu`'s outcome |
| `Stats.Significant` | src/sber_neuro/stats/tests.py:56 | A NaN p-value is never significant; a numeric one is significant iff it is below 0.05 |
| `Stats.ThresholdBoundary` | src/sber_neuro/stats/tests.py:37-56 | p = 0.05 exactly counts as normal and as not significant; no p-value is both significant and normal |
| `Stats.Mean` | src/sber_neuro/stats/tests.py:59-60 | The mean is a number iff the sample is non-empty, and then mean · length equals the sum |
| `Stats.Higher` | src/sber_neuro/stats/tests.py:59-66 | Group A is named iff both samples are non-empty and sum_a·\|b\| > sum_b·\|a\| (mean_a > mean_b without division); otherwise group B |
| `Stats.TieGoesToB` | src/sber_neuro/stats/tests.py:63-66 | Equal means name group B |
| `Stats.Decide` | src/sber_neuro/stats/tests.py:32-60 | The T-test is selected iff both diagnostics completed with p ≥ 0.05, otherwise Mann-Whitney U; the reported p is the selected test's; significant iff p < 0.05 (NaN is not significant); the named group is A iff mean_a > mean_b; the call fails iff a diagnostic raises a non-`ValueError` or the selected test raises, and the error returned is that exception |
| `Stats.Message` | src/sber_neuro/stats/tests.py:67-72 | The f-strings followed by `.strip()`: a non-empty message neither starts nor ends with whitespace (its exact text is `MessageStripped`) |
| `Stats.MessageStripped` | src/sber_neuro/stats/tests.py:67-72 | `.strip()` of the assembled f-string removes only the space an empty direction leaves; the text is otherwise unchanged |
| `Stats.Render` | src/sber_neuro/stats/tests.py:62-72 | The message is the lead, the formatted p-value, "Used " and the test name, then the direction sentence exactly when significant |
| `Stats.RenderShape` | src/sber_neuro/stats/tests.py:67-72 | The message starts with "Significant difference found" iff significant and with "No significant difference found" iff not; it ends with "." and never with whitespace |
| `Stats.NoDirectionUnlessSignificant` | src/sber_neuro/stats/tests.py:62-72 | A non-significant message contains no 'G', so no "Group A/B mean is higher.", if the formatted p-value has none |
| `Stats.CompareGroups` | src/sber_neuro/stats/tests.py:4-78 | On the NaN-filtered samples: the call fails iff a diagnostic that runs raises something other than `ValueError`, or the selected test raises, and returns that exception; `p_value` is the selected test's p-value; `significant` iff p < 0.05; the message is given in full, with the test name and (only when significant) the higher-mean sentence |
| `Stats.MethodIgnored` | src/sber_neuro/stats/tests.py:4-16 | The `method` argument has no effect on the result |
| `Stats.NaNInsertionInvisible` | src/sber_neuro/stats/tests.py:28-30 | Inserting a NaN into either sample at any position leaves the whole result unchanged; the two samples are filtered independently |
| `Stats.OnlySelectedTestMatters` | src/sber_neuro/stats/tests.py:47-54 | Exactly one test runs: backends that agree on the diagnostics and on the selected test give the same result, whatever the other test does |
| `Stats.DiagnosticFailureForcesMannWhitney` | src/sber_neuro/stats/tests.py:34-54 | When the diagnostic on either sample raises `ValueError` or reports a NaN p-value (scipy does one or the other for fewer than 3 values), the Mann-Whitney U test is used; the call fails only if that test raises or the diagnostic on b raises another exception after the one on a completed |
| `PyText.IsSpace` | src/sber_neuro/stats/tests.py:72 | The whitespace `.strip()` removes, as `str.isspace` defines it: among ASCII exactly tab, line feed, vertical tab, form feed, carriage return, the separators U+1C-U+1F and space; no whitespace lies above U+3000 |
| `PyText.Strip` | src/sber_neuro/stats/tests.py:72 | `strip` never lengthens the text, and a non-empty result neither starts nor ends with whitespace |
| `PyText.StripLeading` | src/sber_neuro/stats/tests.py:72 | `lstrip` returns a suffix, everything dropped is whitespace, and the result does not start with whitespace |
| `PyText.StripTrailing` | src/sber_neuro/stats/tests.py:72 | `rstrip` returns a prefix, everything dropped is whitespace, and the result does not end with whitespace |
| `PyText.StripLeadingAfterSpace` | src/sber_neuro/stats/tests.py:72 | `(w + u).lstrip() == u` for whitespace `w` and `u` not starting with whitespace |
| `PyText.StripTrailingBeforeSpace` | src/sber_neuro/stats/tests.py:72 | `(u + w).rstrip() == u` for whitespace `w` and `u` not ending with whitespace |
| `PyText.StripExact` | src/sber_neuro/stats/tests.py:72 | `strip` of whitespace, then a text trimmed at both ends, then whitespace, is exactly that text |
| `PyText.StripAllSpace` | src/sber_neuro/stats/tests.py:72 | `strip` of an all-whitespace string is empty |
| `Colors.Lookup` | src/neuro_metrics/colors.py:84-94 | The lookup is never empty; a registered name gives its palette, any other name gives `PALETTE_PRIMARY` |
| `Colors.SlicePrefix` | src/neuro_metrics/colors.py:100 | Python's `palette[:n]`: for n ≥ 0 the first min(n, len) items; for n < 0 the palette without its last -n items, empty once -n reaches the length |
| `Colors.Cycle` | src/neuro_metrics/colors.py:103 | The cycled list has exactly n colours, and colour i is palette[i mod len] |
| `Colors.GetPalette` | src/neuro_metrics/colors.py:65-103 | `None` returns the named palette unchanged; n ≤ len gives the Python slice `palette[:n]`; n > len gives n colours |
| `Colors.GetPaletteCycles` | src/neuro_metrics/colors.py:99-103 | For every n ≥ 0 the result has length n and colour i is palette[i mod len], so the prefix and the cycling branches agree |
| `Colors.GetPalettePrefix` | src/neuro_metrics/colors.py:99-100 | For 0 ≤ n ≤ len the result is the length-n prefix; n = len gives the whole palette |
| `Colors.GetPaletteNegative` | src/neuro_metrics/colors.py:99-100 | A negative n drops the last \|n\| colours, and gives the empty list once \|n\| reaches the length |
| `Colors.LookupFallback` | src/neuro_metrics/colors.py:84-94 | An unregistered name behaves as 'primary'; 'categorical' is the same list as 'primary'; the primary palette has 6 colours |
| `Colors.GetColor` | src/neuro_metrics/colors.py:106-120 | The colour is always in the primary palette, and for 0 ≤ i < 6 it is colour i |
| `Colors.GetColorPeriodic` | src/neuro_metrics/colors.py:120 | `get_color(i + 6k) == get_color(i)` for every integer i and k |
| `Colors.GetColorAgreesWithPalette` | src/neuro_metrics/colors.py:29-36 | `get_color(0)` is SBER_GREEN '#21A038', and `get_color(i)` is colour i of `get_palette('primary', n)` for i < n |

## Left out

- scipy's numerics are not modelled: `stats.shapiro`, `stats.ttest_ind` and `stats.mannwhitneyu` are uninterpreted `Backend` functions. Consequently the model does not state that p-values lie in [0, 1], and fewer than three values leads to the rank test only under the premise that the diagnostic raises `ValueError` or reports a NaN p-value, which is what scipy does for such samples.
- Warnings are not modelled: `np.mean`'s "Mean of empty slice" RuntimeWarning and scipy's small-sample and zero-range warnings are not represented. Under a warnings filter that turns them into errors, the empty-sample path would raise instead of naming group B.
- The `:.4f` formatting of the p-value is the uninterpreted parameter `fmt`.
- Floating point is not modelled. Sums and means are exact reals, so the rounding of `np.mean` cannot flip the mean comparison in the model. `float(p_value)` is the identity.
- Infinities are not modelled. `Num` has only NaN and finite values; `np.isnan` keeps an infinity, and its arithmetic is not represented.
- The conversion `np.asarray` of lists or pandas series is not modelled. The inputs are already sequences of `Num`.
- `Stats.NoDirectionUnlessSignificant`: stated as "no 'G' in the message", under the premise that the formatted p-value has no 'G'. `fmt` is opaque, so the model cannot rule out a formatter that prints one.
- Default arguments are not modelled: every parameter is explicit. `get_palette(name='primary', n_colors=None)` is `GetPalette("primary", None)`, `get_color(index=0)` is `GetColor(0)`, and `compare_groups(..., method='t-test')` takes any `testMethod`, which `MethodIgnored` shows has no effect.
- `Colors.GetColor`: only integer indices are modelled; other Python values for `index` (floats, booleans) are not.
- `Colors.GetPalette`: only integers and `None` are modelled for `n_colors`; other Python values (floats, booleans) are not.
- The aliasing of the returned list is not modelled. With `n_colors=None`, `get_palette` returns the module's own list object, so a caller mutating it would change the constant.
- `src/neuro_metrics/plotting.py`, `src/sber_neuro/viz/theme.py`, `app.py`, `examples.py` and `src/neuro_metrics/__init__.py` are not part of this model. They are plotting, theming, UI and re-export code with no decision logic.
