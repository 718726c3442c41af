# AGENTS.md compliance checker — a verified model

`scripts/check_agents_compliance.py` is the repository's style checker. Its class
`AGENTSCompliance` reads a Python file and runs ten checks over its text:

1. deprecated `typing` imports;
2. union types written with `|`;
3. bare `except:` clauses;
4. return type hints;
5. naming;
6. docstrings;
7. line length;
8. import order;
9. thread-safety idioms;
10. use of the logger.

Each check appends to one of two lists. `issues` holds `(file, message, severity)`, with 1
for a warning and 2 for an error. `passed` holds messages. `report` then lists the errors and
the warnings, and returns exit code 1 when any error was recorded.

The model has three modules:

- `PyStr` (`pystr.dfy`) holds the Python `str` operations the checker uses:
  - `split("\n")`, `strip()`, `isspace()`, `in` and `startswith`;
  - `Path.name`;
  - the decimal rendering of a count inside an f-string.

  Each is proved against a characterisation of its own: splitting then joining gives the
  original string, stripping removes exactly the surrounding whitespace, and reading the
  decimal digits back gives the number.
- `Checks` (`checks.dfy`) gives, for every check, the `Effect` it has: the issues and the
  passed messages it appends, in order.
  - An `...Outcome` lemma per check states what the source promises about the check.
  - `FileEffect` is `check_file`, the ten checks chained in order.
  - The filters and the exit code of `report` live here too.
  - Messages are a `Message` datatype. `Text` renders each one as the checker's f-string
    writes it: the mark of the message's `Kind` (✅ for a passed check, ❌ for an error, ⚠️ for
    a warning), a space, and the rest of the text.
- `AgentsCompliance` (`checker.dfy`) holds the checker object itself: class `Checker`, with
  the `seq` fields `issues` and `passed`. Every check method appends exactly the effect
  `Checks` gives for it.
  - The import-section scan of `_check_isort_order` keeps its loop, with the `in_imports`
    flag and the early exit.
  - So does the pattern loop of `_check_no_deprecated_typing`, with its early `return`.

What the checker sees of the file's text goes in as parameters:

- Regular-expression matching is a `Regex` value. `search(pattern, content)` is
  `re.search(...) is not None` and `findall(pattern, content, multiline)` is `re.findall`.
- The result of parsing and walking the module for type hints is a `TypeHintScan` value with
  three outcomes:
  - `SyntaxError`: the syntax error's text;
  - `Uncaught`: another exception escaped `ast.parse` (a `ValueError` for a null byte, a
    `RecursionError`, a `MemoryError`); the `except SyntaxError` clause does not catch it;
  - `Parsed`: the names of the functions without a return annotation.

Everything the checks decide from these, and from the text itself, is modelled and proved.

## Model

| member | source | states |
|---|---|---|
| PyStr.ContainsAt | scripts/check_agents_compliance.py:78 | `sub in s` holds exactly when some position of `s` starts an occurrence of `sub` |
| PyStr.ContainsPrefixOf | scripts/check_agents_compliance.py:78 | an occurrence of `p + q` is an occurrence of `p` (`"| None" in s` implies `"| " in s`) |
| PyStr.StripLeftSpec | scripts/check_agents_compliance.py:145 | `lstrip` leaves a suffix that is empty or starts with a non-space, and removes only whitespace |
| PyStr.StripRightSpec | scripts/check_agents_compliance.py:145 | `rstrip` leaves a prefix that is empty or ends with a non-space, and removes only whitespace |
| PyStr.StrippedStartsWith | scripts/check_agents_compliance.py:145 | `line.strip().startswith(c)` for a non-space `c` holds iff the first non-whitespace character of the line is `c` |
| PyStr.Split | scripts/check_agents_compliance.py:144 | `split` always yields at least one piece |
| PyStr.SplitJoin | scripts/check_agents_compliance.py:144 | joining the pieces of `split(sep)` with `sep` gives the original text back, and no piece contains `sep` |
| PyStr.NameIsLastComponent | scripts/check_agents_compliance.py:73 | `filepath.name` is the longest suffix of the path without `/`: it is either the whole path or preceded by `/` |
| PyStr.Decimal | scripts/check_agents_compliance.py:149 | the rendering of a count is a non-empty string of digits, with a leading `0` only for zero |
| PyStr.DecimalRoundTrip | scripts/check_agents_compliance.py:149 | reading the rendered digits back gives the count |
| Checks.FirstMatch | scripts/check_agents_compliance.py:68-71 | the first pattern in list order that `re.search` finds, with none of the earlier ones found; none exactly when no pattern is found |
| Checks.DeprecatedTypingOutcome | scripts/check_agents_compliance.py:57-73 | exactly one entry; an error, for the first deprecated name in list order, when one is found; the passed message only when none is |
| Checks.UnionTypesOutcome | scripts/check_agents_compliance.py:75-80 | never an issue; the passed message iff the content contains `"| "` |
| Checks.BareExceptOutcome | scripts/check_agents_compliance.py:82-87 | exactly one entry; an error iff `except\s*:` is found |
| Checks.TypeHintsOutcome | scripts/check_agents_compliance.py:89-116 | nothing when an exception other than `SyntaxError` escapes `ast.parse`; otherwise exactly one entry: an error iff the module has a syntax error, else a passed message counting the functions without a return hint |
| Checks.NamingOutcome | scripts/check_agents_compliance.py:118-128 | never an issue; at most two passed messages; none iff neither the class nor the function pattern matches |
| Checks.DocstringsOutcome | scripts/check_agents_compliance.py:130-138 | exactly one entry; the passed message iff more than five docstrings are found, otherwise a warning; both carry the count |
| Checks.LongLineIff | scripts/check_agents_compliance.py:145 | a line is too long iff it has more than 120 characters and its first non-whitespace character is not `#` |
| Checks.NumbersWhere | scripts/check_agents_compliance.py:142-146 | the kept line numbers are 1-based positions in the split, exactly the lines that satisfy the test, strictly increasing |
| Checks.LineLengthOutcome | scripts/check_agents_compliance.py:140-151 | exactly one entry; a warning carrying the number of long lines iff some line is too long, otherwise the passed message |
| Checks.ImportScanStops | scripts/check_agents_compliance.py:156-165 | the extracted section is, in order, exactly the import lines before the first line that ends the section after an import has been seen; blank and indented lines never end it |
| Checks.FirstIndex | scripts/check_agents_compliance.py:175-185 | `next(..., -1)` is -1 iff no line matches, otherwise the least index of a matching line |
| Checks.FirstIndexOrder | scripts/check_agents_compliance.py:173-190 | the first standard-library line does not come before the first third-party line iff some third-party line has no standard-library line before it |
| Checks.IsortOutcome | scripts/check_agents_compliance.py:153-192 | nothing without an import section; otherwise one entry: "Import order OK" when a kind of import is missing, and a warning iff all three kinds occur and a third-party line comes no later than the first standard-library line |
| Checks.ThreadSafetyOutcome | scripts/check_agents_compliance.py:194-203 | never an issue; one passed message for each of a lock, `with self._lock` and a thread pool that occurs, so up to three, and none iff none occurs |
| Checks.LoggingOutcome | scripts/check_agents_compliance.py:205-211 | never an issue; the passed message iff the content contains `"logger"` |
| Checks.FileEffectBounds | scripts/check_agents_compliance.py:20-55 | checking one file records between five and thirteen entries, or two or three when the type-hint check raises and the last six checks never run |
| Checks.FileErrors | scripts/check_agents_compliance.py:20-55 | the errors a file adds are exactly the issues of the deprecated-typing, bare-except and type-hint checks, in that order |
| Checks.FileExitCode | scripts/check_agents_compliance.py:242 | after a file the exit code is 0 iff it was 0 before, no deprecated import and no bare except was found, and the file had no syntax error |
| Checks.WithSeverity | scripts/check_agents_compliance.py:225-226 | the severity filter keeps at most the issues it is given |
| Checks.WithSeverityMembers | scripts/check_agents_compliance.py:225-226 | the filter keeps exactly the issues of the given severity |
| Checks.WithSeverityConcat | scripts/check_agents_compliance.py:225-226 | the filter keeps order: filtering a concatenation concatenates the filtered parts |
| Checks.SeverityPartition | scripts/check_agents_compliance.py:225-226 | errors and warnings together are the issues as a multiset, so none is lost or listed twice |
| Checks.ErrorsEmpty | scripts/check_agents_compliance.py:242 | the error list is empty iff no issue has severity 2 |
| Checks.ExitCode | scripts/check_agents_compliance.py:242 | the exit code is 0 or 1, and 0 iff no recorded issue is an error |
| Checks.DeprecatedTypingKinds | scripts/check_agents_compliance.py:57-73 | the deprecated-typing check records a ❌ message as an error and a ✅ message as passed |
| Checks.UnionTypesKinds | scripts/check_agents_compliance.py:75-80 | the union-type check records only a ✅ message, in `passed` |
| Checks.BareExceptKinds | scripts/check_agents_compliance.py:82-87 | the bare-except check records a ❌ message as an error and a ✅ message as passed |
| Checks.TypeHintsKinds | scripts/check_agents_compliance.py:89-116 | the type-hint check records a ❌ message as an error and a ✅ message as passed |
| Checks.NamingKinds | scripts/check_agents_compliance.py:118-128 | the naming check records only ✅ messages, in `passed` |
| Checks.DocstringsKinds | scripts/check_agents_compliance.py:130-138 | the docstring check records a ⚠️ message as a warning and a ✅ message as passed |
| Checks.LineLengthKinds | scripts/check_agents_compliance.py:140-151 | the line-length check records a ⚠️ message as a warning and a ✅ message as passed |
| Checks.IsortKinds | scripts/check_agents_compliance.py:153-192 | the import-order check records a ⚠️ message as a warning and ✅ messages as passed |
| Checks.ThreadSafetyKinds | scripts/check_agents_compliance.py:194-203 | the thread-safety check records only ✅ messages, in `passed` |
| Checks.LoggingKinds | scripts/check_agents_compliance.py:205-211 | the logging check records only a ✅ message, in `passed` |
| Checks.FileKindsAgree | scripts/check_agents_compliance.py:20-55 | every passed message `check_file` records is of the passed kind, and every issue's message is of the kind of its severity: the checks file each message in the right list at the right level |
| Checks.FileMarked | scripts/check_agents_compliance.py:57-211 | every entry `check_file` records is rendered starting with the mark of its list and severity: ✅ in `passed`, ❌ for severity 2, ⚠️ for severity 1 |
| Checks.MarkersDiffer | scripts/check_agents_compliance.py:57-211 | the three marks start with three different characters, so the rendered text tells a passed check, an error and a warning apart |
| Checks.ExitCodeSticks | scripts/check_agents_compliance.py:242 | once an error is recorded, appending more issues keeps the exit code at 1 |
| AgentsCompliance.ExtractImportSection | scripts/check_agents_compliance.py:155-165 | the loop with the `in_imports` flag and the `break` returns exactly the import section `ImportScanStops` characterises |
| AgentsCompliance.Checker.constructor | scripts/check_agents_compliance.py:15-18 | both lists start empty |
| AgentsCompliance.Checker.CheckNoDeprecatedTyping | scripts/check_agents_compliance.py:57-73 | the loop with its early `return` appends exactly the deprecated-typing effect |
| AgentsCompliance.Checker.CheckUnionTypes | scripts/check_agents_compliance.py:75-80 | appends exactly the union-type effect; earlier entries unchanged |
| AgentsCompliance.Checker.CheckNoBareExcept | scripts/check_agents_compliance.py:82-87 | appends exactly the bare-except effect; earlier entries unchanged |
| AgentsCompliance.Checker.CheckTypeHints | scripts/check_agents_compliance.py:89-116 | appends exactly the type-hint effect, earlier entries unchanged; reports that it raised iff an exception other than `SyntaxError` escaped `ast.parse` |
| AgentsCompliance.Checker.CheckNaming | scripts/check_agents_compliance.py:118-128 | appends exactly the naming effect; earlier entries unchanged |
| AgentsCompliance.Checker.CheckDocstrings | scripts/check_agents_compliance.py:130-138 | appends exactly the docstring effect; earlier entries unchanged |
| AgentsCompliance.Checker.CheckLineLength | scripts/check_agents_compliance.py:140-151 | appends exactly the line-length effect; earlier entries unchanged |
| AgentsCompliance.Checker.CheckIsortOrder | scripts/check_agents_compliance.py:153-192 | extracts the import section with the loop, then appends exactly the import-order effect |
| AgentsCompliance.Checker.CheckThreadSafety | scripts/check_agents_compliance.py:194-203 | appends exactly the thread-safety effect; earlier entries unchanged |
| AgentsCompliance.Checker.CheckLogging | scripts/check_agents_compliance.py:205-211 | appends exactly the logging effect; earlier entries unchanged |
| AgentsCompliance.Checker.CheckFile | scripts/check_agents_compliance.py:20-55 | the ten checks in order append exactly `FileEffect` after what the lists held before; when the type-hint check raises, only the first four have run |
| AgentsCompliance.Checker.Report | scripts/check_agents_compliance.py:213-242 | errors and warnings are the order-preserving severity filters of `issues`, together as many as the issues; the exit code is `ExitCode(issues)`, 0 or 1, and 0 iff no error was recorded |

## Left out

- Regular expressions. What `re.search` and `re.findall` match is not modelled. The model takes
  the results as the `Regex` parameter and verifies only what the checks decide from them:
  - the six `typing` patterns;
  - `except\s*:`;
  - the class, function and docstring patterns.

  The pattern strings themselves are kept as constants.
- The type-hint walk of `_check_type_hints`. `ast.parse` and the `ast.walk` that selects
  public functions without a return annotation are a parser the model cannot see. Their outcome
  is the `TypeHintScan` parameter, and `{e}` of the `SyntaxError` is its error text.
- Checker.CheckFile: an exception other than `SyntaxError` from `ast.parse` is modelled only
  as far as the checker object goes: `CheckFile` returns after the first four checks. That the
  exception then ends the `__main__` script before `report` runs is not modelled.
- Console and file I/O:
  - the `print` calls in `check_file` and `report`, including the summary counts printed there;
  - `read_text`;
  - the `__main__` block: the fixed file list, the `exists()` test and `exit`.

  `check_file` is given the file's text.
- Paths. `str(filepath)` is the path string as given, and `filepath.name` is the text after the
  last `/`. `pathlib`'s normalisation is not modelled.
- Message strings. The messages in the two lists are values of the `Message` datatype rather
  than strings. `Text` renders each one exactly as the f-string does, as `Mark(Kind(m))`, a
  space and `Body(m)`.
- Checks.NumbersWhere: the long-line list keeps the 1-based line numbers, not
  `(number, line)` pairs. The line is `Lines(content)[n - 1]`, and only the list's length
  reaches the message.
- Severity. It is the `Severity` datatype, and `Level` gives the 1 or 2 the source stores.
- `report`'s return type. It is annotated `-> None` but returns the exit code, and the model
  follows the code.
- The playlist membership cache, its loader and its toggle code in
  `tidal_dl_ng/gui/playlist_membership.py` are not part of this model, since that file's
  source is not available here.
- `scripts/verify_playlist_integration.py` and `tests/conftest.py` are also not part of this
  model. The first is import and reflection checks plus file reading. The second holds Qt and
  mock test fixtures.
