/** What each check of the AGENTS.md compliance checker records for one file, as a value:
    the issues it appends and the passed messages it appends, in order. The class in
    checker.dfy appends exactly these effects; the properties of the checks are stated here. */
module Checks {
  import opened PyStr

  datatype Option<T> = None | Some(value: T)

  /** Severity of a recorded issue; `Level` is the number the checker stores. */
  datatype Severity = Warning | Error {
    function Level(): int {
      match this
      case Warning => 1
      case Error => 2
    }
  }

  /** The messages the checks record. `file` is the checked file's name (`filepath.name`);
      `Text` renders each as the checker writes it. */
  datatype Message =
    | DeprecatedImport(name: string)
    | NoDeprecatedImports(file: string)
    | ModernUnionTypes(file: string)
    | BareExcept
    | NoBareExcept(file: string)
    | SyntaxErrorFound(error: string)
    | MostFunctionsTyped(file: string, untyped: nat)
    | AllFunctionsTyped(file: string)
    | PascalCaseClasses(file: string)
    | SnakeCaseFunctions(file: string)
    | ComprehensiveDocstrings(file: string, count: nat)
    | FewDocstrings(count: nat)
    | LongLinesFound(count: nat)
    | LinesWithinLimit(file: string)
    | ImportsOrdered(file: string)
    | ImportOrderMismatch
    | ImportOrderOk(file: string)
    | UsesLock(file: string)
    | UsesLockContext(file: string)
    | UsesThreadPool(file: string)
    | UsesLogger(file: string)

  /** Which list a message belongs to (`None` for `passed`) and, for an issue, how grave it
      is. */
  function Kind(m: Message): Option<Severity> {
    match m
    case DeprecatedImport(_) => Some(Error)
    case BareExcept => Some(Error)
    case SyntaxErrorFound(_) => Some(Error)
    case FewDocstrings(_) => Some(Warning)
    case LongLinesFound(_) => Some(Warning)
    case ImportOrderMismatch => Some(Warning)
    case _ => None
  }

  /** The marks the messages start with: a check mark for a passed check, a cross for an
      error, a warning sign (with its emoji variation selector) for a warning. */
  function Mark(kind: Option<Severity>): string {
    match kind
    case None => "\U{2705}"
    case Some(Error) => "\U{274C}"
    case Some(Warning) => "\U{26A0}\U{FE0F}"
  }

  /** The first character of a mark. */
  function Marker(kind: Option<Severity>): char {
    Mark(kind)[0]
  }

  /** The text of a message, as the f-string in the checker builds it: the mark of its kind,
      a space, and what follows the mark. */
  function Text(m: Message): string {
    Mark(Kind(m)) + " " + Body(m)
  }

  /** What follows the mark and its space in each f-string. */
  function Body(m: Message): string {
    match m
    case DeprecatedImport(name) => "Deprecated: 'from typing import " + name + "' (use built-in)"
    case NoDeprecatedImports(file) => "No deprecated typing imports (" + file + ")"
    case ModernUnionTypes(file) => "Uses modern union types with | (" + file + ")"
    case BareExcept => "Bare 'except:' found (use specific exceptions)"
    case NoBareExcept(file) => "No bare except clauses (" + file + ")"
    case SyntaxErrorFound(error) => "Syntax error: " + error
    case MostFunctionsTyped(file, n) => "Most functions typed (" + file + ") - " + Decimal(n) + " without return hints"
    case AllFunctionsTyped(file) => "All functions have type hints (" + file + ")"
    case PascalCaseClasses(file) => "Classes in PascalCase (" + file + ")"
    case SnakeCaseFunctions(file) => "Functions in snake_case (" + file + ")"
    case ComprehensiveDocstrings(file, n) => "Comprehensive docstrings (" + file + ") - " + Decimal(n) + " found"
    case FewDocstrings(n) => "Few docstrings found (" + Decimal(n) + ")"
    case LongLinesFound(n) => Decimal(n) + " lines exceed 120 characters"
    case LinesWithinLimit(file) => "All lines \U{2264} 120 characters (" + file + ")"
    case ImportsOrdered(file) => "Imports properly ordered (isort) (" + file + ")"
    case ImportOrderMismatch => "Import order may not match isort"
    case ImportOrderOk(file) => "Import order OK (" + file + ")"
    case UsesLock(file) => "Uses threading.Lock for thread-safety (" + file + ")"
    case UsesLockContext(file) => "Uses context managers for locks (" + file + ")"
    case UsesThreadPool(file) => "Uses ThreadPoolExecutor for concurrency (" + file + ")"
    case UsesLogger(file) => "Uses project logger (" + file + ")"
  }

  /** One entry of the `issues` list: `(str(filepath), message, severity)`. */
  datatype Issue = Issue(file: string, message: Message, severity: Severity)

  /** What a check appends: issues to `issues`, messages to `passed`. */
  datatype Effect = Effect(issues: seq<Issue>, passed: seq<Message>) {
    /** This check's entries followed by those of the next one. */
    function Then(next: Effect): Effect {
      Effect(issues + next.issues, passed + next.passed)
    }

    /** Number of entries appended, to either list. */
    function Size(): nat {
      |issues| + |passed|
    }
  }

  const Nothing := Effect([], [])

  function Pass(message: Message): Effect {
    Effect([], [message])
  }

  function Fail(file: string, message: Message, severity: Severity): Effect {
    Effect([Issue(file, message, severity)], [])
  }

  /** The regular-expression engine, which the model does not interpret:
      `search(pattern, content)` is `re.search(pattern, content) is not None`, and
      `findall(pattern, content, multiline)` is `re.findall(pattern, content)`, with
      `re.MULTILINE` when `multiline` holds. */
  datatype Regex = Regex(search: (string, string) -> bool, findall: (string, string, bool) -> seq<string>)

  // ---------------------------------------------------------------------------------------
  // Check 1: no deprecated typing imports

  /** The deprecated `typing` names, each with the pattern that finds its import, in the
      order they are tried. */
  const DeprecatedTyping: seq<(string, string)> := [
    (@"from typing import.*\bList\b", "List"),
    (@"from typing import.*\bDict\b", "Dict"),
    (@"from typing import.*\bSet\b", "Set"),
    (@"from typing import.*\bTuple\b", "Tuple"),
    (@"from typing import.*\bOptional\b", "Optional"),
    (@"from typing import.*\bUnion\b", "Union")
  ]

  /** Index of the first pattern that `search` finds in `content`, if any. */
  function FirstMatch(patterns: seq<(string, string)>, search: (string, string) -> bool, content: string): (r: Option<nat>)
    ensures r.Some? ==> r.value < |patterns| && search(patterns[r.value].0, content)
    ensures r.Some? ==> forall j :: 0 <= j < r.value ==> !search(patterns[j].0, content)
    ensures r.None? <==> forall j :: 0 <= j < |patterns| ==> !search(patterns[j].0, content)
    decreases |patterns|
  {
    if patterns == [] then None
    else if search(patterns[0].0, content) then Some(0)
    else match FirstMatch(patterns[1..], search, content)
      case None => None
      case Some(j) => Some(j + 1)
  }

  /** `_check_no_deprecated_typing` */
  function DeprecatedTypingEffect(path: string, content: string, search: (string, string) -> bool): Effect {
    match FirstMatch(DeprecatedTyping, search, content)
    case Some(j) => Fail(path, DeprecatedImport(DeprecatedTyping[j].1), Error)
    case None => Pass(NoDeprecatedImports(Name(path)))
  }

  /** Exactly one entry: the error for the first deprecated import found, in list order, and
      nothing else; the passed message only when no pattern is found. */
  lemma DeprecatedTypingOutcome(path: string, content: string, search: (string, string) -> bool)
    ensures var e := DeprecatedTypingEffect(path, content, search);
            && e.Size() == 1
            && (forall k :: 0 <= k < |e.issues| ==> e.issues[k].severity == Error)
            && (e.passed != [] <==> forall j :: 0 <= j < |DeprecatedTyping| ==> !search(DeprecatedTyping[j].0, content))
            && forall j :: 0 <= j < |DeprecatedTyping| && search(DeprecatedTyping[j].0, content)
                           && (forall i :: 0 <= i < j ==> !search(DeprecatedTyping[i].0, content))
                           ==> e == Fail(path, DeprecatedImport(DeprecatedTyping[j].1), Error)
  {
  }

  // ---------------------------------------------------------------------------------------
  // Check 2: union types written with `|`

  /** `_check_union_types` */
  function UnionTypesEffect(path: string, content: string): Effect {
    if Contains(content, "| None") || Contains(content, "| ") then Pass(ModernUnionTypes(Name(path)))
    else Nothing
  }

  /** Never an issue; the passed message exactly when `"| "` occurs (the test for `"| None"`
      adds nothing, since that text contains `"| "`). */
  lemma UnionTypesOutcome(path: string, content: string)
    ensures var e := UnionTypesEffect(path, content);
            e.issues == [] && |e.passed| <= 1 && (e.passed != [] <==> Contains(content, "| "))
  {
    if Contains(content, "| None") {
      assert "| " + "None" == "| None";
      ContainsPrefixOf(content, "| ", "None");
    }
  }

  // ---------------------------------------------------------------------------------------
  // Check 3: no bare `except:`

  const BareExceptPattern := @"except\s*:"

  /** `_check_no_bare_except` */
  function BareExceptEffect(path: string, content: string, search: (string, string) -> bool): Effect {
    if search(BareExceptPattern, content) then Fail(path, BareExcept, Error)
    else Pass(NoBareExcept(Name(path)))
  }

  /** Exactly one entry: an error when the pattern is found, otherwise the passed message. */
  lemma BareExceptOutcome(path: string, content: string, search: (string, string) -> bool)
    ensures var e := BareExceptEffect(path, content, search);
            e.Size() == 1 && (e.issues != [] <==> search(BareExceptPattern, content)) &&
            forall k :: 0 <= k < |e.issues| ==> e.issues[k].severity == Error
  {
  }

  // ---------------------------------------------------------------------------------------
  // Check 4: type hints on functions

  /** What parsing and walking the module yields: the parser's `SyntaxError` message; an
      exception other than `SyntaxError` (such as `ValueError`, `RecursionError` or
      `MemoryError`), which the check does not catch; or the names of the public functions
      without a return annotation (the selection made during the walk is not part of this
      model). */
  datatype TypeHintScan = SyntaxError(error: string) | Uncaught(exception: string) | Parsed(untyped: seq<string>)

  /** `_check_type_hints`, given what walking the parsed module found. */
  function TypeHintsEffect(path: string, scan: TypeHintScan): Effect {
    match scan
    case SyntaxError(msg) => Fail(path, SyntaxErrorFound(msg), Error)
    case Uncaught(_) => Nothing
    case Parsed(untyped) =>
      if untyped != [] then Pass(MostFunctionsTyped(Name(path), |untyped|))
      else Pass(AllFunctionsTyped(Name(path)))
  }

  /** Exactly one entry, unless the parser raises an exception the check does not catch, in
      which case nothing: an error only for a `SyntaxError`; otherwise a passed message,
      which counts the functions lacking a return hint when there are some. */
  lemma TypeHintsOutcome(path: string, scan: TypeHintScan)
    ensures var e := TypeHintsEffect(path, scan);
            e.Size() == (if scan.Uncaught? then 0 else 1) && (e.issues != [] <==> scan.SyntaxError?) &&
            (forall k :: 0 <= k < |e.issues| ==> e.issues[k].severity == Error) &&
            (scan.Parsed? && scan.untyped != [] ==> e.passed == [MostFunctionsTyped(Name(path), |scan.untyped|)])
  {
  }

  // ---------------------------------------------------------------------------------------
  // Check 5: naming conventions

  const ClassPattern := @"^class\s+([A-Z][a-zA-Z0-9]*)\s*[:(]"
  const FunctionPattern := @"^\s*def\s+([a-z_][a-z0-9_]*)\s*\("

  /** `_check_naming` */
  function NamingEffect(path: string, content: string, regex: Regex): Effect {
    var classes := if regex.findall(ClassPattern, content, true) != [] then
                     Pass(PascalCaseClasses(Name(path))) else Nothing;
    var functions := if regex.findall(FunctionPattern, content, true) != [] then
                       Pass(SnakeCaseFunctions(Name(path))) else Nothing;
    classes.Then(functions)
  }

  /** Never an issue; at most two passed messages, none exactly when neither pattern
      matches anything. */
  lemma NamingOutcome(path: string, content: string, regex: Regex)
    ensures var e := NamingEffect(path, content, regex);
            e.issues == [] && |e.passed| <= 2 &&
            (e.passed == [] <==> regex.findall(ClassPattern, content, true) == [] && regex.findall(FunctionPattern, content, true) == [])
  {
  }

  // ---------------------------------------------------------------------------------------
  // Check 6: docstrings

  const DocstringPattern := "\"\"\"[^\"]*\"\"\""

  /** `_check_docstrings`, given the number of docstrings `re.findall` found. */
  function DocstringsEffect(path: string, count: nat): Effect {
    if count > 5 then Pass(ComprehensiveDocstrings(Name(path), count))
    else Fail(path, FewDocstrings(count), Warning)
  }

  /** Exactly one entry: a passed message when more than five docstrings are found,
      otherwise a warning; either one carries the count. */
  lemma DocstringsOutcome(path: string, count: nat)
    ensures var e := DocstringsEffect(path, count);
            e.Size() == 1 && (e.passed != [] <==> count > 5) &&
            (e.issues != [] ==> e.issues[0].severity == Warning && e.issues[0].message.count == count) &&
            (e.passed != [] ==> e.passed[0].count == count)
  {
  }

  // ---------------------------------------------------------------------------------------
  // Check 7: line length

  const MaxLineLength := 120

  /** `content.split("\n")` */
  function Lines(content: string): seq<string> {
    Split(content, '\n')
  }

  /** A line that counts as too long: more than 120 characters and not a comment. */
  predicate IsLongLine(line: string) {
    |line| > MaxLineLength && !StartsWith(Strip(line), "#")
  }

  /** A line is too long exactly when it has more than 120 characters and its first
      character that is not whitespace is not `#`. */
  lemma LongLineIff(line: string)
    ensures IsLongLine(line) <==>
            |line| > MaxLineLength &&
            !exists k :: 0 <= k < |line| && line[k] == '#' && forall j :: 0 <= j < k ==> IsSpace(line[j])
  {
    StrippedStartsWith(line, '#');
  }

  /** The 1-based numbers of the lines after the first `i` of `lines` that satisfy `p`, in order. */
  function NumbersWhere(lines: seq<string>, i: nat, p: string -> bool): (r: seq<nat>)
    requires i <= |lines|
    ensures forall k :: 0 <= k < |r| ==> i < r[k] <= |lines| && p(lines[r[k] - 1])
    ensures forall n :: i < n <= |lines| && p(lines[n - 1]) ==> n in r
    ensures forall k, l :: 0 <= k < l < |r| ==> r[k] < r[l]
    decreases |lines| - i
  {
    if i == |lines| then []
    else
      var rest := NumbersWhere(lines, i + 1, p);
      if p(lines[i]) then [i + 1] + rest else rest
  }

  /** The numbers of the lines the comprehension
      `[(i + 1, line) for i, line in enumerate(content.split("\n")) if ...]` keeps; the line
      numbered `n` is `Lines(content)[n - 1]`. */
  function LongLines(content: string): seq<nat> {
    NumbersWhere(Lines(content), 0, IsLongLine)
  }

  /** `_check_line_length` */
  function LineLengthEffect(path: string, content: string): Effect {
    var long := LongLines(content);
    if long != [] then Fail(path, LongLinesFound(|long|), Warning)
    else Pass(LinesWithinLimit(Name(path)))
  }

  /** Exactly one entry: a warning carrying the number of too-long lines when there is one,
      otherwise the passed message; never both. */
  lemma LineLengthOutcome(path: string, content: string)
    ensures var e := LineLengthEffect(path, content);
            && e.Size() == 1
            && (e.issues != [] <==> exists i :: 0 <= i < |Lines(content)| && IsLongLine(Lines(content)[i]))
            && (e.issues != [] ==> e == Fail(path, LongLinesFound(|LongLines(content)|), Warning))
  {
    var long := LongLines(content);
    if long != [] {
      assert IsLongLine(Lines(content)[long[0] - 1]);
    } else {
      forall i | 0 <= i < |Lines(content)|
        ensures !IsLongLine(Lines(content)[i])
      {
        assert i + 1 !in long;
      }
    }
  }

  // ---------------------------------------------------------------------------------------
  // Check 8: import order (isort)

  predicate IsImportLine(line: string) {
    StartsWith(line, "import ") || StartsWith(line, "from ")
  }

  /** A line that ends the import section once an import has been seen: not empty, not
      starting with whitespace, and not an import. */
  predicate EndsImports(line: string) {
    line != [] && !IsSpace(line[0]) && !IsImportLine(line)
  }

  /** The import lines the scan collects from `lines` on, `inImports` telling whether an
      import has already been seen. */
  function ImportScan(lines: seq<string>, inImports: bool): seq<string>
    decreases |lines|
  {
    if lines == [] then []
    else if IsImportLine(lines[0]) then [lines[0]] + ImportScan(lines[1..], true)
    else if inImports && EndsImports(lines[0]) then []
    else ImportScan(lines[1..], inImports)
  }

  /** The import section of a file's content, as `_check_isort_order` extracts it. */
  function ImportSection(content: string): seq<string> {
    ImportScan(Lines(content), false)
  }

  /** The import lines of `lines`, in order. */
  function ImportLines(lines: seq<string>): (r: seq<string>)
    decreases |lines|
  {
    if lines == [] then []
    else if IsImportLine(lines[0]) then [lines[0]] + ImportLines(lines[1..])
    else ImportLines(lines[1..])
  }

  /** The scan keeps, in order, exactly the import lines before the point where it stops:
      the first line that ends the import section after some import has been seen, or the
      end of the file. Lines before the first import are skipped, and blank or indented
      lines never stop the scan. */
  lemma {:induction false} ImportScanStops(lines: seq<string>, inImports: bool, stop: nat)
    requires stop <= |lines|
    requires stop == |lines| ||
             (EndsImports(lines[stop]) && (inImports || exists i :: 0 <= i < stop && IsImportLine(lines[i])))
    requires forall j :: 0 <= j < stop && EndsImports(lines[j]) ==>
               !inImports && forall i :: 0 <= i < j ==> !IsImportLine(lines[i])
    ensures ImportScan(lines, inImports) == ImportLines(lines[..stop])
    decreases |lines|
  {
    if stop == 0 {
      assert lines[..stop] == [];
    } else {
      var rest := lines[1..];
      assert lines[..stop][1..] == rest[..stop - 1];
      if IsImportLine(lines[0]) {
        forall j | 0 <= j < stop - 1
          ensures !EndsImports(rest[j])
        {
          assert rest[j] == lines[j + 1];
        }
        ImportScanStops(rest, true, stop - 1);
      } else {
        if stop < |lines| && !inImports {
          var i :| 0 <= i < stop && IsImportLine(lines[i]);
          assert 0 <= i - 1 < stop - 1 && IsImportLine(rest[i - 1]);
        }
        forall j | 0 <= j < stop - 1 && EndsImports(rest[j])
          ensures !inImports && forall i :: 0 <= i < j ==> !IsImportLine(rest[i])
        {
          assert EndsImports(lines[j + 1]);
          forall i | 0 <= i < j ensures !IsImportLine(rest[i]) {
            assert rest[i] == lines[i + 1];
          }
        }
        ImportScanStops(rest, inImports, stop - 1);
      }
    }
  }

  predicate IsStdlibMarker(line: string) {
    Contains(line, "import threading") || Contains(line, "import concurrent")
  }

  predicate IsThirdPartyMarker(line: string) {
    Contains(line, "PySide6") || Contains(line, "requests")
  }

  predicate IsFirstPartyMarker(line: string) {
    Contains(line, "from tidal_dl_ng")
  }

  /** `next((i for i, line in enumerate(lines) if p(line)), -1)` */
  function FirstIndex(lines: seq<string>, p: string -> bool): (r: int)
    ensures -1 <= r < |lines|
    ensures r == -1 <==> forall k :: 0 <= k < |lines| ==> !p(lines[k])
    ensures r >= 0 ==> p(lines[r]) && forall k :: 0 <= k < r ==> !p(lines[k])
    decreases |lines|
  {
    if lines == [] then -1
    else if p(lines[0]) then 0
    else var r := FirstIndex(lines[1..], p); if r == -1 then -1 else r + 1
  }

  /** When both kinds of line occur, the first `p` line does not come strictly before the
      first `q` line exactly when some `q` line has no `p` line before it. */
  lemma FirstIndexOrder(lines: seq<string>, p: string -> bool, q: string -> bool)
    requires exists k :: 0 <= k < |lines| && p(lines[k])
    requires exists k :: 0 <= k < |lines| && q(lines[k])
    ensures !(FirstIndex(lines, p) < FirstIndex(lines, q)) <==>
            exists j :: 0 <= j < |lines| && q(lines[j]) && forall k :: 0 <= k < j ==> !p(lines[k])
  {
    var fp := FirstIndex(lines, p);
    var fq := FirstIndex(lines, q);
    if exists j :: 0 <= j < |lines| && q(lines[j]) && forall k :: 0 <= k < j ==> !p(lines[k]) {
      var j :| 0 <= j < |lines| && q(lines[j]) && forall k :: 0 <= k < j ==> !p(lines[k]);
      assert fq <= j;
    }
    if fp >= fq {
      assert forall k :: 0 <= k < fq ==> !p(lines[k]);
    }
  }

  /** `any(p(line) for line in lines)` */
  predicate Any(lines: seq<string>, p: string -> bool) {
    exists k :: 0 <= k < |lines| && p(lines[k])
  }

  /** `_check_isort_order` */
  function IsortEffect(path: string, content: string): Effect {
    OrderEffect(path, ImportSection(content))
  }

  /** The part of `_check_isort_order` after the import section is extracted. */
  function OrderEffect(path: string, imports: seq<string>): Effect {
    if imports == [] then Nothing
    else
      if Any(imports, IsStdlibMarker) && Any(imports, IsThirdPartyMarker) && Any(imports, IsFirstPartyMarker) then
        if FirstIndex(imports, IsStdlibMarker) < FirstIndex(imports, IsThirdPartyMarker) then
          Pass(ImportsOrdered(Name(path)))
        else Fail(path, ImportOrderMismatch, Warning)
      else Pass(ImportOrderOk(Name(path)))
  }

  /** Nothing when the file has no import section; otherwise exactly one entry, and the
      "Import order OK" message whenever one of the three kinds of import is missing. It is
      a warning exactly when the section names the first-party package, some standard-library
      marker, and a third-party marker on a line no later than the first standard-library
      marker. */
  lemma IsortOutcome(path: string, content: string)
    ensures var e := IsortEffect(path, content);
            var s := ImportSection(content);
            && |e.issues| <= 1 && e.Size() <= 1
            && (e.Size() == 0 <==> s == [])
            && (s != [] && !(Any(s, IsStdlibMarker) && Any(s, IsThirdPartyMarker) && Any(s, IsFirstPartyMarker))
                ==> e == Pass(ImportOrderOk(Name(path))))
            && (e.issues != [] <==>
                  Any(s, IsFirstPartyMarker) && Any(s, IsStdlibMarker) &&
                  (exists j :: 0 <= j < |s| && IsThirdPartyMarker(s[j]) && forall k :: 0 <= k < j ==> !IsStdlibMarker(s[k])))
            && (forall k :: 0 <= k < |e.issues| ==> e.issues[k].severity == Warning)
  {
    OrderOutcome(path, ImportSection(content));
  }

  /** `OrderEffect` on any list of import lines, as `IsortOutcome` states it. */
  lemma OrderOutcome(path: string, s: seq<string>)
    ensures var e := OrderEffect(path, s);
            && |e.issues| <= 1 && e.Size() <= 1
            && (e.Size() == 0 <==> s == [])
            && (s != [] && !(Any(s, IsStdlibMarker) && Any(s, IsThirdPartyMarker) && Any(s, IsFirstPartyMarker))
                ==> e == Pass(ImportOrderOk(Name(path))))
            && (e.issues != [] <==>
                  Any(s, IsFirstPartyMarker) && Any(s, IsStdlibMarker) &&
                  (exists j :: 0 <= j < |s| && IsThirdPartyMarker(s[j]) && forall k :: 0 <= k < j ==> !IsStdlibMarker(s[k])))
            && (forall k :: 0 <= k < |e.issues| ==> e.issues[k].severity == Warning)
  {
    if Any(s, IsStdlibMarker) && Any(s, IsThirdPartyMarker) {
      FirstIndexOrder(s, IsStdlibMarker, IsThirdPartyMarker);
    }
  }

  // ---------------------------------------------------------------------------------------
  // Check 9: thread safety

  /** `_check_thread_safety` */
  function ThreadSafetyEffect(path: string, content: string): Effect {
    var lock := if Contains(content, "threading.RLock") || Contains(content, "threading.Lock") then
                  Pass(UsesLock(Name(path))) else Nothing;
    var with := if Contains(content, "with self._lock") then
                  Pass(UsesLockContext(Name(path))) else Nothing;
    var pool := if Contains(content, "ThreadPoolExecutor") then
                  Pass(UsesThreadPool(Name(path))) else Nothing;
    lock.Then(with).Then(pool)
  }

  /** Never an issue; one passed message per construct found (a lock, a `with self._lock`
      block, a thread pool), so up to three, and none when none is found. */
  lemma ThreadSafetyOutcome(path: string, content: string)
    ensures var e := ThreadSafetyEffect(path, content);
            e.issues == [] && |e.passed| <= 3 &&
            |e.passed| == (if Contains(content, "threading.RLock") || Contains(content, "threading.Lock") then 1 else 0)
                        + (if Contains(content, "with self._lock") then 1 else 0)
                        + (if Contains(content, "ThreadPoolExecutor") then 1 else 0) &&
            (e.passed == [] <==>
               !Contains(content, "threading.RLock") && !Contains(content, "threading.Lock") &&
               !Contains(content, "with self._lock") && !Contains(content, "ThreadPoolExecutor"))
  {
  }

  // ---------------------------------------------------------------------------------------
  // Check 10: logging

  /** `_check_logging` */
  function LoggingEffect(path: string, content: string): Effect {
    if Contains(content, "logger_gui") || Contains(content, "logger") then Pass(UsesLogger(Name(path)))
    else Nothing
  }

  /** Never an issue; the passed message exactly when `"logger"` occurs (the test for
      `"logger_gui"` adds nothing, since that text contains `"logger"`). */
  lemma LoggingOutcome(path: string, content: string)
    ensures var e := LoggingEffect(path, content);
            e.issues == [] && |e.passed| <= 1 && (e.passed != [] <==> Contains(content, "logger"))
  {
    if Contains(content, "logger_gui") {
      assert "logger" + "_gui" == "logger_gui";
      ContainsPrefixOf(content, "logger", "_gui");
    }
  }

  // ---------------------------------------------------------------------------------------
  // All checks of one file

  /** `check_file` on a file whose text is `content`: the ten checks in order, each appending
      its entries after those of the checks before it. An exception the type-hint check does
      not catch leaves `check_file` there: the checks after it do not run. */
  function FileEffect(path: string, content: string, regex: Regex, scan: TypeHintScan): Effect {
    if scan.Uncaught? then
      DeprecatedTypingEffect(path, content, regex.search)
        .Then(UnionTypesEffect(path, content))
        .Then(BareExceptEffect(path, content, regex.search))
        .Then(TypeHintsEffect(path, scan))
    else
      DeprecatedTypingEffect(path, content, regex.search)
        .Then(UnionTypesEffect(path, content))
        .Then(BareExceptEffect(path, content, regex.search))
        .Then(TypeHintsEffect(path, scan))
        .Then(NamingEffect(path, content, regex))
        .Then(DocstringsEffect(path, |regex.findall(DocstringPattern, content, false)|))
        .Then(LineLengthEffect(path, content))
        .Then(IsortEffect(path, content))
        .Then(ThreadSafetyEffect(path, content))
        .Then(LoggingEffect(path, content))
  }

  /** Checking one file records between five entries (the checks that always record one)
      and thirteen; when the parser raises an uncaught exception, two or three (the checks
      before it). */
  lemma FileEffectBounds(path: string, content: string, regex: Regex, scan: TypeHintScan)
    ensures scan.Uncaught? ==> 2 <= FileEffect(path, content, regex, scan).Size() <= 3
    ensures !scan.Uncaught? ==> 5 <= FileEffect(path, content, regex, scan).Size() <= 13
  {
    var e1 := DeprecatedTypingEffect(path, content, regex.search);
    var e2 := UnionTypesEffect(path, content);
    var e3 := BareExceptEffect(path, content, regex.search);
    var e4 := TypeHintsEffect(path, scan);
    var e5 := NamingEffect(path, content, regex);
    var e6 := DocstringsEffect(path, |regex.findall(DocstringPattern, content, false)|);
    var e7 := LineLengthEffect(path, content);
    var e8 := IsortEffect(path, content);
    var e9 := ThreadSafetyEffect(path, content);
    var e10 := LoggingEffect(path, content);
    assert e1.Size() == 1 by { DeprecatedTypingOutcome(path, content, regex.search); }
    assert e2.Size() <= 1 by { UnionTypesOutcome(path, content); }
    assert e3.Size() == 1 by { BareExceptOutcome(path, content, regex.search); }
    assert e4.Size() == (if scan.Uncaught? then 0 else 1) by { TypeHintsOutcome(path, scan); }
    if scan.Uncaught? {
      assert e1.Then(e2).Then(e3).Then(e4).Size() == e1.Size() + e2.Size() + e3.Size() + e4.Size();
      return;
    }
    assert e5.Size() <= 2 by { NamingOutcome(path, content, regex); }
    assert e6.Size() == 1 by { DocstringsOutcome(path, |regex.findall(DocstringPattern, content, false)|); }
    assert e7.Size() == 1 by { LineLengthOutcome(path, content); }
    assert e8.Size() <= 1 by { IsortOutcome(path, content); }
    assert e9.Size() <= 3 by { ThreadSafetyOutcome(path, content); }
    assert e10.Size() <= 1 by { LoggingOutcome(path, content); }
    SizeOfTen(e1, e2, e3, e4, e5, e6, e7, e8, e9, e10);
  }

  /** The entries of ten checks in a row are those of each check, added up. */
  lemma SizeOfTen(e1: Effect, e2: Effect, e3: Effect, e4: Effect, e5: Effect,
                  e6: Effect, e7: Effect, e8: Effect, e9: Effect, e10: Effect)
    ensures e1.Then(e2).Then(e3).Then(e4).Then(e5).Then(e6).Then(e7).Then(e8).Then(e9).Then(e10).Size()
         == e1.Size() + e2.Size() + e3.Size() + e4.Size() + e5.Size()
          + e6.Size() + e7.Size() + e8.Size() + e9.Size() + e10.Size()
  {
  }

  /** The three markers differ, so the first character of a text tells the kinds apart. */
  lemma MarkersDiffer(k1: Option<Severity>, k2: Option<Severity>)
    ensures Marker(k1) == Marker(k2) <==> k1 == k2
  {
  }

  predicate HasKind(m: Message, kind: Option<Severity>) {
    Kind(m) == kind
  }

  /** Every entry an effect records is of the kind of its list and severity. */
  predicate KindsAgree(e: Effect) {
    (forall k :: 0 <= k < |e.issues| ==> HasKind(e.issues[k].message, Some(e.issues[k].severity))) &&
    (forall k :: 0 <= k < |e.passed| ==> HasKind(e.passed[k], None))
  }

  lemma KindsAgreeThen(a: Effect, b: Effect)
    requires KindsAgree(a) && KindsAgree(b)
    ensures KindsAgree(a.Then(b))
  {
    var c := a.Then(b);
    forall k | 0 <= k < |c.issues|
      ensures HasKind(c.issues[k].message, Some(c.issues[k].severity))
    {
      if k >= |a.issues| {
        assert c.issues[k] == b.issues[k - |a.issues|];
      }
    }
    forall k | 0 <= k < |c.passed|
      ensures HasKind(c.passed[k], None)
    {
      if k >= |a.passed| {
        assert c.passed[k] == b.passed[k - |a.passed|];
      }
    }
  }

  /** Ten checks in a row, each recording only entries that agree with their kinds, record
      only such entries; so do the first four. */
  lemma KindsAgreeOfTen(e1: Effect, e2: Effect, e3: Effect, e4: Effect, e5: Effect,
                    e6: Effect, e7: Effect, e8: Effect, e9: Effect, e10: Effect)
    requires KindsAgree(e1) && KindsAgree(e2) && KindsAgree(e3) && KindsAgree(e4) && KindsAgree(e5)
    requires KindsAgree(e6) && KindsAgree(e7) && KindsAgree(e8) && KindsAgree(e9) && KindsAgree(e10)
    ensures KindsAgree(e1.Then(e2).Then(e3).Then(e4))
    ensures KindsAgree(e1.Then(e2).Then(e3).Then(e4).Then(e5).Then(e6).Then(e7).Then(e8).Then(e9).Then(e10))
  {
    KindsAgreeThen(e1, e2);
    KindsAgreeThen(e1.Then(e2), e3);
    KindsAgreeThen(e1.Then(e2).Then(e3), e4);
    KindsAgreeThen(e1.Then(e2).Then(e3).Then(e4), e5);
    KindsAgreeThen(e1.Then(e2).Then(e3).Then(e4).Then(e5), e6);
    KindsAgreeThen(e1.Then(e2).Then(e3).Then(e4).Then(e5).Then(e6), e7);
    KindsAgreeThen(e1.Then(e2).Then(e3).Then(e4).Then(e5).Then(e6).Then(e7), e8);
    KindsAgreeThen(e1.Then(e2).Then(e3).Then(e4).Then(e5).Then(e6).Then(e7).Then(e8), e9);
    KindsAgreeThen(e1.Then(e2).Then(e3).Then(e4).Then(e5).Then(e6).Then(e7).Then(e8).Then(e9), e10);
  }

  lemma PassKinds(m: Message)
    requires Kind(m) == None
    ensures KindsAgree(Pass(m))
  {
  }

  lemma FailKinds(file: string, m: Message, severity: Severity)
    requires Kind(m) == Some(severity)
    ensures KindsAgree(Fail(file, m, severity))
  {
  }

  // Each check records only entries of the kind of the list it puts them in.

  lemma DeprecatedTypingKinds(path: string, content: string, search: (string, string) -> bool)
    ensures KindsAgree(DeprecatedTypingEffect(path, content, search))
  {
    match FirstMatch(DeprecatedTyping, search, content)
    case Some(j) => FailKinds(path, DeprecatedImport(DeprecatedTyping[j].1), Error);
    case None => PassKinds(NoDeprecatedImports(Name(path)));
  }

  lemma UnionTypesKinds(path: string, content: string)
    ensures KindsAgree(UnionTypesEffect(path, content))
  {
    PassKinds(ModernUnionTypes(Name(path)));
  }

  lemma BareExceptKinds(path: string, content: string, search: (string, string) -> bool)
    ensures KindsAgree(BareExceptEffect(path, content, search))
  {
    FailKinds(path, BareExcept, Error);
    PassKinds(NoBareExcept(Name(path)));
  }

  lemma TypeHintsKinds(path: string, scan: TypeHintScan)
    ensures KindsAgree(TypeHintsEffect(path, scan))
  {
    match scan
    case SyntaxError(msg) => FailKinds(path, SyntaxErrorFound(msg), Error);
    case Uncaught(_) =>
    case Parsed(untyped) =>
      PassKinds(MostFunctionsTyped(Name(path), |untyped|));
      PassKinds(AllFunctionsTyped(Name(path)));
  }

  lemma NamingKinds(path: string, content: string, regex: Regex)
    ensures KindsAgree(NamingEffect(path, content, regex))
  {
    var classes := if regex.findall(ClassPattern, content, true) != [] then
                     Pass(PascalCaseClasses(Name(path))) else Nothing;
    var functions := if regex.findall(FunctionPattern, content, true) != [] then
                       Pass(SnakeCaseFunctions(Name(path))) else Nothing;
    PassKinds(PascalCaseClasses(Name(path)));
    PassKinds(SnakeCaseFunctions(Name(path)));
    KindsAgreeThen(classes, functions);
  }

  lemma DocstringsKinds(path: string, count: nat)
    ensures KindsAgree(DocstringsEffect(path, count))
  {
    PassKinds(ComprehensiveDocstrings(Name(path), count));
    FailKinds(path, FewDocstrings(count), Warning);
  }

  lemma LineLengthKinds(path: string, content: string)
    ensures KindsAgree(LineLengthEffect(path, content))
  {
    FailKinds(path, LongLinesFound(|LongLines(content)|), Warning);
    PassKinds(LinesWithinLimit(Name(path)));
  }

  lemma IsortKinds(path: string, content: string)
    ensures KindsAgree(IsortEffect(path, content))
  {
    PassKinds(ImportsOrdered(Name(path)));
    FailKinds(path, ImportOrderMismatch, Warning);
    PassKinds(ImportOrderOk(Name(path)));
  }

  lemma ThreadSafetyKinds(path: string, content: string)
    ensures KindsAgree(ThreadSafetyEffect(path, content))
  {
    var lock := if Contains(content, "threading.RLock") || Contains(content, "threading.Lock") then
                  Pass(UsesLock(Name(path))) else Nothing;
    var with := if Contains(content, "with self._lock") then
                  Pass(UsesLockContext(Name(path))) else Nothing;
    var pool := if Contains(content, "ThreadPoolExecutor") then
                  Pass(UsesThreadPool(Name(path))) else Nothing;
    PassKinds(UsesLock(Name(path)));
    PassKinds(UsesLockContext(Name(path)));
    PassKinds(UsesThreadPool(Name(path)));
    KindsAgreeThen(lock, with);
    KindsAgreeThen(lock.Then(with), pool);
  }

  lemma LoggingKinds(path: string, content: string)
    ensures KindsAgree(LoggingEffect(path, content))
  {
    PassKinds(UsesLogger(Name(path)));
  }

  /** The rendered messages agree with where the checks put them: everything `check_file`
      records in `passed` starts with a check mark, every error with a cross and every
      warning with a warning sign. */
  lemma FileMarked(path: string, content: string, regex: Regex, scan: TypeHintScan)
    ensures var e := FileEffect(path, content, regex, scan);
      (forall k :: 0 <= k < |e.issues| ==>
         Text(e.issues[k].message) != [] && Text(e.issues[k].message)[0] == Marker(Some(e.issues[k].severity))) &&
      (forall k :: 0 <= k < |e.passed| ==> Text(e.passed[k]) != [] && Text(e.passed[k])[0] == Marker(None))
  {
    FileKindsAgree(path, content, regex, scan);
    KindsShow(FileEffect(path, content, regex, scan));
  }

  /** An effect whose entries agree with their kinds renders them with the marks of their
      lists and severities. */
  lemma KindsShow(e: Effect)
    requires KindsAgree(e)
    ensures forall k :: 0 <= k < |e.issues| ==>
              Text(e.issues[k].message) != [] && Text(e.issues[k].message)[0] == Marker(Some(e.issues[k].severity))
    ensures forall k :: 0 <= k < |e.passed| ==> Text(e.passed[k]) != [] && Text(e.passed[k])[0] == Marker(None)
  {
  }

  /** Everything `check_file` records is of the kind of the list it is in. */
  lemma FileKindsAgree(path: string, content: string, regex: Regex, scan: TypeHintScan)
    ensures KindsAgree(FileEffect(path, content, regex, scan))
  {
    DeprecatedTypingKinds(path, content, regex.search);
    UnionTypesKinds(path, content);
    BareExceptKinds(path, content, regex.search);
    TypeHintsKinds(path, scan);
    NamingKinds(path, content, regex);
    DocstringsKinds(path, |regex.findall(DocstringPattern, content, false)|);
    LineLengthKinds(path, content);
    IsortKinds(path, content);
    ThreadSafetyKinds(path, content);
    LoggingKinds(path, content);
    KindsAgreeOfTen(DeprecatedTypingEffect(path, content, regex.search), UnionTypesEffect(path, content), BareExceptEffect(path, content, regex.search), TypeHintsEffect(path, scan), NamingEffect(path, content, regex), DocstringsEffect(path, |regex.findall(DocstringPattern, content, false)|), LineLengthEffect(path, content), IsortEffect(path, content), ThreadSafetyEffect(path, content), LoggingEffect(path, content));
  }

  // ---------------------------------------------------------------------------------------
  // The report

  /** `[i for i in issues if i[2] == severity]` */
  function WithSeverity(issues: seq<Issue>, severity: Severity): (r: seq<Issue>)
    ensures |r| <= |issues|
    decreases |issues|
  {
    if issues == [] then []
    else
      var rest := WithSeverity(issues[1..], severity);
      if issues[0].severity == severity then [issues[0]] + rest else rest
  }

  /** The filter keeps exactly the issues of that severity. */
  lemma {:induction false} WithSeverityMembers(issues: seq<Issue>, severity: Severity)
    ensures forall x :: x in WithSeverity(issues, severity) <==> x in issues && x.severity == severity
    decreases |issues|
  {
    if issues != [] {
      WithSeverityMembers(issues[1..], severity);
      assert forall x :: x in issues <==> x == issues[0] || x in issues[1..];
    }
  }

  /** The errors the report lists. */
  function Errors(issues: seq<Issue>): seq<Issue> {
    WithSeverity(issues, Error)
  }

  /** The warnings the report lists. */
  function Warnings(issues: seq<Issue>): seq<Issue> {
    WithSeverity(issues, Warning)
  }

  /** Issues that all have the severity `Error`. */
  predicate AllErrors(issues: seq<Issue>) {
    forall k :: 0 <= k < |issues| ==> issues[k].severity == Error
  }

  /** Issues none of which has the severity `Error`. */
  predicate NoErrors(issues: seq<Issue>) {
    forall k :: 0 <= k < |issues| ==> issues[k].severity != Error
  }

  /** The filter keeps order: filtering a concatenation concatenates the filtered parts. */
  lemma {:induction false} WithSeverityConcat(a: seq<Issue>, b: seq<Issue>, severity: Severity)
    ensures WithSeverity(a + b, severity) == WithSeverity(a, severity) + WithSeverity(b, severity)
    decreases |a|
  {
    if a != [] {
      assert (a + b)[1..] == a[1..] + b;
      WithSeverityConcat(a[1..], b, severity);
    } else {
      assert a + b == b;
    }
  }

  /** Filtering issues that all have the severity keeps them all. */
  lemma {:induction false} WithSeverityAll(issues: seq<Issue>, severity: Severity)
    requires forall k :: 0 <= k < |issues| ==> issues[k].severity == severity
    ensures WithSeverity(issues, severity) == issues
    decreases |issues|
  {
    if issues != [] {
      WithSeverityAll(issues[1..], severity);
    }
  }

  /** Filtering issues none of which has the severity keeps none. */
  lemma {:induction false} WithSeverityNone(issues: seq<Issue>, severity: Severity)
    requires forall k :: 0 <= k < |issues| ==> issues[k].severity != severity
    ensures WithSeverity(issues, severity) == []
    decreases |issues|
  {
    if issues != [] {
      WithSeverityNone(issues[1..], severity);
    }
  }

  /** The errors and the warnings together are exactly the issues: nothing is dropped and
      nothing is listed twice. */
  lemma {:induction false} SeverityPartition(issues: seq<Issue>)
    ensures multiset(Errors(issues)) + multiset(Warnings(issues)) == multiset(issues)
    ensures |Errors(issues)| + |Warnings(issues)| == |issues|
    decreases |issues|
  {
    if issues != [] {
      SeverityPartition(issues[1..]);
      assert issues == [issues[0]] + issues[1..];
    }
  }

  /** The report's exit code: 0 when no error was recorded, 1 otherwise. */
  function ExitCode(issues: seq<Issue>): (code: int)
    ensures code == 0 || code == 1
    ensures code == 0 <==> forall k :: 0 <= k < |issues| ==> issues[k].severity != Error
  {
    ErrorsEmpty(issues);
    if |Errors(issues)| == 0 then 0 else 1
  }

  /** Ten checks in a row, of which the first, third and fourth record only errors and the
      others none: the errors among their issues are those of the three, in order. */
  lemma ErrorsOfTen(e1: Effect, e2: Effect, e3: Effect, e4: Effect, e5: Effect,
                    e6: Effect, e7: Effect, e8: Effect, e9: Effect, e10: Effect)
    requires AllErrors(e1.issues) && AllErrors(e3.issues) && AllErrors(e4.issues)
    requires NoErrors(e2.issues) && NoErrors(e5.issues) && NoErrors(e6.issues) && NoErrors(e7.issues)
    requires NoErrors(e8.issues) && NoErrors(e9.issues) && NoErrors(e10.issues)
    ensures Errors(e1.Then(e2).Then(e3).Then(e4).Then(e5).Then(e6).Then(e7).Then(e8).Then(e9).Then(e10).issues)
         == e1.issues + e3.issues + e4.issues
  {
    var p1 := e1.issues;
    WithSeverityAll(e1.issues, Error);
    var p2 := p1 + e2.issues;
    WithSeverityConcat(p1, e2.issues, Error);
    WithSeverityNone(e2.issues, Error);
    assert Errors(p2) == e1.issues;
    var p3 := p2 + e3.issues;
    WithSeverityConcat(p2, e3.issues, Error);
    WithSeverityAll(e3.issues, Error);
    assert Errors(p3) == e1.issues + e3.issues;
    var p4 := p3 + e4.issues;
    WithSeverityConcat(p3, e4.issues, Error);
    WithSeverityAll(e4.issues, Error);
    assert Errors(p4) == e1.issues + e3.issues + e4.issues;
    var p5 := p4 + e5.issues;
    WithSeverityConcat(p4, e5.issues, Error);
    WithSeverityNone(e5.issues, Error);
    assert Errors(p5) == e1.issues + e3.issues + e4.issues;
    var p6 := p5 + e6.issues;
    WithSeverityConcat(p5, e6.issues, Error);
    WithSeverityNone(e6.issues, Error);
    assert Errors(p6) == e1.issues + e3.issues + e4.issues;
    var p7 := p6 + e7.issues;
    WithSeverityConcat(p6, e7.issues, Error);
    WithSeverityNone(e7.issues, Error);
    assert Errors(p7) == e1.issues + e3.issues + e4.issues;
    var p8 := p7 + e8.issues;
    WithSeverityConcat(p7, e8.issues, Error);
    WithSeverityNone(e8.issues, Error);
    assert Errors(p8) == e1.issues + e3.issues + e4.issues;
    var p9 := p8 + e9.issues;
    WithSeverityConcat(p8, e9.issues, Error);
    WithSeverityNone(e9.issues, Error);
    assert Errors(p9) == e1.issues + e3.issues + e4.issues;
    var p10 := p9 + e10.issues;
    WithSeverityConcat(p9, e10.issues, Error);
    WithSeverityNone(e10.issues, Error);
    assert Errors(p10) == e1.issues + e3.issues + e4.issues;
    assert e1.Then(e2).Then(e3).Then(e4).Then(e5).Then(e6).Then(e7).Then(e8).Then(e9).Then(e10).issues == p10;
  }

  /** The errors a file adds to the report are exactly the issues of the three checks that
      record errors (a deprecated import, a bare `except:`, a syntax error), in that order:
      the warnings of the other checks never change the exit code. */
  lemma FileErrors(path: string, content: string, regex: Regex, scan: TypeHintScan)
    ensures Errors(FileEffect(path, content, regex, scan).issues)
         == DeprecatedTypingEffect(path, content, regex.search).issues
          + BareExceptEffect(path, content, regex.search).issues
          + TypeHintsEffect(path, scan).issues
  {
    var e1 := DeprecatedTypingEffect(path, content, regex.search);
    var e2 := UnionTypesEffect(path, content);
    var e3 := BareExceptEffect(path, content, regex.search);
    var e4 := TypeHintsEffect(path, scan);
    assert AllErrors(e1.issues) by { DeprecatedTypingOutcome(path, content, regex.search); }
    assert NoErrors(e2.issues) by { UnionTypesOutcome(path, content); }
    assert AllErrors(e3.issues) by { BareExceptOutcome(path, content, regex.search); }
    assert AllErrors(e4.issues) by { TypeHintsOutcome(path, scan); }
    if scan.Uncaught? {
      ErrorsOfFour(e1, e2, e3, e4);
    } else {
      var e5 := NamingEffect(path, content, regex);
      var e6 := DocstringsEffect(path, |regex.findall(DocstringPattern, content, false)|);
      var e7 := LineLengthEffect(path, content);
      var e8 := IsortEffect(path, content);
      var e9 := ThreadSafetyEffect(path, content);
      var e10 := LoggingEffect(path, content);
      assert NoErrors(e5.issues) by { NamingOutcome(path, content, regex); }
      assert NoErrors(e6.issues) by { DocstringsOutcome(path, |regex.findall(DocstringPattern, content, false)|); }
      assert NoErrors(e7.issues) by { LineLengthOutcome(path, content); }
      assert NoErrors(e8.issues) by { IsortOutcome(path, content); }
      assert NoErrors(e9.issues) by { ThreadSafetyOutcome(path, content); }
      assert NoErrors(e10.issues) by { LoggingOutcome(path, content); }
      ErrorsOfTen(e1, e2, e3, e4, e5, e6, e7, e8, e9, e10);
    }
  }


  /** The first four checks, of which the second records no error: the errors among their
      issues are those of the other three, in order. */
  lemma ErrorsOfFour(e1: Effect, e2: Effect, e3: Effect, e4: Effect)
    requires AllErrors(e1.issues) && NoErrors(e2.issues) && AllErrors(e3.issues) && AllErrors(e4.issues)
    ensures Errors(e1.Then(e2).Then(e3).Then(e4).issues) == e1.issues + e3.issues + e4.issues
  {
    var p2 := e1.issues + e2.issues;
    WithSeverityAll(e1.issues, Error);
    WithSeverityNone(e2.issues, Error);
    WithSeverityConcat(e1.issues, e2.issues, Error);
    assert Errors(p2) == e1.issues;
    WithSeverityAll(e3.issues, Error);
    WithSeverityConcat(p2, e3.issues, Error);
    WithSeverityAll(e4.issues, Error);
    WithSeverityConcat(p2 + e3.issues, e4.issues, Error);
  }

  /** After checking a file the exit code `report` would compute is still 0 exactly when it
      was 0 before, no deprecated `typing` import was found, no bare `except:` was found and
      the parser raised no `SyntaxError` (an exception it does not catch ends the script before
      `report`, but records no error). */
  lemma FileExitCode(before: seq<Issue>, path: string, content: string, regex: Regex, scan: TypeHintScan)
    ensures ExitCode(before + FileEffect(path, content, regex, scan).issues) == 0 <==>
            ExitCode(before) == 0 && FirstMatch(DeprecatedTyping, regex.search, content).None? &&
            !regex.search(BareExceptPattern, content) && !scan.SyntaxError?
  {
    var after := before + FileEffect(path, content, regex, scan).issues;
    FileErrors(path, content, regex, scan);
    WithSeverityConcat(before, FileEffect(path, content, regex, scan).issues, Error);
    ErrorsEmpty(before);
    ErrorsEmpty(after);
    DeprecatedTypingOutcome(path, content, regex.search);
    BareExceptOutcome(path, content, regex.search);
    TypeHintsOutcome(path, scan);
  }

  /** No error among the issues exactly when the report lists no error. */
  lemma ErrorsEmpty(issues: seq<Issue>)
    ensures Errors(issues) == [] <==> NoErrors(issues)
  {
    WithSeverityMembers(issues, Error);
    if Errors(issues) != [] {
      assert Errors(issues)[0] in issues;
    }
  }

  /** Since checks only append, an error once recorded fixes the exit code at 1. */
  lemma ExitCodeSticks(issues: seq<Issue>, more: seq<Issue>)
    requires ExitCode(issues) == 1
    ensures ExitCode(issues + more) == 1
  {
    var k :| 0 <= k < |issues| && issues[k].severity == Error;
    assert (issues + more)[k] == issues[k];
  }
}
