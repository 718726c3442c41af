/** The AGENTS.md compliance checker object: two append-only result lists, one method per
    check. Each method appends exactly the effect `Checks` gives for it, so what the lists hold
    after any sequence of checks is determined by the contents checked. */
module AgentsCompliance {
  import opened PyStr
  import opened Checks

  /** The extraction loop of `_check_isort_order`: collects import lines, and once one has
      been seen stops at the first line that is not blank, not indented and not an import. */
  method ExtractImportSection(content: string) returns (importLines: seq<string>)
    ensures importLines == ImportSection(content)
  {
    var lines := Lines(content);
    importLines := [];
    var inImports := false;
    var i := 0;
    while i < |lines|
      invariant 0 <= i <= |lines|
      invariant inImports == (importLines != [])
      invariant importLines + ImportScan(lines[i..], inImports) == ImportScan(lines, false)
    {
      var line := lines[i];
      ghost var rest := lines[i..];
      assert rest[0] == line && rest[1..] == lines[i + 1..];
      if IsImportLine(line) {
        assert ImportScan(rest, inImports) == [line] + ImportScan(lines[i + 1..], true);
        inImports := true;
        importLines := importLines + [line];
      } else if inImports && line != [] && !IsSpace(line[0]) {
        assert ImportScan(rest, inImports) == [];
        break;
      } else {
        assert ImportScan(rest, inImports) == ImportScan(lines[i + 1..], inImports);
      }
      i := i + 1;
    }
  }

  /** One more check run: if the lists held `start` followed by the entries `done` of the
      checks before it, they hold `start` followed by `done` and then its own entries after it. */
  lemma Record(start: Effect, done: Effect, step: Effect, before: Effect, after: Effect)
    requires before == start.Then(done) && after == before.Then(step)
    ensures after == start.Then(done.Then(step))
  {
  }

  class Checker {
    /** `(file, message, severity)` entries, severity 1 for a warning and 2 for an error. */
    var issues: seq<Issue>
    /** Messages of the checks that passed. */
    var passed: seq<Message>

    constructor ()
      ensures issues == [] && passed == []
    {
      issues := [];
      passed := [];
    }

    /** `_check_no_deprecated_typing`: tries the patterns in order and stops at the first
        one found. */
    method CheckNoDeprecatedTyping(path: string, content: string, search: (string, string) -> bool)
      modifies this
      ensures issues == old(issues) + DeprecatedTypingEffect(path, content, search).issues
      ensures passed == old(passed) + DeprecatedTypingEffect(path, content, search).passed
    {
      var i := 0;
      while i < |DeprecatedTyping|
        invariant 0 <= i <= |DeprecatedTyping|
        invariant forall j :: 0 <= j < i ==> !search(DeprecatedTyping[j].0, content)
        invariant issues == old(issues) && passed == old(passed)
      {
        var (pattern, name) := DeprecatedTyping[i];
        if search(pattern, content) {
          assert FirstMatch(DeprecatedTyping, search, content) == Some(i);
          issues := issues + [Issue(path, DeprecatedImport(name), Error)];
          return;
        }
        i := i + 1;
      }
      assert FirstMatch(DeprecatedTyping, search, content) == None;
      passed := passed + [NoDeprecatedImports(Name(path))];
    }

    /** `_check_union_types` */
    method CheckUnionTypes(path: string, content: string)
      modifies this
      ensures issues == old(issues) + UnionTypesEffect(path, content).issues
      ensures passed == old(passed) + UnionTypesEffect(path, content).passed
    {
      var union := Contains(content, "| None") || Contains(content, "| ");
      if union {
        passed := passed + [ModernUnionTypes(Name(path))];
      }
    }

    /** `_check_no_bare_except` */
    method CheckNoBareExcept(path: string, content: string, search: (string, string) -> bool)
      modifies this
      ensures issues == old(issues) + BareExceptEffect(path, content, search).issues
      ensures passed == old(passed) + BareExceptEffect(path, content, search).passed
    {
      var found := search(BareExceptPattern, content);
      if found {
        issues := issues + [Issue(path, BareExcept, Error)];
      } else {
        passed := passed + [NoBareExcept(Name(path))];
      }
    }

    /** `_check_type_hints`, given what parsing and walking the module found; `raised` tells
        that the parser raised an exception the check does not catch, which propagates to
        the caller. */
    method CheckTypeHints(path: string, scan: TypeHintScan) returns (raised: bool)
      modifies this
      ensures raised <==> scan.Uncaught?
      ensures issues == old(issues) + TypeHintsEffect(path, scan).issues
      ensures passed == old(passed) + TypeHintsEffect(path, scan).passed
    {
      raised := false;
      match scan
      case SyntaxError(msg) =>
        issues := issues + [Issue(path, SyntaxErrorFound(msg), Error)];
      case Uncaught(_) =>
        raised := true;
      case Parsed(untyped) =>
        if untyped != [] {
          passed := passed + [MostFunctionsTyped(Name(path), |untyped|)];
        } else {
          passed := passed + [AllFunctionsTyped(Name(path))];
        }
    }

    /** `_check_naming` */
    method CheckNaming(path: string, content: string, regex: Regex)
      modifies this
      ensures issues == old(issues) + NamingEffect(path, content, regex).issues
      ensures passed == old(passed) + NamingEffect(path, content, regex).passed
    {
      if regex.findall(ClassPattern, content, true) != [] {
        passed := passed + [PascalCaseClasses(Name(path))];
      }
      if regex.findall(FunctionPattern, content, true) != [] {
        passed := passed + [SnakeCaseFunctions(Name(path))];
      }
    }

    /** `_check_docstrings`, given the docstrings `re.findall` found. */
    method CheckDocstrings(path: string, content: string, regex: Regex)
      modifies this
      ensures issues == old(issues) + DocstringsEffect(path, |regex.findall(DocstringPattern, content, false)|).issues
      ensures passed == old(passed) + DocstringsEffect(path, |regex.findall(DocstringPattern, content, false)|).passed
    {
      var docCount := |regex.findall(DocstringPattern, content, false)|;
      if docCount > 5 {
        passed := passed + [ComprehensiveDocstrings(Name(path), docCount)];
      } else {
        issues := issues + [Issue(path, FewDocstrings(docCount), Warning)];
      }
    }

    /** `_check_line_length` */
    method CheckLineLength(path: string, content: string)
      modifies this
      ensures issues == old(issues) + LineLengthEffect(path, content).issues
      ensures passed == old(passed) + LineLengthEffect(path, content).passed
    {
      var long := LongLines(content);
      if long != [] {
        issues := issues + [Issue(path, LongLinesFound(|long|), Warning)];
      } else {
        passed := passed + [LinesWithinLimit(Name(path))];
      }
    }

    /** `_check_isort_order`: collects the import section line by line, then compares the
        first standard-library and third-party import lines. */
    method CheckIsortOrder(path: string, content: string)
      modifies this
      ensures issues == old(issues) + IsortEffect(path, content).issues
      ensures passed == old(passed) + IsortEffect(path, content).passed
    {
      var importLines := ExtractImportSection(content);
      if importLines != [] {
        var hasStdlib := Any(importLines, IsStdlibMarker);
        var hasThirdParty := Any(importLines, IsThirdPartyMarker);
        var hasFirstParty := Any(importLines, IsFirstPartyMarker);
        if hasStdlib && hasThirdParty && hasFirstParty {
          var stdlibIdx := FirstIndex(importLines, IsStdlibMarker);
          var thirdPartyIdx := FirstIndex(importLines, IsThirdPartyMarker);
          if stdlibIdx < thirdPartyIdx {
            passed := passed + [ImportsOrdered(Name(path))];
          } else {
            issues := issues + [Issue(path, ImportOrderMismatch, Warning)];
          }
        } else {
          passed := passed + [ImportOrderOk(Name(path))];
        }
      }
    }

    /** `_check_thread_safety` */
    method CheckThreadSafety(path: string, content: string)
      modifies this
      ensures issues == old(issues) + ThreadSafetyEffect(path, content).issues
      ensures passed == old(passed) + ThreadSafetyEffect(path, content).passed
    {
      var lock := Contains(content, "threading.RLock") || Contains(content, "threading.Lock");
      var withLock := Contains(content, "with self._lock");
      var pool := Contains(content, "ThreadPoolExecutor");
      if lock {
        passed := passed + [UsesLock(Name(path))];
      }
      if withLock {
        passed := passed + [UsesLockContext(Name(path))];
      }
      if pool {
        passed := passed + [UsesThreadPool(Name(path))];
      }
    }

    /** `_check_logging` */
    method CheckLogging(path: string, content: string)
      modifies this
      ensures issues == old(issues) + LoggingEffect(path, content).issues
      ensures passed == old(passed) + LoggingEffect(path, content).passed
    {
      var usesLogger := Contains(content, "logger_gui") || Contains(content, "logger");
      if usesLogger {
        passed := passed + [UsesLogger(Name(path))];
      }
    }

    /** `check_file` on a file whose text is `content`: the ten checks in order, or the first
        four when the type-hint check raises. */
    method CheckFile(path: string, content: string, regex: Regex, scan: TypeHintScan)
      modifies this
      ensures issues == old(issues) + FileEffect(path, content, regex, scan).issues
      ensures passed == old(passed) + FileEffect(path, content, regex, scan).passed
    {
      // `start` is a snapshot of the two lists on entry, `before` one taken before each check,
      // and `done` what the checks run so far have appended.
      ghost var start := Effect(issues, passed);
      CheckNoDeprecatedTyping(path, content, regex.search);
      ghost var done := DeprecatedTypingEffect(path, content, regex.search);
      ghost var before: Effect;
      before := Effect(issues, passed);
      CheckUnionTypes(path, content);
      Record(start, done, UnionTypesEffect(path, content), before, Effect(issues, passed));
      done := done.Then(UnionTypesEffect(path, content));
      before := Effect(issues, passed);
      CheckNoBareExcept(path, content, regex.search);
      Record(start, done, BareExceptEffect(path, content, regex.search), before, Effect(issues, passed));
      done := done.Then(BareExceptEffect(path, content, regex.search));
      before := Effect(issues, passed);
      var raised := CheckTypeHints(path, scan);
      Record(start, done, TypeHintsEffect(path, scan), before, Effect(issues, passed));
      done := done.Then(TypeHintsEffect(path, scan));
      if raised {
        return;
      }
      before := Effect(issues, passed);
      CheckNaming(path, content, regex);
      Record(start, done, NamingEffect(path, content, regex), before, Effect(issues, passed));
      done := done.Then(NamingEffect(path, content, regex));
      before := Effect(issues, passed);
      CheckDocstrings(path, content, regex);
      Record(start, done, DocstringsEffect(path, |regex.findall(DocstringPattern, content, false)|), before, Effect(issues, passed));
      done := done.Then(DocstringsEffect(path, |regex.findall(DocstringPattern, content, false)|));
      before := Effect(issues, passed);
      CheckLineLength(path, content);
      Record(start, done, LineLengthEffect(path, content), before, Effect(issues, passed));
      done := done.Then(LineLengthEffect(path, content));
      before := Effect(issues, passed);
      CheckIsortOrder(path, content);
      Record(start, done, IsortEffect(path, content), before, Effect(issues, passed));
      done := done.Then(IsortEffect(path, content));
      before := Effect(issues, passed);
      CheckThreadSafety(path, content);
      Record(start, done, ThreadSafetyEffect(path, content), before, Effect(issues, passed));
      done := done.Then(ThreadSafetyEffect(path, content));
      before := Effect(issues, passed);
      CheckLogging(path, content);
      Record(start, done, LoggingEffect(path, content), before, Effect(issues, passed));
      done := done.Then(LoggingEffect(path, content));
    }

    /** `report`: the errors and the warnings it lists, in the order recorded, and the exit
        code, 0 exactly when no error was recorded. */
    method Report() returns (errors: seq<Issue>, warnings: seq<Issue>, code: int)
      ensures errors == Errors(issues) && warnings == Warnings(issues)
      ensures |errors| + |warnings| == |issues|
      ensures code == ExitCode(issues) && (code == 0 || code == 1)
      ensures code == 0 <==> errors == []
      ensures code == 0 <==> forall k :: 0 <= k < |issues| ==> issues[k].severity != Error
    {
      errors := Errors(issues);
      warnings := Warnings(issues);
      SeverityPartition(issues);
      code := ExitCode(issues);
    }
  }
}
