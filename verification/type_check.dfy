/**
 The type-check report (components/types/result.go): per-package details and
 a summary whose score starts at 1000 and loses a fixed penalty per detail
 status, never dropping below zero.

 Go `int` arithmetic is modelled with unbounded integers; the sums involved
 stay far from 64-bit limits for any real report. Division truncates toward
 zero as in Go, and a division by zero is a run-time panic, which the model
 represents as `Panics`.
 */
module TypeCheck {
  import opened Wrappers
  import opened Strings

  datatype Detail = Detail(
    id: string,
    package: string,
    status: string,
    lines: int,
    statusCode: int,
    statusText: string,
    astFile: string,
    functions: map<string, string>,
    errors: seq<string>,
    warnings: seq<string>,
    info: seq<string>)

  datatype Summary = Summary(
    totalPackages: int,
    successful: int,
    errors: int,
    criticalErrors: int,
    linesAnalyzed: int,
    avgLinesPerPkg: int,
    resume: string,
    score: int)

  datatype Report = Report(summary: Summary, details: seq<Detail>, duration: string)

  /** Go's `/` on `int`: the quotient truncated toward zero. */
  function Quo(a: int, b: int): (q: int)
    requires b != 0
    ensures a >= 0 && b > 0 ==> q == a / b
    ensures q * b + (a - q * b) == a
    ensures (a - q * b) == 0 || ((a - q * b) < 0 <==> a < 0)
    ensures Abs(a - q * b) < Abs(b)
  {
    var q := Abs(a) / Abs(b);
    if (a < 0) == (b < 0) then q else -q
  }

  function Abs(x: int): nat
  {
    if x < 0 then -x else x
  }

  /** The penalty table of `UpdateSummary`; a status outside it costs nothing. */
  function Penalty(status: string): (p: nat)
    ensures p <= 250
  {
    if status == "Success" then 0
    else if status == "Error" then 150
    else if status == "CriticalError" then 250
    else if status == "Warning" then 50
    else if status == "Unknown" then 50
    else 0
  }

  /** One step of the score loop: subtract, then clamp at zero. */
  function Clamp(x: int): nat
  {
    if x < 0 then 0 else x
  }

  /** The score loop over `ds`, starting from `score`. */
  function Fold(score: nat, ds: seq<Detail>): (r: nat)
    ensures r <= score
    decreases |ds|
  {
    if |ds| == 0 then score
    else Fold(Clamp(score - Penalty(ds[0].status)), ds[1..])
  }

  /** Total penalty of `ds`, without clamping. */
  function SumPenalty(ds: seq<Detail>): nat
  {
    if |ds| == 0 then 0 else Penalty(ds[0].status) + SumPenalty(ds[1..])
  }

  function SumLines(ds: seq<Detail>): int
  {
    if |ds| == 0 then 0 else ds[0].lines + SumLines(ds[1..])
  }

  /** `fmt.Sprintf("Packages: %d | Success: %d | Errors: %d | Lines: %d | Score: %d", ...)`. */
  function Resume(s: Summary): string
  {
    "Packages: " + IntToDecimal(s.totalPackages)
      + " | Success: " + IntToDecimal(s.successful)
      + " | Errors: " + IntToDecimal(s.errors)
      + " | Lines: " + IntToDecimal(s.linesAnalyzed)
      + " | Score: " + IntToDecimal(s.score)
  }

  /**
   `AnalyzePackage(pkgName, lines, astFile)`: a successful detail whose
   errors hold "Package too small" exactly when the package has under ten lines.
   */
  function AnalyzePackage(pkg: string, lines: int, astFile: string): (d: Detail)
    ensures d.id == pkg && d.package == pkg && d.lines == lines && d.astFile == astFile
    ensures d.status == "Success" && d.statusCode == 200 && d.statusText == "OK"
    ensures ("Package too small" in d.errors) <==> lines < 10
    ensures |d.errors| <= 1 && d.warnings == [] && d.info == ["Analysis completed"]
    ensures Penalty(d.status) == 0
  {
    Detail(pkg, pkg, "Success", lines, 200, "OK", astFile,
           map["exampleFunc" := "func()"],
           if lines < 10 then ["Package too small"] else [],
           [], ["Analysis completed"])
  }

  /**
   `UpdateSummary`: recounts the summary from the details. Go divides the
   line total by the package count, so an empty detail list panics; the
   precondition excludes it.
   */
  function UpdateSummary(ds: seq<Detail>): (s: Summary)
    requires |ds| > 0
    ensures s.totalPackages == |ds|
    ensures s.linesAnalyzed == SumLines(ds)
    ensures s.successful == 0 && s.errors == 0 && s.criticalErrors == 0
    ensures 0 <= s.score <= 1000
    ensures s.score == Clamp(1000 - SumPenalty(ds))
    ensures s.avgLinesPerPkg == Quo(SumLines(ds), |ds|)
    ensures s.resume == Resume(s)
  {
    FoldClosedForm(1000, ds);
    var score := Fold(1000, ds);
    var lines := SumLines(ds);
    var s := Summary(|ds|, 0, 0, 0, lines, Quo(lines, |ds|), "", score);
    s.(resume := Resume(s))
  }

  /** The same update as a Go call: it panics on an empty detail list. */
  function UpdateSummaryRun(ds: seq<Detail>): (r: Run<Summary>)
    ensures r.Panics? <==> |ds| == 0
  {
    if |ds| == 0 then Panics("integer divide by zero") else Returns(UpdateSummary(ds))
  }

  /** `NewTypeCheckResult`: no details, score 100, duration "0s". */
  function NewTypeCheckResult(): (r: Report)
    ensures r.details == [] && r.duration == "0s"
    ensures r.summary.score == 100 && r.summary.totalPackages == 0 && r.summary.resume == ""
  {
    Report(Summary(0, 0, 0, 0, 0, 0, "", 100), [], "0s")
  }

  /**
   `GenerateFinalResult`: the loop ranges over the details as they were, so
   each original detail is appended once; then the summary is recounted.
   */
  function GenerateFinalResult(r: Report): (out: Run<Report>)
    ensures out.Panics? <==> |r.details| == 0
    ensures out.Returns? ==> out.value.details == r.details + r.details
    ensures out.Returns? ==> out.value.summary == UpdateSummary(r.details + r.details)
    ensures out.Returns? ==> out.value.duration == r.duration
  {
    var ds := r.details + r.details;
    match UpdateSummaryRun(ds)
    case Panics(why) => Panics(why)
    case Returns(s) => Returns(r.(details := ds, summary := s))
  }

  /**
   `ProcessPackages`: the package list is an empty literal, so no detail is
   ever analysed and `GenerateFinalResult` reaches the division with none.
   */
  function ProcessPackages(): (r: Run<Report>)
    ensures r.Panics?
  {
    GenerateFinalResult(NewTypeCheckResult())
  }

  // ---------------------------------------------------------------------
  // Properties
  // ---------------------------------------------------------------------

  /** Clamping after every step equals clamping once at the end, because penalties are never negative. */
  lemma {:induction false} FoldClosedForm(score: nat, ds: seq<Detail>)
    ensures Fold(score, ds) == Clamp(score - SumPenalty(ds))
    decreases |ds|
  {
    if |ds| > 0 {
      FoldClosedForm(Clamp(score - Penalty(ds[0].status)), ds[1..]);
    }
  }

  /** The score is 1000 exactly when no detail carries a penalised status. */
  lemma {:induction false} FullScoreIff(ds: seq<Detail>)
    requires |ds| > 0
    ensures UpdateSummary(ds).score == 1000 <==> forall i :: 0 <= i < |ds| ==> Penalty(ds[i].status) == 0
  {
    SumPenaltyZeroIff(ds);
  }

  lemma {:induction false} SumPenaltyZeroIff(ds: seq<Detail>)
    ensures SumPenalty(ds) == 0 <==> forall i :: 0 <= i < |ds| ==> Penalty(ds[i].status) == 0
    decreases |ds|
  {
    if |ds| > 0 {
      SumPenaltyZeroIff(ds[1..]);
      assert forall i :: 1 <= i < |ds| ==> ds[i] == ds[1..][i - 1];
    }
  }

  lemma {:induction false} SumsOfConcat(a: seq<Detail>, b: seq<Detail>)
    ensures SumLines(a + b) == SumLines(a) + SumLines(b)
    ensures SumPenalty(a + b) == SumPenalty(a) + SumPenalty(b)
    decreases |a|
  {
    if |a| == 0 {
      assert a + b == b;
    } else {
      assert (a + b)[0] == a[0];
      assert (a + b)[1..] == a[1..] + b;
      SumsOfConcat(a[1..], b);
    }
  }

  /**
   The final result counts every package twice: twice the packages, twice
   the lines, twice the penalty, and the same average.
   */
  lemma FinalResultDoubles(r: Report)
    requires |r.details| > 0
    ensures var out := GenerateFinalResult(r);
      && out.Returns?
      && out.value.summary.totalPackages == 2 * |r.details|
      && out.value.summary.linesAnalyzed == 2 * SumLines(r.details)
      && out.value.summary.score == Clamp(1000 - 2 * SumPenalty(r.details))
  {
    var ds := r.details + r.details;
    var s := UpdateSummary(ds);
    assert GenerateFinalResult(r) == Returns(r.(details := ds, summary := s));
    SumsOfConcat(r.details, r.details);
    assert s.score == Clamp(1000 - SumPenalty(ds));
  }

  /** Freshly analysed packages never cost points: the summary of analysed packages scores 1000. */
  lemma AnalyzedPackagesScoreFull(pkgs: seq<string>, lines: seq<int>)
    requires |pkgs| == |lines| > 0
    ensures var ds := seq(|pkgs|, i requires 0 <= i < |pkgs| => AnalyzePackage(pkgs[i], lines[i], pkgs[i] + ".ast"));
      UpdateSummary(ds).score == 1000
  {
    var ds := seq(|pkgs|, i requires 0 <= i < |pkgs| => AnalyzePackage(pkgs[i], lines[i], pkgs[i] + ".ast"));
    FullScoreIff(ds);
  }
}
