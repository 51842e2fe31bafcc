/** The orchestrator `analyze_terraform_module` (main.py:113-228): read the
    module, run the three stages in a fixed order, keep a transcript of what
    was shown, and optionally hand the transcript to a report file. The clock
    and the outcome of the file write are inputs. */
module Pipeline {
  import opened Wrappers
  import opened Text
  import opened Base
  import opened ModuleReader
  import ServiceAnalyzer
  import BestPracticesAdvisor
  import ResourcesFetcher
  import Config

  /** The dictionary returned on success. */
  datatype AnalysisResult = AnalysisResult(
    moduleDirectory: string,
    filesAnalyzed: seq<string>,
    awsServices: string,
    bestPracticesResources: string,
    recommendations: string,
    outputFile: Option<string>)

  // ---------------------------------------------------------------------------
  // `Path(terraform_dir).name`
  // ---------------------------------------------------------------------------

  /** The path components that `pathlib` keeps: empty ones (from doubled or
      trailing slashes) and `.` are dropped. */
  function Components(parts: seq<string>): (r: seq<string>)
    ensures forall k :: 0 <= k < |r| ==> r[k] in parts && r[k] != "" && r[k] != "."
    decreases |parts|
  {
    if |parts| == 0 then []
    else
      var prev := Components(parts[..|parts| - 1]);
      var last := parts[|parts| - 1];
      if last == "" || last == "." then prev else prev + [last]
  }

  /** The final component of a path, or `""` when there is none (`"."`,
      `"/"`, `""`). */
  function Basename(path: string): (r: string)
    ensures '/' !in r
  {
    var cs := Components(Split(path, '/'));
    SplitPiecesFree(path, '/');
    if |cs| == 0 then "" else cs[|cs| - 1]
  }

  /** A path ending in a proper component is named by that component. */
  lemma BasenameOfChild(parent: string, name: string)
    requires name != "" && name != "." && '/' !in name
    ensures Basename(parent + "/" + name) == name
  {
    SplitAppendPiece(parent, '/', name);
    var parts := Split(parent, '/') + [name];
    assert parts[..|parts| - 1] == Split(parent, '/');
  }

  /** A trailing slash does not change the name. */
  lemma BasenameIgnoresTrailingSlash(path: string)
    ensures Basename(path + "/") == Basename(path)
  {
    SplitAppendPiece(path, '/', "");
    assert path + "/" == path + ['/'] + "";
    var parts := Split(path, '/') + [""];
    assert parts[..|parts| - 1] == Split(path, '/');
  }

  const ReportPrefix: string := "terraform_analysis_"
  const ReportSuffix: string := ".txt"

  /** `f"terraform_analysis_{module_name}_{timestamp}.txt"`. */
  function OutputFileName(terraformDir: string, timestamp: nat): string {
    ReportPrefix + Basename(terraformDir) + "_" + NatToString(timestamp) + ReportSuffix
  }

  /** The report is always written to the working directory, under a name that
      starts and ends with the fixed affixes. */
  lemma OutputFileNameShape(terraformDir: string, timestamp: nat)
    ensures var f := OutputFileName(terraformDir, timestamp);
            && '/' !in f
            && |ReportPrefix| + |ReportSuffix| < |f|
            && f[..|ReportPrefix|] == ReportPrefix
            && EndsWith(f, ReportSuffix)
  {
    var b := Basename(terraformDir);
    var t := NatToString(timestamp);
    var f := OutputFileName(terraformDir, timestamp);
    assert f == ReportPrefix + (b + "_" + t + ReportSuffix);
    assert f == (ReportPrefix + b + "_" + t) + ReportSuffix;
    assert '/' !in t by {
      forall k | 0 <= k < |t|
        ensures t[k] != '/'
      {
        assert '0' <= t[k] <= '9';
      }
    }
  }

  /** Two runs on the same module at different seconds write different
      files. */
  lemma OutputFileNameInjective(terraformDir: string, t1: nat, t2: nat)
    requires OutputFileName(terraformDir, t1) == OutputFileName(terraformDir, t2)
    ensures t1 == t2
  {
    var b := ReportPrefix + Basename(terraformDir) + "_";
    var s1 := NatToString(t1);
    var s2 := NatToString(t2);
    assert OutputFileName(terraformDir, t1) == b + s1 + ReportSuffix;
    assert OutputFileName(terraformDir, t2) == b + s2 + ReportSuffix;
    assert |s1| == |s2|;
    assert s1 == (b + s1 + ReportSuffix)[|b|..|b| + |s1|];
    assert s2 == (b + s2 + ReportSuffix)[|b|..|b| + |s2|];
    NatToStringInjective(t1, t2);
  }

  // ---------------------------------------------------------------------------
  // The transcript
  // ---------------------------------------------------------------------------

  /** `output_lines` together with `print_and_capture`: messages are only ever
      appended. */
  class Transcript {
    var lines: seq<string>

    constructor ()
      ensures lines == []
    {
      lines := [];
    }

    method Capture(message: string)
      modifies this
      ensures lines == old(lines) + [message]
    {
      lines := lines + [message];
    }
  }

  /** `"=" * 80`. */
  const Rule: string := "================================================================================"

  function HeaderLines(terraformDir: string): seq<string> {
    [Rule, "\U{1F50D} TERRAFORM BEST PRACTICES ANALYZER", Rule,
     "\n\U{1F4C2} Analyzing module: " + terraformDir + "\n",
     Rule, "\U{1F4D6} STEP 1: Reading Terraform code...", Rule]
  }

  function AbortLines(terraformDir: string): seq<string> {
    ["\n\U{274C} ERROR: No Terraform files found in '" + terraformDir + "'",
     "Please provide a directory containing .tf files to analyze."]
  }

  const FileBullet: string := "   - "

  function FileLines(files: seq<string>): (r: seq<string>)
    ensures |r| == |files| && forall k :: 0 <= k < |files| ==> r[k] == FileBullet + files[k]
  {
    seq(|files|, k requires 0 <= k < |files| => FileBullet + files[k])
  }

  function SummaryLines(terraformDir: string, fileCount: nat, totalLines: nat): seq<string> {
    ["\n\U{1F4C2} Module Directory: " + terraformDir,
     "\U{1F4C4} Found " + NatToString(fileCount) + " Terraform file(s) (" + NatToString(totalLines)
       + " lines total):"]
  }

  function FilesFoundLines(terraformDir: string, files: seq<string>, totalLines: nat): seq<string> {
    SummaryLines(terraformDir, |files|, totalLines) + FileLines(files)
  }

  /** The three lines that open steps 2 to 4 and the final section. */
  function Banner(title: string): seq<string> {
    ["\n" + Rule, title, Rule]
  }

  const ServicesTitle: string := "\U{1F50D} STEP 2: Identifying AWS services..."
  const FetchTitle: string := "\U{1F527} STEP 3: Fetching best practices from Terraform Registry..."
  const AdviceTitle: string := "\U{1F4A1} STEP 4: Generating recommendations..."
  const ResultTitle: string := "\U{2728} BEST PRACTICES RECOMMENDATIONS"

  function ServicesLine(services: string): string {
    "\n\U{2705} Services identified: " + services + "\n"
  }

  function ToolsLine(toolCount: nat): string {
    "\U{2705} Using " + NatToString(toolCount) + " MCP tools from Terraform Registry\n"
  }

  function RecommendationsLine(recommendations: string): string {
    "\n" + recommendations + "\n"
  }

  function SavedLine(outputFile: string): string {
    "\n\U{1F4BE} Analysis saved to: " + outputFile
  }

  /** What steps 2 to 4 and the final section show. */
  function StageLines(services: string, toolCount: nat, recommendations: string): seq<string> {
    Banner(ServicesTitle) + [ServicesLine(services)]
    + Banner(FetchTitle) + [ToolsLine(toolCount)]
    + Banner(AdviceTitle)
    + Banner(ResultTitle) + [RecommendationsLine(recommendations)]
  }

  /** Everything a completed analysis shows before the report is saved. */
  function ReportLines(terraformDir: string, files: seq<string>, totalLines: nat, services: string,
                       toolCount: nat, recommendations: string): seq<string> {
    HeaderLines(terraformDir) + FilesFoundLines(terraformDir, files, totalLines)
    + StageLines(services, toolCount, recommendations)
  }

  /** The report lists every analysed file on a line of its own, in order,
      right after the two summary lines. */
  lemma ReportListsFiles(terraformDir: string, files: seq<string>, totalLines: nat, services: string,
                         toolCount: nat, recommendations: string, k: nat)
    requires k < |files|
    ensures var r := ReportLines(terraformDir, files, totalLines, services, toolCount, recommendations);
            9 + k < |r| && r[9 + k] == FileBullet + files[k]
  {
    var h := HeaderLines(terraformDir);
    var f := FilesFoundLines(terraformDir, files, totalLines);
    var rest := StageLines(services, toolCount, recommendations);
    assert ReportLines(terraformDir, files, totalLines, services, toolCount, recommendations) == h + f + rest;
    assert (h + f + rest)[9 + k] == f[2 + k];
  }

  /** The stage outputs in the report: the service list on the line after the
      step-2 banner, and the recommendations, framed by newlines, last. */
  lemma ReportShowsStageOutputs(terraformDir: string, files: seq<string>, totalLines: nat,
                                services: string, toolCount: nat, recommendations: string)
    ensures var r := ReportLines(terraformDir, files, totalLines, services, toolCount, recommendations);
            && |r| == 9 + |files| + 15
            && r[|r| - 1] == "\n" + recommendations + "\n"
            && r[9 + |files| + 3] == "\n\U{2705} Services identified: " + services + "\n"
  {
    var h := HeaderLines(terraformDir) + FilesFoundLines(terraformDir, files, totalLines);
    var rest := StageLines(services, toolCount, recommendations);
    assert ReportLines(terraformDir, files, totalLines, services, toolCount, recommendations) == h + rest;
    assert |h| == 9 + |files|;
  }

  /** The saved report is the transcript up to the recommendations, so it
      holds the recommendations verbatim. */
  lemma SavedReportHoldsRecommendations(terraformDir: string, files: seq<string>, totalLines: nat,
                                        services: string, toolCount: nat, recommendations: string)
    ensures var r := ReportLines(terraformDir, files, totalLines, services, toolCount, recommendations);
            var text := Join("\n", r); var o := PartOffset("\n", r, |r| - 1) + 1;
            && o + |recommendations| <= |text|
            && text[o..o + |recommendations|] == recommendations
  {
    var r := ReportLines(terraformDir, files, totalLines, services, toolCount, recommendations);
    ReportShowsStageOutputs(terraformDir, files, totalLines, services, toolCount, recommendations);
    JoinContainsPart("\n", r, |r| - 1);
    var line := r[|r| - 1];
    assert line[1..1 + |recommendations|] == recommendations;
    SliceWithin(Join("\n", r), PartOffset("\n", r, |r| - 1), line, 1, 1 + |recommendations|);
  }

  // ---------------------------------------------------------------------------
  // main.py:113-228 `analyze_terraform_module`
  // ---------------------------------------------------------------------------

  /** The banner and step-1 heading shown before anything is read. */
  method ShowHeader(t: Transcript, terraformDir: string)
    modifies t
    ensures t.lines == old(t.lines) + HeaderLines(terraformDir)
  {
    t.Capture(Rule);
    t.Capture("\U{1F50D} TERRAFORM BEST PRACTICES ANALYZER");
    t.Capture(Rule);
    t.Capture("\n\U{1F4C2} Analyzing module: " + terraformDir + "\n");
    t.Capture(Rule);
    t.Capture("\U{1F4D6} STEP 1: Reading Terraform code...");
    t.Capture(Rule);
  }

  /** The summary of what step 1 found, one line per file. */
  method ShowFiles(t: Transcript, terraformDir: string, tfFiles: seq<string>, totalLines: nat)
    modifies t
    ensures t.lines == old(t.lines) + FilesFoundLines(terraformDir, tfFiles, totalLines)
  {
    ghost var before := t.lines;
    t.Capture("\n\U{1F4C2} Module Directory: " + terraformDir);
    t.Capture("\U{1F4C4} Found " + NatToString(|tfFiles|) + " Terraform file(s) ("
              + NatToString(totalLines) + " lines total):");
    for i := 0 to |tfFiles|
      invariant t.lines == before + SummaryLines(terraformDir, |tfFiles|, totalLines) + FileLines(tfFiles[..i])
    {
      t.Capture(FileBullet + tfFiles[i]);
      assert FileLines(tfFiles[..i + 1]) == FileLines(tfFiles[..i]) + [FileBullet + tfFiles[i]];
    }
    assert tfFiles[..|tfFiles|] == tfFiles;
  }

  method ShowBanner(t: Transcript, title: string)
    modifies t
    ensures t.lines == old(t.lines) + Banner(title)
  {
    t.Capture("\n" + Rule);
    t.Capture(title);
    t.Capture(Rule);
  }

  /** Steps 2 to 4 on a module whose files were found: each stage is given the
      earlier stages' outputs verbatim. */
  method RunStages(t: Transcript, formattedContent: string, terraformTools: seq<ToolHandle>,
                   backend: Backend, analyzer: ServiceAnalyzer.AnalyzerGlobal,
                   advisor: BestPracticesAdvisor.AdvisorGlobal)
    returns (awsServices: string, bestPracticesDocs: string, recommendations: string, ghost fetcher: Agent)
    requires analyzer.Valid() && advisor.Valid()
    modifies t, analyzer, advisor
    ensures analyzer.Valid() && advisor.Valid()
    ensures analyzer.instance != null && advisor.instance != null
    ensures old(analyzer.instance) != null ==> analyzer.instance == old(analyzer.instance)
    ensures old(advisor.instance) != null ==> advisor.instance == old(advisor.instance)
    ensures fresh(fetcher)
    ensures Built(fetcher, ResourcesFetcherAgent, Config.ResourcesFetcherSystemPrompt, None, terraformTools)
    ensures awsServices == ServiceAnalyzer.AnalyzeOrError(analyzer.instance, backend, formattedContent)
    ensures bestPracticesDocs == ResourcesFetcher.FetchBestPracticesResources(fetcher, backend, awsServices)
    ensures recommendations == BestPracticesAdvisor.RecommendationsOrError(advisor.instance, backend,
                                 formattedContent, awsServices, bestPracticesDocs)
    ensures t.lines == old(t.lines) + StageLines(awsServices, |terraformTools|, recommendations)
  {
    ghost var before := t.lines;
    ShowBanner(t, ServicesTitle);
    awsServices := analyzer.AnalyzeAwsServices(backend, formattedContent);
    t.Capture(ServicesLine(awsServices));
    ghost var stage := Banner(ServicesTitle) + [ServicesLine(awsServices)];
    Grow(before, Banner(ServicesTitle), [ServicesLine(awsServices)]);

    ShowBanner(t, FetchTitle);
    Grow(before, stage, Banner(FetchTitle));
    stage := stage + Banner(FetchTitle);
    t.Capture(ToolsLine(|terraformTools|));
    Grow(before, stage, [ToolsLine(|terraformTools|)]);
    stage := stage + [ToolsLine(|terraformTools|)];

    var resourcesFetcher := ResourcesFetcher.CreateResourcesFetcherAgent(terraformTools);
    fetcher := resourcesFetcher;
    bestPracticesDocs := ResourcesFetcher.FetchBestPracticesResources(resourcesFetcher, backend, awsServices);

    ShowBanner(t, AdviceTitle);
    Grow(before, stage, Banner(AdviceTitle));
    stage := stage + Banner(AdviceTitle);
    recommendations := advisor.GenerateRecommendationsTool(backend, formattedContent, awsServices,
                                                           bestPracticesDocs);

    ShowBanner(t, ResultTitle);
    Grow(before, stage, Banner(ResultTitle));
    stage := stage + Banner(ResultTitle);
    t.Capture(RecommendationsLine(recommendations));
    Grow(before, stage, [RecommendationsLine(recommendations)]);
  }

  /** Appending to the transcript in two steps or in one is the same. */
  lemma Grow(before: seq<string>, shown: seq<string>, more: seq<string>)
    ensures before + shown + more == before + (shown + more)
  {
  }

  /** The report name is chosen whenever saving is asked for; the
      confirmation line is shown only when the write succeeds. */
  method SaveReport(t: Transcript, terraformDir: string, saveToFile: bool, timestamp: nat,
                    writeSucceeds: bool)
    returns (outputFile: Option<string>, written: Option<string>)
    modifies t
    ensures outputFile.Some? <==> saveToFile
    ensures saveToFile ==> outputFile == Some(OutputFileName(terraformDir, timestamp))
    ensures written == if saveToFile then Some(Join("\n", old(t.lines))) else None
    ensures t.lines == if saveToFile && writeSucceeds
                       then old(t.lines) + [SavedLine(OutputFileName(terraformDir, timestamp))]
                       else old(t.lines)
  {
    outputFile := None;
    written := None;
    if saveToFile {
      var name := ReportPrefix + Basename(terraformDir) + "_" + NatToString(timestamp) + ReportSuffix;
      outputFile := Some(name);
      written := Some(Join("\n", t.lines));
      if writeSucceeds {
        t.Capture("\n\U{1F4BE} Analysis saved to: " + name);
      }
    }
  }

  method ShowAbort(t: Transcript, terraformDir: string)
    modifies t
    ensures t.lines == old(t.lines) + AbortLines(terraformDir)
  {
    t.Capture("\n\U{274C} ERROR: No Terraform files found in '" + terraformDir + "'");
    t.Capture("Please provide a directory containing .tf files to analyze.");
  }

  /** Steps 2 to 4 and the report, once step 1 has found files: everything
      after the abort check of `analyze_terraform_module`. */
  method CompleteAnalysis(t: Transcript, terraformDir: string, tfFiles: seq<string>,
                          moduleContent: seq<FileEntry>, totalLines: nat, terraformTools: seq<ToolHandle>,
                          saveToFile: bool, backend: Backend, timestamp: nat, writeSucceeds: bool,
                          analyzer: ServiceAnalyzer.AnalyzerGlobal, advisor: BestPracticesAdvisor.AdvisorGlobal)
    returns (r: AnalysisResult, outputLines: seq<string>, written: Option<string>, ghost fetcher: Agent)
    requires analyzer.Valid() && advisor.Valid()
    requires t.lines == HeaderLines(terraformDir)
    modifies t, analyzer, advisor
    ensures analyzer.Valid() && advisor.Valid()
    ensures var code := FormattedModule(moduleContent);
            var report := ReportLines(terraformDir, tfFiles, totalLines, r.awsServices,
                                      |terraformTools|, r.recommendations);
            && r.moduleDirectory == terraformDir
            && r.filesAnalyzed == tfFiles
            && analyzer.instance != null && advisor.instance != null
            && (old(analyzer.instance) != null ==> analyzer.instance == old(analyzer.instance))
            && (old(advisor.instance) != null ==> advisor.instance == old(advisor.instance))
            && fresh(fetcher)
            && Built(fetcher, ResourcesFetcherAgent, Config.ResourcesFetcherSystemPrompt, None, terraformTools)
            && r.awsServices == ServiceAnalyzer.AnalyzeOrError(analyzer.instance, backend, code)
            && r.bestPracticesResources
               == ResourcesFetcher.FetchBestPracticesResources(fetcher, backend, r.awsServices)
            && r.recommendations
               == BestPracticesAdvisor.RecommendationsOrError(advisor.instance, backend, code,
                                                              r.awsServices, r.bestPracticesResources)
            && (r.outputFile.Some? <==> saveToFile)
            && (saveToFile ==> r.outputFile == Some(OutputFileName(terraformDir, timestamp)))
            && (written.Some? <==> saveToFile)
            && (saveToFile ==> written == Some(Join("\n", report)))
            && (if saveToFile && writeSucceeds
                then outputLines == report + [SavedLine(OutputFileName(terraformDir, timestamp))]
                else outputLines == report)
  {
    ShowFiles(t, terraformDir, tfFiles, totalLines);
    ghost var shown := t.lines;
    var formattedContent := FormatModuleContent(moduleContent);
    var awsServices, bestPracticesDocs, recommendations;
    awsServices, bestPracticesDocs, recommendations, fetcher :=
      RunStages(t, formattedContent, terraformTools, backend, analyzer, advisor);
    assert t.lines == shown + StageLines(awsServices, |terraformTools|, recommendations);

    var outputFile;
    outputFile, written := SaveReport(t, terraformDir, saveToFile, timestamp, writeSucceeds);
    outputLines := t.lines;
    r := AnalysisResult(terraformDir, tfFiles, awsServices, bestPracticesDocs, recommendations, outputFile);
  }

  /** The whole analysis. With no `*.tf` file found it aborts after step 1:
      `None`, no agent touched, nothing written. Otherwise each stage gets the
      earlier stages' outputs verbatim, `files_analyzed` lists every file
      found (those whose read failed included), and with `save_to_file` the
      report name is recorded whether or not the write succeeds. `written` is
      the text handed to the file write, if one was attempted, and `fetcher`
      the resources agent built for this run. */
  method AnalyzeTerraformModule(terraformDir: string, d: DirectoryPath, terraformTools: seq<ToolHandle>,
                                saveToFile: bool, backend: Backend, timestamp: nat, writeSucceeds: bool,
                                analyzer: ServiceAnalyzer.AnalyzerGlobal,
                                advisor: BestPracticesAdvisor.AdvisorGlobal)
    returns (result: Option<AnalysisResult>, outputLines: seq<string>, written: Option<string>,
             ghost fetcher: Agent?)
    requires analyzer.Valid() && advisor.Valid()
    modifies analyzer, advisor
    ensures analyzer.Valid() && advisor.Valid()
    ensures result.None? <==> TfNames(d) == {}
    ensures result.None? ==>
              && outputLines == HeaderLines(terraformDir) + AbortLines(terraformDir)
              && written == None && fetcher == null
              && analyzer.instance == old(analyzer.instance) && advisor.instance == old(advisor.instance)
    ensures result.Some? ==>
              var r := result.value;
              var mc := LoadFiles(d.entries, r.filesAnalyzed);
              var code := FormattedModule(mc);
              var report := ReportLines(terraformDir, r.filesAnalyzed, LineTotal(mc), r.awsServices,
                                        |terraformTools|, r.recommendations);
              && d.Directory?
              && r.moduleDirectory == terraformDir
              && IsListing(d, r.filesAnalyzed)
              && analyzer.instance != null && advisor.instance != null && fetcher != null
              && (old(analyzer.instance) != null ==> analyzer.instance == old(analyzer.instance))
              && (old(advisor.instance) != null ==> advisor.instance == old(advisor.instance))
              && fresh(fetcher)
              && Built(fetcher, ResourcesFetcherAgent, Config.ResourcesFetcherSystemPrompt, None, terraformTools)
              && r.awsServices == ServiceAnalyzer.AnalyzeOrError(analyzer.instance, backend, code)
              && r.bestPracticesResources
                 == ResourcesFetcher.FetchBestPracticesResources(fetcher, backend, r.awsServices)
              && r.recommendations
                 == BestPracticesAdvisor.RecommendationsOrError(advisor.instance, backend, code,
                                                                r.awsServices, r.bestPracticesResources)
              && (r.outputFile.Some? <==> saveToFile)
              && (saveToFile ==> r.outputFile == Some(OutputFileName(terraformDir, timestamp)))
              && (written.Some? <==> saveToFile)
              && (saveToFile ==> written == Some(Join("\n", report)))
              && (if saveToFile && writeSucceeds
                  then outputLines == report + [SavedLine(OutputFileName(terraformDir, timestamp))]
                  else outputLines == report)
  {
    var transcript := new Transcript();
    ShowHeader(transcript, terraformDir);
    assert transcript.lines == HeaderLines(terraformDir);

    var moduleContent, tfFiles, totalLines := ReadTerraformModule(d);

    if |tfFiles| == 0 {
      ShowAbort(transcript, terraformDir);
      assert TfNames(d) == {} by {
        assert forall n :: n !in TfNames(d);
      }
      return None, transcript.lines, None, null;
    }
    assert tfFiles[0] in TfNames(d);

    var r;
    r, outputLines, written, fetcher :=
      CompleteAnalysis(transcript, terraformDir, tfFiles, moduleContent, totalLines, terraformTools,
                       saveToFile, backend, timestamp, writeSucceeds, analyzer, advisor);
    result := Some(r);
  }

  /** No listed name can be read: nothing is loaded. */
  lemma {:induction false} NothingReadable(entries: map<string, Option<string>>, names: seq<string>)
    requires forall k :: 0 <= k < |names| ==> names[k] in entries && entries[names[k]] == None
    ensures LoadFiles(entries, names) == []
    decreases |names|
  {
    if |names| > 0 {
      NothingReadable(entries, names[..|names| - 1]);
    }
  }

  /** A module whose `.tf` files all fail to read is not aborted: the agents
      are shown the empty-module notice while every file is still listed. */
  lemma UnreadableModuleStillAnalysed(d: DirectoryPath, files: seq<string>)
    requires d.Directory? && IsListing(d, files) && |files| > 0
    requires forall n :: n in d.entries && IsTfName(n) ==> d.entries[n] == None
    ensures TfNames(d) != {}
    ensures FormattedModule(LoadFiles(d.entries, files)) == ModuleReader.NoCode
  {
    assert files[0] in TfNames(d);
    assert forall k :: 0 <= k < |files| ==> files[k] in TfNames(d);
    NothingReadable(d.entries, files);
  }
}
