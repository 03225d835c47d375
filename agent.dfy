/**
 * The stage graph (src/warden/agent.ts): START -> download -> transcribe -> summarize -> END,
 * one edge out of every node. Running it calls each stage once, in that order, on the state
 * with every earlier patch merged in, and reports each stage's patch as one update.
 */
module Agent {
  import opened Wrappers
  import opened State
  import opened Nodes
  import Summarizer
  import Downloader

  datatype Stage = Download | Transcribe | Summarize

  datatype GraphNode = Start | Step(stage: Stage) | End

  /** The edges the graph is built with. */
  function Edge(n: GraphNode): GraphNode {
    match n
    case Start => Step(Download)
    case Step(Download) => Step(Transcribe)
    case Step(Transcribe) => Step(Summarize)
    case Step(Summarize) => End
    case End => End
  }

  /** Distance to `End` along the edges: every edge leads strictly closer, so there is no cycle. */
  function Rank(n: GraphNode): nat {
    match n
    case Start => 4
    case Step(Download) => 3
    case Step(Transcribe) => 2
    case Step(Summarize) => 1
    case End => 0
  }

  /** The stages met walking the edges from `n` to `End`. */
  function StagesFrom(n: GraphNode): seq<Stage>
    decreases Rank(n)
  {
    if n == End then []
    else (if n.Step? then [n.stage] else []) + StagesFrom(Edge(n))
  }

  /** The order the compiled graph runs its stages in. */
  function Schedule(): (stages: seq<Stage>)
    ensures stages == [Download, Transcribe, Summarize]
  {
    StagesFrom(Start)
  }

  /** One streamed update: the stage that ran and the patch it returned. */
  datatype Update = Update(node: Stage, patch: Patch)

  datatype Run = Run(updates: seq<Update>, final: VidScribeState)

  function RunStage(stage: Stage, s: VidScribeState, svc: Services): Patch {
    match stage
    case Download => DownloadNode(s, svc.download, svc.probe)
    case Transcribe => TranscribeNode(s, svc.transcribe)
    case Summarize => SummarizeNode(s, svc.summarize)
  }

  /** Runs the stages in order, merging each patch before the next stage; one update per stage,
      in stage order. */
  function RunStages(stages: seq<Stage>, s: VidScribeState, svc: Services): (r: Run)
    ensures |r.updates| == |stages|
    ensures forall i :: 0 <= i < |stages| ==> r.updates[i].node == stages[i]
  {
    if stages == [] then Run([], s)
    else
      var p := RunStage(stages[0], s, svc);
      var rest := RunStages(stages[1..], Merge(s, p), svc);
      Run([Update(stages[0], p)] + rest.updates, rest.final)
  }

  /** `app.stream({ url })` to completion: exactly three updates, download, transcribe and
      summarize, in that order. */
  function RunGraph(url: string, svc: Services): (r: Run)
    ensures |r.updates| == 3
    ensures r.updates[0].node == Download && r.updates[1].node == Transcribe && r.updates[2].node == Summarize
  {
    RunStages(Schedule(), Initial(url), svc)
  }

  /** Each stage sees the state after all earlier patches have been merged. */
  lemma {:induction false} EachStageSeesEarlierPatches(stages: seq<Stage>, s: VidScribeState, svc: Services, i: nat)
    requires i < |stages|
    ensures RunStages(stages, s, svc).updates[i].patch
            == RunStage(stages[i], RunStages(stages[..i], s, svc).final, svc)
  {
    if i > 0 {
      var p := RunStage(stages[0], s, svc);
      EachStageSeesEarlierPatches(stages[1..], Merge(s, p), svc, i - 1);
      assert stages[..i][1..] == stages[1..][..i - 1];
    }
  }

  /** The final state is the state before the last stage with the last patch merged in. */
  lemma {:induction false} FinalMergesLastPatch(stages: seq<Stage>, s: VidScribeState, svc: Services)
    requires |stages| >= 1
    ensures var r := RunStages(stages, s, svc);
      r.final == Merge(RunStages(stages[..|stages| - 1], s, svc).final, r.updates[|stages| - 1].patch)
  {
    var p := RunStage(stages[0], s, svc);
    if |stages| > 1 {
      FinalMergesLastPatch(stages[1..], Merge(s, p), svc);
      assert stages[..|stages| - 1][1..] == stages[1..][..|stages| - 2];
    }
    EachStageSeesEarlierPatches(stages, s, svc, |stages| - 1);
  }

  /** No stage writes `url`: the input survives the run. */
  lemma {:induction false} RunKeepsUrl(stages: seq<Stage>, s: VidScribeState, svc: Services)
    ensures RunStages(stages, s, svc).final.url == s.url
  {
    if stages != [] {
      var p := RunStage(stages[0], s, svc);
      assert Url !in Keys(p);
      RunKeepsUrl(stages[1..], Merge(s, p), svc);
    }
  }

  /** Every stage reports a status, so the shared `status` ends as the last stage's message. */
  lemma {:induction false} RunEndsWithLastStatus(stages: seq<Stage>, s: VidScribeState, svc: Services)
    requires |stages| >= 1
    ensures var r := RunStages(stages, s, svc);
      r.updates[|stages| - 1].patch.status.Some? && r.final.status == r.updates[|stages| - 1].patch.status
  {
    FinalMergesLastPatch(stages, s, svc);
    var r := RunStages(stages, s, svc);
    var last := r.updates[|stages| - 1].patch;
    EachStageSeesEarlierPatches(stages, s, svc, |stages| - 1);
    assert last.status.Some?;
  }

  /**
   * The graph run: three updates (download, transcribe, summarize), each stage applied to the
   * initial `{ url }` with the earlier patches merged in, and the final state the three patches
   * merged in order.
   */
  lemma RunGraphSteps(url: string, svc: Services)
    ensures var r := RunGraph(url, svc);
      var p0 := DownloadNode(Initial(url), svc.download, svc.probe);
      var s1 := Merge(Initial(url), p0);
      var p1 := TranscribeNode(s1, svc.transcribe);
      var s2 := Merge(s1, p1);
      var p2 := SummarizeNode(s2, svc.summarize);
      && r.updates == [Update(Download, p0), Update(Transcribe, p1), Update(Summarize, p2)]
      && r.final == Merge(s2, p2)
      && r.final.url == url
      && r.final.status == p2.status
  {
    var stages := Schedule();
    var s0 := Initial(url);
    var p0 := DownloadNode(s0, svc.download, svc.probe);
    var s1 := Merge(s0, p0);
    var p1 := TranscribeNode(s1, svc.transcribe);
    var s2 := Merge(s1, p1);
    var p2 := SummarizeNode(s2, svc.summarize);
    var r3 := RunStages([], Merge(s2, p2), svc);
    assert r3 == Run([], Merge(s2, p2));
    var r2 := RunStages([Summarize], s2, svc);
    assert [Summarize][1..] == [];
    assert r2 == Run([Update(Summarize, p2)], Merge(s2, p2));
    var r1 := RunStages([Transcribe, Summarize], s1, svc);
    assert [Transcribe, Summarize][1..] == [Summarize];
    assert r1 == Run([Update(Transcribe, p1), Update(Summarize, p2)], Merge(s2, p2));
    assert stages[1..] == [Transcribe, Summarize];
    assert RunStages(stages, s0, svc) == Run([Update(Download, p0)] + r1.updates, r1.final);
    RunKeepsUrl(stages, s0, svc);
  }

  /**
   * Each field of the final state holds what the stage that owns it returned: no later stage
   * touches an earlier stage's fields, and the shared `status` is the last stage's.
   */
  lemma FinalFieldsFromOwners(url: string, svc: Services)
    ensures var r := RunGraph(url, svc);
      && r.final.audioPath == r.updates[0].patch.audioPath
      && r.final.duration == r.updates[0].patch.duration
      && r.final.transcription == r.updates[1].patch.transcription
      && r.final.summary == r.updates[2].patch.summary
      && r.final.contentIdeas == r.updates[2].patch.contentIdeas
      && r.final.status == r.updates[2].patch.status
  {
    RunGraphSteps(url, svc);
  }

  /** A download error skips the later stages: each reports its unmet precondition, and the
      last status is the summarize stage's. */
  lemma DownloadFailureSkipsLaterStages(url: string, svc: Services)
    requires svc.download(url).Err?
    ensures var r := RunGraph(url, svc);
      && r.updates == [Update(Download, StatusOnly(DownloadFailed(svc.download(url).msg))),
                       Update(Transcribe, StatusOnly(NoAudioPath)),
                       Update(Summarize, StatusOnly(NoTranscription))]
      && r.final == Initial(url).(status := Some(NoTranscription))
  {
    RunGraphSteps(url, svc);
    var s1 := Merge(Initial(url), StatusOnly(DownloadFailed(svc.download(url).msg)));
    assert s1 == Initial(url).(status := Some(DownloadFailed(svc.download(url).msg)));
    var s2 := Merge(s1, StatusOnly(NoAudioPath));
    assert s2 == Initial(url).(status := Some(NoAudioPath));
  }

  /** A transcription error skips the summarize stage. */
  lemma TranscriptionFailureSkipsSummary(url: string, svc: Services)
    requires svc.download(url).Ok? && svc.download(url).value != ""
    requires svc.transcribe(svc.download(url).value).Err?
    ensures var r := RunGraph(url, svc);
      && r.updates[1].patch == StatusOnly(TranscriptionFailed(svc.transcribe(svc.download(url).value).msg))
      && r.updates[2].patch == StatusOnly(NoTranscription)
      && r.final.audioPath == Some(svc.download(url).value)
      && r.final.status == Some(NoTranscription)
  {
    RunGraphSteps(url, svc);
  }

  /**
   * The downloader's existence check feeds the download stage: when yt-dlp exits but the
   * expected file is absent, the run reports the missing file and skips the later stages.
   */
  lemma MissingArtifactSkipsLaterStages(d: Downloader.VideoDownloader, timestamp: nat,
                                        run: string -> Downloader.ExecOutcome, present: set<string>,
                                        url: string, svc: Services)
    requires svc.download == DownloaderService(d, timestamp, run, present)
    requires run(d.Command(url, timestamp)).Exited? && d.FinalPath(timestamp) !in present
    ensures var r := RunGraph(url, svc);
      && r.updates[0].patch == StatusOnly(DownloadFailed(Downloader.ArtifactMissing))
      && r.final.status == Some(NoTranscription)
  {
    MissingArtifactFailsDownload(d, timestamp, run, present, url);
    DownloadFailureSkipsLaterStages(url, svc);
  }

  lemma MissingArtifactFailsDownload(d: Downloader.VideoDownloader, timestamp: nat,
                                     run: string -> Downloader.ExecOutcome, present: set<string>, url: string)
    requires run(d.Command(url, timestamp)).Exited? && d.FinalPath(timestamp) !in present
    ensures DownloaderService(d, timestamp, run, present)(url) == Err(Downloader.ArtifactMissing)
  {
    var result := d.DownloadAudio(url, timestamp, run, present).result;
    assert result == Err(Downloader.ArtifactMissing);
  }

  /** When yt-dlp exits normally and the expected file exists, the download call returns that
      file's path. */
  lemma PresentArtifactIsReturned(d: Downloader.VideoDownloader, timestamp: nat,
                                  run: string -> Downloader.ExecOutcome, present: set<string>, url: string)
    requires run(d.Command(url, timestamp)).Exited? && d.FinalPath(timestamp) in present
    ensures DownloaderService(d, timestamp, run, present)(url) == Ok(d.FinalPath(timestamp))
  {
    var result := d.DownloadAudio(url, timestamp, run, present).result;
    assert result == Ok(d.FinalPath(timestamp));
  }

  /** When `exec` rejects, the download call fails with that error's message, unchanged. */
  lemma ExecFailureIsRethrown(d: Downloader.VideoDownloader, timestamp: nat,
                              run: string -> Downloader.ExecOutcome, present: set<string>, url: string)
    requires run(d.Command(url, timestamp)).Failed?
    ensures DownloaderService(d, timestamp, run, present)(url) == Err(run(d.Command(url, timestamp)).msg)
  {
    var result := d.DownloadAudio(url, timestamp, run, present).result;
    assert result == Err(run(d.Command(url, timestamp)).msg);
  }

  /**
   * Failover seen from the pipeline: when the primary provider returns no content for a
   * non-empty transcription and the secondary's content parses, the run ends with the
   * secondary's status and engine and the parsed summary (defaulted when missing).
   */
  lemma EmptyPrimaryEndsWithFailover(url: string, svc: Services,
                                     primary: string -> Summarizer.ProviderReply,
                                     secondary: string -> Summarizer.ProviderReply,
                                     parse: string -> Attempt<Summarizer.Parsed>,
                                     audioPath: string, text: string, content: string, parsed: Summarizer.Parsed)
    requires svc.summarize == SummarizerService(primary, secondary, parse)
    requires svc.download(url) == Ok(audioPath) && audioPath != ""
    requires svc.transcribe(audioPath) == Ok(text) && text != ""
    requires primary(Summarizer.Prompt(text)) == Summarizer.Content(None)
    requires secondary(Summarizer.Prompt(text)) == Summarizer.Content(Some(content)) && content != ""
    requires parse(content) == Ok(parsed)
    ensures var r := RunGraph(url, svc);
      var expected := Summarizer.Defaulted(parsed, Summarizer.SecondaryStatus, Summarizer.SecondaryEngine);
      && r.updates[2].patch.engineUsed == Some(Summarizer.SecondaryEngine)
      && r.final.status == Some(Summarizer.SecondaryStatus)
      && r.final.summary == Some(expected.summary)
      && r.final.transcription == Some(text)
      && r.final.audioPath == Some(audioPath)
  {
    RunGraphSteps(url, svc);
    var run := Summarizer.Summarize(text, primary(Summarizer.Prompt(text)), secondary(Summarizer.Prompt(text)), parse);
    assert run.outcome == Ok(Summarizer.Defaulted(parsed, Summarizer.SecondaryStatus, Summarizer.SecondaryEngine));
  }
}
