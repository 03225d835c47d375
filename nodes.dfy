/**
 * The three stages (src/warden/nodes.ts). Each reads the accumulated state and returns a
 * patch holding its own fields and `status`; every error is caught and becomes a status
 * message. The downloader, the duration probe, the transcriber and the summarizer are
 * parameters: each maps its argument to the value returned or the message thrown.
 */
module Nodes {
  import opened Wrappers
  import opened State
  import Summarizer
  import Downloader

  /** The external calls the stages make. */
  datatype Services = Services(
    download: string -> Attempt<string>,    // downloader.downloadAudio(url)
    probe: string -> Attempt<nat>,          // the ffprobe run on the audio file, in whole seconds
    transcribe: string -> Attempt<string>,  // transcriber.transcribe(audioPath)
    summarize: string -> Attempt<Summarizer.SummaryResult>)  // summarizer.summarize(text)

  const DownloadSucceeded := "Audio extracted successfully"
  const NoAudioPath := "No audio path to transcribe"
  const TranscriptionSucceeded := "Transcription completed"
  const NoTranscription := "No transcription to summarize"

  function DownloadFailed(msg: string): string { "Download failed: " + msg }
  function TranscriptionFailed(msg: string): string { "Transcription failed: " + msg }
  function SummarizationFailed(msg: string): string { "Summarization failed: " + msg }

  /** JavaScript truthiness of an optional string: present and non-empty. */
  predicate Truthy(o: Option<string>) {
    o.Some? && o.value != ""
  }

  /**
   * `downloadNode`: on a downloaded file, its path, its duration (0 when the probe fails,
   * which does not fail the stage) and the success status; on a download error, the status
   * alone.
   */
  function DownloadNode(s: VidScribeState, download: string -> Attempt<string>,
                        probe: string -> Attempt<nat>): (p: Patch)
    ensures Keys(p) <= {AudioPath, Duration, Status} && p.status.Some?
    ensures p.audioPath.Some? <==> download(s.url).Ok?
    ensures download(s.url).Ok? ==>
      && p.audioPath == Some(download(s.url).value)
      && p.duration == Some(match probe(download(s.url).value) case Ok(d) => d case Err(_) => 0)
      && p.status == Some(DownloadSucceeded)
    ensures download(s.url).Err? ==> p == StatusOnly(DownloadFailed(download(s.url).msg))
  {
    match download(s.url)
    case Ok(audioPath) =>
      var duration := match probe(audioPath) case Ok(d) => d case Err(_) => 0;
      EmptyPatch.(audioPath := Some(audioPath), duration := Some(duration), status := Some(DownloadSucceeded))
    case Err(m) => StatusOnly(DownloadFailed(m))
  }

  /**
   * `transcribeNode`: without an audio path (absent or empty) it skips and the transcriber
   * plays no part; otherwise the transcription and the success status, or the failure status.
   */
  function TranscribeNode(s: VidScribeState, transcribe: string -> Attempt<string>): (p: Patch)
    ensures Keys(p) <= {Transcription, Status} && p.status.Some?
    ensures !Truthy(s.audioPath) ==> p == StatusOnly(NoAudioPath)
    ensures p.transcription.Some? <==> Truthy(s.audioPath) && transcribe(s.audioPath.value).Ok?
    ensures p.transcription.Some? ==>
      p.transcription.value == transcribe(s.audioPath.value).value && p.status == Some(TranscriptionSucceeded)
    ensures Truthy(s.audioPath) && transcribe(s.audioPath.value).Err? ==>
      p == StatusOnly(TranscriptionFailed(transcribe(s.audioPath.value).msg))
  {
    if !Truthy(s.audioPath) then StatusOnly(NoAudioPath)
    else
      match transcribe(s.audioPath.value)
      case Ok(t) => EmptyPatch.(transcription := Some(t), status := Some(TranscriptionSucceeded))
      case Err(m) => StatusOnly(TranscriptionFailed(m))
  }

  /**
   * `summarizeNode`: without a transcription (absent or empty) it skips and the summarizer
   * plays no part; otherwise the summarizer's summary, ideas, status and engine unchanged, or
   * the failure status.
   */
  function SummarizeNode(s: VidScribeState, summarize: string -> Attempt<Summarizer.SummaryResult>): (p: Patch)
    ensures Keys(p) <= {Summary, ContentIdeas, Status, EngineUsed} && p.status.Some?
    ensures !Truthy(s.transcription) ==> p == StatusOnly(NoTranscription)
    ensures p.summary.Some? <==> Truthy(s.transcription) && summarize(s.transcription.value).Ok?
    ensures p.summary.Some? ==>
      var r := summarize(s.transcription.value).value;
      Keys(p) == {Summary, ContentIdeas, Status, EngineUsed}
      && p.summary == Some(r.summary) && p.contentIdeas == Some(r.contentIdeas)
      && p.status == Some(r.status) && p.engineUsed == Some(r.engineUsed)
    ensures Truthy(s.transcription) && summarize(s.transcription.value).Err? ==>
      p == StatusOnly(SummarizationFailed(summarize(s.transcription.value).msg))
  {
    if !Truthy(s.transcription) then StatusOnly(NoTranscription)
    else
      match summarize(s.transcription.value)
      case Ok(r) => EmptyPatch.(summary := Some(r.summary), contentIdeas := Some(r.contentIdeas),
                                status := Some(r.status), engineUsed := Some(r.engineUsed))
      case Err(m) => StatusOnly(SummarizationFailed(m))
  }

  /** The downloader instance as the download stage sees it: `downloadAudio(url)` at the
      given time, with the given subprocess outcomes and the files present afterwards. */
  function DownloaderService(d: Downloader.VideoDownloader, timestamp: nat,
                             run: string -> Downloader.ExecOutcome, present: set<string>): string -> Attempt<string> {
    url => d.DownloadAudio(url, timestamp, run, present).result
  }

  /** The summarizer instance as the summarize stage sees it: both providers answer the prompt
      built from the transcription. */
  function SummarizerService(primary: string -> Summarizer.ProviderReply, secondary: string -> Summarizer.ProviderReply,
                             parse: string -> Attempt<Summarizer.Parsed>): string -> Attempt<Summarizer.SummaryResult> {
    t => Summarizer.Summarize(t, primary(Summarizer.Prompt(t)), secondary(Summarizer.Prompt(t)), parse).outcome
  }

  /** Whatever the summarize service returns has a non-empty summary and names one of the two
      engines. */
  lemma SummarizerServiceResult(primary: string -> Summarizer.ProviderReply,
                                secondary: string -> Summarizer.ProviderReply,
                                parse: string -> Attempt<Summarizer.Parsed>, t: string)
    ensures var r := SummarizerService(primary, secondary, parse)(t);
      r.Ok? ==>
        && r.value.summary != ""
        && (r.value.engineUsed == Summarizer.PrimaryEngine || r.value.engineUsed == Summarizer.SecondaryEngine)
  {
    var run := Summarizer.Summarize(t, primary(Summarizer.Prompt(t)), secondary(Summarizer.Prompt(t)), parse);
    if run.outcome.Ok? {
      Summarizer.SummaryResultShape(t, primary(Summarizer.Prompt(t)), secondary(Summarizer.Prompt(t)), parse);
    }
  }
}
