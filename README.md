# VidScribe pipeline core in Dafny

VidScribe is an agent that receives a chat message holding a video URL. It downloads the audio
with yt-dlp, transcribes it, and summarizes the transcription with a primary and a secondary
language-model provider. While it works it streams progress events back to the caller. This
project models that core and proves properties of the model:

- `state.dfy`: the pipeline state record (`src/warden/state.ts`) and the way the graph runtime
  merges a stage's partial result into it, key by key.
- `nodes.dfy`: the three stages, download, transcribe and summarize
  (`src/warden/nodes.ts`). Each turns the state into a patch and catches every error as a
  status message.
- `agent.dfy`: the linear graph START → download → transcribe → summarize → END
  (`src/warden/agent.ts`). It is run as a fold of the stages through the merge, and it yields
  one update per stage.
- `summarizer.dfy`: the summarizer (`src/summarizer/Summarizer.ts`). This covers its
  constructor's key checks, the single prompt, the primary attempt, the one failover call and
  the defaults for missing fields.
- `downloader.dfy`: the downloader (`src/downloader/VideoDownloader.ts`). It is a class whose
  constructor picks the tool paths and creates the output directory. Its pure functions build
  the output template, the artifact path and the yt-dlp command line, and the existence check
  decides the outcome.
- `server.dfy`: the request handler (`src/warden/server.ts`). It covers the URL search over the
  message's text parts and the event stream the handler yields. The `for await` loop is the
  method `ReadUpdates`, and `Handle` is proved equal to the specification function `Replies`.
- `text.dfy` and `wrappers.dfy`: JavaScript's whitespace set (shared by `\s` and `trim`),
  `trim`, `join`, decimal rendering of whole numbers, and the `Option`/`Attempt` types.

External calls are parameters: a function from the call's argument to the value returned or the
message thrown (`Attempt`). This covers the yt-dlp run, ffprobe, the transcriber, both provider
calls and `JSON.parse`. The clock's timestamp and the set of files present are parameters too.

Notable behaviour of the code, which the model keeps:

- The downloader makes exactly one yt-dlp call with one fixed set of arguments; nothing is
  retried.
- A download succeeds when yt-dlp exits normally and the expected file exists, whatever yt-dlp
  wrote to stderr and whatever the file's size.
- A primary reply that parses but lacks `summary` does not fail over. The summary is defaulted
  and credited to the primary engine (`Summarizer.MissingSummaryDoesNotFailOver`).
- Later stages overwrite the shared `status`. After a failed download, the final status is the
  summarize stage's `No transcription to summarize`, not the download error
  (`Agent.DownloadFailureSkipsLaterStages`, `Server.DownloadFailureReplies`).
- `engineUsed` is not a field of the state record. The summarize stage returns it, but the merge
  keeps only declared keys, and the final message shows neither the engine nor the URL.
- The summarize update yields no progress event: the user sees a start event, one event for the
  download and one for the transcription, then the closing event.

## Model

| member | source | states |
|---|---|---|
| State.Merge | src/warden/state.ts:3-38 | merging replaces key by key: every declared key the patch carries takes the patch's value and every other key keeps its old value; the undeclared `engineUsed` has no key in the record |
| State.MergeUnique | src/warden/state.ts:3-38 | the key-wise rule determines the merge: any state that obeys it for a patch is that patch merged in |
| Nodes.DownloadNode | src/warden/nodes.ts:19-44 | the patch carries only audio path, duration and status, and always a status; it has an audio path iff the download returned one; on success it has that path, the probed duration (0 when the probe throws) and the success status; on a download error it is exactly `{ status: "Download failed: " + msg }` |
| Nodes.TranscribeNode | src/warden/nodes.ts:49-65 | with an absent or empty audio path, the patch is exactly the skip status; it carries a transcription iff the path is non-empty and the transcriber returns, and then the returned text and the success status; a transcriber error gives exactly `{ status: "Transcription failed: " + msg }` |
| Nodes.SummarizeNode | src/warden/nodes.ts:70-103 | with an absent or empty transcription, the patch is exactly the skip status; it carries a summary iff the summarizer returns, and then exactly summary, ideas, status and engine as returned; a summarizer error gives exactly `{ status: "Summarization failed: " + msg }` |
| Nodes.DownloaderService | src/warden/nodes.ts:12 | the download stage calls the one downloader instance; its outcomes are stated by `Agent.PresentArtifactIsReturned`, `Agent.MissingArtifactFailsDownload` and `Agent.ExecFailureIsRethrown` |
| Nodes.SummarizerService | src/warden/nodes.ts:14 | the summarize stage calls the one summarizer instance, both providers answering the prompt built from the transcription; `Nodes.SummarizerServiceResult` states what it gives |
| Nodes.SummarizerServiceResult | src/warden/nodes.ts:14 | whatever the summarize call returns has a non-empty summary and names the primary or the failover engine |
| Agent.Schedule | src/warden/agent.ts:6-13 | walking the graph's edges from START to END meets download, transcribe and summarize, in that order |
| Agent.RunStages | src/warden/agent.ts:6-16 | a run yields one update per stage, each labelled with its stage, in schedule order |
| Agent.RunGraph | src/warden/agent.ts:6-16 | the compiled graph yields exactly three updates: download, transcribe, summarize |
| Agent.EachStageSeesEarlierPatches | src/warden/agent.ts:6-13 | the i-th stage runs on the state with the patches of all earlier stages merged in |
| Agent.FinalMergesLastPatch | src/warden/agent.ts:6-13 | the final state is the state before the last stage with the last stage's patch merged in |
| Agent.RunKeepsUrl | src/warden/agent.ts:6-13 | no stage changes `url`; the final state has the input URL |
| Agent.RunEndsWithLastStatus | src/warden/agent.ts:6-13 | the last stage always reports a status, and the final status is that status |
| Agent.RunGraphSteps | src/warden/agent.ts:6-13 | the graph run applies download to `{ url }`, transcribe to the merged result, then summarize, and merges the three patches in order |
| Agent.FinalFieldsFromOwners | src/warden/nodes.ts:19-103 | each field of the final state is what the stage that owns it returned: audio path and duration from download, transcription from transcribe, summary, ideas and status from summarize |
| Agent.DownloadFailureSkipsLaterStages | src/warden/nodes.ts:40-76 | a download error makes transcribe and summarize report their skip statuses, and the final state is `{ url }` with status `No transcription to summarize` |
| Agent.TranscriptionFailureSkipsSummary | src/warden/nodes.ts:61-76 | a transcriber error skips summarization; the final state keeps the audio path and ends with the summarize skip status |
| Agent.PresentArtifactIsReturned | src/downloader/VideoDownloader.ts:64-66 | when yt-dlp exits normally and the expected file exists, the download call returns that file's path |
| Agent.MissingArtifactFailsDownload | src/downloader/VideoDownloader.ts:64-69 | when yt-dlp exits but the expected file is absent, the download call throws `Failed to find the downloaded audio file.` |
| Agent.ExecFailureIsRethrown | src/downloader/VideoDownloader.ts:56-73 | when `exec` rejects, the download call fails with that error's message, unchanged |
| Agent.MissingArtifactSkipsLaterStages | src/downloader/VideoDownloader.ts:64-69 | a missing artifact becomes the download stage's `Download failed: ...` status, and the run ends with the summarize skip status |
| Agent.EmptyPrimaryEndsWithFailover | src/summarizer/Summarizer.ts:70-100 | when the primary returns no content and the secondary's content parses, the run ends with the secondary's status, engine and (defaulted) summary, and keeps the transcription and audio path |
| Summarizer.NewSummarizer | src/summarizer/Summarizer.ts:18-33 | construction succeeds iff both keys are set and non-empty; a missing Groq key is reported first; the clients get the trimmed keys |
| Summarizer.Prompt | src/summarizer/Summarizer.ts:41-58 | the transcription appears verbatim at a fixed offset of the prompt |
| Summarizer.PromptInjective | src/summarizer/Summarizer.ts:41-58 | different transcriptions give different prompts |
| Summarizer.Defaulted | src/summarizer/Summarizer.ts:74-79 | a missing or empty summary becomes `Summary could not be generated.`, a present one is kept; missing ideas become `[]`; status and engine are the attempt's own |
| Summarizer.Summarize | src/summarizer/Summarizer.ts:40-106 | the primary is called first with the prompt; the secondary is called once, with the same prompt, iff the primary throws, returns no or empty content, or its content does not parse; the outcome is the primary's defaulted result, the secondary's defaulted result, or the secondary's error or parse error |
| Summarizer.SummaryResultShape | src/summarizer/Summarizer.ts:74-100 | every returned result has a non-empty summary, and carries the primary's status and engine iff the primary attempt succeeded, and the failover status and engine otherwise |
| Summarizer.EmptyPrimaryFailsOver | src/summarizer/Summarizer.ts:70-71 | empty or absent primary content always leads to exactly two calls, the second to Groq |
| Summarizer.MissingSummaryDoesNotFailOver | src/summarizer/Summarizer.ts:73-79 | parsed primary content without `summary`, or with an empty one, makes one call only and returns the default summary with the primary's status and engine |
| Summarizer.EmptySecondaryIsDefaulted | src/summarizer/Summarizer.ts:92-100 | after a failed primary attempt, empty secondary content is parsed as `{}` and yields the all-default failover result, not an error |
| Downloader.VideoDownloader.constructor | src/downloader/VideoDownloader.ts:18-36 | on Windows, the bundled `bin/yt-dlp.exe` and `bin` as ffmpeg location; elsewhere `yt-dlp` and no location; the output directory is `data/downloads` and exists afterwards; no other path is tracked |
| Downloader.FileSystem.MakeDirectory | src/downloader/VideoDownloader.ts:33-35 | the directory exists afterwards and nothing else changes |
| Downloader.VideoDownloader.DownloadAudio | src/downloader/VideoDownloader.ts:43-74 | exactly one command is run; an exec failure is rethrown unchanged; after a normal exit, whatever stderr says, the call returns the expected path iff that file exists and throws the missing-file error otherwise |
| Downloader.VideoDownloader.FinalPath | src/downloader/VideoDownloader.ts:64 | the artifact is `outputDir/audio_<timestamp>.mp3` |
| Downloader.VideoDownloader.OutputTemplate | src/downloader/VideoDownloader.ts:45 | the template is `outputDir/audio_<timestamp>.%(ext)s` |
| Downloader.VideoDownloader.ArtifactFillsTemplate | src/downloader/VideoDownloader.ts:45-64 | the artifact path is the output template with `%(ext)s` replaced by `mp3`, under the output directory |
| Downloader.VideoDownloader.DistinctTimestampsDistinctArtifacts | src/downloader/VideoDownloader.ts:44-64 | downloads at different timestamps expect different files |
| Downloader.VideoDownloader.DistinctTimestampsDistinctTemplates | src/downloader/VideoDownloader.ts:44-45 | downloads at different timestamps write to different templates |
| Downloader.VideoDownloader.Command | src/downloader/VideoDownloader.ts:52-54 | the single command line; `CommandFrame` and `CommandArguments` state what it holds |
| Downloader.VideoDownloader.CommandFrame | src/downloader/VideoDownloader.ts:54 | the command starts with the quoted yt-dlp path, the extractor arguments and `-x --audio-format mp3`, and ends with the quoted URL |
| Downloader.VideoDownloader.CommandArguments | src/downloader/VideoDownloader.ts:52-54 | the command writes to the quoted template and passes the fixed postprocessor arguments; it has a `--ffmpeg-location` argument iff an ffmpeg directory is configured |
| Text.Trim | src/warden/server.ts:105 | `trim` returns the slice between the first and last non-whitespace characters; only whitespace is cut at either end |
| Text.NatToString | src/warden/server.ts:64 | a whole number is rendered as decimal digits that spell it (`Text.DigitsValue` reads them back), with no leading zero; one digit iff it is below 10 |
| Text.NatToStringInjective | src/downloader/VideoDownloader.ts:44-45 | different numbers render differently, so timestamps give distinct names; it follows from the rendering's inverse |
| Server.MessageText | src/warden/server.ts:23-26 | the text parts joined by newlines: no text part gives `""`, one gives its own text, and the message ends with its last text |
| Server.MessageTextSnoc | src/warden/server.ts:23-26 | a further text part is appended after a newline |
| Server.FindFrom | src/warden/server.ts:28 | the returned position is a match of `https?://` followed by a non-whitespace character, with no match before it; none is returned iff there is no match |
| Server.RunEnd | src/warden/server.ts:28 | the greedy `[^\s]+` stops at the first whitespace character or the end of the text |
| Server.Locate | src/warden/server.ts:28 | the match is the leftmost one, extends over every non-whitespace character after the scheme, and ends at whitespace or the end of the text; none iff there is no match anywhere |
| Server.FindUrl | src/warden/server.ts:28-29 | the URL is the located slice of the message; it starts with `http://` or `https://` and contains no whitespace |
| Server.ExtractUrl | src/warden/server.ts:23-29 | no URL exactly when the message text has no match; otherwise an `http://` or `https://` URL without whitespace |
| Server.NonTextPartsIgnored | src/warden/server.ts:23-26 | inserting a non-text part anywhere in a message does not change the URL found |
| Server.UpdateEvents | src/warden/server.ts:58-80 | a download or transcribe update yields exactly one `working` event, a summarize update none |
| Server.Progress | src/warden/server.ts:56-80 | every progress event is `working` |
| Server.ProgressFollowsReported | src/warden/server.ts:56-80 | there is one progress event per download or transcribe update, in stream order, and each is that update's event |
| Server.ProgressAppend | src/warden/server.ts:56-80 | events are append-only: the events for a longer stream extend those for its prefix |
| Server.StreamStep | src/warden/server.ts:56-80 | reading one more update appends that update's events, replaces the last transcription only on a transcribe update, and replaces the final patch only on a summarize update |
| Server.LastTranscription | src/warden/server.ts:54-75 | the loop's `lastTranscription`; `LastTranscriptionIsLatest` and `NoTranscribeUpdate` state its value |
| Server.LastTranscriptionIsLatest | src/warden/server.ts:54-75 | after the stream, `lastTranscription` is the transcription of the latest transcribe update (`""` when it carried none) |
| Server.NoTranscribeUpdate | src/warden/server.ts:54-75 | without a transcribe update, `lastTranscription` stays `""` |
| Server.FinalPatch | src/warden/server.ts:55-80 | the loop's `finalState`; `FinalPatchIsLatest` and `NoSummarizeUpdate` state its value |
| Server.FinalPatchIsLatest | src/warden/server.ts:55-80 | after the stream, `finalState` is the patch of the latest summarize update |
| Server.NoSummarizeUpdate | src/warden/server.ts:55-80 | without a summarize update, `finalState` stays `{}` |
| Server.ReadUpdates | src/warden/server.ts:53-81 | the loop yields exactly the progress events of the stream and ends with the latest transcription (or `""`) and the latest summarize patch (or `{}`) |
| Server.RenderIdeas | src/warden/server.ts:95 | the ideas as `- idea` lines joined by newlines; `RenderIdeasSingle`, `RenderIdeasSnoc` and `RenderIdeasFrame` state what it gives |
| Server.RenderIdeasSingle | src/warden/server.ts:95 | one idea renders as the single line `- idea` |
| Server.RenderIdeasFrame | src/warden/server.ts:95 | a non-empty list renders starting with `- ` and its first idea, and ending with its last idea |
| Server.RenderIdeasSnoc | src/warden/server.ts:95 | each further idea adds a newline and its `- idea` line at the end, so ideas keep their order |
| Server.IdeasSection | src/warden/server.ts:95 | the ideas section: the rendered list when ideas are present, the placeholder otherwise; `EmptyIdeasShownEmpty` states the two edge cases |
| Server.EmptyIdeasShownEmpty | src/warden/server.ts:95 | an empty idea list renders as an empty section; only a missing list gets `No ideas generated.` |
| Server.Sections | src/warden/server.ts:86-98 | the three sections and the status line; `FallbackResult` states the placeholders when nothing is available, `StatusFallback` and `StatusShown` the status line |
| Server.ResultBody | src/warden/server.ts:83-99 | the consolidated result, from its heading to the closing `*` of the status line; `TrimmedResponseIsBody` states that it is what the user receives |
| Server.ResponseText | src/warden/server.ts:83-99 | the template literal as written, with its leading newline and trailing indentation; `TrimmedResponseIsBody` relates it to `ResultBody` |
| Server.FallbackResult | src/warden/server.ts:83-99 | with no transcription, summary or ideas, the sections read `Not available.`, `Summary could not be generated.` and `No ideas generated.`, and the status line shows the given non-empty status |
| Server.StatusFallback | src/warden/server.ts:98 | a missing or empty status makes the sections end with `*Status: Completed` |
| Server.StatusShown | src/warden/server.ts:98 | a non-empty status makes the sections end with `*Status: ` and that status |
| Server.TrimmedResponseIsBody | src/warden/server.ts:83-105 | trimming the response template removes only its leading newline and trailing indentation, never content |
| Server.Closing | src/warden/server.ts:101-115 | the closing event is `completed` and carries the error text when the stream threw, otherwise the consolidated result built from the last transcription and the summarize patch |
| Server.Replies | src/warden/server.ts:21-117 | the last event is the only `completed` one; without a URL there is exactly one event asking for a URL and the pipeline is never consulted; with one, the first event names the URL and the progress events follow in order; the last carries the error or the consolidated result |
| Server.Handle | src/warden/server.ts:21-117 | the handler yields exactly the events `Replies` specifies |
| Server.CompletedStreamReplies | src/warden/server.ts:42-107 | for a stream without error, the replies are the start event, the progress events, and the consolidated result |
| Server.ThreeUpdateReplies | src/warden/server.ts:56-107 | a download, transcribe and summarize update without error give exactly four events: start, downloaded with its duration, transcribed with its text, and the result |
| Server.GraphReplies | src/warden/server.ts:52-107 | over the real graph, the handler yields start, downloaded, transcribed and the result built from the transcription and the summarize patch |
| Server.DownloadFailureReplies | src/warden/server.ts:56-107 | after a download error, the user sees a download event claiming 0 seconds, a transcription event with an empty text, and a result of placeholders whose status is `No transcription to summarize` |

## Left out

- The subprocesses (yt-dlp and ffprobe), the provider SDKs, the transcriber and `JSON.parse` are not modelled. Each is a parameter that gives the value returned or the message thrown.
- `src/transcriber/Transcriber.ts` is not part of this model. Transcription is an opaque call from an audio path to text or an error.
- Floating point: ffprobe's output goes through `parseFloat` and then `Math.round` in the progress text. Durations are whole seconds (`nat`), so NaN and rounding are not modelled.
- Nodes.DownloadNode: the duration probe is one parameter, and the ffprobe path and command line it would use are not modelled.
- Summarizer.Prompt: the instructions' wording is a stand-in. Only the transcription's verbatim position inside the prompt is modelled.
- Summarizer.Summarize: parsed values are typed. A `summary` that is not a string, `contentIdeas` that is not an array, or JSON `null` as a whole reply is not modelled.
- The summarizer, downloader and transcriber are built once when the module loads. A constructor that throws there stops the process, which is not modelled per request.
- Downloader.PathJoin: `path.join` and `path.resolve` are modelled as joining with the platform separator. Normalisation of `..` and of duplicate separators is not modelled.
- Downloader.FileSystem.MakeDirectory: the parent directories that `recursive: true` also creates are not tracked.
- Downloader.VideoDownloader.constructor: for the same reason, a missing `data/` directory that the constructor's `mkdirSync` also creates is not tracked.
- Downloader.VideoDownloader.Command: arguments are wrapped in double quotes as the source writes them. A URL or path holding a quote character is not escaped in the source, and shell parsing of the command is not modelled.
- LangGraph internals are not modelled. The runtime is taken as a sequential fold that merges each patch before the next stage and streams each stage's patch as one update.
- A2A server setup, `dotenv`, `server.listen` and `process.exit` are not modelled.
- Logging, timing and the commented-out cleanup code are not modelled.
- Concurrency across requests is not modelled; each request is one sequential run.
- Server.Handle: an error thrown by the stream is modelled as the stream's updates up to the throw followed by the message. Errors thrown by the rendering itself (`.map` on a non-array) are not modelled.
- Strings are sequences of Unicode characters, while JavaScript strings are sequences of UTF-16 code units. Every character that `\s` and `trim` treat as whitespace lies in the Basic Multilingual Plane, so matches and trims land on the same characters; lengths and indices counted in code units are not modelled.
