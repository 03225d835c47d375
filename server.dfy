/**
 * The agent's request handler (src/warden/server.ts): it finds the first http(s) URL in the
 * message's text parts, and streams progress events while the graph runs: one `working` event
 * to start, one per download update and per transcribe update, and one `completed` event at
 * the end carrying the consolidated result or the error. Without a URL it answers with one
 * `completed` event and runs nothing.
 */
module Server {
  import opened Wrappers
  import opened Text
  import opened State
  import opened Agent

  /** A message part: only text parts carry text the handler reads. */
  datatype Part = TextPart(text: string) | FilePart | DataPart

  /** The texts of the text parts, in order. */
  function TextsOf(parts: seq<Part>): seq<string> {
    if parts == [] then []
    else (if parts[0].TextPart? then [parts[0].text] else []) + TextsOf(parts[1..])
  }

  lemma {:induction false} TextsOfAppend(a: seq<Part>, b: seq<Part>)
    ensures TextsOf(a + b) == TextsOf(a) + TextsOf(b)
  {
    if a == [] {
      assert a + b == b;
    } else {
      var head := if a[0].TextPart? then [a[0].text] else [];
      assert (a + b)[0] == a[0];
      assert (a + b)[1..] == a[1..] + b;
      TextsOfAppend(a[1..], b);
      assert TextsOf(a + b) == head + TextsOf(a[1..] + b);
      assert TextsOf(a) == head + TextsOf(a[1..]);
    }
  }

  /** The user's message: the text parts joined by newlines. No text part gives the empty
      text, a single one gives its own text, and the message always ends with its last text. */
  function MessageText(parts: seq<Part>): (text: string)
    ensures TextsOf(parts) == [] ==> text == ""
    ensures |TextsOf(parts)| == 1 ==> text == TextsOf(parts)[0]
    ensures |TextsOf(parts)| >= 1 ==> EndsWith(text, TextsOf(parts)[|TextsOf(parts)| - 1])
  {
    var texts := TextsOf(parts);
    if texts == [] then ""
    else
      JoinWithEndsWithLast(texts, "\n");
      JoinWith(texts, "\n")
  }

  /** A further text part is joined to the message after a newline. */
  lemma MessageTextSnoc(parts: seq<Part>, t: string)
    requires TextsOf(parts) != []
    ensures MessageText(parts + [TextPart(t)]) == MessageText(parts) + "\n" + t
  {
    TextsOfAppend(parts, [TextPart(t)]);
    assert TextsOf([TextPart(t)]) == [t];
    JoinWithSnoc(TextsOf(parts), t, "\n");
  }

  /**
   * The pattern `https?:\/\/[^\s]+` matches at `i`: `https://` or `http://` starts there and
   * at least one non-whitespace character follows it. (When `https://` starts at `i`,
   * `http://` cannot, so the two alternatives never compete.)
   */
  predicate MatchesAt(text: string, i: nat) {
    || (StartsAt(text, i, "https://") && i + 8 < |text| && !IsSpace(text[i + 8]))
    || (StartsAt(text, i, "http://") && i + 7 < |text| && !IsSpace(text[i + 7]))
  }

  function SchemeLength(text: string, i: nat): nat {
    if StartsAt(text, i, "https://") then 8 else 7
  }

  /** Where the pattern matches, the scheme is followed by a non-whitespace character. */
  lemma SchemeFollowed(text: string, i: nat)
    requires MatchesAt(text, i)
    ensures i + SchemeLength(text, i) < |text| && !IsSpace(text[i + SchemeLength(text, i)])
    ensures StartsAt(text, i, if SchemeLength(text, i) == 8 then "https://" else "http://")
  {
    if StartsAt(text, i, "https://") {
      assert text[i..i + 8] == "https://";
      assert "https://"[4] == 's';
      assert text[i + 4] == 's';
      assert i + 7 <= |text| && text[i..i + 7][4] == 's';
    }
  }

  /** The end of the run of non-whitespace characters that starts at `j`. */
  function RunEnd(text: string, j: nat): (k: nat)
    requires j <= |text|
    ensures j <= k <= |text|
    ensures forall m :: j <= m < k ==> !IsSpace(text[m])
    ensures k == |text| || IsSpace(text[k])
    decreases |text| - j
  {
    if j == |text| || IsSpace(text[j]) then j else RunEnd(text, j + 1)
  }

  /** The leftmost position at or after `i` where the pattern matches. */
  function FindFrom(text: string, i: nat): (r: Option<nat>)
    requires i <= |text|
    ensures r.Some? ==> i <= r.value < |text| && MatchesAt(text, r.value)
    ensures r.Some? ==> forall j :: i <= j < r.value ==> !MatchesAt(text, j)
    ensures r.None? ==> forall j :: i <= j < |text| ==> !MatchesAt(text, j)
    decreases |text| - i
  {
    if i == |text| then None
    else if MatchesAt(text, i) then Some(i)
    else FindFrom(text, i + 1)
  }

  /** Where a match lies: `text[start..end]`. */
  datatype Match = Match(start: nat, end: nat)

  /**
   * `text.match(/https?:\/\/[^\s]+/)`: the leftmost match, extended over every
   * non-whitespace character that follows the scheme (the `+` is greedy).
   */
  function Locate(text: string): (r: Option<Match>)
    ensures r.None? <==> forall j :: 0 <= j < |text| ==> !MatchesAt(text, j)
    ensures r.Some? ==>
      && r.value.start < r.value.end <= |text|
      && MatchesAt(text, r.value.start)
      && (forall j :: 0 <= j < r.value.start ==> !MatchesAt(text, j))
      && r.value.start + SchemeLength(text, r.value.start) < r.value.end
      && (forall m :: r.value.start + SchemeLength(text, r.value.start) <= m < r.value.end ==> !IsSpace(text[m]))
      && (r.value.end == |text| || IsSpace(text[r.value.end]))
  {
    match FindFrom(text, 0)
    case None => None
    case Some(k) =>
      SchemeFollowed(text, k);
      Some(Match(k, RunEnd(text, k + SchemeLength(text, k))))
  }

  /** The matched URL: it starts with `http://` or `https://` and holds no whitespace. */
  function FindUrl(text: string): (r: Option<string>)
    ensures r.Some? <==> Locate(text).Some?
    ensures r.Some? ==> r.value == text[Locate(text).value.start..Locate(text).value.end]
    ensures r.Some? ==> StartsAt(r.value, 0, "http://") || StartsAt(r.value, 0, "https://")
    ensures r.Some? ==> forall m :: 0 <= m < |r.value| ==> !IsSpace(r.value[m])
  {
    match Locate(text)
    case None => None
    case Some(m) =>
      UrlShape(text, m);
      Some(text[m.start..m.end])
  }

  /** No character of a scheme is whitespace. */
  lemma SchemeHasNoSpace(w: string)
    requires w == "https://" || w == "http://"
    ensures forall j :: 0 <= j < |w| ==> !IsSpace(w[j])
  {
  }

  /** Proof helper for `FindUrl`: the located slice starts with its scheme and holds no whitespace. */
  lemma UrlShape(text: string, m: Match)
    requires Locate(text) == Some(m)
    ensures StartsAt(text[m.start..m.end], 0, "http://") || StartsAt(text[m.start..m.end], 0, "https://")
    ensures forall j :: 0 <= j < m.end - m.start ==> !IsSpace(text[m.start..m.end][j])
  {
    var n := SchemeLength(text, m.start);
    var w := if n == 8 then "https://" else "http://";
    SchemeFollowed(text, m.start);
    assert |w| == n && m.start + n < m.end;
    assert text[m.start..m.start + n] == w;
    var u := text[m.start..m.end];
    forall j | 0 <= j < n ensures u[j] == w[j] {
      assert u[j] == text[m.start + j] == text[m.start..m.start + n][j];
    }
    assert u[..n] == w;
    SchemeHasNoSpace(w);
    forall j | 0 <= j < |u| ensures !IsSpace(u[j]) {
      assert u[j] == text[m.start + j];
      if j < n {
        assert u[j] == w[j];
      }
    }
  }

  /** The URL the handler works on: none exactly when the message text has no match, and
      otherwise an http(s) URL without whitespace. */
  function ExtractUrl(parts: seq<Part>): (r: Option<string>)
    ensures r.None? <==> forall j :: 0 <= j < |MessageText(parts)| ==> !MatchesAt(MessageText(parts), j)
    ensures r.Some? ==> StartsAt(r.value, 0, "http://") || StartsAt(r.value, 0, "https://")
    ensures r.Some? ==> forall m :: 0 <= m < |r.value| ==> !IsSpace(r.value[m])
  {
    FindUrl(MessageText(parts))
  }

  /** Parts that are not text play no part in finding the URL. */
  lemma NonTextPartsIgnored(a: seq<Part>, p: Part, b: seq<Part>)
    requires !p.TextPart?
    ensures ExtractUrl(a + [p] + b) == ExtractUrl(a + b)
  {
    TextsOfAppend(a + [p], b);
    TextsOfAppend(a, [p]);
    TextsOfAppend(a, b);
    assert TextsOf([p]) == [];
    assert TextsOf(a + [p] + b) == TextsOf(a + b);
  }

  datatype TaskState = Working | Completed

  /** One streamed event: its lifecycle state and the text of its single message part. */
  datatype Event = Event(state: TaskState, text: string)

  const AskForUrl := "Please provide a valid video URL (X/Twitter or public) to process."

  function StartingText(url: string): string {
    "### \U{1F4C2} Process Status\n\U{23F3} Starting VidScribe processing for: " + url + "..."
  }

  function DownloadedText(seconds: nat): string {
    "### \U{1F4C2} Process Status\n\U{2705} Video downloaded (" + NatToString(seconds)
    + "s).\n\U{23F3} Starting high-speed API transcription...\n\n> [!TIP]\n"
    + "> Using Groq Whisper API. Transcription usually takes **5-10 seconds**."
  }

  function TranscribedText(transcription: string): string {
    "### \U{1F4DD} Transcription Completed\n\n" + transcription + "\n\n---\n\U{23F3} Generating smart summary..."
  }

  function ErrorText(msg: string): string {
    "Error processing video: " + msg
  }

  /** The events one update produces: a download or transcribe update one `working` event, a
      summarize update none. */
  function UpdateEvents(u: Update): (es: seq<Event>)
    ensures |es| == (if u.node == Summarize then 0 else 1)
    ensures forall i :: 0 <= i < |es| ==> es[i].state == Working
  {
    if u.node == Summarize then [] else [Event(Working, ReportText(u))]
  }

  /** The text of the event a download or transcribe update produces. */
  function ReportText(u: Update): string {
    if u.node == Download then DownloadedText(u.patch.duration.GetOr(0))
    else TranscribedText(u.patch.transcription.GetOr(""))
  }

  /** The download and transcribe updates, in stream order. */
  function Reported(us: seq<Update>): seq<Update> {
    if us == [] then []
    else Reported(us[..|us| - 1]) + (if us[|us| - 1].node == Summarize then [] else [us[|us| - 1]])
  }

  /** The progress events for a stream of updates: one `working` event for each reported
      update, in the same order. */
  function Progress(us: seq<Update>): (es: seq<Event>)
    ensures forall i :: 0 <= i < |es| ==> es[i].state == Working
  {
    if us == [] then []
    else
      Progress(us[..|us| - 1]) + UpdateEvents(us[|us| - 1])
  }

  /** There is one progress event per reported update, and each is the event of the reported
      update at the same position. */
  lemma {:induction false} ProgressFollowsReported(us: seq<Update>)
    ensures |Progress(us)| == |Reported(us)|
    ensures forall i :: 0 <= i < |Progress(us)| ==> [Progress(us)[i]] == UpdateEvents(Reported(us)[i])
  {
    if us != [] {
      var front := us[..|us| - 1];
      ProgressFollowsReported(front);
      var es := Progress(us);
      var rs := Reported(us);
      forall i | 0 <= i < |es| ensures [es[i]] == UpdateEvents(rs[i]) {
        if i < |Progress(front)| {
          assert es[i] == Progress(front)[i];
          assert rs[i] == Reported(front)[i];
        } else {
          assert rs[i] == us[|us| - 1];
        }
      }
    }
  }

  /** Proof helper (sequence algebra): all but the last element of `a + b`, for a non-empty `b`. */
  lemma FrontOfAppend<T>(a: seq<T>, b: seq<T>)
    requires b != []
    ensures (a + b)[..|a + b| - 1] == a + b[..|b| - 1] && (a + b)[|a + b| - 1] == b[|b| - 1]
  {
  }

  /** Proof helper: one unfolding of `Progress`. */
  lemma ProgressStep(us: seq<Update>)
    requires us != []
    ensures Progress(us) == Progress(us[..|us| - 1]) + UpdateEvents(us[|us| - 1])
  {
  }

  /** Progress is computed update by update: the events of a longer stream extend those of
      its prefix. */
  lemma {:induction false} ProgressAppend(a: seq<Update>, b: seq<Update>)
    ensures Progress(a + b) == Progress(a) + Progress(b)
  {
    if b == [] {
      assert a + b == a;
    } else {
      var ab := a + b;
      var front := b[..|b| - 1];
      FrontOfAppend(a, b);
      ProgressStep(ab);
      ProgressStep(b);
      ProgressAppend(a, front);
    }
  }

  /** `lastTranscription`: the transcription of the latest transcribe update (`""` when it
      carried none), `""` before any. */
  function LastTranscription(us: seq<Update>): string {
    if us == [] then ""
    else if us[|us| - 1].node == Transcribe then us[|us| - 1].patch.transcription.GetOr("")
    else LastTranscription(us[..|us| - 1])
  }

  /** `finalState`: the patch of the latest summarize update, `{}` before any. */
  function FinalPatch(us: seq<Update>): Patch {
    if us == [] then EmptyPatch
    else if us[|us| - 1].node == Summarize then us[|us| - 1].patch
    else FinalPatch(us[..|us| - 1])
  }

  /** `lastTranscription` is the transcription carried by the latest transcribe update. */
  lemma {:induction false} LastTranscriptionIsLatest(us: seq<Update>, i: nat)
    requires i < |us| && us[i].node == Transcribe
    requires forall j :: i < j < |us| ==> us[j].node != Transcribe
    ensures LastTranscription(us) == us[i].patch.transcription.GetOr("")
  {
    if i < |us| - 1 {
      assert us[|us| - 1].node != Transcribe;
      LastTranscriptionIsLatest(us[..|us| - 1], i);
    }
  }

  /** Without a transcribe update, `lastTranscription` stays `""`. */
  lemma {:induction false} NoTranscribeUpdate(us: seq<Update>)
    requires forall j :: 0 <= j < |us| ==> us[j].node != Transcribe
    ensures LastTranscription(us) == ""
  {
    if us != [] {
      assert us[|us| - 1].node != Transcribe;
      NoTranscribeUpdate(us[..|us| - 1]);
    }
  }

  /** `finalState` is the patch of the latest summarize update. */
  lemma {:induction false} FinalPatchIsLatest(us: seq<Update>, i: nat)
    requires i < |us| && us[i].node == Summarize
    requires forall j :: i < j < |us| ==> us[j].node != Summarize
    ensures FinalPatch(us) == us[i].patch
  {
    if i < |us| - 1 {
      assert us[|us| - 1].node != Summarize;
      FinalPatchIsLatest(us[..|us| - 1], i);
    }
  }

  /** Without a summarize update, `finalState` stays `{}`. */
  lemma {:induction false} NoSummarizeUpdate(us: seq<Update>)
    requires forall j :: 0 <= j < |us| ==> us[j].node != Summarize
    ensures FinalPatch(us) == EmptyPatch
  {
    if us != [] {
      assert us[|us| - 1].node != Summarize;
      NoSummarizeUpdate(us[..|us| - 1]);
    }
  }

  /** JavaScript's `s || fallback` on strings. */
  function Or(s: string, fallback: string): string {
    if s != "" then s else fallback
  }

  /** The ideas as `- idea` lines joined by newlines (an empty list gives an empty string). */
  function RenderIdeas(ideas: seq<string>): string {
    JoinWith(seq(|ideas|, i requires 0 <= i < |ideas| => "- " + ideas[i]), "\n")
  }

  /** A single idea is a single line. */
  lemma RenderIdeasSingle(idea: string)
    ensures RenderIdeas([idea]) == "- " + idea
  {
    assert seq(1, i requires 0 <= i < 1 => "- " + [idea][i]) == ["- " + idea];
  }

  /** The rendered list starts with the first idea's line and ends with the last idea. */
  lemma RenderIdeasFrame(ideas: seq<string>)
    requires ideas != []
    ensures StartsAt(RenderIdeas(ideas), 0, "- " + ideas[0])
    ensures EndsWith(RenderIdeas(ideas), ideas[|ideas| - 1])
  {
    var lines := seq(|ideas|, i requires 0 <= i < |ideas| => "- " + ideas[i]);
    JoinWithStartsWithFirst(lines, "\n");
    JoinWithEndsWithLast(lines, "\n");
    var r := RenderIdeas(ideas);
    var last := lines[|lines| - 1];
    assert last == "- " + ideas[|ideas| - 1];
    assert r[|r| - |last|..] == last;
    assert r[|r| - |ideas[|ideas| - 1]|..] == last[2..];
  }

  /** Each further idea adds one line at the end. */
  lemma RenderIdeasSnoc(ideas: seq<string>, idea: string)
    requires ideas != []
    ensures RenderIdeas(ideas + [idea]) == RenderIdeas(ideas) + "\n- " + idea
  {
    var lines := seq(|ideas|, i requires 0 <= i < |ideas| => "- " + ideas[i]);
    var more := ideas + [idea];
    assert seq(|more|, i requires 0 <= i < |more| => "- " + more[i]) == lines + ["- " + idea];
    JoinWithSnoc(lines, "- " + idea, "\n");
  }

  function IdeasSection(ideas: Option<seq<string>>): string {
    if ideas.Some? then RenderIdeas(ideas.value) else "No ideas generated."
  }

  const DefaultSummaryText := "Summary could not be generated."

  const FinishedHeading := "### \U{1F3A5} Processing Finished\n\n"

  /** The three sections and the status line, up to the closing `*`. */
  function Sections(transcription: string, final: Patch): string {
    "#### \U{1F4DD} Full Transcription\n" + Or(transcription, "Not available.")
    + "\n\n---\n\n#### \U{1F4CA} Executive Summary\n" + Or(final.summary.GetOr(""), DefaultSummaryText)
    + "\n\n#### \U{1F4A1} Content Ideas\n" + IdeasSection(final.contentIdeas)
    + "\n\n---\n*Status: " + Or(final.status.GetOr(""), "Completed")
  }

  /** The consolidated result, from its first `#` to its last `*`. */
  function ResultBody(transcription: string, final: Patch): string {
    FinishedHeading + Sections(transcription, final) + "*"
  }

  /** The template literal as written: a leading newline and a trailing newline plus the
      indentation of its closing line. */
  function ResponseText(transcription: string, final: Patch): string {
    "\n" + ResultBody(transcription, final) + "\n          "
  }

  /** Proof helper (sequence algebra): the first and last characters of a concatenation of
      three non-empty strings. */
  lemma Ends(head: string, mid: string, tail: string)
    requires head != [] && tail != []
    ensures var s := head + mid + tail; s[0] == head[0] && s[|s| - 1] == tail[|tail| - 1]
  {
  }

  /** `responseText.trim()` is exactly the result body: trimming removes the template's own
      padding and nothing of the content. */
  lemma TrimmedResponseIsBody(transcription: string, final: Patch)
    ensures Trim(ResponseText(transcription, final)) == ResultBody(transcription, final)
  {
    var body := ResultBody(transcription, final);
    Ends(FinishedHeading, Sections(transcription, final), "*");
    assert FinishedHeading[0] == '#';
    var post := "\n          ";
    assert forall i :: 0 <= i < |post| ==> IsSpace(post[i]);
    TrimPadded("\n", body, post);
  }

  /** The stream the handler reads: the updates it yields, then possibly an error it throws. */
  datatype Stream = Stream(updates: seq<Update>, failure: Option<string>)

  /** The running graph as a stream: its three updates and no error. */
  function GraphStream(svc: Nodes.Services): string -> Stream {
    url => Stream(RunGraph(url, svc).updates, None)
  }

  /** The final event: the error, or the trimmed consolidated result. */
  function Closing(s: Stream): (e: Event)
    ensures e.state == Completed
    ensures s.failure.Some? ==> e.text == ErrorText(s.failure.value)
    ensures s.failure.None? ==> e.text == ResultBody(LastTranscription(s.updates), FinalPatch(s.updates))
  {
    match s.failure
    case Some(m) => Event(Completed, ErrorText(m))
    case None =>
      TrimmedResponseIsBody(LastTranscription(s.updates), FinalPatch(s.updates));
      Event(Completed, Trim(ResponseText(LastTranscription(s.updates), FinalPatch(s.updates))))
  }

  /**
   * Every event the handler yields for a message, `run` giving the stream for a URL. The last
   * event is the only `completed` one; without a URL it is the only event and the stream is
   * never consulted; with one, the first event announces the URL and one `working` event
   * follows for every download or transcribe update.
   */
  function Replies(parts: seq<Part>, run: string -> Stream): (es: seq<Event>)
    ensures |es| >= 1 && es[|es| - 1].state == Completed
    ensures forall i :: 0 <= i < |es| - 1 ==> es[i].state == Working
    ensures ExtractUrl(parts).None? ==> es == [Event(Completed, AskForUrl)]
    ensures ExtractUrl(parts).Some? ==>
      && es[0] == Event(Working, StartingText(ExtractUrl(parts).value))
      && es[1..|es| - 1] == Progress(run(ExtractUrl(parts).value).updates)
    ensures ExtractUrl(parts).Some? && run(ExtractUrl(parts).value).failure.Some? ==>
      es[|es| - 1].text == ErrorText(run(ExtractUrl(parts).value).failure.value)
    ensures ExtractUrl(parts).Some? && run(ExtractUrl(parts).value).failure.None? ==>
      var us := run(ExtractUrl(parts).value).updates;
      es[|es| - 1].text == ResultBody(LastTranscription(us), FinalPatch(us))
  {
    match ExtractUrl(parts)
    case None => [Event(Completed, AskForUrl)]
    case Some(url) =>
      var s := run(url);
      Framed(Event(Working, StartingText(url)), Progress(s.updates), Closing(s));
      [Event(Working, StartingText(url))] + Progress(s.updates) + [Closing(s)]
  }

  /** Proof helper (sequence algebra): a sequence between a first and a last element. */
  lemma Framed<T>(first: T, middle: seq<T>, last: T)
    ensures var s := [first] + middle + [last];
      && |s| == |middle| + 2 && s[0] == first && s[1..|s| - 1] == middle && s[|s| - 1] == last
      && forall i :: 1 <= i < |s| - 1 ==> s[i] == middle[i - 1]
  {
  }

  /** Reading one more update extends the events, the last transcription and the final patch
      as that update alone would. */
  lemma StreamStep(us: seq<Update>, i: nat)
    requires i < |us|
    ensures Progress(us[..i + 1]) == Progress(us[..i]) + UpdateEvents(us[i])
    ensures LastTranscription(us[..i + 1])
            == if us[i].node == Transcribe then us[i].patch.transcription.GetOr("") else LastTranscription(us[..i])
    ensures FinalPatch(us[..i + 1]) == if us[i].node == Summarize then us[i].patch else FinalPatch(us[..i])
  {
    assert us[..i + 1][..i] == us[..i];
  }

  /** The event each kind of update produces. */
  lemma UpdateEventsByNode(u: Update)
    ensures u.node == Download ==> UpdateEvents(u) == [Event(Working, DownloadedText(u.patch.duration.GetOr(0)))]
    ensures u.node == Transcribe ==> UpdateEvents(u) == [Event(Working, TranscribedText(u.patch.transcription.GetOr("")))]
    ensures u.node == Summarize ==> UpdateEvents(u) == []
  {
  }

  /**
   * The handler's `for await` loop over the stream's updates: the `working` event of each
   * download and transcribe update, the latest transcription, and the latest summarize patch.
   */
  method ReadUpdates(updates: seq<Update>) returns (progress: seq<Event>, lastTranscription: string, finalState: Patch)
    ensures progress == Progress(updates)
    ensures lastTranscription == LastTranscription(updates)
    ensures finalState == FinalPatch(updates)
  {
    progress := [];
    lastTranscription := "";
    finalState := EmptyPatch;
    var i := 0;
    assert updates[..0] == [];
    while i < |updates|
      invariant i <= |updates|
      invariant progress == Progress(updates[..i])
      invariant lastTranscription == LastTranscription(updates[..i])
      invariant finalState == FinalPatch(updates[..i])
    {
      var event := updates[i];
      StreamStep(updates, i);
      UpdateEventsByNode(event);
      match event.node {
        case Download =>
          var duration := event.patch.duration.GetOr(0);
          progress := progress + [Event(Working, DownloadedText(duration))];
        case Transcribe =>
          lastTranscription := event.patch.transcription.GetOr("");
          progress := progress + [Event(Working, TranscribedText(lastTranscription))];
        case Summarize =>
          finalState := event.patch;
      }
      i := i + 1;
    }
    assert updates[..i] == updates;
  }

  /** The handler: the generator's yields, in order. */
  method Handle(parts: seq<Part>, run: string -> Stream) returns (events: seq<Event>)
    ensures events == Replies(parts, run)
  {
    var url := ExtractUrl(parts);
    if url.None? {
      events := [Event(Completed, AskForUrl)];
      return;
    }
    var stream := run(url.value);
    var progress, lastTranscription, finalState := ReadUpdates(stream.updates);
    events := [Event(Working, StartingText(url.value))] + progress;
    if stream.failure.Some? {
      events := events + [Event(Completed, ErrorText(stream.failure.value))];
    } else {
      var responseText := ResponseText(lastTranscription, finalState);
      events := events + [Event(Completed, Trim(responseText))];
    }
  }

  /** Three updates, read in order. */
  lemma ReadThree(u0: Update, u1: Update, u2: Update)
    requires u0.node == Download && u1.node == Transcribe && u2.node == Summarize
    ensures Progress([u0, u1, u2]) == UpdateEvents(u0) + UpdateEvents(u1)
    ensures LastTranscription([u0, u1, u2]) == u1.patch.transcription.GetOr("")
    ensures FinalPatch([u0, u1, u2]) == u2.patch
  {
    var us := [u0, u1, u2];
    assert us[..2] == [u0, u1];
    assert [u0, u1][..1] == [u0];
    assert [u0][..0] == [];
    assert Progress([u0]) == UpdateEvents(u0);
  }

  /** The replies to a message with a URL whose stream ends without error, in one piece. */
  lemma CompletedStreamReplies(parts: seq<Part>, url: string, run: string -> Stream, us: seq<Update>)
    requires ExtractUrl(parts) == Some(url) && run(url) == Stream(us, None)
    ensures Replies(parts, run)
      == [Event(Working, StartingText(url))] + Progress(us)
         + [Event(Completed, ResultBody(LastTranscription(us), FinalPatch(us)))]
  {
    var es := Replies(parts, run);
    SplitEvents(es);
  }

  /** Proof helper (sequence algebra): a sequence of two or more events split at both ends. */
  lemma SplitEvents(es: seq<Event>)
    requires |es| >= 2
    ensures es == [es[0]] + es[1..|es| - 1] + [es[|es| - 1]]
  {
  }

  /** A stream of one download, one transcribe and one summarize update, without error. */
  lemma ThreeUpdateReplies(parts: seq<Part>, url: string, run: string -> Stream, us: seq<Update>)
    requires ExtractUrl(parts) == Some(url) && run(url) == Stream(us, None)
    requires |us| == 3 && us[0].node == Download && us[1].node == Transcribe && us[2].node == Summarize
    ensures var t := us[1].patch.transcription.GetOr("");
      Replies(parts, run)
      == [Event(Working, StartingText(url)),
          Event(Working, DownloadedText(us[0].patch.duration.GetOr(0))),
          Event(Working, TranscribedText(t)),
          Event(Completed, ResultBody(t, us[2].patch))]
  {
    assert us == [us[0], us[1], us[2]];
    ReadThree(us[0], us[1], us[2]);
    UpdateEventsByNode(us[0]);
    UpdateEventsByNode(us[1]);
    var t := us[1].patch.transcription.GetOr("");
    var first := Event(Working, StartingText(url));
    var downloaded := Event(Working, DownloadedText(us[0].patch.duration.GetOr(0)));
    var transcribed := Event(Working, TranscribedText(t));
    var last := Event(Completed, ResultBody(t, us[2].patch));
    assert Progress(us) == [downloaded, transcribed];
    assert last == Event(Completed, ResultBody(LastTranscription(us), FinalPatch(us)));
    CompletedStreamReplies(parts, url, run, us);
    Concat4(first, downloaded, transcribed, last);
  }

  /** Proof helper (sequence algebra): four events written as one display. */
  lemma Concat4(a: Event, b: Event, c: Event, d: Event)
    ensures [a] + [b, c] + [d] == [a, b, c, d]
  {
  }

  /**
   * The handler over the graph: the start event, the download's event with its duration, the
   * transcription's event, and the result built from the transcription and the summarize
   * stage's patch, which holds the summary, the ideas and the final status.
   */
  lemma GraphReplies(parts: seq<Part>, url: string, svc: Nodes.Services)
    requires ExtractUrl(parts) == Some(url)
    ensures var us := RunGraph(url, svc).updates;
      var t := us[1].patch.transcription.GetOr("");
      Replies(parts, GraphStream(svc))
      == [Event(Working, StartingText(url)),
          Event(Working, DownloadedText(us[0].patch.duration.GetOr(0))),
          Event(Working, TranscribedText(t)),
          Event(Completed, ResultBody(t, us[2].patch))]
  {
    GraphStreamAt(svc, url);
    ThreeUpdateReplies(parts, url, GraphStream(svc), RunGraph(url, svc).updates);
  }

  /** Proof helper: the graph's stream applied to a URL. */
  lemma GraphStreamAt(svc: Nodes.Services, url: string)
    ensures GraphStream(svc)(url) == Stream(RunGraph(url, svc).updates, None)
  {
  }

  /** The result when nothing was transcribed or summarized: every section falls back to its
      placeholder and the status line carries the given status. */
  lemma FallbackResult(status: string)
    requires status != ""
    ensures Sections("", StatusOnly(status))
      == "#### \U{1F4DD} Full Transcription\n" + "Not available."
         + "\n\n---\n\n#### \U{1F4CA} Executive Summary\n" + "Summary could not be generated."
         + "\n\n#### \U{1F4A1} Content Ideas\n" + "No ideas generated."
         + "\n\n---\n*Status: " + status
  {
    var p := StatusOnly(status);
    assert Or("", "Not available.") == "Not available.";
    assert Or(p.summary.GetOr(""), DefaultSummaryText) == "Summary could not be generated.";
    assert IdeasSection(p.contentIdeas) == "No ideas generated.";
    assert Or(p.status.GetOr(""), "Completed") == status;
  }

  /** A missing or empty status is shown as `Completed`. */
  lemma StatusFallback(transcription: string, final: Patch)
    requires final.status.None? || final.status.value == ""
    ensures EndsWith(Sections(transcription, final), "*Status: Completed")
  {
    assert Or(final.status.GetOr(""), "Completed") == "Completed";
  }

  /** A non-empty status is shown as it is. */
  lemma StatusShown(transcription: string, final: Patch)
    requires final.status.Some? && final.status.value != ""
    ensures EndsWith(Sections(transcription, final), "*Status: " + final.status.value)
  {
    assert Or(final.status.GetOr(""), "Completed") == final.status.value;
  }

  /** An empty idea list is shown as an empty section; only a missing one gets the placeholder. */
  lemma EmptyIdeasShownEmpty()
    ensures IdeasSection(Some([])) == ""
    ensures IdeasSection(None) == "No ideas generated."
  {
  }

  /**
   * A failed download, as the user sees it: a download event claiming zero seconds, a
   * transcription event with an empty transcription, and a result of placeholders whose
   * status is the summarize stage's skip message, not the download error.
   */
  lemma DownloadFailureReplies(parts: seq<Part>, url: string, svc: Nodes.Services)
    requires ExtractUrl(parts) == Some(url) && svc.download(url).Err?
    ensures Replies(parts, GraphStream(svc))
      == [Event(Working, StartingText(url)),
          Event(Working, DownloadedText(0)),
          Event(Working, TranscribedText("")),
          Event(Completed, ResultBody("", StatusOnly(Nodes.NoTranscription)))]
  {
    DownloadFailureSkipsLaterStages(url, svc);
    GraphReplies(parts, url, svc);
  }
}
