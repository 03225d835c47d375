/**
 * The pipeline's state record (src/warden/state.ts) and the way the graph runtime merges a
 * stage's partial result into it. Every declared field is a plain last-value channel: no
 * reducer, so a key that a patch carries replaces the old value and every other key is kept.
 */
module State {
  import opened Wrappers

  /** The keys a patch may carry. `EngineUsed` is returned by the summarize stage but is not
      declared in the record; the merge drops it. */
  datatype Key = Url | AudioPath | Duration | Transcription | Summary | ContentIdeas | Status | EngineUsed

  /** The keys declared in the record. */
  const DeclaredKeys: set<Key> := {Url, AudioPath, Duration, Transcription, Summary, ContentIdeas, Status}

  /** The value stored under a key, whatever its type. */
  datatype Value = Text(text: string) | Seconds(seconds: nat) | Lines(lines: seq<string>)

  /**
   * The record threaded through the stages. `url` is the input and always set; every other
   * field stays unset until a stage writes it. Durations are whole seconds.
   */
  datatype VidScribeState = VidScribeState(
    url: string,
    audioPath: Option<string>,
    duration: Option<nat>,
    transcription: Option<string>,
    summary: Option<string>,
    contentIdeas: Option<seq<string>>,
    status: Option<string>)

  /** A stage's partial result: a field is `Some` exactly when the returned object has that key. */
  datatype Patch = Patch(
    url: Option<string>,
    audioPath: Option<string>,
    duration: Option<nat>,
    transcription: Option<string>,
    summary: Option<string>,
    contentIdeas: Option<seq<string>>,
    status: Option<string>,
    engineUsed: Option<string>)

  /** The object `{}`. */
  const EmptyPatch := Patch(None, None, None, None, None, None, None, None)

  /** The object `{ status: message }`. */
  function StatusOnly(message: string): Patch {
    EmptyPatch.(status := Some(message))
  }

  /** The state the graph starts from: `{ url }`. */
  function Initial(url: string): VidScribeState {
    VidScribeState(url, None, None, None, None, None, None)
  }

  /** The value a state holds under a key (`None` when unset or not declared). */
  function Get(s: VidScribeState, k: Key): Option<Value> {
    match k
    case Url => Some(Text(s.url))
    case AudioPath => if s.audioPath.Some? then Some(Text(s.audioPath.value)) else None
    case Duration => if s.duration.Some? then Some(Seconds(s.duration.value)) else None
    case Transcription => if s.transcription.Some? then Some(Text(s.transcription.value)) else None
    case Summary => if s.summary.Some? then Some(Text(s.summary.value)) else None
    case ContentIdeas => if s.contentIdeas.Some? then Some(Lines(s.contentIdeas.value)) else None
    case Status => if s.status.Some? then Some(Text(s.status.value)) else None
    case EngineUsed => None
  }

  /** The value a patch carries under a key. */
  function PatchGet(p: Patch, k: Key): Option<Value> {
    match k
    case Url => if p.url.Some? then Some(Text(p.url.value)) else None
    case AudioPath => if p.audioPath.Some? then Some(Text(p.audioPath.value)) else None
    case Duration => if p.duration.Some? then Some(Seconds(p.duration.value)) else None
    case Transcription => if p.transcription.Some? then Some(Text(p.transcription.value)) else None
    case Summary => if p.summary.Some? then Some(Text(p.summary.value)) else None
    case ContentIdeas => if p.contentIdeas.Some? then Some(Lines(p.contentIdeas.value)) else None
    case Status => if p.status.Some? then Some(Text(p.status.value)) else None
    case EngineUsed => if p.engineUsed.Some? then Some(Text(p.engineUsed.value)) else None
  }

  /** The keys present in a patch. */
  function Keys(p: Patch): set<Key> {
    set k | k in DeclaredKeys + {EngineUsed} && PatchGet(p, k).Some?
  }

  function Pick<T>(update: Option<T>, current: T): T {
    if update.Some? then update.value else current
  }

  function PickOption<T>(update: Option<T>, current: Option<T>): Option<T> {
    if update.Some? then update else current
  }

  /**
   * Applies a patch to the state. Merging replaces key by key: every declared key the patch
   * carries takes the patch's value, every other key keeps the state's value. The undeclared
   * `engineUsed` leaves no trace, since the record has no such key.
   */
  function Merge(s: VidScribeState, p: Patch): (r: VidScribeState)
    ensures forall k :: k in DeclaredKeys && k in Keys(p) ==> Get(r, k) == PatchGet(p, k)
    ensures forall k :: k !in Keys(p) ==> Get(r, k) == Get(s, k)
  {
    VidScribeState(
      Pick(p.url, s.url),
      PickOption(p.audioPath, s.audioPath),
      PickOption(p.duration, s.duration),
      PickOption(p.transcription, s.transcription),
      PickOption(p.summary, s.summary),
      PickOption(p.contentIdeas, s.contentIdeas),
      PickOption(p.status, s.status))
  }

  /** Two states that agree on every key are the same state: `Get` loses nothing. */
  lemma GetDetermines(s: VidScribeState, t: VidScribeState)
    requires forall k :: Get(s, k) == Get(t, k)
    ensures s == t
  {
    assert Get(s, Url) == Get(t, Url);
    assert Get(s, AudioPath) == Get(t, AudioPath);
    assert Get(s, Duration) == Get(t, Duration);
    assert Get(s, Transcription) == Get(t, Transcription);
    assert Get(s, Summary) == Get(t, Summary);
    assert Get(s, ContentIdeas) == Get(t, ContentIdeas);
    assert Get(s, Status) == Get(t, Status);
  }

  /**
   * The key-wise rule determines the merge: any state that takes the patch's value on the
   * declared keys it carries and keeps the old value on every other key is `Merge(s, p)`.
   */
  lemma MergeUnique(s: VidScribeState, p: Patch, t: VidScribeState)
    requires forall k :: k in DeclaredKeys && k in Keys(p) ==> Get(t, k) == PatchGet(p, k)
    requires forall k :: k !in Keys(p) ==> Get(t, k) == Get(s, k)
    ensures t == Merge(s, p)
  {
    var m := Merge(s, p);
    forall k ensures Get(t, k) == Get(m, k) {
      if k == EngineUsed {
        assert Get(t, k) == None == Get(m, k);
      }
    }
    GetDetermines(t, m);
  }
}
