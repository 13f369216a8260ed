/** The content-addressed narration cache (`custom_voiceover_tts`) and the
    failure policies of its copies. The file store is a map from path to bytes;
    the TTS server, the MD5 digest, percent-encoding and the audio decoder are
    parameters. Each policy is stated here as a function from the store before a
    call to what the call yields, the store after it and the requests it made. */
module TtsStore {
  import opened JavaText

  type Bytes = seq<bv8>

  const CacheDir := "tts_cache"
  /** The sub-directory used by the validating copy. */
  const AudioFilesDir := "tts_cache/audio_files"
  const DefaultToken := "123456"
  const DefaultBaseUrl := "https://uni-ai.fly.dev/api/manim/tts"

  /** How streaming the body into the open cache file ends: normally, with a
      `RequestException` from `iter_content`, or with another error (a failed write). */
  datatype StreamEnd = Complete | StreamBroken | WriteFailed

  /** What `requests.get` gives: no response (it raised a `RequestException`),
      or a status, a Content-Type header and the body chunks. */
  datatype Response =
    | NoResponse
    | Response(status: int, contentType: Option<string>, chunks: seq<Bytes>, end: StreamEnd)

  /** What `AudioFileClip(path).duration` gives for a file's bytes: an exception,
      or a duration that may be None. */
  datatype Decoded = DecodeFails | Decoded(duration: Option<real>)

  datatype Tts = Tts(md5: string -> string, quote: string -> string, server: string -> Response, decode: Bytes -> Decoded)

  /** `CustomVoiceoverTracker`; a duration of None is Python's None. */
  datatype Tracker = Tracker(audioPath: Option<string>, duration: Option<real>)

  /** How the context manager ends: an exception before the `yield`, or a tracker. */
  datatype Outcome = Raised | Yielded(tracker: Tracker)

  /** One call: its outcome, the file store afterwards and the URLs it requested. */
  datatype Call = Call(outcome: Outcome, files: map<string, Bytes>, requested: seq<string>)

  /** `os.path.join(dir, f"{digest}.mp3")`: the directory, a separator, the
      digest and the extension. */
  function CacheFile(dir: string, digest: string): (r: string)
    ensures |r| == |dir| + |digest| + 5
    ensures r[..|dir|] == dir && r[|dir|] == '/' && r[|dir| + 1..|r| - 4] == digest && r[|r| - 4..] == ".mp3"
  {
    dir + "/" + digest + ".mp3"
  }

  /** `get_cache_filename` */
  function CacheFilename(dir: string, text: string, tts: Tts): string
  {
    CacheFile(dir, tts.md5(text))
  }

  function RequestUrl(baseUrl: string, token: string, text: string, tts: Tts): string
  {
    baseUrl + "?token=" + token + "&input=" + tts.quote(text)
  }

  /** `response.raise_for_status()` raises an `HTTPError` for 4xx and 5xx. */
  predicate RaisesForStatus(status: int)
  {
    400 <= status < 600
  }

  /** The bytes the chunk loop writes: the non-empty chunks, in order. */
  function Joined(chunks: seq<Bytes>): Bytes
    decreases |chunks|
  {
    if chunks == [] then []
    else
      var last := chunks[|chunks| - 1];
      if last != [] then Joined(chunks[..|chunks| - 1]) + last else Joined(chunks[..|chunks| - 1])
  }

  /** The whole body: every chunk, in order. */
  function Flatten(chunks: seq<Bytes>): Bytes
    decreases |chunks|
  {
    if chunks == [] then [] else chunks[0] + Flatten(chunks[1..])
  }

  /** The cache file after `open(cache_file, "wb")` and the chunk loop. */
  function Downloaded(files: map<string, Bytes>, path: string, resp: Response): map<string, Bytes>
    requires resp.Response?
  {
    files[path := Joined(resp.chunks)]
  }

  /** Python's `len(text) / 5.0` floored at one second: the larger of the two. */
  function Estimate(text: string): (r: real)
    ensures r >= 1.0 && r >= |text| as real / 5.0
    ensures r == 1.0 || r == |text| as real / 5.0
  {
    var e := |text| as real / 5.0;
    if e > 1.0 then e else 1.0
  }

  function LowerAscii(s: string): string
    decreases |s|
  {
    if s == [] then []
    else [if 'A' <= s[0] <= 'Z' then (s[0] as int + 32) as char else s[0]] + LowerAscii(s[1..])
  }

  /** `'audio' in response.headers.get('Content-Type', '').lower()` */
  predicate IsAudio(contentType: Option<string>)
  {
    IndexOf(LowerAscii(if contentType.Some? then contentType.value else ""), "audio") != -1
  }

  /** What every policy shares: the server is asked exactly on a cache miss,
      once, with the request URL for the text. */
  function Requests(files: map<string, Bytes>, path: string, url: string): seq<string>
  {
    if path in files then [] else [url]
  }

  /** No file other than `path` is created, removed or changed. */
  ghost predicate OnlyTouches(before: map<string, Bytes>, after: map<string, Bytes>, path: string)
  {
    forall p :: p != path ==> (p in after <==> p in before) && (p in before ==> after[p] == before[p])
  }

  /* ---------- custom_voiceover.py, 05.py, 06.py, intro_majoy_2.py: raise on error ---------- */

  function RaisingDecode(audio: Bytes, path: string, tts: Tts): Outcome
  {
    match tts.decode(audio)
    case DecodeFails => Raised
    case Decoded(d) => Yielded(Tracker(Some(path), d))
  }

  function RaisingCall(files: map<string, Bytes>, text: string, token: string, baseUrl: string, tts: Tts): (r: Call)
    ensures r.requested == Requests(files, CacheFilename(CacheDir, text, tts), RequestUrl(baseUrl, token, text, tts))
    ensures OnlyTouches(files, r.files, CacheFilename(CacheDir, text, tts))
    ensures CacheFilename(CacheDir, text, tts) in files ==> r.files == files
  {
    var path := CacheFilename(CacheDir, text, tts);
    if path in files then Call(RaisingDecode(files[path], path, tts), files, [])
    else
      var url := RequestUrl(baseUrl, token, text, tts);
      var resp := tts.server(url);
      if resp.NoResponse? || resp.status != 200 then Call(Raised, files, [url])
      else
        var after := Downloaded(files, path, resp);
        if resp.end != Complete then Call(Raised, after, [url])
        else Call(RaisingDecode(after[path], path, tts), after, [url])
  }

  /* ---------- cofficient.py: raise on request errors, estimate a bad duration ---------- */

  function EstimatedDuration(audio: Bytes, text: string, tts: Tts): real
  {
    match tts.decode(audio)
    case DecodeFails => Estimate(text)
    case Decoded(None) => Estimate(text)
    case Decoded(Some(d)) => if d <= 0.0 then Estimate(text) else d
  }

  function EstimatingCall(files: map<string, Bytes>, text: string, token: string, baseUrl: string, tts: Tts): (r: Call)
    ensures r.requested == Requests(files, CacheFilename(CacheDir, text, tts), RequestUrl(baseUrl, token, text, tts))
    ensures OnlyTouches(files, r.files, CacheFilename(CacheDir, text, tts))
    ensures CacheFilename(CacheDir, text, tts) in files ==> r.files == files
    ensures r.outcome.Yielded? ==> r.outcome.tracker.duration.Some? && r.outcome.tracker.duration.value > 0.0
  {
    var path := CacheFilename(CacheDir, text, tts);
    if path in files then
      Call(Yielded(Tracker(Some(path), Some(EstimatedDuration(files[path], text, tts)))), files, [])
    else
      var url := RequestUrl(baseUrl, token, text, tts);
      var resp := tts.server(url);
      if resp.NoResponse? || RaisesForStatus(resp.status) then Call(Raised, files, [url])
      else
        var after := Downloaded(files, path, resp);
        if resp.end != Complete then Call(Raised, after, [url])
        else Call(Yielded(Tracker(Some(path), Some(EstimatedDuration(after[path], text, tts)))), after, [url])
  }

  /* ---------- avoid_flood2.py: validate, and purge what fails ---------- */

  /** The validation of the cache file, on a hit and after a download alike:
      a non-empty file with a positive decoded duration is kept and yielded,
      anything else is deleted and raises. */
  function Validate(files: map<string, Bytes>, path: string, tts: Tts): (v: (Outcome, map<string, Bytes>))
    requires path in files
    ensures var d := tts.decode(files[path]);
      v.0.Yielded? <==> |files[path]| > 0 && d.Decoded? && d.duration.Some? && d.duration.value > 0.0
    ensures v.0.Yielded? ==> v.1 == files && v.0.tracker == Tracker(Some(path), tts.decode(files[path]).duration)
    ensures v.0.Raised? ==> v.1 == files - {path}
  {
    var audio := files[path];
    if |audio| == 0 then (Raised, files - {path})
    else match tts.decode(audio)
      case DecodeFails => (Raised, files - {path})
      case Decoded(None) => (Raised, files - {path})
      case Decoded(Some(d)) => if d <= 0.0 then (Raised, files - {path}) else (Yielded(Tracker(Some(path), Some(d))), files)
  }

  function ValidatingCall(files: map<string, Bytes>, text: string, token: string, baseUrl: string, tts: Tts): (r: Call)
    ensures r.requested == Requests(files, CacheFilename(AudioFilesDir, text, tts), RequestUrl(baseUrl, token, text, tts))
    ensures OnlyTouches(files, r.files, CacheFilename(AudioFilesDir, text, tts))
    ensures r.outcome.Yielded? ==> CacheFilename(AudioFilesDir, text, tts) in r.files && r.outcome.tracker.duration.Some? && r.outcome.tracker.duration.value > 0.0
  {
    var path := CacheFilename(AudioFilesDir, text, tts);
    if path in files then
      var v := Validate(files, path, tts);
      Call(v.0, v.1, [])
    else
      var url := RequestUrl(baseUrl, token, text, tts);
      var resp := tts.server(url);
      if resp.NoResponse? || RaisesForStatus(resp.status) then Call(Raised, files, [url])
      else if !IsAudio(resp.contentType) then Call(Raised, files, [url])
      else
        var after := Downloaded(files, path, resp);
        if resp.end != Complete then Call(Raised, after - {path}, [url])
        else
          var v := Validate(after, path, tts);
          Call(v.0, v.1, [url])
  }

  /* ---------- 15.py: never raise ---------- */

  const Silent := Tracker(None, Some(0.0))

  /** The duration probe of 15.py: a decode failure gives no audio at all, and
      otherwise the decoded duration, None included. */
  function Probe(audio: Bytes, path: string, tts: Tts): Tracker
  {
    match tts.decode(audio)
    case DecodeFails => Silent
    case Decoded(d) => Tracker(Some(path), d)
  }

  function NeverRaiseCall(files: map<string, Bytes>, text: string, token: string, baseUrl: string, tts: Tts): (r: Call)
    ensures r.requested == Requests(files, CacheFilename(CacheDir, text, tts), RequestUrl(baseUrl, token, text, tts))
    ensures OnlyTouches(files, r.files, CacheFilename(CacheDir, text, tts))
    ensures r.outcome.Yielded?
  {
    var path := CacheFilename(CacheDir, text, tts);
    if path in files then Call(Yielded(Probe(files[path], path, tts)), files, [])
    else
      var url := RequestUrl(baseUrl, token, text, tts);
      var resp := tts.server(url);
      if resp.NoResponse? || RaisesForStatus(resp.status) then Call(Yielded(Silent), files, [url])
      else
        var after := Downloaded(files, path, resp);
        match resp.end
        case StreamBroken => Call(Yielded(Silent), after, [url])
        case WriteFailed => Call(Yielded(Silent), after - {path}, [url])
        case Complete => Call(Yielded(Probe(after[path], path, tts)), after, [url])
  }

  /* ---------- sled.py: remember a failure as an empty file ---------- */

  /** sled.py's duration: zero for an empty or undecodable file. */
  function PoisonedDuration(audio: Bytes, tts: Tts): Option<real>
  {
    if |audio| > 0 then
      match tts.decode(audio)
      case DecodeFails => Some(0.0)
      case Decoded(d) => d
    else Some(0.0)
  }

  function PoisoningCall(files: map<string, Bytes>, text: string, token: string, baseUrl: string, tts: Tts): (r: Call)
    ensures r.requested == Requests(files, CacheFilename(CacheDir, text, tts), RequestUrl(baseUrl, token, text, tts))
    ensures OnlyTouches(files, r.files, CacheFilename(CacheDir, text, tts))
    ensures r.outcome.Yielded? ==> CacheFilename(CacheDir, text, tts) in r.files
  {
    var path := CacheFilename(CacheDir, text, tts);
    if path in files then Call(Yielded(Tracker(Some(path), PoisonedDuration(files[path], tts))), files, [])
    else
      var url := RequestUrl(baseUrl, token, text, tts);
      var resp := tts.server(url);
      if resp.NoResponse? then Call(Raised, files, [url])
      else if resp.status != 200 then
        Call(Yielded(Tracker(Some(path), Some(0.0))), files[path := []], [url])
      else
        var after := Downloaded(files, path, resp);
        if resp.end != Complete then Call(Raised, after, [url])
        else Call(Yielded(Tracker(Some(path), PoisonedDuration(after[path], tts))), after, [url])
  }

  /* ---------- 12.py and fx_xx.py: catch request errors only ---------- */

  /** The duration probe of 12.py and fx_xx.py. The duration is printed with
      `:.2f` inside the same `try`, so a None duration raises a TypeError there and
      ends in the same no-audio fallback as a decode failure. */
  function ReportedProbe(audio: Bytes, path: string, tts: Tts): Tracker
  {
    match tts.decode(audio)
    case DecodeFails => Silent
    case Decoded(None) => Silent
    case Decoded(Some(d)) => Tracker(Some(path), Some(d))
  }

  function RequestOnlyCall(files: map<string, Bytes>, text: string, token: string, baseUrl: string, tts: Tts): (r: Call)
    ensures r.requested == Requests(files, CacheFilename(CacheDir, text, tts), RequestUrl(baseUrl, token, text, tts))
    ensures OnlyTouches(files, r.files, CacheFilename(CacheDir, text, tts))
    ensures CacheFilename(CacheDir, text, tts) in files ==> r.files == files && r.outcome.Yielded?
  {
    var path := CacheFilename(CacheDir, text, tts);
    if path in files then Call(Yielded(ReportedProbe(files[path], path, tts)), files, [])
    else
      var url := RequestUrl(baseUrl, token, text, tts);
      var resp := tts.server(url);
      if resp.NoResponse? || RaisesForStatus(resp.status) then Call(Yielded(Silent), files, [url])
      else
        var after := Downloaded(files, path, resp);
        match resp.end
        case StreamBroken => Call(Yielded(Silent), after, [url])
        case WriteFailed => Call(Raised, after, [url])
        case Complete => Call(Yielded(ReportedProbe(after[path], path, tts)), after, [url])
  }

  /* ---------- avoid_flood.py: five seconds by default ---------- */

  const DefaultDuration := 5.0

  function DefaultFiveDuration(audio: Bytes, tts: Tts): Option<real>
  {
    if |audio| > 0 then
      match tts.decode(audio)
      case DecodeFails => Some(DefaultDuration)
      case Decoded(d) => d
    else Some(DefaultDuration)
  }

  function DefaultFiveCall(files: map<string, Bytes>, text: string, token: string, baseUrl: string, tts: Tts): (r: Call)
    ensures r.requested == Requests(files, CacheFilename(CacheDir, text, tts), RequestUrl(baseUrl, token, text, tts))
    ensures OnlyTouches(files, r.files, CacheFilename(CacheDir, text, tts))
    ensures r.outcome.Yielded? && (CacheFilename(CacheDir, text, tts) in files ==> r.files == files)
  {
    var path := CacheFilename(CacheDir, text, tts);
    if path in files then Call(Yielded(Tracker(Some(path), DefaultFiveDuration(files[path], tts))), files, [])
    else
      var url := RequestUrl(baseUrl, token, text, tts);
      var resp := tts.server(url);
      if resp.NoResponse? || resp.status != 200 then Call(Yielded(Silent), files, [url])
      else
        var after := Downloaded(files, path, resp);
        if resp.end != Complete then Call(Yielded(Silent), after, [url])
        else Call(Yielded(Tracker(Some(path), DefaultFiveDuration(after[path], tts))), after, [url])
  }
}
