/** The TTS helpers as they run: a working directory whose cache files the
    helpers create, fill chunk by chunk and remove, and the log of the requests
    sent to the TTS server. Each helper is proved to do what its policy in
    `TtsStore` says. */
module TtsCache {
  import opened JavaText
  import opened TtsStore

  /** The call `c` is what happened: the helper ended with `outcome`, left the
      store as `files` and appended its requests to `before`. */
  predicate Performed(c: Call, outcome: Outcome, files: map<string, Bytes>, requests: seq<string>, before: seq<string>)
  {
    outcome == c.outcome && files == c.files && requests == before + c.requested
  }

  class Workspace {
    var files: map<string, Bytes>
    /** The URLs requested from the TTS server, oldest first. */
    var requests: seq<string>

    constructor (existing: map<string, Bytes>)
      ensures files == existing && requests == []
    {
      files := existing;
      requests := [];
    }

    /** `requests.get(url, stream=True)` */
    method Get(url: string, tts: Tts) returns (resp: Response)
      modifies this
      ensures resp == tts.server(url)
      ensures files == old(files) && requests == old(requests) + [url]
    {
      resp := tts.server(url);
      requests := requests + [url];
    }

    /** `with open(path, "wb") as f: for chunk in ...: if chunk: f.write(chunk)` */
    method WriteChunks(path: string, chunks: seq<Bytes>)
      modifies this
      ensures files == old(files)[path := Joined(chunks)] && requests == old(requests)
    {
      files := files[path := []];
      for i := 0 to |chunks|
        invariant files == old(files)[path := Joined(chunks[..i])] && requests == old(requests)
      {
        assert chunks[..i + 1][..i] == chunks[..i];
        assert Joined(chunks[..i + 1]) == if chunks[i] != [] then Joined(chunks[..i]) + chunks[i] else Joined(chunks[..i]);
        if chunks[i] != [] {
          files := files[path := files[path] + chunks[i]];
        }
      }
      assert chunks[..|chunks|] == chunks;
    }

    /** custom_voiceover.py (and its copies in 05.py, 06.py, intro_majoy_2.py) */
    method RaisingTts(text: string, token: string, baseUrl: string, tts: Tts) returns (outcome: Outcome)
      modifies this
      ensures Performed(RaisingCall(old(files), text, token, baseUrl, tts), outcome, files, requests, old(requests))
    {
      var cacheFile := CacheFilename(CacheDir, text, tts);
      if cacheFile !in files {
        var url := RequestUrl(baseUrl, token, text, tts);
        var response := Get(url, tts);
        if response.NoResponse? || response.status != 200 {
          return Raised;
        }
        WriteChunks(cacheFile, response.chunks);
        if response.end != Complete {
          return Raised;
        }
      }
      match tts.decode(files[cacheFile]) {
        case DecodeFails => outcome := Raised;
        case Decoded(duration) => outcome := Yielded(Tracker(Some(cacheFile), duration));
      }
    }

    /** cofficient.py */
    method EstimatingTts(text: string, token: string, baseUrl: string, tts: Tts) returns (outcome: Outcome)
      modifies this
      ensures Performed(EstimatingCall(old(files), text, token, baseUrl, tts), outcome, files, requests, old(requests))
    {
      var cacheFile := CacheFilename(CacheDir, text, tts);
      var audioFile := cacheFile;
      if cacheFile !in files {
        var url := RequestUrl(baseUrl, token, text, tts);
        var response := Get(url, tts);
        if response.NoResponse? || RaisesForStatus(response.status) {
          return Raised;
        }
        WriteChunks(cacheFile, response.chunks);
        if response.end != Complete {
          return Raised;
        }
      }
      var duration: real;
      match tts.decode(files[audioFile]) {
        case DecodeFails => duration := Estimate(text);
        case Decoded(d) =>
          if d.None? || d.value <= 0.0 {
            duration := Estimate(text);
          } else {
            duration := d.value;
          }
      }
      outcome := Yielded(Tracker(Some(audioFile), Some(duration)));
    }

    /** The validation step of avoid_flood2.py. */
    method ValidateFile(path: string, tts: Tts) returns (outcome: Outcome)
      requires path in files
      modifies this
      ensures (outcome, files) == Validate(old(files), path, tts) && requests == old(requests)
    {
      var audio := files[path];
      var valid := false;
      var duration := 0.0;
      if |audio| > 0 {
        match tts.decode(audio) {
          case DecodeFails =>
          case Decoded(d) =>
            if d.Some? && d.value > 0.0 {
              valid := true;
              duration := d.value;
            }
        }
      }
      if valid {
        outcome := Yielded(Tracker(Some(path), Some(duration)));
      } else {
        files := files - {path};
        outcome := Raised;
      }
    }

    /** avoid_flood2.py */
    method ValidatingTts(text: string, token: string, baseUrl: string, tts: Tts) returns (outcome: Outcome)
      modifies this
      ensures Performed(ValidatingCall(old(files), text, token, baseUrl, tts), outcome, files, requests, old(requests))
    {
      var cacheFile := CacheFilename(AudioFilesDir, text, tts);
      if cacheFile !in files {
        var url := RequestUrl(baseUrl, token, text, tts);
        var response := Get(url, tts);
        if response.NoResponse? || RaisesForStatus(response.status) {
          return Raised;
        }
        if !IsAudio(response.contentType) {
          return Raised;
        }
        WriteChunks(cacheFile, response.chunks);
        if response.end != Complete {
          files := files - {cacheFile};
          return Raised;
        }
      }
      outcome := ValidateFile(cacheFile, tts);
    }

    /** 15.py */
    method NeverRaiseTts(text: string, token: string, baseUrl: string, tts: Tts) returns (outcome: Outcome)
      modifies this
      ensures Performed(NeverRaiseCall(old(files), text, token, baseUrl, tts), outcome, files, requests, old(requests))
    {
      var cacheFile := CacheFilename(CacheDir, text, tts);
      if cacheFile !in files {
        var url := RequestUrl(baseUrl, token, text, tts);
        var response := Get(url, tts);
        if response.NoResponse? || RaisesForStatus(response.status) {
          return Yielded(Tracker(None, Some(0.0)));
        }
        WriteChunks(cacheFile, response.chunks);
        if response.end == StreamBroken {
          return Yielded(Tracker(None, Some(0.0)));
        } else if response.end == WriteFailed {
          files := files - {cacheFile};
          return Yielded(Tracker(None, Some(0.0)));
        }
      }
      var audioFile: Option<string> := Some(cacheFile);
      var duration: Option<real> := Some(0.0);
      match tts.decode(files[cacheFile]) {
        case DecodeFails =>
          audioFile := None;
          duration := Some(0.0);
        case Decoded(d) => duration := d;
      }
      outcome := Yielded(Tracker(audioFile, duration));
    }

    /** sled.py */
    method PoisoningTts(text: string, token: string, baseUrl: string, tts: Tts) returns (outcome: Outcome)
      modifies this
      ensures Performed(PoisoningCall(old(files), text, token, baseUrl, tts), outcome, files, requests, old(requests))
    {
      var cacheFile := CacheFilename(CacheDir, text, tts);
      var audioFile: Option<string> := None;
      var duration: Option<real> := Some(0.0);
      if cacheFile in files {
        audioFile := Some(cacheFile);
      } else {
        var url := RequestUrl(baseUrl, token, text, tts);
        var response := Get(url, tts);
        if response.NoResponse? {
          return Raised;
        }
        if response.status != 200 {
          files := files[cacheFile := []];
          audioFile := Some(cacheFile);
        } else {
          WriteChunks(cacheFile, response.chunks);
          if response.end != Complete {
            return Raised;
          }
          audioFile := Some(cacheFile);
        }
      }
      // `if not audio_file` below the size test never runs: every path above set it.
      assert audioFile == Some(cacheFile) && cacheFile in files;
      if |files[cacheFile]| > 0 {
        match tts.decode(files[cacheFile]) {
          case DecodeFails => duration := Some(0.0);
          case Decoded(d) => duration := d;
        }
      }
      outcome := Yielded(Tracker(audioFile, duration));
    }

    /** 12.py (and its copy in fx_xx.py) */
    method RequestOnlyTts(text: string, token: string, baseUrl: string, tts: Tts) returns (outcome: Outcome)
      modifies this
      ensures Performed(RequestOnlyCall(old(files), text, token, baseUrl, tts), outcome, files, requests, old(requests))
    {
      var cacheFile := CacheFilename(CacheDir, text, tts);
      if cacheFile !in files {
        var url := RequestUrl(baseUrl, token, text, tts);
        var response := Get(url, tts);
        if response.NoResponse? || RaisesForStatus(response.status) {
          return Yielded(Tracker(None, Some(0.0)));
        }
        WriteChunks(cacheFile, response.chunks);
        if response.end == StreamBroken {
          return Yielded(Tracker(None, Some(0.0)));
        } else if response.end == WriteFailed {
          return Raised;
        }
      }
      var tracker: Tracker;
      match tts.decode(files[cacheFile]) {
        case DecodeFails => tracker := Tracker(None, Some(0.0));
        case Decoded(None) => tracker := Tracker(None, Some(0.0));
        case Decoded(Some(d)) => tracker := Tracker(Some(cacheFile), Some(d));
      }
      outcome := Yielded(tracker);
    }

    /** avoid_flood.py */
    method DefaultFiveTts(text: string, token: string, baseUrl: string, tts: Tts) returns (outcome: Outcome)
      modifies this
      ensures Performed(DefaultFiveCall(old(files), text, token, baseUrl, tts), outcome, files, requests, old(requests))
    {
      var cacheFile := CacheFilename(CacheDir, text, tts);
      var duration: Option<real> := Some(0.0);
      if cacheFile !in files {
        var url := RequestUrl(baseUrl, token, text, tts);
        var response := Get(url, tts);
        if response.NoResponse? || response.status != 200 {
          return Yielded(Tracker(None, Some(0.0)));
        }
        WriteChunks(cacheFile, response.chunks);
        if response.end != Complete {
          return Yielded(Tracker(None, Some(0.0)));
        }
      }
      if |files[cacheFile]| > 0 {
        match tts.decode(files[cacheFile]) {
          case DecodeFails => duration := Some(DefaultDuration);
          case Decoded(d) => duration := d;
        }
      } else {
        duration := Some(DefaultDuration);
      }
      outcome := Yielded(Tracker(Some(cacheFile), duration));
    }
  }
}
