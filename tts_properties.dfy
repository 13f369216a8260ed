/** What each TTS helper promises, stated over its policy in `TtsStore`. */
module TtsProperties {
  import opened JavaText
  import opened TtsStore

  /** Only the file at `path` may differ between the two stores. */
  ghost predicate OnlyTouches(before: map<string, Bytes>, after: map<string, Bytes>, path: string)
  {
    forall p :: p != path ==> (p in before <==> p in after) && (p in before ==> before[p] == after[p])
  }

  /** Nothing of `before` is removed or rewritten in `after`. */
  predicate Keeps(before: map<string, Bytes>, after: map<string, Bytes>)
  {
    forall p :: p in before ==> p in after && after[p] == before[p]
  }

  lemma BytesAssoc(a: Bytes, b: Bytes, c: Bytes)
    ensures a + b + c == a + (b + c)
  {
  }

  lemma {:induction false} FlattenSnoc(chunks: seq<Bytes>, x: Bytes)
    ensures Flatten(chunks + [x]) == Flatten(chunks) + x
    decreases |chunks|
  {
    if chunks == [] {
      assert [] + [x] == [x];
      assert Flatten([x]) == x + Flatten([]);
      assert x + [] == x;
    } else {
      assert (chunks + [x])[1..] == chunks[1..] + [x];
      FlattenSnoc(chunks[1..], x);
      BytesAssoc(chunks[0], Flatten(chunks[1..]), x);
    }
  }

  /** Skipping the empty chunks loses nothing: the file holds the whole body. */
  lemma {:induction false} JoinedIsFlatten(chunks: seq<Bytes>)
    ensures Joined(chunks) == Flatten(chunks)
    decreases |chunks|
  {
    if chunks != [] {
      var init, last := chunks[..|chunks| - 1], chunks[|chunks| - 1];
      assert chunks == init + [last];
      JoinedIsFlatten(init);
      FlattenSnoc(init, last);
      if last == [] {
        assert Flatten(init) + last == Flatten(init);
      }
    }
  }

  /** The cache file is `<dir>/<md5>.mp3`: equal texts share it, and two texts
      share it exactly when their digests are equal. */
  lemma CacheFilenameShape(dir: string, a: string, b: string, tts: Tts)
    ensures StartsWith(CacheFilename(dir, a, tts), dir + "/") && EndsWith(CacheFilename(dir, a, tts), ".mp3")
    ensures CacheFilename(dir, a, tts) == CacheFilename(dir, b, tts) <==> tts.md5(a) == tts.md5(b)
  {
    var pa, pb := CacheFilename(dir, a, tts), CacheFilename(dir, b, tts);
    var n := |dir| + 1;
    assert pa[..n] == dir + "/";
    assert pa[|pa| - 4..] == ".mp3";
    if pa == pb {
      assert |tts.md5(a)| == |tts.md5(b)|;
      assert pa[n..n + |tts.md5(a)|] == tts.md5(a);
      assert pb[n..n + |tts.md5(b)|] == tts.md5(b);
    }
  }

  /** The estimate is at least one second and at least a fifth of the text's length. */
  lemma EstimatedDurationCases(audio: Bytes, text: string, tts: Tts)
    ensures EstimatedDuration(audio, text, tts) > 0.0
    ensures Estimate(text) >= 1.0 && Estimate(text) >= |text| as real / 5.0
    ensures match tts.decode(audio)
      case Decoded(Some(d)) => EstimatedDuration(audio, text, tts) == if d > 0.0 then d else Estimate(text)
      case _ => EstimatedDuration(audio, text, tts) == Estimate(text)
  {
  }

  /* ---------- custom_voiceover.py ---------- */

  /** A cache hit sends no request and changes nothing; it yields the cache path
      with the decoded duration, and a decode error escapes. */
  lemma RaisingHit(files: map<string, Bytes>, text: string, token: string, baseUrl: string, tts: Tts)
    requires CacheFilename(CacheDir, text, tts) in files
    ensures var path, c := CacheFilename(CacheDir, text, tts), RaisingCall(files, text, token, baseUrl, tts);
      && c.requested == [] && c.files == files
      && (c.outcome == Raised <==> tts.decode(files[path]).DecodeFails?)
      && (c.outcome.Yielded? ==> c.outcome.tracker == Tracker(Some(path), tts.decode(files[path]).duration))
  {
  }

  /** A miss sends exactly one request, to base_url?token=..&input=<quoted text>;
      a failed request or a status other than 200 raises with the store untouched. */
  lemma RaisingMiss(files: map<string, Bytes>, text: string, token: string, baseUrl: string, tts: Tts)
    requires CacheFilename(CacheDir, text, tts) !in files
    ensures var c := RaisingCall(files, text, token, baseUrl, tts);
      var resp := tts.server(baseUrl + "?token=" + token + "&input=" + tts.quote(text));
      && c.requested == [baseUrl + "?token=" + token + "&input=" + tts.quote(text)]
      && (resp.NoResponse? || resp.status != 200 ==> c.outcome == Raised && c.files == files)
  {
  }

  /** On a 200 response the cache file holds the whole body, and no other file changes. */
  lemma RaisingStoresBody(files: map<string, Bytes>, text: string, token: string, baseUrl: string, tts: Tts)
    requires CacheFilename(CacheDir, text, tts) !in files
    requires tts.server(RequestUrl(baseUrl, token, text, tts)).Response?
    requires tts.server(RequestUrl(baseUrl, token, text, tts)).status == 200
    ensures var path, c := CacheFilename(CacheDir, text, tts), RaisingCall(files, text, token, baseUrl, tts);
      var resp := tts.server(RequestUrl(baseUrl, token, text, tts));
      && path in c.files && c.files[path] == Flatten(resp.chunks) && OnlyTouches(files, c.files, path)
      && (resp.end != Complete ==> c.outcome == Raised)
  {
    JoinedIsFlatten(tts.server(RequestUrl(baseUrl, token, text, tts)).chunks);
  }

  /** A tracker always names the cache file and carries its decoded duration. */
  lemma RaisingTracker(files: map<string, Bytes>, text: string, token: string, baseUrl: string, tts: Tts)
    ensures var path, c := CacheFilename(CacheDir, text, tts), RaisingCall(files, text, token, baseUrl, tts);
      c.outcome.Yielded? ==>
        path in c.files && c.outcome.tracker.audioPath == Some(path)
        && tts.decode(c.files[path]) == Decoded(c.outcome.tracker.duration)
  {
  }

  /** No file is ever removed or rewritten. */
  lemma RaisingNeverDeletes(files: map<string, Bytes>, text: string, token: string, baseUrl: string, tts: Tts)
    ensures Keeps(files, RaisingCall(files, text, token, baseUrl, tts).files)
  {
  }

  /* ---------- cofficient.py ---------- */

  /** A failed request or a 4xx/5xx status raises, with the store untouched. */
  lemma EstimatingRequestFailure(files: map<string, Bytes>, text: string, token: string, baseUrl: string, tts: Tts)
    requires CacheFilename(CacheDir, text, tts) !in files
    requires tts.server(RequestUrl(baseUrl, token, text, tts)).NoResponse?
      || RaisesForStatus(tts.server(RequestUrl(baseUrl, token, text, tts)).status)
    ensures var c := EstimatingCall(files, text, token, baseUrl, tts);
      c.outcome == Raised && c.files == files && c.requested == [RequestUrl(baseUrl, token, text, tts)]
  {
  }

  /** A failure while writing raises but leaves the partial file, which the next
      call takes as a cache hit without a request. */
  lemma EstimatingPartialFileIsHit(files: map<string, Bytes>, text: string, token: string, baseUrl: string, tts: Tts)
    requires CacheFilename(CacheDir, text, tts) !in files
    requires tts.server(RequestUrl(baseUrl, token, text, tts)).Response?
    requires !RaisesForStatus(tts.server(RequestUrl(baseUrl, token, text, tts)).status)
    requires tts.server(RequestUrl(baseUrl, token, text, tts)).end != Complete
    ensures var path, c := CacheFilename(CacheDir, text, tts), EstimatingCall(files, text, token, baseUrl, tts);
      && c.outcome == Raised && path in c.files
      && c.files[path] == Flatten(tts.server(RequestUrl(baseUrl, token, text, tts)).chunks)
      && EstimatingCall(c.files, text, token, baseUrl, tts).requested == []
  {
    JoinedIsFlatten(tts.server(RequestUrl(baseUrl, token, text, tts)).chunks);
  }

  /** A tracker has the cache file, which exists, and a positive duration: the
      decoded one when it is positive, the estimate otherwise. */
  lemma EstimatingYield(files: map<string, Bytes>, text: string, token: string, baseUrl: string, tts: Tts)
    ensures var path, c := CacheFilename(CacheDir, text, tts), EstimatingCall(files, text, token, baseUrl, tts);
      c.outcome.Yielded? ==>
        && path in c.files && c.outcome.tracker.audioPath == Some(path)
        && c.outcome.tracker.duration == Some(EstimatedDuration(c.files[path], text, tts))
        && c.outcome.tracker.duration.value > 0.0
  {
    var c := EstimatingCall(files, text, token, baseUrl, tts);
    if c.outcome.Yielded? {
      EstimatedDurationCases(c.files[CacheFilename(CacheDir, text, tts)], text, tts);
    }
  }

  /* ---------- avoid_flood2.py ---------- */

  /** The validating copy keeps its files under tts_cache/audio_files. */
  lemma ValidatingPath(text: string, tts: Tts)
    ensures StartsWith(CacheFilename(AudioFilesDir, text, tts), "tts_cache/audio_files/")
  {
    CacheFilenameShape(AudioFilesDir, text, text, tts);
  }

  /** A failed request, a 4xx/5xx status, or a Content-Type without "audio"
      raises before any file is written. */
  lemma ValidatingRejectsResponse(files: map<string, Bytes>, text: string, token: string, baseUrl: string, tts: Tts)
    requires CacheFilename(AudioFilesDir, text, tts) !in files
    requires var resp := tts.server(RequestUrl(baseUrl, token, text, tts));
      resp.NoResponse? || RaisesForStatus(resp.status) || !IsAudio(resp.contentType)
    ensures var c := ValidatingCall(files, text, token, baseUrl, tts);
      c.outcome == Raised && c.files == files
  {
  }

  /** A failure while writing removes the cache file and raises. */
  lemma ValidatingWriteFailure(files: map<string, Bytes>, text: string, token: string, baseUrl: string, tts: Tts)
    requires CacheFilename(AudioFilesDir, text, tts) !in files
    requires var resp := tts.server(RequestUrl(baseUrl, token, text, tts));
      resp.Response? && !RaisesForStatus(resp.status) && IsAudio(resp.contentType) && resp.end != Complete
    ensures var c := ValidatingCall(files, text, token, baseUrl, tts);
      c.outcome == Raised && c.files == files
  {
    var path := CacheFilename(AudioFilesDir, text, tts);
    var resp := tts.server(RequestUrl(baseUrl, token, text, tts));
    assert Downloaded(files, path, resp) - {path} == files;
  }

  /** Whatever a call yields was validated: a non-empty file and a positive decoded duration. */
  lemma ValidatingYieldsValid(files: map<string, Bytes>, text: string, token: string, baseUrl: string, tts: Tts)
    ensures var path, c := CacheFilename(AudioFilesDir, text, tts), ValidatingCall(files, text, token, baseUrl, tts);
      c.outcome.Yielded? ==>
        && path in c.files && |c.files[path]| > 0
        && c.outcome.tracker.audioPath == Some(path)
        && c.outcome.tracker.duration.Some? && c.outcome.tracker.duration.value > 0.0
        && tts.decode(c.files[path]) == Decoded(c.outcome.tracker.duration)
  {
  }

  /** Whenever a call raises, no cache file is left behind for its text, and no
      other file is touched. */
  lemma ValidatingPurges(files: map<string, Bytes>, text: string, token: string, baseUrl: string, tts: Tts)
    ensures var path, c := CacheFilename(AudioFilesDir, text, tts), ValidatingCall(files, text, token, baseUrl, tts);
      && OnlyTouches(files, c.files, path)
      && (c.outcome == Raised ==> path !in c.files)
  {
  }

  /* ---------- 15.py ---------- */

  /** The never-raising copy always yields, and a tracker without audio has duration 0. */
  lemma NeverRaiseYields(files: map<string, Bytes>, text: string, token: string, baseUrl: string, tts: Tts)
    ensures var path, c := CacheFilename(CacheDir, text, tts), NeverRaiseCall(files, text, token, baseUrl, tts);
      && c.outcome.Yielded?
      && (c.outcome.tracker.audioPath.None? ==> c.outcome.tracker.duration == Some(0.0))
      && (c.outcome.tracker.audioPath.Some? ==>
            c.outcome.tracker.audioPath == Some(path) && path in c.files
            && tts.decode(c.files[path]) == Decoded(c.outcome.tracker.duration))
  {
  }

  /** A failed request or a 4xx/5xx status yields no audio and writes nothing. */
  lemma NeverRaiseRequestFailure(files: map<string, Bytes>, text: string, token: string, baseUrl: string, tts: Tts)
    requires CacheFilename(CacheDir, text, tts) !in files
    requires tts.server(RequestUrl(baseUrl, token, text, tts)).NoResponse?
      || RaisesForStatus(tts.server(RequestUrl(baseUrl, token, text, tts)).status)
    ensures var c := NeverRaiseCall(files, text, token, baseUrl, tts);
      c.outcome == Yielded(Silent) && c.files == files
  {
  }

  /** A write error removes the partial file. */
  lemma NeverRaiseWriteFailure(files: map<string, Bytes>, text: string, token: string, baseUrl: string, tts: Tts)
    requires CacheFilename(CacheDir, text, tts) !in files
    requires var resp := tts.server(RequestUrl(baseUrl, token, text, tts));
      resp.Response? && !RaisesForStatus(resp.status) && resp.end == WriteFailed
    ensures var c := NeverRaiseCall(files, text, token, baseUrl, tts);
      c.outcome == Yielded(Silent) && c.files == files
  {
    var path := CacheFilename(CacheDir, text, tts);
    assert Downloaded(files, path, tts.server(RequestUrl(baseUrl, token, text, tts))) - {path} == files;
  }

  /** A `RequestException` while streaming skips that removal: the partial file
      stays, and the next call takes it as a hit without a request. */
  lemma NeverRaiseStreamBroken(files: map<string, Bytes>, text: string, token: string, baseUrl: string, tts: Tts)
    requires CacheFilename(CacheDir, text, tts) !in files
    requires var resp := tts.server(RequestUrl(baseUrl, token, text, tts));
      resp.Response? && !RaisesForStatus(resp.status) && resp.end == StreamBroken
    ensures var path, c := CacheFilename(CacheDir, text, tts), NeverRaiseCall(files, text, token, baseUrl, tts);
      && c.outcome == Yielded(Silent) && path in c.files
      && c.files[path] == Flatten(tts.server(RequestUrl(baseUrl, token, text, tts)).chunks)
      && NeverRaiseCall(c.files, text, token, baseUrl, tts).requested == []
  {
    JoinedIsFlatten(tts.server(RequestUrl(baseUrl, token, text, tts)).chunks);
  }

  /** A cached file that does not decode yields no audio, and is kept. */
  lemma NeverRaiseDecodeFailure(files: map<string, Bytes>, text: string, token: string, baseUrl: string, tts: Tts)
    requires CacheFilename(CacheDir, text, tts) in files
    requires tts.decode(files[CacheFilename(CacheDir, text, tts)]).DecodeFails?
    ensures NeverRaiseCall(files, text, token, baseUrl, tts) == Call(Yielded(Silent), files, [])
  {
  }

  /* ---------- sled.py ---------- */

  /** A status other than 200 writes an empty cache file and yields it with duration 0. */
  lemma PoisoningBadStatus(files: map<string, Bytes>, text: string, token: string, baseUrl: string, tts: Tts)
    requires CacheFilename(CacheDir, text, tts) !in files
    requires var resp := tts.server(RequestUrl(baseUrl, token, text, tts));
      resp.Response? && resp.status != 200
    ensures var path, c := CacheFilename(CacheDir, text, tts), PoisoningCall(files, text, token, baseUrl, tts);
      && c.files == files[path := []]
      && c.outcome == Yielded(Tracker(Some(path), Some(0.0)))
  {
  }

  /** An empty cache file answers every later call: no request, duration 0. */
  lemma PoisonedFileAnswers(files: map<string, Bytes>, text: string, token: string, baseUrl: string, tts: Tts)
    requires CacheFilename(CacheDir, text, tts) in files && files[CacheFilename(CacheDir, text, tts)] == []
    ensures PoisoningCall(files, text, token, baseUrl, tts)
      == Call(Yielded(Tracker(Some(CacheFilename(CacheDir, text, tts)), Some(0.0))), files, [])
  {
  }

  /** The path is never None: a tracker always names the cache file, which
      exists; an empty or undecodable file gives duration 0. */
  lemma PoisoningTracker(files: map<string, Bytes>, text: string, token: string, baseUrl: string, tts: Tts)
    ensures var path, c := CacheFilename(CacheDir, text, tts), PoisoningCall(files, text, token, baseUrl, tts);
      c.outcome.Yielded? ==>
        && c.outcome.tracker.audioPath == Some(path) && path in c.files
        && (|c.files[path]| == 0 || tts.decode(c.files[path]).DecodeFails? ==> c.outcome.tracker.duration == Some(0.0))
        && (|c.files[path]| > 0 && tts.decode(c.files[path]).Decoded? ==>
              c.outcome.tracker.duration == tts.decode(c.files[path]).duration)
  {
  }

  /** A failed `requests.get` propagates, with the store untouched. */
  lemma PoisoningRequestFailure(files: map<string, Bytes>, text: string, token: string, baseUrl: string, tts: Tts)
    requires CacheFilename(CacheDir, text, tts) !in files
    requires tts.server(RequestUrl(baseUrl, token, text, tts)).NoResponse?
    ensures var c := PoisoningCall(files, text, token, baseUrl, tts);
      c.outcome == Raised && c.files == files
  {
  }

  /* ---------- 12.py and fx_xx.py ---------- */

  /** Request errors, including one while streaming, yield no audio; a write
      error escapes and leaves the partial file. */
  lemma RequestOnlyFailures(files: map<string, Bytes>, text: string, token: string, baseUrl: string, tts: Tts)
    requires CacheFilename(CacheDir, text, tts) !in files
    ensures var path, c := CacheFilename(CacheDir, text, tts), RequestOnlyCall(files, text, token, baseUrl, tts);
      var resp := tts.server(RequestUrl(baseUrl, token, text, tts));
      && (resp.NoResponse? || RaisesForStatus(resp.status) ==> c.outcome == Yielded(Silent) && c.files == files)
      && (resp.Response? && !RaisesForStatus(resp.status) && resp.end == StreamBroken ==>
            c.outcome == Yielded(Silent) && path in c.files)
      && (resp.Response? && !RaisesForStatus(resp.status) && resp.end == WriteFailed ==>
            c.outcome == Raised && path in c.files)
  {
  }

  /** A cached file that does not decode, or decodes without a duration, yields
      no audio and is kept; a tracker with audio names the cache file and always
      carries the decoded duration. */
  lemma RequestOnlyTracker(files: map<string, Bytes>, text: string, token: string, baseUrl: string, tts: Tts)
    ensures var path, c := CacheFilename(CacheDir, text, tts), RequestOnlyCall(files, text, token, baseUrl, tts);
      && (path in files && (tts.decode(files[path]).DecodeFails? || tts.decode(files[path]) == Decoded(None)) ==>
            c == Call(Yielded(Silent), files, []))
      && (c.outcome.Yielded? && c.outcome.tracker.audioPath.Some? ==>
            c.outcome.tracker.audioPath == Some(path) && path in c.files
            && c.outcome.tracker.duration.Some?
            && tts.decode(c.files[path]) == Decoded(c.outcome.tracker.duration))
      && (c.outcome.Yielded? && c.outcome.tracker.audioPath.None? ==> c.outcome.tracker.duration == Some(0.0))
  {
  }

  /* ---------- avoid_flood.py ---------- */

  /** The copy never raises; without audio the duration is 0 and nothing was written. */
  lemma DefaultFiveYields(files: map<string, Bytes>, text: string, token: string, baseUrl: string, tts: Tts)
    ensures var path, c := CacheFilename(CacheDir, text, tts), DefaultFiveCall(files, text, token, baseUrl, tts);
      && c.outcome.Yielded?
      && (c.outcome.tracker.audioPath.None? ==> c.outcome.tracker.duration == Some(0.0))
      && (c.outcome.tracker.audioPath.Some? ==> c.outcome.tracker.audioPath == Some(path) && path in c.files)
  {
  }

  /** A status other than 200 yields no audio without writing a file. */
  lemma DefaultFiveBadStatus(files: map<string, Bytes>, text: string, token: string, baseUrl: string, tts: Tts)
    requires CacheFilename(CacheDir, text, tts) !in files
    requires tts.server(RequestUrl(baseUrl, token, text, tts)).NoResponse?
      || tts.server(RequestUrl(baseUrl, token, text, tts)).status != 200
    ensures DefaultFiveCall(files, text, token, baseUrl, tts) == Call(Yielded(Silent), files, [RequestUrl(baseUrl, token, text, tts)])
  {
  }

  /** An empty or undecodable cache file gives the path with five seconds. */
  lemma DefaultFiveFallback(files: map<string, Bytes>, text: string, token: string, baseUrl: string, tts: Tts)
    ensures var path, c := CacheFilename(CacheDir, text, tts), DefaultFiveCall(files, text, token, baseUrl, tts);
      c.outcome.tracker.audioPath.Some? && (|c.files[path]| == 0 || tts.decode(c.files[path]).DecodeFails?) ==>
        c.outcome.tracker.duration == Some(DefaultDuration)
  {
    DefaultFiveYields(files, text, token, baseUrl, tts);
  }

  /** Nothing is ever removed, so an empty cache file keeps answering five
      seconds without a request. */
  lemma DefaultFiveKeepsFiles(files: map<string, Bytes>, text: string, token: string, baseUrl: string, tts: Tts)
    ensures Keeps(files, DefaultFiveCall(files, text, token, baseUrl, tts).files)
    ensures var path := CacheFilename(CacheDir, text, tts);
      path in files && files[path] == [] ==>
        DefaultFiveCall(files, text, token, baseUrl, tts) == Call(Yielded(Tracker(Some(path), Some(DefaultDuration))), files, [])
  {
  }
}
