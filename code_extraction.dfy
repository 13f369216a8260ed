/** Extraction of Python code from model output.
    `LinuxService.genManaimCode` looks for a "```python" fence and falls back to a
    bare JSON object; `MainimService` slices the text after a "```json" fence. */
module CodeExtraction {
  import opened JavaText

  const PythonFence := "```python"
  const Fence := "```"
  const JsonFence := "```json"

  /** What `JsonUtils.parse(text, ToolVo.class)` gives: a ToolVo whose `code`
      field may be null, a null reference, or a parse exception. */
  datatype JsonParse = ParsedTool(code: JString) | ParsedNull | ParseError

  /** The extraction branches of `genManaimCode` applied to the model's reply.
      Returns(None) is the method's `return null`; Throws is the
      NullPointerException of `toolVo.getCode()` on a null ToolVo. Java's
      `indexOf` and `lastIndexOf` count UTF-16 code units, so the `lastIndexOf > 9`
      test reads the code-unit index `JIndex`. Both bounds of the substring are
      character boundaries (just after the ASCII fence, and at a fence), so the
      substring itself is taken on characters; FenceCutAgrees shows that it throws
      exactly when Java's does. */
  function ExtractPython(text: string, parse: string -> JsonParse): (r: Completion<JString>)
    ensures r.Throws? ==> IndexOf(text, PythonFence) == -1 && parse(Trim(text)) == ParsedNull
    ensures IndexOf(text, PythonFence) != -1 ==> r.Returns?
    ensures var b := IndexOf(text, PythonFence) + 9;
      b != 8 && r.Returns? && r.value.Some? ==>
        0 <= b && b + |r.value.value| <= |text| && r.value.value == text[b..b + |r.value.value|]
  {
    var i := IndexOf(text, PythonFence);
    if i == -1 then
      if StartsWith(text, "{") && EndsWith(text, "}") then
        match parse(Trim(text))
        case ParsedTool(code) => Returns(code)
        case ParsedNull => Throws
        case ParseError => Returns(None)
      else Returns(None)
    else
      var l := LastIndexOf(text, Fence);
      if JIndex(text, l) > 9 then Returns(Substring(text, i + 9, l))
      else Returns(Substring(text, i + 9, |text|))
  }

  /** The last "```" never precedes the opening "```python", and it either is
      that opening fence or starts after it. */
  lemma LastFencePosition(text: string)
    requires IndexOf(text, PythonFence) != -1
    ensures var i, l := IndexOf(text, PythonFence), LastIndexOf(text, Fence);
      l == i || l >= i + 9
  {
    IndexOfIsFirst(text, PythonFence);
    LastIndexOfIsLast(text, Fence);
    var i, l := IndexOf(text, PythonFence), LastIndexOf(text, Fence);
    assert text[i..i + 9] == PythonFence;
    assert OccursAt(text, Fence, i) by {
      assert text[i..i + 3] == text[i..i + 9][..3];
    }
    assert l >= i;
    forall j | i < j < i + 9
      ensures !OccursAt(text, Fence, j)
    {
      assert text[i + 3] == text[i..i + 9][3] == 'p';
      if j <= i + 2 {
        if j + 3 <= |text| {
          assert text[j..j + 3][i + 3 - j] == text[i + 3];
        }
      } else {
        assert text[j] == text[i..i + 9][j - i] != '`';
        if j + 3 <= |text| {
          assert text[j..j + 3][0] == text[j];
        }
      }
    }
  }

  /** The fences are ASCII, so Java counts one code unit per fence character. */
  lemma FencesAreBmp()
    ensures AllBmp(PythonFence) && AllBmp(Fence) && AllBmp(JsonFence)
  {
  }

  /** Java cuts `substring(indexOf + 9, lastIndexOf)` in code units where the
      model cuts in characters: the code-unit bounds are in order exactly when
      the character bounds are, and the rest after the fence always exists. */
  lemma FenceCutAgrees(text: string)
    requires IndexOf(text, PythonFence) != -1
    ensures var i, l := IndexOf(text, PythonFence), LastIndexOf(text, Fence);
      && JIndex(text, i + 9) == JIndex(text, i) + 9
      && (JIndex(text, i) + 9 <= JIndex(text, l) <==> i + 9 <= l)
      && JIndex(text, i) + 9 <= JLength(text)
      && l <= JIndex(text, l)
  {
    LastFencePosition(text);
    IndexOfIsFirst(text, PythonFence);
    LastIndexOfIsLast(text, Fence);
    var i, l := IndexOf(text, PythonFence), LastIndexOf(text, Fence);
    assert OccursAt(text, PythonFence, i);
    assert OccursAt(text, Fence, l) by {
      assert OccursAt(text, Fence, i) by { assert text[i..i + 3] == text[i..i + 9][..3]; }
    }
    FencesAreBmp();
    JIndexOverBmp(text, i, i + 9);
    JIndexGrows(text, 0, l);
    JIndexGrows(text, i + 9, |text|);
    assert text[..|text|] == text;
    if l >= i + 9 {
      JIndexGrows(text, i + 9, l);
    }
  }

  /** With a "```python" fence at character i and the last "```" at character l
      (code unit `JIndex(text, l)`): the code is text[i+9, l) when Java's index of
      l is above 9 and l is a later fence, text[i+9, end) when it is 9 or less,
      and null when there is no later fence but the fence's code-unit index is
      above 9 (`substring(i+9, i)` throws). Without characters above U+FFFF the
      code-unit index is the character index. */
  lemma {:induction false} PythonFenceCases(text: string, parse: string -> JsonParse)
    requires IndexOf(text, PythonFence) != -1
    ensures var i, l := IndexOf(text, PythonFence), LastIndexOf(text, Fence);
      && 0 <= i && i + 9 <= |text| && l + 3 <= |text| && (l == i || l >= i + 9)
      && (JIndex(text, l) > 9 && l >= i + 9 ==> ExtractPython(text, parse) == Returns(Some(text[i + 9..l])))
      && (JIndex(text, l) <= 9 ==> ExtractPython(text, parse) == Returns(Some(text[i + 9..])))
      && (l == i && JIndex(text, i) > 9 ==> ExtractPython(text, parse) == Returns(None))
      && (AllBmp(text[..l]) ==> JIndex(text, l) == l)
  {
    FenceBounds(text);
    FenceCutAgrees(text);
    ExtractAtFence(text, parse);
    var i, l := IndexOf(text, PythonFence), LastIndexOf(text, Fence);
    assert text[i + 9..|text|] == text[i + 9..];
    if AllBmp(text[..l]) {
      BmpIndex(text, l);
    }
  }

  /** Where the two fences sit: the opening one ends inside the text, and the last
      "```" is the opening fence itself or starts after it. */
  lemma FenceBounds(text: string)
    requires IndexOf(text, PythonFence) != -1
    ensures var i, l := IndexOf(text, PythonFence), LastIndexOf(text, Fence);
      && 0 <= i && i + 9 <= |text| && (l == i || l >= i + 9) && l + 3 <= |text|
  {
    LastFencePosition(text);
    IndexOfIsFirst(text, PythonFence);
    LastIndexOfIsLast(text, Fence);
    var i, l := IndexOf(text, PythonFence), LastIndexOf(text, Fence);
    assert OccursAt(text, PythonFence, i);
    assert l != -1 by { assert OccursAt(text, Fence, i) by { assert text[i..i + 3] == text[i..i + 9][..3]; } }
  }

  /** With a "```python" fence the extraction is one of the two substrings. */
  lemma ExtractAtFence(text: string, parse: string -> JsonParse)
    requires IndexOf(text, PythonFence) != -1
    ensures var i, l := IndexOf(text, PythonFence), LastIndexOf(text, Fence);
      ExtractPython(text, parse) ==
        Returns(if JIndex(text, l) > 9 then Substring(text, i + 9, l) else Substring(text, i + 9, |text|))
  {
  }

  /** Before position k of a text without characters above U+FFFF, Java's index is the character index. */
  lemma BmpIndex(text: string, k: int)
    requires 0 <= k <= |text| && AllBmp(text[..k])
    ensures JIndex(text, k) == k
  {
    JIndexOverBmp(text, 0, k);
    assert text[..0] == [];
  }

  /** The code is never read from a text with no closing fence when the opening
      fence sits beyond code unit 9: the extraction gives null. "😀abcdefgh```python"
      is such a text, with its fence at character 9 but code unit 10. */
  lemma UnclosedFenceIsNull(text: string, parse: string -> JsonParse)
    requires JIndex(text, IndexOf(text, PythonFence)) > 9
    requires forall j :: j > IndexOf(text, PythonFence) ==> !OccursAt(text, Fence, j)
    ensures ExtractPython(text, parse) == Returns(None)
  {
    var i := IndexOf(text, PythonFence);
    var l := LastIndexOf(text, Fence);
    assert i != -1;
    LastFencePosition(text);
    LastIndexOfIsLast(text, Fence);
    assert l == i;
  }

  /** The text "😀abcdefgh```python\nprint(1)": its fence is at character 9 but
      at code unit 10, so Java takes the `> 9` branch, `substring(19, 10)` throws
      inside the `try`, and the extraction gives null. */
  const SupplementarySample := "\U{1F600}" + "abcdefgh" + PythonFence + "\nprint(1)"

  lemma SupplementaryCharBeforeFence(parse: string -> JsonParse)
    ensures IndexOf(SupplementarySample, PythonFence) == 9 && JIndex(SupplementarySample, 9) == 10
    ensures ExtractPython(SupplementarySample, parse) == Returns(None)
  {
    SampleFence();
    SampleUnits();
    SampleNoLaterFence();
    UnclosedFenceIsNull(SupplementarySample, parse);
  }

  lemma SampleFence()
    ensures IndexOf(SupplementarySample, PythonFence) == 9
  {
    var text := SupplementarySample;
    var prefix := "\U{1F600}" + "abcdefgh" + Fence;
    assert text[..12] == prefix;
    assert forall k :: 0 <= k < 12 ==> text[k] != 'p' by {
      assert forall k :: 0 <= k < |prefix| ==> prefix[k] != 'p';
    }
    assert text[9..18] == PythonFence;
    assert OccursAt(text, PythonFence, 9);
    forall j | j < 9 ensures !OccursAt(text, PythonFence, j) {
      if 0 <= j && j + 9 <= |text| { assert text[j..j + 9][3] != PythonFence[3]; }
    }
    IndexOfIsFirst(text, PythonFence);
  }

  lemma SampleUnits()
    ensures JIndex(SupplementarySample, 9) == 10
  {
    var head := "\U{1F600}" + "abcdefgh";
    assert SupplementarySample[..9] == head;
    Utf16Append("\U{1F600}", "abcdefgh");
  }

  lemma SampleNoLaterFence()
    ensures forall j :: j > 9 ==> !OccursAt(SupplementarySample, Fence, j)
  {
    var text := SupplementarySample;
    var tail := "python" + "\nprint(1)";
    assert text[12..] == tail;
    assert forall k :: 12 <= k < |text| ==> text[k] != '`' by {
      assert forall k :: 0 <= k < |tail| ==> tail[k] != '`';
    }
    forall j | j > 9 ensures !OccursAt(text, Fence, j) {
      if 0 <= j && j + 3 <= |text| { assert text[j..j + 3][2] != Fence[2]; }
    }
  }

  /** "```python```" followed by `rest` has no fence after character 9. */
  lemma NoFenceAfterNine(rest: string)
    requires forall j :: !OccursAt(rest, Fence, j)
    requires rest == [] || rest[0] != '`'
    ensures forall j :: j > 9 ==> !OccursAt(PythonFence + Fence + rest, Fence, j)
  {
    var text := PythonFence + Fence + rest;
    assert |text| == 12 + |rest|;
    assert text[12..] == rest;
    forall j | j > 9
      ensures !OccursAt(text, Fence, j)
    {
      if 12 <= j && j + 3 <= |text| {
        assert text[j..j + 3] == rest[j - 12..j - 9];
        assert !OccursAt(rest, Fence, j - 12);
      } else if 10 <= j < 12 && j + 3 <= |text| {
        assert text[12] == rest[0];
        assert text[j..j + 3][12 - j] == text[12];
      }
    }
  }

  /** The edge case of the `lastIndexOf > 9` test: a reply that is "```python"
      immediately followed by the closing "```" keeps that fence in the code. */
  lemma ClosingFenceAtNineIsKept(rest: string, parse: string -> JsonParse)
    requires forall j :: !OccursAt(rest, Fence, j)
    requires rest == [] || rest[0] != '`'
    ensures ExtractPython(PythonFence + Fence + rest, parse) == Returns(Some(Fence + rest))
  {
    var text := PythonFence + Fence + rest;
    AdjacentFences(rest);
    FenceThenRest(rest);
    ExtractAtFence(text, parse);
  }

  /** Java's index of character 9 of "```python```" + rest is 9, and the text from there is "```" + rest. */
  lemma FenceThenRest(rest: string)
    ensures JIndex(PythonFence + Fence + rest, 9) == 9
    ensures Substring(PythonFence + Fence + rest, 9, |PythonFence + Fence + rest|) == Some(Fence + rest)
  {
    var text, tail := PythonFence + Fence + rest, Fence + rest;
    assert text == PythonFence + tail;
    FencesAreBmp();
    assert text[..9] == PythonFence;
    BmpIndex(text, 9);
    assert text[9..] == tail;
    assert text[9..|text|] == text[9..];
  }

  /** In "```python```" + rest the opening fence is at 0 and the last "```" at 9. */
  lemma AdjacentFences(rest: string)
    requires forall j :: !OccursAt(rest, Fence, j)
    requires rest == [] || rest[0] != '`'
    ensures IndexOf(PythonFence + Fence + rest, PythonFence) == 0
    ensures LastIndexOf(PythonFence + Fence + rest, Fence) == 9
  {
    var text := PythonFence + Fence + rest;
    assert OccursAt(text, PythonFence, 0) by { assert text[0..9] == PythonFence; }
    IndexOfIsFirst(text, PythonFence);
    LastIndexOfIsLast(text, Fence);
    assert OccursAt(text, Fence, 9) by { assert text[9..12] == Fence; }
    NoFenceAfterNine(rest);
  }

  /** Without a "```python" fence only a text that starts with '{' and ends with '}'
      is parsed; any other shape, or a parse failure, gives null. */
  lemma {:induction false} JsonFallback(text: string, parse: string -> JsonParse)
    requires IndexOf(text, PythonFence) == -1
    ensures !(StartsWith(text, "{") && EndsWith(text, "}")) ==> ExtractPython(text, parse) == Returns(None)
    ensures StartsWith(text, "{") && EndsWith(text, "}") ==>
      ExtractPython(text, parse) == match parse(text)
        case ParsedTool(code) => Returns(code)
        case ParsedNull => Throws
        case ParseError => Returns(None)
  {
    if StartsWith(text, "{") && EndsWith(text, "}") {
      assert text[0] == '{' && text[|text| - 1] == '}';
      TrimKeepsBracedText(text);
    }
  }

  /** What `GeminiClient.generate` gives back: an exception, a response without a
      first candidate or first part (so `getCandidates().get(0)` or
      `getParts().get(0)` throws), or the text of the first candidate's first
      part, which may be null. */
  datatype Generation = GenerateFailed | NoCandidate | Generated(text: JString)

  /** `genManaimCode` after its database lookup: a stored row for the md5 is
      returned as-is; otherwise the model's reply goes through the extraction.
      The exception of `generate` is caught and gives null; reading the reply
      (line 210) is outside the `try`, so a missing candidate or a null text throws. */
  function GenManaimCode(stored: JString, gen: Generation, parse: string -> JsonParse): (r: Completion<JString>)
    ensures stored.Some? ==> r == Returns(stored)
    ensures r.Throws? ==> stored.None? && !gen.GenerateFailed?
    ensures stored.None? && gen.GenerateFailed? ==> r == Returns(None)
    ensures stored.None? && (gen.NoCandidate? || gen == Generated(None)) ==> r.Throws?
    ensures stored.None? && gen.Generated? && gen.text.Some? ==> r == ExtractPython(gen.text.value, parse)
  {
    if stored.Some? then Returns(stored)
    else match gen
      case GenerateFailed => Returns(None)
      case NoCandidate => Throws
      case Generated(None) => Throws
      case Generated(Some(text)) => ExtractPython(text, parse)
  }

  /* ---------- MainimService: the "```json" slice ---------- */

  /** How `code.substring(indexOf + 7, code.length() - 3)` ends. Java slices code
      units, and `length() - 3` may fall inside a surrogate pair, so the slice is a
      sequence of code units. */
  datatype JsonSlice = NoJsonFence | Sliced(json: seq<CodeUnit>) | SliceThrows

  function SliceJson(code: string): (r: JsonSlice)
    ensures r.NoJsonFence? <==> IndexOf(code, JsonFence) == -1
    ensures r.Sliced? ==> |r.json| + 3 <= JLength(code)
  {
    var i := IndexOf(code, JsonFence);
    if i == -1 then NoJsonFence
    else match Substring(Utf16(code), JIndex(code, i) + 7, JLength(code) - 3)
      case Some(json) => Sliced(json)
      case None => SliceThrows
  }

  /** The slice runs from just after the first "```json" to three code units
      before the end, whatever those three are; it throws exactly when the fence
      is too close to the end for that range to exist. */
  lemma SliceJsonCases(code: string)
    ensures var i := IndexOf(code, JsonFence);
      && (SliceJson(code) == NoJsonFence <==> i == -1)
      && (i != -1 ==> 0 <= i && i + 7 <= |code| && JIndex(code, i + 7) == JIndex(code, i) + 7)
      && (SliceJson(code) == SliceThrows <==> i != -1 && JIndex(code, i) + 10 > JLength(code))
      && (SliceJson(code).Sliced? ==>
            SliceJson(code).json + Utf16(code)[JLength(code) - 3..] == Utf16(code[i + 7..]))
  {
    IndexOfIsFirst(code, JsonFence);
    var i := IndexOf(code, JsonFence);
    if i != -1 {
      SliceJsonAt(code, i);
    }
  }

  /** SliceJsonCases once the fence is found at character i. */
  lemma SliceJsonAt(code: string, i: nat)
    requires i == IndexOf(code, JsonFence) && OccursAt(code, JsonFence, i)
    ensures JIndex(code, i + 7) == JIndex(code, i) + 7
    ensures SliceJson(code) == SliceThrows <==> JIndex(code, i) + 10 > JLength(code)
    ensures SliceJson(code).Sliced? ==>
      SliceJson(code).json + Utf16(code)[JLength(code) - 3..] == Utf16(code[i + 7..])
  {
    FenceUnits(code, i);
    var u, n, b := Utf16(code), JLength(code), JIndex(code, i) + 7;
    assert JIndex(code, i) == JLength(code[..i]);
    var sub := Substring(u, b, n - 3);
    assert SliceJson(code) == if sub.Some? then Sliced(sub.value) else SliceThrows;
    if b + 3 <= n {
      assert sub.value == u[b..n - 3];
      assert u[b..n - 3] + u[n - 3..] == u[b..];
    }
  }

  /** The code units after a "```json" at character i are the UTF-16 form of the
      characters after it. */
  lemma FenceUnits(code: string, i: nat)
    requires OccursAt(code, JsonFence, i)
    ensures JIndex(code, i + 7) == JIndex(code, i) + 7 <= JLength(code)
    ensures Utf16(code)[JIndex(code, i + 7)..] == Utf16(code[i + 7..])
  {
    FencesAreBmp();
    JIndexOverBmp(code, i, i + 7);
    assert code[..i + 7] + code[i + 7..] == code;
    Utf16Append(code[..i + 7], code[i + 7..]);
  }

  /** Without characters above U+FFFF the slice is the characters from just
      after the fence to three before the end. */
  lemma SliceJsonBmp(code: string)
    requires AllBmp(code)
    ensures var i := IndexOf(code, JsonFence);
      && (SliceJson(code) == SliceThrows <==> i != -1 && i + 10 > |code|)
      && (SliceJson(code).Sliced? ==> SliceJson(code).json == Utf16(code[i + 7..|code| - 3]))
  {
    IndexOfIsFirst(code, JsonFence);
    var i := IndexOf(code, JsonFence);
    if i != -1 {
      assert OccursAt(code, JsonFence, i);
      assert code[..|code|] == code && code[..0] == [];
      JIndexOverBmp(code, 0, i);
      JIndexOverBmp(code, 0, |code|);
      if i + 10 <= |code| {
        var mid := code[i + 7..|code| - 3];
        assert AllBmp(mid) by {
          forall m | 0 <= m < |mid|
            ensures InBmp(mid[m])
          {
            assert mid[m] == code[i + 7 + m];
          }
        }
        BmpUtf16(code);
        BmpUtf16(mid);
      }
    }
  }

  /** A fenced JSON block "```json" + body + "```" yields exactly the code units of its body. */
  lemma FencedJsonBody(prefix: string, body: string)
    requires IndexOf(prefix + JsonFence, JsonFence) == |prefix|
    ensures SliceJson(prefix + JsonFence + body + Fence) == Sliced(Utf16(body))
  {
    var code := prefix + JsonFence + body + Fence;
    FirstJsonFence(prefix, body);
    FencedUnits(prefix, body);
    SlicedValue(code);
  }

  /** When the slice exists it is the code units from seven past the fence to three before the end. */
  lemma SlicedValue(code: string)
    ensures var i := IndexOf(code, JsonFence);
      0 <= i && JIndex(code, i) + 10 <= JLength(code) ==>
      SliceJson(code) == Sliced(Utf16(code)[JIndex(code, i) + 7..JLength(code) - 3])
  {
    IndexOfIsFirst(code, JsonFence);
  }

  /** The first "```json" of prefix + "```json" is still the first once body and the closing fence follow. */
  lemma FirstJsonFence(prefix: string, body: string)
    requires IndexOf(prefix + JsonFence, JsonFence) == |prefix|
    ensures IndexOf(prefix + JsonFence + body + Fence, JsonFence) == |prefix|
  {
    var code := prefix + JsonFence + body + Fence;
    var i := |prefix|;
    IndexOfIsFirst(prefix + JsonFence, JsonFence);
    IndexOfIsFirst(code, JsonFence);
    assert code[i..i + 7] == JsonFence;
    assert OccursAt(code, JsonFence, i);
    forall j | 0 <= j < i
      ensures !OccursAt(code, JsonFence, j)
    {
      assert code[..i + 7] == prefix + JsonFence;
      assert !OccursAt(prefix + JsonFence, JsonFence, j);
    }
  }

  /** The code units of prefix + "```json" + body + "```": the body's own units sit
      seven units after the prefix's, and three units remain after them. */
  lemma FencedUnits(prefix: string, body: string)
    ensures var code := prefix + JsonFence + body + Fence;
      var u, b := Utf16(code), JIndex(code, |prefix|) + 7;
      && JLength(code) == b + |Utf16(body)| + 3
      && u[b..JLength(code) - 3] == Utf16(body)
  {
    assert (prefix + JsonFence + body + Fence)[..|prefix|] == prefix;
    FencesAreBmp();
    BmpUtf16(JsonFence);
    BmpUtf16(Fence);
    Utf16Append(prefix, JsonFence);
    Utf16Append(prefix + JsonFence, body);
    Utf16Append(prefix + JsonFence + body, Fence);
    var u := Utf16(prefix + JsonFence + body + Fence);
    assert u == Utf16(prefix) + Utf16(JsonFence) + Utf16(body) + Utf16(Fence);
  }
}
