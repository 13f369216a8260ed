/** `BotTranslateService`: the translation direction chosen for a private
    message, and the reply it sends. The translator is a parameter. */
module BotTranslate {
  import opened JavaText

  /** The characters Java's `.` does not match without DOTALL. */
  predicate IsLineTerminator(c: char)
  {
    c == '\n' || c == '\r' || c == '\U{0085}' || c == '\U{2028}' || c == '\U{2029}'
  }

  /** The class `[\u4e00-\u9fa5]`. */
  predicate IsHan(c: char)
  {
    '\U{4E00}' <= c <= '\U{9FA5}'
  }

  predicate AllDot(s: string)
  {
    forall k :: 0 <= k < |s| ==> !IsLineTerminator(s[k])
  }

  predicate AllHan(s: string)
  {
    forall k :: 0 <= k < |s| ==> IsHan(s[k])
  }

  /** `s.matches(".*[\u4e00-\u9fa5]+.*")`: the whole of `s` is some `.`s, one
      or more characters of the class, then more `.`s. */
  ghost predicate RegexMatches(s: string)
  {
    exists i, j :: 0 <= i < j <= |s| && AllDot(s[..i]) && AllHan(s[i..j]) && AllDot(s[j..])
  }

  /** The scan that decides the regex: no line terminator, and some character in range. */
  function NoTerminator(s: string): bool
    decreases |s|
  {
    s == [] || (!IsLineTerminator(s[0]) && NoTerminator(s[1..]))
  }

  function HasHan(s: string): bool
    decreases |s|
  {
    s != [] && (IsHan(s[0]) || HasHan(s[1..]))
  }

  /** `containsChinese`: a non-null text with no line terminator and some
      character in U+4E00..U+9FA5. */
  function ContainsChinese(text: JString): (r: bool)
    ensures r <==> text.Some? && AllDot(text.value) && exists k :: 0 <= k < |text.value| && IsHan(text.value[k])
  {
    if text.None? then false
    else
      NoTerminatorIsAllDot(text.value);
      HasHanIsSome(text.value);
      text.value != [] && NoTerminator(text.value) && HasHan(text.value)
  }

  lemma {:induction false} NoTerminatorIsAllDot(s: string)
    ensures NoTerminator(s) <==> AllDot(s)
    decreases |s|
  {
    if s != [] {
      NoTerminatorIsAllDot(s[1..]);
      assert forall k :: 1 <= k < |s| ==> s[1..][k - 1] == s[k];
    }
  }

  lemma {:induction false} HasHanIsSome(s: string)
    ensures HasHan(s) <==> exists k :: 0 <= k < |s| && IsHan(s[k])
    decreases |s|
  {
    if s != [] {
      HasHanIsSome(s[1..]);
      if HasHan(s[1..]) {
        var k :| 0 <= k < |s[1..]| && IsHan(s[1..][k]);
        assert IsHan(s[k + 1]);
      }
      if k :| 0 <= k < |s| && IsHan(s[k]) {
        if k > 0 {
          assert IsHan(s[1..][k - 1]);
        }
      }
    }
  }

  /** The scan agrees with the regex, both ways. */
  lemma ContainsChineseIsRegex(s: string)
    ensures ContainsChinese(Some(s)) <==> RegexMatches(s)
  {
    NoTerminatorIsAllDot(s);
    HasHanIsSome(s);
    if ContainsChinese(Some(s)) {
      var k :| 0 <= k < |s| && IsHan(s[k]);
      assert AllDot(s[..k]) && AllHan(s[k..k + 1]) && AllDot(s[k + 1..]);
    }
    if RegexMatches(s) {
      var i, j :| 0 <= i < j <= |s| && AllDot(s[..i]) && AllHan(s[i..j]) && AllDot(s[j..]);
      assert IsHan(s[i..j][0]);
      forall k | 0 <= k < |s|
        ensures !IsLineTerminator(s[k])
      {
        if k < i {
          assert s[k] == s[..i][k];
        } else if k < j {
          assert s[k] == s[i..j][k - i];
        } else {
          assert s[k] == s[j..][k - j];
        }
      }
    }
  }

  /** Null and the empty text contain no Chinese. */
  lemma EmptyIsNotChinese()
    ensures !ContainsChinese(None) && !ContainsChinese(Some(""))
  {
  }

  /** A line terminator anywhere defeats the match, whatever else the text holds. */
  lemma LineTerminatorDefeatsMatch(s: string, k: nat)
    requires k < |s| && IsLineTerminator(s[k])
    ensures !ContainsChinese(Some(s))
  {
    NoTerminatorIsAllDot(s);
  }

  /** `TranslatorTextVo` */
  datatype TranslatorText = TranslatorText(srcText: JString, srcLang: string, destLang: string)

  /** The request of `index`: Chinese to English for text with Chinese, English
      to Chinese otherwise, with the message text as it came. */
  function TranslateRequest(text: JString): (r: TranslatorText)
    ensures r.srcText == text && r.srcLang != r.destLang
    ensures r.srcLang == "Chinese" <==> ContainsChinese(text)
    ensures r.destLang == "Chinese" <==> !ContainsChinese(text)
  {
    if ContainsChinese(text) then TranslatorText(text, "Chinese", "English")
    else TranslatorText(text, "English", "Chinese")
  }

  /** What `TranslatorService.translate` does: a translation, or an exception with its message. */
  datatype Translation = Translated(text: JString) | Failed(message: JString)

  /** The markdown message sent back. */
  datatype Reply = Reply(chatId: int, text: JString)

  /** `index` for a message `text` from chat `chatId`: the reply goes to the
      chat the message came from, with the translation, or with "Exception: "
      and the message of a failed translation. */
  function TranslateReply(chatId: int, text: JString, translate: (string, TranslatorText) -> Translation): (r: Reply)
    ensures r.chatId == chatId
    ensures var t := translate(LongToString(chatId), TranslateRequest(text));
      && (t.Failed? ==> r.text == Some("Exception: " + Render(t.message)))
      && (t.Translated? ==> r.text == t.text)
  {
    var response :=
      match translate(LongToString(chatId), TranslateRequest(text))
      case Translated(t) => t
      case Failed(m) => Some(Concat("Exception: ", m));
    Reply(chatId, response)
  }

  /** `Long.toString`, in decimal with a leading minus for negatives. */
  function LongToString(n: int): (r: string)
    ensures r != [] && (r[0] == '-' <==> n < 0)
    ensures forall k :: (if n < 0 then 1 else 0) <= k < |r| ==> '0' <= r[k] <= '9'
    decreases if n < 0 then 1 - n else n
  {
    if n < 0 then "-" + LongToString(-n)
    else if n < 10 then [DigitChar(n)]
    else LongToString(n / 10) + [DigitChar(n % 10)]
  }

  function DigitChar(d: int): char
    requires 0 <= d < 10
  {
    ['0', '1', '2', '3', '4', '5', '6', '7', '8', '9'][d]
  }
}
