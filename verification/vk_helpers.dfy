/**
 * Helpers for the VK front end (app/utils/vk_helpers.py): message truncation, HTML
 * escaping, attachment strings, list chunking, profile links and status labels.
 * Character classes are ASCII: Python's `\w`, `\d` and `str.lower` also accept other
 * Unicode letters and digits, which the model does not.
 */
module VkHelpers {
  import opened Text
  import opened Pagination
  import opened Formatting

  /** `truncate_text` (defaults 4096 and "..."): long text is cut so that it ends in the suffix. */
  function TruncateText(text: string, maxLength: int, suffix: string): (r: string)
    ensures |text| <= maxLength ==> r == text
    ensures |text| > maxLength >= |suffix| ==>
      |r| == maxLength && r == text[..maxLength - |suffix|] + suffix
  {
    if |text| <= maxLength then text else SliceTo(text, maxLength - |suffix|) + suffix
  }

  /** The Telegram name shortener is the VK truncation with the "..." suffix. */
  lemma ProductNameIsTruncation(name: string, maxLength: int)
    ensures FormatProductName(name, maxLength) == TruncateText(name, maxLength, "...")
  {
  }

  // ---------------------------------------------------------------- HTML escaping

  /** The replacements `escape_html` applies, in dictionary order: "&" comes first. */
  const HTML_REPLACEMENTS: seq<(char, string)> :=
    [('&', "&amp;"), ('<', "&lt;"), ('>', "&gt;"), ('"', "&quot;"), ('\'', "&#39;")]

  /** The characters that must not appear raw in escaped text. */
  predicate IsHtmlSpecial(c: char) { c == '<' || c == '>' || c == '"' || c == '\'' }

  /** `str.replace` with a one-character pattern: every occurrence is replaced. */
  function ReplaceChar(s: string, target: char, replacement: string): (r: string)
    ensures (forall i :: 0 <= i < |s| ==> s[i] != target) ==> r == s
  {
    if s == [] then []
    else (if s[0] == target then replacement else [s[0]]) + ReplaceChar(s[1..], target, replacement)
  }

  lemma {:induction false} ReplaceCharAppend(a: string, b: string, target: char, replacement: string)
    ensures ReplaceChar(a + b, target, replacement) == ReplaceChar(a, target, replacement) + ReplaceChar(b, target, replacement)
  {
    if a != [] {
      var head := if a[0] == target then replacement else [a[0]];
      assert (a + b)[0] == a[0] && (a + b)[1..] == a[1..] + b;
      assert ReplaceChar(a + b, target, replacement) == head + ReplaceChar(a[1..] + b, target, replacement);
      ReplaceCharAppend(a[1..], b, target, replacement);
      assert ReplaceChar(a, target, replacement) == head + ReplaceChar(a[1..], target, replacement);
    } else {
      assert a + b == b;
    }
  }

  /** The entity each character becomes. */
  function Entity(c: char): string
  {
    if c == '&' then "&amp;"
    else if c == '<' then "&lt;"
    else if c == '>' then "&gt;"
    else if c == '"' then "&quot;"
    else if c == '\'' then "&#39;"
    else [c]
  }

  /** HTML-escaped text, one character at a time: no raw <, >, " or ' is left. */
  function HtmlEscaped(s: string): (r: string)
    ensures forall i :: 0 <= i < |r| ==> !IsHtmlSpecial(r[i])
  {
    if s == [] then []
    else
      var head, rest := Entity(s[0]), HtmlEscaped(s[1..]);
      assert forall i :: 0 <= i < |head| ==> !IsHtmlSpecial(head[i]);
      assert forall i :: |head| <= i < |head + rest| ==> (head + rest)[i] == rest[i - |head|];
      head + rest
  }

  /** What one character has become after the first `k` replacements. */
  function EntityAfter(c: char, k: nat): string
    requires k <= |HTML_REPLACEMENTS|
  {
    if k == 0 then [c]
    else ReplaceChar(EntityAfter(c, k - 1), HTML_REPLACEMENTS[k - 1].0, HTML_REPLACEMENTS[k - 1].1)
  }

  /** The text after the first `k` replacements, character by character. */
  function PartiallyEscaped(s: string, k: nat): string
    requires k <= |HTML_REPLACEMENTS|
  {
    if s == [] then [] else EntityAfter(s[0], k) + PartiallyEscaped(s[1..], k)
  }

  lemma {:induction false} NothingEscapedYet(s: string)
    ensures PartiallyEscaped(s, 0) == s
  {
    if s != [] {
      NothingEscapedYet(s[1..]);
    }
  }

  /** One more replacement over the whole text is one more replacement of each character. */
  lemma {:induction false} ReplacementStep(s: string, k: nat)
    requires k < |HTML_REPLACEMENTS|
    ensures ReplaceChar(PartiallyEscaped(s, k), HTML_REPLACEMENTS[k].0, HTML_REPLACEMENTS[k].1) == PartiallyEscaped(s, k + 1)
  {
    if s != [] {
      ReplacementStep(s[1..], k);
      ReplaceCharAppend(EntityAfter(s[0], k), PartiallyEscaped(s[1..], k), HTML_REPLACEMENTS[k].0, HTML_REPLACEMENTS[k].1);
    }
  }

  lemma ReplaceSingle(c: char, target: char, replacement: string)
    ensures ReplaceChar([c], target, replacement) == if c == target then replacement else [c]
  {
    assert [c][1..] == [];
  }

  /** A character no replacement before step `k` looks for is still itself. */
  lemma {:induction false} StaysSingle(c: char, k: nat)
    requires k <= |HTML_REPLACEMENTS|
    requires forall j :: 0 <= j < k ==> HTML_REPLACEMENTS[j].0 != c
    ensures EntityAfter(c, k) == [c]
  {
    if k > 0 {
      StaysSingle(c, k - 1);
      ReplaceSingle(c, HTML_REPLACEMENTS[k - 1].0, HTML_REPLACEMENTS[k - 1].1);
    }
  }

  /** Text none of the remaining replacements looks for is left alone by them. */
  lemma {:induction false} StaysFrom(c: char, k: nat, e: string)
    requires k <= |HTML_REPLACEMENTS| && EntityAfter(c, k) == e
    requires forall j :: k <= j < |HTML_REPLACEMENTS| ==> HTML_REPLACEMENTS[j].0 !in e
    ensures EntityAfter(c, |HTML_REPLACEMENTS|) == e
    decreases |HTML_REPLACEMENTS| - k
  {
    if k < |HTML_REPLACEMENTS| {
      assert HTML_REPLACEMENTS[k].0 !in e;
      StaysFrom(c, k + 1, e);
    }
  }

  /** The character replaced at step `k` keeps its entity through the later steps. */
  lemma ReplacedAt(c: char, k: nat)
    requires k < |HTML_REPLACEMENTS| && HTML_REPLACEMENTS[k].0 == c
    requires forall j :: 0 <= j < k ==> HTML_REPLACEMENTS[j].0 != c
    requires forall j :: k < j < |HTML_REPLACEMENTS| ==> HTML_REPLACEMENTS[j].0 !in HTML_REPLACEMENTS[k].1
    ensures EntityAfter(c, |HTML_REPLACEMENTS|) == HTML_REPLACEMENTS[k].1
  {
    StaysSingle(c, k);
    ReplaceSingle(c, c, HTML_REPLACEMENTS[k].1);
    StaysFrom(c, k + 1, HTML_REPLACEMENTS[k].1);
  }

  /**
   * After all five replacements each character is its entity: the entities written by an
   * earlier replacement hold none of the characters a later one looks for, because "&"
   * is replaced first.
   */
  lemma EntityAfterAll(c: char)
    ensures EntityAfter(c, |HTML_REPLACEMENTS|) == Entity(c)
  {
    if c == '&' {
      ReplacedAt(c, 0);
    } else if c == '<' {
      ReplacedAt(c, 1);
    } else if c == '>' {
      ReplacedAt(c, 2);
    } else if c == '"' {
      ReplacedAt(c, 3);
    } else if c == '\'' {
      ReplacedAt(c, 4);
    } else {
      StaysSingle(c, |HTML_REPLACEMENTS|);
    }
  }

  lemma {:induction false} FullyEscaped(s: string)
    ensures PartiallyEscaped(s, |HTML_REPLACEMENTS|) == HtmlEscaped(s)
  {
    if s != [] {
      EntityAfterAll(s[0]);
      FullyEscaped(s[1..]);
    }
  }

  /** `escape_html`: the text is rewritten once per replacement, in dictionary order. */
  method EscapeHtml(text: string) returns (r: string)
    ensures r == HtmlEscaped(text)
  {
    r := text;
    NothingEscapedYet(text);
    for k := 0 to |HTML_REPLACEMENTS|
      invariant r == PartiallyEscaped(text, k)
    {
      var (target, replacement) := HTML_REPLACEMENTS[k];
      ReplacementStep(text, k);
      r := ReplaceChar(r, target, replacement);
    }
    FullyEscaped(text);
  }

  /** The reading a browser applies to the five entities. */
  function HtmlUnescaped(s: string): string
  {
    if s == [] then []
    else if "&amp;" <= s then "&" + HtmlUnescaped(s[5..])
    else if "&lt;" <= s then "<" + HtmlUnescaped(s[4..])
    else if "&gt;" <= s then ">" + HtmlUnescaped(s[4..])
    else if "&quot;" <= s then "\"" + HtmlUnescaped(s[6..])
    else if "&#39;" <= s then "'" + HtmlUnescaped(s[5..])
    else [s[0]] + HtmlUnescaped(s[1..])
  }

  /** Decoding the entities gives back the text. */
  lemma {:induction false} HtmlRoundTrip(text: string)
    ensures HtmlUnescaped(HtmlEscaped(text)) == text
  {
    if text != [] {
      HtmlRoundTrip(text[1..]);
      var e, rest := Entity(text[0]), HtmlEscaped(text[1..]);
      var s := e + rest;
      assert HtmlEscaped(text) == s;
      assert s[|e|..] == rest;
      if text[0] == '&' {
        assert s[..5] == "&amp;";
      } else if text[0] == '<' {
        assert s[..4] == "&lt;" && s[1] != "&amp;"[1];
      } else if text[0] == '>' {
        assert s[..4] == "&gt;" && s[1] != "&amp;"[1] && s[1] != "&lt;"[1];
      } else if text[0] == '"' {
        assert s[..6] == "&quot;" && s[1] != "&amp;"[1] && s[1] != "&lt;"[1] && s[1] != "&gt;"[1];
      } else if text[0] == '\'' {
        assert s[..5] == "&#39;" && s[1] != "&amp;"[1] && s[1] != "&lt;"[1] && s[1] != "&gt;"[1] && s[1] != "&quot;"[1];
      } else {
        assert s[0] == text[0] && s[0] != '&';
      }
    }
  }

  // ---------------------------------------------------------------- attachments

  /** A parsed attachment reference: type, owner id and media id. */
  datatype Attachment = Attachment(kind: string, ownerId: int, mediaId: int)

  /** `build_vk_attachment`: `{type}{owner_id}_{media_id}`. */
  function BuildAttachment(kind: string, ownerId: int, mediaId: int): string
  {
    kind + IntToString(ownerId) + "_" + IntToString(mediaId)
  }

  datatype CharClass = WordChars | Digits | Letters

  predicate InClass(c: char, cls: CharClass)
  {
    match cls
    case WordChars => IsWordChar(c)
    case Digits => IsDigit(c)
    case Letters => IsLetter(c)
  }

  /** The length of the longest run of `cls` characters starting at `i`. */
  function Run(s: string, i: nat, cls: CharClass): (n: nat)
    requires i <= |s|
    ensures i + n <= |s|
    ensures forall j :: i <= j < i + n ==> InClass(s[j], cls)
    ensures i + n == |s| || !InClass(s[i + n], cls)
    decreases |s| - i
  {
    if i < |s| && InClass(s[i], cls) then 1 + Run(s, i + 1, cls) else 0
  }

  lemma {:induction false} RunIs(s: string, i: nat, cls: CharClass, n: nat)
    requires i + n <= |s|
    requires forall j :: i <= j < i + n ==> InClass(s[j], cls)
    requires i + n == |s| || !InClass(s[i + n], cls)
    ensures Run(s, i, cls) == n
    decreases n
  {
    if n > 0 {
      RunIs(s, i + 1, cls, n - 1);
    }
  }

  /** The value of the digits `s[lo..hi]`, read left to right. */
  function DigitsIn(s: string, lo: nat, hi: nat): nat
    requires lo <= hi <= |s| && forall j :: lo <= j < hi ==> IsDigit(s[j])
    decreases hi - lo
  {
    if hi == lo then 0 else DigitsIn(s, lo, hi - 1) * 10 + DigitValue(s[hi - 1])
  }

  /** Digits inside `s` read as the same string taken on its own. */
  lemma {:induction false} DigitsInValue(s: string, lo: nat, hi: nat, n: string)
    requires lo <= hi <= |s| && s[lo..hi] == n && AllDigits(n)
    ensures forall j :: lo <= j < hi ==> IsDigit(s[j])
    ensures DigitsIn(s, lo, hi) == DigitsValue(n)
    decreases hi - lo
  {
    forall j | lo <= j < hi
      ensures IsDigit(s[j])
    {
      assert s[j] == n[j - lo];
    }
    if hi > lo {
      assert s[lo..hi - 1] == n[..|n| - 1];
      DigitsInValue(s, lo, hi - 1, n[..|n| - 1]);
      assert s[hi - 1] == n[|n| - 1];
    }
  }

  /**
   * The part `\d+_(\d+)` of the pattern matched from position `p`: the owner digits must be
   * the whole digit run (a shorter one would be followed by a digit rather than "_"), then
   * "_", then the media id takes the whole digit run after it.
   */
  function TailAt(s: string, p: nat): (r: Option<(nat, nat)>)
    requires p <= |s|
  {
    var d := Run(s, p, Digits);
    if d >= 1 && p + d < |s| && s[p + d] == '_' && Run(s, p + d + 1, Digits) >= 1 then
      var m := Run(s, p + d + 1, Digits);
      Some((DigitsIn(s, p, p + d), DigitsIn(s, p + d + 1, p + d + 1 + m)))
    else None
  }

  /**
   * The regular expression `(\w+)(-?\d+)_(\d+)` matched at the start of `s` with its first
   * group ending at `i`: a minus is taken when present (without it the owner would have to
   * start with "-", which is no digit), then the tail.
   */
  function MatchAt(s: string, i: nat): (r: Option<Attachment>)
    requires i <= |s|
    ensures r.Some? ==> r.value.kind == s[..i]
  {
    var negative := i < |s| && s[i] == '-';
    var tail := TailAt(s, if negative then i + 1 else i);
    if tail.None? then None
    else Some(Attachment(s[..i], if negative then -(tail.value.0 as int) else tail.value.0 as int, tail.value.1))
  }

  /** The regex engine's backtracking over the first group: longest first, down to one character. */
  function SearchFrom(s: string, i: nat): Option<Attachment>
    requires i <= |s|
  {
    if i == 0 then None
    else if MatchAt(s, i).Some? then MatchAt(s, i)
    else SearchFrom(s, i - 1)
  }

  /** `parse_vk_attachment` as written: `re.match(r"(\w+)(-?\d+)_(\d+)", s)`. */
  function ParseAttachment(s: string): Option<Attachment>
  {
    SearchFrom(s, Run(s, 0, WordChars))
  }

  /** The parser with the type restricted to letters, `([A-Za-z]+)(-?\d+)_(\d+)`. */
  function ParseAttachmentLetters(s: string): Option<Attachment>
  {
    var n := Run(s, 0, Letters);
    if n >= 1 then MatchAt(s, n) else None
  }

  lemma {:induction false} SearchSkips(s: string, hi: nat, lo: nat)
    requires lo <= hi <= |s|
    requires forall j :: lo < j <= hi ==> MatchAt(s, j).None?
    ensures SearchFrom(s, hi) == SearchFrom(s, lo)
    decreases hi - lo
  {
    if hi > lo {
      SearchSkips(s, hi - 1, lo);
    }
  }

  /** The tail matches when digits, "_" and digits to the end follow `p`. */
  lemma TailLayout(s: string, p: nat, d: nat)
    requires d >= 1 && p + d + 1 < |s| && s[p + d] == '_'
    requires forall j :: p <= j < p + d ==> IsDigit(s[j])
    requires forall j :: p + d + 1 <= j < |s| ==> IsDigit(s[j])
    ensures TailAt(s, p) == Some((DigitsIn(s, p, p + d), DigitsIn(s, p + d + 1, |s|)))
  {
    RunIs(s, p, Digits, d);
    RunIs(s, p + d + 1, Digits, |s| - (p + d + 1));
  }

  /** The tail fails when the digits after `p` run to the end, or when none follow. */
  lemma TailFails(s: string, p: nat)
    requires p <= |s|
    requires (forall j :: p <= j < |s| ==> IsDigit(s[j])) || (p < |s| && !IsDigit(s[p]))
    ensures TailAt(s, p).None?
  {
    if forall j :: p <= j < |s| ==> IsDigit(s[j]) {
      RunIs(s, p, Digits, |s| - p);
    } else {
      RunIs(s, p, Digits, 0);
    }
  }

  lemma NatToStringShort(n: nat)
    ensures |NatToString(n)| == 1 <==> n < 10
    ensures n >= 10 ==> NatToString(n) == NatToString(n / 10) + [DigitChar(n % 10)]
  {
  }

  /** The tail reads `n` and `m` back when `n`, "_", `m` follow `p` to the end. */
  lemma TailParts(s: string, p: nat, n: string, m: string)
    requires n != [] && m != [] && AllDigits(n) && AllDigits(m)
    requires p + |n| + 1 < |s| && s[p..p + |n|] == n && s[p + |n|] == '_' && s[p + |n| + 1..] == m
    ensures TailAt(s, p) == Some((DigitsValue(n), DigitsValue(m)))
  {
    var q := p + |n| + 1;
    assert s[q..|s|] == m;
    DigitsInValue(s, p, q - 1, n);
    DigitsInValue(s, q, |s|, m);
    TailLayout(s, p, |n|);
  }

  /** "-", `n`, "_", `m` after the type: the match ending the type there succeeds. */
  lemma MatchAfterMinus(s: string, kind: string, n: string, m: string)
    requires n != [] && m != [] && AllDigits(n) && AllDigits(m)
    requires MinusLayoutAt(s, kind, n, m)
    ensures MatchAt(s, |kind|) == Some(Attachment(kind, -(DigitsValue(n) as int), DigitsValue(m)))
  {
    var k := |kind|;
    TailParts(s, k + 1, n, m);
    assert k < |s| && s[k] == '-';
  }

  /** `s` is `kind`, "-", `n`, "_", `m` with a letters-only `kind`. */
  predicate MinusLayoutAt(s: string, kind: string, n: string, m: string)
  {
    var k, d := |kind|, |n|;
    && k + d + 2 <= |s| && s[..k] == kind && s[k] == '-' && s[k + 1..k + 1 + d] == n && s[k + 1 + d] == '_'
    && s[k + d + 2..] == m && forall j :: 0 <= j < k ==> IsLetter(s[j])
  }

  /** Letters, "-", digits, "_", digits, as written: the minus ends the first group. */
  lemma ParseAfterMinusAsWritten(s: string, kind: string, n: string, m: string, ownerId: int, mediaId: int)
    requires kind != [] && n != [] && m != [] && AllDigits(n) && AllDigits(m)
    requires MinusLayoutAt(s, kind, n, m)
    requires -(DigitsValue(n) as int) == ownerId && DigitsValue(m) == mediaId
    ensures ParseAttachment(s) == Some(Attachment(kind, ownerId, mediaId))
  {
    MatchAfterMinus(s, kind, n, m);
    RunIs(s, 0, WordChars, |kind|);
  }

  /** Letters, "-", digits, "_", digits, letters-only type: the same split. */
  lemma ParseAfterMinusLetters(s: string, kind: string, n: string, m: string, ownerId: int, mediaId: int)
    requires kind != [] && n != [] && m != [] && AllDigits(n) && AllDigits(m)
    requires MinusLayoutAt(s, kind, n, m)
    requires -(DigitsValue(n) as int) == ownerId && DigitsValue(m) == mediaId
    ensures ParseAttachmentLetters(s) == Some(Attachment(kind, ownerId, mediaId))
  {
    MatchAfterMinus(s, kind, n, m);
    RunIs(s, 0, Letters, |kind|);
  }

  /** The last character of `str(n)` is the digit n % 10. */
  lemma LastDigit(n: nat)
    ensures var o := NatToString(n); DigitValue(o[|o| - 1]) == n % 10
  {
  }

  /** Where the pieces of `kind + "-" + n + "_" + m` sit. */
  lemma MinusLayout(kind: string, n: string, m: string)
    requires AllLetters(kind)
    ensures MinusLayoutAt(kind + (['-'] + n) + ['_'] + m, kind, n, m)
  {
    var s, k := kind + (['-'] + n) + ['_'] + m, |kind|;
    assert s[..k] == kind;
    forall j | 0 <= j < k
      ensures IsLetter(s[j])
    {
      assert s[j] == kind[j];
    }
  }

  /** The digits after the minus read back as the owner id's magnitude. */
  lemma NegativeDigits(ownerId: int)
    requires ownerId < 0
    ensures -(DigitsValue(NatToString(-ownerId)) as int) == ownerId
  {
    NatToStringRoundTrip(-ownerId);
  }

  /** A negative owner, as written: the minus stops the first group right after the type. */
  lemma NegativeOwnerAsWritten(kind: string, ownerId: int, mediaId: nat)
    requires kind != [] && AllLetters(kind) && ownerId < 0
    ensures ParseAttachment(BuildAttachment(kind, ownerId, mediaId)) == Some(Attachment(kind, ownerId, mediaId))
  {
    var n, m := NatToString(-ownerId), NatToString(mediaId);
    NegativeDigits(ownerId);
    NatToStringRoundTrip(mediaId);
    var s := kind + (['-'] + n) + ['_'] + m;
    MinusLayout(kind, n, m);
    ParseAfterMinusAsWritten(s, kind, n, m, ownerId, mediaId);
    assert BuildAttachment(kind, ownerId, mediaId) == s;
  }

  /** A negative owner, letters-only type: the same. */
  lemma NegativeOwnerLetters(kind: string, ownerId: int, mediaId: nat)
    requires kind != [] && AllLetters(kind) && ownerId < 0
    ensures ParseAttachmentLetters(BuildAttachment(kind, ownerId, mediaId)) == Some(Attachment(kind, ownerId, mediaId))
  {
    var n, m := NatToString(-ownerId), NatToString(mediaId);
    NegativeDigits(ownerId);
    NatToStringRoundTrip(mediaId);
    var s := kind + (['-'] + n) + ['_'] + m;
    MinusLayout(kind, n, m);
    ParseAfterMinusLetters(s, kind, n, m, ownerId, mediaId);
    assert BuildAttachment(kind, ownerId, mediaId) == s;
  }

  /** Every end of the first group beyond the owner's last digit fails to match. */
  lemma NoMatchPastOwner(s: string, u: nat)
    requires 0 < u < |s| && s[u] == '_'
    requires forall j :: u < j < |s| ==> IsDigit(s[j])
    ensures forall j :: u - 1 < j <= |s| ==> MatchAt(s, j).None?
  {
    forall j | u - 1 < j <= |s| ensures MatchAt(s, j).None? {
      TailFails(s, j);
    }
  }

  /**
   * Word characters only, ending in digits, "_", digits: the greedy first group backtracks
   * to one character before the "_", leaving a single digit to the owner.
   */
  lemma ParseAllWord(s: string, u: nat)
    requires 2 <= u && u + 1 < |s| && s[u] == '_' && IsDigit(s[u - 1])
    requires forall j :: 0 <= j < |s| ==> IsWordChar(s[j])
    requires forall j :: u + 1 <= j < |s| ==> IsDigit(s[j])
    ensures ParseAttachment(s) == Some(Attachment(s[..u - 1], DigitValue(s[u - 1]), DigitsIn(s, u + 1, |s|)))
  {
    RunIs(s, 0, WordChars, |s|);
    NoMatchPastOwner(s, u);
    SearchSkips(s, |s|, u - 1);
    assert ParseAttachment(s) == SearchFrom(s, u - 1);
    TailLayout(s, u - 1, 1);
    assert s[u - 1] != '-';
    assert DigitsIn(s, u - 1, u) == DigitValue(s[u - 1]);
    assert MatchAt(s, u - 1) == Some(Attachment(s[..u - 1], DigitValue(s[u - 1]), DigitsIn(s, u + 1, |s|)));
  }

  /** Letters, digits, "_", digits: the letters-only parser splits after the letters. */
  lemma ParseLettersFirst(s: string, k: nat, d: nat)
    requires k >= 1 && d >= 1 && k + d + 1 < |s|
    requires forall j :: 0 <= j < k ==> IsLetter(s[j])
    requires s[k + d] == '_'
    requires forall j :: k <= j < k + d ==> IsDigit(s[j])
    requires forall j :: k + d + 1 <= j < |s| ==> IsDigit(s[j])
    ensures ParseAttachmentLetters(s) == Some(Attachment(s[..k], DigitsIn(s, k, k + d), DigitsIn(s, k + d + 1, |s|)))
  {
    RunIs(s, 0, Letters, k);
    TailLayout(s, k, d);
  }

  /**
   * Letters, digits, "_", digits, as written: every character but "_" is a word character,
   * so the first group backtracks only until the owner group is the last digit before "_".
   */
  lemma LettersDigitsParseAsWritten(kind: string, o: string, m: string)
    requires kind != [] && AllLetters(kind) && o != [] && AllDigits(o) && m != [] && AllDigits(m)
    ensures ParseAttachment(kind + o + ['_'] + m)
      == Some(Attachment(kind + o[..|o| - 1], DigitValue(o[|o| - 1]), DigitsValue(m)))
  {
    var s := kind + o + ['_'] + m;
    var u := |kind| + |o|;
    assert s[..u - 1] == kind + o[..|o| - 1] && s[u - 1] == o[|o| - 1] && s[u] == '_' && s[u + 1..|s|] == m;
    forall j | 0 <= j < |s|
      ensures IsWordChar(s[j])
    {
      if j < |kind| {
        assert s[j] == kind[j];
      } else if j < u {
        assert s[j] == o[j - |kind|];
      } else if j > u {
        assert s[j] == m[j - u - 1];
      }
    }
    DigitsInValue(s, u + 1, |s|, m);
    ParseAllWord(s, u);
  }

  /**
   * A non-negative owner, as written: the first group keeps all of the owner's digits but
   * the last.
   */
  lemma NonNegativeOwnerAsWritten(kind: string, ownerId: nat, mediaId: nat)
    requires kind != [] && AllLetters(kind)
    ensures var o := NatToString(ownerId);
      ParseAttachment(BuildAttachment(kind, ownerId, mediaId)) == Some(Attachment(kind + o[..|o| - 1], ownerId % 10, mediaId))
  {
    LastDigit(ownerId);
    NatToStringRoundTrip(mediaId);
    assert BuildAttachment(kind, ownerId, mediaId) == kind + NatToString(ownerId) + ['_'] + NatToString(mediaId);
    LettersDigitsParseAsWritten(kind, NatToString(ownerId), NatToString(mediaId));
  }

  /** Letters, digits, "_", digits: the letters-only parser reads the three parts back. */
  lemma LettersDigitsParse(kind: string, o: string, m: string)
    requires kind != [] && AllLetters(kind) && o != [] && AllDigits(o) && m != [] && AllDigits(m)
    ensures ParseAttachmentLetters(kind + o + ['_'] + m) == Some(Attachment(kind, DigitsValue(o), DigitsValue(m)))
  {
    var s := kind + o + ['_'] + m;
    var k, d := |kind|, |o|;
    assert s[..k] == kind && s[k..k + d] == o && s[k + d] == '_' && s[k + d + 1..|s|] == m;
    forall j | 0 <= j < k
      ensures IsLetter(s[j])
    {
      assert s[j] == kind[j];
    }
    DigitsInValue(s, k, k + d, o);
    DigitsInValue(s, k + d + 1, |s|, m);
    ParseLettersFirst(s, k, d);
  }

  /** A non-negative owner, letters-only type: the type ends where the owner's digits start. */
  lemma NonNegativeOwnerLetters(kind: string, ownerId: nat, mediaId: nat)
    requires kind != [] && AllLetters(kind)
    ensures ParseAttachmentLetters(BuildAttachment(kind, ownerId, mediaId)) == Some(Attachment(kind, ownerId, mediaId))
  {
    NatToStringRoundTrip(ownerId);
    NatToStringRoundTrip(mediaId);
    assert BuildAttachment(kind, ownerId, mediaId) == kind + NatToString(ownerId) + ['_'] + NatToString(mediaId);
    LettersDigitsParse(kind, NatToString(ownerId), NatToString(mediaId));
  }

  /**
   * The parser as written returns what was built exactly when the owner id is negative or a
   * single digit; for a larger owner id the type swallows all of its digits but the last.
   */
  lemma AttachmentRoundTripIff(kind: string, ownerId: int, mediaId: nat)
    requires kind != [] && AllLetters(kind)
    ensures ParseAttachment(BuildAttachment(kind, ownerId, mediaId)) == Some(Attachment(kind, ownerId, mediaId))
      <==> ownerId < 10
    ensures ownerId >= 10 ==>
      ParseAttachment(BuildAttachment(kind, ownerId, mediaId))
        == Some(Attachment(kind + NatToString(ownerId / 10), ownerId % 10, mediaId))
  {
    if ownerId < 0 {
      NegativeOwnerAsWritten(kind, ownerId, mediaId);
    } else {
      NonNegativeOwnerAsWritten(kind, ownerId, mediaId);
      NatToStringShort(ownerId);
      var o := NatToString(ownerId);
      var r := ParseAttachment(BuildAttachment(kind, ownerId, mediaId));
      assert r == Some(Attachment(kind + o[..|o| - 1], ownerId % 10, mediaId));
      if ownerId >= 10 {
        assert o[..|o| - 1] == NatToString(ownerId / 10);
        assert |r.value.kind| > |kind|;
      } else {
        assert o[..|o| - 1] == [];
        assert kind + [] == kind;
        assert ownerId % 10 == ownerId;
      }
    }
  }

  /** The input that shows it: "photo123_456" reads back as type "photo12", owner 3. */
  lemma AttachmentCounterexample()
    ensures BuildAttachment("photo", 123, 456) == "photo123_456"
    ensures ParseAttachment("photo123_456") == Some(Attachment("photo12", 3, 456))
  {
    PhotoDigits();
    AttachmentRoundTripIff("photo", 123, 456);
    assert "photo" + "12" == "photo12";
  }

  lemma PhotoDigits()
    ensures NatToString(12) == "12" && BuildAttachment("photo", 123, 456) == "photo123_456"
  {
    assert NatToString(12) == "12";
    assert NatToString(123) == "123";
    assert NatToString(45) == "45";
    assert NatToString(456) == "456";
  }

  /** With the type restricted to letters every attachment the bot builds reads back. */
  lemma AttachmentLettersRoundTrip(kind: string, ownerId: int, mediaId: nat)
    requires kind != [] && AllLetters(kind)
    ensures ParseAttachmentLetters(BuildAttachment(kind, ownerId, mediaId)) == Some(Attachment(kind, ownerId, mediaId))
  {
    if ownerId < 0 {
      NegativeOwnerLetters(kind, ownerId, mediaId);
    } else {
      NonNegativeOwnerLetters(kind, ownerId, mediaId);
    }
  }

  // ---------------------------------------------------------------- chunking

  /** The lists laid end to end. */
  function Concat<T>(xs: seq<seq<T>>): seq<T>
  {
    if xs == [] then [] else Concat(xs[..|xs| - 1]) + xs[|xs| - 1]
  }

  /**
   * `chunk_list`: `[items[i:i+size] for i in range(0, len(items), size)]`. A zero size makes
   * `range` raise; a negative size makes the range empty.
   */
  function ChunkList<T>(items: seq<T>, size: int): (r: Call<seq<seq<T>>>)
    ensures r.Raised? <==> size == 0
    ensures size < 0 ==> r == Returned([])
    ensures size > 0 ==> |r.value| == TotalPages(|items|, size).value
  {
    if size == 0 then Raised
    else if size < 0 then Returned([])
    else
      var n := TotalPages(|items|, size).value;
      TotalPagesIsCeiling(|items|, size);
      Returned(seq(n, k requires 0 <= k < n => Slice(items, k * size, k * size + size)))
  }

  /** Chunk `k` is page `k` of the list with `size` items per page. */
  lemma ChunkIsPage<T>(items: seq<T>, size: int, k: nat)
    requires size > 0 && k < |ChunkList(items, size).value|
    ensures ChunkList(items, size).value[k] == PaginateItems(items, k, size).items
  {
  }

  /** A page before the last one is full. */
  lemma FullPage<T>(items: seq<T>, page: nat, size: int)
    requires size > 0 && page + 1 < TotalPages(|items|, size).value
    ensures |PaginateItems(items, page, size).items| == size
  {
    var n := TotalPages(|items|, size).value;
    TotalPagesIsCeiling(|items|, size);
    MulMonotone(page + 1, n - 1, size);
  }

  /** The chunks laid end to end give back the list. */
  lemma ChunksConcat<T>(items: seq<T>, size: int)
    requires size > 0
    ensures Concat(ChunkList(items, size).value) == items
  {
    var chunks := ChunkList(items, size).value;
    var n := |chunks|;
    forall k | 0 <= k < n
      ensures chunks[k] == PaginateItems(items, k, size).items
    {
      ChunkIsPage(items, size, k);
    }
    ChunksArePages(items, size, chunks, n);
    assert chunks[..n] == chunks;
    PagesCoverItems(items, size);
  }

  /**
   * For a positive size the chunks give back the list when laid end to end; every chunk but
   * the last holds exactly `size` items and the last one is not empty.
   */
  lemma ChunksRebuild<T>(items: seq<T>, size: int)
    requires size > 0
    ensures var chunks := ChunkList(items, size).value;
      && Concat(chunks) == items
      && (forall k :: 0 <= k < |chunks| - 1 ==> |chunks[k]| == size)
      && (chunks != [] ==> 0 < |chunks[|chunks| - 1]| <= size)
  {
    var chunks := ChunkList(items, size).value;
    var n := |chunks|;
    ChunksConcat(items, size);
    forall k | 0 <= k < n - 1
      ensures |chunks[k]| == size
    {
      ChunkIsPage(items, size, k);
      FullPage(items, k, size);
    }
    if n > 0 {
      ChunkIsPage(items, size, n - 1);
      PageWithinCount(items, n - 1, size);
    }
  }

  lemma {:induction false} ChunksArePages<T>(items: seq<T>, size: int, chunks: seq<seq<T>>, k: nat)
    requires size > 0 && k <= |chunks|
    requires forall j :: 0 <= j < |chunks| ==> chunks[j] == PaginateItems(items, j, size).items
    ensures Concat(chunks[..k]) == PagesUpTo(items, size, k)
  {
    if k > 0 {
      ChunksArePages(items, size, chunks, k - 1);
      assert chunks[..k][..k - 1] == chunks[..k - 1];
    }
  }

  // ---------------------------------------------------------------- profiles and statuses

  const USER_URL := "https://vk.com/id"
  const CLUB_URL := "https://vk.com/club"

  /** `get_vk_profile_url`: a user page for a positive id, a community page otherwise. */
  function ProfileUrl(userId: int): (r: string)
    ensures userId > 0 ==> r == USER_URL + IntToString(userId)
    ensures userId <= 0 ==> r == CLUB_URL + IntToString(-userId)
  {
    if userId > 0 then USER_URL + IntToString(userId) else CLUB_URL + IntToString(-userId)
  }

  /** `validate_vk_user_id` */
  function ValidateUserId(userId: int): (ok: bool)
    ensures ok <==> userId != 0
  {
    userId != 0
  }

  /** Different ids get different pages, and a valid id's page is a user page exactly when it is positive. */
  lemma ProfileUrlInjective(a: int, b: int)
    ensures ProfileUrl(a) == ProfileUrl(b) ==> a == b
    ensures ValidateUserId(a) ==> (USER_URL <= ProfileUrl(a) <==> a > 0)
  {
    if (a > 0) != (b > 0) {
      assert ProfileUrl(a)[15] != ProfileUrl(b)[15];
    } else if ProfileUrl(a) == ProfileUrl(b) {
      var prefix := if a > 0 then USER_URL else CLUB_URL;
      assert ProfileUrl(a)[|prefix|..] == ProfileUrl(b)[|prefix|..];
      IntToStringInjective(if a > 0 then a else -a, if b > 0 then b else -b);
    }
    if a <= 0 {
      assert ProfileUrl(a)[15] != USER_URL[15];
    }
  }

  /**
   * The label tables exactly as the source file spells them: its Russian text and emoji
   * were saved double-encoded (UTF-8 read as Windows-1252), so these are the characters
   * the functions return.
   */
  const ORDER_STATUS_LABELS: map<string, string> := map[
    "pending" := "â³ ÐžÐ¶Ð¸Ð´Ð°ÐµÑ‚ Ð¾Ð¿Ð»Ð°Ñ‚Ñ‹",
    "processing" := "ðŸ”„ Ð’ Ð¾Ð±Ñ€Ð°Ð±Ð¾Ñ‚ÐºÐµ",
    "shipped" := "ðŸšš ÐžÑ‚Ð¿Ñ€Ð°Ð²Ð»ÐµÐ½",
    "delivered" := "âœ… Ð”Ð¾ÑÑ‚Ð°Ð²Ð»ÐµÐ½",
    "cancelled" := "âŒ ÐžÑ‚Ð¼ÐµÐ½ÐµÐ½",
    "refunded" := "ðŸ’µ Ð’Ð¾Ð·Ð²Ñ€Ð°Ñ‚"]

  const PAYMENT_STATUS_LABELS: map<string, string> := map[
    "pending" := "â³ ÐžÐ¶Ð¸Ð´Ð°ÐµÑ‚ Ð¾Ð¿Ð»Ð°Ñ‚Ñ‹",
    "succeeded" := "âœ… ÐžÐ¿Ð»Ð°Ñ‡ÐµÐ½",
    "canceled" := "âŒ ÐžÑ‚Ð¼ÐµÐ½ÐµÐ½",
    "waiting_for_capture" := "â³ ÐžÐ¶Ð¸Ð´Ð°Ð½Ð¸Ðµ Ð¿Ð¾Ð´Ñ‚Ð²ÐµÑ€Ð¶Ð´ÐµÐ½Ð¸Ñ"]

  /** Looks the lower-cased status up; an unknown status is shown as given. */
  function Label(labels: map<string, string>, status: string): (r: string)
    ensures Lower(status) in labels ==> r == labels[Lower(status)]
    ensures Lower(status) !in labels ==> r == status
  {
    if Lower(status) in labels then labels[Lower(status)] else status
  }

  /** `format_order_status` */
  function FormatOrderStatus(status: string): (r: string)
    ensures Lower(status) in ORDER_STATUS_LABELS ==> r == ORDER_STATUS_LABELS[Lower(status)]
    ensures Lower(status) !in ORDER_STATUS_LABELS ==> r == status
  {
    Label(ORDER_STATUS_LABELS, status)
  }

  /** `format_payment_status` */
  function FormatPaymentStatus(status: string): (r: string)
    ensures Lower(status) in PAYMENT_STATUS_LABELS ==> r == PAYMENT_STATUS_LABELS[Lower(status)]
    ensures Lower(status) !in PAYMENT_STATUS_LABELS ==> r == status
  {
    Label(PAYMENT_STATUS_LABELS, status)
  }

  lemma LowerIdempotent(s: string)
    ensures Lower(Lower(s)) == Lower(s)
  {
  }

  /**
   * The lookup ignores case: a status and its lower-case form get the same label, and a
   * status with a label is never shown as its raw text.
   */
  lemma LabelIgnoresCase(labels: map<string, string>, status: string)
    requires forall k :: k in labels ==> labels[k] != k
    ensures Label(labels, Lower(status)) == Label(labels, status) || Lower(status) !in labels
    ensures Lower(status) in labels ==> Label(labels, status) != Lower(status)
  {
    LowerIdempotent(status);
  }
}
