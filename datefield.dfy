/** The gate that `update_from_date_field` applies to the text of the date
    entry (lightlag/app.py, lines 207-213): strip surrounding whitespace as
    Python's `str.strip()` does, insist on exactly ten characters, then parse
    as `%Y-%m-%d`. The parser (`datetime.strptime` followed by `ephem.Date`)
    is a parameter. */
module DateField {
  import opened Optional
  import opened Sky

  /** The characters `str.strip()` removes: those Python counts as whitespace. */
  predicate IsSpace(c: char)
  {
    || c == ' ' || c == '\t' || c == '\n' || c == '\r'
    || c == '\U{000B}' || c == '\U{000C}'
    || ('\U{001C}' <= c <= '\U{001F}')
    || c == '\U{0085}' || c == '\U{00A0}' || c == '\U{1680}'
    || ('\U{2000}' <= c <= '\U{200A}')
    || c == '\U{2028}' || c == '\U{2029}' || c == '\U{202F}' || c == '\U{205F}' || c == '\U{3000}'
  }

  ghost predicate AllSpace(s: string)
  {
    forall k :: 0 <= k < |s| ==> IsSpace(s[k])
  }

  /** Scanning right from `i`: the first index at or after `i` that does not
      hold whitespace, or `|s|`. */
  function SkipLeading(s: string, i: nat): (n: nat)
    requires i <= |s|
    ensures i <= n <= |s|
    ensures forall k :: i <= k < n ==> IsSpace(s[k])
    ensures n < |s| ==> !IsSpace(s[n])
    decreases |s| - i
  {
    if i < |s| && IsSpace(s[i]) then SkipLeading(s, i + 1) else i
  }

  /** Scanning left from `j`, never below `lo`: the end of the last
      non-whitespace character, or `lo`. */
  function SkipTrailing(s: string, lo: nat, j: nat): (n: nat)
    requires lo <= j <= |s|
    ensures lo <= n <= j
    ensures forall k :: n <= k < j ==> IsSpace(s[k])
    ensures lo < n ==> !IsSpace(s[n - 1])
  {
    if lo < j && IsSpace(s[j - 1]) then SkipTrailing(s, lo, j - 1) else j
  }

  /** `i..j` delimits a stripped core of `s`: whitespace on both sides, and a
      core that is empty or neither starts nor ends with whitespace. */
  ghost predicate StripBounds(s: string, i: nat, j: nat)
  {
    && i <= j <= |s|
    && (forall k :: 0 <= k < i ==> IsSpace(s[k]))
    && (forall k :: j <= k < |s| ==> IsSpace(s[k]))
    && (i < j ==> !IsSpace(s[i]) && !IsSpace(s[j - 1]))
  }

  /** Python's `str.strip()` with no argument. */
  function Strip(s: string): (r: string)
    ensures |r| <= |s|
    ensures StripBounds(s, SkipLeading(s, 0), SkipLeading(s, 0) + |r|)
    ensures r == s[SkipLeading(s, 0)..SkipLeading(s, 0) + |r|]
  {
    var i := SkipLeading(s, 0);
    var j := SkipTrailing(s, i, |s|);
    s[i..j]
  }

  /** Any stripped core of `s` is the one `Strip` returns. */
  lemma StripUnique(s: string, i: nat, j: nat)
    requires StripBounds(s, i, j)
    ensures Strip(s) == s[i..j]
  {
  }

  /** Whitespace added around a string does not change what `strip` keeps. */
  lemma StripIgnoresPadding(pre: string, s: string, post: string)
    requires AllSpace(pre) && AllSpace(post)
    ensures Strip(pre + s + post) == Strip(s)
  {
    var r := Strip(s);
    var i := SkipLeading(s, 0);
    PaddedStrip(pre, s, post, pre + s + post, i, i + |r|);
  }

  /** The strip of the padded string is the stripped core of `s`. */
  lemma PaddedStrip(pre: string, s: string, post: string, padded: string, i: nat, j: nat)
    requires AllSpace(pre) && AllSpace(post) && StripBounds(s, i, j)
    requires padded == pre + s + post
    ensures Strip(padded) == s[i..j]
  {
    PaddedBounds(pre, s, post, padded, i, j);
    StripUnique(padded, |pre| + i, |pre| + j);
  }

  /** A stripped core of `s` stays one when whitespace is added around `s`. */
  lemma PaddedBounds(pre: string, s: string, post: string, padded: string, i: nat, j: nat)
    requires AllSpace(pre) && AllSpace(post) && StripBounds(s, i, j)
    requires padded == pre + s + post
    ensures StripBounds(padded, |pre| + i, |pre| + j)
    ensures padded[|pre| + i..|pre| + j] == s[i..j]
  {
  }

  /** Stripping twice is stripping once. */
  lemma StripIdempotent(s: string)
    ensures Strip(Strip(s)) == Strip(s)
  {
  }

  /** The date the gate lets through, if any: `None` for a stripped text whose
      length is not 10 and for one the parser rejects. */
  function DateGate(parseDate: string -> Option<Instant>, entryText: string): (date: Option<Instant>)
    ensures date.Some? <==> |Strip(entryText)| == 10 && parseDate(Strip(entryText)).Some?
    ensures date.Some? ==> date == parseDate(Strip(entryText))
  {
    var dateStr := Strip(entryText);
    if |dateStr| != 10 then None else parseDate(dateStr)
  }

  /** Surrounding whitespace in the entry never changes the outcome of the gate. */
  lemma DateGateIgnoresPadding(parseDate: string -> Option<Instant>, pre: string, entryText: string, post: string)
    requires AllSpace(pre) && AllSpace(post)
    ensures DateGate(parseDate, pre + entryText + post) == DateGate(parseDate, entryText)
  {
    StripIgnoresPadding(pre, entryText, post);
  }

  /** The gate's three outcomes: a stripped text that is not ten characters
      is rejected whatever the parser would say (so is an all-whitespace
      text); a ten-character one the parser refuses is rejected; otherwise
      the date is the one parsed from the stripped text. */
  lemma DateGateOutcomes(parseDate: string -> Option<Instant>, entryText: string)
    ensures |Strip(entryText)| != 10 ==> DateGate(parseDate, entryText) == None
    ensures AllSpace(entryText) ==> DateGate(parseDate, entryText) == None
    ensures parseDate(Strip(entryText)) == None ==> DateGate(parseDate, entryText) == None
    ensures DateGate(parseDate, entryText).Some? ==>
              |Strip(entryText)| == 10 && DateGate(parseDate, entryText) == parseDate(Strip(entryText))
  {
  }
}
