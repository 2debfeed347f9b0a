/**
 * The join form (src/app/join/page.tsx): turning what a listener pastes —
 * a bare six-character code or any link containing "/join/<code>" — into
 * the session code, and the outcome of submitting the form.
 */
module JoinCode {
  import opened Wrappers

  // Characters

  /** [A-Z0-9] under the `i` flag: ASCII letters of either case and digits. */
  predicate IsAlnum(c: char) {
    ('A' <= c <= 'Z') || ('a' <= c <= 'z') || ('0' <= c <= '9')
  }

  predicate IsUpperAlnum(c: char) {
    ('A' <= c <= 'Z') || ('0' <= c <= '9')
  }

  /** toUpperCase on ASCII letters; every other character is left alone. */
  function Upper(c: char): (u: char)
    ensures IsAlnum(c) ==> IsUpperAlnum(u)
    ensures IsUpperAlnum(c) ==> u == c
  {
    if 'a' <= c <= 'z' then (c as int - 32) as char else c
  }

  function UpperAll(s: string): (r: string)
    ensures |r| == |s|
    ensures forall i :: 0 <= i < |s| ==> r[i] == Upper(s[i])
  {
    seq(|s|, i requires 0 <= i < |s| => Upper(s[i]))
  }

  /** The characters String.prototype.trim removes: white space and line terminators. */
  predicate IsJsWhitespace(c: char) {
    || c == '\t' || c == '\n' || c == '\U{000B}' || c == '\U{000C}' || c == '\r' || c == ' '
    || c == '\U{00A0}' || c == '\U{1680}' || ('\U{2000}' <= c <= '\U{200A}')
    || c == '\U{2028}' || c == '\U{2029}' || c == '\U{202F}' || c == '\U{205F}'
    || c == '\U{3000}' || c == '\U{FEFF}'
  }

  predicate AllWhitespace(s: string) {
    forall i :: 0 <= i < |s| ==> IsJsWhitespace(s[i])
  }

  /** Drops leading whitespace: the result is empty or starts with a non-space. */
  function TrimStart(s: string): (r: string)
    ensures |r| <= |s|
    ensures r == [] || !IsJsWhitespace(r[0])
  {
    if s != [] && IsJsWhitespace(s[0]) then TrimStart(s[1..]) else s
  }

  /** Drops trailing whitespace: the result is empty or ends with a non-space. */
  function TrimEnd(s: string): (r: string)
    ensures |r| <= |s|
    ensures r == [] || !IsJsWhitespace(r[|r| - 1])
  {
    if s != [] && IsJsWhitespace(s[|s| - 1]) then TrimEnd(s[..|s| - 1]) else s
  }

  /** input.trim(). */
  function Trim(s: string): string {
    TrimEnd(TrimStart(s))
  }

  // The two patterns

  /** The pattern /\/join\/([A-Z0-9]+)/i can start matching at `p`. */
  predicate LinkAt(s: string, p: nat) {
    p + 7 <= |s| && UpperAll(s[p..p + 6]) == "/JOIN/" && IsAlnum(s[p + 6])
  }

  /** The leftmost position from `from` on where the link pattern matches. */
  function FindLink(s: string, from: nat): (r: Option<nat>)
    ensures r.Some? ==>
      from <= r.value && LinkAt(s, r.value) && forall q :: from <= q < r.value ==> !LinkAt(s, q)
    ensures r.None? ==> forall q :: from <= q ==> !LinkAt(s, q)
    decreases |s| - from
  {
    if from + 7 > |s| then None
    else if LinkAt(s, from) then Some(from)
    else FindLink(s, from + 1)
  }

  /** The length of the longest run of alphanumerics starting at `start` (greedy `+`). */
  function RunLength(s: string, start: nat): (n: nat)
    requires start <= |s|
    ensures start + n <= |s|
    ensures forall i :: start <= i < start + n ==> IsAlnum(s[i])
    ensures start + n == |s| || !IsAlnum(s[start + n])
    decreases |s| - start
  {
    if start < |s| && IsAlnum(s[start]) then 1 + RunLength(s, start + 1) else 0
  }

  /** The /^([A-Z0-9]{6})$/i pattern: exactly six alphanumerics. */
  predicate IsBareCode(t: string) {
    |t| == 6 && forall i :: 0 <= i < 6 ==> IsAlnum(t[i])
  }

  /** extractCodeFromLink after the trim: the link form first, then the bare form. */
  function ExtractTrimmed(t: string): (r: Option<string>)
    ensures r.Some? ==> r.value != [] && forall i :: 0 <= i < |r.value| ==> IsUpperAlnum(r.value[i])
  {
    var link := FindLink(t, 0);
    if link.Some? then
      var start := link.value + 6;
      var n := RunLength(t, start);
      Some(UpperAll(t[start..start + n]))
    else if IsBareCode(t) then Some(UpperAll(t))
    else None
  }

  /** extractCodeFromLink: a non-empty upper-case alphanumeric code, or None. */
  function Extract(input: string): (r: Option<string>)
    ensures r.Some? ==> r.value != [] && forall i :: 0 <= i < |r.value| ==> IsUpperAlnum(r.value[i])
  {
    ExtractTrimmed(Trim(input))
  }

  // Properties of the extraction

  lemma UpperAllIdentity(s: string)
    requires forall i :: 0 <= i < |s| ==> IsUpperAlnum(s[i])
    ensures UpperAll(s) == s
  {
  }

  /** No '/' means no link can start anywhere. */
  lemma NoSlashNoLink(t: string)
    requires '/' !in t
    ensures ExtractTrimmed(t) == if IsBareCode(t) then Some(UpperAll(t)) else None
  {
    forall q | 0 <= q ensures !LinkAt(t, q) {
      if q + 7 <= |t| {
        assert UpperAll(t[q..q + 6])[0] == Upper(t[q]);
      }
    }
  }

  /**
   * A bare code: six alphanumerics of either case come back upper-cased;
   * a code already in upper case comes back as it is.
   */
  lemma ExtractBareCode(c: string)
    requires IsBareCode(c)
    ensures Extract(c) == Some(UpperAll(c))
    ensures (forall i :: 0 <= i < 6 ==> IsUpperAlnum(c[i])) ==> Extract(c) == Some(c)
  {
    TrimIdentity(c);
    if forall i :: 0 <= i < 6 ==> IsUpperAlnum(c[i]) {
      UpperAllIdentity(c);
    }
    assert '/' !in c by {
      forall i | 0 <= i < |c| ensures c[i] != '/' {
        assert IsAlnum(c[i]);
      }
    }
    NoSlashNoLink(c);
  }

  /** Without a link, a code is found exactly when the trimmed input is six alphanumerics. */
  lemma BareCodeExactlySix(input: string)
    requires FindLink(Trim(input), 0).None?
    ensures Extract(input).Some? <==> IsBareCode(Trim(input))
  {
  }

  /** When the text has no whitespace at either end, trimming changes nothing. */
  lemma TrimIdentity(s: string)
    requires s == [] || (!IsJsWhitespace(s[0]) && !IsJsWhitespace(s[|s| - 1]))
    ensures Trim(s) == s
  {
  }

  lemma LinkPositionIsFirst(prefix: string, run: string, suffix: string)
    requires '/' !in prefix
    requires run != [] && forall i :: 0 <= i < |run| ==> IsAlnum(run[i])
    ensures var t := prefix + "/join/" + run + suffix;
      FindLink(t, 0) == Some(|prefix|)
  {
    var t := prefix + "/join/" + run + suffix;
    var p := |prefix|;
    assert t[p..p + 6] == "/join/";
    assert UpperAll("/join/") == "/JOIN/";
    assert t[p + 6] == run[0];
    assert LinkAt(t, p);
    forall q | 0 <= q < p ensures !LinkAt(t, q) {
      assert t[q] == prefix[q];
      assert UpperAll(t[q..q + 6])[0] == Upper(t[q]);
    }
    FindLinkFirst(t, 0, p);
  }

  lemma {:induction false} FindLinkFirst(s: string, from: nat, p: nat)
    requires from <= p && LinkAt(s, p)
    requires forall q :: from <= q < p ==> !LinkAt(s, q)
    ensures FindLink(s, from) == Some(p)
    decreases p - from
  {
    if from < p {
      FindLinkFirst(s, from + 1, p);
    }
  }

  lemma RunAfterLink(head: string, run: string, suffix: string)
    requires run != [] && forall i :: 0 <= i < |run| ==> IsAlnum(run[i])
    requires suffix == [] || !IsAlnum(suffix[0])
    ensures var t := head + run + suffix;
      RunLength(t, |head|) == |run| && t[|head|..|head| + |run|] == run
  {
    var t := head + run + suffix;
    RunInside(head, run, suffix);
    RunLengthExact(t, |head|, |run|);
    MiddleSlice(head, run, suffix);
  }

  lemma RunInside(head: string, run: string, suffix: string)
    requires forall i :: 0 <= i < |run| ==> IsAlnum(run[i])
    requires suffix == [] || !IsAlnum(suffix[0])
    ensures var t := head + run + suffix;
      && (forall i :: |head| <= i < |head| + |run| ==> IsAlnum(t[i]))
      && (|head| + |run| == |t| || !IsAlnum(t[|head| + |run|]))
  {
    var t := head + run + suffix;
    forall i | |head| <= i < |head| + |run| ensures IsAlnum(t[i]) {
      assert t[i] == run[i - |head|];
    }
    if suffix != [] {
      assert t[|head| + |run|] == suffix[0];
    }
  }

  lemma MiddleSlice(head: string, run: string, suffix: string)
    ensures (head + run + suffix)[|head|..|head| + |run|] == run
  {
    var t := head + run + suffix;
    assert forall i :: 0 <= i < |run| ==> t[|head| + i] == run[i];
  }

  lemma {:induction false} RunLengthExact(s: string, start: nat, n: nat)
    requires start + n <= |s|
    requires forall i :: start <= i < start + n ==> IsAlnum(s[i])
    requires start + n == |s| || !IsAlnum(s[start + n])
    ensures RunLength(s, start) == n
    decreases n
  {
    if n > 0 {
      RunLengthExact(s, start + 1, n - 1);
    }
  }

  /**
   * The link form: whatever precedes the first "/join/" (without a slash)
   * and whatever follows the code (starting with a non-alphanumeric) is
   * ignored, and the whole alphanumeric run is the code, upper-cased.
   */
  lemma ExtractFromLink(prefix: string, run: string, suffix: string)
    requires '/' !in prefix
    requires run != [] && forall i :: 0 <= i < |run| ==> IsAlnum(run[i])
    requires suffix == [] || !IsAlnum(suffix[0])
    requires prefix == [] || !IsJsWhitespace(prefix[0])
    requires suffix == [] || !IsJsWhitespace(suffix[|suffix| - 1])
    ensures Extract(prefix + "/join/" + run + suffix) == Some(UpperAll(run))
  {
    var t := prefix + "/join/" + run + suffix;
    assert t[0] == (if prefix == [] then '/' else prefix[0]);
    assert t[|t| - 1] == (if suffix == [] then run[|run| - 1] else suffix[|suffix| - 1]);
    TrimIdentity(t);
    LinkPositionIsFirst(prefix, run, suffix);
    RunAfterLink(prefix + "/join/", run, suffix);
  }

  /** The link the form navigates to extracts the same code again. */
  lemma ExtractOwnLink(code: string)
    requires code != [] && forall i :: 0 <= i < |code| ==> IsUpperAlnum(code[i])
    ensures Extract("/join/" + code) == Some(code)
  {
    assert forall i :: 0 <= i < |code| ==> IsAlnum(code[i]);
    var url := "/join/" + code;
    assert [] + "/join/" + code + [] == url;
    ExtractFromLink([], code, []);
    UpperAllIdentity(code);
  }

  lemma {:induction false} TrimStartWhitespace(w: string, s: string)
    requires AllWhitespace(w)
    ensures TrimStart(w + s) == TrimStart(s)
  {
    if w == [] {
      assert w + s == s;
    } else {
      assert (w + s)[0] == w[0];
      assert (w + s)[1..] == w[1..] + s;
      assert forall i :: 0 <= i < |w| - 1 ==> w[1..][i] == w[i + 1];
      TrimStartWhitespace(w[1..], s);
    }
  }

  lemma {:induction false} TrimEndWhitespace(s: string, w: string)
    requires AllWhitespace(w)
    ensures TrimEnd(s + w) == TrimEnd(s)
  {
    if w == [] {
      assert s + w == s;
    } else {
      var w' := w[..|w| - 1];
      assert (s + w)[|s + w| - 1] == w[|w| - 1];
      assert (s + w)[..|s + w| - 1] == s + w';
      TrimEndWhitespace(s, w');
    }
  }

  lemma {:induction false} TrimStartAppend(s: string, w: string)
    ensures TrimStart(s + w) == if TrimStart(s) == [] then TrimStart(w) else TrimStart(s) + w
  {
    if s == [] {
      assert s + w == w;
    } else if IsJsWhitespace(s[0]) {
      assert (s + w)[1..] == s[1..] + w;
      TrimStartAppend(s[1..], w);
    }
  }

  /** Leading and trailing whitespace is ignored. */
  lemma ExtractIgnoresWhitespace(w1: string, s: string, w2: string)
    requires AllWhitespace(w1) && AllWhitespace(w2)
    ensures Extract(w1 + s + w2) == Extract(s)
  {
    assert w1 + s + w2 == w1 + (s + w2);
    TrimStartWhitespace(w1, s + w2);
    TrimStartAppend(s, w2);
    if TrimStart(s) == [] {
      TrimStartWhitespace(w2, []);
      assert w2 + [] == w2;
    } else {
      TrimEndWhitespace(TrimStart(s), w2);
    }
  }

  // Submitting the form

  const EmptyInputMessage := "Please enter a join code or link"
  const BadFormatMessage := "Invalid code or link format. Please check and try again."

  datatype SubmitOutcome = ShowError(message: string) | Navigate(path: string)

  /** handleSubmit: an error message, or the route to the session's join page. */
  function HandleSubmit(input: string): SubmitOutcome {
    if Trim(input) == [] then ShowError(EmptyInputMessage)
    else
      var extracted := Extract(input);
      if extracted.None? then ShowError(BadFormatMessage)
      else Navigate("/join/" + extracted.value)
  }

  /**
   * Blank input asks for a code, unusable input reports the format, and
   * otherwise the form navigates to "/join/" plus the code it extracted.
   */
  lemma HandleSubmitOutcomes(input: string)
    ensures HandleSubmit(input) == ShowError(EmptyInputMessage) <==> AllWhitespace(input)
    ensures HandleSubmit(input) == ShowError(BadFormatMessage) <==> !AllWhitespace(input) && Extract(input).None?
    ensures HandleSubmit(input).Navigate? <==> Extract(input).Some?
    ensures HandleSubmit(input).Navigate? ==>
      HandleSubmit(input).path == "/join/" + Extract(input).value
      && Extract(HandleSubmit(input).path) == Extract(input)
  {
    TrimEmptyIffWhitespace(input);
    assert EmptyInputMessage != BadFormatMessage by {
      assert |EmptyInputMessage| == 32 && |BadFormatMessage| == 56;
    }
    if Trim(input) == [] {
      assert FindLink([], 0).None?;
    }
    var e := Extract(input);
    if e.Some? {
      ExtractOwnLink(e.value);
    }
  }

  lemma {:induction false} TrimStartEmpty(s: string)
    ensures TrimStart(s) == [] <==> AllWhitespace(s)
  {
    if s != [] && IsJsWhitespace(s[0]) {
      TrimStartEmpty(s[1..]);
      assert forall i :: 1 <= i < |s| ==> s[i] == s[1..][i - 1];
    }
  }

  lemma TrimEmptyIffWhitespace(s: string)
    ensures Trim(s) == [] <==> AllWhitespace(s)
  {
    TrimStartEmpty(s);
    if TrimStart(s) != [] {
      TrimEndKeepsNonSpace(TrimStart(s));
    }
  }

  lemma {:induction false} TrimEndKeepsNonSpace(s: string)
    requires s != [] && !IsJsWhitespace(s[0])
    ensures TrimEnd(s) != []
    decreases |s|
  {
    if IsJsWhitespace(s[|s| - 1]) {
      TrimEndKeepsNonSpace(s[..|s| - 1]);
    }
  }
}
