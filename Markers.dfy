// The textual contract between the chapter generator and the exporters:
// a chapter's reply starts with a "Chapter N: <title>" header and ends with a
// "SUMMARY: <one sentence>" trailer.  The source reads both with regular
// expressions; each is written out here as a search over positions with the
// exact JavaScript semantics (leftmost match, greedy quantifiers, `$` without
// the m flag meaning the end of the input), next to a declarative statement of
// what a match is.

module Markers {
  import opened Wrappers
  import opened JsText

  /** `\s`: the ECMAScript WhiteSpace and LineTerminator characters. */
  predicate IsJsSpace(c: char) {
    c == ' ' || c == '\t' || c == '\n' || c == '\r' || c == '\U{000B}' || c == '\U{000C}'
    || c == '\U{00A0}' || c == '\U{1680}' || ('\U{2000}' <= c <= '\U{200A}')
    || c == '\U{2028}' || c == '\U{2029}' || c == '\U{202F}' || c == '\U{205F}'
    || c == '\U{3000}' || c == '\U{FEFF}'
  }

  /** The characters `.` does not match. */
  predicate IsLineTerminator(c: char) {
    c == '\n' || c == '\r' || c == '\U{2028}' || c == '\U{2029}'
  }

  const SummaryTag: string := "SUMMARY:"
  const ChapterTag: string := "Chapter "

  // ---------------------------------------------------------------------------
  // /SUMMARY:\s*(.+)$/  and  /\nSUMMARY:\s*.+$/
  // ---------------------------------------------------------------------------

  /** The number of `\s` characters starting at `from`. */
  function SpaceRun(s: string, from: nat): (n: nat)
    requires from <= |s|
    ensures from + n <= |s|
    ensures forall j :: from <= j < from + n ==> IsJsSpace(s[j])
    ensures from + n < |s| ==> !IsJsSpace(s[from + n])
    decreases |s| - from
  {
    if from < |s| && IsJsSpace(s[from]) then 1 + SpaceRun(s, from + 1) else 0
  }

  /** `.+$` matches from `c`: at least one character, and none up to the end
      is a line terminator. */
  predicate DotsToEnd(s: string, c: nat) {
    c < |s| && forall j :: c <= j < |s| ==> !IsLineTerminator(s[j])
  }

  /** `SUMMARY:\s*(.+)$` matches at `p` with its group starting at `c`
      (the group then runs to the end of the input). */
  ghost predicate SummaryMatchAt(s: string, p: nat, c: nat) {
    && OccursAt(s, p, SummaryTag)
    && p + |SummaryTag| <= c
    && DotsToEnd(s, c)
    && (forall j :: p + |SummaryTag| <= j < c ==> IsJsSpace(s[j]))
  }

  /** Where the group starts when the pattern is tried at `p`: the greedy
      `\s*` takes the longest run of spaces that still leaves `.+$` a match. */
  function GroupStart(s: string, p: nat): (r: Option<nat>)
    requires OccursAt(s, p, SummaryTag)
    ensures r.Some? ==> SummaryMatchAt(s, p, r.value)
    ensures r.Some? ==> forall c: nat :: SummaryMatchAt(s, p, c) ==> c <= r.value
    ensures r.None? ==> forall c: nat :: !SummaryMatchAt(s, p, c)
  {
    var q := p + |SummaryTag|;
    var e := q + SpaceRun(s, q);
    if DotsToEnd(s, e) then Some(e)
    else if e == |s| && e > q && !IsLineTerminator(s[e - 1]) then Some(e - 1)
    else None
  }

  /** The leftmost position at or after `from` where `SUMMARY:\s*(.+)$`
      matches, with the start of its group. */
  function FindSummary(s: string, from: nat): (r: Option<(nat, nat)>)
    requires from <= |s|
    ensures r.Some? ==> from <= r.value.0 && SummaryMatchAt(s, r.value.0, r.value.1)
    ensures r.Some? ==> forall c: nat :: SummaryMatchAt(s, r.value.0, c) ==> c <= r.value.1
    ensures r.Some? ==> forall p: nat, c: nat :: from <= p < r.value.0 ==> !SummaryMatchAt(s, p, c)
    ensures r.None? ==> forall p: nat, c: nat :: from <= p ==> !SummaryMatchAt(s, p, c)
    decreases |s| - from
  {
    if from == |s| then None
    else if OccursAt(s, from, SummaryTag) && GroupStart(s, from).Some? then
      Some((from, GroupStart(s, from).value))
    else
      FindSummary(s, from + 1)
  }

  /** `s.match(/SUMMARY:\s*(.+)$/)?.[1]`: the captured summary, if any. */
  function SummaryGroup(s: string): (r: Option<string>)
    ensures r.Some? ==> r.value != "" && forall k :: 0 <= k < |r.value| ==> !IsLineTerminator(r.value[k])
  {
    match FindSummary(s, 0)
    case None => None
    case Some((p, c)) => Some(s[c..])
  }

  /** `\nSUMMARY:\s*.+$` matches at `p`. */
  predicate TrailerAt(s: string, p: nat) {
    p < |s| && s[p] == '\n' && OccursAt(s, p + 1, SummaryTag) && GroupStart(s, p + 1).Some?
  }

  /** The leftmost position at or after `from` where the trailer pattern matches. */
  function FindTrailer(s: string, from: nat): (r: Option<nat>)
    requires from <= |s|
    ensures r.Some? ==> from <= r.value && TrailerAt(s, r.value)
    ensures r.Some? ==> forall p: nat :: from <= p < r.value ==> !TrailerAt(s, p)
    ensures r.None? ==> forall p: nat :: from <= p ==> !TrailerAt(s, p)
    decreases |s| - from
  {
    if from == |s| then None
    else if TrailerAt(s, from) then Some(from)
    else FindTrailer(s, from + 1)
  }

  /** `s.replace(/\nSUMMARY:\s*.+$/, '')`: the match always runs to the end of
      the input, so replacing it keeps what precedes its newline. */
  function StripSummary(s: string): (r: string)
    ensures r <= s
    ensures r != s ==> TrailerAt(s, |r|)
    ensures r != s ==> forall p: nat :: p < |r| ==> !TrailerAt(s, p)
    ensures r == s ==> forall p: nat :: !TrailerAt(s, p)
  {
    match FindTrailer(s, 0)
    case None => s
    case Some(p) =>
      assert |s[..p]| < |s|;
      s[..p]
  }

  /** Whenever the strip pattern would remove a trailer, the summary pattern
      matches too, no later than that trailer's tag: the source strips only in
      the branch where it has found a summary. */
  lemma TrailerImpliesSummary(s: string)
    requires StripSummary(s) != s
    ensures SummaryGroup(s).Some?
    ensures FindSummary(s, 0).value.0 <= |StripSummary(s)| + 1
  {
    var p := |StripSummary(s)|;
    assert TrailerAt(s, p);
    var c := GroupStart(s, p + 1).value;
    assert SummaryMatchAt(s, p + 1, c);
  }

  /** `$` without the m flag is the end of the input, so a text ending in a
      line terminator (a trailer followed by a final newline, say) never
      matches `SUMMARY:\s*(.+)$`. */
  lemma EndsInTerminatorNoSummary(s: string)
    requires |s| > 0 && IsLineTerminator(s[|s| - 1])
    ensures forall q: nat, c: nat :: !SummaryMatchAt(s, q, c)
  {
    forall q: nat, c: nat
      ensures !SummaryMatchAt(s, q, c)
    {
      if c < |s| {
        assert !(c <= |s| - 1 < |s| ==> !IsLineTerminator(s[|s| - 1]));
      }
    }
  }

  /** "SUMMARY:" occurs nowhere in `b`. */
  predicate NoSummaryTag(b: string) {
    forall p :: 0 <= p <= |b| ==> !OccursAt(b, p, SummaryTag)
  }

  /** Without a "SUMMARY:" anywhere, the summary pattern finds no match. */
  lemma {:induction false} NoTagNoSummary(s: string, from: nat)
    requires NoSummaryTag(s) && from <= |s|
    ensures FindSummary(s, from).None?
    decreases |s| - from
  {
    if from < |s| {
      assert !OccursAt(s, from, SummaryTag);
      NoTagNoSummary(s, from + 1);
    }
  }

  /** No tag can start at or before the newline that ends `b`. */
  lemma NoTagUpToNewline(b: string, rest: string, p: nat)
    requires NoSummaryTag(b)
    requires p <= |b|
    ensures !OccursAt(b + "\n" + rest, p, SummaryTag)
  {
    var s := b + "\n" + rest;
    if p + |SummaryTag| <= |s| {
      if p + |SummaryTag| <= |b| {
        assert s[p..p + |SummaryTag|] == b[p..p + |SummaryTag|];
        assert !OccursAt(b, p, SummaryTag);
      } else {
        assert s[p..p + |SummaryTag|][|b| - p] == '\n' != SummaryTag[|b| - p];
      }
    }
  }

  /** The generator's format read back: a chapter whose reply ends with its own
      "SUMMARY: t" line yields `t` as the summary, and stripping removes exactly
      that line. */
  lemma {:induction false} SummaryRoundTrip(b: string, t: string)
    requires NoSummaryTag(b)
    requires t != "" && !IsJsSpace(t[0])
    requires forall k :: 0 <= k < |t| ==> !IsLineTerminator(t[k])
    ensures SummaryGroup(b + "\nSUMMARY: " + t) == Some(t)
    ensures StripSummary(b + "\nSUMMARY: " + t) == b
  {
    var rest := "SUMMARY: " + t;
    var s := b + "\n" + rest;
    assert s == b + "\nSUMMARY: " + t;
    var q := |b| + 1;
    assert OccursAt(s, q, SummaryTag) by {
      assert s[q..q + |SummaryTag|] == rest[..|SummaryTag|];
    }
    assert s[q + 8] == ' ' && s[q + 9] == t[0];
    assert SpaceRun(s, q + 8) == 1 by {
      assert SpaceRun(s, q + 9) == 0;
    }
    assert s[q + 9..] == t;
    assert DotsToEnd(s, q + 9);
    assert GroupStart(s, q) == Some(q + 9);
    forall p | 0 <= p < q ensures FindSummary(s, p) == Some((q, q + 9)) {
      FindFromBefore(b, rest, p, q, q + 9);
    }
    assert FindSummary(s, 0) == Some((q, q + 9));
    assert TrailerAt(s, |b|);
    forall p: nat | p < |b| ensures !TrailerAt(s, p) {
      NoTagUpToNewline(b, rest, p + 1);
    }
    FindTrailerReaches(s, 0, |b|);
  }

  lemma FindFromBefore(b: string, rest: string, p: nat, q: nat, c: nat)
    requires NoSummaryTag(b)
    requires q == |b| + 1 && p < q
    requires OccursAt(b + "\n" + rest, q, SummaryTag)
    requires GroupStart(b + "\n" + rest, q) == Some(c)
    ensures FindSummary(b + "\n" + rest, p) == Some((q, c))
    decreases q - p
  {
    NoTagUpToNewline(b, rest, p);
    if p + 1 < q {
      FindFromBefore(b, rest, p + 1, q, c);
    }
  }

  lemma FindTrailerReaches(s: string, from: nat, p: nat)
    requires from <= p < |s| && TrailerAt(s, p)
    requires forall j: nat :: from <= j < p ==> !TrailerAt(s, j)
    ensures FindTrailer(s, from) == Some(p)
    decreases p - from
  {
    if from < p {
      FindTrailerReaches(s, from + 1, p);
    }
  }

  // ---------------------------------------------------------------------------
  // /Chapter \d+: ([^\n]+)/  and  /Chapter \d+: [^\n]+\n/
  // ---------------------------------------------------------------------------

  /** The number of decimal digits starting at `from`. */
  function DigitRun(s: string, from: nat): (n: nat)
    requires from <= |s|
    ensures from + n <= |s|
    ensures forall j :: from <= j < from + n ==> IsDigit(s[j])
    ensures from + n < |s| ==> !IsDigit(s[from + n])
    decreases |s| - from
  {
    if from < |s| && IsDigit(s[from]) then 1 + DigitRun(s, from + 1) else 0
  }

  /** The number of characters other than '\n' starting at `from`. */
  function LineRun(s: string, from: nat): (n: nat)
    requires from <= |s|
    ensures from + n <= |s|
    ensures forall j :: from <= j < from + n ==> s[j] != '\n'
    ensures from + n < |s| ==> s[from + n] == '\n'
    decreases |s| - from
  {
    if from < |s| && s[from] != '\n' then 1 + LineRun(s, from + 1) else 0
  }

  /** `Chapter \d+: ([^\n]+)` matches at `p` with its group `s[a..e]`; the
      greedy `[^\n]+` stops at the first newline or at the end. */
  ghost predicate HeaderMatchAt(s: string, p: nat, a: nat, e: nat) {
    && OccursAt(s, p, ChapterTag)
    && p + |ChapterTag| + 3 <= a < e <= |s|
    && (forall j :: p + |ChapterTag| <= j < a - 2 ==> IsDigit(s[j]))
    && OccursAt(s, a - 2, ": ")
    && (forall j :: a <= j < e ==> s[j] != '\n')
    && (e == |s| || s[e] == '\n')
  }

  /** At a given position the header pattern can match in one way only: the
      digits run as far as they go and the title as far as the line goes. */
  lemma HeaderMatchDetermined(s: string, p: nat)
    ensures forall a: nat, e: nat :: HeaderMatchAt(s, p, a, e) ==>
      && a == p + |ChapterTag| + DigitRun(s, p + |ChapterTag|) + 2
      && e == a + LineRun(s, a)
  {
    forall a: nat, e: nat | HeaderMatchAt(s, p, a, e)
      ensures a == p + |ChapterTag| + DigitRun(s, p + |ChapterTag|) + 2
      ensures e == a + LineRun(s, a)
    {
      assert s[a - 2] == s[a - 2..a][0] == ':';
      DigitRunIs(s, p + |ChapterTag|, a - 2 - (p + |ChapterTag|));
      LineRunIs(s, a, e - a);
    }
  }

  /** The match of the header pattern tried at `p`, as the bounds of its group. */
  function HeaderAt(s: string, p: nat): (r: Option<(nat, nat)>)
    ensures r.Some? ==> HeaderMatchAt(s, p, r.value.0, r.value.1)
    ensures r.None? ==> forall a: nat, e: nat :: !HeaderMatchAt(s, p, a, e)
  {
    HeaderMatchDetermined(s, p);
    if !OccursAt(s, p, ChapterTag) then None
    else
      var d := DigitRun(s, p + |ChapterTag|);
      var colon := p + |ChapterTag| + d;
      if d == 0 || !OccursAt(s, colon, ": ") then None
      else
        var a := colon + 2;
        var e := a + LineRun(s, a);
        if e == a then None else Some((a, e))
  }

  /** The leftmost header match at or after `from`: (position, group start, group end). */
  function FindHeader(s: string, from: nat): (r: Option<(nat, nat, nat)>)
    requires from <= |s|
    ensures r.Some? ==> from <= r.value.0 && HeaderMatchAt(s, r.value.0, r.value.1, r.value.2)
    ensures r.Some? ==> forall p: nat :: from <= p < r.value.0 ==> HeaderAt(s, p).None?
    ensures r.None? ==> forall p: nat :: from <= p ==> HeaderAt(s, p).None?
    decreases |s| - from
  {
    if from == |s| then None
    else match HeaderAt(s, from)
      case Some((a, e)) => Some((from, a, e))
      case None => FindHeader(s, from + 1)
  }

  /** `s.match(/Chapter \d+: ([^\n]+)/)?.[1]`: the chapter title of the first
      header anywhere in `s`. */
  function HeaderTitle(s: string): (r: Option<string>)
    ensures r.Some? ==> r.value != "" && '\n' !in r.value
  {
    match FindHeader(s, 0)
    case None => None
    case Some((p, a, e)) =>
      assert forall k :: 0 <= k < |s[a..e]| ==> s[a..e][k] == s[a + k] != '\n';
      Some(s[a..e])
  }

  /** The chapter title the plain-text and HTML exports show: the header's
      title, or the empty string. */
  function HeaderTitleOrEmpty(s: string): (t: string)
    ensures '\n' !in t
    ensures t == "" <==> HeaderTitle(s).None?
  {
    match HeaderTitle(s)
    case Some(t) => t
    case None => ""
  }

  /** `Chapter \d+: [^\n]+\n` matches at `p`: a header whose title is followed
      by a newline. */
  predicate HeaderLineAt(s: string, p: nat) {
    HeaderAt(s, p).Some? && HeaderAt(s, p).value.1 < |s|
  }

  function FindHeaderLine(s: string, from: nat): (r: Option<nat>)
    requires from <= |s|
    ensures r.Some? ==> from <= r.value && HeaderLineAt(s, r.value)
    ensures r.Some? ==> forall p: nat :: from <= p < r.value ==> !HeaderLineAt(s, p)
    ensures r.None? ==> forall p: nat :: from <= p ==> !HeaderLineAt(s, p)
    decreases |s| - from
  {
    if from == |s| then None
    else if HeaderLineAt(s, from) then Some(from)
    else FindHeaderLine(s, from + 1)
  }

  /** `s.replace(/Chapter \d+: [^\n]+\n/, '')`: the first header line, with its
      newline, is cut out; text before and after it is kept. */
  function StripHeader(s: string): (r: string)
  {
    match FindHeaderLine(s, 0)
    case None => s
    case Some(p) => s[..p] + s[HeaderAt(s, p).value.1 + 1..]
  }

  /** The title the exporters show and the header line they cut are the same
      header: when the first header's title is followed by a newline, stripping
      removes exactly that line; when the first header runs to the end of the
      text (or there is none), stripping changes nothing. */
  lemma StripRemovesTitledHeader(s: string)
    ensures FindHeader(s, 0).Some? && FindHeader(s, 0).value.2 < |s| ==>
      var (p, a, e) := FindHeader(s, 0).value;
      StripHeader(s) == s[..p] + s[e + 1..]
    ensures FindHeader(s, 0).None? || FindHeader(s, 0).value.2 == |s| ==>
      StripHeader(s) == s
  {
    var h := FindHeader(s, 0);
    if h.None? {
      StripWithoutHeader(s);
    } else if h.value.2 < |s| {
      StripHeaderLine(s);
    } else {
      StripHeaderAtEnd(s);
    }
  }

  lemma StripWithoutHeader(s: string)
    requires FindHeader(s, 0).None?
    ensures StripHeader(s) == s
  {
    forall p: nat ensures !HeaderLineAt(s, p) {
      assert HeaderAt(s, p).None?;
    }
  }

  lemma StripHeaderLine(s: string)
    requires FindHeader(s, 0).Some? && FindHeader(s, 0).value.2 < |s|
    ensures var (p, a, e) := FindHeader(s, 0).value;
      StripHeader(s) == s[..p] + s[e + 1..]
  {
    var (p, a, e) := FindHeader(s, 0).value;
    HeaderAtUnique(s, p, a, e);
    forall p': nat | p' < p ensures !HeaderLineAt(s, p') {
      assert HeaderAt(s, p').None?;
    }
    FindHeaderLineReaches(s, 0, p);
  }

  lemma StripHeaderAtEnd(s: string)
    requires FindHeader(s, 0).Some? && FindHeader(s, 0).value.2 == |s|
    ensures StripHeader(s) == s
  {
    var (p, a, e) := FindHeader(s, 0).value;
    forall p': nat | p' < p ensures !HeaderLineAt(s, p') {
      assert HeaderAt(s, p').None?;
    }
    forall p': nat | p <= p' ensures !HeaderLineAt(s, p') {
      NoHeaderLineAfter(s, p, a, p');
    }
  }

  lemma {:induction false} DigitRunIs(s: string, from: nat, n: nat)
    requires from + n <= |s|
    requires forall j :: from <= j < from + n ==> IsDigit(s[j])
    requires from + n < |s| ==> !IsDigit(s[from + n])
    ensures DigitRun(s, from) == n
    decreases n
  {
    if n > 0 {
      DigitRunIs(s, from + 1, n - 1);
    }
  }

  lemma {:induction false} LineRunIs(s: string, from: nat, n: nat)
    requires from + n <= |s|
    requires forall j :: from <= j < from + n ==> s[j] != '\n'
    requires from + n < |s| ==> s[from + n] == '\n'
    ensures LineRun(s, from) == n
    decreases n
  {
    if n > 0 {
      LineRunIs(s, from + 1, n - 1);
    }
  }

  /** A header match at `p` is the one the search computes there. */
  lemma HeaderAtUnique(s: string, p: nat, a: nat, e: nat)
    requires HeaderMatchAt(s, p, a, e)
    ensures HeaderAt(s, p) == Some((a, e))
  {
    HeaderMatchDetermined(s, p);
  }

  /** After a header whose title runs to the end of `s`, no header line can start. */
  lemma NoHeaderLineAfter(s: string, p: nat, a: nat, p': nat)
    requires HeaderMatchAt(s, p, a, |s|)
    requires p <= p'
    ensures !HeaderLineAt(s, p')
  {
    if p' == p {
      HeaderAtUnique(s, p, a, |s|);
    } else if p' < a {
      assert s[p'] != 'C' by {
        if p' < p + |ChapterTag| {
          assert s[p'] == s[p..p + |ChapterTag|][p' - p] == ChapterTag[p' - p];
        } else if p' >= a - 2 {
          assert s[p'] == s[a - 2..a][p' - (a - 2)];
        }
      }
      assert !OccursAt(s, p', ChapterTag) by {
        if p' + |ChapterTag| <= |s| {
          assert s[p'..p' + |ChapterTag|][0] == s[p'];
        }
      }
    } else if HeaderAt(s, p').Some? {
      var a' := HeaderAt(s, p').value.0;
      LineRunIs(s, a', |s| - a');
    }
  }

  lemma FindHeaderLineReaches(s: string, from: nat, p: nat)
    requires from <= p < |s| && HeaderLineAt(s, p)
    requires forall j: nat :: from <= j < p ==> !HeaderLineAt(s, j)
    ensures FindHeaderLine(s, from) == Some(p)
    decreases p - from
  {
    if from < p {
      FindHeaderLineReaches(s, from + 1, p);
    }
  }

  /** The reply text that opens with the header "Chapter n: t". */
  function HeaderReply(n: nat, t: string, rest: string): string {
    "Chapter " + NatToString(n) + ": " + t + "\n" + rest
  }

  /** The header line the generator is asked to write matches the header
      pattern at its start, with `t` as the title group and `rest` after its
      line. */
  lemma BuiltHeaderMatch(n: nat, t: string, rest: string) returns (a: nat, e: nat)
    requires t != "" && '\n' !in t
    ensures a == |ChapterTag| + |NatToString(n)| + 2 && e == a + |t|
    ensures HeaderMatchAt(HeaderReply(n, t, rest), 0, a, e) && e < |HeaderReply(n, t, rest)|
    ensures HeaderReply(n, t, rest)[a..e] == t && HeaderReply(n, t, rest)[e + 1..] == rest
  {
    var digits := NatToString(n);
    var s := "Chapter " + digits + ": " + t + "\n" + rest;
    a := |ChapterTag| + |digits| + 2;
    e := a + |t|;
    assert s[..|ChapterTag|] == ChapterTag;
    assert forall j :: |ChapterTag| <= j < a - 2 ==> s[j] == digits[j - |ChapterTag|];
    assert s[a - 2] == ':' && s[a - 1] == ' ';
    assert s[a - 2..a] == ": ";
    assert forall j :: a <= j < e ==> s[j] == t[j - a];
    assert s[e] == '\n';
    assert s[a..e] == t;
    assert s[e + 1..] == rest;
  }

  /** A header match at the very start is the first header. */
  lemma HeaderAtStart(s: string, a: nat, e: nat)
    requires HeaderMatchAt(s, 0, a, e)
    ensures FindHeader(s, 0) == Some((0, a, e))
  {
    HeaderAtUnique(s, 0, a, e);
  }

  /** A text whose first header starts it: the title is that header's group. */
  lemma FirstHeaderTitle(s: string, a: nat, e: nat)
    requires FindHeader(s, 0) == Some((0, a, e))
    ensures HeaderTitle(s) == Some(s[a..e])
  {
  }

  /** ... and stripping keeps what follows its line. */
  lemma FirstHeaderStripped(s: string, a: nat, e: nat)
    requires FindHeader(s, 0) == Some((0, a, e)) && e < |s|
    ensures StripHeader(s) == s[e + 1..]
  {
    HeaderAtUnique(s, 0, a, e);
    assert HeaderLineAt(s, 0);
    assert FindHeaderLine(s, 0) == Some(0);
    assert s[..0] + s[e + 1..] == s[e + 1..];
  }

  /** A header at the very start of a text whose title is followed by a
      newline: it gives the title, and stripping keeps what follows its line. */
  lemma HeaderReadBack(s: string, a: nat, e: nat)
    requires HeaderMatchAt(s, 0, a, e) && e < |s|
    ensures HeaderTitle(s) == Some(s[a..e]) && StripHeader(s) == s[e + 1..]
  {
    HeaderAtStart(s, a, e);
    FirstHeaderTitle(s, a, e);
    FirstHeaderStripped(s, a, e);
  }

  /** The generator's header read back: a reply that starts with
      "Chapter n: t" on its own line yields `t` as its title, and stripping
      the header leaves exactly the rest of the reply. */
  lemma HeaderRoundTrip(n: nat, t: string, rest: string)
    requires t != "" && '\n' !in t
    ensures HeaderTitle(HeaderReply(n, t, rest)) == Some(t)
    ensures StripHeader(HeaderReply(n, t, rest)) == rest
  {
    var a, e := BuiltHeaderMatch(n, t, rest);
    HeaderReadBack(HeaderReply(n, t, rest), a, e);
  }
}
