/** The builder page: the chapters of an item's markdown, the clean-up applied to generated
    HTML, and the page's handlers for saving streamed markdown, submitting a chat message and
    saving a prompt. */
module Builder {
  import opened Wrappers
  import opened Text
  import opened Json
  import opened Lists
  import opened Prompts

  // ---------------------------------------------------------------- chapters

  /** `newChapter(prompt)`: the header that opens the chapter of one refinement. */
  function NewChapter(prompt: string): string {
    "\n\n---\nprompt: " + prompt + "\n---\n\n"
  }

  /** How many characters at the start of `t` `.` matches in a row. */
  function LineRun(t: string): (n: nat)
    ensures n <= |t|
    ensures forall k :: 0 <= k < n ==> LineChar(t[k])
    ensures n == |t| || !LineChar(t[n])
  {
    if t != [] && LineChar(t[0]) then 1 + LineRun(t[1..]) else 0
  }

  const HeaderOpen: string := "---\nprompt:"
  const HeaderClose: string := "\n---"

  /** The length of the match of `/---\nprompt:.+\n---/` at the start of `t`, if any. `.+` can
      only give way to `\n`, so the greedy run of line characters is the one that must be
      followed by `\n---`. */
  function HeaderAt(t: string): (r: Option<nat>)
    ensures r.Some? ==> 16 <= r.value <= |t|
    ensures r.Some? ==> StartsWith(t, HeaderOpen) && r.value == 15 + LineRun(t[11..]) &&
                        t[r.value - 4..r.value] == HeaderClose
  {
    if StartsWith(t, HeaderOpen) then
      var n := LineRun(t[11..]);
      if n >= 1 && 15 + n <= |t| && t[11 + n..15 + n] == HeaderClose then
        Some(15 + n)
      else None
    else None
  }

  /** Where the last piece of `s.split(regex)` starts, for the regex `matcher` matches at the
      start of a text: the scan tries a match at `q` and, after a match, goes on from its end;
      `p` is where the current piece starts. (The matchers used here never report an empty or
      overlong match; the guard only makes the scan total for any matcher.) */
  function LastEnd(s: string, q: nat, p: nat, matcher: string -> Option<nat>): (r: nat)
    requires p <= |s|
    ensures r <= |s|
    decreases |s| - q
  {
    if q >= |s| then p
    else
      var m := matcher(s[q..]);
      if m.Some? && 0 < m.value <= |s| - q then LastEnd(s, q + m.value, q + m.value, matcher)
      else LastEnd(s, q + 1, p, matcher)
  }

  /** The scan moves past every match that starts before `b` when each of them ends by `b`, and
      so reaches the match at `b`. */
  lemma {:induction false} ScanReaches(s: string, q: nat, p: nat, b: nat, n: nat, matcher: string -> Option<nat>)
    requires p <= |s| && q <= b && 0 < n <= |s| - b && matcher(s[b..]) == Some(n)
    requires forall j :: q <= j < b ==> matcher(s[j..]).None? || j + matcher(s[j..]).value <= b
    ensures LastEnd(s, q, p, matcher) == LastEnd(s, b + n, b + n, matcher)
    decreases b - q
  {
    if q < b {
      var h := matcher(s[q..]);
      if h.Some? && 0 < h.value {
        ScanReaches(s, q + h.value, q + h.value, b, n, matcher);
      } else {
        ScanReaches(s, q + 1, p, b, n, matcher);
      }
    }
  }

  /** Past `e`, where no match starts, the last piece begins at `e`. */
  lemma {:induction false} ScanFinishes(s: string, q: nat, e: nat, matcher: string -> Option<nat>)
    requires e <= q <= |s|
    requires forall j :: q <= j < |s| ==> matcher(s[j..]).None?
    ensures LastEnd(s, q, e, matcher) == e
    decreases |s| - q
  {
    if q < |s| {
      ScanFinishes(s, q + 1, e, matcher);
    }
  }

  /** When the match at `b` is the only one the scan can meet, the last piece starts at its end. */
  lemma {:induction false} ScanLastMatch(s: string, b: nat, n: nat, matcher: string -> Option<nat>)
    requires 0 < n <= |s| - b && matcher(s[b..]) == Some(n)
    requires forall j :: 0 <= j < b ==> matcher(s[j..]).None? || j + matcher(s[j..]).value <= b
    requires forall j :: b + n <= j < |s| ==> matcher(s[j..]).None?
    ensures LastEnd(s, 0, 0, matcher) == b + n
  {
    ScanReaches(s, 0, 0, b, n, matcher);
    ScanFinishes(s, b + n, b + n, matcher);
  }

  /** `s.split(/---\nprompt:.+\n---/gm).pop()`: the text after the last chapter header. */
  function LastChapter(s: string): string {
    s[LastEnd(s, 0, 0, HeaderAt)..]
  }

  /** The markdown the page shows for an item: `(item.markdown ?? '')`'s last chapter. */
  function CurrentChapter(markdown: Option<string>): string {
    LastChapter(markdown.GetOr(""))
  }

  /** No chapter header starts anywhere in `x`. */
  predicate NoHeader(x: string) {
    forall i :: 0 <= i <= |x| ==> HeaderAt(x[i..]).None?
  }

  /** A blank line `\n\n` cannot begin inside a header's opening `---\nprompt:`. */
  lemma BreakAfterOpen(u: string, c: nat)
    requires StartsWith(u, HeaderOpen)
    requires c + 1 < |u| && u[c] == '\n' && u[c + 1] == '\n'
    ensures c >= 11
  {
    forall k | 0 <= k < 11 ensures u[k] == HeaderOpen[k] {
      assert u[..11][k] == u[k];
    }
    assert forall k :: 0 <= k < 11 && k != 3 ==> u[k] != '\n';
    assert u[4] == 'p';
  }

  /** A blank line `\n\n` at or after a header's closing `\n---` begins after it. */
  lemma BreakAfterClose(u: string, j: nat, c: nat)
    requires j + 4 <= |u| && u[j..j + 4] == HeaderClose
    requires c + 1 < |u| && u[c] == '\n' && u[c + 1] == '\n' && j <= c
    ensures c >= j + 4
  {
    assert u[j..j + 4][1] == u[j + 1] && u[j..j + 4][2] == u[j + 2] && u[j..j + 4][3] == u[j + 3];
    assert u[j + 1] == '-' && u[j + 2] == '-' && u[j + 3] == '-';
  }

  /** A header at the start of `u` ends before a blank line `\n\n` that begins at `c`. */
  lemma HeaderEndsBeforeBreak(u: string, c: nat)
    requires c + 1 < |u| && u[c] == '\n' && u[c + 1] == '\n'
    ensures HeaderAt(u).None? || HeaderAt(u).value <= c
  {
    if HeaderAt(u).Some? {
      var n := LineRun(u[11..]);
      BreakAfterOpen(u, c);
      assert !LineChar(u[11..][c - 11]);
      BreakAfterClose(u, 11 + n, c);
    }
  }

  /** A text opening with a line terminator holds no header at its start. */
  lemma NoHeaderAtBreak(u: string)
    requires u != [] && u[0] == '\n'
    ensures HeaderAt(u).None?
  {
    assert HeaderOpen[0] == '-';
  }

  /** The header of `newChapter(p)` for a one-line prompt `p` is one match. */
  lemma HeaderOfNewChapter(p: string, y: string)
    requires forall k :: 0 <= k < |p| ==> LineChar(p[k])
    ensures HeaderAt(HeaderOpen + " " + p + HeaderClose + y) == Some(16 + |p|)
  {
    var t := HeaderOpen + " " + p + HeaderClose + y;
    assert t[..11] == HeaderOpen;
    var rest := t[11..];
    assert rest == " " + p + HeaderClose + y;
    assert forall k :: 0 <= k < |p| + 1 ==> rest[k] == (" " + p)[k];
    assert rest[|p| + 1] == '\n';
    var n := LineRun(rest);
    assert n == |p| + 1;
    assert t[11 + n..15 + n] == HeaderClose;
  }

  /** No header match that starts before a blank line at `c` runs past it. */
  lemma {:induction false} BeforeBreak(s: string, c: nat)
    requires c + 1 < |s| && s[c] == '\n' && s[c + 1] == '\n'
    ensures forall j :: 0 <= j < c + 2 ==> HeaderAt(s[j..]).None? || j + HeaderAt(s[j..]).value <= c + 2
  {
    forall j | 0 <= j < c + 2 ensures HeaderAt(s[j..]).None? || j + HeaderAt(s[j..]).value <= c + 2 {
      if j == c + 1 {
        NoHeaderAtBreak(s[j..]);
      } else {
        HeaderEndsBeforeBreak(s[j..], c - j);
      }
    }
  }

  /** No header starts in a blank line followed by header-free text. */
  lemma {:induction false} AfterBreak(s: string, e: nat, x: string)
    requires e <= |s| && s[e..] == "\n\n" + x && NoHeader(x)
    ensures forall j :: e <= j < |s| ==> HeaderAt(s[j..]).None?
  {
    forall j | e <= j < |s| ensures HeaderAt(s[j..]).None? {
      if j < e + 2 {
        NoHeaderAtBreak(s[j..]);
      } else {
        assert s[j..] == x[j - e - 2..];
      }
    }
  }

  lemma NewChapterShape(p: string)
    ensures NewChapter(p) == "\n\n" + (HeaderOpen + " " + p + HeaderClose) + "\n\n"
  {
  }

  lemma Suffixes(a: string, b: string, c: string)
    ensures (a + b + c)[|a|..] == b + c && (a + b + c)[|a| + |b|..] == c
    ensures forall k :: 0 <= k < |a| ==> (a + b + c)[k] == a[k]
  {
  }

  /** The chapter round trip: after a chapter for a one-line prompt `p`, followed by text `x`
      with no header in it, the page shows `"\n\n" + x`, whatever came before. */
  lemma {:induction false} LastChapterOfNewChapter(m: string, p: string, x: string)
    requires forall k :: 0 <= k < |p| ==> LineChar(p[k])
    requires NoHeader(x)
    ensures LastChapter(m + NewChapter(p) + x) == "\n\n" + x
  {
    var s := m + NewChapter(p) + x;
    var c := |m|;
    var e := c + 18 + |p|;
    var header := HeaderOpen + " " + p + HeaderClose;
    NewChapterShape(p);
    assert |header| == 16 + |p|;
    Suffixes(m + "\n\n", header, "\n\n" + x);
    assert s == (m + "\n\n") + header + ("\n\n" + x);
    HeaderOfNewChapter(p, "\n\n" + x);
    BeforeBreak(s, c);
    AfterBreak(s, e, x);
    ScanLastMatch(s, c + 2, 16 + |p|, HeaderAt);
  }

  // ---------------------------------------------------------------- fixHTML

  /** `s.replaceAll(regex, rep)` for a global regex that `matcher` matches at the start of a
      text, when `rep` holds no `$`: each match, tried left to right, is written as `rep` and
      the scan goes on after it; elsewhere one character is copied. (A matcher reporting an
      empty or overlong match counts as no match; the ones used here never do.) */
  function ReplaceMatches(s: string, matcher: string -> Option<nat>, rep: string): string
    decreases |s|
  {
    if s == [] then []
    else
      var m := matcher(s);
      if m.Some? && 0 < m.value <= |s| then rep + ReplaceMatches(s[m.value..], matcher, rep)
      else [s[0]] + ReplaceMatches(s[1..], matcher, rep)
  }

  /** Text where no match starts is copied as it is, and the scan goes on after it. */
  lemma {:induction false} ScanCopies(a: string, rest: string, matcher: string -> Option<nat>, rep: string)
    requires forall i :: 0 <= i < |a| ==> matcher((a + rest)[i..]).None?
    ensures ReplaceMatches(a + rest, matcher, rep) == a + ReplaceMatches(rest, matcher, rep)
    decreases |a|
  {
    if a != [] {
      var s := a + rest;
      assert s[0..] == s;
      assert s[1..] == a[1..] + rest;
      forall i | 0 <= i < |a[1..]| ensures matcher((a[1..] + rest)[i..]).None? {
        assert (a[1..] + rest)[i..] == s[i + 1..];
      }
      ScanCopies(a[1..], rest, matcher, rep);
      assert matcher(s).None?;
      var tail := ReplaceMatches(rest, matcher, rep);
      assert ReplaceMatches(s, matcher, rep) == [a[0]] + (a[1..] + tail);
      assert [a[0]] + (a[1..] + tail) == ([a[0]] + a[1..]) + tail;
      assert a == [a[0]] + a[1..];
    } else {
      assert a + rest == rest;
    }
  }

  predicate EndsWith(s: string, suffix: string) {
    |suffix| <= |s| && s[|s| - |suffix|..] == suffix
  }

  /** A quoted text ending in `.mp3` or `.wav`. */
  predicate AudioName(name: string) {
    EndsWith(name, ".mp3") || EndsWith(name, ".wav")
  }

  /** The length of the match of `/"[^"]*\.(mp3|wav)"|'[^']*\.(mp3|wav)'/` at the start of `t`:
      a quote, the text up to the first matching quote, which must end in `.mp3` or `.wav`,
      and that quote. */
  function AudioAt(t: string): (r: Option<nat>)
    ensures r.Some? ==> 2 <= r.value <= |t|
  {
    if t != [] && (t[0] == '"' || t[0] == '\'') then
      var k := IndexOf(t[1..], t[0]);
      if k >= 0 && AudioName(t[1..k + 1]) then Some(k + 2) else None
    else None
  }

  /** What an audio link becomes: the page's own sound, quoted. */
  function AudioLink(origin: string): string {
    "\"" + origin + "/openui/funky.mp3" + "\""
  }

  function RedirectAudio(s: string, origin: string): string {
    ReplaceMatches(s, AudioAt, AudioLink(origin))
  }

  /** Where the first `-->` at or after `k` starts. */
  function CloseFrom(t: string, k: nat): (r: Option<nat>)
    ensures r.Some? ==> k <= r.value && OccursAt(t, "-->", r.value)
    ensures r.Some? ==> forall i :: k <= i < r.value ==> !OccursAt(t, "-->", i)
    ensures r.None? ==> forall i :: k <= i ==> !OccursAt(t, "-->", i)
    decreases |t| - k
  {
    if k + 3 > |t| then None
    else if t[k..k + 3] == "-->" then Some(k)
    else CloseFrom(t, k + 1)
  }

  /** The scan from `j` stops at the first `-->`. */
  lemma {:induction false} CloseFromFirst(t: string, j: nat, k: nat)
    requires j <= k && OccursAt(t, "-->", k)
    requires forall i :: j <= i < k ==> !OccursAt(t, "-->", i)
    ensures CloseFrom(t, j) == Some(k)
    decreases k - j
  {
    if j < k {
      assert !OccursAt(t, "-->", j);
      CloseFromFirst(t, j + 1, k);
    }
  }

  /** The length of the match of `/<!--[\s\S]*?-->/` at the start of `t`: `<!--` and the
      text up to the first `-->` after it, the shortest match. */
  function CommentAt(t: string): (r: Option<nat>)
    ensures r.Some? ==> 7 <= r.value <= |t|
  {
    if StartsWith(t, "<!--") then
      match CloseFrom(t, 4)
      case Some(k) => Some(k + 3)
      case None => None
    else None
  }

  function StripComments(s: string): string {
    ReplaceMatches(s, CommentAt, "")
  }

  /** `fixHTML`: gray styles become zinc, placeholder images come from placehold.co, quoted
      audio files point to the page's own sound at `origin`, and comments are removed last. */
  function FixHTML(html: string, origin: string): string {
    var fixed := ReplaceAll(html, "-gray-", "-zinc-");
    var fixed := ReplaceAll(fixed, "via.placeholder.com", "placehold.co");
    var fixed := RedirectAudio(fixed, origin);
    StripComments(fixed)
  }

  /** The two string replacements hold no `$`, so each is the plain left-to-right scan that
      writes its replacement over every non-overlapping occurrence. */
  lemma {:induction false} FixHTMLStages(html: string, origin: string)
    ensures FixHTML(html, origin) == StripComments(RedirectAudio(
      PlainReplace(PlainReplace(html, "-gray-", "-zinc-"), "via.placeholder.com", "placehold.co"), origin))
  {
    ReplaceFromPlain(html, 0, "-gray-", "-zinc-");
    assert html[0..] == html;
    var fixed := PlainReplace(html, "-gray-", "-zinc-");
    ReplaceFromPlain(fixed, 0, "via.placeholder.com", "placehold.co");
    assert fixed[0..] == fixed;
  }

  /** A match at the start is written as `rep`, and the scan goes on after it. */
  lemma ScanReplaces(t: string, n: nat, matcher: string -> Option<nat>, rep: string)
    requires 0 < n <= |t| && matcher(t) == Some(n)
    ensures ReplaceMatches(t, matcher, rep) == rep + ReplaceMatches(t[n..], matcher, rep)
  {
  }

  /** The first `x` after a stretch free of `x` sits just past that stretch. */
  lemma IndexOfAfter(pre: string, x: char, post: string)
    requires x !in pre
    ensures IndexOf(pre + [x] + post, x) == |pre|
  {
    var xs := pre + [x] + post;
    assert xs[|pre|] == x;
  }

  /** A quoted audio file name is one match. */
  lemma AudioAtLink(q: char, name: string, b: string)
    requires q == '"' || q == '\''
    requires q !in name && AudioName(name)
    ensures AudioAt([q] + name + [q] + b) == Some(|name| + 2)
  {
    var t := [q] + name + [q] + b;
    assert IndexOf(t[1..], t[0]) == |name| by {
      assert t[0] == q && t[1..] == name + [q] + b;
      IndexOfAfter(name, q, b);
    }
    assert t[1..|name| + 1] == name;
  }

  /** A quoted audio file name is replaced by the page's sound, when no quote comes before it. */
  lemma {:induction false} AudioLinkRedirected(a: string, q: char, name: string, b: string, origin: string)
    requires q == '"' || q == '\''
    requires q !in name && AudioName(name)
    requires forall i :: 0 <= i < |a| ==> a[i] != '"' && a[i] != '\''
    ensures RedirectAudio(a + [q] + name + [q] + b, origin) ==
      a + AudioLink(origin) + RedirectAudio(b, origin)
  {
    var t := [q] + name + [q] + b;
    var link := AudioLink(origin);
    assert a + [q] + name + [q] + b == a + t;
    assert ReplaceMatches(a + t, AudioAt, link) == a + ReplaceMatches(t, AudioAt, link) by {
      forall i | 0 <= i < |a| ensures AudioAt((a + t)[i..]).None? {
        assert (a + t)[i..][0] == a[i];
      }
      ScanCopies(a, t, AudioAt, link);
    }
    assert ReplaceMatches(t, AudioAt, link) == link + ReplaceMatches(b, AudioAt, link) by {
      AudioAtLink(q, name, b);
      ScanReplaces(t, |name| + 2, AudioAt, link);
      assert t[|name| + 2..] == b;
    }
    assert a + (link + ReplaceMatches(b, AudioAt, link)) == a + link + ReplaceMatches(b, AudioAt, link);
  }

  /** A comment without `-->` inside is one match. */
  lemma CommentAtComment(c: string, b: string)
    requires !Contains(c, "-->")
    ensures CommentAt("<!--" + c + "-->" + b) == Some(|c| + 7)
  {
    var t := "<!--" + c + "-->" + b;
    var k := |c| + 4;
    assert t[..4] == "<!--";
    assert t[k..k + 3] == "-->";
    forall i | 4 <= i < k ensures !OccursAt(t, "-->", i) {
      if i + 3 <= k {
        assert t[i..i + 3] == c[i - 4..i - 1];
        assert !OccursAt(c, "-->", i - 4);
      } else {
        assert t[k] == '-' && t[k + 1] == '-' && t[k + 2] == '>';
      }
    }
    CloseFromFirst(t, 4, k);
  }

  /** A comment is removed, when no `<` comes before it and it holds no `-->`. */
  lemma {:induction false} CommentDropped(a: string, c: string, b: string)
    requires forall i :: 0 <= i < |a| ==> a[i] != '<'
    requires !Contains(c, "-->")
    ensures StripComments(a + "<!--" + c + "-->" + b) == a + StripComments(b)
  {
    var t := "<!--" + c + "-->" + b;
    assert a + "<!--" + c + "-->" + b == a + t;
    forall i | 0 <= i < |a| ensures CommentAt((a + t)[i..]).None? {
      assert (a + t)[i..][0] == a[i];
    }
    ScanCopies(a, t, CommentAt, "");
    CommentAtComment(c, b);
    ScanReplaces(t, |c| + 7, CommentAt, "");
    assert t[|c| + 7..] == b;
    calc {
      StripComments(a + "<!--" + c + "-->" + b);
      ReplaceMatches(a + t, CommentAt, "");
      a + ReplaceMatches(t, CommentAt, "");
      a + ("" + ReplaceMatches(b, CommentAt, ""));
      { assert "" + ReplaceMatches(b, CommentAt, "") == ReplaceMatches(b, CommentAt, ""); }
      a + StripComments(b);
    }
  }

  /** HTML without the two strings, without quotes and without `<` comes out unchanged. */
  lemma {:induction false} FixHTMLUnchanged(html: string, origin: string)
    requires !Contains(html, "-gray-") && !Contains(html, "via.placeholder.com")
    requires forall i :: 0 <= i < |html| ==> html[i] != '"' && html[i] != '\'' && html[i] != '<'
    ensures FixHTML(html, origin) == html
  {
    ReplaceAllNoOccurrence(html, "-gray-", "-zinc-");
    ReplaceAllNoOccurrence(html, "via.placeholder.com", "placehold.co");
    forall i | 0 <= i < |html| ensures AudioAt((html + [])[i..]).None? && CommentAt((html + [])[i..]).None? {
      assert (html + [])[i..][0] == html[i];
    }
    ScanCopies(html, [], AudioAt, AudioLink(origin));
    ScanCopies(html, [], CommentAt, "");
    assert html + [] == html;
  }

  // ---------------------------------------------------------------- page handlers

  /** A history item as the page sees it; `createdAt` is a clock reading in milliseconds. */
  datatype Item = Item(prompt: string, markdown: Option<string>, prompts: Option<seq<string>>,
                       html: Option<string>, createdAt: Option<int>)

  /** A generation the page asked for: the query, the current HTML and the screenshot. */
  datatype Request = Request(query: string, html: string, image: string)

  /** Everything the handlers read or write. `created` holds the items made under fresh ids,
      `location` the address the page navigated to last, `historySaves` how often the history
      was written out. */
  datatype View = View(item: Item, markdown: string, screenshot: string, editing: bool,
                       model: string, pureHTML: string, historyIds: seq<string>,
                       created: map<string, Item>, location: string, requests: seq<Request>,
                       savedPrompts: seq<SavedPrompt>, historySaves: nat)

  /** `action`: a page showing markdown refines, an empty one creates. */
  function ActionName(editing: bool): string {
    if editing then "refine" else "create"
  }

  /** What `saveMarkdown(final)` leaves: blank output is dropped; anything else is appended to
      the item's markdown and the history is saved. */
  function Saved(v: View, final: string): View {
    if Trim(final) == "" then v
    else v.(item := v.item.(markdown := Some(v.item.markdown.GetOr("") + final)),
            historySaves := v.historySaves + 1)
  }

  /** What `newComponent(prompt, clear)` leaves: an empty page, a new item under `newId` at the
      head of the history, and the page of that item, asked to generate. */
  function Created(v: View, prompt: string, clear: bool, newId: string, now: int): View {
    v.(markdown := "",
       created := v.created[newId := Item(prompt, None, None, None, Some(now))],
       historyIds := [newId] + v.historyIds,
       location := "/ai/" + newId + "?gen=1&clear=" + (if clear then "true" else "false"))
  }

  /** The item after a refinement with `query`: a new chapter and one more prompt. */
  function Refined(it: Item, query: string): Item {
    it.(markdown := Some(Interpolated(it.markdown) + NewChapter(query)),
        prompts := Some(it.prompts.GetOr([it.prompt]) + [query]))
  }

  /** What `handleChatSubmit(query)` leaves. */
  function Submitted(v: View, query: string, newId: string, now: int): View {
    if v.screenshot == "" && query == "" then v
    else if !v.editing then Created(v, query, v.screenshot == "", newId, now)
    else v.(markdown := "", item := Refined(v.item, query),
            requests := v.requests + [Request(query, v.pureHTML, v.screenshot)])
  }

  /** The payload `handleSavePrompt(prompt)` dispatches. */
  function PromptPayload(prompt: string, editing: bool, model: string): AddPayload {
    AddPayload(prompt, Some(if editing then "UI Modification" else "UI Creation"),
               Some([model, ActionName(editing)]))
  }

  /** What `handleSavePrompt(prompt)` leaves at clock reading `now`. */
  function PromptSaved(v: View, prompt: string, now: nat): View {
    v.(savedPrompts := Dispatch(v.savedPrompts, Add(PromptPayload(prompt, v.editing, v.model)), now))
  }

  /** The builder page's state and its handlers. */
  class Page {
    var item: Item
    var markdown: string
    var screenshot: string
    var editing: bool
    var model: string
    var pureHTML: string
    var historyIds: seq<string>
    var created: map<string, Item>
    var location: string
    var requests: seq<Request>
    var savedPrompts: seq<SavedPrompt>
    var historySaves: nat

    function State(): View
      reads this
    {
      View(item, markdown, screenshot, editing, model, pureHTML, historyIds, created, location,
           requests, savedPrompts, historySaves)
    }

    /** Opening the page on `item`: it shows the item's last chapter, edits when that is not
        empty, and starts from the item's HTML. */
    constructor(item: Item, screenshot: string, model: string, historyIds: seq<string>,
                savedPrompts: seq<SavedPrompt>)
      ensures State() == View(item, CurrentChapter(item.markdown), screenshot,
                              CurrentChapter(item.markdown) != "", model, item.html.GetOr(""),
                              historyIds, map[], "", [], savedPrompts, 0)
    {
      this.item := item;
      var chapter := CurrentChapter(item.markdown);
      markdown := chapter;
      this.screenshot := screenshot;
      editing := chapter != "";
      this.model := model;
      pureHTML := item.html.GetOr("");
      this.historyIds := historyIds;
      created := map[];
      location := "";
      requests := [];
      this.savedPrompts := savedPrompts;
      historySaves := 0;
    }

    /** `saveMarkdown(final)`. */
    method SaveMarkdown(final: string)
      modifies this
      ensures State() == Saved(old(State()), final)
    {
      if Trim(final) != "" {
        item := item.(markdown := Some(item.markdown.GetOr("") + final));
        historySaves := historySaves + 1;
      }
    }

    /** `newComponent(prompt, clear)` with the fresh id `newId` and the clock reading `now`. */
    method NewComponent(prompt: string, clear: bool, newId: string, now: int)
      modifies this
      ensures State() == Created(old(State()), prompt, clear, newId, now)
    {
      markdown := "";
      created := created[newId := Item(prompt, None, None, None, Some(now))];
      historyIds := [newId] + historyIds;
      location := "/ai/" + newId + "?gen=1&clear=" + (if clear then "true" else "false");
    }

    /** `handleChatSubmit(query)`; `newId` and `now` are what `nanoid()` and the clock give
        should a new component be made. */
    method HandleChatSubmit(query: string, newId: string, now: int)
      modifies this
      ensures State() == Submitted(old(State()), query, newId, now)
    {
      if screenshot == "" && query == "" {
        return;
      }
      if ActionName(editing) == "create" {
        NewComponent(query, screenshot == "", newId, now);
        return;
      }
      markdown := "";
      item := item.(markdown := Some(Interpolated(item.markdown) + NewChapter(query)),
                    prompts := Some(item.prompts.GetOr([item.prompt]) + [query]));
      requests := requests + [Request(query, pureHTML, screenshot)];
    }

    /** `handleSavePrompt(prompt)` at clock reading `now`. */
    method HandleSavePrompt(prompt: string, now: nat)
      modifies this
      ensures State() == PromptSaved(old(State()), prompt, now)
    {
      savedPrompts := Dispatch(savedPrompts, Add(PromptPayload(prompt, editing, model)), now);
    }
  }

  /** Blank output leaves the page as it is. */
  lemma SavedBlank(v: View, final: string)
    requires IsBlank(final)
    ensures Saved(v, final) == v
  {
    assert Trim(final) == "";
  }

  /** Other output is appended to the markdown, and the history is saved once. */
  lemma SavedNonBlank(v: View, final: string)
    requires !IsBlank(final)
    ensures Saved(v, final).item.markdown == Some(v.item.markdown.GetOr("") + final)
    ensures Saved(v, final).historySaves == v.historySaves + 1
  {
    assert Trim(final) != "";
  }

  /** Saving changes the page exactly when the output is not blank, and then only extends the
      item's markdown by it. */
  lemma SaveGuard(v: View, final: string)
    ensures Saved(v, final) == v <==> IsBlank(final)
    ensures var m := Saved(v, final).item.markdown.GetOr("");
      StartsWith(m, v.item.markdown.GetOr("")) &&
      m[|v.item.markdown.GetOr("")|..] == (if IsBlank(final) then "" else final)
  {
    var before := v.item.markdown.GetOr("");
    if IsBlank(final) {
      SavedBlank(v, final);
      assert before[..|before|] == before && before[|before|..] == "";
    } else {
      SavedNonBlank(v, final);
      assert Saved(v, final).historySaves != v.historySaves;
      assert (before + final)[..|before|] == before && (before + final)[|before|..] == final;
    }
  }

  /** A refinement followed by saving its output: the page's current chapter is the output,
      after the blank line that closes the header. */
  lemma RefineThenSave(v: View, query: string, final: string, newId: string, now: int)
    requires v.editing && (v.screenshot != "" || query != "")
    requires forall i :: 0 <= i < |query| ==> LineChar(query[i])
    requires NoHeader(final) && !IsBlank(final)
    ensures CurrentChapter(Saved(Submitted(v, query, newId, now), final).item.markdown) == "\n\n" + final
  {
    var m := Interpolated(v.item.markdown);
    assert Saved(Submitted(v, query, newId, now), final).item.markdown == Some(m + NewChapter(query) + final);
    LastChapterOfNewChapter(m, query, final);
  }

  /** Submitting does nothing with neither text nor screenshot; otherwise it makes a new
      component exactly when the page is not editing, and asks for a refinement exactly when
      it is. */
  lemma SubmitCases(v: View, query: string, newId: string, now: int)
    ensures v.screenshot == "" && query == "" ==> Submitted(v, query, newId, now) == v
    ensures var r := Submitted(v, query, newId, now);
      |r.requests| == |v.requests| + (if v.editing && (v.screenshot != "" || query != "") then 1 else 0)
    ensures var r := Submitted(v, query, newId, now);
      r.historyIds == (if !v.editing && (v.screenshot != "" || query != "") then [newId] + v.historyIds
                       else v.historyIds)
    ensures var r := Submitted(v, query, newId, now);
      !v.editing ==> r.item == v.item && r.requests == v.requests
  {
  }

  /** A refinement asks for `query` against the current HTML, and its item gains one chapter
      and one prompt, the first prompt staying first. */
  lemma RefineRecordsQuery(v: View, query: string, newId: string, now: int)
    requires v.editing && (v.screenshot != "" || query != "")
    ensures var r := Submitted(v, query, newId, now);
      r.requests[|r.requests| - 1] == Request(query, v.pureHTML, v.screenshot) &&
      r.markdown == "" &&
      r.item.prompt == v.item.prompt &&
      r.item.prompts.Some? && r.item.prompts.value[|r.item.prompts.value| - 1] == query &&
      r.item.prompts.value[0] == (if v.item.prompts.Some? && v.item.prompts.value != [] then v.item.prompts.value[0]
                                  else if v.item.prompts.Some? then query else v.item.prompt) &&
      r.item.markdown.value[..|Interpolated(v.item.markdown)|] == Interpolated(v.item.markdown)
  {
  }

  /** A new component is registered under its id, heads the history, and the page goes to it
      asking for generation, clearing the session exactly when there is no screenshot. */
  lemma CreateNavigates(v: View, query: string, newId: string, now: int)
    requires !v.editing && (v.screenshot != "" || query != "")
    ensures var r := Submitted(v, query, newId, now);
      newId in r.created && r.created[newId].prompt == query && r.created[newId].markdown.None? &&
      r.historyIds[0] == newId && r.historyIds[1..] == v.historyIds &&
      StartsWith(r.location, "/ai/" + newId + "?gen=1&clear=") &&
      r.location[|"/ai/" + newId + "?gen=1&clear="|..] == (if v.screenshot == "" then "true" else "false")
  {
  }

  /** A saved prompt is filed under the page's mode and tagged with the model and the action;
      the older prompts follow it. */
  lemma SavedPromptTags(v: View, prompt: string, now: nat)
    ensures var r := PromptSaved(v, prompt, now).savedPrompts;
      |r| == |v.savedPrompts| + 1 && r[1..] == v.savedPrompts &&
      r[0].text == prompt &&
      r[0].category == Some(if v.editing then "UI Modification" else "UI Creation") &&
      r[0].tags == Some([v.model, if v.editing then "refine" else "create"])
  {
  }
}
