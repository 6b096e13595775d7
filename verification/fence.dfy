/** Removal of the markdown code fence a chat model often wraps its JSON in
    (the cleaning applied to both completions inside `_call_llm`). */
module Fence {
  import opened Wrappers
  import opened Text

  /** The marker that switches the fence branch on. */
  const FenceMarker: string := "```"

  /** The language tag dropped right after the fence. */
  const JsonTag: string := "json"

  /** The completion text as `json.loads` receives it: `None` reads as the
      empty string, outer whitespace is stripped, and a text that starts with
      three backticks loses EVERY leading and trailing backtick and then an
      immediate `json` tag together with the whitespace after it. Characters
      are only ever removed from the two ends: the result is one contiguous
      run of the content. */
  function Clean(content: Option<string>): (r: string)
    ensures IsSlice(r, content.GetOr(""))
  {
    var raw := Strip(content.GetOr(""), IsSpace);
    if FenceMarker <= raw then
      var r := Unfence(raw);
      SliceOfSlice(r, raw, content.GetOr(""));
      r
    else
      raw
  }

  /** The fence branch: every backtick on both ends goes, then a leading
      `json` tag and the whitespace after it. What is left is a run of `raw`
      that never ends with a backtick. */
  function Unfence(raw: string): (r: string)
    ensures IsSlice(r, raw)
    ensures r == [] || !IsBacktick(r[|r| - 1])
  {
    var unticked := Strip(raw, IsBacktick);
    if JsonTag <= unticked then
      var r := DropTag(unticked);
      SliceOfSlice(r, unticked, raw);
      r
    else
      unticked
  }

  /** `u[4:].lstrip()`: the `json` tag and the whitespace after it go; the
      rest is the final run of `u` after them, ending where `u` ends. */
  function DropTag(u: string): (r: string)
    requires JsonTag <= u
    ensures |r| <= |u| - |JsonTag| && r == u[|u| - |r|..]
    ensures forall i :: |JsonTag| <= i < |u| - |r| ==> IsSpace(u[i])
    ensures r == [] || !IsSpace(r[0])
    ensures IsSlice(r, u)
    ensures r == [] || r[|r| - 1] == u[|u| - 1]
  {
    var r := TrimStart(u[|JsonTag|..], IsSpace);
    assert u[|u| - |r|..|u|] == r;
    r
  }

  /** A missing message content behaves as an empty one. */
  lemma CleanMissingContent()
    ensures Clean(None) == Clean(Some("")) == ""
  {
  }

  /** Text that is not fenced comes back with its outer whitespace removed
      and nothing else changed. */
  lemma CleanUnfenced(a: string, m: string, b: string)
    requires All(a, IsSpace) && All(b, IsSpace)
    requires m == [] || (!IsSpace(m[0]) && !IsSpace(m[|m| - 1]))
    requires !(FenceMarker <= m)
    ensures Clean(Some(a + m + b)) == m
  {
    StripExact(a, m, b, IsSpace);
  }

  /** A payload as a chat model wraps it in a ```json fence. */
  function JsonFenced(c: string): string {
    "```json\n" + c + "\n```"
  }

  /** A payload wrapped in a fence without a language tag. */
  function PlainFenced(c: string): string {
    "```\n" + c + "\n```"
  }

  /** Text whose stripped form starts with the fence marker goes through
      the fence branch; outer whitespace never reaches it. */
  lemma CleanFenced(t: string, a: string, f: string, b: string)
    requires t == a + f + b
    requires All(a, IsSpace) && All(b, IsSpace)
    requires FenceMarker <= f && !IsSpace(f[|f| - 1])
    ensures Clean(Some(t)) == Unfence(f)
  {
    assert f[0] == '`';
    StripExact(a, f, b, IsSpace);
    assert Strip(t, IsSpace) == f;
  }

  /** Once the backticks are gone, the tag check alone decides the result. */
  lemma UnfenceBody(k1: string, m: string, k2: string)
    requires Strip(k1 + m + k2, IsBacktick) == m
    ensures Unfence(k1 + m + k2) == if JsonTag <= m then TrimStart(m[|JsonTag|..], IsSpace) else m
  {
  }

  /** Fence branch without a language tag: all backticks on both sides go,
      and whatever lies between them is returned untouched (whitespace
      included). */
  lemma UnfencePlain(k1: string, m: string, k2: string)
    requires All(k1, IsBacktick) && All(k2, IsBacktick)
    requires m == [] || (m[0] != '`' && m[|m| - 1] != '`')
    requires !(JsonTag <= m)
    ensures Unfence(k1 + m + k2) == m
  {
    StripExact(k1, m, k2, IsBacktick);
    UnfenceBody(k1, m, k2);
  }

  /** Fence branch with a `json` tag: the tag and the whitespace after it are
      removed as well, while whitespace before the closing fence stays. */
  lemma UnfenceJson(k1: string, m: string, w: string, r: string, k2: string)
    requires All(k1, IsBacktick) && All(k2, IsBacktick) && All(w, IsSpace)
    requires m == JsonTag + w + r
    requires r == [] || (!IsSpace(r[0]) && r[|r| - 1] != '`')
    ensures Unfence(k1 + m + k2) == r
  {
    TaggedEnds(m, w, r);
    StripExact(k1, m, k2, IsBacktick);
    UnfenceBody(k1, m, k2);
    TagSplit(m, w, r);
    TrimStartExact(w, r, IsSpace);
  }

  lemma TaggedEnds(m: string, w: string, r: string)
    requires All(w, IsSpace)
    requires m == JsonTag + w + r
    requires r == [] || r[|r| - 1] != '`'
    ensures m[0] != '`' && m[|m| - 1] != '`'
  {
    assert m[0] == 'j';
    if r != [] {
      assert m[|m| - 1] == r[|r| - 1];
    } else if w != [] {
      assert m[|m| - 1] == w[|w| - 1];
    } else {
      assert m[|m| - 1] == 'n';
    }
  }

  lemma TagSplit(m: string, w: string, r: string)
    requires m == JsonTag + w + r
    ensures JsonTag <= m && m[|JsonTag|..] == w + r
  {
    assert m[|JsonTag|..] == w + r;
  }

  /** Whenever the fence branch is taken the result does not end with a
      backtick (it may still start with one). */
  lemma CleanFencedEnd(t: string)
    requires FenceMarker <= Strip(t, IsSpace)
    ensures var r := Clean(Some(t)); r == [] || r[|r| - 1] != '`'
  {
    assert Clean(Some(t)) == Unfence(Strip(t, IsSpace));
  }

  /** The usual ```json fenced answer: the payload comes back followed by the
      newline that preceded the closing fence. */
  lemma WrapJsonRoundTrip(c: string)
    requires c != [] && !IsSpace(c[0])
    ensures Clean(Some(JsonFenced(c))) == c + "\n"
  {
    var m := JsonTag + "\n" + (c + "\n");
    FencedShapes(c);
    CleanTripleFenced(JsonFenced(c), m);
    JsonPayload(c, m);
  }

  lemma JsonPayload(c: string, m: string)
    requires c != [] && !IsSpace(c[0])
    requires m == JsonTag + "\n" + (c + "\n")
    ensures Unfence("```" + m + "```") == c + "\n"
  {
    var r := c + "\n";
    assert r[0] == c[0] && r[|r| - 1] == '\n';
    assert All("\n", IsSpace);
    UnfenceJson("```", m, "\n", r, "```");
  }

  /** A fence without a tag: the payload comes back between the two newlines
      next to the fences, for every payload. */
  lemma WrapPlainRoundTrip(c: string)
    ensures Clean(Some(PlainFenced(c))) == "\n" + c + "\n"
  {
    var m := "\n" + c + "\n";
    FencedShapes(c);
    CleanTripleFenced(PlainFenced(c), m);
    PlainPayload(c, m);
  }

  lemma PlainPayload(c: string, m: string)
    requires m == "\n" + c + "\n"
    ensures Unfence("```" + m + "```") == m
  {
    assert m[0] == '\n' && m[|m| - 1] == '\n';
    assert !(JsonTag <= m) by {
      assert m[0] != JsonTag[0];
    }
    UnfencePlain("```", m, "```");
  }

  lemma FencedShapes(c: string)
    ensures JsonFenced(c) == "```" + (JsonTag + "\n" + (c + "\n")) + "```"
    ensures PlainFenced(c) == "```" + ("\n" + c + "\n") + "```"
  {
  }

  /** A text opening and closing with exactly the three-backtick marker is
      cleaned by the fence branch alone. */
  lemma CleanTripleFenced(t: string, m: string)
    requires t == "```" + m + "```"
    ensures Clean(Some(t)) == Unfence("```" + m + "```")
  {
    var f := "```" + m + "```";
    assert f[..3] == FenceMarker && f[|f| - 1] == '`';
    CleanFenced(t, [], f, []);
  }

  /** The four characters JSON treats as insignificant whitespace. */
  predicate IsJsonSpace(c: char) {
    c == ' ' || c == '\t' || c == '\n' || c == '\r'
  }

  /** A decoder that, like `json.loads`, ignores JSON whitespace around the
      document. */
  ghost predicate IgnoresPadding<T>(parse: string -> T) {
    forall s, i, j :: 0 <= i <= j <= |s| && All(s[..i], IsJsonSpace) && All(s[j..], IsJsonSpace)
      ==> parse(s[i..j]) == parse(s)
  }

  /** For such a decoder, a payload wrapped in ```json or in a bare fence
      decodes exactly as the unwrapped payload does. */
  lemma WrappedParsesAsPayload<T>(parse: string -> T, c: string)
    requires IgnoresPadding(parse)
    requires c != [] && !IsSpace(c[0])
    ensures parse(Clean(Some(JsonFenced(c)))) == parse(c)
    ensures parse(Clean(Some(PlainFenced(c)))) == parse(c)
  {
    WrapJsonRoundTrip(c);
    var s := c + "\n";
    assert s[..|c|] == c && All(s[..0], IsJsonSpace) && All(s[|c|..], IsJsonSpace);
    assert parse(s[0..|c|]) == parse(s);
    WrapPlainRoundTrip(c);
    var p := "\n" + c + "\n";
    assert p[1..|c| + 1] == c && All(p[..1], IsJsonSpace) && All(p[|c| + 1..], IsJsonSpace);
    assert parse(p[1..|c| + 1]) == parse(p);
  }

  /** Cleaning is not idempotent: a bare fence leaves the newlines around the
      payload, which a second cleaning strips. */
  lemma CleanNotIdempotent(c: string)
    requires c != [] && !IsSpace(c[0]) && !IsSpace(c[|c| - 1])
    requires !(FenceMarker <= c)
    ensures Clean(Some(PlainFenced(c))) == "\n" + c + "\n"
    ensures Clean(Some(Clean(Some(PlainFenced(c))))) == c
  {
    WrapPlainRoundTrip(c);
    CleanUnfenced("\n", c, "\n");
  }

  /** Backticks inside the fence survive: after the tag is dropped the result
      can start with a backtick. */
  lemma CleanKeepsInnerBacktick(c: string)
    requires c != [] && c[|c| - 1] != '`'
    ensures Clean(Some("```json `" + c + "`")) == "`" + c
  {
    var f := "```" + (JsonTag + " " + ("`" + c)) + "`";
    assert f[..3] == FenceMarker && f[|f| - 1] == '`';
    CleanFenced("```json `" + c + "`", [], f, []);
    InnerBacktickPayload(c);
  }

  lemma InnerBacktickPayload(c: string)
    requires c != [] && c[|c| - 1] != '`'
    ensures Unfence("```" + (JsonTag + " " + ("`" + c)) + "`") == "`" + c
  {
    var r := "`" + c;
    assert r[0] == '`' && r[|r| - 1] == c[|c| - 1];
    assert All(" ", IsSpace);
    UnfenceJson("```", JsonTag + " " + r, " ", r, "`");
  }
}
