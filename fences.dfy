/** Clean-up of the persona generator's reply before it is parsed as JSON:
    the reply is trimmed and an optional Markdown code fence is removed. */
module Fences {

  import opened Values
  import opened Text

  const JsonFence := "```json"
  const Fence := "```"

  /** A split whose separator opens the string starts with an empty piece. */
  lemma SplitAtStart(s: string, sep: string)
    requires sep != [] && StartsWith(s, sep)
    ensures Split(s, sep) == [""] + Split(s[|sep|..], sep)
  {
    assert OccursAt(s, sep, 0);
  }

  /** Stripping whitespace cannot create an occurrence of a pattern. */
  lemma StripLacks(s: string, pattern: string)
    requires !Contains(s, pattern)
    ensures !Contains(Strip(s), pattern)
  {
    var t := TrimStart(s, IsSpace);
    SliceLacks(s, pattern, |s| - |t|, |s|);
    assert s[|s| - |t|..|s|] == t;
    SliceLacks(t, pattern, 0, |TrimEnd(t, IsSpace)|);
  }

  /** The text after the opening `marker` up to the next fence, trimmed. */
  function Fenced(content: string, marker: string): (r: string)
    requires marker != [] && StartsWith(content, marker)
    ensures !Contains(r, Fence)
    ensures r == [] || (!IsSpace(r[0]) && !IsSpace(r[|r| - 1]))
  {
    SplitAtStart(content, marker);
    var inner := Split(content, marker)[1];
    var body := Split(inner, Fence)[0];
    SplitPiecesFree(inner, Fence, 0);
    StripLacks(body, Fence);
    Strip(body)
  }

  /** The content handed to the JSON parser: the trimmed reply, with a leading
      "```json" or "```" fence and everything from the closing fence on removed. */
  function StripFences(reply: string): (r: string)
    ensures !StartsWith(Strip(reply), Fence) ==> r == Strip(reply)
    ensures StartsWith(Strip(reply), Fence) ==> !Contains(r, Fence)
    ensures r == [] || (!IsSpace(r[0]) && !IsSpace(r[|r| - 1]))
  {
    var content := Strip(reply);
    JsonFenceIsFence(content);
    if StartsWith(content, JsonFence) then Fenced(content, JsonFence)
    else if StartsWith(content, Fence) then Fenced(content, Fence)
    else content
  }

  /** A reply opening with "```json" opens with a fence. */
  lemma JsonFenceIsFence(content: string)
    ensures StartsWith(content, JsonFence) ==> StartsWith(content, Fence)
  {
    if StartsWith(content, JsonFence) {
      assert content[..|Fence|] == content[..|JsonFence|][..|Fence|];
    }
  }

  /** An occurrence begins with the pattern's first character. */
  lemma OccursAtHead(s: string, pattern: string, j: nat)
    requires pattern != []
    ensures OccursAt(s, pattern, j) ==> s[j] == pattern[0]
  {
    if OccursAt(s, pattern, j) {
      assert s[j..j + |pattern|][0] == s[j];
    }
  }

  /** No occurrence of a backtick-led pattern starts inside a backtick-free body. */
  lemma NoneInBody(body: string, s: string, pattern: string)
    requires forall i :: 0 <= i < |body| ==> body[i] != '`'
    requires pattern != [] && pattern[0] == '`'
    requires |body| <= |s| && s[..|body|] == body
    ensures forall j :: 0 <= j < |body| ==> !OccursAt(s, pattern, j)
  {
    forall j | 0 <= j < |body| ensures !OccursAt(s, pattern, j) {
      OccursAtHead(s, pattern, j);
      assert s[j] == s[..|body|][j];
    }
  }

  /** A backtick-free body followed by a bare fence holds no "```json". */
  lemma NoJsonFenceAfterBody(body: string)
    requires forall i :: 0 <= i < |body| ==> body[i] != '`'
    ensures Split(body + Fence, JsonFence) == [body + Fence]
  {
    var rest := body + Fence;
    assert rest[..|body|] == body;
    NoneInBody(body, rest, JsonFence);
    forall j: nat | |body| <= j ensures !OccursAt(rest, JsonFence, j) {
    }
    SplitWhole(rest, JsonFence);
  }

  /** The first fence after a backtick-free body is the one that closes it. */
  lemma FirstFenceClosesBody(body: string)
    requires forall i :: 0 <= i < |body| ==> body[i] != '`'
    ensures IndexOf(body + Fence, Fence, 0) == Some(|body|)
  {
    var inner := body + Fence;
    assert inner[..|body|] == body;
    NoneInBody(body, inner, Fence);
    assert inner[|body|..|body| + 3] == Fence;
    IndexOfFirst(inner, Fence, |body|);
  }

  /** So the piece before the closing fence is the body itself. */
  lemma ClosingFence(body: string)
    requires forall i :: 0 <= i < |body| ==> body[i] != '`'
    ensures Split(body + Fence, Fence)[0] == body
  {
    var inner := body + Fence;
    FirstFenceClosesBody(body);
    SplitHead(inner, Fence, |body|);
    assert inner[..|body|] == body;
  }

  /** Wrapping a backtick-free body in a "```json" fence and stripping the fence
      gives back the trimmed body. */
  lemma JsonFenceRoundTrip(body: string)
    requires forall i :: 0 <= i < |body| ==> body[i] != '`'
    ensures StripFences(JsonFence + body + Fence) == Strip(body)
  {
    var content := JsonFence + body + Fence;
    var rest := body + Fence;
    WrappedEnds(JsonFence, body, content);
    JsonOpensFromShape(content);
    AfterOpeningFence(body, rest, content);
    ClosingFence(body);
    FencedBody(content, rest, body);
  }

  /** Wrapping a backtick-free body that does not begin with "json" in bare
      "```" fences and stripping the fences gives back the trimmed body. */
  lemma BareFenceRoundTrip(body: string)
    requires forall i :: 0 <= i < |body| ==> body[i] != '`'
    requires !StartsWith(body, "json")
    ensures StripFences(Fence + body + Fence) == Strip(body)
  {
    var content := Fence + body + Fence;
    WrappedEnds(Fence, body, content);
    BareNotJson(body, content);
    BareOpensFromShape(content);
    BareSplits(body, content);
    BareFencedBody(content, body);
  }

  /** A reply wrapped in fences begins and ends with a backtick and opens with
      its opening fence. */
  lemma WrappedEnds(open: string, body: string, content: string)
    requires open != [] && open[0] == '`' && content == open + body + Fence
    ensures content[0] == '`' && content[|content| - 1] == '`'
    ensures StartsWith(content, open)
  {
    assert content[..|open|] == open;
  }

  /** A bare-fenced body that does not begin with "json" does not make the
      reply open with "```json". */
  lemma BareNotJson(body: string, content: string)
    requires forall i :: 0 <= i < |body| ==> body[i] != '`'
    requires !StartsWith(body, "json") && content == Fence + body + Fence
    ensures !StartsWith(content, JsonFence)
  {
    var tag := "json";
    assert JsonFence == Fence + tag;
    if |body| < |tag| {
      assert content[|Fence| + |body|] == '`' != JsonFence[|Fence| + |body|];
    } else {
      assert content[|Fence|..|JsonFence|] == body[..|tag|];
    }
  }

  /** How `StripFences` reads a reply with backticks at both ends that opens
      with "```json". */
  lemma JsonOpensFromShape(content: string)
    requires content != [] && content[0] == '`' && content[|content| - 1] == '`'
    requires StartsWith(content, JsonFence)
    ensures StripFences(content) == Fenced(content, JsonFence)
  {
    StripUnchanged(content);
    TrimmedJsonReply(content);
  }

  /** How `StripFences` reads a reply with backticks at both ends that opens
      with "```" but not with "```json". */
  lemma BareOpensFromShape(content: string)
    requires content != [] && content[0] == '`' && content[|content| - 1] == '`'
    requires StartsWith(content, Fence) && !StartsWith(content, JsonFence)
    ensures StripFences(content) == Fenced(content, Fence)
  {
    StripUnchanged(content);
  }

  /** How `StripFences` reads a trimmed reply that opens with "```json". */
  lemma TrimmedJsonReply(content: string)
    requires Strip(content) == content && StartsWith(content, JsonFence)
    ensures StripFences(content) == Fenced(content, JsonFence)
  {
  }

  /** What `Fenced` keeps, given the two splits it performs. */
  lemma FencedBody(content: string, rest: string, body: string)
    requires StartsWith(content, JsonFence)
    requires Split(content, JsonFence)[1] == rest && Split(rest, Fence)[0] == body
    ensures Fenced(content, JsonFence) == Strip(body)
  {
  }

  /** The bare-fence counterpart of `FencedBody`. */
  lemma BareFencedBody(content: string, body: string)
    requires StartsWith(content, Fence)
    requires Split(content, Fence)[1] == body && Split(body, Fence)[0] == body
    ensures Fenced(content, Fence) == Strip(body)
  {
  }

  /** Between bare fences, the second piece of the split is the body, and the
      body has no fence of its own to split at. */
  lemma BareSplits(body: string, content: string)
    requires forall i :: 0 <= i < |body| ==> body[i] != '`'
    requires content == Fence + body + Fence
    ensures Split(content, Fence)[1] == body && Split(body, Fence)[0] == body
  {
    assert content[..|Fence|] == Fence;
    SplitAtStart(content, Fence);
    assert content[|Fence|..] == body + Fence;
    ClosingFence(body);
    NoneInBody(body, body, Fence);
    SplitWhole(body, Fence);
  }

  /** After "```json" the first piece is all the rest of the reply. */
  lemma AfterOpeningFence(body: string, rest: string, content: string)
    requires forall i :: 0 <= i < |body| ==> body[i] != '`'
    requires rest == body + Fence && content == JsonFence + body + Fence
    ensures StartsWith(content, JsonFence)
    ensures Split(content, JsonFence)[1] == rest
  {
    assert content[..|JsonFence|] == JsonFence;
    SplitAtStart(content, JsonFence);
    assert content[|JsonFence|..] == rest;
    NoJsonFenceAfterBody(body);
  }
}
