/** Group invite codes: reading one out of a pasted invite link or a bare code. */
module Invite {

  import opened Values
  import opened Text

  const LinkPrefix := "chat.whatsapp.com/"
  const CodeLength := 22

  /** Exactly 22 ASCII letters and digits. */
  predicate IsCode(s: string)
  {
    |s| == CodeLength && forall i :: 0 <= i < |s| ==> IsAsciiAlnum(s[i])
  }

  /** `chat.whatsapp.com/` at index `i`, followed by a code. */
  predicate LinkAt(link: string, i: nat)
  {
    && i + |LinkPrefix| + CodeLength <= |link|
    && OccursAt(link, LinkPrefix, i)
    && IsCode(link[i + |LinkPrefix|..i + |LinkPrefix| + CodeLength])
  }

  /** The code of the link found at `i`. */
  function CodeAt(link: string, i: nat): (code: string)
    requires LinkAt(link, i)
    ensures IsCode(code)
  {
    link[i + |LinkPrefix|..i + |LinkPrefix| + CodeLength]
  }

  /** The leftmost link at or after `from`, as a regular-expression search finds it. */
  function FindLink(link: string, from: nat): (r: Option<nat>)
    ensures r.Some? ==> from <= r.value && LinkAt(link, r.value)
    ensures r.Some? ==> forall j :: from <= j < r.value ==> !LinkAt(link, j)
    ensures r.None? ==> forall j: nat :: from <= j ==> !LinkAt(link, j)
    decreases |link| - from
  {
    if from + |LinkPrefix| + CodeLength > |link| then None
    else if LinkAt(link, from) then Some(from)
    else FindLink(link, from + 1)
  }

  /** The invite code in a pasted line: the code after the leftmost
      `chat.whatsapp.com/`, or else the whole trimmed line when it is a code. */
  function ExtractInviteCode(link: string): (r: Option<string>)
    ensures r.Some? ==> IsCode(r.value)
  {
    match FindLink(link, 0)
    case Some(i) => Some(CodeAt(link, i))
    case None =>
      var trimmed := Strip(link);
      if IsCode(trimmed) then Some(trimmed) else None
  }

  /** What the extraction returns: the code of the leftmost link when the line
      holds one, else the trimmed line when it is a code, else nothing. */
  lemma ExtractInviteCodeCases(link: string)
    ensures forall i: nat :: LinkAt(link, i) && (forall j :: 0 <= j < i ==> !LinkAt(link, j)) ==>
              ExtractInviteCode(link) == Some(CodeAt(link, i))
    ensures (forall i: nat :: !LinkAt(link, i)) ==>
              ExtractInviteCode(link) == if IsCode(Strip(link)) then Some(Strip(link)) else None
  {
    match FindLink(link, 0)
    case Some(k) =>
      forall i: nat | LinkAt(link, i) && (forall j :: 0 <= j < i ==> !LinkAt(link, j))
        ensures ExtractInviteCode(link) == Some(CodeAt(link, i))
      {
        assert !(i < k) && !(k < i);
      }
    case None =>
  }

  /** A full invite link yields its code. */
  lemma LinkRoundTrip(code: string)
    requires IsCode(code)
    ensures ExtractInviteCode("https://" + LinkPrefix + code) == Some(code)
  {
    var scheme := "https://";
    var link := scheme + LinkPrefix + code;
    forall j | 0 <= j < |scheme| ensures !LinkAt(link, j) {
      assert link[j] == scheme[j] != 'c';
      assert j + |LinkPrefix| <= |link| ==> link[j..j + |LinkPrefix|][0] == link[j];
    }
    assert link[|scheme|..|scheme| + |LinkPrefix|] == LinkPrefix;
    assert link[|scheme| + |LinkPrefix|..|scheme| + |LinkPrefix| + CodeLength] == code;
    FindLinkFirst(link, |scheme|);
  }

  /** The search stops at the leftmost link. */
  lemma FindLinkFirst(link: string, k: nat)
    requires LinkAt(link, k) && forall j :: 0 <= j < k ==> !LinkAt(link, j)
    ensures FindLink(link, 0) == Some(k)
  {
  }

  /** A bare code, as pasted on its own, yields itself. */
  lemma BareCode(code: string)
    requires IsCode(code)
    ensures ExtractInviteCode(code) == Some(code)
  {
    forall j: nat ensures !LinkAt(code, j) {
      assert j + |LinkPrefix| <= |code| ==> code[j..j + |LinkPrefix|][3] == code[j + 3];
    }
    assert !IsSpace(code[0]) && !IsSpace(code[|code| - 1]);
    StripUnchanged(code);
  }

  /** The operator's end-of-list word, in any letter case. */
  predicate IsEndWord(line: string)
  {
    && |line| == 3
    && (line[0] == 'f' || line[0] == 'F')
    && (line[1] == 'i' || line[1] == 'I')
    && (line[2] == 'm' || line[2] == 'M')
  }

  /** The codes kept from the lines the operator types: each line is trimmed,
      the list ends at the end word, empty lines are skipped, and lines without
      a code are rejected. */
  function Codes(lines: seq<string>): (codes: seq<string>)
    ensures |codes| <= |lines|
    ensures forall code | code in codes :: IsCode(code)
  {
    if lines == [] then []
    else
      var line := Strip(lines[0]);
      if IsEndWord(line) then []
      else
        var rest := Codes(lines[1..]);
        match ExtractInviteCode(line)
        case Some(code) => [code] + rest
        case None => rest
  }

  /** No line among `lines`, once trimmed, is the end word. */
  predicate NoEndWord(lines: seq<string>)
  {
    lines == [] || (!IsEndWord(Strip(lines[0])) && NoEndWord(lines[1..]))
  }

  /** The code of a line before any end word is collected. */
  lemma {:induction false} CodesKeeps(lines: seq<string>, i: nat)
    requires i < |lines|
    requires NoEndWord(lines[..i + 1])
    requires ExtractInviteCode(Strip(lines[i])).Some?
    ensures ExtractInviteCode(Strip(lines[i])).value in Codes(lines)
  {
    NoEndWordShift(lines, i + 1);
    if i == 0 {
      CodesHead(lines);
    } else {
      var rest := lines[1..];
      assert rest[i - 1] == lines[i];
      CodesKeeps(rest, i - 1);
      CodesTail(lines);
    }
  }

  /** The first of `k` lines without the end word is not the end word, and
      the `k - 1` lines after it have none either. */
  lemma NoEndWordShift(lines: seq<string>, k: nat)
    requires 0 < k <= |lines| && NoEndWord(lines[..k])
    ensures !IsEndWord(Strip(lines[0])) && NoEndWord(lines[1..][..k - 1])
  {
    var kept := lines[..k];
    assert kept[0] == lines[0];
    TailOfPrefix(lines, k);
  }

  /** A first line with a code puts that code first. */
  lemma CodesHead(lines: seq<string>)
    requires lines != [] && !IsEndWord(Strip(lines[0]))
    requires ExtractInviteCode(Strip(lines[0])).Some?
    ensures Codes(lines) == [ExtractInviteCode(Strip(lines[0])).value] + Codes(lines[1..])
  {
  }

  /** A first line that is not the end word keeps every code after it. */
  lemma CodesTail(lines: seq<string>)
    requires lines != [] && !IsEndWord(Strip(lines[0]))
    ensures forall code | code in Codes(lines[1..]) :: code in Codes(lines)
  {
  }

  /** Collection stops at the first end word: nothing after it counts. */
  lemma {:induction false} CodesStop(lines: seq<string>, k: nat)
    requires k < |lines| && IsEndWord(Strip(lines[k]))
    requires NoEndWord(lines[..k])
    ensures Codes(lines) == Codes(lines[..k])
  {
    if k > 0 {
      var rest := lines[1..];
      assert rest[k - 1] == lines[k];
      NoEndWordShift(lines, k);
      CodesStop(rest, k - 1);
      var kept := lines[..k];
      TailOfPrefix(lines, k);
      CodesSameHead(lines, kept, rest, rest[..k - 1]);
    }
  }

  /** Dropping the first line of the first `k` lines leaves the first `k - 1`
      lines after it. */
  lemma TailOfPrefix(lines: seq<string>, k: nat)
    requires 0 < k <= |lines|
    ensures lines[..k][1..] == lines[1..][..k - 1]
  {
  }

  /** Lists that agree on a first line that is not the end word, and on the
      codes after it, collect the same codes. */
  lemma CodesSameHead(a: seq<string>, b: seq<string>, restA: seq<string>, restB: seq<string>)
    requires a != [] && b != [] && a[0] == b[0] && !IsEndWord(Strip(a[0]))
    requires a[1..] == restA && b[1..] == restB && Codes(restA) == Codes(restB)
    ensures Codes(a) == Codes(b)
  {
  }

  /** The prompt loop that collects the codes. */
  method CollectCodes(lines: seq<string>) returns (codes: seq<string>)
    ensures codes == Codes(lines)
  {
    codes := [];
    var i := 0;
    while i < |lines|
      invariant 0 <= i <= |lines|
      invariant codes + Codes(lines[i..]) == Codes(lines)
      decreases |lines| - i
    {
      var line := Strip(lines[i]);
      if IsEndWord(line) {
        return;
      }
      if line != "" {
        var code := ExtractInviteCode(line);
        if code.Some? {
          codes := codes + [code.value];
        }
      }
      i := i + 1;
    }
  }
}
