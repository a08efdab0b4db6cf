/**
 * The plan-revision protocol of the coach chat: the coach marks a
 * revised plan by wrapping it in `<REVISED_PLAN>` … `</REVISED_PLAN>`.
 * The dashboard takes the first such region of a reply, strips an
 * optional Markdown code fence from it, and, when the result parses,
 * adopts it as the new plan and shows a fixed confirmation in place of
 * the region.
 */
module Revision {
  import opened Wrappers
  import opened Text
  import opened JsonValues

  const OpenTag: string := "<REVISED_PLAN>"
  const CloseTag: string := "</REVISED_PLAN>"

  /**
   * The text shown in place of the tagged region. The source file holds
   * the three characters U+201A U+00FA U+00AE at its end (the sparkles
   * emoji decoded in the wrong character set), and so does this constant.
   */
  const Confirmation: string := "I've updated your plan based on your request! \U{201A}\U{FA}\U{AE}"

  /** A tagged region: the opening tag at `start`, the closing tag at `close`. */
  datatype Region = Region(start: nat, close: nat)

  /**
   * The match of `/<REVISED_PLAN>([\s\S]*?)<\/REVISED_PLAN>/`: the leftmost
   * opening tag, and the first closing tag after it. A later opening tag
   * can never help, since a closing tag after it is also after the first.
   */
  function FindRegion(reply: string): (r: Option<Region>)
    ensures r.Some? ==>
              OccursAt(reply, OpenTag, r.value.start)
              && (forall i :: 0 <= i < r.value.start ==> !OccursAt(reply, OpenTag, i))
              && r.value.start + |OpenTag| <= r.value.close
              && OccursAt(reply, CloseTag, r.value.close)
              && (forall j :: r.value.start + |OpenTag| <= j < r.value.close ==> !OccursAt(reply, CloseTag, j))
    ensures r.None? ==>
              forall i, j :: OccursAt(reply, OpenTag, i) && i + |OpenTag| <= j ==> !OccursAt(reply, CloseTag, j)
  {
    match IndexOf(reply, OpenTag, 0)
    case None => None
    case Some(i) =>
      match IndexOf(reply, CloseTag, i + |OpenTag|)
      case None => None
      case Some(j) => Some(Region(i, j))
  }

  /** The captured group: the text between the two tags. */
  function Payload(reply: string, rg: Region): string
    requires rg.start + |OpenTag| <= rg.close <= |reply|
  {
    reply[rg.start + |OpenTag|..rg.close]
  }

  /** The number of ASCII letters at the start of `s`. */
  function LeadingLetters(s: string): (n: nat)
    ensures n <= |s|
    ensures forall i :: 0 <= i < n ==> IsAsciiLetter(s[i])
    ensures n == |s| || !IsAsciiLetter(s[n])
  {
    if s != [] && IsAsciiLetter(s[0]) then 1 + LeadingLetters(s[1..]) else 0
  }

  /** `p` opens with a fence line: three backticks, ASCII letters, a line feed at index `k`. */
  predicate FenceLineEndsAt(p: string, k: int) {
    StartsWith(p, "```") && 3 <= k < |p| && p[k] == '\n'
    && forall i :: 3 <= i < k ==> IsAsciiLetter(p[i])
  }

  /** `.replace(/^```[a-z]*\n/i, '')`: the opening fence line removed, if there is one. */
  function StripOpeningFence(p: string): (r: string)
    ensures forall k :: FenceLineEndsAt(p, k) ==> r == p[k + 1..]
    ensures (forall k :: !FenceLineEndsAt(p, k)) ==> r == p
  {
    if StartsWith(p, "```") then
      var k := 3 + LeadingLetters(p[3..]);
      assert forall i :: 3 <= i < k ==> p[i] == p[3..][i - 3];
      if k < |p| && p[k] == '\n' then
        assert FenceLineEndsAt(p, k);
        p[k + 1..]
      else p
    else p
  }

  /** `.replace(/\n```$/i, '')`: a closing fence at the very end removed. */
  function StripClosingFence(p: string): (r: string)
    ensures EndsWith(p, "\n```") ==> r + "\n```" == p
    ensures !EndsWith(p, "\n```") ==> r == p
  {
    if EndsWith(p, "\n```") then p[..|p| - 4] else p
  }

  /**
   * The plan text taken from a payload: trimmed, and when it then starts
   * with a fence, the fence lines removed and the rest trimmed again.
   */
  function CleanPayload(payload: string): (r: string)
    ensures r == [] || (!IsJsWhitespace(r[0]) && !IsJsWhitespace(r[|r| - 1]))
    ensures !StartsWith(Trim(payload), "```") ==> r == Trim(payload)
    ensures StartsWith(Trim(payload), "```") ==> r == Trim(StripClosingFence(StripOpeningFence(Trim(payload))))
  {
    var t := Trim(payload);
    if StartsWith(t, "```") then Trim(StripClosingFence(StripOpeningFence(t))) else t
  }

  /** A revised plan adopted from a reply: its text and the parsed value. */
  datatype Replacement = Replacement(text: string, plan: Json)

  /** What a reply leads to: the message appended to the chat, and the plan it adopts, if any. */
  datatype Outcome = Outcome(display: string, replacement: Option<Replacement>)

  /**
   * The reply handling of `handleSendMessage`. A failed parse is caught
   * and leaves the reply as it came, tags included.
   */
  function HandleCoachReply(reply: string, parse: string -> Option<Json>): (o: Outcome)
    ensures o.replacement.None? ==> o.display == reply
    ensures o.replacement.Some? <==>
              FindRegion(reply).Some? && parse(CleanPayload(Payload(reply, FindRegion(reply).value))).Some?
    ensures o.replacement.Some? ==>
              var rg := FindRegion(reply).value;
              o.replacement.value.text == CleanPayload(Payload(reply, rg))
              && parse(o.replacement.value.text) == Some(o.replacement.value.plan)
              && o.display == reply[..rg.start] + Confirmation + reply[rg.close + |CloseTag|..]
  {
    match FindRegion(reply)
    case None => Outcome(reply, None)
    case Some(rg) =>
      var text := CleanPayload(Payload(reply, rg));
      match parse(text)
      case None => Outcome(reply, None)
      case Some(plan) => Outcome(reply[..rg.start] + Confirmation + reply[rg.close + |CloseTag|..], Some(Replacement(text, plan)))
  }

  /** The payload of a fenced plan: a fence line naming a language, the body, a closing fence. */
  function Fenced(lang: string, body: string): string {
    "```" + lang + "\n" + body + "\n```"
  }

  lemma FencedPayloadClean(lang: string, body: string)
    requires forall i :: 0 <= i < |lang| ==> IsAsciiLetter(lang[i])
    requires body != [] && !IsJsWhitespace(body[0]) && !IsJsWhitespace(body[|body| - 1])
    ensures CleanPayload(Fenced(lang, body)) == body
  {
    var p := Fenced(lang, body);
    var k := 3 + |lang|;
    assert p[0] == '`' && p[|p| - 1] == '`';
    TrimOfUnpadded(p);
    assert StartsWith(p, "```");
    assert FenceLineEndsAt(p, k) by {
      forall i | 3 <= i < k ensures IsAsciiLetter(p[i]) {
        assert p[i] == lang[i - 3];
      }
    }
    assert p[k + 1..] == body + "\n```";
    assert StripClosingFence(body + "\n```") == body;
    TrimOfUnpadded(body);
  }

  /** No tag can begin inside a text without '<'. */
  lemma NoTagWithoutAngle(s: string, tag: string, i: int, lo: int, hi: int)
    requires tag != [] && tag[0] == '<'
    requires 0 <= lo <= hi <= |s| && forall k :: lo <= k < hi ==> s[k] != '<'
    requires lo <= i < hi
    ensures !OccursAt(s, tag, i)
  {
  }

  /** The first occurrence at or after `from` is the one with none before it. */
  lemma IndexOfFirst(s: string, pat: string, from: nat, v: nat)
    requires from <= v && OccursAt(s, pat, v)
    requires forall k :: from <= k < v ==> !OccursAt(s, pat, k)
    ensures IndexOf(s, pat, from) == Some(v)
  {
  }

  /** A tag at `at` preceded, from `from` on, by text without '<' is the first one from `from`. */
  lemma TagFirstAfter(s: string, tag: string, from: nat, at: nat)
    requires tag != [] && tag[0] == '<'
    requires from <= at && OccursAt(s, tag, at)
    requires forall k :: from <= k < at ==> s[k] != '<'
    ensures IndexOf(s, tag, from) == Some(at)
  {
    forall k | from <= k < at ensures !OccursAt(s, tag, k) {
      NoTagWithoutAngle(s, tag, k, from, at);
    }
    IndexOfFirst(s, tag, from, at);
  }

  /** Where the parts of a reply built around a tagged payload sit. */
  lemma TaggedParts(reply: string, before: string, payload: string, after: string)
    requires reply == before + OpenTag + payload + CloseTag + after
    ensures var start := |before|;
            var close := start + |OpenTag| + |payload|;
            close + |CloseTag| <= |reply|
            && reply[..start] == before
            && reply[start..start + |OpenTag|] == OpenTag
            && reply[start + |OpenTag|..close] == payload
            && reply[close..close + |CloseTag|] == CloseTag
            && reply[close + |CloseTag|..] == after
  {
  }

  /** The region of a reply with one tagged payload and no '<' before it or inside it. */
  lemma FindRegionOfTagged(reply: string, before: string, payload: string, after: string)
    requires reply == before + OpenTag + payload + CloseTag + after
    requires forall i :: 0 <= i < |before| ==> before[i] != '<'
    requires forall i :: 0 <= i < |payload| ==> payload[i] != '<'
    ensures FindRegion(reply) == Some(Region(|before|, |before| + |OpenTag| + |payload|))
    ensures Payload(reply, Region(|before|, |before| + |OpenTag| + |payload|)) == payload
    ensures reply[..|before|] == before
    ensures reply[|before| + |OpenTag| + |payload| + |CloseTag|..] == after
  {
    var start := |before|;
    var close := start + |OpenTag| + |payload|;
    TaggedParts(reply, before, payload, after);
    forall k | 0 <= k < start ensures reply[k] != '<' {
      assert reply[k] == reply[..start][k];
    }
    forall k | start + |OpenTag| <= k < close ensures reply[k] != '<' {
      assert reply[k] == reply[start + |OpenTag|..close][k - start - |OpenTag|];
    }
    TagFirstAfter(reply, OpenTag, 0, start);
    TagFirstAfter(reply, CloseTag, start + |OpenTag|, close);
  }

  lemma FencedWithoutAngle(lang: string, body: string)
    requires forall i :: 0 <= i < |body| ==> body[i] != '<'
    requires forall i :: 0 <= i < |lang| ==> IsAsciiLetter(lang[i])
    ensures forall i :: 0 <= i < |Fenced(lang, body)| ==> Fenced(lang, body)[i] != '<'
  {
    var p := Fenced(lang, body);
    forall m | 0 <= m < |p| ensures p[m] != '<' {
      if 3 <= m < 3 + |lang| {
        assert p[m] == lang[m - 3];
      } else if 3 + |lang| + 1 <= m < 3 + |lang| + 1 + |body| {
        assert p[m] == body[m - 3 - |lang| - 1];
      }
    }
  }

  /**
   * A reply whose plan sits fenced between the tags, with no '<' before
   * the region or inside the plan, is shown with the confirmation in place
   * of the region, and the plan body is what gets parsed and adopted.
   */
  lemma RevisionRoundTrip(before: string, lang: string, body: string, after: string,
                          parse: string -> Option<Json>, plan: Json)
    requires forall i :: 0 <= i < |before| ==> before[i] != '<'
    requires forall i :: 0 <= i < |body| ==> body[i] != '<'
    requires forall i :: 0 <= i < |lang| ==> IsAsciiLetter(lang[i])
    requires body != [] && !IsJsWhitespace(body[0]) && !IsJsWhitespace(body[|body| - 1])
    requires parse(body) == Some(plan)
    ensures HandleCoachReply(before + OpenTag + Fenced(lang, body) + CloseTag + after, parse)
            == Outcome(before + Confirmation + after, Some(Replacement(body, plan)))
  {
    FencedWithoutAngle(lang, body);
    FindRegionOfTagged(before + OpenTag + Fenced(lang, body) + CloseTag + after, before, Fenced(lang, body), after);
    FencedPayloadClean(lang, body);
  }

  /** The same for a plan given without a fence. */
  lemma RevisionRoundTripUnfenced(before: string, body: string, after: string,
                                  parse: string -> Option<Json>, plan: Json)
    requires forall i :: 0 <= i < |before| ==> before[i] != '<'
    requires forall i :: 0 <= i < |body| ==> body[i] != '<'
    requires body != [] && !IsJsWhitespace(body[0]) && !IsJsWhitespace(body[|body| - 1])
    requires !StartsWith(body, "```")
    requires parse(body) == Some(plan)
    ensures HandleCoachReply(before + OpenTag + body + CloseTag + after, parse)
            == Outcome(before + Confirmation + after, Some(Replacement(body, plan)))
  {
    FindRegionOfTagged(before + OpenTag + body + CloseTag + after, before, body, after);
    TrimOfUnpadded(body);
  }

  /** A payload that does not parse leaves the reply, tags and all, as the message shown. */
  lemma UnparsableRevisionKeepsReply(before: string, payload: string, after: string,
                                     parse: string -> Option<Json>)
    requires forall i :: 0 <= i < |before| ==> before[i] != '<'
    requires forall i :: 0 <= i < |payload| ==> payload[i] != '<'
    requires parse(CleanPayload(payload)) == None
    ensures HandleCoachReply(before + OpenTag + payload + CloseTag + after, parse)
            == Outcome(before + OpenTag + payload + CloseTag + after, None)
  {
    FindRegionOfTagged(before + OpenTag + payload + CloseTag + after, before, payload, after);
  }
}
