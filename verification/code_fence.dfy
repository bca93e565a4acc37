/**
 * Extraction of a fenced code block from a WEB_APP reply (src/App.tsx:184-187):
 * the first match of /```html([\s\S]*?)```/, failing that the first match of
 * /```([\s\S]*?)```/, with the captured group trimmed.
 */
module CodeFence {
  import opened Types
  import opened Text

  const Fence: string := "```"
  const HtmlFence: string := "```html"

  /** An opener at `p` that some later closing fence completes: a regex match can start at `p`. */
  ghost predicate MatchesAt(s: string, open: string, p: nat) {
    OccursAt(s, open, p) && exists q: nat :: p + |open| <= q && OccursAt(s, Fence, q)
  }

  /**
   * `open` at `p` and the fence at `q` delimit the match a lazy regex reports: no match
   * starts further left, and no fence begins between the opener and `q`.
   */
  ghost predicate LeftmostLazyMatch(s: string, open: string, p: nat, q: nat) {
    OccursAt(s, open, p) && p + |open| <= q && OccursAt(s, Fence, q)
    && (forall k: nat :: p + |open| <= k < q ==> !OccursAt(s, Fence, k))
    && (forall p': nat :: p' < p ==> !MatchesAt(s, open, p'))
  }

  /** The group captured by `open([\s\S]*?)```` on its first match, if there is one. */
  function FencedBody(s: string, open: string): (r: Option<string>)
    ensures r.None? <==> forall p: nat :: !MatchesAt(s, open, p)
    ensures r.Some? ==> exists p: nat, q: nat :: LeftmostLazyMatch(s, open, p, q)
                                                 && r.value == s[p + |open|..q]
  {
    match IndexOf(s, open, 0)
    case None => None
    case Some(p) =>
      match IndexOf(s, Fence, p + |open|)
      case None =>
        assert forall p': nat :: !MatchesAt(s, open, p') by {
          forall p': nat | OccursAt(s, open, p')
            ensures forall q: nat :: p' + |open| <= q ==> !OccursAt(s, Fence, q)
          {
            assert p <= p';
          }
        }
        None
      case Some(q) =>
        assert MatchesAt(s, open, p);
        assert LeftmostLazyMatch(s, open, p, q);
        Some(s[p + |open|..q])
  }

  /**
   * The code of a WEB_APP reply: the trimmed body of the first html-tagged block, else of
   * the first block. No code is found exactly when the reply holds no fence followed by
   * a later fence.
   */
  function ExtractCode(reply: string): (r: Option<string>)
    ensures r.None? <==> forall p: nat :: !MatchesAt(reply, Fence, p)
  {
    match FencedBody(reply, HtmlFence)
    case Some(body) =>
      HtmlMatchIsFenceMatch(reply);
      Some(Trim(body))
    case None =>
      match FencedBody(reply, Fence)
      case Some(body) => Some(Trim(body))
      case None => None
  }

  lemma HtmlOpenerIsFence(s: string, p: nat)
    requires OccursAt(s, HtmlFence, p)
    ensures OccursAt(s, Fence, p)
  {
    assert s[p..p + 3] == s[p..p + 7][..3];
  }

  /** An html-tagged match is also a match of the untagged pattern, at the same opener. */
  lemma HtmlMatchIsFenceMatch(reply: string)
    requires FencedBody(reply, HtmlFence).Some?
    ensures exists p: nat :: MatchesAt(reply, Fence, p)
  {
    var p: nat :| MatchesAt(reply, HtmlFence, p);
    HtmlOpenerIsFence(reply, p);
    var q: nat :| p + 7 <= q && OccursAt(reply, Fence, q);
    assert MatchesAt(reply, Fence, p);
  }

  /** An html-tagged block wins: its trimmed body is the code, whatever other blocks precede it. */
  lemma ExtractCodePrefersHtml(reply: string, p: nat)
    requires MatchesAt(reply, HtmlFence, p)
    ensures exists p0: nat, q: nat :: LeftmostLazyMatch(reply, HtmlFence, p0, q)
                                      && ExtractCode(reply) == Some(Trim(reply[p0 + 7..q]))
  {
    var body := FencedBody(reply, HtmlFence);
    assert body.Some?;
    var p0: nat, q: nat :| LeftmostLazyMatch(reply, HtmlFence, p0, q) && body.value == reply[p0 + 7..q];
    assert ExtractCode(reply) == Some(Trim(reply[p0 + 7..q]));
  }

  /** Without an html-tagged block, the first untagged block is taken. */
  lemma ExtractCodeFallsBack(reply: string, p: nat)
    requires forall p': nat :: !MatchesAt(reply, HtmlFence, p')
    requires MatchesAt(reply, Fence, p)
    ensures exists p0: nat, q: nat :: LeftmostLazyMatch(reply, Fence, p0, q)
                                      && ExtractCode(reply) == Some(Trim(reply[p0 + 3..q]))
  {
    assert FencedBody(reply, HtmlFence).None?;
    var body := FencedBody(reply, Fence);
    assert body.Some?;
    var p0: nat, q: nat :| LeftmostLazyMatch(reply, Fence, p0, q) && body.value == reply[p0 + 3..q];
    assert ExtractCode(reply) == Some(Trim(reply[p0 + 3..q]));
  }

  /** The body of a lazy match holds no complete fence. */
  lemma LazyBodyHasNoFence(s: string, open: string, p: nat, q: nat, k: nat)
    requires LeftmostLazyMatch(s, open, p, q)
    ensures !OccursAt(s[p + |open|..q], Fence, k)
  {
    if OccursAt(s[p + |open|..q], Fence, k) {
      OccursInPiece(s, p + |open|, s[p + |open|..q], Fence, k);
      assert false;
    }
  }

  /** Trimming a fence-free string cannot create a fence. */
  lemma TrimKeepsNoFence(body: string)
    requires forall k: nat :: !OccursAt(body, Fence, k)
    ensures forall k: nat :: !OccursAt(Trim(body), Fence, k)
  {
    var code := Trim(body);
    var a :| 0 <= a <= |body| - |code| && body[a..a + |code|] == code
             && AllSpace(body[..a]) && AllSpace(body[a + |code|..]);
    forall k: nat | OccursAt(code, Fence, k)
      ensures false
    {
      OccursInPiece(body, a, code, Fence, k);
    }
  }

  /** Because the match is lazy, the extracted code never contains a fence. */
  lemma ExtractedCodeHasNoFence(reply: string)
    requires ExtractCode(reply).Some?
    ensures !Includes(ExtractCode(reply).value, Fence)
  {
    var open := if FencedBody(reply, HtmlFence).Some? then HtmlFence else Fence;
    var body := FencedBody(reply, open).value;
    assert ExtractCode(reply) == Some(Trim(body));
    var p: nat, q: nat :| LeftmostLazyMatch(reply, open, p, q) && body == reply[p + |open|..q];
    forall k: nat
      ensures !OccursAt(body, Fence, k)
    {
      LazyBodyHasNoFence(reply, open, p, q, k);
    }
    TrimKeepsNoFence(body);
  }

  /** The first occurrence at or after `from` is where `pat` first appears. */
  lemma IndexOfFirst(s: string, pat: string, from: nat, k: nat)
    requires from <= k && OccursAt(s, pat, k)
    requires forall j: nat :: from <= j < k ==> !OccursAt(s, pat, j)
    ensures IndexOf(s, pat, from) == Some(k)
  {
  }

  /** A reply made of one html block: its padded body comes back trimmed. */
  lemma ExtractCodeExample()
    ensures ExtractCode("```html <p/> ```") == Some("<p/>")
  {
    var body := " <p/> ";
    var s := HtmlFence + body + Fence;
    assert s == "```html <p/> ```";
    assert s[0..7] == HtmlFence && s[7..13] == body && s[13..16] == Fence;
    forall k: nat | 7 <= k < 13
      ensures !OccursAt(s, Fence, k)
    {
      assert s[k..k + 3][0] == body[k - 7] && body[k - 7] != '`' && Fence[0] == '`';
    }
    IndexOfFirst(s, HtmlFence, 0, 0);
    IndexOfFirst(s, Fence, 7, 13);
    assert FencedBody(s, HtmlFence) == Some(body);
    TrimExample();
  }

  lemma TrimExample()
    ensures Trim(" <p/> ") == "<p/>"
  {
    var body := " <p/> ";
    assert body[1..] == "<p/> ";
    assert LeadingSpaces(body[1..]) == 0;
    assert LeadingSpaces(body) == 1;
    var t := "<p/> ";
    assert t[..|t| - 1] == "<p/>";
    assert TrailingSpaces(t[..|t| - 1]) == 0;
    assert TrailingSpaces(t) == 1;
  }
}
