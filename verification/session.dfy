/**
 * The value-level updates behind the session state of src/App.tsx: the per-mode
 * message lists (the `{...prev, [mode]: ...}` copies at lines 149, 167, 202 and 354)
 * and the newest-first snippet list (lines 188-194, 312 and 445-451).
 */
module Session {
  import opened Types
  import opened Text

  /** `Record<AppMode, Message[]>`: one list per mode. */
  type Histories = map<AppMode, seq<Message>>

  predicate Total(h: Histories) {
    forall m: AppMode :: m in h
  }

  lemma ModeCases(m: AppMode)
    ensures m == GENERAL || m == WEB_APP || m == MYRA
  {
  }

  /** The three empty lists the session starts with. */
  function EmptyHistories(): (h: Histories)
    ensures Total(h)
    ensures forall m: AppMode :: h[m] == []
  {
    var h := map[GENERAL := [], WEB_APP := [], MYRA := []];
    assert Total(h) by {
      forall m: AppMode
        ensures m in h
      {
        ModeCases(m);
      }
    }
    h
  }

  /** `[...prev[mode], msg]`: `msg` goes to the end of one mode's list and the others are untouched. */
  function Append(h: Histories, m: AppMode, msg: Message): (r: Histories)
    requires Total(h)
    ensures Total(r)
    ensures r[m] == h[m] + [msg]
    ensures forall other: AppMode :: other != m ==> r[other] == h[other]
  {
    h[m := h[m] + [msg]]
  }

  /** `[mode]: []`: one mode's list emptied, the others untouched. */
  function Clear(h: Histories, m: AppMode): (r: Histories)
    requires Total(h)
    ensures Total(r)
    ensures r[m] == []
    ensures forall other: AppMode :: other != m ==> r[other] == h[other]
  {
    h[m := []]
  }

  /** Appending and then clearing a mode leaves that mode empty and every other mode as it was. */
  lemma AppendThenClear(h: Histories, m: AppMode, msg: Message)
    requires Total(h)
    ensures Clear(Append(h, m, msg), m) == Clear(h, m)
  {
  }

  /** The name given to a snippet created when `count` snippets exist: "Snippet <count + 1>". */
  function SnippetName(count: nat): (name: string)
    ensures |name| > 8 && name[..8] == "Snippet " && AllDigits(name[8..])
    ensures DecimalValue(name[8..]) == count + 1
    ensures name[8] != '0' && name[8..] == NatToString(count + 1)
  {
    DecimalRoundTrip(count + 1);
    "Snippet " + NatToString(count + 1)
  }

  /** Names follow the current count: counts 0, 1, 2 give "Snippet 1", "Snippet 2", "Snippet 3". */
  lemma SnippetNameExamples()
    ensures SnippetName(0) == "Snippet 1"
    ensures SnippetName(1) == "Snippet 2"
    ensures SnippetName(2) == "Snippet 3"
  {
  }

  /** Two snippets get the same name exactly when they were created at the same count. */
  lemma SnippetNameInjective(a: nat, b: nat)
    ensures SnippetName(a) == SnippetName(b) <==> a == b
  {
    if SnippetName(a) == SnippetName(b) {
      assert SnippetName(a)[8..] == SnippetName(b)[8..];
    }
  }

  /**
   * Newest first, three snippets are "Snippet 3", "Snippet 2" and "Snippet 1". Deleting
   * "Snippet 2" and creating one more names the new one "Snippet 3" again: it collides
   * with the name of the snippet already at the front.
   */
  lemma SnippetNameRepeatsAfterRemoval(snippets: seq<CodeSnippet>)
    requires |snippets| == 3 && snippets[0].name == SnippetName(2) && snippets[1].name == SnippetName(1)
    requires forall i :: 0 <= i < 3 && i != 1 ==> snippets[i].id != snippets[1].id
    ensures Without(snippets, snippets[1].id) == [snippets[0], snippets[2]]
    ensures SnippetName(|Without(snippets, snippets[1].id)|) == snippets[0].name
  {
    var id := snippets[1].id;
    assert snippets == [snippets[0]] + [snippets[1]] + [snippets[2]];
    assert snippets[1..][1..] == [snippets[2]];
  }

  /** The snippet registered from `html` when `count` snippets exist. */
  function NewSnippet(id: int, count: nat, html: string, now: int): (s: CodeSnippet)
    ensures s.id == id && s.html == html && s.timestamp == now
    ensures s.name == SnippetName(count)
  {
    CodeSnippet(id, SnippetName(count), html, now)
  }

  /** `snippets.filter(snip => snip.id !== id)`. */
  function Without(snippets: seq<CodeSnippet>, id: int): (r: seq<CodeSnippet>)
    ensures |r| <= |snippets|
    ensures forall s :: s in r <==> s in snippets && s.id != id
  {
    if snippets == [] then []
    else if snippets[0].id == id then Without(snippets[1..], id)
    else [snippets[0]] + Without(snippets[1..], id)
  }

  /** Removing an id that no snippet carries changes nothing. */
  lemma {:induction false} WithoutAbsent(snippets: seq<CodeSnippet>, id: int)
    requires forall s :: s in snippets ==> s.id != id
    ensures Without(snippets, id) == snippets
  {
    if snippets != [] {
      WithoutAbsent(snippets[1..], id);
    }
  }

  /**
   * `Without` keeps the survivors in their original order: it works piece by piece, so
   * together with its effect on a single snippet it is fixed on every list.
   */
  lemma {:induction false} WithoutConcat(a: seq<CodeSnippet>, b: seq<CodeSnippet>, id: int)
    ensures Without(a + b, id) == Without(a, id) + Without(b, id)
  {
    if a == [] {
      assert a + b == b;
    } else {
      assert (a + b)[1..] == a[1..] + b;
      WithoutConcat(a[1..], b, id);
    }
  }

  /** On one snippet, `Without` drops it exactly when it carries the id. */
  lemma WithoutSingle(s: CodeSnippet, id: int)
    ensures Without([s], id) == if s.id == id then [] else [s]
  {
  }
}
