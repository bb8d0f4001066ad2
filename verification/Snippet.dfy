// internal/textutil: the truncation tail of CleanSnippet, and the
// orchestrator's character budget.

module Snippet {
  import opened Model
  import opened Text

  const MAX_SNIPPET := 1500
  const LOOK_BACK := 200

  predicate IsSentenceEnd(c: char) {
    c == '\U{3002}' || c == '.' || c == '\U{FF1F}' || c == '?' || c == '\U{FF01}' || c == '!' || c == '\n'
  }

  // Where a text that is too long is cut: behind the last sentence end among the
  // last 200 characters that fit, or else at the limit.
  ghost predicate IsCut(s: string, limit: nat, cut: nat) {
    var start := Max(0, limit - LOOK_BACK);
    && limit <= |s| && start <= cut <= limit
    && if forall i :: start <= i < limit ==> !IsSentenceEnd(s[i]) then cut == limit
       else cut > start && IsSentenceEnd(s[cut - 1]) && forall i :: cut <= i < limit ==> !IsSentenceEnd(s[i])
  }

  // What becomes of cleaned text s under a limit of maxLen characters.
  ghost predicate IsTruncation(s: string, maxLen: int, r: string) {
    if maxLen <= 0 || |s| <= maxLen then r == s
    else if maxLen <= 3 then r == s[..maxLen]
    else exists cut: nat :: IsCut(s, maxLen - 3, cut) && r == TrimSpace(s[..cut]) + "..."
  }

  // The tail of CleanSnippet.
  method Truncate(s: string, maxLen: int) returns (r: string)
    ensures IsTruncation(s, maxLen, r)
  {
    r := s;
    if maxLen > 0 && |s| > maxLen {
      if maxLen <= 3 {
        r := s[..maxLen];
      } else {
        var limit := maxLen - 3;
        var cut := limit;
        var start := limit - LOOK_BACK;
        if start < 0 {
          start := 0;
        }
        var i := limit - 1;
        while i >= start
          invariant start - 1 <= i < limit
          invariant forall j :: i < j < limit ==> !IsSentenceEnd(s[j])
        {
          if IsSentenceEnd(s[i]) {
            cut := i + 1;
            break;
          }
          i := i - 1;
        }
        r := TrimSpace(s[..cut]) + "...";
        assert IsCut(s, limit, cut);
      }
    }
  }

  // What is kept fits the limit.
  lemma TruncationFits(s: string, maxLen: int, r: string)
    requires IsTruncation(s, maxLen, r)
    ensures maxLen > 0 ==> |r| <= maxLen
    ensures maxLen > 0 && |s| <= maxLen ==> r == s
  {
  }

  const SENTENCE_ENDS := "\U{3002}.\U{FF1F}?\U{FF01}!\n"

  // A long text is cut behind the last of these characters among the last 200 that
  // leave room for the dots, or at the limit if there is none.
  lemma CutsBehindSentence(s: string, maxLen: int, r: string) returns (cut: nat)
    requires maxLen > 3 && |s| > maxLen && IsTruncation(s, maxLen, r)
    ensures cut <= maxLen - 3 && r == TrimSpace(s[..cut]) + "..."
    ensures forall i | cut <= i < maxLen - 3 :: s[i] !in SENTENCE_ENDS
    ensures if cut > 0 && cut > maxLen - 203 && s[cut - 1] in SENTENCE_ENDS then true
            else cut == maxLen - 3 && forall i | 0 <= i < cut && i >= maxLen - 203 :: s[i] !in SENTENCE_ENDS
  {
    cut :| IsCut(s, maxLen - 3, cut) && r == TrimSpace(s[..cut]) + "...";
    assert forall c :: IsSentenceEnd(c) <==> c in SENTENCE_ENDS;
  }

  // ---------- The character budget ----------

  // truncateWithEllipsis
  function Ellipsis(s: string, maxChars: int): (r: string)
    ensures |r| == Min(|s|, Max(0, maxChars))
    ensures |s| <= maxChars ==> r == s
  {
    if maxChars <= 0 then ""
    else if |s| <= maxChars then s
    else if maxChars <= 3 then s[..maxChars]
    else s[..maxChars - 3] + "..."
  }

  // r is a shorter form of s: leading characters of s, the last three replaced by
  // dots if there are more than three.
  ghost predicate Shortened(s: string, r: string) {
    |r| < |s| && if |r| <= 3 then r <= s else r[..|r| - 3] <= s && r[|r| - 3..] == "..."
  }

  lemma EllipsisShortens(s: string, maxChars: int)
    ensures |s| > maxChars && s != "" ==> Shortened(s, Ellipsis(s, maxChars))
  {
  }

  ghost function TotalChars(hits: seq<Hit>): nat {
    if hits == [] then 0 else TotalChars(hits[..|hits| - 1]) + |hits[|hits| - 1].snippet|
  }

  // The first i hits fit, hit i does not fit whole, and fills what room is left.
  ghost predicate CutAt(hits: seq<Hit>, maxChars: int, i: nat, out: seq<Hit>) {
    && i < |hits|
    && TotalChars(hits[..i]) <= maxChars < TotalChars(hits[..i]) + |hits[i].snippet|
    && var room := maxChars - TotalChars(hits[..i]);
       out == hits[..i] + if room == 0 then [] else [hits[i].(snippet := Ellipsis(hits[i].snippet, room))]
  }

  // out is what fits of hits into maxChars characters: whole hits, then perhaps
  // one shortened to fill the budget, then nothing.
  ghost predicate Budgeted(hits: seq<Hit>, maxChars: int, out: seq<Hit>) {
    if maxChars <= 0 || TotalChars(hits) <= maxChars then out == hits
    else exists i: nat :: CutAt(hits, maxChars, i, out)
  }

  // enforceMaxChars
  method EnforceMaxChars(hits: seq<Hit>, maxChars: int) returns (out: seq<Hit>)
    ensures Budgeted(hits, maxChars, out)
  {
    if maxChars <= 0 {
      return hits;
    }
    out := hits;
    var total := 0;
    for i := 0 to |hits|
      invariant total == TotalChars(hits[..i]) <= maxChars
      invariant out == hits
    {
      TakeOneMore(hits, i);
      TotalAppend(hits[..i], hits[i]);
      var nextTotal := total + |hits[i].snippet|;
      if nextTotal <= maxChars {
        total := nextTotal;
        continue;
      }
      TotalMonotone(hits, i + 1);
      var remain := maxChars - total;
      if remain <= 0 {
        out := hits[..i];
        assert hits[..i] + [] == hits[..i];
        assert CutAt(hits, maxChars, i, out);
        return;
      }
      out := hits[i := hits[i].(snippet := Ellipsis(hits[i].snippet, remain))][..i + 1];
      assert out == hits[..i] + [hits[i].(snippet := Ellipsis(hits[i].snippet, remain))];
      assert CutAt(hits, maxChars, i, out);
      return;
    }
    assert hits[..|hits|] == hits;
  }

  lemma TotalAppend(hits: seq<Hit>, h: Hit)
    ensures TotalChars(hits + [h]) == TotalChars(hits) + |h.snippet|
  {
    assert (hits + [h])[..|hits|] == hits;
  }

  lemma {:induction false} TotalMonotone(hits: seq<Hit>, i: nat)
    requires i <= |hits|
    ensures TotalChars(hits[..i]) <= TotalChars(hits)
  {
    if i < |hits| {
      TotalMonotone(hits[..|hits| - 1], i);
      assert hits[..|hits| - 1][..i] == hits[..i];
    } else {
      assert hits[..i] == hits;
    }
  }

  // The same hit up to its snippet.
  predicate SameHit(a: Hit, b: Hit) {
    a == b.(snippet := a.snippet)
  }

  // The budget is respected, is filled when anything is cut, touches snippets
  // only, and never empties a result.
  lemma BudgetHolds(hits: seq<Hit>, maxChars: int, out: seq<Hit>)
    requires Budgeted(hits, maxChars, out)
    ensures |out| <= |hits|
    ensures forall i :: 0 <= i < |out| ==> SameHit(out[i], hits[i]) && |out[i].snippet| <= |hits[i].snippet|
    ensures forall i :: 0 <= i < |out| - 1 ==> out[i] == hits[i]
    ensures forall i :: 0 <= i < |out| ==> out[i] == hits[i] || Shortened(hits[i].snippet, out[i].snippet)
    ensures maxChars > 0 ==> TotalChars(out) == Min(maxChars, TotalChars(hits))
    ensures hits != [] ==> out != []
  {
    if maxChars > 0 && TotalChars(hits) > maxChars {
      var i: nat :| CutAt(hits, maxChars, i, out);
      CutHolds(hits, maxChars, i, out);
    }
  }

  lemma CutHolds(hits: seq<Hit>, maxChars: int, i: nat, out: seq<Hit>)
    requires maxChars > 0 && CutAt(hits, maxChars, i, out)
    ensures |out| <= |hits|
    ensures forall k :: 0 <= k < |out| ==> SameHit(out[k], hits[k]) && |out[k].snippet| <= |hits[k].snippet|
    ensures forall k :: 0 <= k < |out| - 1 ==> out[k] == hits[k]
    ensures forall k :: 0 <= k < |out| ==> out[k] == hits[k] || Shortened(hits[k].snippet, out[k].snippet)
    ensures TotalChars(out) == maxChars && out != []
  {
    var room := maxChars - TotalChars(hits[..i]);
    if room > 0 {
      TotalAppend(hits[..i], hits[i].(snippet := Ellipsis(hits[i].snippet, room)));
      EllipsisShortens(hits[i].snippet, room);
    } else {
      assert out == hits[..i];
    }
  }
}
