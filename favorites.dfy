/**
 * What removing a story from the favorites list leaves behind, stated on sequences.
 * The removal loop compares each entry's story id with the removed story's id and
 * splices a matching entry out, but then advances its index anyway: the entry that
 * slides into the freed slot is never compared.
 */
module Favorites {
  import opened Stories

  /**
   * The favorites left by the removal loop. A matching first entry is removed and the
   * entry after it is kept without being compared; comparison resumes after that.
   */
  function AfterRemoval(favs: seq<Story>, id: string): (r: seq<Story>)
    ensures |r| <= |favs|
    decreases |favs|
  {
    if favs == [] then []
    else if favs[0].storyId != id then [favs[0]] + AfterRemoval(favs[1..], id)
    else if |favs| == 1 then []
    else [favs[1]] + AfterRemoval(favs[2..], id)
  }

  // One step of the removal loop, stated on the part `rest` it has not passed yet.

  lemma RemovalStepKeep(out: seq<Story>, rest: seq<Story>, id: string)
    requires rest != [] && rest[0].storyId != id
    ensures out + AfterRemoval(rest, id) == (out + [rest[0]]) + AfterRemoval(rest[1..], id)
  {
  }

  lemma RemovalStepSplice(out: seq<Story>, rest: seq<Story>, id: string)
    requires |rest| >= 2 && rest[0].storyId == id
    ensures out + AfterRemoval(rest, id) == (out + [rest[1]]) + AfterRemoval(rest[2..], id)
  {
  }

  lemma RemovalStepLast(out: seq<Story>, rest: seq<Story>, id: string)
    requires |rest| == 1 && rest[0].storyId == id
    ensures out + AfterRemoval(rest, id) == out
  {
  }

  /** Splicing out the first entry after `out` leaves `out` followed by the rest. */
  lemma SpliceAt(out: seq<Story>, rest: seq<Story>)
    requires rest != []
    ensures (out + rest)[..|out|] + (out + rest)[|out| + 1..] == out + rest[1..]
  {
  }

  /** Moving the first entry of `rest` to the end of `out` keeps their concatenation. */
  lemma Shift(out: seq<Story>, rest: seq<Story>)
    requires rest != []
    ensures out + rest == (out + [rest[0]]) + rest[1..]
  {
  }

  /** Every entry whose story id differs from `id`, in the original order. */
  function WithoutId(favs: seq<Story>, id: string): (r: seq<Story>)
    ensures |r| <= |favs|
    ensures forall k :: 0 <= k < |r| ==> r[k].storyId != id
  {
    if favs == [] then []
    else if favs[0].storyId != id then [favs[0]] + WithoutId(favs[1..], id)
    else WithoutId(favs[1..], id)
  }

  /** `a` is obtained from `b` by deleting some entries and keeping the order of the rest. */
  ghost predicate IsSubsequence(a: seq<Story>, b: seq<Story>)
    decreases |b|
  {
    a == [] ||
    (b != [] && ((a[0] == b[0] && IsSubsequence(a[1..], b[1..])) || IsSubsequence(a, b[1..])))
  }

  /** The removal only deletes entries: what is left is a subsequence of the original list. */
  lemma {:induction false} AfterRemovalIsSubsequence(favs: seq<Story>, id: string)
    ensures IsSubsequence(AfterRemoval(favs, id), favs)
    decreases |favs|
  {
    if favs == [] {
    } else if favs[0].storyId != id {
      AfterRemovalIsSubsequence(favs[1..], id);
      assert ([favs[0]] + AfterRemoval(favs[1..], id))[1..] == AfterRemoval(favs[1..], id);
    } else if |favs| > 1 {
      var rest := AfterRemoval(favs[2..], id);
      AfterRemovalIsSubsequence(favs[2..], id);
      assert ([favs[1]] + rest)[1..] == rest;
      assert favs[1..][1..] == favs[2..];
      assert IsSubsequence([favs[1]] + rest, favs[1..]);
    }
  }

  /**
   * The entries with a different story id are exactly those of the original list, in
   * the original order: none is deleted and only matching entries can be.
   */
  lemma {:induction false} AfterRemovalKeepsOthers(favs: seq<Story>, id: string)
    ensures WithoutId(AfterRemoval(favs, id), id) == WithoutId(favs, id)
    decreases |favs|
  {
    if favs == [] {
    } else if favs[0].storyId != id {
      AfterRemovalKeepsOthers(favs[1..], id);
      assert ([favs[0]] + AfterRemoval(favs[1..], id))[1..] == AfterRemoval(favs[1..], id);
    } else if |favs| > 1 {
      var rest := AfterRemoval(favs[2..], id);
      AfterRemovalKeepsOthers(favs[2..], id);
      assert ([favs[1]] + rest)[1..] == rest;
      assert favs[1..][1..] == favs[2..];
    }
  }

  /** Dropping the entries with one story id leaves a subsequence. */
  lemma {:induction false} WithoutIdIsSubsequence(favs: seq<Story>, id: string)
    ensures IsSubsequence(WithoutId(favs, id), favs)
    decreases |favs|
  {
    if favs != [] {
      WithoutIdIsSubsequence(favs[1..], id);
      if favs[0].storyId != id {
        assert ([favs[0]] + WithoutId(favs[1..], id))[1..] == WithoutId(favs[1..], id);
      }
    }
  }

  /** Every entry with a different story id survives the removal, in its original relative order. */
  lemma OthersSurviveInOrder(favs: seq<Story>, id: string)
    ensures IsSubsequence(WithoutId(favs, id), AfterRemoval(favs, id))
  {
    WithoutIdIsSubsequence(AfterRemoval(favs, id), id);
    AfterRemovalKeepsOthers(favs, id);
  }

  /** When no entry has the story id, the removal changes nothing. */
  lemma {:induction false} AfterRemovalNoMatch(favs: seq<Story>, id: string)
    requires forall k :: 0 <= k < |favs| ==> favs[k].storyId != id
    ensures AfterRemoval(favs, id) == favs
    decreases |favs|
  {
    if favs != [] {
      AfterRemovalNoMatch(favs[1..], id);
    }
  }

  /** When exactly one entry, at index `k`, has the story id, that entry alone is removed. */
  lemma {:induction false} AfterRemovalSoleMatch(favs: seq<Story>, id: string, k: nat)
    requires k < |favs| && favs[k].storyId == id
    requires forall m :: 0 <= m < |favs| && m != k ==> favs[m].storyId != id
    ensures AfterRemoval(favs, id) == favs[..k] + favs[k + 1..]
    ensures |AfterRemoval(favs, id)| == |favs| - 1
    decreases |favs|
  {
    if k == 0 {
      if |favs| > 1 {
        var tail := favs[2..];
        forall m | 0 <= m < |tail| ensures tail[m].storyId != id {
          assert tail[m] == favs[m + 2];
        }
        AfterRemovalNoMatch(tail, id);
        assert AfterRemoval(favs, id) == [favs[1]] + tail;
        assert [favs[1]] + tail == favs[1..];
      }
    } else {
      var tail := favs[1..];
      forall m | 0 <= m < |tail| && m != k - 1 ensures tail[m].storyId != id {
        assert tail[m] == favs[m + 1];
      }
      AfterRemovalSoleMatch(tail, id, k - 1);
      assert AfterRemoval(favs, id) == [favs[0]] + AfterRemoval(tail, id);
      assert favs[..k] == [favs[0]] + tail[..k - 1];
      assert favs[k + 1..] == tail[k..];
    }
  }

  /**
   * An entry that slides into the slot of a removed entry is never compared, so of
   * two adjacent copies of a story the second one stays. This only unfolds the third
   * case of AfterRemoval; RunKeepsHalf states the skip in general.
   */
  lemma SlidEntryIsKept(favs: seq<Story>, id: string)
    requires |favs| >= 2 && favs[0].storyId == id
    ensures AfterRemoval(favs, id) == [favs[1]] + AfterRemoval(favs[2..], id)
  {
  }

  /** The smallest instance: a list holding one story twice keeps one copy. */
  lemma DuplicateSurvives(s: Story)
    ensures AfterRemoval([s, s], s.storyId) == [s]
  {
  }

  /**
   * Favoriting a story that was not among the favorites and then removing it gives
   * back the original favorites.
   */
  lemma {:induction false} AddThenRemove(favs: seq<Story>, s: Story)
    requires forall k :: 0 <= k < |favs| ==> favs[k].storyId != s.storyId
    ensures AfterRemoval(favs + [s], s.storyId) == favs
  {
    AfterRemovalSoleMatch(favs + [s], s.storyId, |favs|);
    assert (favs + [s])[..|favs|] == favs;
  }

  /**
   * The round trip can fail for a story that already is a favorite: here its first
   * copy and the appended one are both removed.
   */
  lemma AddFavoriteAgainThenRemove(s: Story, b: Story)
    requires b.storyId != s.storyId
    ensures AfterRemoval([s, b] + [s], s.storyId) == [b]
  {
  }

  /**
   * The round trip can also succeed for a story that already is a favorite: when its
   * only copy is the last entry, the appended copy slides into the freed slot and stays.
   */
  lemma {:induction false} AddFavoriteAgainAfterLastThenRemove(favs: seq<Story>, s: Story)
    requires forall k :: 0 <= k < |favs| ==> favs[k].storyId != s.storyId
    ensures AfterRemoval((favs + [s]) + [s], s.storyId) == favs + [s]
  {
    if favs != [] {
      AddFavoriteAgainAfterLastThenRemove(favs[1..], s);
      assert ((favs + [s]) + [s])[1..] == (favs[1..] + [s]) + [s];
    }
  }

  /** `n` copies of one story. */
  function Copies(s: Story, n: nat): (r: seq<Story>)
    ensures |r| == n
    ensures forall k :: 0 <= k < n ==> r[k] == s
  {
    if n == 0 then [] else [s] + Copies(s, n - 1)
  }

  /**
   * Of a run of `n` copies of one story, the removal keeps `n / 2`: every other copy
   * slides into a freed slot and is never compared.
   */
  lemma {:induction false} RunKeepsHalf(s: Story, n: nat)
    ensures AfterRemoval(Copies(s, n), s.storyId) == Copies(s, n / 2)
  {
    if n >= 2 {
      RunKeepsHalf(s, n - 2);
      assert Copies(s, n)[2..] == Copies(s, n - 2);
      assert Copies(s, n)[1] == s;
      assert Copies(s, n / 2) == [s] + Copies(s, (n - 2) / 2);
    }
  }
}
