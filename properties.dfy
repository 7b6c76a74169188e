/** Properties of the branch policies of govarnam/channel.go, stated over the
    specification functions of module Channel, and the worked scenarios. */
module ChannelProperties {
  import opened Types
  import opened Channel

  // ---------------------------------------------------------------------
  // Pattern matches: classification.
  // ---------------------------------------------------------------------

  /** Match `i` contributes exactly its own bucket entry, placed after what
      the earlier matches contributed and before what the later ones do. */
  lemma {:induction false} ClassifyAt(wordLen: nat, hooks: seq<Partializer>, ms: seq<PatternMatch>, i: nat)
    requires i < |ms|
    ensures Classify(wordLen, hooks, ms)
         == Join(Join(Classify(wordLen, hooks, ms[..i]), ClassifyOne(wordLen, hooks, ms[i])), Classify(wordLen, hooks, ms[i + 1..]))
  {
    assert ms[..i] + ms[i..] == ms;
    ClassifyAppend(wordLen, hooks, ms[..i], ms[i..]);
    assert ms[i..][0] == ms[i] && ms[i..][1..] == ms[i + 1..];
    var a, b, d := Classify(wordLen, hooks, ms[..i]), ClassifyOne(wordLen, hooks, ms[i]), Classify(wordLen, hooks, ms[i + 1..]);
    assert Classify(wordLen, hooks, ms[i..]) == Join(b, d);
    assert Join(a, Join(b, d)) == Join(Join(a, b), d);
  }

  /** Exactly one bucket receives the match, and which one is decided by
      comparing its length with the word length. */
  lemma ClassifyOneIsExclusive(wordLen: nat, hooks: seq<Partializer>, m: PatternMatch)
    ensures var b := Classify(wordLen, hooks, [m]);
      && (|b.partials| == 1 <==> m.Length < wordLen)
      && (|b.exacts| == 1 <==> m.Length == wordLen)
      && (|b.overs| == 1 <==> m.Length > wordLen)
      && (m.Length < wordLen ==> b.partials[0].Length == m.Length)
      && (m.Length == wordLen ==> b.exacts[0] == m.Sug)
      && (m.Length > wordLen ==> b.overs[0] == m.Sug)
  {
    ClassifySingle(wordLen, hooks, m);
  }

  // ---------------------------------------------------------------------
  // Pattern matches: weights and partializer hooks.
  // ---------------------------------------------------------------------

  /** Running two hook lists back to back is running their concatenation. */
  lemma {:induction false} ApplyPartializersAppend(h1: seq<Partializer>, h2: seq<Partializer>, s: Suggestion)
    ensures ApplyPartializers(h1 + h2, s) == ApplyPartializers(h2, ApplyPartializers(h1, s))
  {
    if h1 == [] {
      assert h1 + h2 == h2;
    } else {
      assert (h1 + h2)[0] == h1[0];
      assert (h1 + h2)[1..] == h1[1..] + h2;
      ApplyPartializersAppend(h1[1..], h2, h1[0](s));
    }
  }

  /** Hooks run in registration order: every hook sees the weight bump and
      the work of all hooks registered before it. Without hooks only the
      weight changes, and the matched length is never changed. */
  lemma PartializeHooksInOrder(before: seq<Partializer>, hook: Partializer, after: seq<Partializer>, m: PatternMatch)
    ensures Partialize(before + [hook] + after, m).Sug
         == ApplyPartializers(after, hook(Partialize(before, m).Sug))
    ensures Partialize([], m) == PatternMatch(Suggestion(m.Sug.Word, m.Sug.Weight + m.Length * 50, m.Sug.LearnedOn), m.Length)
    ensures Partialize(before, m).Length == m.Length
  {
    var bumped := m.Sug.(Weight := m.Sug.Weight + m.Length * 50);
    ApplyPartializersAppend(before + [hook], after, bumped);
    ApplyPartializersAppend(before, [hook], bumped);
    assert [hook][1..] == [];
  }

  // ---------------------------------------------------------------------
  // Pattern matches: expansion.
  // ---------------------------------------------------------------------

  /** The completions of each partial match, one batch per match. */
  function Fills(c: Collaborators, word: string, ps: seq<PatternMatch>, quota: int): seq<seq<Suggestion>>
    requires AllPartial(|word|, ps)
  {
    if ps == [] then [] else [Fill(c, word, ps[0], quota)] + Fills(c, word, ps[1..], quota)
  }

  lemma FillsPrefix(c: Collaborators, word: string, ps: seq<PatternMatch>, quota: int, j: nat)
    requires AllPartial(|word|, ps)
    requires 1 <= j <= |ps|
    ensures Fills(c, word, ps[..j], quota) == [Fill(c, word, ps[0], quota)] + Fills(c, word, ps[1..][..j - 1], quota)
  {
    assert ps[..j][1..] == ps[1..][..j - 1];
  }

  /** The expansion completes a prefix of the partial matches, in order and
      one call each; every match before the last expanded one left the total
      below `limit`, and the expansion stops early only once the total has
      reached `limit`. The first partial match is always expanded, whatever
      `acc` already holds. */
  lemma {:induction false} ExpansionStopsAtFirstReach(c: Collaborators, word: string, ps: seq<PatternMatch>, quota: int, limit: int, acc: seq<Suggestion>)
    requires AllPartial(|word|, ps)
    ensures var e := Expand(c, word, ps, quota, limit, acc);
      var n := |e.calls|;
      && n <= |ps|
      && (|ps| > 0 ==> n >= 1)
      && (forall k :: 0 <= k < n ==> e.calls[k] == FillCall(word, ps[k], quota))
      && e.results == acc + Flatten(Fills(c, word, ps[..n], quota))
      && (forall j :: 1 <= j < n ==> |acc + Flatten(Fills(c, word, ps[..j], quota))| < limit)
      && (n < |ps| ==> |e.results| >= limit)
  {
    if ps == [] {
      assert ps[..0] == [];
    } else {
      var fill0, call0 := Fill(c, word, ps[0], quota), FillCall(word, ps[0], quota);
      var grown := acc + fill0;
      FillsPrefix(c, word, ps, quota, 1);
      assert ps[1..][..0] == [];
      assert Flatten(Fills(c, word, ps[..1], quota)) == fill0 + [];
      if |grown| >= limit {
        assert Expand(c, word, ps, quota, limit, acc) == Expansion(grown, [call0]);
        assert fill0 + [] == fill0;
      } else {
        var rest := ps[1..];
        ExpansionStopsAtFirstReach(c, word, rest, quota, limit, grown);
        var e' := Expand(c, word, rest, quota, limit, grown);
        var n := 1 + |e'.calls|;
        var e := Expansion(e'.results, [call0] + e'.calls);
        assert Expand(c, word, ps, quota, limit, acc) == e;
        forall k | 0 <= k < n
          ensures e.calls[k] == FillCall(word, ps[k], quota)
        {
          if k > 0 {
            assert e.calls[k] == e'.calls[k - 1] && rest[k - 1] == ps[k];
          }
        }
        FillsPrefix(c, word, ps, quota, n);
        var tail := Flatten(Fills(c, word, rest[..n - 1], quota));
        assert Flatten(Fills(c, word, ps[..n], quota)) == fill0 + tail;
        assert e.results == acc + (fill0 + tail);
        forall j | 1 <= j < n
          ensures |acc + Flatten(Fills(c, word, ps[..j], quota))| < limit
        {
          FillsPrefix(c, word, ps, quota, j);
          if j > 1 {
            assert |grown + Flatten(Fills(c, word, rest[..j - 1], quota))| < limit;
          }
        }
      }
    }
  }

  /** The branch's dictionary suggestions begin with the over-length matches,
      in collaborator order, so their number never falls below that count. */
  lemma PatternSuggestionsStartWithOverLength(cfg: Config, c: Collaborators, word: string)
    ensures var b := Classify(|word|, cfg.PatternWordPartializers, c.getFromPatternDictionary(word));
      var r := PatternAggregate(cfg, c, word);
      && r.exactMatches == b.exacts
      && |b.overs| <= |r.suggestions|
      && r.suggestions[..|b.overs|] == b.overs
  {
    var b := Classify(|word|, cfg.PatternWordPartializers, c.getFromPatternDictionary(word));
    var quota := PerMatchLimit(cfg.PatternDictionarySuggestionsLimit, |b.partials|);
    ExpansionStopsAtFirstReach(c, word, b.partials, quota, cfg.PatternDictionarySuggestionsLimit, b.overs);
  }

  /** The limit is not a hard cap: over-length matches are never dropped. */
  lemma PatternLimitIsNotAHardCap(cfg: Config, c: Collaborators, word: string)
    requires |Classify(|word|, cfg.PatternWordPartializers, c.getFromPatternDictionary(word)).overs|
             > cfg.PatternDictionarySuggestionsLimit
    ensures |PatternAggregate(cfg, c, word).suggestions| > cfg.PatternDictionarySuggestionsLimit
  {
    PatternSuggestionsStartWithOverLength(cfg, c, word);
  }

  /** Typing "kitab" with one trained pattern "kit" that explains three
      characters: the match is partial, its weight 10 becomes 160, and the
      suffix "ab" is completed with the whole branch limit as quota. */
  lemma KitabScenario(cfg: Config, c: Collaborators, learnedOn: int)
    requires cfg.PatternWordPartializers == []
    requires c.getFromPatternDictionary("kitab") == [PatternMatch(Suggestion("kit", 10, learnedOn), 3)]
    ensures var adjusted := Suggestion("kit", 160, learnedOn);
      var limit := cfg.PatternDictionarySuggestionsLimit;
      && PatternAggregate(cfg, c, "kitab") == ChannelDictionaryResult([], c.tokenizeRestOfWord("ab", [adjusted], limit))
      && PatternExpansion(cfg, c, "kitab").calls == [TokenizeRestOfWord("ab", [adjusted], limit)]
  {
    var m := PatternMatch(Suggestion("kit", 10, learnedOn), 3);
    var adjusted := Suggestion("kit", 160, learnedOn);
    var limit := cfg.PatternDictionarySuggestionsLimit;
    ClassifySingle(5, [], m);
    assert Partialize([], m) == PatternMatch(adjusted, 3);
    var b := Classify(5, [], [m]);
    assert b == Buckets([PatternMatch(adjusted, 3)], [], []);
    assert PerMatchLimit(limit, 1) == limit;
    assert "kitab"[3..] == "ab";
    var e := Expand(c, "kitab", b.partials, limit, limit, []);
    assert b.partials[0] == PatternMatch(adjusted, 3);
    assert b.partials[1..] == [];
    var filled := c.tokenizeRestOfWord("ab", [adjusted], limit);
    assert Fill(c, "kitab", b.partials[0], limit) == filled;
    assert FillCall("kitab", b.partials[0], limit) == TokenizeRestOfWord("ab", [adjusted], limit);
    assert [] + filled == filled;
    if |filled| < limit {
      var tail := Expand(c, "kitab", b.partials[1..], limit, limit, filled);
      assert tail == Expansion(filled, []);
      assert [FillCall("kitab", b.partials[0], limit)] + tail.calls == [TokenizeRestOfWord("ab", [adjusted], limit)];
    }
    assert e == Expansion(c.tokenizeRestOfWord("ab", [adjusted], limit), [TokenizeRestOfWord("ab", [adjusted], limit)]);
  }

  // ---------------------------------------------------------------------
  // Dictionary continuations.
  // ---------------------------------------------------------------------

  /** Flattening keeps every batch, whole and in batch order. */
  lemma {:induction false} FlattenKeepsBatchOrder(batches: seq<seq<Suggestion>>, i: nat)
    requires i < |batches|
    ensures Flatten(batches) == Flatten(batches[..i]) + batches[i] + Flatten(batches[i + 1..])
  {
    assert batches == batches[..i] + ([batches[i]] + batches[i + 1..]);
    FlattenAppend(batches[..i], [batches[i]] + batches[i + 1..]);
    assert ([batches[i]] + batches[i + 1..])[1..] == batches[i + 1..];
  }

  /** A learned word "amma" found exactly, with one continuation batch
      holding "amma-ch": the first is an exact match, the second a
      dictionary suggestion. */
  method AmmaScenario(cfg: Config, c: Collaborators, word: string, tokens: seq<Token>, position: int)
    returns (out: Outcome<ChannelDictionaryResult>)
    requires c.getFromDictionary(tokens) == DictionaryLookup([Suggestion("amma", 50, 0)], true, position)
    requires c.getMoreFromDictionary([Suggestion("amma", 50, 0)]) == [[Suggestion("amma-ch", 40, 0)]]
    ensures out == Sent(ChannelDictionaryResult([Suggestion("amma", 50, 0)], [Suggestion("amma-ch", 40, 0)]))
  {
    ghost var calls;
    out, calls := ChannelGetFromDictionary(false, cfg, c, word, tokens);
    assert out == Sent(ChannelDictionaryResult([Suggestion("amma", 50, 0)], Flatten([[Suggestion("amma-ch", 40, 0)]])));
    var batches := [[Suggestion("amma-ch", 40, 0)]];
    assert batches[1..] == [];
    assert Flatten(batches[1..]) == [];
    assert Flatten(batches) == [Suggestion("amma-ch", 40, 0)] + [];
    assert [Suggestion("amma-ch", 40, 0)] + [] == [Suggestion("amma-ch", 40, 0)];
  }
}
