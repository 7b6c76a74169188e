/** The per-branch aggregation of govarnam/channel.go. Each branch checks the
    request's cancellation once, at entry (`cancelled` stands for
    `ctx.Done()` being ready then); a cancelled branch closes its channel
    with nothing sent, any other branch runs to completion and sends one
    value. The imperative branches also report, as a ghost trace, the
    collaborator calls they make. */
module Channel {
  import opened Types

  // ---------------------------------------------------------------------
  // Thin branches: an entry check, then one collaborator call.
  // ---------------------------------------------------------------------

  function ChannelTokenizeWord(cancelled: bool, c: Collaborators, word: string, matchType: int, partial: bool): (r: Outcome<seq<Token>>)
    ensures r.Closed? <==> cancelled
    ensures r.Sent? ==> r.value == c.tokenizeWord(word, matchType, partial)
  {
    if cancelled then Closed else Sent(c.tokenizeWord(word, matchType, partial))
  }

  function ChannelTokensToSuggestions(cancelled: bool, c: Collaborators, tokens: seq<Token>, limit: int): (r: Outcome<seq<Suggestion>>)
    ensures r.Closed? <==> cancelled
    ensures r.Sent? ==> r.value == c.tokensToSuggestions(tokens, false, limit)
  {
    if cancelled then Closed else Sent(c.tokensToSuggestions(tokens, false, limit))
  }

  function ChannelGetMoreFromDictionary(cancelled: bool, c: Collaborators, sugs: seq<Suggestion>): (r: Outcome<seq<seq<Suggestion>>>)
    ensures r.Closed? <==> cancelled
    ensures r.Sent? ==> r.value == c.getMoreFromDictionary(sugs)
  {
    if cancelled then Closed else Sent(c.getMoreFromDictionary(sugs))
  }

  // ---------------------------------------------------------------------
  // Greedy branch: filter a private copy of the shared tokens.
  // ---------------------------------------------------------------------

  method ChannelTokensToGreedySuggestions(cancelled: bool, cfg: Config, c: Collaborators, tokens: array<Token>)
    returns (out: Outcome<seq<Suggestion>>, ghost calls: seq<Call>)
    ensures tokens[..] == old(tokens[..])
    ensures cancelled ==> out == Closed && calls == []
    ensures !cancelled ==>
      var kept := c.removeNonExactTokens(old(tokens[..])).kept;
      && (|kept| == 0 ==> out == Sent([]) && calls == [RemoveNonExactTokens(old(tokens[..]))])
      && (|kept| > 0 ==>
            && out == Sent(c.tokensToSuggestions(kept, false, cfg.TokenizerSuggestionsLimit))
            && calls == [RemoveNonExactTokens(old(tokens[..])), TokensToSuggestions(kept, false, cfg.TokenizerSuggestionsLimit)])
  {
    if cancelled {
      return Closed, [];
    }
    // Altering the shared tokens would affect the other branches: filter a copy.
    var tokensCopy := new Token[tokens.Length];
    var i := 0;
    while i < tokens.Length
      invariant 0 <= i <= tokens.Length
      invariant tokensCopy[..i] == tokens[..i]
    {
      tokensCopy[i] := tokens[i];
      i := i + 1;
    }
    assert tokensCopy[..] == tokens[..];

    var filtered := c.removeNonExactTokens(tokensCopy[..]);
    calls := [RemoveNonExactTokens(tokensCopy[..])];
    FilterInPlace(tokensCopy, filtered.leftInArray);
    var kept := filtered.kept;
    if |kept| == 0 {
      return Sent([]), calls;
    }
    out := Sent(c.tokensToSuggestions(kept, false, cfg.TokenizerSuggestionsLimit));
    calls := calls + [TokensToSuggestions(kept, false, cfg.TokenizerSuggestionsLimit)];
  }

  /** The filter's effect on the array it is handed: the contents it leaves
      overwrite the front of the array, as far as the array reaches. */
  method FilterInPlace(a: array<Token>, left: seq<Token>)
    modifies a
    ensures forall k :: 0 <= k < a.Length && k < |left| ==> a[k] == left[k]
    ensures forall k :: |left| <= k < a.Length ==> a[k] == old(a[k])
  {
    forall k | 0 <= k < a.Length && k < |left| {
      a[k] := left[k];
    }
  }

  // ---------------------------------------------------------------------
  // Learned-word dictionary branch.
  // ---------------------------------------------------------------------

  /** The continuation batches, concatenated in batch order. */
  function Flatten(batches: seq<seq<Suggestion>>): seq<Suggestion>
  {
    if batches == [] then [] else batches[0] + Flatten(batches[1..])
  }

  lemma {:induction false} FlattenAppend(a: seq<seq<Suggestion>>, b: seq<seq<Suggestion>>)
    ensures Flatten(a + b) == Flatten(a) + Flatten(b)
  {
    if a == [] {
      assert a + b == b;
    } else {
      assert (a + b)[1..] == a[1..] + b;
      FlattenAppend(a[1..], b);
    }
  }

  /** On a non-exact hit the source slices the word after
      `longestMatchPosition`; Go panics unless that slice is in range. */
  predicate RestOfWordInBounds(word: string, d: DictionaryLookup)
  {
    |d.sugs| > 0 && !d.exactMatch ==> 0 <= d.longestMatchPosition + 1 <= |word|
  }

  method ChannelGetFromDictionary(cancelled: bool, cfg: Config, c: Collaborators, word: string, tokens: seq<Token>)
    returns (out: Outcome<ChannelDictionaryResult>, ghost calls: seq<Call>)
    requires !cancelled ==> RestOfWordInBounds(word, c.getFromDictionary(tokens))
    ensures cancelled ==> out == Closed
    ensures cancelled ==> calls == []
    ensures !cancelled ==>
      var d := c.getFromDictionary(tokens);
      && (|d.sugs| == 0 ==> out == Sent(ChannelDictionaryResult([], [])))
      && (|d.sugs| > 0 && !d.exactMatch ==>
            out == Sent(ChannelDictionaryResult([], c.tokenizeRestOfWord(word[d.longestMatchPosition + 1..], d.sugs, cfg.DictionarySuggestionsLimit))))
      && (|d.sugs| > 0 && d.exactMatch ==>
            out == Sent(ChannelDictionaryResult(d.sugs, Flatten(c.getMoreFromDictionary(d.sugs)))))
    ensures !cancelled ==>
      var d := c.getFromDictionary(tokens);
      && (|d.sugs| == 0 ==> calls == [GetFromDictionary(tokens)])
      && (|d.sugs| > 0 && !d.exactMatch ==>
            calls == [GetFromDictionary(tokens), TokenizeRestOfWord(word[d.longestMatchPosition + 1..], d.sugs, cfg.DictionarySuggestionsLimit)])
      && (|d.sugs| > 0 && d.exactMatch ==>
            calls == [GetFromDictionary(tokens), GetMoreFromDictionary(d.sugs)])
  {
    if cancelled {
      return Closed, [];
    }
    var dictResults: seq<Suggestion> := [];
    var exactMatches: seq<Suggestion> := [];
    var dictSugs := c.getFromDictionary(tokens);
    calls := [GetFromDictionary(tokens)];

    if |dictSugs.sugs| > 0 {
      if !dictSugs.exactMatch {
        // The matched prefix is a dead end: complete the rest of the word.
        var restOfWord := word[dictSugs.longestMatchPosition + 1..];
        dictResults := c.tokenizeRestOfWord(restOfWord, dictSugs.sugs, cfg.DictionarySuggestionsLimit);
        calls := calls + [TokenizeRestOfWord(restOfWord, dictSugs.sugs, cfg.DictionarySuggestionsLimit)];
      } else {
        exactMatches := dictSugs.sugs;
        // An exact match may also be a path towards longer learned words.
        var moreFromDict := c.getMoreFromDictionary(dictSugs.sugs);
        calls := calls + [GetMoreFromDictionary(dictSugs.sugs)];
        var i := 0;
        while i < |moreFromDict|
          invariant 0 <= i <= |moreFromDict|
          invariant dictResults == Flatten(moreFromDict[..i])
        {
          assert moreFromDict[..i + 1] == moreFromDict[..i] + [moreFromDict[i]];
          FlattenAppend(moreFromDict[..i], [moreFromDict[i]]);
          dictResults := dictResults + moreFromDict[i];
          i := i + 1;
        }
        assert moreFromDict[..i] == moreFromDict;
      }
    }
    out := Sent(ChannelDictionaryResult(exactMatches, dictResults));
  }

  // ---------------------------------------------------------------------
  // Trained pattern dictionary branch.
  // ---------------------------------------------------------------------

  /** Runs the hooks on `s` one after the other, in registration order. */
  function ApplyPartializers(hooks: seq<Partializer>, s: Suggestion): Suggestion
  {
    if hooks == [] then s else ApplyPartializers(hooks[1..], hooks[0](s))
  }

  method RunPartializers(hooks: seq<Partializer>, s: Suggestion) returns (r: Suggestion)
    ensures r == ApplyPartializers(hooks, s)
  {
    r := s;
    var j := 0;
    while j < |hooks|
      invariant 0 <= j <= |hooks|
      invariant ApplyPartializers(hooks[j..], r) == ApplyPartializers(hooks, s)
    {
      assert hooks[j..][1..] == hooks[j + 1..];
      r := hooks[j](r);
      j := j + 1;
    }
  }

  /** A partial match after its adjustment: the weight grows by half of a
      full-confidence unit (100) per explained character, then the hooks run. */
  function Partialize(hooks: seq<Partializer>, m: PatternMatch): PatternMatch
  {
    PatternMatch(ApplyPartializers(hooks, m.Sug.(Weight := m.Sug.Weight + m.Length * 50)), m.Length)
  }

  /** The three buckets of pattern matches, each in collaborator order. */
  datatype Buckets = Buckets(partials: seq<PatternMatch>, exacts: seq<Suggestion>, overs: seq<Suggestion>)

  function Join(a: Buckets, b: Buckets): Buckets
  {
    Buckets(a.partials + b.partials, a.exacts + b.exacts, a.overs + b.overs)
  }

  lemma JoinAssociative(x: Buckets, y: Buckets, z: Buckets)
    ensures Join(x, Join(y, z)) == Join(Join(x, y), z)
  {
    assert x.partials + (y.partials + z.partials) == (x.partials + y.partials) + z.partials;
    assert x.exacts + (y.exacts + z.exacts) == (x.exacts + y.exacts) + z.exacts;
    assert x.overs + (y.overs + z.overs) == (x.overs + y.overs) + z.overs;
  }

  /** Where one match goes, judged by its length against the word length. */
  function ClassifyOne(wordLen: nat, hooks: seq<Partializer>, m: PatternMatch): Buckets
  {
    if m.Length < wordLen then Buckets([Partialize(hooks, m)], [], [])
    else if m.Length == wordLen then Buckets([], [m.Sug], [])
    else Buckets([], [], [m.Sug])
  }

  predicate AllPartial(wordLen: nat, ps: seq<PatternMatch>)
  {
    forall k :: 0 <= k < |ps| ==> ps[k].Length < wordLen
  }

  function Classify(wordLen: nat, hooks: seq<Partializer>, ms: seq<PatternMatch>): (b: Buckets)
    ensures |b.partials| + |b.exacts| + |b.overs| == |ms|
    ensures AllPartial(wordLen, b.partials)
  {
    if ms == [] then Buckets([], [], [])
    else Join(ClassifyOne(wordLen, hooks, ms[0]), Classify(wordLen, hooks, ms[1..]))
  }

  lemma {:induction false} ClassifyAppend(wordLen: nat, hooks: seq<Partializer>, a: seq<PatternMatch>, b: seq<PatternMatch>)
    ensures Classify(wordLen, hooks, a + b) == Join(Classify(wordLen, hooks, a), Classify(wordLen, hooks, b))
  {
    if a == [] {
      assert a + b == b;
    } else {
      assert (a + b)[0] == a[0] && (a + b)[1..] == a[1..] + b;
      ClassifyAppend(wordLen, hooks, a[1..], b);
      var one, ca, cb := ClassifyOne(wordLen, hooks, a[0]), Classify(wordLen, hooks, a[1..]), Classify(wordLen, hooks, b);
      JoinAssociative(one, ca, cb);
      calc {
        Classify(wordLen, hooks, a + b);
        Join(one, Classify(wordLen, hooks, a[1..] + b));
        Join(one, Join(ca, cb));
        Join(Join(one, ca), cb);
      }
    }
  }

  lemma ClassifySingle(wordLen: nat, hooks: seq<Partializer>, m: PatternMatch)
    ensures Classify(wordLen, hooks, [m]) == ClassifyOne(wordLen, hooks, m)
  {
    assert [m][1..] == [];
  }

  lemma ClassifyPrefixStep(wordLen: nat, hooks: seq<Partializer>, ms: seq<PatternMatch>, i: nat)
    requires i < |ms|
    ensures Classify(wordLen, hooks, ms[..i + 1]) == Join(Classify(wordLen, hooks, ms[..i]), ClassifyOne(wordLen, hooks, ms[i]))
  {
    assert ms[..i + 1] == ms[..i] + [ms[i]];
    ClassifyAppend(wordLen, hooks, ms[..i], [ms[i]]);
    ClassifySingle(wordLen, hooks, ms[i]);
  }

  /** The suggestion quota of each partial match, given the branch limit and
      the number of partial matches. */
  function PerMatchLimit(limit: int, partialCount: nat): (q: int)
    ensures partialCount > 0 && limit > partialCount ==>
      1 <= q && q * partialCount <= limit < (q + 1) * partialCount
    ensures !(partialCount > 0 && limit > partialCount) ==> q == limit
    ensures limit >= 1 ==> q >= 1
  {
    if partialCount > 0 && limit > partialCount then limit / partialCount else limit
  }

  /** The completions of one partial match's unexplained suffix. */
  function Fill(c: Collaborators, word: string, m: PatternMatch, quota: int): seq<Suggestion>
    requires m.Length <= |word|
  {
    c.tokenizeRestOfWord(word[m.Length..], [m.Sug], quota)
  }

  function FillCall(word: string, m: PatternMatch, quota: int): Call
    requires m.Length <= |word|
  {
    TokenizeRestOfWord(word[m.Length..], [m.Sug], quota)
  }

  datatype Expansion = Expansion(results: seq<Suggestion>, calls: seq<Call>)

  /** The expansion loop: complete the partial matches in order, appending to
      `acc`, and stop right after the first append that brings `acc` to
      `limit` or beyond. */
  function Expand(c: Collaborators, word: string, ps: seq<PatternMatch>, quota: int, limit: int, acc: seq<Suggestion>): Expansion
    requires AllPartial(|word|, ps)
    decreases |ps|
  {
    if ps == [] then Expansion(acc, [])
    else
      var grown := acc + Fill(c, word, ps[0], quota);
      if |grown| >= limit then Expansion(grown, [FillCall(word, ps[0], quota)])
      else
        var rest := Expand(c, word, ps[1..], quota, limit, grown);
        Expansion(rest.results, [FillCall(word, ps[0], quota)] + rest.calls)
  }

  /** The expansion the pattern branch runs for `word`. */
  function PatternExpansion(cfg: Config, c: Collaborators, word: string): Expansion
  {
    var b := Classify(|word|, cfg.PatternWordPartializers, c.getFromPatternDictionary(word));
    var quota := PerMatchLimit(cfg.PatternDictionarySuggestionsLimit, |b.partials|);
    Expand(c, word, b.partials, quota, cfg.PatternDictionarySuggestionsLimit, b.overs)
  }

  /** What the pattern branch sends when it is not cancelled. */
  function PatternAggregate(cfg: Config, c: Collaborators, word: string): ChannelDictionaryResult
  {
    var b := Classify(|word|, cfg.PatternWordPartializers, c.getFromPatternDictionary(word));
    ChannelDictionaryResult(b.exacts, PatternExpansion(cfg, c, word).results)
  }

  /** The classification loop: each match goes to exactly one bucket. */
  method ClassifyMatches(word: string, hooks: seq<Partializer>, patternDictSugs: seq<PatternMatch>)
    returns (partialMatches: seq<PatternMatch>, exactMatches: seq<Suggestion>, dictResults: seq<Suggestion>)
    ensures Buckets(partialMatches, exactMatches, dictResults) == Classify(|word|, hooks, patternDictSugs)
  {
    partialMatches, exactMatches, dictResults := [], [], [];
    var i := 0;
    while i < |patternDictSugs|
      invariant 0 <= i <= |patternDictSugs|
      invariant Classify(|word|, hooks, patternDictSugs[..i]) == Buckets(partialMatches, exactMatches, dictResults)
    {
      var m := patternDictSugs[i];
      ghost var before := Buckets(partialMatches, exactMatches, dictResults);
      if m.Length < |word| {
        // Favour longer partial explanations, then let the hooks repair the match.
        var sug := m.Sug.(Weight := m.Sug.Weight + m.Length * 50);
        sug := RunPartializers(hooks, sug);
        partialMatches := partialMatches + [PatternMatch(sug, m.Length)];
      } else if m.Length == |word| {
        exactMatches := exactMatches + [m.Sug];
      } else {
        dictResults := dictResults + [m.Sug];
      }
      assert Buckets(partialMatches, exactMatches, dictResults) == Join(before, ClassifyOne(|word|, hooks, m));
      ClassifyPrefixStep(|word|, hooks, patternDictSugs, i);
      i := i + 1;
    }
    assert patternDictSugs[..i] == patternDictSugs;
  }

  /** The expansion loop over the partial matches, appending to `dictResults`. */
  method ExpandPartials(c: Collaborators, word: string, partialMatches: seq<PatternMatch>, perMatchLimit: int, limit: int, dictResults: seq<Suggestion>)
    returns (results: seq<Suggestion>, ghost calls: seq<Call>)
    requires AllPartial(|word|, partialMatches)
    ensures results == Expand(c, word, partialMatches, perMatchLimit, limit, dictResults).results
    ensures calls == Expand(c, word, partialMatches, perMatchLimit, limit, dictResults).calls
  {
    ghost var goal := Expand(c, word, partialMatches, perMatchLimit, limit, dictResults);
    results, calls := dictResults, [];
    var j := 0;
    while j < |partialMatches|
      invariant 0 <= j <= |partialMatches|
      invariant Expand(c, word, partialMatches[j..], perMatchLimit, limit, results).results == goal.results
      invariant calls + Expand(c, word, partialMatches[j..], perMatchLimit, limit, results).calls == goal.calls
    {
      var partial := partialMatches[j];
      assert partialMatches[j..][0] == partial && partialMatches[j..][1..] == partialMatches[j + 1..];
      var restOfWord := word[partial.Length..];
      var filled := c.tokenizeRestOfWord(restOfWord, [partial.Sug], perMatchLimit);
      calls := calls + [TokenizeRestOfWord(restOfWord, [partial.Sug], perMatchLimit)];
      results := results + filled;
      if |results| >= limit {
        break;
      }
      j := j + 1;
    }
  }

  method ChannelGetFromPatternDictionary(cancelled: bool, cfg: Config, c: Collaborators, word: string)
    returns (out: Outcome<ChannelDictionaryResult>, ghost calls: seq<Call>)
    ensures cancelled ==> out == Closed
    ensures cancelled ==> calls == []
    ensures !cancelled ==> out == Sent(PatternAggregate(cfg, c, word))
    ensures !cancelled ==> calls == [GetFromPatternDictionary(word)] + PatternExpansion(cfg, c, word).calls
  {
    if cancelled {
      return Closed, [];
    }
    var dictResults: seq<Suggestion> := [];
    var exactMatches: seq<Suggestion> := [];
    var patternDictSugs := c.getFromPatternDictionary(word);
    calls := [GetFromPatternDictionary(word)];
    var limit := cfg.PatternDictionarySuggestionsLimit;

    if |patternDictSugs| > 0 {
      var partialMatches;
      partialMatches, exactMatches, dictResults := ClassifyMatches(word, cfg.PatternWordPartializers, patternDictSugs);

      var perMatchLimit := limit;
      if |partialMatches| > 0 && perMatchLimit > |partialMatches| {
        perMatchLimit := perMatchLimit / |partialMatches|;
      }

      ghost var expansionCalls;
      dictResults, expansionCalls := ExpandPartials(c, word, partialMatches, perMatchLimit, limit, dictResults);
      calls := calls + expansionCalls;
    }
    out := Sent(ChannelDictionaryResult(exactMatches, dictResults));
  }
}
