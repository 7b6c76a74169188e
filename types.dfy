/** Values shared by the suggestion branches of the transliteration engine:
    suggestions, tokens, the results of the dictionary and pattern lookups,
    the engine configuration, and the collaborators the branches call. */
module Types {

  /** A word candidate in the target script. `Weight` is a confidence score
      (higher is more likely); `LearnedOn` is a timestamp. */
  datatype Suggestion = Suggestion(Word: string, Weight: int, LearnedOn: int)

  /** A token of the typed input. Its internals belong to the tokenizer, which
      is not part of this model; the branches only pass tokens along. */
  type Token(0)

  /** What filtering out the non-exact tokens gives back: the kept tokens, and
      the contents it leaves at the front of the array it was handed (a Go
      slice filter may reuse its argument's backing array). */
  datatype TokenFilter = TokenFilter(kept: seq<Token>, leftInArray: seq<Token>)

  /** One entry returned by the pattern dictionary: a suggestion together
      with the number of input characters the trained pattern explains. */
  datatype PatternMatch = PatternMatch(Sug: Suggestion, Length: nat)

  /** What the learned-word dictionary answers for a token sequence. */
  datatype DictionaryLookup = DictionaryLookup(sugs: seq<Suggestion>, exactMatch: bool, longestMatchPosition: int)

  /** What the two dictionary branches deliver. */
  datatype ChannelDictionaryResult = ChannelDictionaryResult(exactMatches: seq<Suggestion>, suggestions: seq<Suggestion>)

  /** A partializer hook: it adjusts a partially matched pattern suggestion. */
  type Partializer = Suggestion -> Suggestion

  /** The engine fields the branches read. */
  datatype Config = Config(
    TokenizerSuggestionsLimit: int,
    DictionarySuggestionsLimit: int,
    PatternDictionarySuggestionsLimit: int,
    PatternWordPartializers: seq<Partializer>)

  /** The engine operations the branches call. Their implementations are not
      part of this model, so nothing is assumed about what they return. */
  datatype Collaborators = Collaborators(
    tokenizeWord: (string, int, bool) -> seq<Token>,
    tokensToSuggestions: (seq<Token>, bool, int) -> seq<Suggestion>,
    removeNonExactTokens: seq<Token> -> TokenFilter,
    getFromDictionary: seq<Token> -> DictionaryLookup,
    getMoreFromDictionary: seq<Suggestion> -> seq<seq<Suggestion>>,
    getFromPatternDictionary: string -> seq<PatternMatch>,
    tokenizeRestOfWord: (string, seq<Suggestion>, int) -> seq<Suggestion>)

  /** What a branch leaves on its one-shot channel: it is closed with nothing
      sent (the request was cancelled before the branch started), or exactly
      one value was sent before it was closed. */
  datatype Outcome<T> = Closed | Sent(value: T)

  /** A call a branch makes to a collaborator, with its arguments. */
  datatype Call =
    | TokensToSuggestions(tokens: seq<Token>, partial: bool, limit: int)
    | RemoveNonExactTokens(tokens: seq<Token>)
    | GetFromDictionary(tokens: seq<Token>)
    | GetMoreFromDictionary(seeds: seq<Suggestion>)
    | GetFromPatternDictionary(word: string)
    | TokenizeRestOfWord(rest: string, seeds: seq<Suggestion>, limit: int)
}
