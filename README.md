# govarnam suggestion branches, in Dafny

This project models the per-branch aggregation logic of govarnam's
transliteration engine (`govarnam/channel.go`). While a word is being typed,
the engine gathers candidate suggestions from several sources. Each source
has its own branch:

- the tokenizer (`channelTokenizeWord`, `channelTokensToSuggestions`);
- a greedy tokenizer that keeps only exact tokens (`channelTokensToGreedySuggestions`);
- the learned-word dictionary (`channelGetFromDictionary`);
- dictionary continuations (`channelGetMoreFromDictionary`);
- the trained pattern dictionary (`channelGetFromPatternDictionary`).

Each branch checks the request's cancellation once, at entry. If the request
is already cancelled, the branch closes its channel without sending anything.
Otherwise it runs to completion and sends exactly one value. The model gives
each branch a `cancelled` flag, which stands for `ctx.Done()` being ready at
entry. It also gives each branch an outcome `Closed | Sent(value)`.

The engine operations the branches call are fields of a `Collaborators`
value. These are `tokenizeWord`, `tokensToSuggestions`,
`removeNonExactTokens`, `getFromDictionary`, `getMoreFromDictionary`,
`getFromPatternDictionary` and `tokenizeRestOfWord`. No property of their
results is assumed. The engine fields the branches read are in `Config`: the
three suggestion limits and the ordered `PatternWordPartializers` hooks.

The branches that work step by step are methods. They are proved against
specification functions, and the properties are lemmas about those functions.
These methods are the greedy branch, the dictionary branch, the pattern branch
and the pattern branch's loops. The three branch methods and the expansion
loop (`ExpandPartials`) also return a ghost trace of the collaborator calls
they make, with their arguments. The trace is how the model
states "no further lookup" and "no call to the converter".

Files:

- `types.dfy` (module `Types`): suggestions, tokens, pattern matches, the
  dictionary lookup result, `channelDictionaryResult`, the configuration, the
  collaborators, the outcome and the call trace.
- `channel.dfy` (module `Channel`): the six branches and their specification
  functions (`Flatten`, `Classify`, `PerMatchLimit`, `Expand`,
  `PatternAggregate`).
- `properties.dfy` (module `ChannelProperties`): the classification, hook,
  expansion and output properties, and two worked scenarios.

The pattern-dictionary limit is not a hard cap. Over-length matches go into
the result before any expansion, and the stop test runs after each append. So
the result can be longer than `PatternDictionarySuggestionsLimit`.
`ChannelProperties.PatternLimitIsNotAHardCap` proves that over-length matches
alone can exceed the limit.

## Model

| member | source | states |
|---|---|---|
| `Channel.ChannelTokenizeWord` | govarnam/channel.go:13-22 | nothing is sent exactly when cancelled at entry; otherwise the one value sent is the tokenizer's result for the word, match type and partial flag |
| `Channel.ChannelTokensToSuggestions` | govarnam/channel.go:24-33 | nothing is sent exactly when cancelled at entry; otherwise the one value sent is the converter's result for the tokens and limit, non-partial |
| `Channel.ChannelGetMoreFromDictionary` | govarnam/channel.go:169-178 | nothing is sent exactly when cancelled at entry; otherwise the one value sent is the continuation batches for the seeds, unflattened |
| `Channel.ChannelTokensToGreedySuggestions` | govarnam/channel.go:35-58 | the caller's token array is unchanged; a cancelled branch sends nothing and calls nothing; if filtering the copy leaves no token, it sends an empty list without calling the converter; otherwise it sends the converter's result for the filtered tokens under the tokenizer limit |
| `Channel.ChannelGetFromDictionary` | govarnam/channel.go:60-102 | cancelled: nothing sent, no lookup; empty lookup: both lists empty and no further lookup; non-exact hit: no exact matches, and the suggestions complete the word after `longestMatchPosition` under the dictionary limit; exact hit: the hits are the exact matches, and the suggestions are the continuation batches flattened in batch order |
| `Channel.FlattenAppend` | govarnam/channel.go:93-95 | flattening a concatenation of batch lists is the concatenation of their flattenings |
| `Channel.Classify` | govarnam/channel.go:124-143 | the three buckets together hold exactly as many entries as there are matches, and every partial entry is shorter than the word |
| `Channel.ClassifyAppend` | govarnam/channel.go:124-143 | classification keeps collaborator order: classifying two consecutive runs of matches joins their buckets, earlier run first |
| `Channel.RunPartializers` | govarnam/channel.go:132-134 | the hook loop yields the suggestion obtained by running every hook once, in registration order |
| `Channel.ClassifyMatches` | govarnam/channel.go:122-143 | the classification loop builds exactly the partial, exact-length and over-length buckets of the matches |
| `Channel.PerMatchLimit` | govarnam/channel.go:145-149 | with K partial matches and limit P > K > 0 the quota is the floor of P / K: at least 1, K quotas fit in P, and K more would not; otherwise the quota is P; a positive limit never gives a zero quota |
| `Channel.ExpandPartials` | govarnam/channel.go:151-161 | the expansion loop with its break yields exactly the results and collaborator calls of the expansion specification |
| `Channel.ChannelGetFromPatternDictionary` | govarnam/channel.go:104-167 | a cancelled branch sends nothing and calls nothing; otherwise it sends the exact-length suggestions and the over-length suggestions followed by the expansions, and its only calls are the pattern lookup and then one completion per expanded partial match |
| `ChannelProperties.ClassifyAt` | govarnam/channel.go:124-143 | every match contributes its own bucket entry, after the entries of the earlier matches and before those of the later ones |
| `ChannelProperties.ClassifyOneIsExclusive` | govarnam/channel.go:125-142 | a single match lands in exactly one bucket: partial when shorter than the word, exact when of equal length, over-length when longer; exact and over-length matches keep their suggestion unchanged |
| `ChannelProperties.ApplyPartializersAppend` | govarnam/channel.go:132-134 | running two hook lists one after the other equals running their concatenation |
| `ChannelProperties.PartializeHooksInOrder` | govarnam/channel.go:126-136 | each hook runs on the bumped suggestion as left by the hooks registered before it; with no hooks the weight grows by `Length * 50` and the word, timestamp and length are kept |
| `ChannelProperties.ExpansionStopsAtFirstReach` | govarnam/channel.go:151-161 | partial matches are expanded in order, a prefix of them, one completion call each with the suffix after the match and the quota; every match before the last expanded one left the total below the limit; an early stop happens only once the total reached the limit; the first partial match is always expanded |
| `ChannelProperties.PatternSuggestionsStartWithOverLength` | govarnam/channel.go:137-164 | the exact matches sent are the exact-length suggestions in order, and the suggestions sent start with the over-length suggestions in order |
| `ChannelProperties.PatternLimitIsNotAHardCap` | govarnam/channel.go:140-160 | when the over-length matches alone exceed the limit, the suggestions sent exceed it too |
| `ChannelProperties.KitabScenario` | govarnam/channel.go:125-156 | for "kitab" and a pattern "kit" of length 3 and weight 10, with no hooks: no exact matches, and the suggestions are the completion of "ab" seeded by "kit" at weight 160 under the full limit, from a single completion call |
| `ChannelProperties.FlattenKeepsBatchOrder` | govarnam/channel.go:93-95 | every continuation batch appears whole in the flattened list, after all earlier batches and before all later ones |
| `ChannelProperties.AmmaScenario` | govarnam/channel.go:77-99 | an exact dictionary hit "amma" (50) with one continuation batch holding "amma-ch" (40) sends "amma" as the exact match and "amma-ch" as the dictionary suggestion |

## Left out

- The concurrent fan-out and fan-in is not modelled. Goroutines, channels, `select` and `close` become the `cancelled` flag and the `Closed | Sent` outcome, and the model does not include the caller that waits on the channels.
- The collaborators receive the request context in the source. They might stop early on cancellation themselves; the model treats each as a plain function of its other arguments.
- Collaborator internals are not part of this model: tokenizer, converter, dictionary and pattern stores, `tokenizeRestOfWord` and `removeNonExactTokens`.
- Debug printing (govarnam/channel.go:73-75, 89-91, 118-120) is a diagnostic side channel with no effect on results.
- govarnamgo/govarnamgo.go is not part of this model. It is a cgo binding layer made of foreign calls and manual memory management.
- govarnam/constants.go is not part of this model. Its path functions read environment variables and probe the file system.
- Go's `int` is modelled as an unbounded integer. The weight bump `Weight + Length * 50` and the limits do not wrap around.
- Strings are sequences whose elements stand for the bytes of a Go string. `len(word)` and `word[i:]` count bytes in Go, and no UTF-8 decoding is modelled.
- `PatternMatch.Length` is a natural number, so a negative `Length` is not modelled. In Go such a match would count as partial, get a negative weight bump and count towards the quota; Go panics at `word[match.Length:]` only if the expansion loop reaches that match.
- Channel.ChannelGetFromDictionary: requires `0 <= longestMatchPosition + 1 <= len(word)` on the non-exact path. The source does not check this bound, and Go panics outside it.
- Channel.ChannelTokensToGreedySuggestions: the filter's effect on the array it is handed is modelled as contents the collaborator chooses, written over the front of that array (`FilterInPlace`). Which contents the real `removeNonExactTokens` leaves there is not modelled. Because the branch hands the filter its private copy, the caller's array is proved unchanged.
- Nil slices and empty slices are both the empty sequence.
- The partializer hooks are functions from a suggestion to a suggestion. The source's hooks mutate the suggestion through a pointer.
