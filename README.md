# Joke-scoring engine: a verified Dafny model

This project models the deterministic, lexicon-driven joke-scoring engine of the repository,
together with a few small pure helpers that sit beside it:

- **Nine humour-theory analyzers.** Each one lower-cases a joke, looks for fixed Polish marker
  lists, adds fixed weights to a running score, applies a few structural rules, caps the score at
  10 and rounds it to one decimal. The analyzers are setup-punchline, incongruity, semantic shift,
  timing, absurd escalation, psychoanalysis, archetype, humor atoms and reverse engineering.
  Each has a module with a specification function `AnalysisOf(text)` and a method `Analyze(text)`
  that builds the score and the key elements step by step, as the source does. The method is
  proved equal to the function, and the score is proved to lie between 0 and 10.
- **The shared base** (`Base`): the analysis record, the sentence splitter and the whitespace
  tokenizer used when no spaCy model is loaded, and the count helpers.
- **The aggregating `JokeAnalyzer`** (`Aggregator`). It runs the nine analyzers in registry
  order and derives the overall mean, the dominant theory, the goal-weighted 0–100 scores, at
  most five recommendations and the target segments.
- **The request and response records** (`Models`): the closed enum of nine theories and the
  range-checked fields.
- **The text features that need no NLP model** (`Extractor`): the atomic features, the integer
  parts of the structural features, the wordplay loop, the pause count and the narrative decision
  rules. A spaCy document is given as a sequence of tokens or of sentence lengths.
- **The chunking loop of `translate_text`** (`Translate`): greedy packing of sentences into
  chunks of at most 5000 characters.
- **`validate_prompt`** (`PromptValidation`): the error list built before a prompt is sent.
- **The joke generator's records and prompt builder** (`Joker`).

Modelling conventions:

- Scores are exact integers in tenths of a point. Archetype contributions are multiples of 0.25,
  so that analyzer works in hundredths and rounds half-to-even to tenths, as Python's `round`
  does on these values (4.75 becomes 4.8, 6.25 becomes 6.2).
- Goal weights are in hundredths. `int(weighted_sum * 10)` is division truncating toward zero.
- Python's `str.lower()` is modelled for ASCII and the Polish letters only (`Text.Lower`).
- Whitespace is Python's `str.isspace` set, written out.
- Python dictionaries whose order matters are ordered sequences:
  - the marker tables;
  - `raw_scores`, whose entries are (theory, score) pairs in insertion order.
- `Base.Sentences` cuts the text at every '.', '!' or '?', strips each piece and drops the empty
  ones. `re.split` on runs of these characters gives the same list, because a run only adds
  empty pieces, and those are dropped.
- A `Result` datatype stands for a pydantic `ValidationError` and for the `TypeError` that
  `len()` raises in `validate_prompt`.
- The recurring proof shape: each analyzer loop keeps a ghost sequence of the table entries fired
  so far, and the loop invariant ties the running score and key elements to a function of it.

## Model

| member | source | states |
|---|---|---|
| Models.TheoryEnumClosed | src/joke_analyser/models.py:9-19 | There are exactly nine theories, each listed once, and every theory is among them. |
| Models.ParseTheoryInverse | src/joke_analyser/models.py:9-19 | Parsing a theory's string value gives the theory back, and a string parses to a theory only if it is that theory's value. |
| Models.TheoryValueInjective | src/joke_analyser/models.py:11-19 | No two theories share a string value. |
| Models.MakeAnalyzeRequest | src/joke_analyser/models.py:22-26 | A request is accepted exactly when the joke has 5 to 1000 characters, and then holds the given fields; a shorter joke is rejected as too short. |
| Models.RequestDefaults | src/joke_analyser/models.py:25-26 | With a valid joke and no other arguments, `context` is None and `persona` is "waldus". |
| Models.MakeTheoryScore | src/joke_analyser/models.py:29-33 | A theory score is accepted exactly when it lies in [0, 10], and an accepted score keeps its score, explanation and key elements (empty by default) unchanged. |
| Models.MakeAnalyzeResponse | src/joke_analyser/models.py:36-49 | A response is accepted exactly when the overall score is in [0, 10] and both percentages are in [0, 100]; an accepted response is valid and holds every field exactly as given. |
| Base.SentencesWellFormed | src/joke_analyser/analyzers/base.py:55-57 | No fallback sentence is empty, starts or ends with whitespace, or contains '.', '!' or '?'. |
| Base.SentencesEmptyIff | src/joke_analyser/analyzers/base.py:57 | The fallback splitter yields no sentence exactly when every character is whitespace or one of '.', '!', '?'. |
| Base.OneSentence | src/joke_analyser/analyzers/base.py:57 | A non-blank text with no terminator is one sentence, the stripped text. |
| Base.SentenceCountBound | src/joke_analyser/analyzers/base.py:70-72 | The sentence count is at most one more than the number of terminators. |
| Base.WordCountZeroIff | src/joke_analyser/analyzers/base.py:74-76 | The fallback word count is zero exactly when the text is whitespace only. |
| Base.MaxOf | src/humor_features/analyzers/timing.py:40-45 | The maximum sentence length is one of the lengths and bounds them all. |
| Base.MinOf | src/humor_features/analyzers/timing.py:40-45 | The minimum sentence length is one of the lengths and is below them all. |
| Text.LowerIdempotent | src/joke_analyser/analyzers/setup_punchline.py:96 | Lower-casing twice is lower-casing once. |
| Text.StripFacts | src/joke_analyser/analyzers/base.py:57 | `strip()` gives "" exactly on whitespace-only text, otherwise a slice with no whitespace at either end. |
| Text.WordsFacts | src/joke_analyser/analyzers/base.py:48 | `split()` gives no word exactly on whitespace-only text, and every word is non-empty and free of whitespace. |
| Text.ContainsIff | src/joke_analyser/analyzers/setup_punchline.py:100-102 | The substring test holds exactly when the pattern occurs at some position. |
| Text.CountPositiveIff | src/humor_features/analyzers/timing.py:53-54 | `str.count` is positive exactly when the pattern occurs. |
| Text.CountChar | src/humor_features/extractor.py:228 | `str.count` of one character is the number of times that character occurs. |
| Text.SplitOnJoin | src/translation/translate.py:126 | Splitting on a character and joining with it again gives the text back, and no piece holds the character. |
| SetupPunchline.AddSignals | src/joke_analyser/analyzers/setup_punchline.py:52-80 | The signal steps add 3.0 per setup, twist and punchline, 1.0 for two or more sentences, 0.5 for a punchline at the end, and append their key elements in source order. |
| SetupPunchline.Analyze | src/joke_analyser/analyzers/setup_punchline.py:41-92 | The step-by-step analysis equals the specification, clamped to [0, 10] on both sides. |
| SetupPunchline.TwistIffOccurs | src/joke_analyser/analyzers/setup_punchline.py:109-117 | A twist is detected exactly when a padded twist marker occurs in the padded lower-cased text. |
| SetupPunchline.PunchlineAtEndOnSentences | src/joke_analyser/analyzers/setup_punchline.py:141-151 | On the splitter's sentences, the punchline is at the end exactly when there are two or more sentences and the last is under 80 characters; the '!' test never fires, because sentences hold no '!'. |
| SetupPunchline.ExplanationOpening | src/joke_analyser/analyzers/setup_punchline.py:163-170 | The explanation opens with the clause chosen by setup, twist and punchline, and that clause is "Brak wyraźnej struktury…" exactly when there is no setup. |
| SetupPunchline.SetupAndExclamationScoreAtLeastSix | src/joke_analyser/analyzers/setup_punchline.py:52-82 | A joke with a setup marker, a '!' and two or more sentences scores at least 6.0. |
| Incongruity.DetectDomainClashes | src/joke_analyser/analyzers/incongruity.py:74-82 | The pair loop records exactly the fired domain pairs, in table order, with their key elements. |
| Incongruity.DetectSignals | src/joke_analyser/analyzers/incongruity.py:84-111 | The contrast, anthropomorphization, semantic-clash and Waldus steps add 1.5, 2.0, 1.5 and 1.5 once each, and report the contrast and anthropomorphization counts. |
| Incongruity.Analyze | src/joke_analyser/analyzers/incongruity.py:59-124 | The step-by-step analysis equals the specification, with 2.5 per fired pair and the score capped at 10. |
| Incongruity.FiredPairsIff | src/joke_analyser/analyzers/incongruity.py:75-82 | A domain pair fires exactly when it is in the table and both of its word lists have a hit. |
| Incongruity.ExplanationFallbackIff | src/joke_analyser/analyzers/incongruity.py:161-182 | The explanation is the fallback sentence exactly when no pair, contrast or anthropomorphization fired. |
| SemanticShift.DetectWords | src/joke_analyser/analyzers/semantic_shift.py:46-62 | 1.5 per ambiguous word and 2.0 per metaphor marker found, with the two counts reported. |
| SemanticShift.DetectShape | src/joke_analyser/analyzers/semantic_shift.py:64-78 | Two or more quote characters add 1.5, literalization adds 2.5, and both parentheses add 1.0. |
| SemanticShift.Analyze | src/joke_analyser/analyzers/semantic_shift.py:32-91 | The step-by-step analysis equals the specification, capped at 10. |
| SemanticShift.BatCountsTwice | src/joke_analyser/analyzers/semantic_shift.py:21-23 | Text containing "bat" counts at least two ambiguous words, since the table lists "bat" twice. |
| SemanticShift.QuoteCountWeights | src/joke_analyser/analyzers/semantic_shift.py:65 | The quote count is twice the number of ASCII double quotes plus the apostrophes and low quotes, because the double quote is listed twice. |
| SemanticShift.OneDoubleQuoteSignalsShift | src/joke_analyser/analyzers/semantic_shift.py:65-68 | A single ASCII double quote already reaches the threshold of two quotes. |
| SemanticShift.ExplanationFallbackIff | src/joke_analyser/analyzers/semantic_shift.py:110-131 | The explanation is the fallback exactly when there is no ambiguous word, no metaphor marker and fewer than two quotes. |
| Timing.DetectRhythm | src/humor_features/analyzers/timing.py:35-50 | With two or more sentences, a length spread above 30 adds 2.0 and a last sentence under 0.7 of the mean adds 2.5. |
| Timing.DetectMarks | src/humor_features/analyzers/timing.py:52-74 | 1.5 per pause mark, 1.0 per '!', 0.5 per '?' and 2.0 for a register shift, with the pause and '!' counts reported. |
| Timing.Analyze | src/humor_features/analyzers/timing.py:21-87 | The step-by-step analysis equals the specification, capped at 10. |
| Timing.EqualLengthsNoRhythm | src/humor_features/analyzers/timing.py:40-50 | Sentences of equal length earn no rhythm points. |
| Timing.ShortPunchlineBelowMax | src/humor_features/analyzers/timing.py:48-50 | A last sentence under 0.7 of the mean is shorter than the longest sentence. |
| Timing.SingleCharPauses | src/humor_features/analyzers/timing.py:52-57 | The pause count is the non-overlapping counts of "—" and "..." plus the number of '–', ';' and ':' characters. |
| Timing.ExplanationFallbackIff | src/humor_features/analyzers/timing.py:110-133 | The explanation is the fallback exactly when there are zero or two sentences, no pauses and no '!'. |
| AbsurdEscalation.DetectAbsurdityLevel | src/humor_features/analyzers/absurd_escalation.py:97-105 | The tier loop computes the level of the specification. |
| AbsurdEscalation.LevelIsMaximum | src/humor_features/analyzers/absurd_escalation.py:97-105 | The level bounds every tier with a marker in the text, and is 0 or the level of such a tier. |
| AbsurdEscalation.DetectedLevels | src/humor_features/analyzers/absurd_escalation.py:22-28 | The level is one of 0, 1, 3, 5, 7 and 10. |
| AbsurdEscalation.PeakMarkerGivesTen | src/humor_features/analyzers/absurd_escalation.py:97-105 | A marker of the top tier gives level 10, whatever else occurs. |
| AbsurdEscalation.DetectSentenceEscalation | src/humor_features/analyzers/absurd_escalation.py:66-71 | The sentence check compares only the first and the last sentence. |
| AbsurdEscalation.DetectEscalation | src/humor_features/analyzers/absurd_escalation.py:51-71 | 0.8 per level, 1.5 per escalation phrase and 2.0 for an escalating last sentence, with the level and phrase count reported. |
| AbsurdEscalation.DetectExtremes | src/humor_features/analyzers/absurd_escalation.py:73-82 | 2.5 for Waldus escalation and 1.0 per distinct hyperbole word. |
| AbsurdEscalation.Analyze | src/humor_features/analyzers/absurd_escalation.py:36-95 | The step-by-step analysis equals the specification, capped at 10. |
| AbsurdEscalation.LowestTierNeverEscalates | src/humor_features/analyzers/absurd_escalation.py:107-123 | A last sentence with a lowest-tier marker scores 1, the least absurdity, so the sentence check never fires. |
| AbsurdEscalation.ExplanationOpensWithLevel | src/humor_features/analyzers/absurd_escalation.py:148-172 | The explanation opens with the clause for the level's bucket. |
| Psychoanalysis.DetectStates | src/joke_analyser/analyzers/psychoanalysis.py:56-61 | The state loop records the detected states in table order, with their key elements. |
| Psychoanalysis.DetectSignals | src/joke_analyser/analyzers/psychoanalysis.py:63-90 | 1.5 per defense phrase, 0.5 per self-reference, 2.0 for projection and 2.5 for meta-commentary, with the counts reported. |
| Psychoanalysis.Analyze | src/joke_analyser/analyzers/psychoanalysis.py:41-103 | The step-by-step analysis equals the specification, with 2.0 per detected state and the score capped at 10. |
| Psychoanalysis.DetectedStatesIff | src/joke_analyser/analyzers/psychoanalysis.py:56-61 | A state is recorded exactly when one of its markers occurs. |
| Psychoanalysis.NotMeCountsTwice | src/joke_analyser/analyzers/psychoanalysis.py:56-112 | "to nie ja" both records the projection state and triggers the projection bonus. |
| Psychoanalysis.AdjacentSelfRefsCountOnce | src/joke_analyser/analyzers/psychoanalysis.py:73-77 | Non-overlapping counting sees " ja ja " as one self-reference, not two. |
| Psychoanalysis.ExplanationFallbackIff | src/joke_analyser/analyzers/psychoanalysis.py:123-144 | The explanation is the fallback exactly when no state, no defense phrase and at most two self-references occur. |
| Archetype.DetectUniversal | src/joke_analyser/analyzers/archetype.py:85-91 | The universal loop adds half the base score of each fired archetype and records names and descriptions in table order. |
| Archetype.DetectPolish | src/joke_analyser/analyzers/archetype.py:93-97 | 2.5 per Polish group with a marker, one key element each. |
| Archetype.DetectWaldus | src/joke_analyser/analyzers/archetype.py:99-102 | 2.0 exactly when a nihilist marker and a tech marker both occur. |
| Archetype.CheckConsistency | src/joke_analyser/analyzers/archetype.py:104-110 | +1.0 for exactly one universal archetype, −0.5 for more than two, nothing for zero or two. |
| Archetype.Analyze | src/joke_analyser/analyzers/archetype.py:71-123 | The step-by-step analysis equals the specification: capped at 10, rounded half-to-even to tenths. |
| Archetype.RoundHalfEven | src/joke_analyser/analyzers/archetype.py:120 | The result is within half a tenth of the input, and an exact tie goes to the even tenth. |
| Archetype.NeverNegative | src/joke_analyser/analyzers/archetype.py:104-113 | The raw score is never negative: −0.5 only follows three archetypes worth 3.0 or more each. |
| Archetype.RoundingTies | src/joke_analyser/analyzers/archetype.py:120 | 4.75 rounds to 4.8 and 6.25 to 6.2. |
| Archetype.FiredArchetypesIff | src/joke_analyser/analyzers/archetype.py:86-91 | An archetype is recorded exactly when it is a table entry with a marker in the text. |
| Archetype.PolishCountIsGroupCount | src/joke_analyser/analyzers/archetype.py:150-153 | The explanation's Polish count equals the number of Polish groups found; no other key element carries the tag. |
| HumorAtoms.DetectAtoms | src/joke_analyser/analyzers/humor_atoms.py:70-83 | The atom loop adds count × weight per atom and records names and "name: Nx" elements in table order. |
| HumorAtoms.Analyze | src/joke_analyser/analyzers/humor_atoms.py:55-106 | The step-by-step analysis equals the specification: mix bonus, exactly 1.0 with no atom, cap at 10. |
| HumorAtoms.FiredAtomsIff | src/joke_analyser/analyzers/humor_atoms.py:71-82 | An atom is recorded exactly when it is a table entry with a marker in the text. |
| HumorAtoms.AtomScoreAtLeast | src/joke_analyser/analyzers/humor_atoms.py:75-81 | With weights of at least 1.0, every recorded atom adds at least 1.0. |
| HumorAtoms.ScoreBounds | src/joke_analyser/analyzers/humor_atoms.py:85-96 | The score always lies between 1.0 and 10. |
| HumorAtoms.ExplanationBucket | src/joke_analyser/analyzers/humor_atoms.py:108-121 | The explanation's wording tells apart zero, one, two and three or more atoms, in both directions. |
| HumorAtoms.ExplanationNamesFirst | src/joke_analyser/analyzers/humor_atoms.py:114-121 | Whenever an atom was found, the explanation names the first one. |
| ReverseEngineering.DetectMechanisms | src/joke_analyser/analyzers/reverse_engineering.py:68-81 | The mechanism loop adds 1.5 per marker found and records names and descriptions in table order. |
| ReverseEngineering.Analyze | src/joke_analyser/analyzers/reverse_engineering.py:53-109 | The step-by-step analysis equals the specification: complexity and replicability bonuses, exactly 2.0 with no mechanism, cap at 10. |
| ReverseEngineering.FiredMechanismsIff | src/joke_analyser/analyzers/reverse_engineering.py:69-81 | A mechanism is recorded exactly when it is a table entry with a marker in the text. |
| ReverseEngineering.MarkerScoreAtLeast | src/joke_analyser/analyzers/reverse_engineering.py:73-79 | Every recorded mechanism adds at least 1.5. |
| ReverseEngineering.ScoreBounds | src/joke_analyser/analyzers/reverse_engineering.py:83-99 | The score lies between 1.5 and 10, and is exactly 2.0 with no mechanism. |
| ReverseEngineering.TemplateMarkersInLowerText | src/joke_analyser/analyzers/reverse_engineering.py:120-122 | In lower-cased text only '{' and '[' can match; the upper-case markers `<VARIABLE>`, `<X>` and `<Y>` never do. |
| ReverseEngineering.JakbyCountsTwice | src/joke_analyser/analyzers/reverse_engineering.py:35-37 | "jakby" also contains "jak", so it counts two absurd-transfer markers. |
| ReverseEngineering.ExplanationBucket | src/joke_analyser/analyzers/reverse_engineering.py:133-147 | The explanation's wording tells apart zero, one, two and three or more mechanisms, in both directions. |
| ReverseEngineering.ExplanationNamesFirst | src/joke_analyser/analyzers/reverse_engineering.py:139-147 | Whenever a mechanism was found, the explanation names the first one. |
| Aggregator.Run | src/humor_features/analyzer.py:37-47 | Dispatch reaches the analyzer registered for the theory, and its score lies in [0, 10]. |
| Aggregator.RunAll | src/humor_features/analyzer.py:85-97 | The registry loop stores each analyzer's result under its theory's value and its score in `raw_scores`, all in [0, 10]. |
| Aggregator.Analyze | src/humor_features/analyzer.py:71-128 | `analyze` builds the specified response, and that response is valid. |
| Aggregator.RegistryIsEveryTheoryOnce | src/humor_features/analyzer.py:37-47 | The registry lists every theory exactly once, in declaration order. |
| Aggregator.TheoryScoresEntries | src/humor_features/analyzer.py:88-95 | `theory_scores` has an entry for a theory's value exactly when the theory was run, holding that analyzer's result. |
| Aggregator.OverallScore | src/humor_features/analyzer.py:100 | The overall score is the mean of the nine scores to the nearest tenth. |
| Aggregator.OverallInRange | src/humor_features/analyzer.py:99-100 | Nine scores in [0, 10] have an overall score in [0, 10]. |
| Aggregator.OverallOfEqualScores | src/humor_features/analyzer.py:100 | Nine equal scores have that score as their mean. |
| Aggregator.FirstMax | src/humor_features/analyzer.py:103 | The chosen position holds the maximum and every earlier score is strictly smaller. |
| Aggregator.DominantIsFirstMaximum | src/humor_features/analyzer.py:102-103 | The dominant theory is the first entry whose score is the maximum. |
| Aggregator.TiesGoToFirst | src/humor_features/analyzer.py:103 | When all scores are equal, the first registered theory dominates. |
| Aggregator.TruncDiv | src/humor_features/analyzer.py:156 | `int()` truncates toward zero, for negative values as well. |
| Aggregator.Clamp | src/humor_features/analyzer.py:157 | The clamp lands in [0, 100] and leaves values already there alone. |
| Aggregator.WeightedScore | src/humor_features/analyzer.py:130-157 | A weighted score lies in [0, 100], and is 50 for a goal outside the table. |
| Aggregator.CalculateWeightedScore | src/humor_features/analyzer.py:145-157 | The accumulating loop computes the specified weighted score. |
| Aggregator.WeightsSumToOne | src/humor_features/analyzer.py:50-69 | The weights of every goal add up to 1.00. |
| Aggregator.WeightedSumBounds | src/humor_features/analyzer.py:150-153 | With scores in [0, 10], the weighted sum lies between 0 and 10 times the total weight; a missing score counts as 0. |
| Aggregator.WeightedScoreIsWeightedMean | src/humor_features/analyzer.py:150-157 | For scores in [0, 10] the clamp never applies: the result is the truncated weighted mean. |
| Aggregator.Recommendations | src/humor_features/analyzer.py:184-188 | The recommendations are the first five of the full list, or all of it when it is shorter. |
| Aggregator.GenerateRecommendations | src/humor_features/analyzer.py:159-188 | The appending loop builds the specified recommendations. |
| Aggregator.WeakLinesIff | src/humor_features/analyzer.py:167-172 | A "Wzmocnić" line appears exactly for the entries scoring below 5.0. |
| Aggregator.RecommendationsEmptyIff | src/humor_features/analyzer.py:165-188 | There is no recommendation exactly when every score is at least 5.0 and setup-punchline, incongruity and timing are at least 6.0. |
| Aggregator.DetermineSegments | src/humor_features/analyzer.py:190-220 | The rule-by-rule appends build the specified segments. |
| Aggregator.SegmentsFacts | src/humor_features/analyzer.py:195-220 | The segment list is never empty, "General Audience" appears exactly when no rule holds and then alone, and each rule's label appears exactly when it holds. |
| Extractor.CapsWords | src/humor_features/extractor.py:229 | A word is kept exactly when it is one of the words, upper-case and longer than one character. |
| Extractor.CapsWordsCount | src/humor_features/extractor.py:229 | Every such word is kept as often as it occurs, and nothing else. |
| Extractor.CountWords | src/humor_features/extractor.py:232-235 | The counting loop gives each word its number of occurrences, with keys in first-occurrence order. |
| Extractor.DistinctFacts | src/humor_features/extractor.py:233-235 | The key order holds every word, and each only once. |
| Extractor.RepeatedIff | src/humor_features/extractor.py:236 | The filter keeps exactly the keys counted more than once. |
| Extractor.RepetitionsIff | src/humor_features/extractor.py:231-249 | At most five repetitions are kept, each occurring at least twice; below five, every repeated word is kept. |
| Extractor.ExclamationCountIsCharCount | src/humor_features/extractor.py:228 | The exclamation count is the number of '!' characters. |
| Extractor.ExtractAtomic | src/humor_features/extractor.py:225-252 | The counting and filtering loops compute the specified atomic features. |
| Extractor.StructuralOf | src/humor_features/extractor.py:139-168 | The sentence count and lengths are kept, a clear punchline means two or more sentences, and setup plus punchline length is the total length. |
| Extractor.Wordplay | src/humor_features/extractor.py:268-286 | The nested loop keeps the first five candidate pairs. |
| Extractor.ContentWordsIff | src/humor_features/extractor.py:270 | A word is a content word exactly when it is the lower-cased text of a token that is neither space nor punctuation. |
| Extractor.WordplayOf | src/humor_features/extractor.py:268-274 | The wordplay scan runs over the content words of the parsed text and keeps the first five candidates. |
| Extractor.CandidatesIff | src/humor_features/extractor.py:269-274 | A candidate is exactly "w1/w2" for positions i < j whose words are longer than three, share their first three letters and differ. |
| Extractor.PauseIndicatorsCountChars | src/humor_features/extractor.py:312 | The pause count is the number of ',', '.', ';' and ':' characters. |
| Extractor.CompareFacts | src/humor_features/extractor.py:328-344 | The three-way comparison names the strictly larger side, is neutral exactly on a tie, and is symmetric. |
| Extractor.PerspectiveFacts | src/humor_features/extractor.py:324-333 | First person exactly when first-person words outnumber third-person ones, third person on the reverse, neutral on a tie. |
| Extractor.CharacterCount | src/humor_features/extractor.py:352-361 | The character count is at most 10 and at most the entities plus the pronouns. |
| Extractor.NarrativeOf | src/humor_features/extractor.py:322-362 | The narrative record: first or third person (or neutral) by which pronoun list has more tokens, positive or negative (or neutral) by which sentiment list has more, conflict and resolution exactly when a listed token occurs, and at most 10 characters. |
| Extractor.ResolutionNeedsOneWord | src/humor_features/extractor.py:349-350 | Tokens hold no space, so the two-word markers "w końcu" and "okazało się" can never match. |
| Translate.Truncate | src/translation/translate.py:133-136 | A long sentence is cut to 5000 characters; a short one is kept. |
| Translate.Processed | src/translation/translate.py:128-136 | Every processed sentence is non-empty and at most 5000 characters long. |
| Translate.PackPieces | src/translation/translate.py:128-152 | The loop over the pieces produces the specified chunks. |
| Translate.SplitIntoChunks | src/translation/translate.py:119-152 | Chunking a text gives the chunks of its processed sentences. |
| Translate.PackIsPacked | src/translation/translate.py:138-148 | The packing loop keeps its invariant: `current_chunk` is empty only before the first sentence, every chunk fits, the joined text is preserved, and no two neighbouring chunks would fit together. |
| Translate.ChunksOfSentences | src/translation/translate.py:138-152 | Every chunk is non-empty and at most 5000 characters, the chunks joined with " " are the sentences joined with " ", and no two neighbouring chunks would fit together. |
| Translate.ChunksFacts | src/translation/translate.py:125-152 | The same three facts hold for the chunks of any text. |
| Translate.ShortTextIsOneUnit | src/translation/translate.py:116-119 | A text of at most 5000 characters is translated whole. |
| PromptValidation.Len | src/ollama/complete.py:142-148 | `len()` is defined exactly on strings and containers. |
| PromptValidation.Validate | src/ollama/complete.py:125-165 | The checks compute the specified outcome. |
| PromptValidation.ValidIffNoErrors | src/ollama/complete.py:135-165 | Validation raises exactly when `len()` fails on the user or system entry; otherwise the prompt is valid exactly when there is no error. |
| PromptValidation.ErrorIff | src/ollama/complete.py:137-160 | Each message appears exactly when its check fails: falsy user, user or system text over 200000 characters, bad temperature, bad max_tokens. |
| PromptValidation.ErrorsInCheckOrder | src/ollama/complete.py:135-160 | The messages come in check order, each at most once. |
| PromptValidation.MinimalPromptIsValid | src/ollama/complete.py:125-165 | A prompt with only a non-empty user text of at most 200000 characters is valid with no error. |
| Joker.MakeJokeRequest | src/modules/joker/models.py:9-15 | A request is accepted exactly when temperature is in [0, 2] and max_tokens in [50, 500] (or absent); each failing field is reported. |
| Joker.JokeRequestDefaultsAndBounds | src/modules/joker/models.py:11-15 | The defaults are no topic, "sarcastic", "medium", 0.8 and 200; −0.1, 2.1, 49 and 501 are rejected, and the bounds 0.0, 2.0, 50 and 500 are accepted. |
| Joker.MakeJokeResponse | src/modules/joker/models.py:18-26 | A response keeps every given field (success, joke, topic, style, generation time, model, error) unchanged. |
| Joker.BareResponseDefaults | src/modules/joker/models.py:18-26 | A response given only `success` leaves every optional field None. |
| Joker.ErrorResponseDefaults | src/modules/joker/models.py:18-26 | An error response given only `success` and `error` leaves every other field None. |
| Joker.BuildPrompt | src/modules/joker/service.py:94-105 | The appending method joins the prompt parts with newlines. |
| Joker.PromptShape | src/modules/joker/service.py:96-105 | The prompt is the optional topic line, then the style line, the length line and the instruction. |
| Joker.TopicLineIff | src/modules/joker/service.py:98-99 | The prompt opens with "Temat: " exactly when the topic is present and non-empty; otherwise it opens with the style line. |
| Joker.StyleAndLengthPresent | src/modules/joker/service.py:101-102 | The style line and the length line are in every prompt. |
| Joker.EndsWithInstruction | src/modules/joker/service.py:103-105 | The prompt ends with the joining newline and the instruction part "\nWygeneruj żart:", so a blank line comes before the instruction. |

## Left out

- spaCy: model loading, sentence segmentation, tokens, POS tags, entities, and the `is_stop`/`dep_` filters belong to a foreign NLP library. `Base` models the regex and whitespace fallbacks. `Extractor` takes the token texts, sentence lengths, PER-entity count and pronoun texts as parameters.
- `_extract_keywords`, `_extract_linguistic` and `_extract_absurdity` are set-membership filters over spaCy tokens and are not modelled. The same goes for the polysemy, metaphor and semantic-field parts of `_extract_semantic`.
- Float arithmetic: `avg_sentence_length`, `length_variance`, `syllable_count`, `reading_time_sec` and `rhythm_score` are left out. Every score is exact in tenths (hundredths for archetype).
- Aggregator.OverallScore: the mean is exact and rounded to the nearest tenth. Binary-float rounding of `sum / 9` can differ on a tie; a tie needs the sum to be 4.5 tenths off a multiple of 9, which integer tenths never are.
- Aggregator.WeightedScore: uses exact products. `int(weighted_sum * 10)` on floats can come out one lower than the exact truncation.
- Archetype.Analyze: rounds the exact value half-to-even. This agrees with Python's `round` on the multiples of 0.25 that occur here.
- `Text.Lower` maps ASCII and the Polish letters only; other Unicode case mappings are not modelled. The same holds for `Extractor.IsUpperWord`, which models `str.isupper()` over those letters only.
- The `context` argument of `analyze` is accepted by the source and read by no analyzer, so the model omits it.
- The `async` keyword on `JokeAnalyzer.analyze` is left out; the operations are sequential functions and methods.
- `src/humor_features/models.py` and the `src/humor_features/analyzers` copies of the seven other analyzers are not part of this model. `Aggregator` runs the analyzers under `src/joke_analyser/analyzers` and builds the `src/joke_analyser/models.py` records, whose names match.
- `src/humor_features/analyzers/base.py` is not part of this model. `Timing` and `AbsurdEscalation` import their `BaseAnalyzer` from it; the model runs them over the sentence splitter of `src/joke_analyser/analyzers/base.py` (`Base.Sentences`).
- Models.MakeAnalyzeResponse: requires theory scores that were already validated as `TheoryScore` values; it checks only the response's own fields.
- Network and process plumbing: `complete()` itself, the Ollama and polling clients, the API routers, translator loading and the translation calls. `Translate` stops at the chunks to be translated.
- The joke generator's model loading and `_generate_text` are ML backends and are left out.
- PromptValidation.Validate: a float NaN temperature passes Python's comparisons and is accepted there. Numbers here are `real`, which has no NaN.
- Joker.MakeJokeRequest: pydantic's type coercion (a string "0.5" for a float, say) is not modelled; fields arrive already typed.
- Base.TextLength, Base.SentenceCount and Base.WordCount: these are the lengths of the text, of the sentence list and of the word list. They are definitions and carry no separate contract.
