# Resume scoring core, modelled in Dafny

This project models the deterministic part of a resume-scoring system that
targets job fields. It has six parts:

- **ATS point scorer** (`AtsScorer`, `ats_scorer.dfy`). Eight rules each turn the
  resume text into a bounded sub-score: contact information, professional
  summary, work experience, education, skills, keyword match, formatting and
  length. Two of the rules also use the field keyword table. The total is the
  sum, clamped to [0, 100]. A per-category breakdown of score, maximum and
  percentage is also modelled.
- **Keyword analyser** (`ResumeAnalyzer`, `resume_analyzer.dfy`). It covers:
  - text normalisation;
  - keyword extraction per field over the fixed three-field keyword table;
  - the keyword-count field recommendations;
  - the split of a field's keywords into requirements met and missing;
  - the match percentage;
  - related-term partial credit for a skill;
  - the capped list of improvement suggestions.
- **Model trainer** (`Trainer`, `model_trainer.dfy`). It covers text normalisation
  for training and the row filtering of `prepare_data`. It also covers the
  `ModelTrainer` object, which keeps the best classifier seen so far in its
  fields. `train_models` updates that object in a loop, using strict `>` against
  `best_score`, and returns a structured success or failure record. The record
  written by `save_models_and_results` is modelled too.
- **Dataset generator** (`DatasetLoader`, `dataset_loader.dfy`). It decides
  whether an existing dataset is reused. Otherwise it repeats each field's sample
  resumes cyclically to 80 rows, for 240 rows in total. Each row gets a
  sequential, zero-padded ID with a field prefix.
- **Text extraction clean-up** (`TextExtractor`, `text_extractor.dfy`): the
  whitespace normaliser `clean_extracted_text`.
- **The front end's use of the classifier** (`App`, `app.dfy`). It covers the
  probability post-processing of `predict_with_best_model`: a one-hot fallback,
  then renormalisation. It also covers the page's choice between the model's
  prediction and the analyser's recommendations.

Three helper modules hold shared definitions:

- `Text` (`text.dfy`): Python's string operations over `seq<char>`.
- `Sums` (`sums.dfy`): sums of dict values in insertion order, and renormalisation.
- `Wrappers` (`wrappers.dfy`): `Option` and `Result`.

How source constructs map to the model:

- **Python dicts.** A Python dict iterates its keys in insertion order. Where that
  order matters, the model keeps it as an explicit key sequence beside the
  `map`: `FieldOrder`, `Categories`, `Models`, `KeyOrder`.
- **Scores.** Fractional scores (1.5 per skill, ratios, 0.2 steps) are `real`;
  floating-point rounding is not modelled.
- **Regular expressions the model interprets.** These are written as explicit
  predicates:
  - `[A-Z][a-z]`;
  - `^\s*[-*]\s` under MULTILINE;
  - `'\n\n\n'` counting;
  - `gpa|grade point average`;
  - `\d+%|\d+\+|increased|improved|reduced`;
  - the substitutions `[^a-zA-Z0-9\s]`, `\s+` and `\n+`.
- **Regular expressions the model leaves abstract.** Their outcomes arrive as a
  `RegexOutcomes` value:
  - the email pattern;
  - the three phone patterns built on `\b`, `\d{…}` and `\+`;
  - the four date patterns;
  - the graduation-year pattern.
- **Library calls.** scikit-learn fitting, prediction, metrics and TF-IDF
  vectorising are abstract inputs. A classifier's evaluation is given as its
  metrics or as the message of the exception it raised. The loaded classifier is
  given as its classes, whether it has `predict_proba`, and its answer on a text.
- **Randomness and the clock.** The dataset generator's random draws are
  parameters (`Draw`), each constrained to the range it is drawn from. The
  creation date is kept as "days before today".
- **File I/O.** Reading a CSV becomes a parameter, and so does the success or
  failure of writing one. What `save_models_and_results` would write is returned
  as a value.

Three behaviours of the code worth stating plainly:

- With no dataset, or an empty one, `train_models` does not raise: it returns
  `{'training_completed': False, 'error': 'No training data available'}`, and the
  model returns `Failed(NoTrainingData)`.
- An exception raised while writing the artifact files can follow earlier
  writes. On a write failure the model returns the whole record that
  `save_models_and_results` would write, not the part actually written.
- With no keyword hit, the keyword recommendations give 0.33 to each field and
  then renormalise. The model keeps the 0.33 and proves the result is exactly
  1/3 per field.

## Model

| member | source | states |
|---|---|---|
| `AtsScorer.CriteriaTotal` | ats_scorer.py:8-17 | the eight category maxima of `scoring_criteria` add up to 100 |
| `AtsScorer.CategoriesComplete` | ats_scorer.py:8-17 | every category has a maximum in `scoring_criteria`, and the category order in which the `scores` dict is filled repeats none |
| `AtsScorer.ScoreContactInfo` | ats_scorer.py:55-81 | the loop adds 4 for an email, 3 at most once for a phone and 3 for linkedin/github/portfolio in the lower-cased text; the four phone patterns are tried in order, the second as written, and the loop stops at the first that matches |
| `AtsScorer.ContactPointsValues` | ats_scorer.py:55-81 | the contact score is one of 0, 3, 4, 6, 7, 10; it is 10 exactly when an email, a phone and a profile link are all present, and 0 exactly when none is |
| `AtsScorer.DollarPhoneNeverMatches` | ats_scorer.py:67 | the second phone pattern as written (`$$\d{3}$$…`) matches no string at all |
| `AtsScorer.ParenPhoneExample` | ats_scorer.py:67 | the intended pattern `\(\d{3}\)\s?\d{3}[-.\s]?\d{4}` finds "(555) 123-4567", which the pattern as written misses |
| `AtsScorer.HasPhoneAsWritten` | ats_scorer.py:63-73 | a phone is found exactly when one of the other three patterns matches: the second one never contributes |
| `AtsScorer.IntendedContactPoints` | ats_scorer.py:55-81 | with the intended second pattern the contact score is still one of 0, 3, 4, 6, 7, 10, and exceeds the as-written score by 3 exactly when only that pattern finds a phone |
| `AtsScorer.ParenthesisedPhoneMissed` | ats_scorer.py:67 | "(555) 123-4567" alone scores 0 contact points as written and 3 with the intended pattern |
| `AtsScorer.ParenPhoneShape` | ats_scorer.py:67 | a match of the intended pattern is a parenthesised three-digit area code followed, after an optional whitespace, by a local number |
| `AtsScorer.ScoreProfessionalSummary` | ats_scorer.py:83-99 | for the first summary keyword in the lower-cased text: 8 when some line mentioning it is followed, within three lines, by more than ten words, else 4; 0 without any summary keyword |
| `AtsScorer.SummaryPointsValues` | ats_scorer.py:83-99 | the summary score is 0, 4 or 8, and 0 exactly when none of summary/objective/profile/about/overview occurs in the lower-cased text |
| `AtsScorer.FirstContainedNone` | ats_scorer.py:88-99 | no keyword is found exactly when none of the keywords occurs in the text |
| `AtsScorer.ScoreWorkExperience` | ats_scorer.py:101-134 | 10 for an experience keyword plus 5/10/15 at a date-match total of at least 1/2/3, summed over the four patterns and capped at 25 |
| `AtsScorer.ExperiencePointsFacts` | ats_scorer.py:106-134 | the work-experience score lies in [0, 25], is a multiple of 5, never needs its cap, and does not decrease as the date-match count grows |
| `AtsScorer.ScoreEducation` | ats_scorer.py:136-159 | +2 once for an education keyword (the loop stops at the first), +3 for a graduation year, +2 for a GPA mention, +3 for coursework or certification, capped at 10 |
| `AtsScorer.EducationPointsRange` | ats_scorer.py:136-159 | the education score lies in [0, 10] and is the plain sum of its four parts |
| `AtsScorer.ScoreSkills` | ats_scorer.py:161-188 | the skills score lies in [0, 20] |
| `AtsScorer.ScoreSkillsFacts` | ats_scorer.py:161-188 | the skills score is 5 for 'skill' in the text plus 1.5 per field keyword found, up to ten keywords; from ten keywords on it is 15 or 20 |
| `AtsScorer.ScoreKeywordsMatch` | ats_scorer.py:190-209 | the keyword-match score never leaves [0, 15], because no more keywords are found than the field lists |
| `AtsScorer.ScoreKeywordsMatchRange` | ats_scorer.py:190-209 | the keyword-match score lies in [0, 15]; it is 0 for an empty or unknown field and exactly when nothing is found, and 15 exactly when every keyword of a non-empty list is found |
| `AtsScorer.Fraction` | ats_scorer.py:208 | a count out of a positive total is a fraction in [0, 1], 0 only for a zero count and 1 only for the full total |
| `AtsScorer.ScoreFormatting` | ats_scorer.py:211-232 | min(4, section names found) + 2 for bullets + 1 for an upper-case letter followed by a lower-case one − 1 for more than five '\n\n\n', clamped to [0, 7] |
| `AtsScorer.FormattingPointsRange` | ats_scorer.py:211-232 | the points before clamping lie in [−1, 7], so only the lower clamp can act, and only in the one case of no section, no bullet, no capital and many blank lines |
| `AtsScorer.ScoreLength` | ats_scorer.py:234-245 | the length score is one of 1, 2, 3 and 5 |
| `AtsScorer.ScoreLengthBands` | ats_scorer.py:234-245 | for every text: 5 exactly for 300–800 words, 3 exactly for 200–299 or 801–1200 words, 1 exactly below 200 and 2 exactly above 1200 |
| `AtsScorer.ScoreLengthMonotone` | ats_scorer.py:237-242 | up to 800 words, more words never lower the length score |
| `AtsScorer.SubScores` | ats_scorer.py:21-45 | the `scores` dict holds every category and nothing else |
| `AtsScorer.SubScoreBounded` | ats_scorer.py:8-17 | every sub-score lies between 0 and its category's maximum |
| `AtsScorer.TotalBounded` | ats_scorer.py:48 | the sum of the sub-scores lies in [0, 100] |
| `AtsScorer.ScoreCategories` | ats_scorer.py:21-45 | the `scores` dict, filled one category at a time, maps every category to its rule's sub-score |
| `AtsScorer.ScoresAre` | ats_scorer.py:276-285 | a dict holding every category's sub-score is exactly the `scores` dict |
| `AtsScorer.CalculateAtsScore` | ats_scorer.py:19-53 | the returned score is the plain sum of the eight sub-scores: the clamp `min(100, max(0, total))` never changes it, and the result lies in [0, 100] |
| `AtsScorer.Entry` | ats_scorer.py:287-296 | a breakdown entry keeps the score and maximum, and its percentage is the score's share of the maximum, in [0, 100] |
| `AtsScorer.Percent` | ats_scorer.py:291 | (score / max) × 100 lies in [0, 100] for a score between 0 and a positive maximum |
| `AtsScorer.GetDetailedBreakdown` | ats_scorer.py:274-298 | every category has an entry holding its sub-score, its maximum from `scoring_criteria` and a consistent percentage that `min(100, …)` never cuts |
| `AtsScorer.Percentages` | ats_scorer.py:287-298 | the percentage loop gives every category an entry consistent with its score and maximum |
| `ResumeAnalyzer.DefaultTableValid` | resume_analyzer.py:22-44 | the keyword table has three fields, each listed once, in insertion order |
| `ResumeAnalyzer.PreprocessText` | resume_analyzer.py:67-79 | the result holds only lower-case letters, digits and single blanks, with no blank at either end; for a string it is lower-casing, replacing punctuation by blanks, collapsing whitespace and stripping |
| `ResumeAnalyzer.Preprocess` | resume_analyzer.py:72-77 | lower-casing, replacing punctuation, collapsing whitespace and stripping always gives the normal form: lower-case letters, digits and single inner blanks |
| `ResumeAnalyzer.PreprocessFixesNormal` | resume_analyzer.py:67-79 | text already in normal form is left unchanged |
| `ResumeAnalyzer.PreprocessIdempotent` | resume_analyzer.py:67-79 | preprocessing twice is preprocessing once |
| `ResumeAnalyzer.ExtractSkills` | resume_analyzer.py:81-93 | the nested loops map every field of the table to that field's keywords found in the preprocessed text |
| `ResumeAnalyzer.FieldHits` | resume_analyzer.py:87-90 | the inner loop collects, in order, the keywords whose lower-cased form occurs in the text |
| `ResumeAnalyzer.SkillsFoundShape` | resume_analyzer.py:81-93 | every field is a key, and its value is a subsequence of its keywords holding exactly those that occur in the preprocessed text |
| `ResumeAnalyzer.HitsMissesMembership` | resume_analyzer.py:86-145 | a keyword is met exactly when it is required and occurs, and missing exactly when it is required and does not occur |
| `ResumeAnalyzer.HitsMissesSplit` | resume_analyzer.py:144-145 | met and missing keep the required list's order, and their lengths add up to its length |
| `ResumeAnalyzer.HitsBound` | resume_analyzer.py:141 | no more keywords are met than are required |
| `ResumeAnalyzer.PunctuatedNeverReported` | resume_analyzer.py:76-89 | a keyword holding a character that preprocessing never leaves is never reported, whatever the text |
| `ResumeAnalyzer.NodeJsAndFullStackNeverReported` | resume_analyzer.py:24-26 | 'node.js' and 'full-stack' are never extracted for Software Engineering |
| `ResumeAnalyzer.RenormalisedWithoutHits` | resume_analyzer.py:119-130 | with zero hits every field's 0.33 is renormalised to 1/(number of fields), summing to 1 |
| `ResumeAnalyzer.RenormalisedWithHits` | resume_analyzer.py:121-130 | with hits each field gets its share of the total, in [0, 1], and the shares sum to 1, so the second normalisation changes nothing |
| `ResumeAnalyzer.KeywordRecommendations` | resume_analyzer.py:114-132 | the keyword recommendations have exactly the table's fields as keys |
| `ResumeAnalyzer.KeywordRecommendationsDistribution` | resume_analyzer.py:114-132 | the fallback recommendations lie in [0, 1] and sum to 1; they are uniform with no hits, and otherwise each field's share of the hits, so a field without hits gets 0 |
| `ResumeAnalyzer.DefaultRecommendationsUniform` | resume_analyzer.py:119-120 | for the three-field table a resume without any keyword gets exactly 1/3 per field |
| `ResumeAnalyzer.ZipMap` | resume_analyzer.py:103-104 | `dict(zip(classes, probabilities))` has as keys the classes that are paired with a probability |
| `ResumeAnalyzer.ZipMapAt` | resume_analyzer.py:103-104 | in `dict(zip(classes, probabilities))` a paired class maps to the probability of its last pairing |
| `ResumeAnalyzer.FieldRecommendations` | resume_analyzer.py:95-112 | without a usable classifier, or when it raises, the keyword recommendations cover every field and sum to 1; otherwise the keys are the classifier's classes |
| `ResumeAnalyzer.CalculateSkillScore` | resume_analyzer.py:168-195 | 1.0 on a direct match in the preprocessed text; otherwise 0.2 per related term present, capped at 0.8, for the seven skills with related terms; otherwise 0 |
| `ResumeAnalyzer.SkillScoreRange` | resume_analyzer.py:168-195 | a skill's score lies in [0, 1]; it is 1 exactly on a direct match, at most 0.8 otherwise, and 0 for a skill without related terms |
| `ResumeAnalyzer.GenerateSuggestions` | resume_analyzer.py:197-264 | the suggestion list built by appending and extending, cut to eight, is the one `Suggestions` defines |
| `ResumeAnalyzer.GeneralSuggestions` | resume_analyzer.py:253-262 | a projects line when 'project' is absent, an expand line under 300 words, a metrics line without a percentage, "N+" or increased/improved/reduced |
| `ResumeAnalyzer.Suggestions` | resume_analyzer.py:197-264 | the suggestion list holds one to eight lines |
| `ResumeAnalyzer.SuggestionsShape` | resume_analyzer.py:197-264 | the list is the one "Excellent!" message exactly when nothing is missing; otherwise it holds one to eight lines and no line is that message |
| `ResumeAnalyzer.SuggestionsNameFewSkills` | resume_analyzer.py:211-228 | at most five technical, three tool and three soft skills are named, each a missing skill of its category, and each non-empty category's line is in the list |
| `ResumeAnalyzer.SuggestionsSeeFirstTen` | resume_analyzer.py:213 | only the first ten missing skills affect the suggestions |
| `ResumeAnalyzer.CategoriesCount` | resume_analyzer.py:213-219 | every considered skill falls in exactly one of the technical, tool and soft lists |
| `ResumeAnalyzer.CategoriesSorted` | resume_analyzer.py:213-219 | each category list holds only considered skills of its own category |
| `ResumeAnalyzer.CategoryLinesHead` | resume_analyzer.py:221-228 | when some skill is considered there are one to three category lines |
| `ResumeAnalyzer.MatchPercentage` | resume_analyzer.py:141 | the match percentage lies in [0, 100], is 0 exactly when nothing is met (including an unknown field), 100 exactly when everything is met, and equals 100·met/required |
| `ResumeAnalyzer.AnalyzeSkills` | resume_analyzer.py:150-158 | `skills_analysis` has exactly the required keywords as keys, met ones mapped to 1.0 and the others to their partial-credit score |
| `ResumeAnalyzer.NotInIsMisses` | resume_analyzer.py:145 | `[s for s in required if s not in met]` is the list of required keywords that do not occur |
| `ResumeAnalyzer.AnalyzeResume` | resume_analyzer.py:134-166 | met and missing partition the field's keywords in order; the match percentage, the suggestions for what is missing, and a skill score per required keyword (1.0 when met, at most 0.8 when missing) |
| `Trainer.PreprocessText` | model_trainer.py:28-34 | the trainer's normalisation gives the same normal form as the analyser's, for every input |
| `Trainer.MissingColumn` | model_trainer.py:38-41 | the first required column missing, checked in the order resume_text then job_field; none exactly when both are present |
| `Trainer.WithCleaned` | model_trainer.py:42 | a row gains `cleaned_text`, the normalised resume text, and keeps every other value |
| `Trainer.AddCleaned` | model_trainer.py:42 | `apply` sets `cleaned_text` on every row |
| `Trainer.KeptAppend` | model_trainer.py:43 | filtering keeps the original row order |
| `Trainer.KeptSingle` | model_trainer.py:43 | a row is kept exactly when its cleaned text is non-empty |
| `Trainer.KeptSound` | model_trainer.py:43 | every kept row is an input row with non-empty cleaned text |
| `Trainer.KeptComplete` | model_trainer.py:43 | every input row with non-empty cleaned text is kept |
| `Trainer.PreparedRow` | model_trainer.py:42-43 | after `cleaned_text` is added, a row survives exactly when its normalised text is non-empty, and that text is in normal form |
| `Trainer.PrepareData` | model_trainer.py:36-44 | a `ValueError` naming the first missing column leaves the frame unchanged; otherwise `cleaned_text` is added in place and exactly the rows with non-empty cleaned text are returned, in order |
| `Trainer.SelectFirstMaximum` | model_trainer.py:113-129 | the selection with strict `>` never lowers the best score; it keeps the start when nothing beats it, and otherwise picks the first candidate with the maximum accuracy |
| `Trainer.SelectKeepsUnbeaten` | model_trainer.py:126-129 | a best state that no accuracy strictly exceeds survives a later run |
| `Trainer.SelectReplacesBeaten` | model_trainer.py:126-129 | a best state that some accuracy exceeds is replaced by a model with at least that accuracy |
| `Trainer.FreshAllZero` | model_trainer.py:24-26 | on a fresh trainer, accuracies that are all 0 leave the best model None |
| `Trainer.FirstError` | model_trainer.py:113-125 | the index of the first classifier whose evaluation raised; every earlier one succeeded |
| `Trainer.FirstErrorAt` | model_trainer.py:113-125 | the first failing evaluation is found at its index |
| `Trainer.Candidates` | model_trainer.py:113-117 | each evaluated classifier is paired with its accuracy, in model order |
| `Trainer.Results` | model_trainer.py:120-125 | one accuracy/precision/recall entry per classifier, under its name, in model order |
| `Trainer.ModelNames` | model_trainer.py:18-183 | the model names in insertion order: Random Forest, Logistic Regression, SVM |
| `Trainer.ModelTrainer.constructor` | model_trainer.py:16-26 | a new trainer has no best model, no best name and `best_score` 0 |
| `Trainer.ModelTrainer.EvaluateModels` | model_trainer.py:111-129 | the loop updates the best state exactly as the selection over the evaluations before the first exception, which stops it; without an exception the results list every model |
| `Trainer.ModelTrainer.SaveModelsAndResults` | model_trainer.py:150-187 | nothing is written for empty results; otherwise the best classifier, every model's metrics, and metadata with the best name, the best accuracy and all model names in order |
| `Trainer.ModelTrainer.TrainModels` | model_trainer.py:84-148 | 'No training data available' for a missing or empty frame, the exception's message for any failure, and otherwise the best model over this and earlier calls, its accuracy and every model's metrics |
| `DatasetLoader.RepeatAt` | dataset_loader.py:94 | entry i of `samples * k` is `samples[i % len(samples)]` |
| `DatasetLoader.Extended` | dataset_loader.py:94 | the extended sample list has exactly `target_count` entries, and entry i is `samples[i % len(samples)]` |
| `DatasetLoader.TakeNonBlankSlices` | dataset_loader.py:97 | taking the first k non-blank characters is removing the blanks and slicing `[:k]` |
| `DatasetLoader.FieldPrefixRemovesBlanks` | dataset_loader.py:97 | the ID prefix is the upper-cased first three characters once the blanks are removed |
| `DatasetLoader.FieldPrefixes` | dataset_loader.py:86-97 | the three fields' prefixes are SOF, DAT and CON |
| `DatasetLoader.ZeroPad` | dataset_loader.py:97 | `:03d` gives decimal digits only, at least three of them |
| `DatasetLoader.ParseZeroPad` | dataset_loader.py:97 | reading a zero-padded counter back gives the counter |
| `DatasetLoader.PadWidth` | dataset_loader.py:97 | counters 1 to 999 take exactly three digits |
| `DatasetLoader.IdsDistinct` | dataset_loader.py:97 | IDs with prefixes of equal length and different counters differ |
| `DatasetLoader.AppendTabulates` | dataset_loader.py:97-105 | appending one row to each of the seven lists keeps them parallel |
| `DatasetLoader.Generate` | dataset_loader.py:91-106 | the nested loop fills the seven lists of `comprehensive_data` in parallel with the rows of every set in order, the counter running on across sets |
| `DatasetLoader.AppendSet` | dataset_loader.py:94-106 | the inner loop appends one set's extended samples row by row, advancing the counter by one per row |
| `DatasetLoader.SampleSets` | dataset_loader.py:85-89 | three sets in the order Software Engineering, Data Analyst, Consultant, 80 rows each, 240 in all |
| `DatasetLoader.AllRowsAt` | dataset_loader.py:91-106 | row i of set f sits just after the rows of the sets before it |
| `DatasetLoader.RowAt` | dataset_loader.py:91-106 | row i of set f is row 80·f + i, with counter 80·f + i + 1 |
| `DatasetLoader.ComprehensiveRows` | dataset_loader.py:85-106 | row k of the 240 holds the field k / 80, the cyclically repeated sample, the counter k + 1 and draw k |
| `DatasetLoader.RowIdAt` | dataset_loader.py:91-106 | row k's ID is its field's three-letter prefix with the counter k + 1 |
| `DatasetLoader.ComprehensiveIds` | dataset_loader.py:91-106 | every ID is seven characters with `_` at index 3, and no two rows share an ID |
| `DatasetLoader.ComprehensiveValues` | dataset_loader.py:99-104 | each row's job field follows the 80-per-field order, its experience level is the drawn one (Junior, Mid or Senior), and ats_score lies in [70, 98], skills_count in [8, 20] and the age in days in [1, 90] |
| `DatasetLoader.EnsureComprehensiveDataset` | dataset_loader.py:6-120 | an existing file is reused exactly when it has rows and both the resume_text and job_field columns; otherwise the generated table is returned when saving succeeds, and None when it fails |
| `TextExtractor.CleanExtractedText` | text_extractor.py:64-74 | the newline and form-feed steps never change the outcome: the result is the whitespace-collapsed, stripped text |
| `TextExtractor.CleanShape` | text_extractor.py:68-74 | the result holds no newline and no form feed, every whitespace left is a blank, none is at either end, and no two are adjacent |
| `TextExtractor.CleanKeepsNonSpaces` | text_extractor.py:68-74 | every non-whitespace character is kept, in order |
| `TextExtractor.CleanIdempotent` | text_extractor.py:64-74 | cleaning twice is cleaning once |
| `App.PredictWithBestModel` | app.py:447-466 | None exactly when the model or vectorizer is missing, the text is empty, or the classifier raises; otherwise the answered prediction for the lower-cased text |
| `App.OneHotPrediction` | app.py:457-463 | without `predict_proba` the probabilities are 1.0 for the predicted label and 0.0 for every other class, one per class, and renormalising leaves them as they are |
| `App.Answered` | app.py:454-466 | the prediction keeps the classifier's label and key order, and its probabilities have exactly the keys of the classifier's dict |
| `App.AnsweredDistribution` | app.py:454-464 | the keys are the classes paired with a probability; with a positive sum the values sum to 1 and keep the classifier's ratios, in [0, 1] for non-negative input; otherwise they are left as they are |
| `App.AnsweredProba` | app.py:454-463 | with `predict_proba`, a class paired at index i and at no later index gets `probs[i]` divided by the positive sum of the dict, or `probs[i]` itself when the sum is not positive |
| `App.RenormalisePositive` | app.py:461-463 | renormalising by a positive sum gives values summing to 1, each its old value over the sum |
| `App.PredictIgnoresCase` | app.py:451 | the classifier sees only `text.lower()`, so a lower-cased input gives the same prediction |
| `App.ChooseField` | app.py:627-633 | a prediction's probabilities and label when the model answered; otherwise the analyser's recommendations and a field of them, or the error `max` raises on an empty dict |
| `App.ArgMax` | app.py:633 | the chosen key is one of the keys, no key holds a larger value, and every key before it holds a smaller one |
| `App.ArgMaxFirst` | app.py:633 | `max(d, key=d.get)` returns the first key holding the largest value |
| `App.FallbackPicksFirstMaximum` | app.py:631-633 | without a prediction, the shown field holds the largest recommendation, is the first one that does, and with the keyword fallback is a field of the table |

## Left out

- The email regex, the three phone patterns built on `\b`, the four date patterns and the graduation-year regex of the ATS scorer are not interpreted. Their outcomes are the `RegexOutcomes` input; none of the bounds depends on them.
- `save_analysis_history` (the CSV append at the end of `calculate_ats_score`) is file I/O whose failures are swallowed. It does not influence the returned score.
- `score_skills`/`score_keywords_match` fall back to a smaller keyword table when importing the analyser fails. That import always succeeds here, so only the analyser's table is modelled.
- `load_models`, `load_training_data`, `load_model` and `predict_field` are pickle and CSV loading, and the metric values come from scikit-learn. All of them are abstract inputs: `FieldClassifier`, `Evaluation`, `TrainedModel`, `Answer`.
- TF-IDF vectorising, `train_test_split` (stratified, and its unstratified fallback) and classifier fitting are foreign library calls. They appear only through `fitError`, the per-model `Evaluation` and the classifier's `Answer`.
- `Trainer.ModelTrainer.SaveModelsAndResults`: the returned record leaves out the `vectorizer.pkl` pickle and the `training_date` timestamp, and does not capture partial writes: an exception after `os.makedirs`, after the classifier pickle or after the metrics file leaves only part of the record on disk, while the model returns the whole record.
- `Trainer.ModelTrainer.TrainModels`: the classifier objects themselves are named by their key (`Classifier`), not kept as fitted objects.
- `DatasetLoader.EnsureComprehensiveDataset`: the thirty sample resume texts are parameters (three non-empty lists), not constants; the properties hold for any samples.
- The random draws (`random.choice`, `random.randint`) and `datetime.now()` are parameters, constrained to their ranges. `created_date` is kept as the number of days before today, not as a formatted date.
- Directory creation, CSV writing and the success messages printed are I/O. Writing is the `saved` flag.
- `App.PredictWithBestModel`: `float(p)` conversion and floating-point rounding are not modelled; probabilities are `real`.
- PDF, DOCX and TXT extraction in the text extractor wrap PyPDF2 and python-docx; only `clean_extracted_text` is modelled.
- The dashboard pages, charts, CSS and random system figures of the front end are presentation only.
- `load_training_data_for_analysis` of the analyser computes a value it never uses.
- Python `str.lower()` and `str.upper()` are modelled on ASCII letters only; `\d` is modelled as ASCII digits.

## Findings

| source | as written | input that shows it | evidently intended | confidence | as-written member | corrected member |
|---|---|---|---|---|---|---|
| ats_scorer.py:67 | `r'$$\d{3}$$\s?\d{3}[-.\s]?\d{4}'`: two end-of-string anchors before and after the area code, so no string can match | "(555) 123-4567" gets no phone points from this pattern (and no other pattern matches it) | `\(\d{3}\)\s?\d{3}[-.\s]?\d{4}`, the "(123) 456-7890" format its comment names | high (not executed) | `AtsScorer.ParenthesisedPhoneMissed` | `AtsScorer.IntendedContactPoints` |

`AtsScorer.ScoreContactInfo` and `ContactPoints` use the pattern as written
(`DollarPhoneSearch`, which `AtsScorer.DollarPhoneNeverMatches` shows matches
nothing). `AtsScorer.IntendedContactPoints` scores contact information with the
intended pattern (`ParenPhoneSearch`), and `AtsScorer.ParenPhoneExample` shows
it finds the number the comment names.
