# ClariMind core in Dafny

ClariMind is an Android well-being app. A user answers a happiness
questionnaire, and the app combines the answers into a PHI score (Pemberton
Happiness Index). It also reads the user's mood from a camera photo, shows a
dashboard of suggestions, runs guided breathing exercises, talks with the user
through a chatbot, and reports how long the phone was used today. This project
models the logic behind those screens: the view models and the helpers they
rely on.

The modules follow the app's files:

- `Questionnaire` covers `QuestionViewModel`. The view model is a class over the
  answer maps. Both section scores are loops proved against order-free sums
  (`Sums`), and the lemmas bound the scores and pin down the reverse-scored item.
- `EmotionDetection` covers `EmotionDetectionViewModel`. It models the argmax
  loop and its confidence threshold, face-box expansion and cropping, the choice
  of the largest face, and the in-place fill of the 48×48×3 input buffer.
- `UsageEvents`, `ScreenTime`, `LinkedMaps`, `Sorting`, `AppNames` and
  `KotlinInt` cover `ScreenTimeViewModel`:
  - the event fold that credits foreground time to each app;
  - the merge with the platform's daily statistics;
  - the per-name aggregation and the top five apps;
  - the fallback summary and the view model's loading state.

  `LinkedMap` is the insertion-ordered map Kotlin's `mutableMapOf()` gives, and
  `Sorting` is Kotlin's stable `sortedByDescending`. Together they make ranking
  ties resolve as in the app.
- `Dashboard`, `DashboardScreen`, `Tiers`, `Moods` and `Lists` cover the
  dashboard:
  - the score- and mood-based suggestions;
  - the score colour, icon and description;
  - the chatbot button.
- `Breathing` is the countdown clock shared by the three breathing view models.
  `BoxBreathing`, `FourSevenEightBreathing` and `AlternateNostrilBreathing` are
  those view models as classes, each with one `Tick` per second of the
  exercise's coroutine.
- `Chatbot` covers `ChatbotViewModel`: the welcome message, the keyword-based
  offline replies and the conversation state.
- `Preferences` and `Navigation` cover `UserPreferences` and the app's choice of
  start screen.
- `Text` holds the shared string helpers: lower-casing, trimming, substring
  search and `substringAfterLast`.
- `Wrappers` holds `Option`, and `Model` holds the shared records.

## Model

| member | source | states |
|---|---|---|
| Questionnaire.FindSectionB | app/src/main/java/com/example/clarimind/presentation/viewmodels/QuestionViewModel.kt:110 | the found Section B question carries the asked id; none is found only when no question from the start position on has that id |
| Questionnaire.SectionBTable | app/src/main/java/com/example/clarimind/presentation/viewmodels/QuestionViewModel.kt:34-45 | Section B has ten questions, ids 1 to 10, and exactly the first five are positively worded |
| Questionnaire.FindSectionBById | app/src/main/java/com/example/clarimind/presentation/viewmodels/QuestionViewModel.kt:110 | searching from a position finds exactly the ids after it up to 10, returning the table row of that id, and nothing otherwise |
| Questionnaire.QuestionnaireViewModel.constructor | app/src/main/java/com/example/clarimind/presentation/model/QuestionModel.kt:17-23 | the state starts on section 0 with no answers, not completed and no score |
| Questionnaire.QuestionnaireViewModel.UpdateSectionAAnswer | app/src/main/java/com/example/clarimind/presentation/viewmodels/QuestionViewModel.kt:47-51 | the answer is stored (or replaced) under its question id and nothing else changes |
| Questionnaire.QuestionnaireViewModel.UpdateSectionBAnswer | app/src/main/java/com/example/clarimind/presentation/viewmodels/QuestionViewModel.kt:53-57 | the yes/no answer is stored under its question id and nothing else changes |
| Questionnaire.QuestionnaireViewModel.GoToNextSection | app/src/main/java/com/example/clarimind/presentation/viewmodels/QuestionViewModel.kt:59-61 | the current section becomes 1; answers, completion and score are kept |
| Questionnaire.QuestionnaireViewModel.GoToPreviousSection | app/src/main/java/com/example/clarimind/presentation/viewmodels/QuestionViewModel.kt:63-65 | the current section becomes 0; answers, completion and score are kept |
| Questionnaire.QuestionnaireViewModel.CalculateSectionAScore | app/src/main/java/com/example/clarimind/presentation/viewmodels/QuestionViewModel.kt:88-103 | the loop over the answers returns the order-free Section A score: the sum of item scores (question 10, scored as 10 minus the answer) over 11 |
| Questionnaire.QuestionnaireViewModel.CalculateSectionBScore | app/src/main/java/com/example/clarimind/presentation/viewmodels/QuestionViewModel.kt:105-121 | the loop returns the Section B score: the number of answers agreeing with the question's wording |
| Questionnaire.QuestionnaireViewModel.CalculateResults | app/src/main/java/com/example/clarimind/presentation/viewmodels/QuestionViewModel.kt:67-85 | remembered and experienced well-being are the two section scores, the combined score is their mean, and the state becomes completed with that score |
| Questionnaire.QuestionnaireViewModel.ResetQuestionnaire | app/src/main/java/com/example/clarimind/presentation/viewmodels/QuestionViewModel.kt:123-125 | the state returns to the initial one |
| Questionnaire.SectionAInRange | app/src/main/java/com/example/clarimind/presentation/viewmodels/QuestionViewModel.kt:88-103 | with at most the eleven question ids answered, each 0 to 10, the Section A score lies in 0..10 |
| Questionnaire.SectionBInRange | app/src/main/java/com/example/clarimind/presentation/viewmodels/QuestionViewModel.kt:105-121 | any Section B answers give a score in 0..10 |
| Questionnaire.CombinedInRange | app/src/main/java/com/example/clarimind/presentation/viewmodels/QuestionViewModel.kt:71 | the combined PHI score lies in 0..10 |
| Questionnaire.AllFivesScoreFive | app/src/main/java/com/example/clarimind/presentation/viewmodels/QuestionViewModel.kt:88-103 | answering 5 to all eleven questions scores exactly 5, the reversed item included |
| Questionnaire.IdealAnswerAgrees | app/src/main/java/com/example/clarimind/presentation/viewmodels/QuestionViewModel.kt:112-116 | a positive question agrees with yes and a negative one with no |
| Questionnaire.IdealSectionBScoresTen | app/src/main/java/com/example/clarimind/presentation/viewmodels/QuestionViewModel.kt:105-121 | yes to the five positive items and no to the five negative ones scores 10 |
| Questionnaire.AgreesOnlyTableIds | app/src/main/java/com/example/clarimind/presentation/viewmodels/QuestionViewModel.kt:109-117 | only answers to the ten table questions can agree; unknown ids never count |
| Questionnaire.ReverseScoredItemLowersScore | app/src/main/java/com/example/clarimind/presentation/viewmodels/QuestionViewModel.kt:93-98 | raising the answer to question 10 by one lowers the Section A score by 1/11 |
| Questionnaire.PlainItemRaisesScore | app/src/main/java/com/example/clarimind/presentation/viewmodels/QuestionViewModel.kt:93-98 | raising the answer to any other question by one raises the Section A score by 1/11 |
| Questionnaire.SectionATotalUpdate | app/src/main/java/com/example/clarimind/presentation/viewmodels/QuestionViewModel.kt:92-100 | replacing one answer changes the item total by the difference of its item scores |
| EmotionDetection.FirstMaxIndex | app/src/main/java/com/example/clarimind/presentation/viewmodels/EmotionDetectionViewModel.kt:294-302 | the index holds a maximum probability and every earlier entry is strictly smaller |
| EmotionDetection.FirstMaxUnique | app/src/main/java/com/example/clarimind/presentation/viewmodels/EmotionDetectionViewModel.kt:294-302 | only one index can be the first maximum |
| EmotionDetection.LabelAt | app/src/main/java/com/example/clarimind/presentation/viewmodels/EmotionDetectionViewModel.kt:305-309 | an index within the seven labels gives that label, any other index gives "Neutral" |
| EmotionDetection.ProcessModelOutput | app/src/main/java/com/example/clarimind/presentation/viewmodels/EmotionDetectionViewModel.kt:287-319 | the argmax loop returns the decision of the first-maximum index and the 0.3 threshold; an empty output gives no decision |
| EmotionDetection.DecisionIsALabel | app/src/main/java/com/example/clarimind/presentation/viewmodels/EmotionDetectionViewModel.kt:305-318 | the decision is always one of the seven emotion labels |
| EmotionDetection.LowConfidenceIsNeutral | app/src/main/java/com/example/clarimind/presentation/viewmodels/EmotionDetectionViewModel.kt:314-318 | when no probability exceeds the threshold the decision is "Neutral" |
| EmotionDetection.ConfidentDecision | app/src/main/java/com/example/clarimind/presentation/viewmodels/EmotionDetectionViewModel.kt:314-318 | a first maximum above the threshold decides its own label |
| EmotionDetection.TieGoesToFirst | app/src/main/java/com/example/clarimind/presentation/viewmodels/EmotionDetectionViewModel.kt:297-301 | of two equal probabilities the later one is never chosen |
| EmotionDetection.ExpandBoundingBox | app/src/main/java/com/example/clarimind/presentation/viewmodels/EmotionDetectionViewModel.kt:196-208 | the expanded box never leaves the image |
| EmotionDetection.ExpansionContainsBox | app/src/main/java/com/example/clarimind/presentation/viewmodels/EmotionDetectionViewModel.kt:199-205 | a box inside the image lies inside its expansion |
| EmotionDetection.ExpansionMargins | app/src/main/java/com/example/clarimind/presentation/viewmodels/EmotionDetectionViewModel.kt:196-208 | when the image has room, the box grows by a tenth of its width and height (truncated) on every side |
| EmotionDetection.CropFace | app/src/main/java/com/example/clarimind/presentation/viewmodels/EmotionDetectionViewModel.kt:210-229 | a non-empty box crops exactly its rows and columns; an empty box returns the original bitmap |
| EmotionDetection.ExpandedBoxIsCroppable | app/src/main/java/com/example/clarimind/presentation/viewmodels/EmotionDetectionViewModel.kt:168-171 | the expanded box of any face is a legal crop of the bitmap |
| EmotionDetection.LargestFace | app/src/main/java/com/example/clarimind/presentation/viewmodels/EmotionDetectionViewModel.kt:165 | the chosen face has the largest area, is the first of equal-area faces, and exists exactly when some face was detected |
| EmotionDetection.DetectAndCropFace | app/src/main/java/com/example/clarimind/presentation/viewmodels/EmotionDetectionViewModel.kt:161-192 | a face bitmap is returned exactly when detection found at least one face |
| EmotionDetection.DetectEmotionIsALabel | app/src/main/java/com/example/clarimind/presentation/viewmodels/EmotionDetectionViewModel.kt:55-118 | the whole detection always yields one of the seven labels |
| EmotionDetection.NoFaceIsNeutral | app/src/main/java/com/example/clarimind/presentation/viewmodels/EmotionDetectionViewModel.kt:68-73 | no detected face, or a failed detection, yields "Neutral" |
| EmotionDetection.ChannelsRecombine | app/src/main/java/com/example/clarimind/presentation/viewmodels/EmotionDetectionViewModel.kt:274-276 | the red, green and blue bytes of a pixel rebuild its 24 colour bits |
| EmotionDetection.ChannelsExtract | app/src/main/java/com/example/clarimind/presentation/viewmodels/EmotionDetectionViewModel.kt:274-276 | the channel bytes of a packed colour are the bytes packed |
| EmotionDetection.PutPixel | app/src/main/java/com/example/clarimind/presentation/viewmodels/EmotionDetectionViewModel.kt:274-281 | the three channel values of one pixel land at the write position and the next two, and no other cell changes |
| EmotionDetection.BitmapToBuffer | app/src/main/java/com/example/clarimind/presentation/viewmodels/EmotionDetectionViewModel.kt:263-285 | the 48x48 pixels become 6912 values, three per pixel in red, green, blue order, each in 0..255 |
| UsageEvents.ResumedAndPausedAreShadowed | app/src/main/java/com/example/clarimind/presentation/viewmodels/ScreenTimeViewModel.kt:102-158 | with the platform's event codes the resumed and paused branches are never taken |
| UsageEvents.CreditRunning | app/src/main/java/com/example/clarimind/presentation/viewmodels/ScreenTimeViewModel.kt:161-168 | crediting the app still running at the end equals the fold's finishing step |
| UsageEvents.OnForeground | app/src/main/java/com/example/clarimind/presentation/viewmodels/ScreenTimeViewModel.kt:103-118 | the foreground branch credits the running app and starts the new one at the event time |
| UsageEvents.OnBackground | app/src/main/java/com/example/clarimind/presentation/viewmodels/ScreenTimeViewModel.kt:120-133 | the background branch credits the app if it is the running one and clears it |
| UsageEvents.HandleEvent | app/src/main/java/com/example/clarimind/presentation/viewmodels/ScreenTimeViewModel.kt:102-158 | one event updates the tracker exactly as the event fold's step |
| UsageEvents.AggregateEvents | app/src/main/java/com/example/clarimind/presentation/viewmodels/ScreenTimeViewModel.kt:94-168 | the event loop returns the per-app usage of the fold of all events plus the final credit |
| UsageEvents.CreditKeepsPositive | app/src/main/java/com/example/clarimind/presentation/viewmodels/ScreenTimeViewModel.kt:107-108 | crediting keeps every recorded usage positive |
| UsageEvents.EventUsagePositive | app/src/main/java/com/example/clarimind/presentation/viewmodels/ScreenTimeViewModel.kt:94-168 | every app in the event usage has a positive usage |
| UsageEvents.CreditTotal | app/src/main/java/com/example/clarimind/presentation/viewmodels/ScreenTimeViewModel.kt:105-110 | crediting adds the duration to the total exactly when it is positive |
| UsageEvents.StepWithinWindow | app/src/main/java/com/example/clarimind/presentation/viewmodels/ScreenTimeViewModel.kt:102-158 | each event keeps the credited total within the time elapsed since the window start |
| UsageEvents.FoldWithinWindow | app/src/main/java/com/example/clarimind/presentation/viewmodels/ScreenTimeViewModel.kt:94-159 | over chronological events the credited total never exceeds the elapsed window |
| UsageEvents.EventUsageWithinWindow | app/src/main/java/com/example/clarimind/presentation/viewmodels/ScreenTimeViewModel.kt:79-168 | the total event usage never exceeds the length of the queried window |
| UsageEvents.PausedBranchWouldCountTwice | app/src/main/java/com/example/clarimind/presentation/viewmodels/ScreenTimeViewModel.kt:149-157 | were the paused code distinct, a foreground then a pause would count 200 ms in a 100 ms window |
| ScreenTime.MergeWithStats | app/src/main/java/com/example/clarimind/presentation/viewmodels/ScreenTimeViewModel.kt:199-206 | the merge loop returns the fold of taking, per package, the larger of event usage and positive aggregate usage |
| ScreenTime.MergeAllValue | app/src/main/java/com/example/clarimind/presentation/viewmodels/ScreenTimeViewModel.kt:199-206 | a package is in the merge exactly when it has event usage or a positive statistic, and its value is the larger of the two |
| ScreenTime.MergeKeepsEventUsage | app/src/main/java/com/example/clarimind/presentation/viewmodels/ScreenTimeViewModel.kt:199-206 | merging never lowers a package's event usage |
| ScreenTime.MergeWithoutPositiveStats | app/src/main/java/com/example/clarimind/presentation/viewmodels/ScreenTimeViewModel.kt:200-206 | statistics without positive time leave the event usage unchanged |
| ScreenTime.StampedStats | app/src/main/java/com/example/clarimind/presentation/viewmodels/ScreenTimeViewModel.kt:209-212 | one statistic per merged package, in map order, carrying its time and the window bounds |
| ScreenTime.StampedTimes | app/src/main/java/com/example/clarimind/presentation/viewmodels/ScreenTimeViewModel.kt:209-212 | the stamped statistics carry exactly the merged values in map order |
| ScreenTime.DailyAverageIsWeeklyTotalOverSeven | app/src/main/java/com/example/clarimind/presentation/viewmodels/ScreenTimeViewModel.kt:265-272 | with weekly data, the daily average is the weekly total in minutes divided by seven (truncating) |
| ScreenTime.AggregateByName | app/src/main/java/com/example/clarimind/presentation/viewmodels/ScreenTimeViewModel.kt:277-286 | the loop returns the per-name usage of the positive statistics |
| ScreenTime.UsageByNameValue | app/src/main/java/com/example/clarimind/presentation/viewmodels/ScreenTimeViewModel.kt:279-286 | a name is present exactly when one of its statistics is positive, and its value is the sum of its positive times |
| ScreenTime.UsageByNameTotal | app/src/main/java/com/example/clarimind/presentation/viewmodels/ScreenTimeViewModel.kt:279-286 | the per-name usages sum to the total positive time |
| ScreenTime.UsageByNameEmpty | app/src/main/java/com/example/clarimind/presentation/viewmodels/ScreenTimeViewModel.kt:279-286 | the per-name map is empty exactly when no statistic is positive |
| ScreenTime.Ranked | app/src/main/java/com/example/clarimind/presentation/viewmodels/ScreenTimeViewModel.kt:288-289 | the entries sorted by descending usage: non-increasing and a permutation of the map's entries |
| ScreenTime.TopApps | app/src/main/java/com/example/clarimind/presentation/viewmodels/ScreenTimeViewModel.kt:288-297 | at most five apps, the first ones of the ranking, converted to minutes |
| ScreenTime.TopAppsEntries | app/src/main/java/com/example/clarimind/presentation/viewmodels/ScreenTimeViewModel.kt:288-297 | each top app is a map entry with its usage in whole minutes |
| ScreenTime.TopAppsOrdered | app/src/main/java/com/example/clarimind/presentation/viewmodels/ScreenTimeViewModel.kt:288-290 | top apps appear in non-increasing usage |
| ScreenTime.TopAppsLeftOut | app/src/main/java/com/example/clarimind/presentation/viewmodels/ScreenTimeViewModel.kt:288-290 | an app left out of the top list used no more than any app in it |
| ScreenTime.TopAppsEmpty | app/src/main/java/com/example/clarimind/presentation/viewmodels/ScreenTimeViewModel.kt:288-297 | the top list is empty exactly when no app has usage |
| ScreenTime.SummaryFallback | app/src/main/java/com/example/clarimind/presentation/viewmodels/ScreenTimeViewModel.kt:305-309 | the fallback summary is returned exactly when the total is zero and there are no top apps |
| ScreenTime.CombineStats | app/src/main/java/com/example/clarimind/presentation/viewmodels/ScreenTimeViewModel.kt:194-218 | the merge step returns the stamped merge when events produced usage and the aggregate statistics otherwise |
| ScreenTime.LoadedTotalAtMostADay | app/src/main/java/com/example/clarimind/presentation/viewmodels/ScreenTimeViewModel.kt:79-262 | with chronological events and no positive aggregate statistics, the day total is at most 1440 minutes |
| ScreenTime.ScreenTimeViewModel.constructor | app/src/main/java/com/example/clarimind/presentation/viewmodels/ScreenTimeViewModel.kt:21-26 | no data, not loading, no error, no permission; apps are named by the display-name table |
| ScreenTime.ScreenTimeViewModel.CheckPermission | app/src/main/java/com/example/clarimind/presentation/viewmodels/ScreenTimeViewModel.kt:39-58 | the permission flag is recorded; granting it starts a load with the error cleared |
| ScreenTime.ScreenTimeViewModel.BeginLoad | app/src/main/java/com/example/clarimind/presentation/viewmodels/ScreenTimeViewModel.kt:71 | loading starts and the error is cleared; data and permission are kept |
| ScreenTime.ScreenTimeViewModel.ProcessUsageStats | app/src/main/java/com/example/clarimind/presentation/viewmodels/ScreenTimeViewModel.kt:255-351 | the computed data is the screen-time summary of the statistics |
| ScreenTime.ScreenTimeViewModel.CompleteLoad | app/src/main/java/com/example/clarimind/presentation/viewmodels/ScreenTimeViewModel.kt:231-242 | the loaded data is stored and loading stops |
| ScreenTime.ScreenTimeViewModel.FailLoad | app/src/main/java/com/example/clarimind/presentation/viewmodels/ScreenTimeViewModel.kt:245-251 | loading stops with the error "Failed to load screen time data: " and the message |
| ScreenTime.ScreenTimeViewModel.ClearError | app/src/main/java/com/example/clarimind/presentation/viewmodels/ScreenTimeViewModel.kt:486-488 | the error is cleared and nothing else changes |
| AppNames.LookupNameFirstMatch | app/src/main/java/com/example/clarimind/presentation/viewmodels/ScreenTimeViewModel.kt:379-481 | a package name gets the display name of its first table row, and none only when no row lists it |
| AppNames.UnlistedName | app/src/main/java/com/example/clarimind/presentation/viewmodels/ScreenTimeViewModel.kt:482 | an unlisted package is shown by the part after its last dot, which holds no dot |
| Sorting.SortByDescendingSorted | app/src/main/java/com/example/clarimind/presentation/viewmodels/ScreenTimeViewModel.kt:289 | the sorted entries are in non-increasing usage |
| Sorting.SortByDescendingPermutes | app/src/main/java/com/example/clarimind/presentation/viewmodels/ScreenTimeViewModel.kt:289 | sorting is a permutation of the entries |
| Sorting.SortByDescendingStable | app/src/main/java/com/example/clarimind/presentation/viewmodels/ScreenTimeViewModel.kt:289 | entries of equal usage keep their map order, as Kotlin's stable sort does |
| LinkedMaps.LinkedMap.Put | app/src/main/java/com/example/clarimind/presentation/viewmodels/ScreenTimeViewModel.kt:108 | the put key maps to the new value, others keep theirs; an existing key keeps its position, a new one is appended |
| KotlinInt.TruncDivNonNegative | app/src/main/java/com/example/clarimind/presentation/viewmodels/ScreenTimeViewModel.kt:262 | on non-negative operands Kotlin's truncating division is the floor quotient |
| Text.Lower | app/src/main/java/com/example/clarimind/presentation/viewmodels/DashBoardViewModel.kt:85 | lower-casing keeps the length, maps each character through the ASCII lower-case table, and leaves no upper-case letter |
| Text.LowerIdempotent | app/src/main/java/com/example/clarimind/presentation/viewmodels/DashBoardViewModel.kt:85 | lower-casing twice equals lower-casing once |
| Text.TrimEmptyIff | app/src/main/java/com/example/clarimind/presentation/viewmodels/ChatbotViewModel.kt:61 | a trimmed message is empty exactly when every character is whitespace |
| Text.ContainsIff | app/src/main/java/com/example/clarimind/presentation/viewmodels/ChatbotViewModel.kt:182 | containment holds exactly when the keyword occurs at some position |
| Text.SubstringAfterLast | app/src/main/java/com/example/clarimind/presentation/viewmodels/ScreenTimeViewModel.kt:482 | the result is the part after the last separator, or the whole string when none occurs |
| Tiers.Bucket | app/src/main/java/com/example/clarimind/presentation/viewmodels/DashBoardViewModel.kt:55-83 | the bucket is the first threshold the score reaches, every earlier threshold being above the score |
| Tiers.ScoreBucket | app/src/main/java/com/example/clarimind/presentation/viewmodels/DashBoardViewModel.kt:55-83 | the 8.0 / 6.0 / 4.0 tiers written out |
| Moods.GroupIgnoresCase | app/src/main/java/com/example/clarimind/presentation/viewmodels/DashBoardViewModel.kt:85 | a mood and its lower-case form fall in the same group |
| Moods.SurpriseLabelUnlisted | app/src/main/java/com/example/clarimind/presentation/screens/DashBoardScreen.kt:532 | the detector's "Surprise" label matches no mood group |
| Moods.HappyLabelJoyful | app/src/main/java/com/example/clarimind/presentation/screens/DashBoardScreen.kt:527 | the detector's "Happy" label falls in the joyful group |
| Lists.Distinct | app/src/main/java/com/example/clarimind/presentation/viewmodels/DashBoardViewModel.kt:88 | no duplicates, exactly the elements of the input, listed in the order of their first occurrence |
| Lists.DistinctOfDistinct | app/src/main/java/com/example/clarimind/presentation/viewmodels/DashBoardViewModel.kt:88 | a list without duplicates is left unchanged |
| Lists.DistinctPrefix | app/src/main/java/com/example/clarimind/presentation/viewmodels/DashBoardViewModel.kt:88 | the distinct elements of a list prefix those of any extension |
| Lists.Take | app/src/main/java/com/example/clarimind/presentation/viewmodels/DashBoardViewModel.kt:91 | the first n elements: a prefix of length min(n, size) |
| Lists.TakeOfPrefix | app/src/main/java/com/example/clarimind/presentation/viewmodels/DashBoardViewModel.kt:91 | taking the length of a prefix returns that prefix |
| Lists.TakeDistinctPrefix | app/src/main/java/com/example/clarimind/presentation/viewmodels/DashBoardViewModel.kt:88-91 | when a list opens with k elements free of duplicates, taking k of its distinct elements gives exactly those k |
| Lists.TakeNoDuplicates | app/src/main/java/com/example/clarimind/presentation/viewmodels/DashBoardViewModel.kt:88-91 | taking from a list without duplicates keeps it without duplicates |
| Dashboard.BaseSuggestions | app/src/main/java/com/example/clarimind/presentation/viewmodels/DashBoardViewModel.kt:55-83 | four suggestions from 8.0 up and five below it, with no duplicates |
| Dashboard.MoodSuggestions | app/src/main/java/com/example/clarimind/presentation/viewmodels/DashBoardViewModel.kt:94-141 | every mood group has at least three suggestions |
| Dashboard.SuggestionsFor | app/src/main/java/com/example/clarimind/presentation/viewmodels/DashBoardViewModel.kt:85-91 | at most five suggestions, without duplicates |
| Dashboard.SuggestionsBelowEight | app/src/main/java/com/example/clarimind/presentation/viewmodels/DashBoardViewModel.kt:62-91 | below 8.0 the suggestions are exactly the score-based list |
| Dashboard.SuggestionsFromEight | app/src/main/java/com/example/clarimind/presentation/viewmodels/DashBoardViewModel.kt:56-91 | from 8.0 up the first mood suggestion is appended to the four score-based ones |
| Dashboard.SuggestionsIgnoreCase | app/src/main/java/com/example/clarimind/presentation/viewmodels/DashBoardViewModel.kt:85 | the suggestions do not depend on the case of the mood |
| Dashboard.SuggestionsOpenWithChatbot | app/src/main/java/com/example/clarimind/presentation/viewmodels/DashBoardViewModel.kt:55-83 | the list opens with "Talk to our mental health chatbot" exactly when the score is below 6.0 |
| Dashboard.DashboardViewModel.constructor | app/src/main/java/com/example/clarimind/presentation/viewmodels/DashBoardViewModel.kt:12-33 | the sample user, the scores 7.5 / 6.8 / 7.2, no mood, and the suggestions for 7.2 |
| Dashboard.DashboardViewModel.UpdatePhiScore | app/src/main/java/com/example/clarimind/presentation/viewmodels/DashBoardViewModel.kt:35-38 | the score is stored and the suggestions are regenerated for it |
| Dashboard.DashboardViewModel.UpdateUser | app/src/main/java/com/example/clarimind/presentation/viewmodels/DashBoardViewModel.kt:40-42 | the user is replaced and nothing else changes |
| Dashboard.DashboardViewModel.UpdateMood | app/src/main/java/com/example/clarimind/presentation/viewmodels/DashBoardViewModel.kt:44-47 | the mood is stored and the suggestions are regenerated for it |
| Dashboard.DashboardViewModel.UpdateSuggestions | app/src/main/java/com/example/clarimind/presentation/viewmodels/DashBoardViewModel.kt:49-52 | the suggestions are regenerated from the stored score and mood |
| DashboardScreen.MoodColors | app/src/main/java/com/example/clarimind/presentation/screens/DashBoardScreen.kt:516-523 | green from 8.0, blue from 6.0, orange from 4.0, red below |
| DashboardScreen.ChatbotButtonWithWarmColours | app/src/main/java/com/example/clarimind/presentation/screens/DashBoardScreen.kt:407 | the chatbot button is shown exactly when the score colour is orange or red |
| DashboardScreen.ChatbotButtonWithChatbotSuggestion | app/src/main/java/com/example/clarimind/presentation/screens/DashBoardScreen.kt:407 | the chatbot button is shown exactly when the suggestions open with the chatbot |
| DashboardScreen.GreenWithMoodSuggestion | app/src/main/java/com/example/clarimind/presentation/screens/DashBoardScreen.kt:516-523 | the colour is green exactly when a mood-based suggestion is listed |
| DashboardScreen.FallbackIconIffUnlisted | app/src/main/java/com/example/clarimind/presentation/screens/DashBoardScreen.kt:525-535 | the fallback heart icon is shown exactly for moods outside the listed groups |
| DashboardScreen.SurpriseLabelFallbackIcon | app/src/main/java/com/example/clarimind/presentation/screens/DashBoardScreen.kt:525-535 | the detector's "Surprise" label gets the fallback icon |
| DashboardScreen.DescriptionTierMonotone | app/src/main/java/com/example/clarimind/presentation/screens/DashBoardScreen.kt:538-545 | a higher score never gets a lower description tier |
| DashboardScreen.DescriptionTierThresholds | app/src/main/java/com/example/clarimind/presentation/screens/DashBoardScreen.kt:538-545 | the tier is the first of 8.5, 7.0, 5.5, 4.0, 2.5 the score reaches, every earlier threshold being above the score |
| DashboardScreen.DescriptionQuotesMood | app/src/main/java/com/example/clarimind/presentation/screens/DashBoardScreen.kt:547-556 | the description quotes the lower-cased mood |
| Breathing.PhaseStart | app/src/main/java/com/example/clarimind/presentation/viewmodels/BoxBreathingViewModel.kt:29-30 | a phase starts with its whole duration left |
| Breathing.Next | app/src/main/java/com/example/clarimind/presentation/viewmodels/BoxBreathingViewModel.kt:31-36 | one second later the clock is again a valid clock |
| Breathing.Run | app/src/main/java/com/example/clarimind/presentation/viewmodels/BoxBreathingViewModel.kt:28-37 | any number of seconds keeps the clock valid |
| Breathing.CycleLength | app/src/main/java/com/example/clarimind/presentation/viewmodels/BoxBreathingViewModel.kt:11-12 | the cycle is the sum of the durations, at least one second per phase |
| Breathing.ElapsedInCycle | app/src/main/java/com/example/clarimind/presentation/viewmodels/BoxBreathingViewModel.kt:28-37 | the time into the cycle lies within the cycle |
| Breathing.NextElapsed | app/src/main/java/com/example/clarimind/presentation/viewmodels/BoxBreathingViewModel.kt:31-36 | each second advances the time into the cycle by one, wrapping at the cycle length |
| Breathing.NextIndex | app/src/main/java/com/example/clarimind/presentation/viewmodels/BoxBreathingViewModel.kt:36 | the phase index wraps to 0 after the last phase |
| Breathing.ElapsedDeterminesClock | app/src/main/java/com/example/clarimind/presentation/viewmodels/BoxBreathingViewModel.kt:28-37 | two clocks at the same time into the cycle are equal |
| Breathing.RunElapsed | app/src/main/java/com/example/clarimind/presentation/viewmodels/BoxBreathingViewModel.kt:28-37 | n seconds advance the time into the cycle by n, modulo the cycle length |
| Breathing.FullCycleReturns | app/src/main/java/com/example/clarimind/presentation/viewmodels/BoxBreathingViewModel.kt:28-37 | one full cycle of seconds returns to the same phase and countdown |
| Breathing.RunLast | app/src/main/java/com/example/clarimind/presentation/viewmodels/BoxBreathingViewModel.kt:28-37 | n+1 seconds are n seconds followed by one more |
| Breathing.Countdown | app/src/main/java/com/example/clarimind/presentation/viewmodels/BoxBreathingViewModel.kt:31-35 | k seconds into a phase leave its duration minus k |
| Breathing.PhaseCompletes | app/src/main/java/com/example/clarimind/presentation/viewmodels/BoxBreathingViewModel.kt:36 | a whole phase duration leads to the start of the next phase |
| Breathing.FourPhasesOfFour | app/src/main/java/com/example/clarimind/presentation/viewmodels/BoxBreathingViewModel.kt:11-12 | four phases of four seconds, the table of box breathing and of alternate-nostril breathing, make a 16-second cycle |
| Breathing.FourPhasesOfFourReturn | app/src/main/java/com/example/clarimind/presentation/viewmodels/BoxBreathingViewModel.kt:28-37 | with four phases of four seconds, after 16 seconds the exercise is back where it was |
| BoxBreathing.BoxBreathingViewModel.constructor | app/src/main/java/com/example/clarimind/presentation/viewmodels/BoxBreathingViewModel.kt:11-19 | starts stopped on "Inhale" with 4 seconds left |
| BoxBreathing.BoxBreathingViewModel.ToggleBreathing | app/src/main/java/com/example/clarimind/presentation/viewmodels/BoxBreathingViewModel.kt:21-24 | flips running, keeps the phase and restarts its countdown |
| BoxBreathing.BoxBreathingViewModel.StartBreathing | app/src/main/java/com/example/clarimind/presentation/viewmodels/BoxBreathingViewModel.kt:26-30 | shows the current phase with its full duration |
| BoxBreathing.BoxBreathingViewModel.StopBreathing | app/src/main/java/com/example/clarimind/presentation/viewmodels/BoxBreathingViewModel.kt:41-45 | stops and resets the countdown of the current phase |
| BoxBreathing.BoxBreathingViewModel.Tick | app/src/main/java/com/example/clarimind/presentation/viewmodels/BoxBreathingViewModel.kt:31-36 | while running, one second is exactly the cycle's next step; while stopped nothing moves |
| FourSevenEightBreathing.CycleIsNineteenSeconds | app/src/main/java/com/example/clarimind/presentation/viewmodels/FourSevenEightBreathingViewModel.kt:11-15 | 4 + 7 + 8 seconds make a 19-second cycle |
| FourSevenEightBreathing.NineteenSecondsReturn | app/src/main/java/com/example/clarimind/presentation/viewmodels/FourSevenEightBreathingViewModel.kt:29-42 | after 19 seconds the exercise is back where it was |
| FourSevenEightBreathing.FourSevenEightBreathingViewModel.constructor | app/src/main/java/com/example/clarimind/presentation/viewmodels/FourSevenEightBreathingViewModel.kt:11-22 | starts stopped on "Inhale" with 4 seconds left |
| FourSevenEightBreathing.FourSevenEightBreathingViewModel.ToggleBreathing | app/src/main/java/com/example/clarimind/presentation/viewmodels/FourSevenEightBreathingViewModel.kt:24-27 | flips running, keeps the phase and restarts its countdown |
| FourSevenEightBreathing.FourSevenEightBreathingViewModel.StartBreathing | app/src/main/java/com/example/clarimind/presentation/viewmodels/FourSevenEightBreathingViewModel.kt:29-34 | shows the current phase with its own duration |
| FourSevenEightBreathing.FourSevenEightBreathingViewModel.StopBreathing | app/src/main/java/com/example/clarimind/presentation/viewmodels/FourSevenEightBreathingViewModel.kt:45-50 | stops and resets the countdown of the current phase |
| FourSevenEightBreathing.FourSevenEightBreathingViewModel.Tick | app/src/main/java/com/example/clarimind/presentation/viewmodels/FourSevenEightBreathingViewModel.kt:35-40 | while running, one second is exactly the cycle's next step; while stopped nothing moves |
| AlternateNostrilBreathing.AlternateNostrilBreathingViewModel.constructor | app/src/main/java/com/example/clarimind/presentation/viewmodels/AlternateNostrilBreathingViewModel.kt:11-26 | starts stopped on "Inhale" through the left nostril with 4 seconds left |
| AlternateNostrilBreathing.AlternateNostrilBreathingViewModel.ToggleBreathing | app/src/main/java/com/example/clarimind/presentation/viewmodels/AlternateNostrilBreathingViewModel.kt:28-31 | flips running, keeps the phase and restarts its countdown |
| AlternateNostrilBreathing.AlternateNostrilBreathingViewModel.StartBreathing | app/src/main/java/com/example/clarimind/presentation/viewmodels/AlternateNostrilBreathingViewModel.kt:33-39 | shows the current phase with its full duration |
| AlternateNostrilBreathing.AlternateNostrilBreathingViewModel.StopBreathing | app/src/main/java/com/example/clarimind/presentation/viewmodels/AlternateNostrilBreathingViewModel.kt:50-56 | stops and resets the countdown of the current phase |
| AlternateNostrilBreathing.AlternateNostrilBreathingViewModel.Tick | app/src/main/java/com/example/clarimind/presentation/viewmodels/AlternateNostrilBreathingViewModel.kt:40-45 | while running, one second is exactly the cycle's next step; while stopped nothing moves |
| Chatbot.ScoreLevels | app/src/main/java/com/example/clarimind/presentation/viewmodels/ChatbotViewModel.kt:137-142 | "excellent" from 8.0, "good" from 6.0, "moderate" from 4.0, "challenging" below |
| Chatbot.EmojiAsWrittenIsNotAPictograph | app/src/main/java/com/example/clarimind/presentation/viewmodels/ChatbotViewModel.kt:127-135 | the emoji as written are four characters each, none of them a pictograph |
| Chatbot.EmojiIsOnePictograph | app/src/main/java/com/example/clarimind/presentation/viewmodels/ChatbotViewModel.kt:127-135 | each intended emoji is one pictograph, different for different mood groups |
| Chatbot.WelcomeQuotesMoodAndLevel | app/src/main/java/com/example/clarimind/presentation/viewmodels/ChatbotViewModel.kt:144-152 | the welcome message quotes the lower-cased mood and the score level |
| Chatbot.FirstMatch | app/src/main/java/com/example/clarimind/presentation/viewmodels/ChatbotViewModel.kt:181-203 | the first keyword group the message mentions, or the group count when none is mentioned |
| Chatbot.AnyContained | app/src/main/java/com/example/clarimind/presentation/viewmodels/ChatbotViewModel.kt:182 | true exactly when the message contains one of the keywords |
| Chatbot.HelpComesFirst | app/src/main/java/com/example/clarimind/presentation/viewmodels/ChatbotViewModel.kt:182 | a message mentioning help or support gets the support reply, whatever else it says |
| Chatbot.ReplyOfFirstMentionedGroup | app/src/main/java/com/example/clarimind/presentation/viewmodels/ChatbotViewModel.kt:180-204 | the reply is a group's exactly when that group is mentioned and no earlier one is |
| Chatbot.DefaultWhenNothingMentioned | app/src/main/java/com/example/clarimind/presentation/viewmodels/ChatbotViewModel.kt:200-203 | the default reply comes exactly when no keyword is mentioned |
| Chatbot.ReplyIgnoresCase | app/src/main/java/com/example/clarimind/presentation/viewmodels/ChatbotViewModel.kt:168-176 | without a model answer, the reply does not depend on the case of the message |
| Chatbot.ChatbotViewModel.constructor | app/src/main/java/com/example/clarimind/presentation/viewmodels/ChatbotViewModel.kt:23-27 | no messages, not loading, no error |
| Chatbot.ChatbotViewModel.InitializeChat | app/src/main/java/com/example/clarimind/presentation/viewmodels/ChatbotViewModel.kt:50-57 | the conversation becomes the single welcome message, not from the user |
| Chatbot.ChatbotViewModel.SendMessage | app/src/main/java/com/example/clarimind/presentation/viewmodels/ChatbotViewModel.kt:60-72 | a blank message changes nothing; otherwise it is appended as the user's, loading starts and the error clears |
| Chatbot.ChatbotViewModel.DeliverResponse | app/src/main/java/com/example/clarimind/presentation/viewmodels/ChatbotViewModel.kt:77-85 | the reply is appended as the bot's and loading stops |
| Chatbot.ChatbotViewModel.FailResponse | app/src/main/java/com/example/clarimind/presentation/viewmodels/ChatbotViewModel.kt:86-91 | loading stops with the error "Failed to get response: " and the message |
| Chatbot.ChatbotViewModel.ClearError | app/src/main/java/com/example/clarimind/presentation/viewmodels/ChatbotViewModel.kt:206-208 | the error is cleared and nothing else changes |
| Preferences.GetBoolean | app/src/main/java/com/example/clarimind/utils/UserPreferences.kt:16 | the stored flag, or the default when the key holds no flag |
| Preferences.GetString | app/src/main/java/com/example/clarimind/utils/UserPreferences.kt:30 | the stored text, or none when the key holds no text |
| Preferences.GetFloat | app/src/main/java/com/example/clarimind/utils/UserPreferences.kt:44-46 | the stored number, or the default when the key holds no number |
| Preferences.EmptyStoreDefaults | app/src/main/java/com/example/clarimind/utils/UserPreferences.kt:15-53 | an empty store reports no completed test, no mood and no scores |
| Preferences.TestCompletedRoundTrip | app/src/main/java/com/example/clarimind/utils/UserPreferences.kt:15-24 | the completion flag reads back as written |
| Preferences.LastMoodRoundTrip | app/src/main/java/com/example/clarimind/utils/UserPreferences.kt:29-38 | the mood reads back as written |
| Preferences.ScoresReportedIffAllNonNegative | app/src/main/java/com/example/clarimind/utils/UserPreferences.kt:43-53 | scores are reported exactly when all three stored values are non-negative, a missing value counting as -1 |
| Preferences.SaveScoresRoundTrip | app/src/main/java/com/example/clarimind/utils/UserPreferences.kt:58-64 | saved scores read back as saved when all are non-negative and as none otherwise; the completion flag and mood are untouched |
| Preferences.UserPreferences.constructor | app/src/main/java/com/example/clarimind/utils/UserPreferences.kt:9-10 | the preferences open on the persisted store |
| Preferences.UserPreferences.SetTestCompleted | app/src/main/java/com/example/clarimind/utils/UserPreferences.kt:22-24 | the flag is stored and reads back; other keys are kept |
| Preferences.UserPreferences.SetLastMood | app/src/main/java/com/example/clarimind/utils/UserPreferences.kt:36-38 | the mood is stored and reads back; other keys are kept |
| Preferences.UserPreferences.SavePHIScores | app/src/main/java/com/example/clarimind/utils/UserPreferences.kt:58-64 | the three scores are stored under their keys; other keys are kept |
| Preferences.UserPreferences.ClearAll | app/src/main/java/com/example/clarimind/utils/UserPreferences.kt:69-71 | the store is emptied and every getter returns its default |
| Navigation.DashboardStartIff | app/src/main/java/com/example/clarimind/presentation/navigation/navigation.kt:47-67 | the app opens on the dashboard exactly when the test is completed and all three scores are stored non-negative, with the saved mood or "Neutral" |
| Navigation.DashboardScoresNonNegative | app/src/main/java/com/example/clarimind/presentation/navigation/navigation.kt:47-67 | the dashboard is opened only with non-negative scores |
| Navigation.SavedResultsOpenDashboard | app/src/main/java/com/example/clarimind/presentation/navigation/navigation.kt:47-67 | after completing the test and saving mood and scores, the app opens on the dashboard with them |
| Navigation.ClearedStoreOpensCamera | app/src/main/java/com/example/clarimind/presentation/navigation/navigation.kt:47-67 | after clearing the preferences the app opens on the emotion camera |

## Left out

- I/O and platform services are inputs to the model, not modelled calls:
  - ML Kit face detection is an optional list of boxes;
  - the TFLite interpreter is an optional probability vector;
  - the Gemini model is an optional answer text;
  - `UsageStatsManager` queries and events are lists;
  - the calendar's current time is `endTime`;
  - the random per-day usage of the fallback data is `usageByDay`.
- Coroutines, `viewModelScope` and the `delay(1000)` timing are left out. Each breathing `Tick` is one pass of the loop body of a single running coroutine.
- BoxBreathing.BoxBreathingViewModel.Tick, FourSevenEightBreathing.FourSevenEightBreathingViewModel.Tick, AlternateNostrilBreathing.AlternateNostrilBreathingViewModel.Tick: model a single coroutine, which the app does not guarantee. `stopBreathing` never cancels the running coroutine, and resuming launches a new one. If the user pauses and resumes within one second, the old coroutine wakes from `delay(1000)` with the running flag true again and keeps going. Two loops then write the countdown and each advances the phase index, so a second is no longer one step of the cycle. A coroutine that wakes after a pause in the last second of a phase also advances the phase index while stopped. Neither race is modelled.
- Logging, `Log.d`, and the Compose UI are left out, except for the dashboard's colour, icon, description and button choices.
- Only ASCII letters are lower-cased, and only ASCII whitespace is trimmed. Kotlin's `lowercase()` and `trim()` cover all of Unicode.
- Numbers:
  - `Double` values are exact reals;
  - `Float` storage in the preferences, which narrows the scores, is not modelled;
  - the 0.3f confidence threshold is the exact value of that float;
  - `Long` overflow is not modelled.
- EmotionDetection.ExpandMargin: `(w * 0.1f).toInt()` is modelled as truncating division by 10. Float rounding could differ for large widths.
- EmotionDetection.BitmapToBuffer: stores the byte values 0..255. The division by 255 into floats, and the bitmap scaling before it, are left out.
- The resumed and paused branches of the event loop are dead code, because the platform gives `ACTIVITY_RESUMED` the same code as `MOVE_TO_FOREGROUND`, and `ACTIVITY_PAUSED` the same as `MOVE_TO_BACKGROUND` (`UsageEvents.ResumedAndPausedAreShadowed`). The model keeps them as event kinds for the record. `UsageEvents.PausedBranchWouldCountTwice` shows that the paused branch would double-count if it were reachable. It is not reachable, so that is not listed under Findings.
- ScreenTime.ScreenTimeViewModel.constructor: `getAppDisplayName`, a private member over the 101-entry name table, is the `appDisplayName` field. The aggregation lemmas are stated for any naming function.
- Chatbot texts:
  - the suggestion, description and reply sentences are enumeration values with their exact text;
  - the welcome message takes the `"%.1f"` formatting of the score as a parameter;
  - the UUID and timestamp of each `ChatMessage` are left out;
  - the user-context string sent to Gemini is left out.
- Preferences: `apply()` writes asynchronously, which is not modelled. Reading a key of the wrong type throws `ClassCastException` in the app; the model excludes that with the typed-store invariant of `UserPreferences`.
- The failure path of `sendMessage` (`Chatbot.ChatbotViewModel.FailResponse`) cannot be reached: `generateGeminiResponse` catches every `Exception` and falls back to the canned reply. The model keeps the path, with its exact error text, as the code has it.
- Chatbot.WelcomeMessage uses the intended emoji, not the garbled literals in the source (see Findings).

## Findings

| source | as written | input that shows it | evidently intended | confidence | as-written member | corrected member |
|---|---|---|---|---|---|---|
| app/src/main/java/com/example/clarimind/presentation/viewmodels/ChatbotViewModel.kt:127-135 | each mood emoji literal is four characters: the UTF-8 bytes of the emoji read as Windows-1252 | mood "happy" puts "ðŸ˜Š" (U+00F0 U+0178 U+02DC U+0160) at the head of the welcome message | the single emoji 😊 (U+1F60A), and one pictograph per mood group | not executed; the literals are read from the source text | Chatbot.EmojiAsWrittenIsNotAPictograph | Chatbot.EmojiIsOnePictograph |
