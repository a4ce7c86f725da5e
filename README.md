# Medical-education library: verified model of its page logic

The application is a client-side medical-education library: learning
modules and topics for students, a pharmacology reference, a book catalogue,
an FAQ and a set of clinical calculators. Almost all of it is layout over
hard-coded data. This project models in Dafny the three pieces that hold
real logic, and proves what they promise:

- **The clinical calculator engine** (`calculators.dfy`, module
  `Calculators`). `validateAndParse` accepts all fields or none. There are
  five closed-form formulas: BMI with its four-way category, weight-based
  drug dosage, Cockcroft-Gault creatinine clearance with the female factor
  0.85, IV flow rate, and Mosteller body surface area. The state record of
  each rendered calculator form (`bmiData`, `dosageData`, `creatinineData`)
  is the class `CalculatorForm`. Its methods are the input `onChange`
  handlers, the gender toggle and the submit handler. Arithmetic is over
  exact reals. `parseFloat` is a parameter of type
  `string -> Option<real>`, with `None` for NaN. `Math.sqrt` is a parameter
  of type `real -> real`, constrained by `IsSquareRoot` to return the
  non-negative root of any non-negative argument.
- **The flashcard viewer of a topic page** (`flashcards.dfy`, module
  `Flashcards`). The class `FlashcardNavigator` holds `currentFlashcard`
  and `showAnswer`. Next and previous move cyclically over the cards, and
  the answer toggle flips the flag. A topic lookup yields "Topic not found"
  for an unknown id.
- **The case-insensitive substring filters behind the search boxes.** These
  are the global search hook (`search.dfy`), the book catalogue
  (`books.dfy`), the FAQ (`faq.dfy`), the student module list
  (`student_modules.dfy`) and a module's topic list (`module_topics.dfy`).
  They share an order-preserving `Filter` (`filtering.dfy`), and ASCII
  lower-casing, trimming and `includes` (`text.dfy`). For each filter the
  model proves three things: every kept item matches (soundness), every
  matching item is kept (completeness), and the result is a subsequence of
  the input (order). It also proves the variations: the blank-query
  shortcut of the search hook, the "any author" match of the catalogue, the
  FAQ grouping that drops categories with no match, and the `|| []`
  fallbacks for unknown route keys.

`wrappers.dfy` holds the `Option` type and a map lookup.

The formulas in `src/pages/Calculators.tsx` give 60.76 / 51.65 mL/min for the
creatinine example and 1.845 m² for the body-surface-area example (shown as
60.8 / 51.6 and 1.84); `ClearanceExample` and `BsaExample` prove them.

## Model

| member | source | states |
|---|---|---|
| `Calculators.ValidateAndParse` | src/pages/Calculators.tsx:29-35 | The result is "no values" iff at least one field fails to parse; otherwise it has one number per field, in field order, each the parse of its field |
| `Calculators.Bmi` | src/pages/Calculators.tsx:44-46 | BMI times the square of the height in metres (cm / 100) gives back the weight; a positive weight gives a positive BMI |
| `Calculators.Category` | src/pages/Calculators.tsx:47-51 | Exactly one category: below 18.5 underweight, [18.5, 25) normal, [25, 30) overweight, 30 and above obese, so each boundary belongs to the higher category |
| `Calculators.CategoryMonotone` | src/pages/Calculators.tsx:48-51 | A larger BMI never yields an earlier category |
| `Calculators.BmiExample` | src/pages/Calculators.tsx:44-51 | 70 kg at 175 cm gives a BMI between 22.85 and 22.86, "Normal weight" |
| `Calculators.Dosage` | src/pages/Calculators.tsx:62-64 | Total dose = weight × dose per kg, and volume × concentration = total dose |
| `Calculators.DosageExample` | src/pages/Calculators.tsx:62-64 | 20 kg, 10 mg/kg, 50 mg/mL gives 200 mg in 4 mL |
| `Calculators.CreatinineClearance` | src/pages/Calculators.tsx:75-79 | Clearance × (72 × creatinine) = (140 − age) × weight, times 0.85 exactly when gender is "female" |
| `Calculators.FemaleIsScaledMale` | src/pages/Calculators.tsx:76-79 | The female value is 0.85 × the male value for the same inputs; every gender string other than "female" gets the male value |
| `Calculators.ClearanceExample` | src/pages/Calculators.tsx:75-79 | Age 65, 70 kg, creatinine 1.2 gives 60.76–60.77 mL/min, and 51.64–51.65 mL/min for "female" |
| `Calculators.IvFlowRate` | src/pages/Calculators.tsx:90-92 | mL/hr × time = volume, and drops/min × (time × 60) = volume × drop factor |
| `Calculators.IvMatchesQuickReference` | src/pages/Pharmacology.tsx:331-332 | The page's drops/min equals the quick-reference "mL/hr × drop factor ÷ 60" |
| `Calculators.IvExample` | src/pages/Calculators.tsx:90-92 | 1000 mL over 8 h with 15 drops/mL gives 31.25 drops/min and 125 mL/hr |
| `Calculators.BodySurfaceArea` | src/pages/Calculators.tsx:103-104 | BSA ≥ 0 and BSA² = height × weight / 3600, for a non-negative product |
| `Calculators.RootOrder` | src/pages/Calculators.tsx:104 | Between two non-negative values, the one with the smaller square is the smaller (the square root is monotone) |
| `Calculators.BsaMonotone` | src/pages/Calculators.tsx:104 | For non-negative inputs, BSA never decreases when height or weight increases |
| `Calculators.BsaExample` | src/pages/Calculators.tsx:103-104 | 175 cm and 70 kg give a BSA strictly between 1.84 and 1.85 m² |
| `Calculators.CalculatorForm.constructor` | src/pages/Calculators.tsx:15-21 | A new form has empty fields, gender "male", no result and no error |
| `Calculators.CalculatorForm.Edit` | src/pages/Calculators.tsx:158-162 | Editing a field stores the new text in that field only and clears both result and error; gender is kept |
| `Calculators.CalculatorForm.SetGender` | src/pages/Calculators.tsx:222-223 | The gender buttons change the gender and nothing else |
| `Calculators.CalculatorForm.Submit` | src/pages/Calculators.tsx:37-81 | On a validation failure only the error changes (to the fixed message) and no value is computed; on success the result is the formula's value on the parsed fields and the error is cleared; fields and gender are unchanged |
| `Calculators.RejectsNonNumericWeight` | src/pages/Calculators.tsx:39-42 | A BMI form with weight "abc" ends with the validation message and no result |
| `Flashcards.NextIndex` | src/pages/TopicContent.tsx:137-140 | The next index stays in [0, n): it is i + 1, wrapping from n − 1 to 0 |
| `Flashcards.PrevIndex` | src/pages/TopicContent.tsx:142-145 | The previous index stays in [0, n): it is i − 1, wrapping from 0 to n − 1 |
| `Flashcards.StepsAreInverse` | src/pages/TopicContent.tsx:139-144 | Previous after next, and next after previous, return the original index |
| `Flashcards.Advance` | src/pages/TopicContent.tsx:139 | Any number of "Next" presses keeps the index in [0, n) |
| `Flashcards.AdvanceIsModular` | src/pages/TopicContent.tsx:139 | k presses of "Next" from i reach (i + k) mod n |
| `Flashcards.FullCycle` | src/pages/TopicContent.tsx:139 | n presses of "Next" return to the starting card |
| `Flashcards.FlashcardNavigator.constructor` | src/pages/TopicContent.tsx:14-15 | The viewer starts on the first card with the question showing |
| `Flashcards.FlashcardNavigator.Next` | src/pages/TopicContent.tsx:137-140 | The index becomes the next index, stays valid, and the answer is hidden |
| `Flashcards.FlashcardNavigator.Prev` | src/pages/TopicContent.tsx:142-145 | The index becomes the previous index, stays valid, and the answer is hidden |
| `Flashcards.FlashcardNavigator.ToggleAnswer` | src/pages/TopicContent.tsx:313 | The toggle flips the answer flag and leaves the index unchanged |
| `Flashcards.FlashcardNavigator.Position` | src/pages/TopicContent.tsx:285 | The displayed position current + 1 is always in 1..n |
| `Flashcards.NextThenPrev` | src/pages/TopicContent.tsx:137-145 | "Next" then "Previous" on the viewer returns to the same card with the question showing |
| `Flashcards.RenderTopic` | src/pages/TopicContent.tsx:131-135 | An unknown topic id gives "Topic not found" and indexes no card; a known one shows position current + 1 of n, in 1..n, and the answer exactly when the flag is set |
| `Text.Lower` | src/hooks/useSearch.ts:50-52 | Each upper-case ASCII letter becomes its lower-case partner and every other character is kept (the `toLowerCase` calls also at src/pages/Books.tsx:166-168, src/pages/FAQ.tsx:183-184, src/pages/StudentModules.tsx:135-136 and src/pages/ModuleTopics.tsx:78-79); the result has the same length, holds no upper-case letter, and is unchanged by lower-casing again |
| `Text.Trim` | src/hooks/useSearch.ts:40 | The result is the slice of the input left after cutting a blank prefix and a blank suffix, and it neither starts nor ends with whitespace |
| `Text.TrimEmptyIffBlank` | src/hooks/useSearch.ts:40 | `trim()` yields the empty string iff every character is whitespace |
| `Text.SameUpToCaseKeepsBlank` | src/hooks/useSearch.ts:40-50 | Changing letter case never makes a blank query non-blank or the reverse |
| `Text.Contains` | src/hooks/useSearch.ts:50-52 | `includes` holds iff the query occurs at some position of the text |
| `Text.ContainsEmpty` | src/pages/Books.tsx:165-168 | The empty query is included in every text |
| `Filtering.Filter` | src/hooks/useSearch.ts:49 | The result keeps exactly the passing elements: each passing element with its multiplicity, no failing element, and nothing longer than the input |
| `Filtering.FilterIsSubseq` | src/hooks/useSearch.ts:49 | The filter's result is a subsequence of its input, in original order |
| `Filtering.FilterKeepsAll` | src/pages/Books.tsx:165-168 | When every element passes, the filter returns its input unchanged |
| `GlobalSearch.Search` | src/hooks/useSearch.ts:39-60 | A query that is blank after trimming gives no results; otherwise every result is an index entry matching the lower-cased query in its title, description or category, every matching entry is a result as often as it occurs in the index, and results keep index order |
| `GlobalSearch.UncategorisedMatchesTextOnly` | src/hooks/useSearch.ts:52 | An entry without a category is found only through its title or description |
| `GlobalSearch.SearchIgnoresQueryCase` | src/hooks/useSearch.ts:50-52 | Queries that differ only in letter case give the same results |
| `Books.FilteredBooks` | src/pages/Books.tsx:165-169 | Every listed book matches in its title, in at least one author, or in its category; every matching book is listed as often as it occurs in the catalogue; order is kept |
| `Books.AvailableCount` | src/pages/Books.tsx:244 | The count shown never exceeds the catalogue size and equals it for an empty query |
| `Books.EmptyQueryKeepsAllBooks` | src/pages/Books.tsx:165-168 | An empty query lists the whole catalogue |
| `Books.AuthorMatchKeepsBook` | src/pages/Books.tsx:167 | A match on a single author lists the book |
| `Faq.MatchingEntries` | src/pages/FAQ.tsx:181-185 | A category's filtered list holds exactly its questions whose question or answer matches, each as often as in the category, in order |
| `Faq.FilterFaqs` | src/pages/FAQ.tsx:180-190 | The result's keys are keys of the input; a category is present iff one of its entries matches; each kept list is that category's filtered list |
| `Faq.EmptyQueryKeepsCategories` | src/pages/FAQ.tsx:180-190 | With an empty query every non-empty category is kept whole |
| `Faq.CategoryTab` | src/pages/FAQ.tsx:286-330 | With an empty query a tab shows the category's full list, or "being updated" when it has none; otherwise it shows the filtered list, or "No questions found matching your search." when nothing matches |
| `Faq.PopularAgreesWithTabMessage` | src/pages/FAQ.tsx:233-325 | When a category tab shows a message instead of questions, the message is "being updated" exactly while the popular-questions section is on the page, and "No questions found matching your search." exactly while it is hidden |
| `Wrappers.LookupOrEmpty` | src/pages/StudentModules.tsx:126 | The lookup with an empty-list fallback (also used for `topicsByModule` at src/pages/ModuleTopics.tsx:74) gives the empty list for an unknown key and the stored list for a known one |
| `StudentModules.FilteredModules` | src/pages/StudentModules.tsx:134-137 | Every listed module matches in its title or description, every matching module is listed as often as it occurs, in order |
| `StudentModules.EmptyQueryKeepsAllModules` | src/pages/StudentModules.tsx:134-137 | An empty query lists every module of the type |
| `StudentModules.UnknownTypeShowsNothing` | src/pages/StudentModules.tsx:126-137 | An unknown student type lists no module whatever the query |
| `StudentModules.ModuleButton` | src/pages/StudentModules.tsx:204-234 | The button reads "Continue Learning" iff progress > 0, else "Start Module", and it reads "Continue Learning" exactly when the card shows a progress bar rather than "Not started" |
| `ModuleTopics.FilteredTopics` | src/pages/ModuleTopics.tsx:77-80 | Every listed topic matches in its title or description, every matching topic is listed as often as it occurs, in order |
| `ModuleTopics.UnknownModuleShowsNothing` | src/pages/ModuleTopics.tsx:74-80 | An unknown module lists no topic whatever the query |
| `ModuleTopics.CompletionPercent` | src/pages/ModuleTopics.tsx:122 | The percentage times the topic total is 100 × the completed count, and it lies in [0, 100] when completed ≤ total |
| `ModuleTopics.ModuleProgress` | src/pages/ModuleTopics.tsx:119-128 | The progress bar is drawn iff the module is known, with the completion percentage |
| `ModuleTopics.AnatomyProgress` | src/pages/ModuleTopics.tsx:63-64 | 18 of 24 topics completed gives 75 |
| `ModuleTopics.TopicNumbers` | src/pages/ModuleTopics.tsx:148-163 | The "Topic n" labels of the listed topics are increasing and are exactly 1..the number listed |
| `ModuleTopics.TopicButton` | src/pages/ModuleTopics.tsx:153-199 | The button reads "Review" iff the topic is completed, else "Start", and it reads "Review" exactly when the topic's status icon is the check mark |

## Left out

- IEEE-754 doubles. Rounding, NaN and Infinity are not modelled, and neither is the `toFixed` display formatting of every result. The model works over exact reals, and a form's `result` holds the computed values instead of the formatted string.
- The grammar of `parseFloat` (section 19.2.4 of ECMA-262) is not modelled. It is an abstract `string -> Option<real>` parameter. So the model does not capture that it accepts numeric prefixes such as "12abc", or that "Infinity" parses to a number.
- `Math.sqrt` is not modelled as a computation. It is a parameter described by its postcondition (`IsSquareRoot`), because an exact real square root cannot be computed.
- Calculators.Bmi, Calculators.Dosage, Calculators.CreatinineClearance and Calculators.IvFlowRate require a non-zero divisor. The page divides without a guard and would show Infinity or NaN.
- Calculators.BodySurfaceArea requires height × weight ≥ 0. The page would show NaN for a negative product.
- ModuleTopics.CompletionPercent and ModuleTopics.ModuleProgress require a positive topic total. The page divides without a guard at src/pages/ModuleTopics.tsx:122 and would show NaN or Infinity for a module with no topics; every module in the data has a positive total.
- Calculators.CalculatorForm.Submit requires that the parsed fields give non-zero divisors, for the same reason.
- The IV-rate and body-surface-area calculators are modelled as formulas only. Their state records (`ivData` with default drop factor "15", `bsaData`) and their submit handlers are not modelled, because no form renders them.
- Calculators.CalculatorForm gives every form a `gender` field. Only the creatinine form has one in the page, and only that form's formula reads it.
- `toLowerCase` and `trim` are modelled over ASCII only. Non-ASCII letters are left unchanged, and only the six ASCII whitespace characters are trimmed.
- Faq.FilterFaqs visits the categories in an arbitrary order, not in `Object.entries` order. The resulting map does not depend on the order.
- The 300 ms debounce of the search hook is not modelled, and neither are its `loading` flag and the timer clean-up.
- Lookups are modelled as plain map lookups. Route keys that name built-in object properties (such as "constructor") are not modelled.
- The flashcard viewer assumes a topic with at least one card, as every topic in the data has. With zero cards the Flashcards tab reads `.question` of `topic.flashcards[0]`, which is undefined, so the page fails (src/pages/TopicContent.tsx:297-298). The `% 0` of the step handlers is never reached there, because "Previous" and "Next" are disabled for one card or fewer.
- The "Previous" and "Next" buttons are disabled for a single card. The model allows the step anyway, since it is the identity there.
- Networking, storage and authentication are not part of this model (`src/lib/api.ts`, `src/contexts/AuthContext.tsx`, `src/pages/Search.tsx`).
- Routing, static page content and unused UI state (`sortBy`, `viewMode`, `selectedSpecialty`, `selectedCategory`) are not modelled, because they hold no logic.
- Display-only record fields (edition, year, rating, duration, difficulty, images, articles, videos, references, downloads) are not modelled.
