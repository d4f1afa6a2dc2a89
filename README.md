# gerador_stories — a verified model of the story pipeline

gerador_stories turns a web form into a technical user story. The page
collects a Business, Spike, Kaizen or Fix/Bug/Incidente form. A prompt
builder turns the submitted `form_data` record into a prompt for a language
model. The controller turns the reply into a `Story` record, splices any
attached bug evidence images into the Markdown, and saves the story in the
session. A local INVEST scorer then rates the saved story.

This project models that deterministic core in Dafny and proves what each
step promises. It has one module per concern:

| file | module | models |
|---|---|---|
| `text.dfy` | `Base`, `Text` | `Option`/`Result`; Python's `str.strip`, `str.isspace`, `str.lower`, `str.title`, `in`, `str.count`, `"\n".join`, `str(int)` and slicing, written out |
| `story.dfy` | `Stories` | the `Story` record: defaults, field validators, construction errors, `to_dict` and the three exports |
| `invest.dfy` | `Invest` | `validate_invest_local`: the five threshold checks, the justifications, strengths/weaknesses and the capped suggestion list |
| `splice.dfy` | `Splice` | `_insert_images_in_story`: the image block and the heading search with its fallback order |
| `formdata.dfy` | `FormData` | the submitted `form_data` dictionary and its `.get(key, default)` readers |
| `prompts.dfy` | `Prompts` | the computed fragments of the five prompt builders |
| `generation.dfy` | `Generation` | `generate_story`: category dispatch, multimodal content, reply and failure handling |
| `controller.dfy` | `Controller` | `create_story`: error kinds, the session store, the story built from the reply |
| `form.dfy` | `FormView` | the form's session state: initialisation, reset, the dynamic lists and the four submit branches |

The model takes the source's own form:

- Pure helpers are functions.
- Loops are methods whose loop invariants tie them to a specification function:
  - the image block, the multimodal content and the objective lines;
  - the API-spec lines, the strengths/weaknesses and the suggestions;
  - the upload conversion.
- The session store is a class with a sequence field, and `create_story` appends to it.
- The Streamlit session state is a class `FormSession` whose methods reassign its `values` record.
  - `Initialize` and `Reset` do so key by key, as `initialize_session_state` and `reset_form` do.
  - `AddItem`, `SetItem` and `RemoveItem` mirror `append("")`, `[i] = new_value` and `pop(i)`.

Behaviour that the code has and that the model keeps as written:

- `_check_valuable` counts the entries of `objetivos`, not the non-blank ones.
  - Every form submits the three keys `como`, `quero` and `para_que`.
  - So a story whose three objectives are blank still scores 90 for value and lists it as a strength (`Invest.ValuableIgnoresBlankObjectives`).
- The regeneration prompt iterates `form_data['objetivos']` directly. For the dictionary the form submits, that yields the three keys and not the texts (`Prompts.RegenerationListsObjectiveKeys`).
- A complexity of 0 scores 50 for size. Its justification is the "muito alta" text, yet 50 is not a weakness (`Invest.SmallJustified`).
- A negative complexity is a weakness for estimability and a strength for size at once (`Invest.NegativeComplexityDisagrees`).
- The Spike form submits neither `spike_timebox` nor `complexidade`.
  - The Spike prompt therefore always shows the 8-hour default timebox.
  - The story is stored with complexity 5.
- `reset_form` does not reset the legacy `objetivos` list that `initialize_session_state` creates; `FormView.AfterReset` keeps it.
- The title's length bounds (1..100) apply to the raw title, before the validator strips it. A title of 101 characters is refused even when stripping would shorten it.

## Model

| member | source | states |
|---|---|---|
| Stories.RemoveEmptyStrings | models/story.py:40-44 | every kept item is non-empty and stripped; a text is kept exactly when it is the non-empty strip of some input item |
| Stories.RemoveEmptyStringsIdempotent | models/story.py:40-44 | normalising an already normalised list changes nothing |
| Stories.ValidateTitulo | models/story.py:46-52 | a title is refused exactly when it is empty or whitespace only; an accepted title is stored non-empty, stripped and taken from the input |
| Stories.NewStory | models/story.py:29-52 | construction succeeds exactly when the raw title has 1..100 characters and is not blank and the complexity, 5 when omitted, lies in 1..21. A success satisfies every field constraint and carries the defaults and normalised lists. Each failure kind is reported exactly when its constraint is violated |
| Stories.DefaultsWhenOmitted | models/story.py:29-38 | with only a title, a story gets complexity 5, area "Business", an empty document and empty lists and objectives |
| Stories.ToDict | models/story.py:54-72 | the dictionary form has exactly the ten keys |
| Stories.DictRoundTrip | models/story.py:54-72 | every field of a story can be read back from its dictionary form |
| Stories.DictFaithful | models/story.py:54-72 | a ten-key dictionary that reads as a story is that story's dictionary form |
| Stories.ToJsonExport | models/story.py:74-81 | the JSON export is the dictionary form, and the story reads back from it |
| Stories.ToMarkdownExport | models/story.py:83-90 | the Markdown export is the document the dictionary form stores under `historia_gerada` |
| Stories.RemoveEmoji | models/story.py:104-116 | no character of the emoji ranges survives, and the text does not grow |
| Stories.RemoveEmojiKeepsOthers | models/story.py:104-116 | a character survives exactly when it occurs in the text and is not an emoji |
| Stories.RemoveEmojiAppend | models/story.py:104-116 | removal works piece by piece: the result for a concatenation is the concatenation of the results, so kept characters keep their order |
| Stories.RemoveEmojiAt | models/story.py:104-116 | wherever a character stands, it is dropped exactly when it is an emoji and kept in place otherwise |
| Stories.RemoveEmojiKeepsPlain | models/story.py:104-116 | a text without emoji is left unchanged |
| Stories.RemoveHeaders | models/story.py:119 | removing heading markers never lengthens the text and keeps only characters of the text |
| Stories.HeadingRemoved | models/story.py:119 | one to six `#` followed by whitespace are removed, and the rest of the line, free of `#`, is kept |
| Stories.RemoveHeadersKeepsPlain | models/story.py:119 | a text without `#` is left unchanged |
| Stories.Unwrap | models/story.py:120-121 | removing emphasis markers never lengthens the text and keeps only characters of the text |
| Stories.UnwrapKeepsPlain | models/story.py:120-121 | a text without the delimiter's character is left unchanged |
| Stories.BoldUnwrapped | models/story.py:120 | `**w**` around a word on one line becomes the word |
| Stories.ItalicUnwrapped | models/story.py:121 | `*w*` around a word on one line becomes the word |
| Stories.ToTextExport | models/story.py:92-123 | the text export holds no emoji, is stripped, neither starts nor ends with whitespace and is no longer than the document |
| Stories.TextExportOfPlain | models/story.py:92-123 | a document without emoji, `#` or `*` is exported as the document stripped |
| Stories.TextExportUnbolds | models/story.py:92-123 | a document that is one bold word exports as the word, without its markers |
| Stories.TextExportDropsHeading | models/story.py:92-123 | a document that is one heading exports as its title, stripped, without the marker |
| Invest.KeywordCountZero | services/invest_service.py:83-85 | the summed keyword count is zero exactly when no keyword occurs |
| Invest.CheckIndependent | services/invest_service.py:67-92 | 100 exactly when none of the seven keywords occurs in the lower-cased document, 70 exactly for one counted mention, 40 exactly for two or more |
| Invest.CheckValuable | services/invest_service.py:103-113 | 30 exactly without objective entries, 90 exactly with two or more, 70 exactly with one |
| Invest.CheckEstimable | services/invest_service.py:124-131 | 100 exactly for a positive complexity, 20 exactly otherwise; a missing complexity gives 20 |
| Invest.CheckSmall | services/invest_service.py:140-154 | 50 exactly for complexity 0, then 100 up to 5, 90 for 6..8, 70 for 9..13, 30 above 13; each tier in both directions |
| Invest.CheckTestable | services/invest_service.py:165-179 | 10, 50, 70 and 100 exactly for zero, one, two and three or more criteria |
| Invest.EntryNamesDimension | services/invest_service.py:207-213 | a report line `Label: v%` determines its dimension |
| Invest.ClassifiedHas | services/invest_service.py:207-213 | a dimension's line is in a classified list exactly when its score qualifies |
| Invest.ClassifiedInOrder | services/invest_service.py:198-215 | the strengths, and likewise the weaknesses, follow the fixed dimension order |
| Invest.StrengthsWeaknessesFacts | services/invest_service.py:190-215 | a dimension is a strength exactly at 80 or more and a weakness exactly below 50. No line is in both lists, each list follows the fixed dimension order, and together they hold at most six lines |
| Invest.GenerateStrengthsWeaknesses | services/invest_service.py:190-215 | the loop over the dimensions produces exactly the specified strengths and weaknesses |
| Invest.SuggestionsSelected | services/invest_service.py:217-300 | at most five suggestions, in rule order, each the advice of its rule. A rule's advice is kept exactly when the rule fires and fewer than five earlier rules fired |
| Invest.KeptRule | services/invest_service.py:230-300 | a rule survives the cut to five exactly when it fires and fewer than five earlier rules fired |
| Invest.GenerateBasicSuggestions | services/invest_service.py:217-300 | the rule-by-rule appends followed by the slice give exactly the specified suggestion list |
| Invest.AllRulesFireDropsForm | services/invest_service.py:294-300 | when all six rules fire, the form-validation advice is the one cut |
| Invest.ValidateInvestLocal | services/invest_service.py:20-65 | the field-by-field assignments produce exactly the specified local score |
| Invest.LocalScoreParts | services/invest_service.py:20-65 | the finished score keeps the sub-scores and justifications and classifies those sub-scores |
| Invest.NegotiableNeverListed | services/invest_service.py:36-38 | negotiability is always 70, so no strength or weakness names it |
| Invest.SubScoresJustified | services/invest_service.py:33-54 | each justification is the text its own sub-score selects, and the size text also uses the complexity |
| Invest.IndependentTiers | services/invest_service.py:94-101 | the top text exactly at 80 or more, the bottom text exactly below 50 |
| Invest.ValuableTiers | services/invest_service.py:115-122 | the top text exactly at 80 or more, the bottom text exactly below 50 |
| Invest.EstimableTiers | services/invest_service.py:133-138 | the estimated text exactly at 80 or more, the missing-estimate text exactly below |
| Invest.SmallTiers | services/invest_service.py:156-163 | the adequate text exactly at 90 or more, the too-large text exactly below 70 |
| Invest.TestableTiers | services/invest_service.py:181-188 | the top text exactly at 80 or more, the bottom text exactly below 50 |
| Invest.IndependentClassified | services/invest_service.py:94-101 | the top independence text goes with a strength, the bottom one with a weakness, both ways |
| Invest.ValuableClassified | services/invest_service.py:115-122 | the top value text goes with a strength, the bottom one with a weakness, both ways |
| Invest.EstimableClassified | services/invest_service.py:133-138 | for the two estimability scores, the texts go with strength and weakness, both ways |
| Invest.SmallClassified | services/invest_service.py:156-163 | for the size scores, the adequate text goes with a strength; the too-large text goes with a weakness or the undefined size |
| Invest.TestableClassified | services/invest_service.py:181-188 | the top testability text goes with a strength, the bottom one with a weakness, both ways |
| Invest.IndependentJustified | services/invest_service.py:33-34 | in the finished score, the independence justification agrees with the classification |
| Invest.ValuableJustified | services/invest_service.py:41-42 | in the finished score, the value justification agrees with the classification |
| Invest.EstimableJustified | services/invest_service.py:45-46 | in the finished score, the estimability justification agrees with the classification |
| Invest.SmallJustified | services/invest_service.py:49-50 | in the finished score, the size justification agrees with the classification, except that complexity 0 gets the too-large text |
| Invest.TestableJustified | services/invest_service.py:53-54 | in the finished score, the testability justification agrees with the classification |
| Invest.JustificationTiers | services/invest_service.py:33-54 | all five justifications agree with the strengths and weaknesses, with the single size exception at complexity 0 |
| Invest.ValuableIgnoresBlankObjectives | services/invest_service.py:103-113 | the three-key objectives the form sends score 90 and are listed as a strength even when every value is blank |
| Invest.ToDictReadsBack | models/story.py:54-72 | the scorer reads a story's own complexity, criteria and objective count from its dictionary form |
| Invest.ValidStoryEstimable | services/invest_service.py:124-131 | every constructed story scores 100 for estimability and lists it as a strength |
| Invest.ValidStorySize | services/invest_service.py:140-154 | a constructed story never gets the undefined size 50, and gets 30 exactly above 13 points |
| Invest.ValidStoryCoverage | services/invest_service.py:103-179 | a constructed story scores 10 for testability exactly without criteria, and 30 for value exactly without objectives |
| Invest.NegativeComplexityDisagrees | services/invest_service.py:124-154 | a negative complexity is at once an estimability weakness and a size strength |
| Splice.BlocksWithoutData | controllers/story_controller.py:156-164 | images without data add nothing to the block |
| Splice.ImagesMarkdownOrder | controllers/story_controller.py:155-164 | the block starts with the "Imagens Anexadas" header and holds the caption and reference of each image with data, an earlier image before a later one |
| Splice.BuildImagesMarkdown | controllers/story_controller.py:155-164 | the `+=` loop builds exactly the specified block |
| Splice.FindPattern | controllers/story_controller.py:181-194 | a found position is within the text and the heading pattern matches there |
| Splice.FindPatternFirst | controllers/story_controller.py:181-194 | the search finds the first match of the heading, and finds none only when there is none |
| Splice.NewlineRunEnd | controllers/story_controller.py:168 | the `\s*\n` tail ends just after a newline, after the end found so far |
| Splice.EvidenceEnd | controllers/story_controller.py:168 | a match of the evidence heading ends after its fixed part, just after a newline |
| Splice.FindEvidence | controllers/story_controller.py:168-170 | a found position starts a match of the evidence heading |
| Splice.FindEvidenceFirst | controllers/story_controller.py:168-170 | the search finds the first evidence heading, and none only when there is none |
| Splice.FindEvidenceIsFirst | controllers/story_controller.py:170-178 | the evidence search returns a position exactly when it starts the first match, and nothing exactly when no match exists |
| Splice.FindPatternIsFirst | controllers/story_controller.py:181-202 | the heading search returns a position exactly when it starts the first match, and nothing exactly when no match exists |
| Splice.Placement | controllers/story_controller.py:166-205 | the insertion point lies within the document |
| Splice.Spliced | controllers/story_controller.py:151-152 | with no images the document is returned unchanged |
| Splice.InsertImagesInStory | controllers/story_controller.py:140-207 | the method builds the block, searches the headings and splices, giving exactly the specified result |
| Splice.SpliceKeepsOriginal | controllers/story_controller.py:166-205 | the result is the document with one fragment inserted at one position, so nothing of the original is lost or reordered; the fragment carries the whole image block |
| Splice.FragmentCarries | controllers/story_controller.py:172-205 | whichever branch is taken, the inserted fragment contains the whole image block |
| Splice.SpliceAfterEvidence | controllers/story_controller.py:168-178 | with an evidence heading, the block goes right after the first one, and the text before and after is kept |
| Splice.SpliceBeforeAnalysis | controllers/story_controller.py:180-190 | without an evidence heading, a new evidence section goes right before the first analysis heading |
| Splice.SpliceBeforeComplexity | controllers/story_controller.py:192-202 | without evidence or analysis headings, the new section goes right before the first complexity heading |
| Splice.SpliceAppends | controllers/story_controller.py:203-205 | without any of the three headings, the new section is appended at the end |
| Splice.ClassHasIgnoresCase | controllers/story_controller.py:170 | whether a character matches a pattern position depends only on its lower-case form |
| Splice.PatternAtIgnoresCase | controllers/story_controller.py:168-202 | a heading pattern matches in one text exactly when it matches in any text that agrees with it up to case |
| Text.Strip | views/story_form_view.py:749 | `strip()` never lengthens a text, and what it keeps neither starts nor ends with whitespace |
| Text.StripIdempotent | views/story_form_view.py:749 | stripping a stripped text changes nothing |
| Text.StrippedNonBlankMembership | views/story_form_view.py:749-753 | the list comprehension keeps a text exactly when it is the non-empty strip of some item |
| Text.CountZeroIffAbsent | services/invest_service.py:83-85 | a keyword counts zero occurrences exactly when it does not occur |
| FormData.NonEmptyEntry | services/ai_service.py:217-241 | `spec.get(key)` is truthy exactly when the key is present with a non-empty text, and then yields that text |
| Text.NonEmpty | services/ai_service.py:941-942 | the Spike and Kaizen lists keep exactly the non-empty items |
| Text.NonEmptyAppend | services/ai_service.py:941-942 | the filter works piece by piece, so the kept items keep their order |
| Text.NonEmptyListed | services/ai_service.py:941-942 | every non-empty item supplied reaches its bullet list |
| Prompts.Render | services/ai_service.py:638 | a builder's prompt is returned stripped |
| Prompts.RenderKeepsSlots | services/ai_service.py:638 | when the fixed prose begins and ends with text, stripping loses no computed fragment |
| Prompts.ObjectiveLabelOther | services/ai_service.py:197-205 | a key other than como, quero and para_que keeps its letters up to case and turns underscores into spaces |
| Prompts.ObjectiveLines | services/ai_service.py:203-206 | there is at most one objective line per entry |
| Prompts.ObjectiveLinesMembership | services/ai_service.py:203-206 | a line is listed exactly when some entry with a non-blank value produces it, as label and stripped value |
| Prompts.CollectObjectives | services/ai_service.py:191-206 | the append loop collects exactly the specified objective lines |
| Prompts.ObjectivesBlockFacts | services/ai_service.py:208 | the block is "- Não especificado" when every objective is blank; otherwise every non-blank objective is listed as a bullet |
| Prompts.SpecItemsOrdered | services/ai_service.py:212-244 | the API-spec lines come in the order method, endpoint, the method's own fields, response format, and none is empty |
| Prompts.SpecItemsFixedFields | services/ai_service.py:217-241 | method, endpoint and response format are listed exactly when given non-empty |
| Prompts.SpecItemsByMethod | services/ai_service.py:225-237 | query parameters appear only for GET, a body only for POST, PUT and PATCH, and a path parameter only for PUT, PATCH and DELETE; each exactly when given |
| Prompts.HeadParts | services/ai_service.py:217-222 | the method and endpoint appends produce exactly the lines of the specified head |
| Prompts.AddMiddleParts | services/ai_service.py:225-237 | the method-dependent appends add exactly the lines of the specified middle |
| Prompts.AddPathAndBody | services/ai_service.py:231-235 | for PUT and PATCH, the path parameter line and then the body line are appended, each exactly when given |
| Prompts.AddTailParts | services/ai_service.py:240-241 | the response-format append adds exactly the specified tail line |
| Prompts.CollectSpecParts | services/ai_service.py:212-244 | the accumulated `specs_parts` are exactly the lines of the specified block |
| Prompts.OptionalSections | services/ai_service.py:302-309 | the API section is omitted exactly when the spec block is empty; the dependency section is omitted exactly when dependencies are not flagged or empty, and otherwise contains them |
| Prompts.StepEntries | services/ai_service.py:1139 | no more numbered steps than steps |
| Prompts.StepEntriesFacts | services/ai_service.py:1139 | a step is numbered exactly when it is non-empty, under its 1-based position in the original list, in increasing order |
| Prompts.StepsPlaceholderWhenEmpty | services/ai_service.py:1202 | with every step empty the placeholder list is used |
| Prompts.StepsListed | services/ai_service.py:1139 | each non-empty step appears under its original 1-based number |
| Prompts.EvidenceLeadsWithImages | services/ai_service.py:1211 | the evidence text starts with the image placeholder exactly when there are images |
| Prompts.EvidenceShowsLogs | services/ai_service.py:1211 | given logs always appear in their block |
| Prompts.EvidenceNoteAlone | services/ai_service.py:1211 | the "no evidence" note is the whole text exactly when there are neither images nor logs |
| Prompts.ImageNames | services/ai_service.py:1144 | one name per attached image |
| Prompts.ImagesInfoNames | services/ai_service.py:1142-1153 | every attached image is named in the block, an unnamed one as "imagem" |
| Prompts.RegenerationListsObjectiveKeys | services/ai_service.py:743 | for the dictionary the form submits, the regeneration prompt lists the keys como, quero and para_que, not the texts |
| Prompts.BusinessPrompt | services/ai_service.py:638 | the business prompt is returned stripped |
| Prompts.SpikePrompt | services/ai_service.py:1017 | the Spike prompt is returned stripped |
| Prompts.KaizenPrompt | services/ai_service.py:1116 | the Kaizen prompt is returned stripped |
| Prompts.FixPrompt | services/ai_service.py:1246 | the Fix prompt is returned stripped |
| Prompts.RegenerationPrompt | services/ai_service.py:772 | the regeneration prompt is returned stripped |
| Prompts.RegenerationNamesSection | services/ai_service.py:708-715 | the prompt names the section by its label and carries the stored document. "testes" maps to its fixed label, and an unknown name passes through unchanged |
| Generation.Dispatch | services/ai_service.py:64-82 | Spike, Kaizen and Fix/Bug/Incidente each select their own builder and only that one; any other category, or none, selects the business builder |
| Generation.Prompt | services/ai_service.py:64-82 | the dispatched prompt is stripped |
| Generation.ImageSourcesFacts | services/ai_service.py:93-102 | one image block per image, in order, with type and data defaults |
| Generation.ContentOrder | services/ai_service.py:86-107 | the content is every image in order followed by exactly one text block, the prompt, last |
| Generation.BuildContent | services/ai_service.py:90-107 | the append loop builds exactly the specified content |
| Generation.RequestShape | services/ai_service.py:86-132 | images are sent exactly for a bug report that has them, with the prompt last; otherwise the plain prompt is sent |
| Generation.OutcomeClasses | services/ai_service.py:134-153 | text comes back exactly when the reply has content. The three transport failures keep their class. Every other failure becomes a plain error whose message keeps the original one |
| Controller.ErrorKindFacts | controllers/story_controller.py:95-115 | timeout, rate limit and connection map to their own kinds; another error maps to "api_key" exactly when its lower-cased message names a credential problem, else to a "generic:" kind carrying the message |
| Controller.WrappedCredentials | controllers/story_controller.py:108-111 | the generator's "Erro ao gerar história" wrapping keeps a credential complaint recognisable |
| Controller.SessionStore.AddStory | controllers/story_controller.py:91 | saving appends exactly the one dictionary to the store |
| Controller.CreateOutcome | controllers/story_controller.py:48-115 | exactly one half of the pair is present. A story comes back exactly when the generator answered and the record validated. It then carries the finished document, the form's category ("Business" by default) and the form's complexity |
| Controller.TransportFailureKinds | controllers/story_controller.py:95-102 | timeout, rate-limit and connection failures give their kinds and no story; an empty reply gives no story |
| Controller.CredentialFailureKind | controllers/story_controller.py:104-111 | a generator failure whose message names a credential problem is reported as "api_key" |
| Controller.FinishedSplicesOnlyFixImages | controllers/story_controller.py:74-76 | images are spliced only into a Fix/Bug/Incidente story that has them; any other document is kept as generated |
| Controller.CreateStory | controllers/story_controller.py:29-115 | returns the specified outcome; on success exactly the story's dictionary is appended to the store, and on failure the store is unchanged |
| FormView.InitializeCompletes | views/story_form_view.py:12-133 | initialisation sets every key |
| FormView.InitializeExtends | views/story_form_view.py:12-133 | initialisation keeps the value of every key already set |
| FormView.InitializeFixesComplete | views/story_form_view.py:12-133 | initialisation changes nothing exactly when every key is already set |
| FormView.InitializeIdempotent | views/story_form_view.py:12-133 | initialising twice is initialising once |
| FormView.InitializeFresh | views/story_form_view.py:12-133 | a new session is initialised to exactly the initial values |
| FormView.InitializeAfterReset | views/story_form_view.py:787-839 | a reset restores the initial values except the legacy `objetivos` list, so initialising after a reset changes nothing when that list exists; resetting twice is resetting once |
| FormView.WithListFacts | views/story_form_view.py:179 | editing one dynamic list leaves every other list and every other key unchanged |
| FormView.ResetReadiesLists | views/story_form_view.py:787-839 | after a reset every dynamic list is exactly one empty item |
| FormView.InitializeReadiesLists | views/story_form_view.py:24-37 | after initialisation every dynamic list has an item, unless one was already empty |
| FormView.RemovedFacts | views/story_form_view.py:183-187 | removal never empties a list; when offered it drops exactly item `i` and keeps the others in order |
| FormView.ApiSpecsByMethod | views/story_form_view.py:760-780 | `api_specs` always starts with metodo, endpoint and formato_resposta. GET adds only query_params, POST only body, PUT and PATCH path_param then body, DELETE only path_param |
| FormView.ApiSpecsStripped | views/story_form_view.py:761-778 | every `api_specs` value except the method is stripped |
| FormView.ApiExtrasStripped | views/story_form_view.py:765-778 | every method-dependent `api_specs` value is stripped |
| FormView.BusinessFormKeys | views/story_form_view.py:746-780 | the business record has its ten fixed keys, plus `api_specs` when the story is an API |
| FormView.BusinessApiSpecs | views/story_form_view.py:760-780 | `api_specs` is submitted exactly when the story is an API |
| FormView.BusinessDependencies | views/story_form_view.py:756 | dependencies are submitted empty unless the form declares some |
| FormView.ObjectivesShape | views/story_form_view.py:740-744 | objectives are always the keys como, quero and para_que in that order, with stripped texts |
| FormView.SpikeRequired | views/story_form_view.py:1013-1019 | the Spike form is refused exactly when the title or the question is blank, with the title checked first |
| FormView.SpikeSubmits | views/story_form_view.py:1027-1035 | an accepted Spike form submits the Spike category |
| FormView.SpikeCarries | views/story_form_view.py:1027-1035 | an accepted Spike form submits the stripped title |
| FormView.KaizenRequired | views/story_form_view.py:1270-1276 | the Kaizen form is refused exactly when the title or the process is blank, with the title checked first |
| FormView.KaizenSubmits | views/story_form_view.py:1284-1295 | an accepted Kaizen form submits the Kaizen category |
| FormView.KaizenCarries | views/story_form_view.py:1284-1295 | an accepted Kaizen form submits the stripped title |
| FormView.ConvertedAppend | views/story_form_view.py:1615-1632 | conversion distributes over concatenation, so kept images keep the uploads' order |
| FormView.ConvertedMembership | views/story_form_view.py:1615-1632 | an image is submitted exactly when some upload converted to it; each has a non-empty type ("image/png" by default) and data |
| FormView.FixRequired | views/story_form_view.py:1606-1612 | the Fix form is refused exactly when the title or the description is blank, with the title checked first |
| FormView.FixSubmits | views/story_form_view.py:1640-1654 | an accepted Fix form submits the Fix/Bug/Incidente category |
| FormView.FixCarries | views/story_form_view.py:1640-1654 | an accepted Fix form submits the converted images |
| FormView.FormSession.Initialize | views/story_form_view.py:12-133 | key by key, each unset key gets its initial value and each set key is kept |
| FormView.FormSession.Reset | views/story_form_view.py:787-839 | every key but the legacy `objetivos` list returns to its initial value, and every dynamic list is ready |
| FormView.FormSession.AddItem | views/story_form_view.py:190-193 | one empty item is appended to that list only, and ready lists stay ready |
| FormView.FormSession.SetItem | views/story_form_view.py:179 | item `i` of that list only is replaced, and ready lists stay ready |
| FormView.FormSession.RemoveItem | views/story_form_view.py:183-187 | item `i` is removed when the list has more than one item, nothing else changes, and ready lists stay ready |
| FormView.FormSession.SubmitBusiness | views/story_form_view.py:722-782 | a rejected form records the errors and submits nothing; an accepted one clears them and submits the business record of the state |
| FormView.FormSession.SubmitFix | views/story_form_view.py:1606-1656 | the Fix submit returns exactly the specified record, with the uploads converted |
| FormView.ConvertUploads | views/story_form_view.py:1615-1632 | the conversion loop keeps exactly the uploads that converted, in order |

## Left out

- Network and SDK: `client.messages.create` is not modelled; the generator is the parameter `send: Request -> Reply`. The model name, token limit and timeout are not modelled.
- Generation.OutcomeClasses: re-raising a timeout, rate-limit or connection error through the SDK's constructors is modelled as keeping the class with the new message. The SDK is not part of this model, so whether those constructors accept a bare message is not captured.
- Controller.TransportFailureKinds: the generic kind of an empty reply is stated only as "some kind"; its exact text is in `Controller.ErrorKindFacts`.
- Controller.CreateOutcome: a story that fails validation inside `create_story` is reported through the generic branch. The validation message is the parameter `describe`, because pydantic's message format is not part of this model.
- Identity and time: `uuid4()`, `datetime.now()` and `isoformat()` are the parameters `id` and `createdAt`.
- The stack trace inside a "generic:" kind is the parameter `trace`.
- `StoryController.validate_story_data` and the form's `validate_form` call: `validate_form` is not part of this model. Its verdict enters `SubmitBusiness` as the parameters `valid` and `errors`.
- `SessionStorage` is not part of this model beyond `add_story`, modelled as appending to `Controller.SessionStore.stories`.
- `InvestScore.calculate_overall` is not part of this model, so the overall score is not modelled.
- `validate_invest_with_ai`, `analyze_and_suggest`, `regenerate_section`'s request, `_build_suggestion_prompt`, `prepare_for_ai_validation` and `parse_ai_validation_response` are not modelled: they forward to the language model or parse its JSON.
- Prompt prose: the fixed text of each prompt is the parameter `Templates`. Each builder fills the computed fragments into the prose's slots and strips the result. Nothing about the prose itself is proved.
- Prompts.BusinessPrompt, Prompts.SpikePrompt, Prompts.KaizenPrompt, Prompts.FixPrompt, Prompts.RegenerationPrompt: their own contracts state only that the prompt is stripped. What each fragment holds is proved separately (objective lines, spec block, steps, evidence text, image names, section label).
- Streamlit: every widget, column, button, `st.rerun`, `st.error` display, HTML/CSS and all of `app.py` are left out. A submit branch is the method that runs once its button is pressed.
- File uploads: reading an upload and base64-encoding it is the `Upload.encoded` field, `None` when reading failed. The warning shown for a failed upload is not modelled.
- Unicode: `lower()`, `title()` and `re.IGNORECASE` are modelled over ASCII and the Latin-1 supplement, where letters have one-character case forms. Other cased letters are treated as uncased.
- `re.sub` replacement templates: the image block is inserted literally. The escape processing `re.sub` applies to backslashes in an image's name or data is not modelled.
- Ill-typed values: a dictionary value of an unexpected type reads as the `.get` default, for example a non-integer `complexidade` or a non-dict `objetivos`. Python would instead fail or format such a value.
- Session keys read before `initialize_session_state` has set them read as their initial values (`Option.GetOr`). The page always initialises first.
- `fix_images` held by the uploader widget is the `uploads` parameter of `SubmitFix`.

- Stories.ToTextExport: for an arbitrary document the contract states that no emoji is left and that the result is stripped. That markers are removed is proved for the shapes the patterns target: a heading marker (`Stories.HeadingRemoved`), a bold word (`Stories.BoldUnwrapped`) and an italic word (`Stories.ItalicUnwrapped`). No closed-form description of the output is given for documents where several patterns overlap.
