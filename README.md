# problem-builder: steps, messages, student state and the answer export

This project models two read-only parts of the problem-builder XBlock suite
and proves properties of them.

- The mixins of `problem_builder/mixins.py`:
  - `_normalize_id` (module `Keys`).
  - The step registry of a parent: `step_ids` and `steps`. Per child, `step_number`, `lonely_child` and `display_name_with_default` (module `Steps`).
  - The message lookup `get_message_content` (module `Messages`).
  - The student-state projection `build_user_state_data`, and the tips removal `transform_student_results` / `delete_key` (module `UserState`).
- The CSV answer export of `problem_builder/tasks.py` (module `Export`):
  - `export_data`, which does the root ascent, the block-type selection, the tree scan `scan_for_blocks`, the header and the preview.
  - `_extract_data`, `_get_context` and `_get_answer`.

Shared definitions live in two modules:
- `Content` holds blocks, the tree of resolved children, JSON field values, scopes and the errors the code raises.
- `Text` holds ASCII lower-casing, substring search and decimal rendering.

How the model represents the code:
- **Class membership.** A block type loads as a class. The class is modelled by the set of class names in its lineage (`BlockClass.lineage`), looked up through a `Registry`. So `child_isinstance` and `isinstance` become set tests (`Content.IsA`, `Content.InstanceOfAny`).
- **Child resolution.** `runtime.get_block` over a block's children is the `Tree` datatype. A child the runtime cannot resolve is a `Missing` leaf.
- **Parent chain.** The successive `get_parent()` calls are modelled by the sequence of what they return: a block, or None. A call past the end of that sequence is an ItemNotFound error (`Export.Lineage`). Python never compares keys here, and `runtime.get_block` may return a block whose key differs from the requested one in branch and version. The model therefore accepts any returned block whose key equals the parent key once both are normalised (`Keys.NormalizeId`). Any other block stands for the ItemNotFoundError that `get_block` raises for a key it cannot serve. A None ends the walk of `_get_context`. In the root ascent, a None makes the next `.parent` raise AttributeError (`NoneParent`).
- **Services.** The modulestore lookups, the submission API and the username lookup are function fields of `Export.Store`. The runtime's block map and its optional `replace_jump_to_id_urls` hook are the fields of `Messages.Runtime`.
- **Lazy properties.** The `@lazy` properties are values: a question's `siblings` is its parent's `step_ids`, passed in as a sequence.
- **Loops.** Each `for` and `while` loop of the source is a method with loop invariants: `Messages.GetMessageContent`, `UserState.StripResultLoop` (the loop over an entry's choices), `UserState.TransformStudentResults`, `UserState.StateFields`, `UserState.BuildUserStateData`, `Export.FindRoot`, `Export.Collector.ScanForBlocks`, `Export.CollectRows`, `Export.SubmissionRows`, `Export.GetContext` and `Export.GetAnswer`. Each is proved equal to a specification function, and the promised properties are lemmas about that function. The list comprehensions (`step_ids`, `steps`, the `type_map` selection) are functions.
- **Exceptions.** Raised exceptions are `Err` values of `Content.Result`.

Failures the code lets escape, which the model reports as errors:
- `build_user_state_data` does not catch a child that `runtime.get_block` cannot resolve. A missing child therefore makes the whole projection fail (`UserState.MissingChildFails`).
- `transform_student_results` raises on a `student_results` value it cannot take apart (`MalformedResults`). For example, an entry that is not a (name, dictionary) pair, or a choice that is not a dictionary, raises, because `delete_key` only catches KeyError.
- The source-block lookup of `export_data` has two failures:
  - An empty result of `get_items(...)[0]` is an IndexError (`NoBlockWithName`). It is not turned into the "Could not find the specified Block ID." ValueError.
  - Only a `None` result gives that ValueError (`BlockIdNotFound`).
- An unknown class name in `block_types` is a KeyError from `type_map` (`UnknownBlockType`).
- A choice that `modulestore().get_item` cannot find in `_get_answer` raises, and this ends the export.

## Model

| member | source | states |
|---|---|---|
| Keys.NormalizeId | problem_builder/mixins.py:21-30 | the result carries no branch and no version, keeps block type and name, and supports exactly the qualifiers the key supports |
| Keys.NormalizeFixesNormalized | problem_builder/mixins.py:21-30 | a key without branch and version (in particular one supporting neither) is returned unchanged |
| Keys.NormalizeIdempotent | problem_builder/mixins.py:21-30 | normalising twice equals normalising once |
| Keys.NormalizeEqual | problem_builder/mixins.py:21-30 | two keys normalise alike iff they differ at most in their branch and version values |
| Steps.StepIds | problem_builder/mixins.py:87-94 | the step list is no longer than the child list and every entry is normalised |
| Steps.StepIdsMembers | problem_builder/mixins.py:87-94 | an id is a step id iff some question child normalises to it |
| Steps.StepIdsAppend | problem_builder/mixins.py:87-94 | child order is kept: appending a child appends its normalised id exactly when it is a question; the length is the number of question children |
| Steps.Steps | problem_builder/mixins.py:96-99 | succeeds iff every step id resolves; then the result has the ids' length and order, block i being the block of id i; otherwise the error names a step id the runtime lacks |
| Steps.IndexOf | problem_builder/mixins.py:61 | `list.index`: None iff absent, otherwise the first position holding the element |
| Steps.StepNumber | problem_builder/mixins.py:59-61 | ValueError iff the normalised id is not among the siblings; otherwise a number in 1..len(siblings) whose sibling is the normalised id, with no earlier occurrence |
| Steps.StepNumberOfKth | problem_builder/mixins.py:59-61 | with distinct normalised siblings, the k-th sibling's number is k |
| Steps.StepNumberInjective | problem_builder/mixins.py:59-61 | steps with different normalised ids get different numbers |
| Steps.LonelyChild | problem_builder/mixins.py:63-68 | ValueError iff the normalised id is not among the siblings; otherwise true iff there is exactly one sibling, which is then the child itself |
| Steps.DisplayNameWithDefault | problem_builder/mixins.py:70-79 | an author's title is returned as it is; it fails iff there is no title and the child is not among its siblings, with ValueError; a default title begins with "Question" |
| Steps.DisplayNameCases | problem_builder/mixins.py:70-79 | an author's title is returned with no membership check; otherwise a missing child raises, a lonely step gets "Question", any other step "Question n" with n its step number |
| Steps.DefaultTitleOfKth | problem_builder/mixins.py:70-79 | with several distinct steps, the k-th step's default title is "Question k" |
| Steps.NumberedTitleInjective | problem_builder/mixins.py:76-78 | "Question m" and "Question n" differ for different m and n |
| Steps.DefaultTitlesDistinct | problem_builder/mixins.py:70-79 | no two steps of a parent share a default title |
| Text.Lower | problem_builder/tasks.py:120 | `lower()` keeps the length and lower-cases each character |
| Text.ContainsOccurs | problem_builder/tasks.py:120 | the left-to-right search `Contains` for `needle in hay` holds iff some window of `hay` equals `needle` |
| Text.EmptyOccurs | problem_builder/tasks.py:120 | the empty string occurs in every answer |
| Text.NatToStringInjective | problem_builder/mixins.py:76-78 | the decimal rendering of the step number is injective |
| Messages.GetMessageContent | problem_builder/mixins.py:107-120 | the search loop with early return computes `MessageContent`: the found content through the hook, else the `<p>`-wrapped default or None, with the lookup errors |
| Messages.SearchFinds | problem_builder/mixins.py:109-116 | a matching message child preceded only by passed-over children is the one found (first match in child order wins) |
| Messages.SearchFound | problem_builder/mixins.py:109-116 | found content always comes from a matching child preceded only by passed-over children |
| Messages.SearchNone | problem_builder/mixins.py:109-116 | nothing is found iff every child is passed over |
| Messages.MessageContentCases | problem_builder/mixins.py:113-120 | found content goes through `replace_jump_to_id_urls` only when the hook exists; with no match, `or_default` gives `<p>default</p>`, otherwise None |
| Messages.JumpToIdUrlsRewritten | problem_builder/tests/unit/test_problem_builder.py:313-330 | one "bogus" message with content "test" and the rewriting hook give "replaced-url" |
| UserState.DeleteKey | problem_builder/mixins.py:265-273 | the key is gone, every other key keeps its value, and an absent key is no failure |
| UserState.StripChoice | problem_builder/mixins.py:260 | a dictionary choice loses its tips and nothing else; any other choice raises, as `del` does |
| UserState.StripChoices | problem_builder/mixins.py:259-260 | succeeds iff the choices are a list of dictionaries or a value with nothing to iterate; a list keeps its length and order, each choice stripped; any other value is unchanged |
| UserState.StripResult | problem_builder/mixins.py:258-261 | succeeds iff its choices (when present) can be stripped; then the result loses its tips, its choices are the stripped choices, every other key keeps its value |
| UserState.StripEntry | problem_builder/mixins.py:258-261 | succeeds iff the entry unpacks into a name and a dictionary whose results can be stripped; then it is tips-free, keeps its name and exactly the other keys of its results, each other key with its value, and its choices are the stripped choices |
| UserState.StripAll | problem_builder/mixins.py:254-263 | succeeds iff every entry of the list can be stripped, or the value has nothing to iterate; then the list keeps its length and order, entry i being entry i stripped, and each is tips-free |
| UserState.StripResultLoop | problem_builder/mixins.py:259-261 | the loop over one entry's choices, deleting each choice's tips and stopping at the first choice that raises, followed by the deletion of the entry's own tips, computes `StripResult` |
| UserState.TransformStudentResults | problem_builder/mixins.py:254-263 | the entry loop, unpacking each entry and running the choices loop on it, stopping at the first entry that raises, computes `StripAll` |
| UserState.StripAllKeepsOthers | problem_builder/mixins.py:254-263 | the transform removes tips and nothing else: in every entry, a value at a key other than `tips` and `choices` is kept unchanged |
| UserState.Transformed | problem_builder/mixins.py:216-217 | a name without a registered transform keeps its value (the identity default of `transforms.get`); a transformed list keeps its length and every entry is tips-free |
| UserState.SelectedFields | problem_builder/mixins.py:212-218 | fails iff some selected field's transform raises; otherwise a field is in the result iff its scope is in `INCLUDE_SCOPES` and its name in `USER_STATE_FIELDS`, and its value is its transform applied to the field's value, the value itself when it has no transform |
| UserState.StateFields | problem_builder/mixins.py:212-218 | the field loop, calling `TransformStudentResults` where a transform is registered and stopping at the first that raises, computes `SelectedFields` |
| UserState.BuildUserStateData | problem_builder/mixins.py:206-229 | the two loops compute `Project`: the selected fields through `transform_student_results` where it is registered, and for a class with children the children's projections; the first error raised is the outcome |
| UserState.ComponentsErrorSticks | problem_builder/mixins.py:221-225 | the first child that fails ends the projection with its error |
| UserState.ComponentsShape | problem_builder/mixins.py:220-227 | the components fail iff a child is missing or fails; otherwise their keys are exactly the ids of children having the method, each holding the projection of the last such child with that id |
| UserState.ComponentsOk | problem_builder/mixins.py:221-225 | the components are computed iff every child resolves and every child having the method projects |
| UserState.ComponentsKeys | problem_builder/mixins.py:221-225 | the keys of the components are exactly the ids of the children having the method |
| UserState.ComponentsLastWins | problem_builder/mixins.py:221-225 | a child having the method, with no later such child of the same id, leaves its own projection under its id |
| UserState.MissingChildFails | problem_builder/mixins.py:222-223 | a child the runtime cannot resolve makes the projection of a parent with children fail |
| Export.SelectTypes | problem_builder/tasks.py:45-50 | succeeds iff every name is a known class; no names select all three classes, otherwise exactly the named ones; a failure names an unknown name |
| Export.NamedTypes | problem_builder/tasks.py:50 | the named classes, failing on an unknown name |
| Export.Collector.constructor | problem_builder/tasks.py:53 | the collected list starts empty |
| Export.Collector.ScanForBlocks | problem_builder/tasks.py:55-67 | appends to `blocks_to_include` exactly what `Scan` collects: a selected block and not its descendants, the children of an unselected block with children in order, nothing for a missing child |
| Export.ScanAllAppend | problem_builder/tasks.py:60-62 | children are scanned in order: scanning two runs of children is scanning each in turn |
| Export.ScanSkipsMissing | problem_builder/tasks.py:59-65 | a child that cannot be found changes nothing; its siblings are still scanned |
| Export.ScanSound | problem_builder/tasks.py:55-67 | every collected block is selected and is a block of the tree; no more blocks than the tree holds |
| Export.ScanAllSound | problem_builder/tasks.py:59-65 | the same for a list of children |
| Export.Lineage | problem_builder/tasks.py:42-43 | the lineage starts at the block; a returned block counts as the parent when its key equals the parent key up to branch and version; a call past the chain's end (or a block with some other key) is ItemNotFound |
| Export.LineageLinks | problem_builder/tasks.py:42-43 | each block of the lineage is what `get_parent()` returned for the one before, and its key equals that block's parent key up to branch and version; a lineage that does not reach a parentless block stops at a `get_parent()` that returned None; it takes at most one block more than the calls offer |
| Export.FindRoot | problem_builder/tasks.py:39-43 | the ascent succeeds iff the lineage exists and reaches a parentless block, which it returns; a broken link is the lineage's ItemNotFound, a None from `get_parent()` the AttributeError of the next `.parent` |
| Export.LastNameIsOutermost | problem_builder/tasks.py:134-141 | the name recorded for a type is that of its outermost block in the lineage; an absent type records nothing |
| Export.WalkRecordsLineage | problem_builder/tasks.py:132-137 | the walk visits exactly the lineage, ending normally at a None parent, later visits overwriting earlier ones |
| Export.LastNameCons | problem_builder/tasks.py:134-137 | a block below the rest of the lineage only counts for a type the rest lacks |
| Export.WalkContext | problem_builder/tasks.py:138-141 | the three columns read off a finished walk are the lineage's outermost chapter, sequential and vertical names |
| Export.GetContext | problem_builder/tasks.py:128-141 | succeeds iff the lineage exists, also when `get_parent()` returns None before the root; then section, subsection and unit are the outermost chapter, sequential and vertical names, `''` when absent |
| Export.GetAnswer | problem_builder/tasks.py:180-195 | the choice loop with `break` computes `AnswerOf` |
| Export.ChoiceAnswerCases | problem_builder/tasks.py:190-195 | the first choice whose value is the raw answer gives its content; if none matches, the raw answer is kept |
| Export.UserOf | problem_builder/tasks.py:171-177 | the username of the submission's `student_id`, or of the export's user when the submission has none |
| Export.Keep | problem_builder/tasks.py:120 | `match_string.lower() in answer.lower()` holds iff some window of the lower-cased answer equals the lower-cased match string; the empty match string keeps every answer |
| Export.SubmissionsFor | problem_builder/tasks.py:151-168 | for one user at most one submission is fetched |
| Export.Answers | problem_builder/tasks.py:115-117 | succeeds iff `_get_answer` succeeds on every submission; then answer i is `_get_answer` of submission i |
| Export.AnswersErrorSticks | problem_builder/tasks.py:115-117 | the first failing answer ends the extraction |
| Export.AnswersFirstError | problem_builder/tasks.py:115-117 | a failed extraction fails with the error of the first submission whose `_get_answer` raises, every earlier one succeeding |
| Export.RowsOfPrefix | problem_builder/tasks.py:115-123 | the rows of the first n submissions depend only on the first n answers |
| Export.KeptIndicesOrdered | problem_builder/tasks.py:114-121 | the positions the filter keeps are strictly increasing and below the number of submissions; when every answer passes, all are kept |
| Export.KeptIndicesMembers | problem_builder/tasks.py:114-121 | a position is kept iff its answer passes the filter |
| Export.RowsAtKept | problem_builder/tasks.py:114-123 | there is one row per kept position, row k built from the k-th kept submission's answer and username |
| Export.RowsOfFilter | problem_builder/tasks.py:114-123 | row k is the row of the k-th kept submission, built from its answer and username; the kept positions are strictly increasing, so rows follow submission order and there is one row per kept answer; an empty match string keeps every submission |
| Export.RowsHaveSevenFields | problem_builder/tasks.py:123 | every row of a block has the seven columns of the header |
| Export.CatNotDog | problem_builder/tasks.py:120-123 | of the answers "cat" and "dog", the filter "a" keeps only the row of "cat" |
| Export.ExtractData | problem_builder/tasks.py:95-125 | computes `ExtractRows`: the context, then one row per kept submission |
| Export.SubmissionRows | problem_builder/tasks.py:114-123 | the submission loop computes the rows `RowsOf` builds from the answers, or the first failing answer's error |
| Export.Preview | problem_builder/tasks.py:91 | the preview leaves out the header, starts at the first data row and has min(data rows, 1000) entries |
| Export.SourceBlock | problem_builder/tasks.py:30-36 | an empty lookup is an IndexError, a None result the "Could not find" ValueError, otherwise the found block |
| Export.StartBlock | problem_builder/tasks.py:39-43 | without `get_root` the start is the source block; with it, the ascent succeeds iff the source block's lineage exists and reaches a parentless block, the last block of that lineage, which it returns; otherwise the lineage's ItemNotFound, or the AttributeError of a None from `get_parent()` |
| Export.BlockRowsErrorSticks | problem_builder/tasks.py:74-76 | the first block whose extraction fails ends the export |
| Export.ExtractRowsSevenFields | problem_builder/tasks.py:123 | every row `_extract_data` returns for a block has seven fields |
| Export.BlockRowsSevenFields | problem_builder/tasks.py:74-76 | when each block's rows have seven fields, so do all the concatenated data rows |
| Export.BlockRowsOk | problem_builder/tasks.py:74-76 | the rows are produced iff every collected block's extraction succeeds |
| Export.BlockRowsPrefix | problem_builder/tasks.py:74-76 | rows are in scan order: the rows of the first m blocks are a prefix of those of the first n |
| Export.AppendBlockRows | problem_builder/tasks.py:74-76 | one pass appends the block's rows, or its error is the outcome of the whole loop |
| Export.CollectRows | problem_builder/tasks.py:74-76 | the loop over the collected blocks computes `BlockRows` |
| Export.StartOf | problem_builder/tasks.py:30-43 | the lookup and ascent compute `StartBlock` of `SourceBlock` |
| Export.ExportData | problem_builder/tasks.py:22-92 | the whole job computes `Export`: rows and preview, or the error raised |
| Export.ExportShape | problem_builder/tasks.py:69-91 | the rows begin with the header, every row has seven fields, the preview leaves out the header and has at most 1000 rows |
| Export.ExportLookupErrors | problem_builder/tasks.py:30-50 | a failed source lookup is reported as its error; an unknown type name fails the export |

## Left out

- Celery and logging are left out: the `@task` decorator, the logger, `time.time()`, the `strftime` file name, `start_timestamp` and `generation_time_s`. They are clocks, floats and framework plumbing.
- `ReportStore.store_rows` is left out. It is an external service, and the model returns the rows it would store.
- `CourseKey.from_string` and `unicode(course_key)` are left out. The course is a string, and an InvalidKeyError from parsing it is not modelled.
- `student_view_user_state` is left out. It is JSON serialisation and the HTTP response.
- Views, translation and field declarations are left out. Translation is the identity, so the caption is "Question".
- The feedback decision, progress events, theming and options live in `mentoring.py`. `mentoring.py` is not part of this model.
- Text.Lower: only ASCII letters are lower-cased. Python's `lower()` covers all of Unicode.
- UserState.BuildUserStateData: components are keyed by the child's key, not by `str(child_id)`. Two keys with the same string form are kept apart.
- UserState.BuildUserStateData: `components` is a separate part of the projection. A user-state field that is itself named "components" would be overwritten in Python, and the model keeps it.
- UserState.TransformStudentResults: works on values, so the in-place mutation of the `student_results` list and its dictionaries is not captured, and neither is aliasing. In particular, the entries Python has already stripped when a later entry raises stay stripped in the block's field; the model only returns the error.
- UserState.StripAll: `MalformedResults` stands for the TypeError, ValueError or AttributeError Python raises on a malformed `student_results` value; the model does not tell them apart.
- Export.UserOf: the username lookup is an oracle. A failure of `user_by_anonymous_id` is not modelled.
- Export.Lineage: `get_parent()` is modelled by a finite sequence of what its calls return. A cycle of parents, on which Python's loops would not end, becomes an ItemNotFound once the sequence runs out. The same sequence could hold a block whose key is not the parent key, even up to branch and version; `runtime.get_block` never returns one, so the model reads it as that call's ItemNotFoundError.
- Export.GetContext: a structural block's `display_name_with_default` is taken as its `displayName`. A question's own default title is not evaluated during the walk.
- Export.GetAnswer: "the block has no `children` attribute" is read from the block type's class (`hasChildren`).
- Export.SubmissionsFor: the submission API is an oracle. Only `limit=1` is imposed on it.
