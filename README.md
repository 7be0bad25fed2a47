# fmriprep-denoise-benchmark: a verified model of the denoising-evaluation engine

This project models, in Dafny, the part of fmriprep-denoise-benchmark that decides what
each denoising strategy costs and how its connectivity metrics are assembled:

- **Regressor selection and confound loading** (`Confounds`): which confound columns a
  strategy selects (simple, scrubbing, compcor, ICA-AROMA, baseline, or an explicit
  `"strategy"` list), the TSV loader with its all-True sample mask, the parse of BIDS
  confounds file names, and the dispatch of `get_confounds` between nilearn and the loader.
- **Degrees-of-freedom accounting** (`Dof`): the script's confounds-only fetch, its
  movement summary, and the per-subject, per-strategy counts of CompCor, AROMA, scrub and
  fixed regressors, excised volumes, their proportion and the total.
- **Strategy lookup, subject discovery and the movement summary** (`Fmriprep`,
  `Config`): the strategy registry, the selection of subject directories, the files each
  subject must have, mean framewise displacement per subject, the gender recoding, and
  the inner join with the phenotype.
- **Time-series alignment and connectome reconciliation** (`Derivatives`): the QC preset
  lookup, the per-participant skip/fail/load rule, and the restriction of the connectome
  and the phenotype to the participants they share.
- **Metric assembly and merge** (`Features`): selecting a strategy by index, the metric
  option dispatch, the QC-FC column labelling per group, the canonical column order of
  one- and two-level tables, and the replace-on-overlap merge into an earlier table.
- **QC-FC edge indexing** (`Qcfc`): the lower-triangle edge list, the subjects-by-edges
  array filled row by row, the error checks, the degrees of freedom, the clip of the
  correlation, and `significant_level` without correction.

`wrappers.dfy` (Option, Result, the error kinds, a float that may be NaN), `strings.dfy`
(split, join, prefix and suffix tests, Python's string order, reading decimal text as a number) and `seqs.dfy` (filter,
subsequence, distinctness) are shared helpers.

File-system state, file contents and library calls are inputs: a `FileSystem` of existing
directories and files, tables given as column names and row counts, and function-typed
parameters for nilearn's loaders and correlation, Louvain modularity, the QC-FC
statistics, the descriptive-data reader and the multiple-testing procedure. Loops that
append or update in place are methods proved equal to a fold function; the properties
are lemmas about those functions. The QC-FC edge array is an `array2` filled by a nested
loop.

Where the two copies of a routine differ, both are modelled: `fetch_fmriprep_derivative`
in the dataset module requires a BOLD image and a confounds file, while the
degrees-of-freedom script's copy requires only the confounds file. The dataset module's
movement summary recodes gender with `.loc` (other values kept) and fails on an
unreadable file, while the script's copy uses `.map` (other values become missing) and
skips unreadable files.

`get_confounds`, for an input that is neither a `.tsv` nor an AROMA strategy, passes
`denoise_strategy` both by name and inside `**parameters`. The model returns the
resulting TypeError whenever the parameters hold that key. The script only ever passes
`.tsv` files, so this branch is not reached from its `main`.

## Model

| member | source | states |
|---|---|---|
| Fmriprep.GetPreproStrategy | fmriprep_denoise/dataset/fmriprep.py:156-172 | An unreadable strategies file is FileNotFoundError; no name gives the whole registry; a known name gives a one-entry registry with that strategy's parameters; an unknown name is NotImplementedError naming it, and the result is Ok exactly when the name is known. |
| Fmriprep.SelectSubjectDirs | fmriprep_denoise/dataset/fmriprep.py:98-109 | The loop over a subject list agrees with the selection function; for a list, a directory is kept exactly when it is `sub-{s}` for a listed `s` and exists, and the kept ones come in list order. |
| Fmriprep.LocRows | fmriprep_denoise/dataset/fmriprep.py:152 | `.loc` of the included subjects is a KeyError exactly when some label is not in the participants index; otherwise it gives their rows in inclusion order. |
| Fmriprep.CollectDerivativeFiles | fmriprep_denoise/dataset/fmriprep.py:132-145 | A subject is kept exactly when both its preprocessed BOLD image and its confounds file exist, in directory order, and the image, confounds and subject lists stay index-aligned. |
| Fmriprep.FetchFmriprepDerivative | fmriprep_denoise/dataset/fmriprep.py:85-153 | A participants path that is not a file or not named `participants.tsv` is FileNotFoundError; an unsupported selector is ValueError; otherwise the kept subjects are the complete ones, with aligned image and confounds paths, and `phenotypic` holds their participant rows in the same order (KeyError when one is not a participant). |
| Fmriprep.SetFd | fmriprep_denoise/dataset/fmriprep.py:208 | Writing a subject's mean FD overwrites its row if it has one and appends a row otherwise; no other subject's value changes and the table stays well-formed. |
| Fmriprep.FdFold | fmriprep_denoise/dataset/fmriprep.py:200-210 | The FD loop keeps the FD table well-formed: distinct subjects, each with exactly one value. |
| Fmriprep.FdFoldRows | fmriprep_denoise/features/calculate_degrees_of_freedom_test_noboldpreproc_aromafix.py:342-356 | The tolerant FD loop of the degrees-of-freedom script never fails, and a subject has a row exactly when it had one before or one of its confounds files gave a mean FD. |
| Fmriprep.CollectMeanFd | fmriprep_denoise/dataset/fmriprep.py:192-210 | The FD loop, starting from an empty table, gives the fold over the confounds files and a well-formed table. |
| Fmriprep.FdFoldStrict | fmriprep_denoise/dataset/fmriprep.py:200-210 | The strict FD loop of fmriprep.py fails exactly when some confounds file cannot be read, and otherwise gives the same table as the tolerant loop. |
| Fmriprep.SelectCovariates | fmriprep_denoise/dataset/fmriprep.py:215-218 | Selecting and renaming the phenotype columns succeeds exactly when the dataset is known and its three columns exist; the age, gender and group columns are then the participants' cells, row by row. |
| Fmriprep.RecodeGenderLoc | fmriprep_denoise/dataset/fmriprep.py:219-220 | "F" becomes 1, "M" becomes 0, and every other value is left as it is. |
| Strings.ParseReal | fmriprep_denoise/dataset/fmriprep.py:221-222 | `float` of text succeeds exactly when the text is an optional sign followed by digits and points, with at most one point and at least one digit; a number without a leading minus is non-negative. |
| Strings.ParseNatToString | fmriprep_denoise/dataset/fmriprep.py:221-222 | Printing a whole number and reading it back, with or without a minus sign, gives the number. |
| Strings.ParseDecimalPoint | fmriprep_denoise/dataset/fmriprep.py:221-222 | Whole digits, a point and fraction digits read as the whole value plus the fraction digits' value over ten to their count. |
| Strings.ParseFraction | fmriprep_denoise/dataset/fmriprep.py:221-222 | A printed whole number followed by a point and fraction digits reads back as that number plus the scaled fraction. |
| Fmriprep.CastColumn | fmriprep_denoise/dataset/fmriprep.py:221-222 | The float cast fails exactly when some cell is text that is not a decimal number; otherwise each cell is cast in place, numeric text to its value and a missing cell to NaN. |
| Fmriprep.CastCovariates | fmriprep_denoise/dataset/fmriprep.py:221-222 | The covariates cast succeeds exactly when both the recoded gender and the age columns cast, and then holds both cast columns with the groups unchanged. |
| Fmriprep.GenderCastLoc | fmriprep_denoise/dataset/fmriprep.py:219-221 | After the `.loc` recoding the gender cast fails exactly when some gender is text other than "F", "M" or a decimal number; otherwise "F" becomes 1, "M" becomes 0 and every other cell casts as it is. |
| Fmriprep.GenderCastMixed | fmriprep_denoise/dataset/fmriprep.py:219-221 | A gender column holding "F" and the text "0" casts to 1 and 0 rather than failing. |
| Fmriprep.InnerJoinRows | fmriprep_denoise/dataset/fmriprep.py:224 | The inner join keeps exactly the FD-table subjects that have a phenotype row, in FD order, and each row carries that subject's mean FD and its phenotype values. |
| Fmriprep.GenerateMovementSummary | fmriprep_denoise/dataset/fmriprep.py:175-226 | The movement summary is the FD loop, the covariate selection, the `.loc` recoding, the casts and the inner join, composed in that order. |
| Fmriprep.MovementSummaryFails | fmriprep_denoise/dataset/fmriprep.py:200-226 | The summary fails exactly when a confounds file is unreadable, the dataset or one of its columns is unknown, or a gender or an age cannot be cast. |
| Fmriprep.MovementSummaryRows | fmriprep_denoise/dataset/fmriprep.py:200-226 | A successful summary lists the FD-table subjects that have a phenotype row, in FD order, each with its mean FD, its age cast, its gender recoded and cast, and its group. |
| Confounds.Take | fmriprep_denoise/features/calculate_degrees_of_freedom_test_noboldpreproc_aromafix.py:74 | `s[:n]` is the prefix of length min(n, |s|). |
| Confounds.OverrideItems | fmriprep_denoise/features/calculate_degrees_of_freedom_test_noboldpreproc_aromafix.py:102 | Iterating the `"strategy"` value fails exactly when it is neither text nor a list. |
| Confounds.OverrideOfNames | fmriprep_denoise/features/calculate_degrees_of_freedom_test_noboldpreproc_aromafix.py:100-109 | An override list of names keeps exactly the names that are table columns other than "high_pass", in list order, without raising. |
| Confounds.OverrideFails | fmriprep_denoise/features/calculate_degrees_of_freedom_test_noboldpreproc_aromafix.py:100-109 | The override loop fails exactly when some item is a list, which cannot be looked up in the columns. |
| Confounds.OverrideSound | fmriprep_denoise/features/calculate_degrees_of_freedom_test_noboldpreproc_aromafix.py:100-109 | Every name the override keeps is a column of the table and is never "high_pass". |
| Confounds.CompCorColumns | fmriprep_denoise/features/calculate_degrees_of_freedom_test_noboldpreproc_aromafix.py:72-74 | The compcor strategy selects the first min(5, present) `c_comp_cor_0*` columns of the table, in table order (a prefix of all of them), and reads no AROMA table. |
| Confounds.MotionColumns | fmriprep_denoise/features/calculate_degrees_of_freedom_test_noboldpreproc_aromafix.py:46-70 | The simple and scrubbing strategies select the table's motion columns in table order, then `white_matter` and `csf` when `wm_csf` is "basic" (whether or not the table has them), then `global_signal` exactly when it is asked for and present; they hand on no AROMA table. |
| Confounds.AromaColumns | fmriprep_denoise/features/calculate_degrees_of_freedom_test_noboldpreproc_aromafix.py:76-93 | The ICA-AROMA strategy selects `global_signal` first exactly when it is asked for and present, then `aroma_comp_{i}` for each column of the subject's AROMA table, and hands that table on. |
| Confounds.NoBaseColumns | fmriprep_denoise/features/calculate_degrees_of_freedom_test_noboldpreproc_aromafix.py:43-97 | The baseline strategy, and any strategy name the script does not know, selects nothing and hands on no AROMA table. |
| Confounds.OverrideStrategy | fmriprep_denoise/features/calculate_degrees_of_freedom_test_noboldpreproc_aromafix.py:99-116 | An explicit `"strategy"` fails exactly when it is neither text nor a list, or a list holding a list; otherwise it keeps only table columns other than "high_pass", and the ICA-AROMA strategy still hands on its AROMA table. |
| Confounds.ExpandStrategyColumns | fmriprep_denoise/features/calculate_degrees_of_freedom_test_noboldpreproc_aromafix.py:39-116 | The method that builds the selection by appending gives the selection function's result: columns per strategy, an explicit list overriding them, and the AROMA table kept. |
| Confounds.ParseConfoundsName | fmriprep_denoise/features/calculate_degrees_of_freedom_test_noboldpreproc_aromafix.py:166-167 | Parsing a confounds file name fails exactly when `desc-confounds` is not one of its `_` fields; the subject is the first field. |
| Confounds.SplitConfoundsFileName | fmriprep_denoise/features/calculate_degrees_of_freedom_test_noboldpreproc_aromafix.py:306 | The `_` fields of a built confounds file name are the subject, the specifier's fields, `desc-confounds` and `timeseries.tsv`. |
| Confounds.ParseConfoundsFileName | fmriprep_denoise/features/calculate_degrees_of_freedom_test_noboldpreproc_aromafix.py:125-126 | Parsing the name the fetch builds gives back its subject and specifier (a round trip), provided the subject has no `_` and the specifier no `desc-confounds` field. |
| Confounds.LoadConfoundsFromTsv | fmriprep_denoise/features/calculate_degrees_of_freedom_test_noboldpreproc_aromafix.py:118-158 | The TSV loader gives the reduced table and the all-True mask, or the error of a file that cannot be read or a name that cannot be parsed. |
| Confounds.TsvConfoundsShape | fmriprep_denoise/features/calculate_degrees_of_freedom_test_noboldpreproc_aromafix.py:118-158 | The TSV loader keeps the file's rows and a mask keeping every volume; its columns are the selected names the file has, in selection order, followed by the AROMA table's own columns when the ICA-AROMA strategy read a table with the file's row count (never a placeholder name); with nothing selected and no AROMA table it has no columns. |
| Confounds.LexMin | fmriprep_denoise/features/calculate_degrees_of_freedom_test_noboldpreproc_aromafix.py:169-174 | `sorted(candidates)[0]` is a candidate no other candidate precedes lexicographically. |
| Confounds.ScrubStrategy | fmriprep_denoise/features/calculate_degrees_of_freedom_test_noboldpreproc_aromafix.py:178-183 | The scrubbing strategy tuple ends in "scrub", holds "motion" exactly when the parameters ask for motion or scrubbing, and "global_signal" exactly when they ask for it. |
| Confounds.GetConfounds | fmriprep_denoise/features/calculate_degrees_of_freedom_test_noboldpreproc_aromafix.py:160-204 | The dispatch of `get_confounds`, written as its sequence of returns, agrees with the dispatch function. |
| Confounds.TsvDispatch | fmriprep_denoise/features/calculate_degrees_of_freedom_test_noboldpreproc_aromafix.py:163-197 | A confounds file goes to the TSV loader unless the strategy scrubs and a BOLD image matches; then nilearn loads the lexicographically first matching image, with the scrubbing strategy tuple built from the parameters (motion and global_signal by the rules, then "scrub") and the parameters restricted to the five scrubbing keys. |
| Dof.CollectConfoundsFiles | fmriprep_denoise/features/calculate_degrees_of_freedom_test_noboldpreproc_aromafix.py:300-313 | The subject loop keeps a subject exactly when its confounds file exists, in directory order, with the confounds path list aligned to it. |
| Dof.FetchConfoundsDerivative | fmriprep_denoise/features/calculate_degrees_of_freedom_test_noboldpreproc_aromafix.py:280-320 | The same participants-file and selector errors as the dataset module; otherwise the subjects with a confounds file, their paths and their participant rows, index-aligned, or KeyError for a subject that is not a participant. |
| Dof.SubjectOfConfoundsPath | fmriprep_denoise/features/calculate_degrees_of_freedom_test_noboldpreproc_aromafix.py:343 | The subject label read back from a fetched confounds path is the subject directory name, when neither it nor the specifier holds `_` or `/`. |
| Dof.RecodeGenderMap | fmriprep_denoise/features/calculate_degrees_of_freedom_test_noboldpreproc_aromafix.py:366-368 | The `.map` recoding applies only to a column holding text; then "M" becomes 0, "F" becomes 1 and every other cell, numbers included, becomes missing; a column without text is left unchanged. |
| Dof.GenderCastMap | fmriprep_denoise/features/calculate_degrees_of_freedom_test_noboldpreproc_aromafix.py:366-369 | After the `.map` recoding the gender cast never fails; on a text column "M" becomes 0, "F" becomes 1 and every other value becomes missing. |
| Dof.MovementSummaryDofErrors | fmriprep_denoise/features/calculate_degrees_of_freedom_test_noboldpreproc_aromafix.py:358-372 | The script's movement summary fails exactly when the dataset is unknown, a phenotype column is missing, or some age is text that is not a decimal number; unreadable files and non-numeric genders never make it fail. |
| Dof.GenerateMovementSummaryDof | fmriprep_denoise/features/calculate_degrees_of_freedom_test_noboldpreproc_aromafix.py:323-373 | The script's movement summary, with its tolerant FD loop, gives the composed summary function's result. |
| Dof.DofAccounting | fmriprep_denoise/features/calculate_degrees_of_freedom_test_noboldpreproc_aromafix.py:434-468 | CompCor, AROMA and scrub counts are the matching regressors; fixed regressors plus CompCor plus AROMA is all regressors; the total adds the excised volumes only for a strategy whose name contains "scrub"; the proportion is excised over full length, 0 for an empty table; high-pass is 0. |
| Dof.ExcisedVolumeCases | fmriprep_denoise/features/calculate_degrees_of_freedom_test_noboldpreproc_aromafix.py:442-447 | No mask excises nothing; a non-empty boolean mask excises its False flags, at most the run length and the run length less the kept volumes; an index list or an empty list excises the volumes it does not list. |
| Dof.MaskFormsAgree | fmriprep_denoise/features/calculate_degrees_of_freedom_test_noboldpreproc_aromafix.py:442-447 | A boolean mask and the list of positions it keeps excise the same number of volumes, and that list holds exactly the kept positions. |
| Dof.TsvExcisesNothing | fmriprep_denoise/features/calculate_degrees_of_freedom_test_noboldpreproc_aromafix.py:442-457 | A table from the TSV loader excises no volume, so its proportion is 0 and its total is its number of regressors. |
| Dof.FullMaskExcisesNothing | fmriprep_denoise/features/calculate_degrees_of_freedom_test_noboldpreproc_aromafix.py:444-445 | A boolean mask keeping every volume excises nothing. |
| Dof.CompCorCount | fmriprep_denoise/features/calculate_degrees_of_freedom_test_noboldpreproc_aromafix.py:438 | Under the compcor strategy, the TSV loader's table counts min(5, present) CompCor regressors. |
| Dof.Record | fmriprep_denoise/features/calculate_degrees_of_freedom_test_noboldpreproc_aromafix.py:471-474 | Recording a subject's stats for a strategy sets that one entry, keeps the subject's other strategies and every other subject unchanged, and adds the subject if it was new. |
| Dof.FileFoldEntries | fmriprep_denoise/features/calculate_degrees_of_freedom_test_noboldpreproc_aromafix.py:428-474 | One strategy's pass keeps every earlier entry, changes no other strategy's value, gives every file's subject an entry for the strategy, and adds no other subject. |
| Dof.StrategyFoldCovers | fmriprep_denoise/features/calculate_degrees_of_freedom_test_noboldpreproc_aromafix.py:424-474 | After the outer loop every strategy has an entry for the subject of each file it read, and earlier entries stay. |
| Dof.AccountStrategy | fmriprep_denoise/features/calculate_degrees_of_freedom_test_noboldpreproc_aromafix.py:428-474 | The inner loop, updating the per-subject dictionary in place, gives the fold over the strategy's files. |
| Dof.ComputeDof | fmriprep_denoise/features/calculate_degrees_of_freedom_test_noboldpreproc_aromafix.py:423-474 | The outer loop over the registry gives the fold over its strategies, from an empty dictionary. |
| Dof.RunCovers | fmriprep_denoise/features/calculate_degrees_of_freedom_test_noboldpreproc_aromafix.py:423-474 | After the accounting, the subject of every fetched confounds file has an entry for every strategy. |
| Dof.RunCoversSubjects | fmriprep_denoise/features/calculate_degrees_of_freedom_test_noboldpreproc_aromafix.py:408-474 | After the accounting, every fetched subject with a plain label has an entry for every strategy. |
| Dof.RunDof | fmriprep_denoise/features/calculate_degrees_of_freedom_test_noboldpreproc_aromafix.py:391-478 | The script's main: a bad participants path is FileNotFoundError and an unreadable strategies file an error; the run succeeds exactly when fetch, movement summary and accounting all succeed, and then its data is the fetch of the subjects with a confounds file (aligned paths and rows), its movement the script's summary of that data, its accounting the fold over the fetched files, with an entry for every fetched subject and strategy when the subject labels hold no '_' or '/' and the specifier no '/'. |
| Derivatives.GetQcCriteria | fmriprep_denoise/features/derivatives_test.py:17-48 | A missing presets file is FileNotFoundError; no name gives the three thresholds as None; a known name gives its preset; an unknown name is NotImplementedError, and the result is Ok exactly when the name is known. |
| Derivatives.SubjectOutcome | fmriprep_denoise/features/derivatives_test.py:155-172 | A participant can fail only with ValueError, and is loaded only when exactly one file matches. |
| Derivatives.LoadValidTimeseries | fmriprep_denoise/features/derivatives_test.py:152-173 | The participant loop, appending to the id and time-series lists, gives the fold over the participants. |
| Derivatives.ScanFails | fmriprep_denoise/features/derivatives_test.py:157-162 | The loader fails exactly when some participant fails, and then with ValueError. |
| Derivatives.ScanLoads | fmriprep_denoise/features/derivatives_test.py:154-173 | A successful load returns exactly the participants whose file loads, in participant order, each with its own time series. |
| Derivatives.SkippedParticipants | fmriprep_denoise/features/derivatives_test.py:163-172 | A participant left out had no matching file or a file of at most one byte; nobody is zero-filled. |
| Derivatives.Loc | fmriprep_denoise/features/derivatives_test.py:115-116 | `.loc` with labels that are all in the index has exactly those labels as its index and, for each, the first row with that label. |
| Derivatives.Intersection | fmriprep_denoise/features/derivatives_test.py:113 | The index intersection holds each label that is in both indexes, once, in the order of the first index. |
| Derivatives.ComputeConnectome | fmriprep_denoise/features/derivatives_test.py:91-119 | The connectome and phenotype frames it returns are well-formed (one row per index label). |
| Derivatives.LocEverything | fmriprep_denoise/features/derivatives_test.py:114-116 | Selecting every label of an index without repeats gives the frame back. |
| Derivatives.IntersectionOfSubsequence | fmriprep_denoise/features/derivatives_test.py:113 | Intersecting an ordered selection without repeats with the index it came from gives the selection back. |
| Derivatives.ConnectomeMatchesPhenotype | fmriprep_denoise/features/derivatives_test.py:94-119 | With a phenotype index without repeats, the returned connectome and phenotype share one index, the loaded participants in phenotype order, whether or not the row counts differed; the connectome rows are the correlations of their time series. |
| Derivatives.LoadFullRoiList | fmriprep_denoise/features/derivatives_test.py:175-182 | The region list is the second column of the atlas table, and KeyError for a table with fewer than two columns. |
| Features.SelectStrategyByIndex | fmriprep_denoise/features/build_features_test_parallelized.py:92-100 | An index outside the known strategies (the registry without "process all strategies.", compared in lower case) is ValueError; otherwise the one-entry registry of the strategy at that index. |
| Features.StrategyNamesOrdered | fmriprep_denoise/features/build_features_test_parallelized.py:146-168 | The strategies of a run are known ones, each once, in registry order, none of them the placeholder. |
| Features.KeyLeTotal | fmriprep_denoise/features/build_features_test_parallelized.py:155-158 | The two-level sort key `(group, rank, label)` is a total order. |
| Features.KeyLeTransitive | fmriprep_denoise/features/build_features_test_parallelized.py:155-158 | The two-level sort key order is transitive. |
| Features.Insert | fmriprep_denoise/features/build_features_test_parallelized.py:159 | Inserting a column into the sorted columns adds exactly that column. |
| Features.InsertSorted | fmriprep_denoise/features/build_features_test_parallelized.py:159 | Inserting a column keeps the columns sorted by the key. |
| Features.SortColumnsSpec | fmriprep_denoise/features/build_features_test_parallelized.py:153-159 | The sort is sorted by the key and is a permutation of the columns. |
| Features.OrderTwoLevel | fmriprep_denoise/features/build_features_test_parallelized.py:153-159 | A two-level table comes back sorted by `(group, rank, label)`, with the same columns and rows. |
| Features.OrderOneLevel | fmriprep_denoise/features/build_features_test_parallelized.py:160-162 | A one-level table is reordered exactly when it repeats no label; its columns are then the known strategies it has, in registry order, and columns of unknown strategies are dropped. |
| Features.JoinReplacingSpec | fmriprep_denoise/features/build_features_test_parallelized.py:319-324 | Before reordering, the merge holds every new column, the earlier columns whose label was not recomputed, and nothing else; its rows are those of both tables. |
| Features.MergeOneLevel | fmriprep_denoise/features/build_features_test_parallelized.py:314-328 | After a one-level merge a recomputed strategy's column holds the new values, a strategy not recomputed keeps its earlier column, and the rows are those of both tables. |
| Features.MergeTwoLevel | fmriprep_denoise/features/build_features_test_parallelized.py:314-328 | After a two-level merge the columns are the new ones plus the earlier ones not recomputed, in canonical order, over the rows of both tables. |
| Features.Thresholds | fmriprep_denoise/features/build_features_test_parallelized.py:201-203 | Reading the three thresholds from the QC preset fails, with KeyError, exactly when one of them is missing. |
| Features.GroupLabels | fmriprep_denoise/features/build_features_test_parallelized.py:273-276 | The group label of each phenotype row, in order, read from its `groups` cell. |
| Features.MembersSpec | fmriprep_denoise/features/build_features_test_parallelized.py:276-277 | A group's rows are exactly the phenotype rows labelled with that group. |
| Features.GroupTables | fmriprep_denoise/features/build_features_test_parallelized.py:275-287 | One table per group in order, each the relabelled QC-FC of that group's rows only. |
| Features.QcfcLabelling | fmriprep_denoise/features/build_features_test_parallelized.py:255-288 | The QC-FC tables of a strategy are the full sample first, then one per distinct group in order of first appearance, each two-level, labelled with its group, and computed on exactly that group's rows. |
| Features.QcfcTablesShape | fmriprep_denoise/features/build_features_test_parallelized.py:262-287 | Every QC-FC table has a two-level column index, and there is at least one. |
| Features.StrategyStep | fmriprep_denoise/features/build_features_test_parallelized.py:180-292 | A strategy without time-series files is skipped; an option other than connectome, modularity and qcfc is an error; under modularity, once thresholds and connectome succeed, the step is skipped exactly when the connectome has no rows or no columns and otherwise produces a table (`connectome.empty`, :222-225). |
| Features.StrategyStepTables | fmriprep_denoise/features/build_features_test_parallelized.py:208-292 | A strategy that is not skipped adds at least one table: two-level ones for QC-FC, otherwise one column named after the strategy; only the connectome option records the strategy as used. |
| Features.CollectMetrics | fmriprep_denoise/features/build_features_test_parallelized.py:177-292 | The strategy loop, appending tables and used names, gives the fold over the strategies. |
| Features.CollectConnectome | fmriprep_denoise/features/build_features_test_parallelized.py:208-214 | For connectomes every collected table is one column named after a strategy the loop records, in loop order. |
| Features.CollectConnectomeUsed | fmriprep_denoise/features/build_features_test_parallelized.py:180-212 | For connectomes the loop records exactly the strategies that have time-series files, in loop order. |
| Features.Assemble | fmriprep_denoise/features/build_features_test_parallelized.py:295-301 | Concatenating nothing is ValueError. |
| Features.ConnectomeRenameKeepsLabels | fmriprep_denoise/features/build_features_test_parallelized.py:295-301 | For connectomes the canonical order already lists the used strategies in loop order, so the renaming neither fails nor changes a label. |
| Features.RunBuildFeatures | fmriprep_denoise/features/build_features_test_parallelized.py:103-328 | The main function, with its strategy loop, gives the composed run: registry, strategies, QC preset, loop, assembly and merge. |
| Features.ConnectomeRun | fmriprep_denoise/features/build_features_test_parallelized.py:165-301 | A connectome run without an earlier table writes one column per strategy that had time series, in registry order: the recorded strategies are exactly those with time-series files. |
| Qcfc.TrilLength | fmriprep_denoise/features/quality_control_connectivity_vectorized.py:115-116 | There are n(n-1)/2 edges. |
| Qcfc.TrilIndex | fmriprep_denoise/features/quality_control_connectivity_vectorized.py:115 | Edge `(i, j)` sits at position i(i-1)/2 + j. |
| Qcfc.TrilPrefix | fmriprep_denoise/features/quality_control_connectivity_vectorized.py:115 | The edges of a smaller matrix come first, in the same order. |
| Qcfc.TrilMembers | fmriprep_denoise/features/quality_control_connectivity_vectorized.py:115 | The edges are exactly the pairs `j < i < n`. |
| Qcfc.TrilOrdered | fmriprep_denoise/features/quality_control_connectivity_vectorized.py:115 | The edges come in row-major order, each once. |
| Qcfc.EdgeValues | fmriprep_denoise/features/quality_control_connectivity_vectorized.py:125 | A matrix contributes one value per edge. |
| Qcfc.ExtractEdges | fmriprep_denoise/features/quality_control_connectivity_vectorized.py:118-125 | The subjects-by-edges array is fresh; the loop succeeds exactly when every matrix is n by n, and then row `s` holds matrix `s`'s entries at the edges. |
| Qcfc.Motion | fmriprep_denoise/features/quality_control_connectivity_vectorized.py:102-104 | Each subject's motion is its metadata value for the key, NaN when the key is missing. |
| Qcfc.Dof | fmriprep_denoise/features/quality_control_connectivity_vectorized.py:129-136 | The degrees of freedom are the subjects less the covariate columns and two when the design has entries, the subjects less two otherwise. |
| Qcfc.Clip | fmriprep_denoise/features/quality_control_connectivity_vectorized.py:144 | The correlation is clipped into [-1, 1]; a value inside is unchanged and NaN stays NaN. |
| Qcfc.CalculateQcfc | fmriprep_denoise/features/quality_control_connectivity_vectorized.py:71-158 | The method with the array loop gives the intended QC-FC function's result. |
| Qcfc.QcfcErrors | fmriprep_denoise/features/quality_control_connectivity_vectorized.py:95-124 | With the covariate regression taken as the total abstract statistics, QC-FC fails exactly when there is no matrix or some matrix is not square of the first one's size, and then with ValueError. |
| Qcfc.QcfcRows | fmriprep_denoise/features/quality_control_connectivity_vectorized.py:115-156 | The output has n(n-1)/2 rows, row `e` keyed by edge `e` of the lower triangle, and every correlation is NaN or within [-1, 1]. |
| Qcfc.CalculateQcfcAsWritten | fmriprep_denoise/features/quality_control_connectivity_vectorized.py:112-113 | As written every call fails; with at least one matrix it raises NameError at the node count. |
| Qcfc.AsWrittenRejectsValidInput | fmriprep_denoise/features/quality_control_connectivity_vectorized.py:113 | One subject with a 2 by 2 matrix: the code as written raises NameError, the intended code gives the single edge (1, 0). |
| Qcfc.SignificantLevel | fmriprep_denoise/features/quality_control_connectivity_vectorized.py:47-59 | Without a correction a value is significant exactly when it is a number below alpha (NaN never is). |
## Left out

- File and TSV I/O: globbing, `stat`, `read_csv`, `to_csv`, `sort_index`, logging and printing. Existence, listings, sizes and contents are inputs. Glob special characters in labels are not interpreted.
- `Path.parents[3]` and the AROMA path arithmetic: the subject's AROMA table (or its absence) is an input looked up by subject and specifier.
- Foreign library calls: nilearn `load_confounds`/`load_confounds_strategy` become a record of the call that would be made, while `ConnectivityMeasure`, `louvain_modularity`, `get_descriptive_data`, the QC-FC statistics and `multipletests` are function parameters.
- Floating-point statistics (z-scoring, least-squares residuals, Pearson r, Student-t p-values, means): abstract functions. Only the clip, the degrees of freedom and the NaN handling are modelled.
- The `patsy` design matrix of `calculate_qcfc`: only its shape enters the model; a formula that fails to build is not modelled.
- Concurrency and atomic output: the joblib pool, `fcntl` locking, the temporary file and `os.replace`. Only the pure merge is modelled.
- The `qcfc` called in the build step comes from a package `__init__` that is not part of this model, and its call shape does not match `calculate_qcfc`. The build step's QC-FC is therefore an abstract function, and the column selection inside it is not modelled.
- Derivatives.ComputeConnectome: its own contract states only well-formedness. The content is stated by ConnectomeMatchesPhenotype, which assumes the phenotype index repeats no label. With repeated labels pandas `.loc` returns every matching row, while the model returns the first.
- Derivatives.ComputeConnectome: the correlation is one function per subject; nilearn's behaviour on an empty list of time series is not modelled.
- Fmriprep.FdFold: its contract states only that the FD table stays well-formed. Which subjects get rows is stated by FdFoldRows for the tolerant pass of the degrees-of-freedom script, and FdFoldStrict ties the strict pass of fmriprep.py to it.
- Features.StrategyStep: its contract states the no-files skip, the unknown-option error and the modularity skip on an empty connectome. The tables it produces are stated by StrategyStepTables and QcfcLabelling.
- Features.GroupLabels: a non-text group label is a TypeError here; pandas would accept it and raise only later, if at all, when sorting mixed labels.
- Features.OrderColumns: a two-level table is modelled as a plain stable sort, even when it repeats a label. A one-level table with a repeated label is the ValueError of `reindex`.
- Features.Merge: whether the earlier table is two-level is taken from that table, which is how it was read back (two header rows for the qcfc option only).
- `metrics_to_run` and the `"all"` option: the loop dispatches on `metric_option` alone, so `"all"` falls into the ValueError branch, as modelled.
- Features.BuildFeatures: the region list read from `final_roi_labels.csv` is an input. `load_full_roi_list` is modelled, but it is not called by this `main`.
- Strings.ParseReal: numeric text is an optional sign, decimal digits and at most one point. Exponents (`1e3`), `nan`, `inf`, surrounding white space and digit-group underscores, which Python's `float` also reads, are treated as text that does not cast, and the value is an exact real rather than the nearest double.
- Qcfc.QcfcErrors: "exactly when" holds only with the covariate regression as a total abstract function. The regression itself is not modelled: `scipy.linalg.lstsq` takes a `cond` keyword, not `rcond` (quality_control_connectivity_vectorized.py:66); the z-score of patsy's constant intercept column divides zero by zero; and patsy drops rows with a missing age or gender, so the design need not have one row per subject. Any of these can make a call fail that the model lets succeed.
- Qcfc.QcfcSpec: for the same reason the correlations and p-values are those of the abstract statistics, not of the regression as the source writes it.
- Qcfc.SignificantLevel: with a correction method the result is whatever the abstract procedure returns; nothing is stated about it.
- Strings.Lower: only ASCII letters are lower-cased, while Python's `str.lower()` also folds other Unicode letters. The names and suffixes it is compared with are ASCII.
- Config.Json: a JSON object cannot be a parameter value, so a `"strategy"` override given as an object, whose keys Python would iterate, is not modelled.
- Fmriprep.FdRead: the mean FD is a real number. An FD column whose every value is missing has a NaN mean in pandas, which `MeanFd` cannot carry.
- Integer widths: the counts are unbounded integers, and the proportion is a real number, not a float.
- Duplicate subject labels in the participants table are not modelled: the participants table is a map.

## Findings

| source | as written | input that shows it | evidently intended | confidence | as-written member | corrected member |
|---|---|---|---|---|---|---|
| fmriprep_denoise/features/quality_control_connectivity_vectorized.py:113 | The node count is bound from a set comprehension over the name `dim`, which is defined nowhere, so every call with at least one matrix raises NameError. | One subject whose metadata has a motion value, with the 2 by 2 matrix [[1, 0.5], [0.5, 1]]. | The node count is the first matrix's size; the shape check of the loop then rejects any matrix of another size. The output is the single edge (1, 0). | not executed | Qcfc.CalculateQcfcAsWritten, Qcfc.AsWrittenRejectsValidInput | Qcfc.QcfcSpec, Qcfc.CalculateQcfc |
