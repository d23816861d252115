# Token identity drift: the analysis core, in Dafny

This project models the analysis core of `run_suite.py`, a suite that follows one token's
hidden-state vector through the layers of several GPT-2 models. Two summary statistics are
derived per experiment:

- the **half-life layer**: the first layer whose *identity similarity* falls strictly
  below 0.1. Identity similarity is the cosine of the layer vector with the token's static
  embedding.
- the **context-dominance layer (CDL)**: the first layer where the *context similarity*
  is strictly below the identity similarity. Context similarity is the cosine between two
  experiments' vectors for the same token.

Both statistics use `-1` for "not reached".

The project has three modules, one per part of the core:

- `Metrics` (`metrics.dfy`) models `compute_half_life` and `compute_cdl`. Each is a
  recursive function whose contract gives the exact first-index characterisation. There
  are lemmas for threshold monotonicity and for `zip` truncation.
- `Extraction` (`extraction.dfy`) models the part of `run_single_experiment` that can be
  modelled: the target-position lookup (first occurrence, or a `TokenNotFound` error) and
  the per-layer record. A specification function `Extract` comes with the imperative
  `RunSingleExperiment`, whose appending loop is proved equal to it.
- `Runner` (`runner.dfy`) models `main`. Each model's run has three passes, as in the
  source:
  - "run experiments": extract in order, stop at the first error, group by token in
    encounter order.
  - "context + CDL": pair only the first two records of each group of size ≥ 2, and store
    one CDL under both labels.
  - "summary": one row per experiment in configured order, with `-1` when no CDL was
    stored.

  Each pass is a method with loop invariants, proved equal to a specification function.
  `RunSuite` runs every model in `MODEL_NAMES` in turn. Lemmas then characterise the
  summary: which rows get a CDL, what that CDL is, and that both members of a pair share
  it.

Inputs the model takes as parameters instead of computing them:

- the tokenizer and forward pass: a `ForwardPass` per prompt. It holds the token strings,
  the static embedding at each position and the per-layer hidden vectors.
- cosine similarity: an uninterpreted function `(Vector, Vector) -> real`.

Similarities are `real`.

Points where the model pins down the code's exact behaviour:
- `compute_cdl` and the context series use `zip`, so both stop at the shorter sequence.
- the "not reached" sentinel is the integer `-1`.
- the CDL comparison is strict, `context < identity`: identity [0.9, 0.6, 0.3] against
  context [0.8, 0.7, 0.2] gives CDL 0, because context < identity already holds at layer 0
  (`Metrics.CdlExamples`).

## Model

| member | source | states |
|---|---|---|
| Metrics.FirstBelow | run_suite.py:22-26 | result is -1 exactly when no element is below the threshold (including the empty series); otherwise it is an index in range whose element is below the threshold, and every earlier element is at least the threshold |
| Metrics.HalfLife | run_suite.py:14-26 | the same first-index characterisation, for the fixed threshold 0.1 |
| Metrics.FirstBelowMonotonic | run_suite.py:22-26 | raising the threshold never makes the half-life later: if it is reached at the lower threshold, it is reached at the higher one at an index no larger |
| Metrics.Cdl | run_suite.py:29-33 | result is -1 exactly when every index of the common prefix has context >= identity (so also when either series is empty); otherwise it is below both lengths, has context < identity there, and no earlier index does |
| Metrics.CdlIgnoresTail | run_suite.py:30 | elements past the shorter length never matter: the result equals the result on the two series cut to their common length |
| Metrics.HalfLifeExamples | run_suite.py:22-26 | [0.9, 0.5, 0.05, 0.01] gives 2; [0.9, 0.8, 0.7] and the empty series give -1 |
| Metrics.CdlExamples | run_suite.py:29-33 | identity [0.9, 0.6, 0.3] with context [0.8, 0.7, 0.2] gives 0 (strict context < identity); a pair that never drops and an empty identity give -1 |
| Extraction.IndexOf | run_suite.py:48 | for a token that occurs, the result is a position holding it, and no earlier position holds it |
| Extraction.TargetPosition | run_suite.py:45-48 | fails with TokenNotFound carrying the token and the token list exactly when the token is absent; otherwise it gives the first position of the token |
| Extraction.FirstOccurrenceWins | run_suite.py:48 | later duplicates of the token never change the target position |
| Extraction.Extract | run_suite.py:45-69 | fails exactly when the token is absent (with TokenNotFound) or there are no layers (with EmptyIdentity, the error of `identity[-1]`); otherwise the record keeps label and token, has one vector and one identity similarity per layer in layer order (vector at the target position, cosine with the target's static embedding), half_life equal to HalfLife of the identity series, and final equal to its last element |
| Extraction.RunSingleExperiment | run_suite.py:36-69 | the appending loop over the hidden states returns exactly the record (or error) that Extract describes |
| Runner.ContextSeries | run_suite.py:113 | the context series has the length of the shorter vector list (zip truncates), and its element at each layer is the cosine of the two members' vectors there |
| Runner.RunExperiments | run_suite.py:83-95 | the records equal the specification of extracting all experiments in order; on success the key order and the token map are exactly the tokens in first-met order and each token's group |
| Runner.ExtractAllStep | run_suite.py:87-94 | one more experiment either aborts the run with its error or appends its record |
| Runner.PrefixFailureAborts | run_suite.py:87-93 | once a prefix of the configuration fails, the whole run fails with that same error |
| Runner.ExtractAllSuccess | run_suite.py:87-94 | a successful run has one record per experiment, and record i is experiment i's extraction |
| Runner.ExtractAllFailure | run_suite.py:87-93 | a failed run reports the error of the first failing experiment; every experiment before it succeeded |
| Runner.GroupsIndexStep | run_suite.py:94-95 | appending a record to its token's list (creating the list for a new token, which joins the key order) keeps the token map describing the records |
| Runner.GroupOfUnseenToken | run_suite.py:95 | a token not yet met has no records, so a fresh defaultdict entry starts empty |
| Runner.TokensInOrderSpec | run_suite.py:95 | the keys of the token map are exactly the tokens of the records, each once |
| Runner.TokensInOrderFirstMet | run_suite.py:95-108 | the keys come in first-met order: for keys a before b, some record carrying a precedes every record carrying b |
| Runner.GroupMembers | run_suite.py:95 | every member of a token's group is one of the records and carries that token |
| Runner.GroupAppend | run_suite.py:95 | grouping commutes with concatenation, so groups keep processing order |
| Runner.GroupPosition | run_suite.py:108-112 | record i sits in its token's group right after the group members processed before it |
| Runner.AssignCdls | run_suite.py:105-123 | the CDL pass computes the specified table: tokens in first-met order, groups under two skipped, otherwise the first two members' labels both set to the CDL of the first member's identity against the pair's context series |
| Runner.CdlTableEntry | run_suite.py:108-123 | with unique labels, a record's label has an entry exactly when its group has at least two members and fewer than two of them were processed before it; the entry is that group's CDL |
| Runner.PairSharesCdl | run_suite.py:121-123 | both members of a pair have an entry, and the two entries are equal |
| Runner.SummaryOf | run_suite.py:136-144 | one row per record in processing order, carrying the stored CDL of its label or -1 |
| Runner.SummaryRows | run_suite.py:136-144 | with unique labels, a successful run has exactly one row per experiment in configured order, with that experiment's label, token, half-life and final similarity; its CDL is the pair's CDL for the first two experiments of a token shared by at least two, and -1 for all others |
| Runner.RunModel | run_suite.py:83-144 | one model's run equals the specification: the first extraction error, or the summary rows |
| Runner.RunSuite | run_suite.py:78-146 | models run in MODEL_NAMES order; each finished model's rows are its specified summary; an error ends the suite at the failing model, whose error is reported |

## Left out

- Tokenizer and model loading, the forward pass and the embedding-table lookup (run_suite.py:37-43, 50-53): these are library calls and tensor numerics. The model takes their results as a `ForwardPass` value per prompt, and assumes the shape the library guarantees: one hidden vector per token position in every layer, and one embedding per position (`WellShaped`). A loading failure, which would end the suite like a missing token, is not modelled: `Error` has no case for it.
- `cosine` (run_suite.py:18-19) uses floating-point numerics in a library call. It is an uninterpreted function parameter returning a real. Similarities are reals, not floats.
- YAML loading, directory creation, printing, and writing the per-experiment, per-token and summary CSV files (run_suite.py:73-81, 97-103, 115-119, 126-135, 146): this is I/O. The summary file is the returned row sequence. The other two files would hold a record's `identity` series and the `ContextSeries` value. The header rows are not modelled.
- The files already written by earlier experiments of a model whose run then fails are not modelled. Only the finished models' summaries are returned.
- `main` is one function in the source. Here its three passes are three methods, `RunExperiments`, `AssignCdls` and `SummaryOf`, which `RunModel` calls in the same order.
- Runner.CdlTableEntry, Runner.SummaryRows and Runner.PairSharesCdl assume unique experiment labels, which the source never checks. With duplicate labels, a later pair overwrites an earlier entry of the label dictionary. `RunModel` and `CdlTable` still model that overwrite exactly; only these three characterisations need unique labels.
- make_composites.py (globbing, CSV reading, plotting) is presentation glue and is not part of this model.
