/**
 * The experiment runner (run_suite.py, main): for every model, extract each
 * configured experiment in order, group the records by token in encounter
 * order, pair the first two records of every group that has at least two,
 * compute one context-dominance layer per pair and give it to both paired
 * labels, and produce one summary row per experiment in configured order.
 *
 * The YAML configuration, the result directories, the CSV files and the
 * progress messages are outside the model: the configuration is a
 * parameter and the summary file is the sequence of rows returned.
 */
module Runner {
  import opened Metrics
  import opened Extraction

  /** The models the suite runs, in order. */
  const ModelNames: seq<string> := ["gpt2", "distilgpt2", "gpt2-medium"]

  /** One configured experiment: its label, the prompt and the target token. */
  datatype Experiment = Experiment(name: string, prompt: string, token: string)

  /** One line of a model's summary file. */
  datatype SummaryRow = SummaryRow(
    model: string,
    name: string,
    token: string,
    halfLifeLayer: int,
    finalSimilarity: real,
    contextDominanceLayer: int)

  datatype Option<T> = None | Some(value: T)

  /** Forward passes of one model, by prompt. */
  type Forward = string -> ForwardPass

  predicate AllWellShaped(exps: seq<Experiment>, forward: Forward) {
    forall i :: 0 <= i < |exps| ==> WellShaped(forward(exps[i].prompt))
  }

  /** Experiment labels are meant to be unique within a configuration. */
  predicate UniqueNames(exps: seq<Experiment>) {
    forall i, j :: 0 <= i < j < |exps| ==> exps[i].name != exps[j].name
  }

  predicate UniqueRecordNames(rs: seq<Record>) {
    forall i, j :: 0 <= i < j < |rs| ==> rs[i].name != rs[j].name
  }

  /**
   * Experiment `i` is the first whose extraction fails, and it fails with
   * `e`: every earlier experiment extracts successfully.
   */
  predicate FirstFailure(exps: seq<Experiment>, forward: Forward, cosine: Similarity, i: int, e: Error)
    requires AllWellShaped(exps, forward)
  {
    && 0 <= i < |exps|
    && ExtractOne(exps[i], forward, cosine) == Failure(e)
    && forall j :: 0 <= j < i ==> ExtractOne(exps[j], forward, cosine).Success?
  }

  predicate Distinct(ts: seq<string>) {
    forall a, b :: 0 <= a < b < |ts| ==> ts[a] != ts[b]
  }

  // ---------------------------------------------------------------------
  // Specification of one model's run
  // ---------------------------------------------------------------------

  /** run_single_experiment applied to one configured experiment. */
  function ExtractOne(e: Experiment, forward: Forward, cosine: Similarity): Result<Record>
    requires WellShaped(forward(e.prompt))
  {
    Extract(e.name, e.token, forward(e.prompt), cosine)
  }

  /**
   * The records of all experiments in configured order, or the error of the
   * first experiment whose extraction fails (which aborts the model's run).
   */
  function ExtractAll(exps: seq<Experiment>, forward: Forward, cosine: Similarity): Result<seq<Record>>
    requires AllWellShaped(exps, forward)
  {
    if exps == [] then Success([])
    else
      var front := exps[..|exps| - 1];
      assert forall i :: 0 <= i < |front| ==> front[i] == exps[i];
      match ExtractAll(front, forward, cosine)
      case Failure(e) => Failure(e)
      case Success(rs) =>
        match ExtractOne(exps[|exps| - 1], forward, cosine)
        case Failure(e) => Failure(e)
        case Success(r) => Success(rs + [r])
  }

  /** Distinct tokens of the records, in the order they are first met (the keys of by_token). */
  function TokensInOrder(rs: seq<Record>): seq<string>
  {
    if rs == [] then []
    else
      var prev := TokensInOrder(rs[..|rs| - 1]);
      if rs[|rs| - 1].token in prev then prev else prev + [rs[|rs| - 1].token]
  }

  /** The records carrying token `t`, in processing order (by_token[t]). */
  function Group(rs: seq<Record>, t: string): seq<Record>
  {
    if rs == [] then []
    else
      Group(rs[..|rs| - 1], t) + (if rs[|rs| - 1].token == t then [rs[|rs| - 1]] else [])
  }

  /** Layer-by-layer similarity of two records' vectors; zip stops at the shorter series. */
  function ContextSeries(vs1: seq<Vector>, vs2: seq<Vector>, cosine: Similarity): (c: seq<real>)
    ensures |c| == ZipLength(|vs1|, |vs2|)
    ensures |c| <= |vs1| && |c| <= |vs2|
    ensures forall l :: 0 <= l < |c| ==> c[l] == cosine(vs1[l], vs2[l])
  {
    seq(ZipLength(|vs1|, |vs2|), l requires 0 <= l < ZipLength(|vs1|, |vs2|) => cosine(vs1[l], vs2[l]))
  }

  /** The CDL of a group: first member's identity against the pair's context series. */
  function PairCdl(g: seq<Record>, cosine: Similarity): int
    requires |g| >= 2
  {
    Cdl(g[0].identity, ContextSeries(g[0].vecs, g[1].vecs, cosine))
  }

  /** One pass of the CDL loop: a group of two or more writes its CDL under both first labels. */
  function AssignPair(table: map<string, int>, g: seq<Record>, cosine: Similarity): map<string, int>
  {
    if |g| < 2 then table
    else
      var c := PairCdl(g, cosine);
      table[g[0].name := c][g[1].name := c]
  }

  /** cdl_by_label after processing the groups of tokens `ts`, in that order. */
  function CdlTable(rs: seq<Record>, ts: seq<string>, cosine: Similarity): map<string, int>
  {
    if ts == [] then map[]
    else AssignPair(CdlTable(rs, ts[..|ts| - 1], cosine), Group(rs, ts[|ts| - 1]), cosine)
  }

  /** A summary line; a label without a stored CDL gets NotReached. */
  function RowOf(model: string, r: Record, table: map<string, int>): SummaryRow
  {
    SummaryRow(model, r.name, r.token, r.halfLife, r.final,
      if r.name in table then table[r.name] else NotReached)
  }

  function Summary(model: string, rs: seq<Record>, table: map<string, int>): seq<SummaryRow>
  {
    seq(|rs|, i requires 0 <= i < |rs| => RowOf(model, rs[i], table))
  }

  /** What one model's iteration of main produces: its summary rows, or the error that aborts it. */
  function ModelRun(model: string, exps: seq<Experiment>, forward: Forward, cosine: Similarity): Result<seq<SummaryRow>>
    requires AllWellShaped(exps, forward)
  {
    match ExtractAll(exps, forward, cosine)
    case Failure(e) => Failure(e)
    case Success(rs) => Success(Summary(model, rs, CdlTable(rs, TokensInOrder(rs), cosine)))
  }

  /**
   * by_token and its key order describe the records: the keys are the
   * tokens in first-met order, and each key maps to its token's group.
   */
  ghost predicate GroupsIndex(rs: seq<Record>, order: seq<string>, byToken: map<string, seq<Record>>) {
    && order == TokensInOrder(rs)
    && (forall t :: t in byToken <==> t in order)
    && (forall t :: t in byToken ==> byToken[t] == Group(rs, t))
  }

  /** Record `i` is one of the first two of its token's group, and that group has a pair. */
  predicate IsPaired(rs: seq<Record>, i: nat)
    requires i < |rs|
  {
    |Group(rs[..i], rs[i].token)| < 2 && |Group(rs, rs[i].token)| >= 2
  }

  // ---------------------------------------------------------------------
  // The imperative runner
  // ---------------------------------------------------------------------

  /** One model's iteration of main's loop: its three passes in turn. */
  method RunModel(model: string, exps: seq<Experiment>, forward: Forward, cosine: Similarity)
    returns (out: Result<seq<SummaryRow>>)
    requires AllWellShaped(exps, forward)
    ensures out == ModelRun(model, exps, forward, cosine)
  {
    var extracted, order, byToken := RunExperiments(exps, forward, cosine);
    if extracted.Failure? {
      return Failure(extracted.error);
    }
    var table := AssignCdls(extracted.value, order, byToken, cosine);
    var rows := SummaryOf(model, extracted.value, table);
    out := Success(rows);
  }

  /**
   * The "run experiments" pass of main: extract every experiment in
   * configured order, stopping at the first error, and append each record
   * to its token's group (by_token, a dictionary whose keys keep their
   * insertion order, modelled as the key list `order` and the map).
   */
  method RunExperiments(exps: seq<Experiment>, forward: Forward, cosine: Similarity)
    returns (out: Result<seq<Record>>, order: seq<string>, byToken: map<string, seq<Record>>)
    requires AllWellShaped(exps, forward)
    ensures out == ExtractAll(exps, forward, cosine)
    ensures out.Success? ==> GroupsIndex(out.value, order, byToken)
  {
    var results: seq<Record> := [];
    order, byToken := [], map[];
    for i := 0 to |exps|
      invariant ExtractAll(exps[..i], forward, cosine) == Success(results)
      invariant GroupsIndex(results, order, byToken)
    {
      var r := RunSingleExperiment(exps[i].name, exps[i].token, forward(exps[i].prompt), cosine);
      ExtractAllStep(exps, i, forward, cosine);
      if r.Failure? {
        return Failure(r.error), order, byToken;
      }
      var rec := r.value;
      GroupsIndexStep(results, order, byToken, rec);
      results := results + [rec];
      if rec.token in byToken {
        byToken := byToken[rec.token := byToken[rec.token] + [rec]];
      } else {
        order := order + [rec.token];
        byToken := byToken[rec.token := [rec]];
      }
    }
    assert exps[..|exps|] == exps;
    out := Success(results);
  }

  /**
   * The "context + CDL" pass of main: for every token group, in the order
   * its token was first met, a group of two or more pairs its first two
   * records and stores their CDL under both labels; smaller groups are
   * skipped.
   */
  method AssignCdls(results: seq<Record>, order: seq<string>, byToken: map<string, seq<Record>>, cosine: Similarity)
    returns (table: map<string, int>)
    requires GroupsIndex(results, order, byToken)
    ensures table == CdlTable(results, order, cosine)
  {
    table := map[];
    for k := 0 to |order|
      invariant table == CdlTable(results, order[..k], cosine)
    {
      assert order[..k + 1][..k] == order[..k];
      var group := byToken[order[k]];
      if |group| < 2 {
        continue;
      }
      var a, b := group[0], group[1];
      var context := ContextSeries(a.vecs, b.vecs, cosine);
      var cdl := Cdl(a.identity, context);
      table := table[a.name := cdl][b.name := cdl];
    }
    assert order[..|order|] == order;
  }

  /**
   * The "summary" pass of main: one row per record, in processing order,
   * whose context-dominance layer is the stored CDL of its label or
   * NotReached.
   */
  method SummaryOf(model: string, results: seq<Record>, table: map<string, int>)
    returns (rows: seq<SummaryRow>)
    ensures rows == Summary(model, results, table)
  {
    rows := [];
    for i := 0 to |results|
      invariant |rows| == i
      invariant forall j :: 0 <= j < i ==> rows[j] == RowOf(model, results[j], table)
    {
      rows := rows + [RowOf(model, results[i], table)];
    }
  }

  /**
   * main: every model in turn. An extraction error is not caught, so it ends
   * the whole suite; the summaries of the models finished before it remain.
   */
  method RunSuite(exps: seq<Experiment>, forward: string -> Forward, cosine: Similarity)
    returns (reports: seq<seq<SummaryRow>>, failure: Option<Error>)
    requires forall m :: 0 <= m < |ModelNames| ==> AllWellShaped(exps, forward(ModelNames[m]))
    ensures |reports| <= |ModelNames|
    ensures forall m :: 0 <= m < |reports| ==>
      ModelRun(ModelNames[m], exps, forward(ModelNames[m]), cosine) == Success(reports[m])
    ensures failure.None? <==> |reports| == |ModelNames|
    ensures failure.Some? ==>
      ModelRun(ModelNames[|reports|], exps, forward(ModelNames[|reports|]), cosine) == Failure(failure.value)
  {
    reports := [];
    for m := 0 to |ModelNames|
      invariant |reports| == m
      invariant forall k :: 0 <= k < m ==>
        ModelRun(ModelNames[k], exps, forward(ModelNames[k]), cosine) == Success(reports[k])
    {
      var out := RunModel(ModelNames[m], exps, forward(ModelNames[m]), cosine);
      if out.Failure? {
        return reports, Some(out.error);
      }
      reports := reports + [out.value];
    }
    failure := None;
  }

  // ---------------------------------------------------------------------
  // Properties
  // ---------------------------------------------------------------------

  /** Once a prefix of the configuration fails, the whole run fails with that error. */
  lemma {:induction false} PrefixFailureAborts(exps: seq<Experiment>, k: nat, forward: Forward, cosine: Similarity)
    requires AllWellShaped(exps, forward)
    requires k <= |exps|
    requires ExtractAll(exps[..k], forward, cosine).Failure?
    ensures ExtractAll(exps, forward, cosine) == ExtractAll(exps[..k], forward, cosine)
  {
    if k < |exps| {
      var front := exps[..|exps| - 1];
      assert front[..k] == exps[..k];
      PrefixFailureAborts(front, k, forward, cosine);
    } else {
      assert exps[..k] == exps;
    }
  }

  /** One more experiment: the run either stops with its error or appends its record. */
  lemma ExtractAllStep(exps: seq<Experiment>, i: nat, forward: Forward, cosine: Similarity)
    requires AllWellShaped(exps, forward) && i < |exps|
    requires ExtractAll(exps[..i], forward, cosine).Success?
    ensures ExtractOne(exps[i], forward, cosine).Failure? ==>
      ExtractAll(exps, forward, cosine) == Failure(ExtractOne(exps[i], forward, cosine).error)
    ensures ExtractOne(exps[i], forward, cosine).Success? ==>
      ExtractAll(exps[..i + 1], forward, cosine)
        == Success(ExtractAll(exps[..i], forward, cosine).value + [ExtractOne(exps[i], forward, cosine).value])
  {
    assert exps[..i + 1][..i] == exps[..i];
    if ExtractOne(exps[i], forward, cosine).Failure? {
      PrefixFailureAborts(exps, i + 1, forward, cosine);
    }
  }

  /** Appending a record to the run keeps by_token and its key order in step with it. */
  lemma GroupsIndexStep(rs: seq<Record>, order: seq<string>, byToken: map<string, seq<Record>>, x: Record)
    requires GroupsIndex(rs, order, byToken)
    ensures x.token in byToken ==>
      GroupsIndex(rs + [x], order, byToken[x.token := byToken[x.token] + [x]])
    ensures x.token !in byToken ==>
      GroupsIndex(rs + [x], order + [x.token], byToken[x.token := [x]])
  {
    assert (rs + [x])[..|rs|] == rs;
    if x.token !in byToken {
      GroupOfUnseenToken(rs, x.token);
    }
  }

  /** Grouping distributes over concatenation: by_token keeps processing order. */
  lemma {:induction false} GroupAppend(a: seq<Record>, b: seq<Record>, t: string)
    ensures Group(a + b, t) == Group(a, t) + Group(b, t)
  {
    if b == [] {
      assert a + b == a;
    } else {
      var front := b[..|b| - 1];
      assert (a + b)[..|a + b| - 1] == a + front;
      GroupAppend(a, front, t);
    }
  }

  /** Record `i` sits in its token's group right after the group members that precede it. */
  lemma GroupPosition(rs: seq<Record>, i: nat)
    requires i < |rs|
    ensures |Group(rs[..i], rs[i].token)| < |Group(rs, rs[i].token)|
    ensures Group(rs, rs[i].token)[|Group(rs[..i], rs[i].token)|] == rs[i]
    ensures Group(rs, rs[i].token)[..|Group(rs[..i], rs[i].token)|] == Group(rs[..i], rs[i].token)
  {
    var t := rs[i].token;
    assert rs == rs[..i] + [rs[i]] + rs[i + 1..];
    GroupAppend(rs[..i] + [rs[i]], rs[i + 1..], t);
    GroupAppend(rs[..i], [rs[i]], t);
    assert [rs[i]][..0] == [];
    assert Group([rs[i]], t) == Group([], t) + [rs[i]];
  }

  /** Every member of a token's group is one of the records and carries that token. */
  lemma {:induction false} GroupMembers(rs: seq<Record>, t: string)
    ensures forall k :: 0 <= k < |Group(rs, t)| ==> Group(rs, t)[k] in rs && Group(rs, t)[k].token == t
  {
    if rs != [] {
      var front := rs[..|rs| - 1];
      GroupMembers(front, t);
      assert forall x :: x in front ==> x in rs;
    }
  }

  /** A token not yet met has an empty group. */
  lemma {:induction false} GroupOfUnseenToken(rs: seq<Record>, t: string)
    requires t !in TokensInOrder(rs)
    ensures Group(rs, t) == []
  {
    if rs != [] {
      GroupOfUnseenToken(rs[..|rs| - 1], t);
    }
  }

  /**
   * The keys of by_token are exactly the tokens of the records, each listed
   * once.
   */
  lemma {:induction false} TokensInOrderSpec(rs: seq<Record>)
    ensures forall t :: t in TokensInOrder(rs) <==> exists i :: 0 <= i < |rs| && rs[i].token == t
    ensures Distinct(TokensInOrder(rs))
  {
    if rs != [] {
      var front := rs[..|rs| - 1];
      TokensInOrderSpec(front);
      assert forall i :: 0 <= i < |front| ==> front[i] == rs[i];
    }
  }

  /**
   * The keys of by_token come in first-met order: for two keys a before b,
   * some record carrying key a comes before every record carrying key b.
   */
  lemma {:induction false} TokensInOrderFirstMet(rs: seq<Record>, a: nat, b: nat)
    requires a < b < |TokensInOrder(rs)|
    ensures exists i ::
              && 0 <= i < |rs| && rs[i].token == TokensInOrder(rs)[a]
              && forall j :: 0 <= j <= i ==> rs[j].token != TokensInOrder(rs)[b]
  {
    var front := rs[..|rs| - 1];
    var prev := TokensInOrder(front);
    assert forall k :: 0 <= k < |front| ==> front[k] == rs[k];
    if b < |prev| {
      TokensInOrderFirstMet(front, a, b);
      var i :|
        && 0 <= i < |front| && front[i].token == prev[a]
        && forall j :: 0 <= j <= i ==> front[j].token != prev[b];
      assert rs[i].token == TokensInOrder(rs)[a];
    } else {
      TokensInOrderSpec(front);
      assert prev[a] in prev;
      var i :| 0 <= i < |front| && front[i].token == prev[a];
      assert TokensInOrder(rs)[b] == rs[|rs| - 1].token;
      assert forall j :: 0 <= j <= i ==> front[j].token in prev;
      assert rs[i].token == TokensInOrder(rs)[a];
    }
  }

  /**
   * A successful extraction yields the experiments' records in configured
   * order.
   */
  lemma {:induction false} ExtractAllSuccess(exps: seq<Experiment>, forward: Forward, cosine: Similarity)
    requires AllWellShaped(exps, forward)
    requires ExtractAll(exps, forward, cosine).Success?
    ensures |ExtractAll(exps, forward, cosine).value| == |exps|
    ensures forall i :: 0 <= i < |exps| ==>
      ExtractOne(exps[i], forward, cosine) == Success(ExtractAll(exps, forward, cosine).value[i])
  {
    if exps != [] {
      var front := exps[..|exps| - 1];
      assert forall i :: 0 <= i < |front| ==> front[i] == exps[i];
      ExtractAllSuccess(front, forward, cosine);
      var rs := ExtractAll(front, forward, cosine).value;
      var r := ExtractOne(exps[|exps| - 1], forward, cosine).value;
      assert ExtractAll(exps, forward, cosine).value == rs + [r];
      forall i | 0 <= i < |exps|
        ensures ExtractOne(exps[i], forward, cosine) == Success((rs + [r])[i])
      {
        if i < |front| {
          assert exps[i] == front[i];
        }
      }
    }
  }

  /**
   * A failed extraction reports the error of the first experiment that
   * fails, every earlier one having succeeded.
   */
  lemma {:induction false} ExtractAllFailure(exps: seq<Experiment>, forward: Forward, cosine: Similarity)
    requires AllWellShaped(exps, forward)
    requires ExtractAll(exps, forward, cosine).Failure?
    ensures exists i :: FirstFailure(exps, forward, cosine, i, ExtractAll(exps, forward, cosine).error)
  {
    var front := exps[..|exps| - 1];
    assert forall i :: 0 <= i < |front| ==> front[i] == exps[i];
    var e := ExtractAll(exps, forward, cosine).error;
    if ExtractAll(front, forward, cosine).Failure? {
      ExtractAllFailure(front, forward, cosine);
      var i :| FirstFailure(front, forward, cosine, i, e);
      assert FirstFailure(exps, forward, cosine, i, e);
    } else {
      ExtractAllSuccess(front, forward, cosine);
      assert FirstFailure(exps, forward, cosine, |exps| - 1, e);
    }
  }

  /** With unique labels, a record other than `rs[i]` carries another label. */
  lemma NameDiffers(rs: seq<Record>, x: Record, i: nat)
    requires UniqueRecordNames(rs)
    requires i < |rs| && x in rs && x != rs[i]
    ensures x.name != rs[i].name
  {
  }

  /** With unique labels, a record met before `rs[i]` carries another label. */
  lemma EarlierNameDiffers(rs: seq<Record>, x: Record, i: nat)
    requires UniqueRecordNames(rs)
    requires i < |rs| && x in rs[..i]
    ensures x.name != rs[i].name
  {
  }

  /**
   * What cdl_by_label holds for record `i` after the groups of `ts` were
   * processed: an entry exactly when its token was processed, its group has
   * at least two members and fewer than two of them precede it; the entry is
   * the group's CDL.
   */
  lemma {:induction false} CdlTableEntry(rs: seq<Record>, ts: seq<string>, cosine: Similarity, i: nat)
    requires UniqueRecordNames(rs) && Distinct(ts) && i < |rs|
    ensures rs[i].name in CdlTable(rs, ts, cosine) <==> rs[i].token in ts && IsPaired(rs, i)
    ensures rs[i].name in CdlTable(rs, ts, cosine) ==>
      CdlTable(rs, ts, cosine)[rs[i].name] == PairCdl(Group(rs, rs[i].token), cosine)
  {
    if ts != [] {
      var front, u := ts[..|ts| - 1], ts[|ts| - 1];
      var t, name := rs[i].token, rs[i].name;
      var prev := CdlTable(rs, front, cosine);
      var h := Group(rs, u);
      assert Distinct(front);
      assert ts == front + [u];
      CdlTableEntry(rs, front, cosine, i);
      if |h| >= 2 {
        GroupMembers(rs, u);
        if u != t {
          NameDiffers(rs, h[0], i);
          NameDiffers(rs, h[1], i);
        } else {
          GroupPosition(rs, i);
          var earlier := Group(rs[..i], t);
          if |earlier| >= 2 {
            GroupMembers(rs[..i], t);
            assert h[0] == earlier[0] && h[1] == earlier[1];
            EarlierNameDiffers(rs, h[0], i);
            EarlierNameDiffers(rs, h[1], i);
          }
        }
      }
    }
  }

  /**
   * The summary of a successful run: one row per configured experiment, in
   * configured order, with the experiment's label and token, the half-life
   * and final similarity of its identity series, and a context-dominance
   * layer that is the pair's CDL for the first two experiments of a token
   * shared by at least two, and NotReached for every other experiment.
   */
  lemma SummaryRows(model: string, exps: seq<Experiment>, forward: Forward, cosine: Similarity)
    requires AllWellShaped(exps, forward) && UniqueNames(exps)
    requires ModelRun(model, exps, forward, cosine).Success?
    ensures var rs := ExtractAll(exps, forward, cosine).value;
      var rows := ModelRun(model, exps, forward, cosine).value;
      && |rs| == |rows| == |exps|
      && forall i :: 0 <= i < |exps| ==>
        && ExtractOne(exps[i], forward, cosine) == Success(rs[i])
        && rows[i].model == model
        && rows[i].name == exps[i].name
        && rows[i].token == exps[i].token
        && rows[i].halfLifeLayer == HalfLife(rs[i].identity)
        && rows[i].finalSimilarity == rs[i].final
        && rows[i].contextDominanceLayer ==
             (if IsPaired(rs, i) then PairCdl(Group(rs, rs[i].token), cosine) else NotReached)
  {
    var rs := ExtractAll(exps, forward, cosine).value;
    var ts := TokensInOrder(rs);
    var rows := ModelRun(model, exps, forward, cosine).value;
    ExtractAllSuccess(exps, forward, cosine);
    TokensInOrderSpec(rs);
    forall i | 0 <= i < |exps|
      ensures rs[i].name == exps[i].name && rs[i].token == exps[i].token
      ensures |rs[i].identity| > 0
    {
      assert ExtractOne(exps[i], forward, cosine) == Success(rs[i]);
    }
    assert UniqueRecordNames(rs);
    forall i | 0 <= i < |exps|
      ensures rows[i].contextDominanceLayer ==
        (if IsPaired(rs, i) then PairCdl(Group(rs, rs[i].token), cosine) else NotReached)
    {
      CdlTableEntry(rs, ts, cosine, i);
    }
  }

  /** Both members of a pair receive the same stored context-dominance layer. */
  lemma PairSharesCdl(rs: seq<Record>, cosine: Similarity, i: nat, j: nat)
    requires UniqueRecordNames(rs)
    requires i < |rs| && j < |rs| && rs[i].token == rs[j].token
    requires IsPaired(rs, i) && IsPaired(rs, j)
    ensures var table := CdlTable(rs, TokensInOrder(rs), cosine);
      rs[i].name in table && rs[j].name in table && table[rs[i].name] == table[rs[j].name]
  {
    TokensInOrderSpec(rs);
    CdlTableEntry(rs, TokensInOrder(rs), cosine, i);
    CdlTableEntry(rs, TokensInOrder(rs), cosine, j);
  }
}
