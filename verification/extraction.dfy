/**
 * Layer-series extraction for one experiment (run_suite.py,
 * run_single_experiment): locate the target token in the prompt's
 * tokenization, then collect, for every hidden layer, the vector at that
 * position and its cosine similarity with the token's static embedding.
 *
 * The tokenizer and the forward pass are outside the model: their output
 * is given as a ForwardPass value. Cosine similarity is a parameter.
 */
module Extraction {
  import opened Metrics

  /** A hidden or embedding vector. */
  type Vector = seq<real>

  /** Cosine similarity, treated as an uninterpreted function. */
  type Similarity = (Vector, Vector) -> real

  datatype Error =
    | TokenNotFound(token: string, tokens: seq<string>)  // the ValueError raised when the token is absent
    | EmptyIdentity                                       // identity[-1] on a model with no hidden states

  datatype Result<T> = Success(value: T) | Failure(error: Error)

  /**
   * What the tokenizer and the model produce for one prompt: the token
   * strings, the static embedding of the token id at each position, and,
   * per layer (layer 0 being the embedding layer), one vector per position.
   */
  datatype ForwardPass = ForwardPass(
    tokens: seq<string>,
    staticEmbeddings: seq<Vector>,
    hiddenStates: seq<seq<Vector>>)

  /** Every layer holds one vector per token, and every token has an embedding. */
  predicate WellShaped(fp: ForwardPass) {
    && |fp.staticEmbeddings| == |fp.tokens|
    && forall l :: 0 <= l < |fp.hiddenStates| ==> |fp.hiddenStates[l]| == |fp.tokens|
  }

  /** The per-experiment record the runner keeps. */
  datatype Record = Record(
    name: string,
    token: string,
    identity: seq<real>,
    vecs: seq<Vector>,
    halfLife: int,
    final: real)

  /** First position of `token` in `tokens` (list.index). */
  function IndexOf(tokens: seq<string>, token: string): (i: nat)
    requires token in tokens
    ensures i < |tokens| && tokens[i] == token
    ensures forall j :: 0 <= j < i ==> tokens[j] != token
  {
    if tokens[0] == token then 0 else 1 + IndexOf(tokens[1..], token)
  }

  /** The target position, or the error raised when the token is absent. */
  function TargetPosition(tokens: seq<string>, token: string): (r: Result<nat>)
    ensures r.Failure? <==> token !in tokens
    ensures r.Failure? ==> r.error == TokenNotFound(token, tokens)
    ensures r.Success? ==> r.value < |tokens| && tokens[r.value] == token
    ensures r.Success? ==> forall j :: 0 <= j < r.value ==> tokens[j] != token
  {
    if token !in tokens then Failure(TokenNotFound(token, tokens))
    else Success(IndexOf(tokens, token))
  }

  /**
   * The record run_single_experiment returns, or the error it raises.
   * Its contract describes each field in terms of the forward pass.
   */
  function Extract(name: string, token: string, fp: ForwardPass, cosine: Similarity): (r: Result<Record>)
    requires WellShaped(fp)
    ensures r.Failure? <==> token !in fp.tokens || |fp.hiddenStates| == 0
    ensures token !in fp.tokens ==> r == Failure(TokenNotFound(token, fp.tokens))
    ensures token in fp.tokens && |fp.hiddenStates| == 0 ==> r == Failure(EmptyIdentity)
    ensures r.Success? ==>
      var p := TargetPosition(fp.tokens, token).value;
      var rec := r.value;
      && rec.name == name && rec.token == token
      && |rec.vecs| == |rec.identity| == |fp.hiddenStates|
      && (forall l :: 0 <= l < |fp.hiddenStates| ==>
            rec.vecs[l] == fp.hiddenStates[l][p]
            && rec.identity[l] == cosine(fp.hiddenStates[l][p], fp.staticEmbeddings[p]))
      && rec.halfLife == HalfLife(rec.identity)
      && rec.final == rec.identity[|fp.hiddenStates| - 1]
  {
    match TargetPosition(fp.tokens, token)
    case Failure(e) => Failure(e)
    case Success(p) =>
      var vecs := seq(|fp.hiddenStates|, l requires 0 <= l < |fp.hiddenStates| => fp.hiddenStates[l][p]);
      var identity := seq(|vecs|, l requires 0 <= l < |vecs| => cosine(vecs[l], fp.staticEmbeddings[p]));
      if |identity| == 0 then Failure(EmptyIdentity)
      else Success(Record(name, token, identity, vecs, HalfLife(identity), identity[|identity| - 1]))
  }

  /**
   * run_single_experiment: the token check, then one pass over the hidden
   * layers appending the vector and its identity similarity.
   */
  method RunSingleExperiment(name: string, token: string, fp: ForwardPass, cosine: Similarity)
    returns (r: Result<Record>)
    requires WellShaped(fp)
    ensures r == Extract(name, token, fp, cosine)
  {
    if token !in fp.tokens {
      return Failure(TokenNotFound(token, fp.tokens));
    }
    var idx := IndexOf(fp.tokens, token);
    var emb := fp.staticEmbeddings[idx];
    var identity: seq<real> := [];
    var vecs: seq<Vector> := [];
    for l := 0 to |fp.hiddenStates|
      invariant |vecs| == l && |identity| == l
      invariant forall k :: 0 <= k < l ==> vecs[k] == fp.hiddenStates[k][idx]
      invariant forall k :: 0 <= k < l ==> identity[k] == cosine(vecs[k], emb)
    {
      var v := fp.hiddenStates[l][idx];
      vecs := vecs + [v];
      identity := identity + [cosine(v, emb)];
    }
    assert vecs == seq(|fp.hiddenStates|, l requires 0 <= l < |fp.hiddenStates| => fp.hiddenStates[l][idx]);
    assert identity == seq(|vecs|, l requires 0 <= l < |vecs| => cosine(vecs[l], emb));
    if |identity| == 0 {
      return Failure(EmptyIdentity);
    }
    r := Success(Record(name, token, identity, vecs, HalfLife(identity), identity[|identity| - 1]));
  }

  /** The target position is the first occurrence, so a later duplicate never changes it. */
  lemma {:induction false} FirstOccurrenceWins(tokens: seq<string>, token: string, suffix: seq<string>)
    requires token in tokens
    ensures IndexOf(tokens + suffix, token) == IndexOf(tokens, token)
  {
    if tokens[0] != token {
      assert (tokens + suffix)[1..] == tokens[1..] + suffix;
      FirstOccurrenceWins(tokens[1..], token, suffix);
    }
  }
}
