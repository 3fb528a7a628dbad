/** Plain generation of one request on its own, and what it means for a sequence to be on its way there. */
module Reference {
  import opened BlockPool
  import opened Requests
  import opened Network

  /** Keep appending the model's next token until a stop token or `left` more tokens. */
  ghost function Continue(net: Net, params: SamplingParams, toks: seq<Token>, left: nat): seq<Token>
    requires toks != []
    decreases left
  {
    if left == 0 then toks
    else
      var t := NextToken(net, params, toks);
      if IsStop(params, t) then toks + [t] else Continue(net, params, toks + [t], left - 1)
  }

  /** The complete output of a request generated alone, prompt included. */
  ghost function RefOutput(net: Net, params: SamplingParams, prompt: seq<Token>): seq<Token>
    requires prompt != []
  {
    Continue(net, params, prompt, if params.maxTokens >= 0 then params.maxTokens else 0)
  }

  lemma {:induction false} ContinueExtends(net: Net, params: SamplingParams, toks: seq<Token>, left: nat)
    requires toks != []
    ensures toks <= Continue(net, params, toks, left)
    ensures |Continue(net, params, toks, left)| <= |toks| + left
    decreases left
  {
    if left > 0 {
      var t := NextToken(net, params, toks);
      if !IsStop(params, t) {
        ContinueExtends(net, params, toks + [t], left - 1);
      }
    }
  }

  predicate WellFormed(s: Sequence) {
    1 <= s.promptLen <= |s.tokens| && s.computed <= |s.tokens| && s.params.maxTokens >= 1
  }

  ghost function RefOf(net: Net, s: Sequence): seq<Token>
    requires WellFormed(s)
  {
    RefOutput(net, s.params, s.tokens[..s.promptLen])
  }

  /** Not finished: what is left to generate completes the reference output. */
  ghost predicate Live(net: Net, s: Sequence)
    requires WellFormed(s)
  {
    && s.finish == NoFinish && NumGenerated(s) < s.params.maxTokens
    && Continue(net, s.params, s.tokens, s.params.maxTokens - NumGenerated(s)) == RefOf(net, s)
  }

  /** Ended by Stop or Length with exactly the reference output. */
  ghost predicate Complete(net: Net, s: Sequence)
    requires WellFormed(s)
  {
    (s.finish == Stop || s.finish == Length) && s.tokens == RefOf(net, s)
  }

  /** Left the engine: the tokens are a prefix of the reference output, all of it unless cut short. */
  ghost predicate Over(net: Net, s: Sequence)
    requires WellFormed(s)
  {
    && s.finish != NoFinish && s.tokens <= RefOf(net, s)
    && (s.finish == Stop || s.finish == Length ==> s.tokens == RefOf(net, s))
  }

  lemma LivePrefix(net: Net, s: Sequence)
    requires WellFormed(s) && Live(net, s)
    ensures s.tokens <= RefOf(net, s) && |s.tokens| < s.promptLen + s.params.maxTokens
  {
    ContinueExtends(net, s.params, s.tokens, s.params.maxTokens - NumGenerated(s));
  }

  lemma RefBounded(net: Net, s: Sequence)
    requires WellFormed(s)
    ensures |RefOf(net, s)| <= s.promptLen + s.params.maxTokens
  {
    ContinueExtends(net, s.params, s.tokens[..s.promptLen], s.params.maxTokens);
  }

  /** A fresh request is live. */
  lemma NewIsLive(net: Net, s: Sequence)
    requires WellFormed(s) && s.promptLen == |s.tokens| && s.finish == NoFinish
    ensures Live(net, s)
  {
    assert s.tokens[..s.promptLen] == s.tokens;
  }

  /** Appending the reference's next token either keeps a live sequence live or completes it. */
  lemma AppendTracks(net: Net, s: Sequence, s1: Sequence, t: Token)
    requires WellFormed(s) && Live(net, s) && t == NextToken(net, s.params, s.tokens)
    requires s1 == s.(tokens := s.tokens + [t])
    ensures WellFormed(s1) && RefOf(net, s1) == RefOf(net, s)
    ensures IsStop(s.params, t) || NumGenerated(s1) >= s.params.maxTokens ==> s1.tokens == RefOf(net, s1)
    ensures !IsStop(s.params, t) && NumGenerated(s1) < s.params.maxTokens ==> Live(net, s1)
  {
    assert s1.tokens[..s1.promptLen] == s.tokens[..s.promptLen];
    var left := s.params.maxTokens - NumGenerated(s);
    assert Continue(net, s.params, s.tokens, left) ==
           if IsStop(s.params, t) then s.tokens + [t] else Continue(net, s.params, s.tokens + [t], left - 1);
  }

  /** Token `k` of `out` ends the generation. */
  predicate StopsAt(params: SamplingParams, out: seq<Token>, k: int) {
    0 <= k < |out| && !params.ignoreEos && out[k] in params.stopIds
  }

  lemma {:induction false} ContinueEnds(net: Net, params: SamplingParams, toks: seq<Token>, left: nat)
    requires toks != []
    ensures var out := Continue(net, params, toks, left);
            && toks <= out && (forall k :: |toks| <= k < |out| - 1 ==> !StopsAt(params, out, k))
            && |out| <= |toks| + left && (|out| < |toks| + left ==> |out| > |toks| && StopsAt(params, out, |out| - 1))
            && forall k :: |toks| <= k < |out| ==> out[k] == NextToken(net, params, out[..k])
    decreases left
  {
    hide NextToken;
    if left > 0 {
      var t := NextToken(net, params, toks);
      assert (toks + [t])[..|toks|] == toks;
      if !IsStop(params, t) {
        ContinueEnds(net, params, toks + [t], left - 1);
        var out := Continue(net, params, toks + [t], left - 1);
        assert out[|toks|] == (toks + [t])[|toks|] == t && out[..|toks|] == toks;
      }
    }
  }

  /**
   What plain generation gives: after the prompt, each token is the model's next one; only the last may be a stop
   token; and it is shorter than `max_tokens` only if it ends in one, hence never with `ignore_eos`.
   */
  lemma ReferenceIs(net: Net, params: SamplingParams, prompt: seq<Token>)
    requires prompt != [] && params.maxTokens >= 1
    ensures var out := RefOutput(net, params, prompt);
            && prompt <= out && |prompt| < |out| <= |prompt| + params.maxTokens
            && (forall k :: |prompt| <= k < |out| ==> out[k] == NextToken(net, params, out[..k]))
            && (forall k :: |prompt| <= k < |out| - 1 ==> !StopsAt(params, out, k))
            && (|out| < |prompt| + params.maxTokens ==> StopsAt(params, out, |out| - 1))
    ensures var out := RefOutput(net, params, prompt);
            params.ignoreEos || (forall k :: |prompt| <= k < |out| ==> out[k] !in params.stopIds) ==> |out| == |prompt| + params.maxTokens
  {
    hide NextToken;
    ContinueEnds(net, params, prompt, params.maxTokens);
  }
}
