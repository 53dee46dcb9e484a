/** What the runtime context makes of its provider's replies. */
module ContextReplies {
  import opened Text
  import opened Json
  import opened Parser
  import opened Observations
  import opened RuntimeContext
  import opened ContextPolicy
  import opened ObservationContract

  /** The text parses to a block that describes the Observation. */
  ghost predicate Tells(text: string, o: Observation, other: OtherLiterals) {
    exists b, names :: Parse(text, other) == Some(b) && Describes(b, names, o)
  }

  /** A request for a call ends with an Observation exactly when its provider answered with a text that tells it, of
      that round and of that call only; otherwise as cancelled, as a provider's error, or as invalid. */
  lemma RequestEnds(key: Key, reply: ModelReply, other: OtherLiterals, o: Observation)
    ensures Settle(key, reply, other) == Observed(o) <==>
      reply.Answer? && o.round == key.0 && IsOfCall(o, key.1) && Tells(reply.text, o, other)
    ensures reply == Interrupted ==> Settle(key, reply, other) == Refused(Cancelled)
    ensures reply == Broken ==> Settle(key, reply, other) == Refused(ProviderError)
    ensures reply.Answer? && !Settle(key, reply, other).Observed? ==> Settle(key, reply, other) == Refused(Invalid)
  {
    if reply.Answer? {
      ObservationIsRead(reply.text, key.0, Some(key.1), other, o);
    }
  }

  /** A merge request brings back exactly the Observation of the second one's round that its provider's text tells. */
  lemma MergeRequestEnds(second: Observation, reply: ModelReply, other: OtherLiterals, o: Observation)
    ensures ReadMerge(second, reply, other) == Merged(o) <==>
      reply.Answer? && o.round == second.round && Tells(reply.text, o, other)
  {
    if reply.Answer? {
      ObservationIsRead(reply.text, second.round, None, other, o);
    }
  }
}
