/** process_thoughts: the agent's "thought formatting" tool hands its input back unchanged. */
module ProcessThought {

  /** Any string, the empty one included, is accepted and returned as it is. */
  function ProcessThoughts(thought: string): (r: string)
    ensures |r| == |thought| && forall k :: 0 <= k < |r| ==> r[k] == thought[k]
  {
    thought
  }

  /** Running the tool on its own output changes nothing. */
  lemma ProcessThoughtsIdempotent(thought: string)
    ensures ProcessThoughts(ProcessThoughts(thought)) == ProcessThoughts(thought)
  {
  }
}
