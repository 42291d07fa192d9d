/**
 * What both FastAPI handlers call: the retriever (`get_exercises_by_profile`)
 * and the generator (`generate_workout_plan`), each giving back its value or
 * the exception it raised.
 */
module Pipeline {
  import opened Outcomes
  import opened Dicts
  import opened Py
  import opened Retriever

  type Retrieve = Dict<PyValue> -> Result<RetrievalResult, PyError>
  type Generate = (Dict<PyValue>, seq<Exercise>) -> Result<Dict<PyValue>, PyError>

  /** The real retriever over a given knowledge base and sequence of random draws. */
  function RealRetriever(kb: KnowledgeBase, draws: seq<nat>): Retrieve
  {
    profile => GetExercisesByProfile(profile, kb, draws)
  }
}
