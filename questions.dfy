/** Values shared by the caches and the proxy: an optional value and the quiz question itself. */
module Questions {

  /** `null` in the source: a lookup that found nothing. */
  datatype Option<+T> = None | Some(value: T)

  /**
   * A quiz question as the caches and the proxy handle it, already decoded
   * from its JSON form: the server-assigned id, the question text, the answers
   * in order, the index of the correct answer, the tag set and the owner.
   */
  datatype Question = Question(
    id: int,
    text: string,
    answers: seq<string>,
    solution: int,
    tags: set<string>,
    owner: string)
}
