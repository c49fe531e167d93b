/** Chat turns as the script stores them in its session transcript, and the
    predicates that say where the most recent user turn of a transcript is. */
module Messages {

  datatype Option<T> = None | Some(value: T)

  /** The two roles a transcript entry carries: "user" and "assistant". */
  datatype Role = User | Assistant

  /** One `{"role": ..., "content": ...}` record of the transcript. */
  datatype Turn = Turn(role: Role, content: string)

  /** Some entry of `messages` was written by the user. */
  ghost predicate HasUserTurn(messages: seq<Turn>) {
    exists i :: 0 <= i < |messages| && messages[i].role == User
  }

  /** `i` is the position of the most recent user turn of `messages`:
      that entry is a user turn and every later entry is not. */
  ghost predicate IsLastUserIndex(messages: seq<Turn>, i: int) {
    && 0 <= i < |messages|
    && messages[i].role == User
    && forall j :: i < j < |messages| ==> messages[j].role != User
  }
}
