/** How calls to the Kubernetes API server and to Nomad end. */
module Api {

  datatype Option<+T> = None | Some(value: T)

  // Done, refused, or done with the reply lost.
  datatype Outcome = Ok | Refused | ReplyLost {
    predicate Applied() { this != Refused }
  }
}
