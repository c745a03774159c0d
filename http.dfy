/** What the API handlers answer, and the collaborator outcomes they react to. */
module Http {
  import Jobs

  /** The JSON body of a response. */
  datatype Body =
    | Message(text: string)          // `{ message }`
    | Succeeded                      // `{ success: true }`
    | JobPayload(job: Jobs.Job)
    | JobsPayload(jobs: seq<Jobs.Job>)

  datatype Response = Response(status: int, body: Body)

  /** The answer of every handler's catch-all `catch` block. */
  const InternalError: Response := Response(500, Message("Internal server error"))

  /** Whether reading and rewriting the jobs document succeed on this
      request; a failing one throws inside the repository call. */
  datatype Storage = Storage(readOk: bool, writeOk: bool)
}
