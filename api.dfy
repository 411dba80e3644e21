/** The JSON answer of the `/api/process` endpoint, shared by the server and the two front-end consumers. */
module Api {

  /** `{ success: true, summary, summary_file }` or `{ success: false, error }`. */
  datatype Body =
    | SuccessBody(summary: string, summaryFile: string)
    | ErrorBody(error: string)

  /** An HTTP status code with its JSON body. */
  datatype Response = Response(status: int, body: Body)
}
