/**
 * The HTTP side of the registry client, as an oracle: whether the client
 * could be built, and what a GET of each URL answers.
 */
module Network {
  import opened Wrappers
  import opened JsonValues

  /**
   * The outcome of `client.get(url).send()`: the request failed, or a reply
   * with its status and its body, `None` when the body is not JSON.
   */
  datatype Response = SendFailed | Reply(status: int, body: Option<Json>)

  datatype Web = Web(clientBuilds: bool, fetch: string -> Response)

  /** `StatusCode::is_success`: the 2xx range. */
  predicate IsSuccess(status: int) {
    200 <= status < 300
  }
}
