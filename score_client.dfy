/** The browser's score client: `fetchScoresFromServer` and
    `saveScoreToServer`, with their fallback to the list kept in local
    storage under "runner_local_scores". The HTTP exchange is an input. */
module ScoreClient {
  import opened Scores

  /** How a `fetch` ends: a response with `ok` set whose JSON body is `data`,
      or a failure (network error, a status that is not ok, or a body that
      is not JSON), which the source turns into the catch branch. */
  datatype Outcome<T> = Ok(data: T) | Fail

  /** What `saveScoreToServer` resolves to: the server's JSON answer, or
      `{fallback: true}`. */
  datatype SaveResult = ServerReply(body: Value) | Fallback

  /** The browser's local storage entry "runner_local_scores" (`None` when
      the key is absent). */
  class LocalStorage {
    var localScores: Option<seq<Record>>

    constructor (initial: Option<seq<Record>>)
      ensures localScores == initial
    {
      localScores := initial;
    }
  }

  /** `fetchScoresFromServer()`: the server's list when it answered with an
      array, `[]` when it answered with anything else, and the local list
      when the request failed. Local storage is only read. */
  method FetchScoresFromServer(storage: LocalStorage, response: Outcome<Listing>)
    returns (scores: seq<Record>)
    ensures response.Ok? && response.data.JsonArray? ==> scores == response.data.items
    ensures response.Ok? && response.data.NotAnArray? ==> scores == []
    ensures response.Fail? ==> scores == OrEmpty(storage.localScores)
  {
    match response
    case Ok(data) =>
      scores := if data.JsonArray? then data.items else [];
    case Fail =>
      scores := OrEmpty(storage.localScores);
  }

  /** The local list after a failed save: the payload pushed onto the stored
      list, then the list sorted by score. */
  function FallbackList(stored: Option<seq<Record>>, payload: Record): (r: seq<Record>)
    ensures multiset(r) == multiset(OrEmpty(stored)) + multiset{payload}
    ensures SortedByScore(r)
  {
    SortByScore(OrEmpty(stored) + [payload])
  }

  /** `saveScoreToServer(payload)`: on success the server's answer, with
      local storage untouched; on failure the payload is kept locally and
      the answer is `{fallback: true}`. */
  method SaveScoreToServer(storage: LocalStorage, payload: Record, response: Outcome<Value>)
    returns (result: SaveResult)
    modifies storage
    ensures response.Ok? ==>
      result == ServerReply(response.data) && storage.localScores == old(storage.localScores)
    ensures response.Fail? ==>
      result == Fallback && storage.localScores == Some(FallbackList(old(storage.localScores), payload))
  {
    if response.Ok? {
      return ServerReply(response.data);
    }
    var local := OrEmpty(storage.localScores);
    local := local + [payload];
    local := SortByScore(local);
    storage.localScores := Some(local);
    return Fallback;
  }
}
