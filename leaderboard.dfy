/** The end-of-run score flow of the game page: the save button (a payload
    built from the name field and the finished run, sent to the server and
    always also pushed to the local list) and the leaderboard (the fetched
    list merged with the local list, sorted by score, first ten shown). */
module Leaderboard {
  import opened Text
  import opened Scores
  import opened ScoreClient
  import ScoreService

  /** How many records the leaderboard shows. */
  const ShownCount: nat := 10
  /** The longest name the page sends. */
  const MaxPlayerName: nat := 20

  /** `(input || "Anon").trim().slice(0, 20)`: "Anon" for an empty field,
      otherwise the first 20 characters of the trimmed field (all of it when
      shorter); never starting with whitespace, and empty exactly when the
      field held only whitespace. */
  function PlayerName(input: string): (name: string)
    ensures |name| <= MaxPlayerName
    ensures name == "" <==> input != "" && AllSpace(input)
    ensures name == "" || !IsSpace(name[0])
    ensures input == "" ==> name == "Anon"
    ensures input != "" ==>
      && |name| == (if |Trim(input)| <= MaxPlayerName then |Trim(input)| else MaxPlayerName)
      && name == Trim(input)[..|name|]
  {
    TrimAnon();
    Truncate(Trim(if input == "" then "Anon" else input), MaxPlayerName)
  }

  /** The default name has no white space to trim. */
  lemma TrimAnon()
    ensures Trim("Anon") == "Anon"
  {
    assert "Anon"[0] == 'A' && !IsSpace('A');
    assert "Anon"[3] == 'n' && !IsSpace('n');
  }

  /** The payload `{name, score, level, date}` of a finished run. */
  function Payload(input: string, score: int, level: int, now: string): Record {
    Record(PlayerName(input), score, Num(level as real), Str(now))
  }

  /** A whitespace-only name reaches the server as "", which the server
      rejects as an invalid name, so the save falls back to local storage. */
  lemma BlankNameIsRejected(input: string, score: int, level: int, now: string, serverNow: string)
    requires input != "" && AllSpace(input)
    ensures var p := Payload(input, score, level, now);
      ScoreService.Validate(ScoreService.Body(Str(p.name), Num(p.score as real), p.level, p.date), serverNow)
        == ScoreService.Reject("invalid name")
  {
  }

  /** The local list after the save button: `saveScoreToServer` (which on
      failure already stores the payload), then the page's own push. */
  function LocalAfterSave(stored: Option<seq<Record>>, payload: Record, response: Outcome<Value>): seq<Record> {
    var afterApi := if response.Fail? then Some(FallbackList(stored, payload)) else stored;
    OrEmpty(afterApi) + [payload]
  }

  /** Saving never loses the payload: it ends up last in the local list, and
      on a failed request it is there twice; nothing else is added or lost. */
  lemma SaveKeepsPayload(stored: Option<seq<Record>>, payload: Record, response: Outcome<Value>)
    ensures var local := LocalAfterSave(stored, payload, response);
      && local[|local| - 1] == payload
      && multiset(local) == multiset(OrEmpty(stored)) + multiset{payload}
           + (if response.Fail? then multiset{payload} else multiset{})
  {
  }

  /** The save button's handler, for a run that ended with `score` at
      `level`, with the clock's reading `now` and the server's `response`. */
  method SaveScore(storage: LocalStorage, input: string, score: int, level: int, now: string,
                   response: Outcome<Value>)
    returns (payload: Record)
    modifies storage
    ensures payload == Payload(input, score, level, now)
    ensures storage.localScores == Some(LocalAfterSave(old(storage.localScores), payload, response))
  {
    payload := Record(PlayerName(input), score, Num(level as real), Str(now));
    var _ := SaveScoreToServer(storage, payload, response);
    var localStored := OrEmpty(storage.localScores);
    localStored := localStored + [payload];
    storage.localScores := Some(localStored);
  }

  /** The merge of `showLeaderboard`: what was fetched (`[]` unless it is an
      array) followed by the local list, sorted by score, first ten. Ten
      records, or all when there are fewer, sorted, all from the two lists, and every record left out
      scored no higher than any record shown. */
  function Board(fetched: Listing, local: seq<Record>): (top: seq<Record>)
    ensures |top| == (if |Entries(fetched)| + |local| <= ShownCount then |Entries(fetched)| + |local|
                      else ShownCount)
    ensures SortedByScore(top)
    ensures multiset(top) <= multiset(Entries(fetched)) + multiset(local)
    ensures |Entries(fetched)| + |local| <= ShownCount ==>
      multiset(top) == multiset(Entries(fetched)) + multiset(local)
    ensures forall e :: e in multiset(Entries(fetched)) + multiset(local) - multiset(top) ==>
      forall j :: 0 <= j < |top| ==> e.score <= top[j].score
  {
    var combined := Entries(fetched) + local;
    assert multiset(combined) == multiset(Entries(fetched)) + multiset(local);
    TopScores(combined, ShownCount)
  }

  /** A local record is never hidden behind a lower-scored record: if the
      board shows anything scored below it, it is shown itself. */
  lemma LocalNotHidden(fetched: Listing, local: seq<Record>, e: Record, j: int)
    requires e in local
    requires var top := Board(fetched, local); 0 <= j < |top| && top[j].score < e.score
    ensures e in Board(fetched, local)
  {
    var top := Board(fetched, local);
    var left := multiset(Entries(fetched)) + multiset(local) - multiset(top);
    assert e in multiset(local);
    assert e !in multiset(top) ==> e in left;
  }

  /** When the fetch fails, its fallback already is the local list, so the
      merge holds every local record twice. */
  lemma FailedFetchCountsLocalTwice(local: seq<Record>)
    requires |local| <= ShownCount / 2
    ensures multiset(Board(JsonArray(local), local)) == multiset(local) + multiset(local)
  {
  }

  /** `showLeaderboard()`: fetch, then merge with the local list. */
  method ShowLeaderboard(storage: LocalStorage, response: Outcome<Listing>) returns (shown: seq<Record>)
    ensures shown == Board(JsonArray(if response.Ok? then Entries(response.data)
                                     else OrEmpty(storage.localScores)),
                           OrEmpty(storage.localScores))
  {
    var arr := FetchScoresFromServer(storage, response);
    var local := OrEmpty(storage.localScores);
    shown := Board(JsonArray(arr), local);
  }
}
