/** The score service: `readScores`, `GET /scores` and `POST /scores`.
    The scores file is an abstract store: `None` when it is missing, cannot be
    read or does not parse, otherwise the list of records it holds. */
module ScoreService {
  import opened Text
  import opened Scores

  /** The JSON body of a POST, destructured as `{ name, score, level, date }`. */
  datatype Body = Body(name: Value, score: Value, level: Value, date: Value)

  /** The answer of POST: `{ok: true}`, or status 400 with `{error}`. */
  datatype PostResponse = PostOk | BadRequest(error: string)

  /** The outcome of validating and normalising a body. */
  datatype Verdict = Accept(entry: Record) | Reject(error: string)

  /** The longest stored name. */
  const MaxNameLength: nat := 40
  /** How many records GET returns at most. */
  const ListLimit: nat := 100

  /** `!name || typeof name !== "string" || name.trim().length === 0` */
  predicate BadName(name: Value) {
    !Truthy(name) || !name.Str? || |Trim(name.s)| == 0
  }

  /** `typeof score !== "number" || !Number.isFinite(score) || score < 0` */
  predicate BadScore(score: Value) {
    !(score.Num? || score.NonFinite?) || score.NonFinite? || score.n < 0.0
  }

  lemma BadNameMeansBlank(name: Value)
    ensures BadName(name) <==> !(name.Str? && !AllSpace(name.s))
  {
  }

  /** `String(name).trim().slice(0, 40)` of a name that is not blank: the
      first 40 characters of the trimmed name, or all of it when shorter. */
  function NormalName(name: string): (r: string)
    requires !AllSpace(name)
    ensures 1 <= |r| <= MaxNameLength
    ensures |r| == (if |Trim(name)| <= MaxNameLength then |Trim(name)| else MaxNameLength)
    ensures r == Trim(name)[..|r|]
    ensures !IsSpace(r[0])
  {
    Truncate(Trim(name), MaxNameLength)
  }

  /** `Math.floor(score)` of a valid score: the whole number at or just below it. */
  function NormalScore(score: real): (r: int)
    requires score >= 0.0
    ensures 0 <= r && r as real <= score < r as real + 1.0
  {
    score.Floor
  }

  /** `typeof level === "number" ? Math.floor(level) : 1`; the floor of an
      infinite level is that infinity. */
  function NormalLevel(level: Value): (r: Value)
    ensures level.Num? ==> r.Num? && r.n.Floor as real == r.n && r.n <= level.n < r.n + 1.0
    ensures level.NonFinite? ==> r == NonFinite
    ensures !level.Num? && !level.NonFinite? ==> r == Num(1.0)
  {
    match level
    case Num(n) => Num(n.Floor as real)
    case NonFinite => NonFinite
    case _ => Num(1.0)
  }

  /** `date || new Date().toISOString()` with the clock's reading `now`. */
  function NormalDate(date: Value, now: string): Value {
    if Truthy(date) then date else Str(now)
  }

  /** The validation and the new entry of the POST handler. A body is
      rejected for its name before its score, and an accepted entry has a
      trimmed name of 1 to 40 characters, the score rounded down, the level
      rounded down (1 when it is not a number) and the given date when it
      is truthy, else `now`. */
  function Validate(body: Body, now: string): (v: Verdict)
    ensures v.Accept? <==>
      body.name.Str? && !AllSpace(body.name.s) && body.score.Num? && body.score.n >= 0.0
    ensures v == Reject("invalid name") <==> !(body.name.Str? && !AllSpace(body.name.s))
    ensures v == Reject("invalid score") <==>
      body.name.Str? && !AllSpace(body.name.s) && !(body.score.Num? && body.score.n >= 0.0)
    ensures v.Accept? ==>
      v.entry == Record(NormalName(body.name.s), NormalScore(body.score.n),
                        NormalLevel(body.level), NormalDate(body.date, now))
  {
    BadNameMeansBlank(body.name);
    if BadName(body.name) then Reject("invalid name")
    else if BadScore(body.score) then Reject("invalid score")
    else
      Accept(Record(
        NormalName(body.name.s),
        NormalScore(body.score.n),
        NormalLevel(body.level),
        NormalDate(body.date, now)))
  }

  /** The worked example: `"  Bob  "` with score 12.9 is stored as `"Bob"`, 12. */
  lemma BobIsNormalised(now: string)
    ensures Validate(Body(Str("  Bob  "), Num(12.9), Absent, Absent), now)
         == Accept(Record("Bob", 12, Num(1.0), Str(now)))
  {
    var body := Body(Str("  Bob  "), Num(12.9), Absent, Absent);
    NormalBob();
    var v := Validate(body, now);
    assert v.Accept?;
    assert v.entry.name == "Bob";
    assert v.entry.score == 12 by {
      assert v.entry.score as real <= 12.9 < v.entry.score as real + 1.0;
    }
    assert v.entry.level == Num(1.0);
    assert v.entry.date == Str(now);
  }

  lemma NormalBob()
    ensures Trim("  Bob  ") == "Bob" && !AllSpace("  Bob  ") && NormalName("  Bob  ") == "Bob"
  {
    TrimBob();
    assert !IsSpace("  Bob  "[2]);
    assert Truncate("Bob", MaxNameLength) == "Bob";
  }

  lemma TrimBob()
    ensures Trim("  Bob  ") == "Bob"
  {
    TrimStartBob();
    TrimEndBob();
  }

  lemma TrimStartBob()
    ensures TrimStart("  Bob  ") == "Bob  "
  {
    var s0, s1, s2 := "  Bob  ", " Bob  ", "Bob  ";
    assert s0[0] == ' ' && s0[1..] == s1;
    assert s1[0] == ' ' && s1[1..] == s2;
    assert s2[0] == 'B' && !IsSpace('B');
    calc {
      TrimStart(s0);
      TrimStart(s1);
      TrimStart(s2);
      s2;
    }
  }

  lemma TrimEndBob()
    ensures TrimEnd("Bob  ") == "Bob"
  {
    var s0, s1, s2 := "Bob  ", "Bob ", "Bob";
    assert s0[4] == ' ' && s0[..4] == s1;
    assert s1[3] == ' ' && s1[..3] == s2;
    assert s2[2] == 'b' && !IsSpace('b');
    calc {
      TrimEnd(s0);
      TrimEnd(s1);
      TrimEnd(s2);
      s2;
    }
  }

  /** The scores file. */
  class ScoreStore {
    var file: Option<seq<Record>>

    constructor (initial: Option<seq<Record>>)
      ensures file == initial
    {
      file := initial;
    }

    /** `readScores()`: the stored list, or, when there is none, `[]` after
        writing `[]` to the file. */
    method ReadScores() returns (arr: seq<Record>)
      modifies this
      ensures arr == OrEmpty(old(file))
      ensures file == Some(arr)
    {
      if file.Some? {
        arr := file.value;
      } else {
        file := Some([]);
        arr := [];
      }
    }

    /** `GET /scores`: the top 100 by score; the file is only touched when
        `readScores` had to create it. */
    method GetScores() returns (top: seq<Record>)
      modifies this
      ensures file == Some(OrEmpty(old(file)))
      ensures top == TopScores(OrEmpty(old(file)), ListLimit)
    {
      var arr := ReadScores();
      arr := SortByScore(arr);
      top := Take(arr, ListLimit);
    }

    /** `POST /scores`: a rejected body leaves the file as it was; an accepted
        entry is appended and the whole list is stored sorted by score. */
    method PostScores(body: Body, now: string) returns (resp: PostResponse)
      modifies this
      ensures Validate(body, now).Reject? ==>
        resp == BadRequest(Validate(body, now).error) && file == old(file)
      ensures Validate(body, now).Accept? ==>
        resp == PostOk && file == Some(SortByScore(OrEmpty(old(file)) + [Validate(body, now).entry]))
    {
      var verdict := Validate(body, now);
      if verdict.Reject? {
        return BadRequest(verdict.error);
      }
      var newEntry := verdict.entry;
      var arr := ReadScores();
      arr := arr + [newEntry];
      arr := SortByScore(arr);
      file := Some(arr);
      resp := PostOk;
    }
  }

  /** The file after an accepted POST holds exactly the old records and the
      new entry, sorted by score. */
  lemma AcceptedPostKeepsAll(before: Option<seq<Record>>, entry: Record)
    ensures var stored := SortByScore(OrEmpty(before) + [entry]);
      && multiset(stored) == multiset(OrEmpty(before)) + multiset{entry}
      && SortedByScore(stored)
  {
  }

  /** Two POSTs, of scores 50 and 90, then a GET on a fresh file: the GET
      lists 90 before 50. */
  method PostTwiceThenGet() returns (scores: seq<int>)
    ensures scores == [90, 50]
  {
    var store := new ScoreStore(None);
    var b1 := Body(Str("Ann"), Num(50.0), Num(1.0), Str("d1"));
    var b2 := Body(Str("Ben"), Num(90.0), Num(1.0), Str("d2"));
    SampleScores(b1, 50);
    SampleScores(b2, 90);
    var _ := store.PostScores(b1, "now");
    var _ := store.PostScores(b2, "now");
    var top := store.GetScores();
    TwoRecordsListed(Validate(b1, "now").entry, Validate(b2, "now").entry);
    scores := [top[0].score, top[1].score];
  }

  /** Listing the file that two POSTs of `low` then `high` leave behind. */
  lemma TwoRecordsListed(low: Record, high: Record)
    requires low.score < high.score
    ensures var top := TopScores(SortByScore(SortByScore(OrEmpty(None) + [low]) + [high]), ListLimit);
      top == [high, low]
  {
    var first := SortByScore(OrEmpty(None) + [low]);
    assert multiset(first) == multiset{low};
    var stored := SortByScore(first + [high]);
    assert multiset(stored) == multiset{low, high};
    var top := TopScores(stored, ListLimit);
    assert |stored| == 2;
    SortedPair(top, low, high);
  }

  /** The only ordering of two records with different scores. */
  lemma SortedPair(top: seq<Record>, low: Record, high: Record)
    requires low.score < high.score
    requires |top| == 2 && SortedByScore(top) && multiset(top) == multiset{low, high}
    ensures top == [high, low]
  {
    assert top == [top[0], top[1]];
    assert multiset(top) == multiset{top[0]} + multiset{top[1]};
    assert top[0] in multiset(top) && top[1] in multiset(top);
    assert top[0] == high;
    assert multiset{top[1]} == multiset{low};
  }

  lemma SampleScores(b: Body, score: nat)
    requires b.name == Str("Ann") || b.name == Str("Ben")
    requires b.score == Num(score as real)
    ensures Validate(b, "now").Accept? && Validate(b, "now").entry.score == score
  {
    assert !AllSpace(b.name.s) by {
      assert !IsSpace(b.name.s[0]);
    }
  }
}
