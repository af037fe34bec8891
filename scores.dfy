/** Score records as the client and the server exchange them, and the one
    ordering both sides apply to them: JavaScript's stable `Array.prototype.sort`
    with the comparator `(a, b) => b.score - a.score`, followed by `slice(0, n)`. */
module Scores {

  datatype Option<T> = None | Some(value: T)

  /** A JSON value as it arrives in a request body or in a stored record. */
  datatype Value =
    | Num(n: real)   // a finite number
    | NonFinite      // Infinity or -Infinity (JSON text such as 1e999 parses to it)
    | Str(s: string)
    | Bool(b: bool)
    | Null
    | Absent         // the property is missing (undefined)
    | Composite      // an object or an array

  /** JavaScript truthiness. */
  predicate Truthy(v: Value) {
    match v
    case Num(n) => n != 0.0
    case NonFinite => true
    case Str(s) => s != ""
    case Bool(b) => b
    case Null => false
    case Absent => false
    case Composite => true
  }

  /** A ScoreRecord `{name, score, level, date}`. */
  datatype Record = Record(name: string, score: int, level: Value, date: Value)

  /** A parsed JSON document that should hold a list of records. */
  datatype Listing = JsonArray(items: seq<Record>) | NotAnArray

  /** `Array.isArray(x) ? x : []` */
  function Entries(l: Listing): seq<Record> {
    if l.JsonArray? then l.items else []
  }

  /** A stored list read back, where a missing entry reads as `[]`. */
  function OrEmpty(stored: Option<seq<Record>>): seq<Record> {
    if stored.Some? then stored.value else []
  }

  predicate SortedByScore(s: seq<Record>) {
    forall i, j :: 0 <= i < j < |s| ==> s[i].score >= s[j].score
  }

  /** Inserts `x` in front of the first record scored no higher than it. */
  function InsertByScore(x: Record, s: seq<Record>): (r: seq<Record>)
    ensures |r| == |s| + 1 && multiset(r) == multiset(s) + multiset{x}
  {
    if s == [] || x.score >= s[0].score then [x] + s
    else
      assert s == [s[0]] + s[1..];
      [s[0]] + InsertByScore(x, s[1..])
  }

  lemma {:induction false} InsertKeepsSorted(x: Record, s: seq<Record>)
    requires SortedByScore(s)
    ensures SortedByScore(InsertByScore(x, s))
  {
    if s == [] || x.score >= s[0].score {
    } else {
      var t := InsertByScore(x, s[1..]);
      InsertKeepsSorted(x, s[1..]);
      forall k | 0 <= k < |t| ensures s[0].score >= t[k].score {
        assert t[k] in multiset(t);
        if t[k] != x {
          assert t[k] in multiset(s[1..]);
          var m :| 0 <= m < |s[1..]| && s[1..][m] == t[k];
          assert s[1 + m] == t[k];
        }
      }
    }
  }

  /** `arr.sort((a, b) => b.score - a.score)`: a permutation of the input,
      ordered by non-increasing score. */
  function SortByScore(s: seq<Record>): (r: seq<Record>)
    ensures |r| == |s| && multiset(r) == multiset(s)
    ensures SortedByScore(r)
  {
    if s == [] then []
    else
      var t := SortByScore(s[1..]);
      InsertKeepsSorted(s[0], t);
      assert s == [s[0]] + s[1..];
      InsertByScore(s[0], t)
  }

  /** The records of `s` scored exactly `k`, in their order in `s`. */
  function ScoredAt(s: seq<Record>, k: int): seq<Record> {
    if s == [] then []
    else (if s[0].score == k then [s[0]] else []) + ScoredAt(s[1..], k)
  }

  lemma ScoredAtCons(a: Record, t: seq<Record>, k: int)
    ensures ScoredAt([a] + t, k) == (if a.score == k then [a] else []) + ScoredAt(t, k)
  {
    assert ([a] + t)[1..] == t;
  }

  lemma {:induction false} InsertScoredAt(x: Record, s: seq<Record>, k: int)
    ensures ScoredAt(InsertByScore(x, s), k)
         == (if x.score == k then [x] else []) + ScoredAt(s, k)
  {
    if s == [] || x.score >= s[0].score {
      ScoredAtCons(x, s, k);
    } else {
      InsertScoredAt(x, s[1..], k);
      ScoredAtCons(s[0], InsertByScore(x, s[1..]), k);
      ScoredAtCons(s[0], s[1..], k);
      assert s == [s[0]] + s[1..];
    }
  }

  /** The sort is stable: records with equal scores keep their relative order,
      as ECMAScript requires of `Array.prototype.sort`. */
  lemma {:induction false} SortIsStable(s: seq<Record>, k: int)
    ensures ScoredAt(SortByScore(s), k) == ScoredAt(s, k)
  {
    if s != [] {
      SortIsStable(s[1..], k);
      InsertScoredAt(s[0], SortByScore(s[1..]), k);
    }
  }

  /** `arr.slice(0, n)`: the first `n` records, or all when there are fewer. */
  function Take(s: seq<Record>, n: nat): (r: seq<Record>)
    ensures |r| == (if |s| <= n then |s| else n)
    ensures r == s[..|r|]
  {
    if |s| <= n then s else s[..n]
  }

  /** In a sorted list, a record past position `n` scores no higher than any
      of the first `n`. */
  lemma SortedTail(s: seq<Record>, n: nat, e: Record)
    requires SortedByScore(s) && n <= |s| && e in s[n..]
    ensures forall j :: 0 <= j < n ==> e.score <= s[j].score
  {
    var m :| n <= m < |s| && s[m] == e;
  }

  /** `slice(0, n)` keeps at most `n` records of the list, in order, and all
      of them when the list is that short. */
  lemma TakeIsPrefix(s: seq<Record>, n: nat)
    ensures var top := Take(s, n);
      && |top| == (if |s| <= n then |s| else n)
      && multiset(top) <= multiset(s)
      && (|s| <= n ==> top == s)
      && (SortedByScore(s) ==> SortedByScore(top))
  {
    if |s| > n {
      assert s == s[..n] + s[n..];
    }
  }

  lemma TakeOfSorted(s: seq<Record>, n: nat)
    requires SortedByScore(s)
    ensures var top := Take(s, n);
      forall e :: e in multiset(s) - multiset(top) ==>
        forall j :: 0 <= j < |top| ==> e.score <= top[j].score
  {
    var top := Take(s, n);
    if |s| > n {
      assert s == top + s[n..];
      forall e | e in multiset(s) - multiset(top)
        ensures forall j :: 0 <= j < |top| ==> e.score <= top[j].score
      {
        assert e in multiset(s[n..]);
        SortedTail(s, n, e);
      }
    }
  }

  /** Sort then `slice(0, n)`: `n` records, or all when there are fewer, ordered, all taken from
      `s`, nothing left out when `s` is short enough, and every record left
      out scored no higher than any record kept. */
  function TopScores(s: seq<Record>, n: nat): (top: seq<Record>)
    ensures |top| == (if |s| <= n then |s| else n)
    ensures SortedByScore(top)
    ensures multiset(top) <= multiset(s)
    ensures |s| <= n ==> multiset(top) == multiset(s)
    ensures forall e :: e in multiset(s) - multiset(top) ==>
      forall j :: 0 <= j < |top| ==> e.score <= top[j].score
  {
    var sorted := SortByScore(s);
    TakeOfSorted(sorted, n);
    TakeIsPrefix(sorted, n);
    Take(sorted, n)
  }
}
