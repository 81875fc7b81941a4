/** The case memory (memory/store.py): an append-only list of solved-problem records with
    reviewer feedback, lexical similarity search, correction-pattern extraction and counters.
    The JSON database file is the `saved` snapshot. */
module Memory {
  import opened Json
  import opened Text
  import opened Lists
  import opened Sorting
  import Rag

  /** One stored record. `parsed_question` is always a dict: the pipeline reads it with `.get`
      before storing it. */
  datatype Record = Record(
    id: string,
    timestamp: string,
    inputType: string,
    rawInput: string,
    parsedQuestion: map<string, Json>,
    retrievedContext: seq<Rag.Retrieved>,
    finalAnswer: Json,
    explanation: string,
    verifierOutcome: Json,
    userFeedback: Option<string>,
    reviewerComment: Option<string>)

  /** `{"original": ..., "correction": ..., "parsed": ...}` */
  datatype CorrectionPattern = CorrectionPattern(original: string, correction: string, parsed: map<string, Json>)

  /** `{"total": ..., "correct": ..., "incorrect": ..., "pending": ...}` */
  datatype Stats = Stats(total: nat, correct: nat, incorrect: nat, pending: int)

  const DefaultTopK := 3
  const MinScore: real := 0.15
  const TopicBonus: real := 0.2
  const PatternWindow := 10

  /** `rec_text.lower()` on a `problem_text` that is not a string. */
  const NoLower := AttributeError("object has no attribute 'lower'")

  predicate IdsUnique(rs: seq<Record>)
  {
    forall i, j :: 0 <= i < j < |rs| ==> rs[i].id != rs[j].id
  }

  /** The position of the first record with the given id, `|rs|` when there is none. */
  function FirstWithId(rs: seq<Record>, id: string): (k: nat)
    ensures k <= |rs|
    ensures forall j :: 0 <= j < k ==> rs[j].id != id
    ensures k < |rs| ==> rs[k].id == id
    decreases |rs|
  {
    if rs == [] then 0
    else if rs[0].id == id then 0
    else 1 + FirstWithId(rs[1..], id)
  }

  // ----- similarity -----

  /** `len(a & b) / len(a | b) if (a | b) else 0` */
  function Jaccard(a: set<string>, b: set<string>): (j: real)
    ensures 0.0 <= j <= 1.0
  {
    if |a + b| == 0 then 0.0
    else
      assert a * b <= a + b;
      SubsetCard(a * b, a + b);
      Ratio(|a * b|, |a + b|)
  }

  function Ratio(n: nat, d: nat): (q: real)
    requires n <= d && d > 0
    ensures 0.0 <= q <= 1.0
  {
    (n as real) / (d as real)
  }

  lemma {:induction false} SubsetCard(a: set<string>, b: set<string>)
    requires a <= b
    ensures |a| <= |b|
    decreases |b|
  {
    if b != {} {
      var x :| x in b;
      SubsetCard(a - {x}, b - {x});
    }
  }

  /** What the loop of `find_similar` does with one record. */
  datatype Verdict = Skipped | Kept(score: real)

  /** A record's score: the Jaccard similarity of the word sets, plus the bonus for an equal topic. */
  function Score(problemWords: set<string>, recWords: set<string>, sameTopic: bool): real
  {
    Jaccard(problemWords, recWords) + (if sameTopic then TopicBonus else 0.0)
  }

  /** A score is kept when it exceeds the threshold. */
  function Classify(score: real): Verdict
  {
    if score > MinScore then Kept(score) else Skipped
  }

  function Judge(problemWords: set<string>, topic: Json, r: Record): Result<Verdict>
  {
    if r.userFeedback == Some("incorrect") then Ok(Skipped)
    else
      var recTopic := Get(r.parsedQuestion, "topic", JStr(""));
      var recText := Get(r.parsedQuestion, "problem_text", JStr(""));
      if !recText.JStr? then Err(NoLower)
      else
        var recWords := WordSet(recText.s);
        if recWords == {} then Ok(Skipped)
        else
          Ok(Classify(Score(problemWords, recWords, PyEq(recTopic, topic))))
  }

  /** Judging fails only with the one error, on a non-string `problem_text`. */
  lemma JudgeErr(pw: set<string>, topic: Json, r: Record)
    ensures Judge(pw, topic, r).Err? <==>
      r.userFeedback != Some("incorrect") && !Get(r.parsedQuestion, "problem_text", JStr("")).JStr?
    ensures Judge(pw, topic, r).Err? ==> Judge(pw, topic, r).error == NoLower
  {
  }

  /** The `scored` list after the given records: (score, record) pairs in stored order. */
  function ScoredList(problemWords: set<string>, topic: Json, rs: seq<Record>): Result<seq<(real, Record)>>
  {
    if rs == [] then Ok([])
    else
      match ScoredList(problemWords, topic, rs[..|rs| - 1])
      case Err(e) => Err(e)
      case Ok(sc) =>
        var r := rs[|rs| - 1];
        match Judge(problemWords, topic, r)
        case Err(e) => Err(e)
        case Ok(Skipped) => Ok(sc)
        case Ok(Kept(score)) => Ok(sc + [(score, r)])
  }

  function ScoreKey(p: (real, Record)): real { p.0 }

  function Records(sc: seq<(real, Record)>): (rs: seq<Record>)
    ensures |rs| == |sc|
  {
    seq(|sc|, i requires 0 <= i < |sc| => sc[i].1)
  }

  /** What `find_similar(problem_text, topic, top_k)` returns. */
  function Similar(rs: seq<Record>, problemText: string, topic: Json, topK: int): Result<seq<Record>>
  {
    match ScoredList(WordSet(problemText), topic, rs)
    case Err(e) => Err(e)
    case Ok(sc) => Ok(Records(Take(SortDesc(sc, ScoreKey), topK)))
  }

  /** One more record extends the `scored` list by that record's verdict. */
  lemma ScoredListSnoc(pw: set<string>, topic: Json, rs: seq<Record>, i: nat)
    requires i < |rs| && ScoredList(pw, topic, rs[..i]).Ok?
    ensures ScoredList(pw, topic, rs[..i + 1]) ==
      match Judge(pw, topic, rs[i])
      case Err(e) => Err(e)
      case Ok(Skipped) => ScoredList(pw, topic, rs[..i])
      case Ok(Kept(s)) => Ok(ScoredList(pw, topic, rs[..i]).value + [(s, rs[i])])
  {
    assert rs[..i + 1][..i] == rs[..i];
  }

  lemma {:induction false} ScoredListKept(pw: set<string>, topic: Json, rs: seq<Record>)
    requires ScoredList(pw, topic, rs).Ok?
    ensures var sc := ScoredList(pw, topic, rs).value;
      forall p :: p in sc ==> p.1 in rs && Judge(pw, topic, p.1) == Ok(Kept(p.0))
    decreases |rs|
  {
    if rs != [] {
      var init, last := rs[..|rs| - 1], rs[|rs| - 1];
      assert rs == init + [last];
      ScoredListKept(pw, topic, init);
      var prev := ScoredList(pw, topic, init).value;
      var sc := ScoredList(pw, topic, rs).value;
      var j := Judge(pw, topic, last);
      assert sc == prev || (j == Ok(Kept(j.value.score)) && sc == prev + [(j.value.score, last)]);
      forall p | p in sc
        ensures p.1 in rs && Judge(pw, topic, p.1) == Ok(Kept(p.0))
      {
        if p in prev {
          assert p.1 in init;
        }
      }
    }
  }

  /** A malformed record (a non-string `problem_text` in a record not marked incorrect) makes
      the whole search raise; the error never depends on the query. */
  lemma {:induction false} ScoredListErr(pw: set<string>, topic: Json, rs: seq<Record>)
    ensures ScoredList(pw, topic, rs).Err? <==>
      exists i :: 0 <= i < |rs| && Judge(pw, topic, rs[i]).Err?
    ensures ScoredList(pw, topic, rs).Err? ==> ScoredList(pw, topic, rs).error == NoLower
    decreases |rs|
  {
    if rs != [] {
      var init, last := rs[..|rs| - 1], rs[|rs| - 1];
      ScoredListErr(pw, topic, init);
      JudgeErr(pw, topic, last);
      var pre, j := ScoredList(pw, topic, init), Judge(pw, topic, last);
      assert forall i :: 0 <= i < |init| ==> rs[i] == init[i];
      if pre.Err? {
        assert ScoredList(pw, topic, rs) == pre;
        var i :| 0 <= i < |init| && Judge(pw, topic, init[i]).Err?;
        assert Judge(pw, topic, rs[i]).Err?;
      } else if j.Err? {
        assert ScoredList(pw, topic, rs) == Err(j.error);
      } else {
        assert ScoredList(pw, topic, rs).Ok?;
        assert forall i :: 0 <= i < |rs| ==> Judge(pw, topic, rs[i]).Ok?;
      }
    }
  }

  /** The score of a record the search keeps, `None` for one it skips or fails on. */
  function KeptScore(pw: set<string>, topic: Json, r: Record): Option<real>
  {
    match Judge(pw, topic, r)
    case Ok(Kept(s)) => Some(s)
    case _ => None
  }

  /** A kept record is not marked "incorrect", has a string `problem_text` with words, and its
      score is the Jaccard similarity of the word sets plus 0.2 for an equal topic, above 0.15. */
  lemma JudgeKept(pw: set<string>, topic: Json, r: Record, s: real)
    requires Judge(pw, topic, r) == Ok(Kept(s))
    ensures r.userFeedback != Some("incorrect")
    ensures var t := Get(r.parsedQuestion, "problem_text", JStr(""));
      && t.JStr? && WordSet(t.s) != {}
      && s == Jaccard(pw, WordSet(t.s))
              + (if PyEq(Get(r.parsedQuestion, "topic", JStr("")), topic) then TopicBonus else 0.0)
    ensures s > MinScore
  {
  }

  /** The first `top_k` pairs of the sorted list are pairs of the list, by non-increasing score. */
  lemma TopOfSorted(sc: seq<(real, Record)>, topK: int)
    ensures var top := Take(SortDesc(sc, ScoreKey), topK);
      && |top| <= |sc| && (topK >= 0 ==> |top| <= topK)
      && (forall i :: 0 <= i < |top| ==> top[i] in sc)
      && (forall i, j :: 0 <= i < j < |top| ==> top[i].0 >= top[j].0)
  {
    var sorted := SortDesc(sc, ScoreKey);
    var top := Take(sorted, topK);
    forall i | 0 <= i < |top|
      ensures top[i] in sc
    {
      assert top[i] == sorted[i];
      assert top[i] in multiset(sorted);
    }
    forall i, j | 0 <= i < j < |top|
      ensures top[i].0 >= top[j].0
    {
      assert top[i] == sorted[i] && top[j] == sorted[j];
    }
  }

  /** `top` holds the best `top_k` pairs of `sc` (Python slicing for a negative `top_k`): pairs
      of `sc` by non-increasing score, as many as the slice keeps, and every pair of `sc` left out
      scores at most every pair kept. */
  predicate TopK(top: seq<(real, Record)>, sc: seq<(real, Record)>, topK: int)
  {
    && multiset(top) <= multiset(sc)
    && |top| == (if topK >= 0 then Min(topK, |sc|) else Max(0, |sc| + topK))
    && (forall i, j :: 0 <= i < j < |top| ==> top[i].0 >= top[j].0)
    && (forall p, q :: p in multiset(sc) - multiset(top) && q in top ==> p.0 <= q.0)
  }

  lemma TopOfSortedIsTopK(sc: seq<(real, Record)>, topK: int)
    ensures TopK(Take(SortDesc(sc, ScoreKey), topK), sc, topK)
  {
    var sorted := SortDesc(sc, ScoreKey);
    var top := Take(sorted, topK);
    assert top == sorted[..|top|];
    PrefixIsBest(sorted, ScoreKey, |top|);
    forall i, j | 0 <= i < j < |top|
      ensures top[i].0 >= top[j].0
    {
      assert ScoreKey(top[i]) >= ScoreKey(top[j]);
    }
    forall p, q | p in multiset(sc) - multiset(top) && q in top
      ensures p.0 <= q.0
    {
      assert ScoreKey(p) <= ScoreKey(q);
    }
  }

  lemma ScoredListGrows(pw: set<string>, topic: Json, rs: seq<Record>)
    requires rs != [] && ScoredList(pw, topic, rs).Ok?
    ensures ScoredList(pw, topic, rs[..|rs| - 1]).Ok?
    ensures var prev := ScoredList(pw, topic, rs[..|rs| - 1]).value;
      var k := KeptScore(pw, topic, rs[|rs| - 1]);
      ScoredList(pw, topic, rs).value == prev + (if k.Some? then [(k.value, rs[|rs| - 1])] else [])
  {
  }

  lemma {:induction false} ScoredListComplete(pw: set<string>, topic: Json, rs: seq<Record>)
    requires ScoredList(pw, topic, rs).Ok?
    ensures var sc := ScoredList(pw, topic, rs).value;
      forall r :: r in rs && KeptScore(pw, topic, r).Some? ==> (KeptScore(pw, topic, r).value, r) in sc
    decreases |rs|
  {
    if rs != [] {
      var init, last := rs[..|rs| - 1], rs[|rs| - 1];
      ScoredListGrows(pw, topic, rs);
      ScoredListComplete(pw, topic, init);
      var prev := ScoredList(pw, topic, init).value;
      var sc := ScoredList(pw, topic, rs).value;
      var k := KeptScore(pw, topic, last);
      forall r | r in rs && KeptScore(pw, topic, r).Some?
        ensures (KeptScore(pw, topic, r).value, r) in sc
      {
        if r == last {
          assert sc == prev + [(k.value, last)];
        } else {
          assert r in init by {
            var i :| 0 <= i < |rs| && rs[i] == r;
            assert i < |rs| - 1 && init[i] == r;
          }
          assert (KeptScore(pw, topic, r).value, r) in prev;
          assert sc == prev + (if k.Some? then [(k.value, last)] else []);
        }
      }
    }
  }

  /** How many of the records the search keeps. */
  function KeptCount(pw: set<string>, topic: Json, rs: seq<Record>): nat
  {
    if rs == [] then 0
    else KeptCount(pw, topic, rs[..|rs| - 1]) + (if KeptScore(pw, topic, rs[|rs| - 1]).Some? then 1 else 0)
  }

  /** The `scored` list holds one pair per kept record. */
  lemma {:induction false} ScoredListLength(pw: set<string>, topic: Json, rs: seq<Record>)
    requires ScoredList(pw, topic, rs).Ok?
    ensures |ScoredList(pw, topic, rs).value| == KeptCount(pw, topic, rs)
    decreases |rs|
  {
    if rs != [] {
      ScoredListGrows(pw, topic, rs);
      ScoredListLength(pw, topic, rs[..|rs| - 1]);
    }
  }

  /** Every record `find_similar` returns is a stored record that the search kept (see
      `JudgeKept`); there are at most `top_k` of them, by non-increasing score. */
  lemma SimilarProperties(rs: seq<Record>, problemText: string, topic: Json, topK: int)
    ensures var r := Similar(rs, problemText, topic, topK);
      r.Ok? && topK >= 0 ==> |r.value| == Min(topK, KeptCount(WordSet(problemText), topic, rs)) <= topK
    ensures var r := Similar(rs, problemText, topic, topK);
      r.Ok? ==> forall i :: 0 <= i < |r.value| ==>
        r.value[i] in rs && KeptScore(WordSet(problemText), topic, r.value[i]).Some?
    ensures var r := Similar(rs, problemText, topic, topK);
      r.Ok? ==> forall i, j :: 0 <= i < j < |r.value| ==>
        KeptScore(WordSet(problemText), topic, r.value[i]).Some? &&
        KeptScore(WordSet(problemText), topic, r.value[j]).Some? &&
        KeptScore(WordSet(problemText), topic, r.value[i]).value
          >= KeptScore(WordSet(problemText), topic, r.value[j]).value
    ensures var r := Similar(rs, problemText, topic, topK);
      var sc := ScoredList(WordSet(problemText), topic, rs);
      r.Ok? ==> sc.Ok? && exists top :: r.value == Records(top) && TopK(top, sc.value, topK)
    ensures var sc := ScoredList(WordSet(problemText), topic, rs);
      sc.Ok? ==> forall r :: r in rs && KeptScore(WordSet(problemText), topic, r).Some? ==>
        (KeptScore(WordSet(problemText), topic, r).value, r) in sc.value
  {
    var pw := WordSet(problemText);
    var res := ScoredList(pw, topic, rs);
    if res.Ok? {
      var sc := res.value;
      ScoredListKept(pw, topic, rs);
      ScoredListComplete(pw, topic, rs);
      ScoredListLength(pw, topic, rs);
      var top := Take(SortDesc(sc, ScoreKey), topK);
      TopOfSorted(sc, topK);
      TopOfSortedIsTopK(sc, topK);
      var out := Records(top);
      assert Similar(rs, problemText, topic, topK) == Ok(out);
      forall i | 0 <= i < |top|
        ensures out[i] in rs && KeptScore(pw, topic, out[i]) == Some(top[i].0)
      {
        assert top[i] in sc;
      }
    }
  }

  /** Ties keep their stored order: for every score, the records with that score come out of
      the sort in the order the search met them. */
  lemma SimilarTiesInStoredOrder(pw: set<string>, topic: Json, rs: seq<Record>, v: real)
    requires ScoredList(pw, topic, rs).Ok?
    ensures var sc := ScoredList(pw, topic, rs).value;
      WithKey(SortDesc(sc, ScoreKey), ScoreKey, v) == WithKey(sc, ScoreKey, v)
  {
    SortDescStable(ScoredList(pw, topic, rs).value, ScoreKey, v);
  }

  // ----- correction patterns -----

  function PatternOf(r: Record): CorrectionPattern
  {
    CorrectionPattern(r.rawInput, if r.reviewerComment.Some? then r.reviewerComment.value else "", r.parsedQuestion)
  }

  /** `record.get("input_type") == input_type and record.get("reviewer_comment")` */
  predicate GivesPattern(r: Record, inputType: string)
  {
    r.inputType == inputType && r.reviewerComment.Some? && r.reviewerComment.value != ""
  }

  /** The patterns of all matching records, in stored order. */
  function PatternsOf(rs: seq<Record>, inputType: string): seq<CorrectionPattern>
  {
    if rs == [] then []
    else
      var r := rs[|rs| - 1];
      PatternsOf(rs[..|rs| - 1], inputType) + (if GivesPattern(r, inputType) then [PatternOf(r)] else [])
  }

  /** Each pattern is the raw input, non-empty reviewer comment and parsed question of a stored
      record of the requested input type. */
  lemma {:induction false} PatternsFromReviewedRecords(rs: seq<Record>, inputType: string)
    ensures forall p :: p in PatternsOf(rs, inputType) ==>
      exists r :: r in rs && GivesPattern(r, inputType)
        && p == CorrectionPattern(r.rawInput, r.reviewerComment.value, r.parsedQuestion)
    decreases |rs|
  {
    if rs != [] {
      var init, last := rs[..|rs| - 1], rs[|rs| - 1];
      assert rs == init + [last];
      PatternsFromReviewedRecords(init, inputType);
    }
  }

  /** A record with no comment (as `store` leaves it) adds no pattern; a reviewed one of the
      right type adds its pattern at the end. */
  lemma PatternsAfterAppend(rs: seq<Record>, r: Record, inputType: string)
    ensures PatternsOf(rs + [r], inputType)
         == PatternsOf(rs, inputType) + (if GivesPattern(r, inputType) then [PatternOf(r)] else [])
  {
    assert (rs + [r])[..|rs|] == rs;
  }

  // ----- counters -----

  function CountFeedback(rs: seq<Record>, f: string): nat
  {
    if rs == [] then 0
    else CountFeedback(rs[..|rs| - 1], f) + (if rs[|rs| - 1].userFeedback == Some(f) then 1 else 0)
  }

  /** Records whose feedback is neither "correct" nor "incorrect", missing feedback included. */
  function CountPending(rs: seq<Record>): nat
  {
    if rs == [] then 0
    else
      var fb := rs[|rs| - 1].userFeedback;
      CountPending(rs[..|rs| - 1]) + (if fb != Some("correct") && fb != Some("incorrect") then 1 else 0)
  }

  lemma {:induction false} CountsPartition(rs: seq<Record>)
    ensures CountFeedback(rs, "correct") + CountFeedback(rs, "incorrect") + CountPending(rs) == |rs|
    decreases |rs|
  {
    if rs != [] {
      CountsPartition(rs[..|rs| - 1]);
    }
  }

  function Indicator(b: bool): nat { if b then 1 else 0 }

  /** Replacing one record moves at most one unit between the counters. */
  lemma {:induction false} CountFeedbackUpdate(rs: seq<Record>, i: nat, r: Record, f: string)
    requires i < |rs|
    ensures CountFeedback(rs[i := r], f) + Indicator(rs[i].userFeedback == Some(f))
         == CountFeedback(rs, f) + Indicator(r.userFeedback == Some(f))
    decreases |rs|
  {
    var n := |rs| - 1;
    if i < n {
      CountFeedbackUpdate(rs[..n], i, r, f);
      assert rs[i := r][..n] == rs[..n][i := r];
    } else {
      assert rs[i := r][..n] == rs[..n];
    }
  }

  lemma {:induction false} CountFeedbackAppend(rs: seq<Record>, r: Record, f: string)
    ensures CountFeedback(rs + [r], f) == CountFeedback(rs, f) + Indicator(r.userFeedback == Some(f))
  {
    assert (rs + [r])[..|rs|] == rs;
  }

  /** A record that is not marked incorrect and has a string `problem_text` with words is
      judged by its score alone. */
  lemma JudgeScored(pw: set<string>, topic: Json, r: Record, words: set<string>)
    requires r.userFeedback != Some("incorrect")
    requires Get(r.parsedQuestion, "problem_text", JStr("")).JStr?
    requires words == WordSet(Get(r.parsedQuestion, "problem_text", JStr("")).s) && words != {}
    ensures Judge(pw, topic, r) == Ok(Classify(Score(pw, words, PyEq(Get(r.parsedQuestion, "topic", JStr("")), topic))))
  {
  }

  /** The topic bonus follows Python's `==`: a stored topic `true` matches the topic `1`. */
  lemma BoolTopicEarnsBonus(pw: set<string>, r: Record, words: set<string>)
    requires r.userFeedback != Some("incorrect")
    requires Get(r.parsedQuestion, "problem_text", JStr("")).JStr?
    requires words == WordSet(Get(r.parsedQuestion, "problem_text", JStr("")).s) && words != {}
    requires Get(r.parsedQuestion, "topic", JStr("")) == JBool(true)
    ensures Judge(pw, JNum(1.0), r) == Ok(Classify(Score(pw, words, true)))
  {
    JudgeScored(pw, JNum(1.0), r, words);
  }

  class MemoryStore {
    var records: seq<Record>
    /** The records as last written to the database file by `_save`. */
    var saved: seq<Record>

    /** `__init__` and `_load`: the database file's records, or none when there is no file. */
    constructor(db: Option<seq<Record>>)
      ensures records == (if db.Some? then db.value else [])
      ensures saved == records
    {
      records := if db.Some? then db.value else [];
      saved := records;
    }

    /** `store`: appends one record with the given (fresh, uuid4) id and (utcnow) timestamp,
        without feedback or comment unless given, and saves. */
    method Store(id: string, timestamp: string, inputType: string, rawInput: string,
                 parsedQuestion: map<string, Json>, retrievedContext: seq<Rag.Retrieved>,
                 finalAnswer: Json, explanation: string, verifierOutcome: Json,
                 userFeedback: Option<string> := None, reviewerComment: Option<string> := None)
      returns (recordId: string)
      requires forall i :: 0 <= i < |records| ==> records[i].id != id
      modifies this
      ensures records == old(records) + [Record(id, timestamp, inputType, rawInput, parsedQuestion,
        retrievedContext, finalAnswer, explanation, verifierOutcome, userFeedback, reviewerComment)]
      ensures saved == records
      ensures recordId == id
      ensures IdsUnique(old(records)) ==> IdsUnique(records)
      ensures reviewerComment.None? ==>
        forall t :: PatternsOf(records, t) == PatternsOf(old(records), t)
      ensures GetStats().total == old(GetStats().total) + 1
      ensures GetStats().correct == old(GetStats().correct) + Indicator(userFeedback == Some("correct"))
      ensures GetStats().incorrect == old(GetStats().incorrect) + Indicator(userFeedback == Some("incorrect"))
      ensures userFeedback.None? ==> GetStats().pending == old(GetStats().pending) + 1
    {
      var before := records;
      var record := Record(id, timestamp, inputType, rawInput, parsedQuestion, retrievedContext,
        finalAnswer, explanation, verifierOutcome, userFeedback, reviewerComment);
      records := records + [record];
      saved := records;
      forall t
        ensures reviewerComment.None? ==> PatternsOf(records, t) == PatternsOf(before, t)
      {
        PatternsAfterAppend(before, record, t);
      }
      CountFeedbackAppend(before, record, "correct");
      CountFeedbackAppend(before, record, "incorrect");
      return id;
    }

    /** `update_feedback`: the first record with the id gets the feedback and comment, and the
        file is saved; an unknown id changes nothing and gives `False`. */
    method UpdateFeedback(recordId: string, feedback: string, comment: string := "") returns (found: bool)
      modifies this
      ensures found <==> exists i :: 0 <= i < |old(records)| && old(records)[i].id == recordId
      ensures !found ==> records == old(records) && saved == old(saved)
      ensures found ==>
        var k := FirstWithId(old(records), recordId);
        && records == old(records)[k := old(records)[k].(userFeedback := Some(feedback), reviewerComment := Some(comment))]
        && saved == records
      ensures IdsUnique(old(records)) ==> IdsUnique(records)
    {
      var i := 0;
      while i < |records|
        invariant 0 <= i <= |records|
        invariant forall j :: 0 <= j < i ==> records[j].id != recordId
        invariant records == old(records) && saved == old(saved)
      {
        if records[i].id == recordId {
          assert FirstWithId(records, recordId) == i;
          records := records[i := records[i].(userFeedback := Some(feedback), reviewerComment := Some(comment))];
          saved := records;
          return true;
        }
        i := i + 1;
      }
      return false;
    }

    /** `find_similar`: the stored records are only read. */
    method FindSimilar(problemText: string, topic: Json, topK: int := DefaultTopK) returns (r: Result<seq<Record>>)
      ensures r == Similar(records, problemText, topic, topK)
    {
      var scored: seq<(real, Record)> := [];
      var problemWords := WordSet(problemText);
      for i := 0 to |records|
        invariant ScoredList(problemWords, topic, records[..i]) == Ok(scored)
      {
        ScoredListSnoc(problemWords, topic, records, i);
        var verdict := Judge(problemWords, topic, records[i]);
        match verdict {
          case Err(e) =>
            ScoredListErr(problemWords, topic, records);
            return Err(e);
          case Ok(Skipped) =>
          case Ok(Kept(score)) =>
            scored := scored + [(score, records[i])];
        }
      }
      assert records[..|records|] == records;
      var sorted := SortDesc(scored, ScoreKey);
      return Ok(Records(Take(sorted, topK)));
    }

    /** `get_correction_patterns`: the last ten patterns of the input type, oldest first. */
    method GetCorrectionPatterns(inputType: string) returns (patterns: seq<CorrectionPattern>)
      ensures patterns == TakeLast(PatternsOf(records, inputType), PatternWindow)
      ensures |patterns| <= PatternWindow
    {
      patterns := [];
      for i := 0 to |records|
        invariant patterns == PatternsOf(records[..i], inputType)
      {
        assert records[..i + 1][..i] == records[..i];
        var record := records[i];
        if record.inputType == inputType && record.reviewerComment.Some? && record.reviewerComment.value != "" {
          patterns := patterns + [CorrectionPattern(record.rawInput, record.reviewerComment.value, record.parsedQuestion)];
        }
      }
      assert records[..|records|] == records;
      patterns := TakeLast(patterns, PatternWindow);
    }

    /** `get_stats`: `pending` counts every record whose feedback is neither "correct" nor
        "incorrect", those without feedback included, so the three counters add up to the total. */
    function GetStats(): (s: Stats)
      reads this
      ensures s.total == |records|
      ensures s.correct == CountFeedback(records, "correct") && s.incorrect == CountFeedback(records, "incorrect")
      ensures s.pending == CountPending(records)
      ensures s.correct + s.incorrect + s.pending == s.total
    {
      CountsPartition(records);
      var total := |records|;
      var correct := CountFeedback(records, "correct");
      var incorrect := CountFeedback(records, "incorrect");
      Stats(total, correct, incorrect, total - correct - incorrect)
    }
  }
}
