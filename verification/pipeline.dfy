/** The transformation stage of the ETL script: check the text column,
    sample the reviews, annotate each one through the classifier, coerce
    `helpful` to text and hand the frame to the store. */
module Pipeline {
  import opened Json
  import opened Frame
  import opened Classifier

  const ReviewText := "reviewText"
  const ReviewerName := "reviewerName"
  const Helpful := "helpful"
  const SentimentColumn := "sentiment"
  const ScoreColumn := "score"

  /** How many reviews one run annotates. */
  const RowsToProcess: nat := 500

  /** `df.dropna(subset=['reviewText']).head(500)`. */
  function Sample(t: Table): (r: Table)
    requires ReviewText in t.columns
    ensures r.columns == t.columns
    ensures r.rows <= KeepWithValue(t.rows, ReviewText)
    ensures |r.rows| <= RowsToProcess
  {
    Head(DropNa(t, ReviewText), RowsToProcess)
  }

  /** The sample keeps the columns, holds only reviews with text, is the
      first part of the text-bearing reviews in source order, and has
      min(500, number of reviews with text) rows. */
  lemma SampleSpec(t: Table)
    requires WellFormed(t) && ReviewText in t.columns
    ensures WellFormed(Sample(t)) && Sample(t).columns == t.columns
    ensures forall k :: 0 <= k < |Sample(t).rows| ==> HasValue(Sample(t).rows[k], ReviewText)
    ensures Sample(t).rows <= KeepWithValue(t.rows, ReviewText)
    ensures |Sample(t).rows| == Min(RowsToProcess, |WithValueIndices(t.rows, ReviewText)|)
    ensures |WithValueIndices(t.rows, ReviewText)| <= RowsToProcess ==>
              Sample(t).rows == KeepWithValue(t.rows, ReviewText)
  {
    DropNaWellFormed(t, ReviewText);
    KeepWithValueCount(t.rows, ReviewText);
    var clean := DropNa(t, ReviewText);
    assert forall k :: 0 <= k < |Sample(t).rows| ==> Sample(t).rows[k] == clean.rows[k];
  }

  /** `df_sample['reviewText']`: the cells the loop sends, none of them null. */
  function SampleReviews(t: Table): (reviews: seq<Json>)
    requires WellFormed(t) && ReviewText in t.columns
    ensures |reviews| == |Sample(t).rows|
    ensures forall k :: 0 <= k < |reviews| ==>
              HasValue(Sample(t).rows[k], ReviewText) && reviews[k] == Sample(t).rows[k][ReviewText]
  {
    SampleSpec(t);
    var rows := Sample(t).rows;
    seq(|rows|, k requires 0 <= k < |rows| => rows[k][ReviewText])
  }

  /** The call with index `call` raises: slicing the review fails, or the
      reply cannot be read. Nothing in the script catches either. */
  predicate CallRaises(review: Json, call: nat, classifier: (nat, Json) -> Option<Json>)
  {
    Payload(review).None? || Annotate(classifier(call, Payload(review).value)).Raised?
  }

  /** Call `call` went through and its reply gave this annotation. */
  predicate CallAnnotated(review: Json, call: nat, classifier: (nat, Json) -> Option<Json>,
                          sentiment: Json, score: Json)
  {
    Payload(review).Some? &&
    Annotate(classifier(call, Payload(review).value)) == Annotated(Annotation(sentiment, score))
  }

  /** The requests posted are exactly those up to the first raising call:
      every review whose slice succeeds and that no earlier call stopped
      was posted, and every posted request but the last went through. */
  ghost predicate PostedUntilRaise(reviews: seq<Json>, sent: seq<Json>,
                                   classifier: (nat, Json) -> Option<Json>)
  {
    (forall k ::
       (0 <= k < |reviews| && Payload(reviews[k]).Some? &&
        forall j :: 0 <= j < k ==> !CallRaises(reviews[j], j, classifier)) ==> k < |sent|) &&
    (forall k :: 0 <= k < |sent| - 1 && k < |reviews| ==> !CallRaises(reviews[k], k, classifier))
  }

  /** The annotation loop. `classifier(k, p)` is the reply to the k-th
      request, whose `inputs` is `p` (`None` when the request failed).
      Returns the two parallel lists, the payloads posted in order, and
      whether an exception escaped the loop. */
  method AnnotateReviews(reviews: seq<Json>, classifier: (nat, Json) -> Option<Json>)
    returns (sentiments: seq<Json>, scores: seq<Json>, sent: seq<Json>, raised: bool)
    ensures |sentiments| == |scores| <= |reviews|
    ensures forall k :: 0 <= k < |sentiments| ==>
              CallAnnotated(reviews[k], k, classifier, sentiments[k], scores[k])
    ensures raised <==> exists k :: 0 <= k < |reviews| && CallRaises(reviews[k], k, classifier)
    ensures !raised ==> |sentiments| == |reviews|
    ensures raised ==> |sentiments| < |reviews| && CallRaises(reviews[|sentiments|], |sentiments|, classifier)
    ensures |sent| == if raised && Payload(reviews[|sentiments|]).None? then |sentiments|
                      else if raised then |sentiments| + 1 else |sentiments|
    ensures forall k :: 0 <= k < |sent| ==> Payload(reviews[k]) == Some(sent[k])
    ensures PostedUntilRaise(reviews, sent, classifier)
  {
    sentiments, scores, sent, raised := [], [], [], false;
    var k := 0;
    while k < |reviews|
      invariant 0 <= k <= |reviews|
      invariant |sentiments| == |scores| == |sent| == k
      invariant forall j :: 0 <= j < k ==>
                  CallAnnotated(reviews[j], j, classifier, sentiments[j], scores[j])
      invariant forall j :: 0 <= j < k ==> Payload(reviews[j]) == Some(sent[j])
    {
      var payload := Payload(reviews[k]);
      if payload.None? {
        raised := true;
        return;
      }
      sent := sent + [payload.value];
      var outcome := Annotate(classifier(k, payload.value));
      if outcome.Raised? {
        raised := true;
        return;
      }
      sentiments := sentiments + [outcome.annotation.sentiment];
      scores := scores + [outcome.annotation.score];
      k := k + 1;
    }
  }

  /** What `load_df_to_sqlite` does: whether it reports success, and the
      table that replaces the stored one when it writes. `storeFails`
      stands for a `sqlite3.Error` during the write. */
  datatype LoadResult = LoadResult(ok: bool, stored: Option<Table>)

  function LoadToSqlite(t: Table, storeFails: bool): (r: LoadResult)
    ensures r.ok <==> r.stored.Some?
    ensures r.stored.Some? ==> r.stored.value == t && !IsEmpty(t)
    ensures r.ok <==> !IsEmpty(t) && !storeFails
  {
    if IsEmpty(t) then LoadResult(false, None)
    else if storeFails then LoadResult(false, None)
    else LoadResult(true, Some(t))
  }

  /** How a run ends. `Crashed` is an exception that escapes `main`. */
  datatype RunOutcome =
    | FileMissing
    | ColumnMissing
    | Crashed
    | Finished(loaded: bool)

  /** Row `w` is row `r` of the sample, number `call`, after enrichment:
      the annotation of its call in `sentiment` and `score`, `helpful` as
      text, every other cell as it was. */
  ghost predicate EnrichedRow(r: Row, w: Row, call: nat, classifier: (nat, Json) -> Option<Json>,
                              show: Json -> string)
  {
    w.Keys == r.Keys + {SentimentColumn, ScoreColumn} &&
    ReviewText in r &&
    CallAnnotated(r[ReviewText], call, classifier, w[SentimentColumn], w[ScoreColumn]) &&
    (Helpful in r ==> w[Helpful] == AsText(r[Helpful], show)) &&
    (forall c :: c in r && c != SentimentColumn && c != ScoreColumn && c != Helpful ==> w[c] == r[c])
  }

  /** A sample row after the two column assignments and the `helpful`
      coercion. */
  function EnrichRow(r: Row, sentiment: Json, score: Json, show: Json -> string): Row
  {
    var w := r[SentimentColumn := sentiment][ScoreColumn := score];
    if Helpful in w then w[Helpful := AsText(w[Helpful], show)] else w
  }

  lemma EnrichRowSpec(r: Row, call: nat, classifier: (nat, Json) -> Option<Json>,
                      sentiment: Json, score: Json, show: Json -> string)
    requires ReviewText in r
    requires CallAnnotated(r[ReviewText], call, classifier, sentiment, score)
    ensures EnrichedRow(r, EnrichRow(r, sentiment, score, show), call, classifier, show)
  {
  }

  /** `w` is `sample` with every row enriched, in the same order. */
  ghost predicate Enriched(sample: Table, w: Table, classifier: (nat, Json) -> Option<Json>,
                           show: Json -> string)
  {
    |w.rows| == |sample.rows| &&
    forall k :: 0 <= k < |w.rows| ==> EnrichedRow(sample.rows[k], w.rows[k], k, classifier, show)
  }

  /** The columns after assigning `sentiment` and then `score`: each is
      appended unless the frame already has it. */
  function AnnotatedColumns(columns: seq<string>): (r: seq<string>)
    ensures columns <= r
    ensures ColumnSet(r) == ColumnSet(columns) + {SentimentColumn, ScoreColumn}
    ensures |r| <= |columns| + 2
  {
    var c := if SentimentColumn in columns then columns else columns + [SentimentColumn];
    if ScoreColumn in c then c else c + [ScoreColumn]
  }

  /** Adding the two annotation columns keeps every other column's presence. */
  lemma AnnotatedColumnsKeep(columns: seq<string>, c: string)
    requires c != SentimentColumn && c != ScoreColumn
    ensures c in AnnotatedColumns(columns) <==> c in columns
  {
    assert c in ColumnSet(AnnotatedColumns(columns)) <==> c in ColumnSet(columns);
  }

  /** `df_sample['sentiment'] = sentiments` followed by
      `df_sample['score'] = scores`. */
  method AddAnnotations(df: DataFrame, sentiments: seq<Json>, scores: seq<Json>)
    requires df.Valid()
    requires |sentiments| == |scores| == |df.rows|
    modifies df
    ensures df.Valid()
    ensures df.columns == AnnotatedColumns(old(df.columns))
    ensures |df.rows| == |old(df.rows)|
    ensures forall k :: 0 <= k < |df.rows| ==>
              df.rows[k] == old(df.rows)[k][SentimentColumn := sentiments[k]][ScoreColumn := scores[k]]
  {
    df.Assign(SentimentColumn, sentiments);
    df.Assign(ScoreColumn, scores);
  }

  /** `df_sample['helpful'].astype(str)`, done only when the frame has a
      `helpful` column. */
  method CoerceHelpful(df: DataFrame, show: Json -> string)
    requires df.Valid()
    modifies df
    ensures df.Valid()
    ensures df.columns == old(df.columns)
    ensures |df.rows| == |old(df.rows)|
    ensures forall k :: 0 <= k < |df.rows| ==>
              df.rows[k] == if Helpful in old(df.rows)[k]
                            then old(df.rows)[k][Helpful := AsText(old(df.rows)[k][Helpful], show)]
                            else old(df.rows)[k]
  {
    if Helpful in df.columns {
      df.AsTypeStr(Helpful, show);
    }
  }

  /** `main` after the annotation loop: attach the two lists, log the
      preview, coerce `helpful` and load the frame `df`, which holds the
      sample of `t`. */
  method Finish(t: Table, df: DataFrame, sentiments: seq<Json>, scores: seq<Json>,
                classifier: (nat, Json) -> Option<Json>, show: Json -> string, storeFails: bool)
    returns (outcome: RunOutcome, stored: Option<Table>)
    requires WellFormed(t) && ReviewText in t.columns
    requires df.Valid() && df.View() == Sample(t)
    requires |sentiments| == |scores| == |Sample(t).rows|
    requires forall k :: 0 <= k < |sentiments| ==>
               ReviewText in Sample(t).rows[k] &&
               CallAnnotated(Sample(t).rows[k][ReviewText], k, classifier, sentiments[k], scores[k])
    modifies df
    ensures outcome == Crashed <==> ReviewerName !in t.columns
    ensures outcome.Crashed? || outcome.Finished?
    ensures outcome.Finished? ==> outcome.loaded == (|Sample(t).rows| > 0 && !storeFails)
    ensures stored.Some? <==> outcome == Finished(true)
    ensures stored.Some? ==>
              WellFormed(stored.value) && !IsEmpty(stored.value) &&
              stored.value.columns == AnnotatedColumns(t.columns) &&
              Enriched(Sample(t), stored.value, classifier, show)
  {
    var sample := Sample(t);
    AddAnnotations(df, sentiments, scores);
    assert df.columns == AnnotatedColumns(t.columns);
    AnnotatedColumnsKeep(t.columns, ReviewerName);
    // the preview log line selects 'reviewerName' and raises KeyError without it
    if ReviewerName !in df.columns {
      return Crashed, None;
    }
    CoerceHelpful(df, show);
    forall k | 0 <= k < |df.rows|
      ensures EnrichedRow(sample.rows[k], df.rows[k], k, classifier, show)
    {
      EnrichRowSpec(sample.rows[k], k, classifier, sentiments[k], scores[k], show);
    }
    var load := LoadToSqlite(df.View(), storeFails);
    outcome, stored := Finished(load.ok), load.stored;
  }

  /** `main` once the frame has a `reviewText` column: sample, annotate,
      log the preview, coerce `helpful` and load. */
  method Transform(t: Table, classifier: (nat, Json) -> Option<Json>,
                   show: Json -> string, storeFails: bool)
    returns (outcome: RunOutcome, sent: seq<Json>, stored: Option<Table>)
    requires WellFormed(t) && ReviewText in t.columns
    ensures var reviews := SampleReviews(t);
            (outcome.Crashed? || outcome.Finished?) &&
            |sent| <= |reviews| &&
            (forall k :: 0 <= k < |sent| ==> Payload(reviews[k]) == Some(sent[k])) &&
            (outcome == Crashed <==>
               (exists k :: 0 <= k < |reviews| && CallRaises(reviews[k], k, classifier)) ||
               ReviewerName !in t.columns) &&
            (!(exists k :: 0 <= k < |reviews| && CallRaises(reviews[k], k, classifier)) ==>
               |sent| == |reviews|) &&
            (outcome.Finished? ==>
               |sent| == |reviews| && outcome.loaded == (|reviews| > 0 && !storeFails)) &&
            PostedUntilRaise(reviews, sent, classifier)
    ensures stored.Some? <==> outcome == Finished(true)
    ensures stored.Some? ==>
              WellFormed(stored.value) && !IsEmpty(stored.value) &&
              stored.value.columns == AnnotatedColumns(t.columns) &&
              Enriched(Sample(t), stored.value, classifier, show)
  {
    var sample := Sample(t);
    SampleSpec(t);
    var df := new DataFrame.Copy(sample);
    var reviews := SampleReviews(t);
    var sentiments, scores, raised;
    sentiments, scores, sent, raised := AnnotateReviews(reviews, classifier);
    if raised {
      return Crashed, sent, None;
    }
    outcome, stored := Finish(t, df, sentiments, scores, classifier, show, storeFails);
  }

  /** `main` from the file load on. `source` is the loaded frame, or `None`
      when the file does not exist; `classifier` gives the replies, `show`
      is Python's `str()` of a non-string cell and `storeFails` says whether
      SQLite refuses the write. Returns the outcome, the payloads posted in
      order, and the table stored, if any. */
  method Run(source: Option<Table>, classifier: (nat, Json) -> Option<Json>,
             show: Json -> string, storeFails: bool)
    returns (outcome: RunOutcome, sent: seq<Json>, stored: Option<Table>)
    requires source.Some? ==> WellFormed(source.value)
    ensures source.None? ==> outcome == FileMissing && sent == [] && stored == None
    ensures source.Some? && ReviewText !in source.value.columns ==>
              outcome == ColumnMissing && sent == [] && stored == None
    ensures source.Some? && ReviewText in source.value.columns ==>
              var reviews := SampleReviews(source.value);
              (outcome.Crashed? || outcome.Finished?) &&
              |sent| <= |reviews| &&
              (forall k :: 0 <= k < |sent| ==> Payload(reviews[k]) == Some(sent[k])) &&
              (outcome == Crashed <==>
                 (exists k :: 0 <= k < |reviews| && CallRaises(reviews[k], k, classifier)) ||
                 ReviewerName !in source.value.columns) &&
              (!(exists k :: 0 <= k < |reviews| && CallRaises(reviews[k], k, classifier)) ==>
                 |sent| == |reviews|) &&
              (outcome.Finished? ==>
                 |sent| == |reviews| && outcome.loaded == (|reviews| > 0 && !storeFails)) &&
              PostedUntilRaise(reviews, sent, classifier) &&
              (stored.Some? ==>
                 WellFormed(stored.value) && !IsEmpty(stored.value) &&
                 stored.value.columns == AnnotatedColumns(source.value.columns) &&
                 Enriched(Sample(source.value), stored.value, classifier, show))
    ensures stored.Some? <==> outcome == Finished(true)
  {
    if source.None? {
      return FileMissing, [], None;
    }
    if ReviewText !in source.value.columns {
      return ColumnMissing, [], None;
    }
    outcome, sent, stored := Transform(source.value, classifier, show, storeFails);
  }
}

/** End-to-end scenarios: three reviews, the second
    without text, and a classifier that always answers POSITIVE 0.9 /
    NEGATIVE 0.1, or always fails. */
module Scenarios {
  import opened Json
  import opened Frame
  import opened Classifier
  import opened Pipeline

  function Review(text: Json): Row
  {
    map[ReviewerName := JStr("ana"), ReviewText := text]
  }

  const Reviews := Table([ReviewerName, ReviewText],
                         [Review(JStr("great")), Review(JNull), Review(JStr("fine"))])

  const Positive := JObject(map["label" := JStr("POSITIVE"), "score" := JNum(0.9)])
  const Negative := JObject(map["label" := JStr("NEGATIVE"), "score" := JNum(0.1)])

  const Reply := Some(JArray([JArray([Positive, Negative])]))

  lemma ReplyIsPositive()
    ensures Annotate(Reply) == Annotated(Annotation(JStr("POSITIVE"), JNum(0.9)))
  {
  }

  lemma SampleOfReviews()
    ensures WellFormed(Reviews)
    ensures Sample(Reviews).rows == [Review(JStr("great")), Review(JStr("fine"))]
  {
    var rows := Reviews.rows;
    assert rows[..1] == [Review(JStr("great"))];
    assert rows[..2][..1] == rows[..1];
    assert rows[..2] == [Review(JStr("great")), Review(JNull)];
    assert KeepWithValue(rows[..1], ReviewText) == [Review(JStr("great"))];
    assert KeepWithValue(rows[..2], ReviewText) == [Review(JStr("great"))];
  }

  /** The loop sends the texts of the first and the third review. */
  lemma ReviewsOfSample()
    ensures WellFormed(Reviews)
    ensures SampleReviews(Reviews) == [JStr("great"), JStr("fine")]
  {
    SampleOfReviews();
  }

  method NullTextIsSkipped()
  {
    ReviewsOfSample();
    ReplyIsPositive();
    var classifier := (k: nat, p: Json) => Reply;
    var outcome, sent, stored := Run(Some(Reviews), classifier, c => "", false);
    var reviews := SampleReviews(Reviews);
    assert !CallRaises(reviews[0], 0, classifier) && !CallRaises(reviews[1], 1, classifier);
    assert outcome == Finished(true);
    var w := stored.value;
    assert |w.rows| == 2;
    assert w.rows[0][SentimentColumn] == w.rows[1][SentimentColumn] == JStr("POSITIVE");
    assert w.rows[0][ScoreColumn] == w.rows[1][ScoreColumn] == JNum(0.9);
  }

  method FailingClassifierStillStores()
  {
    ReviewsOfSample();
    var classifier := (k: nat, p: Json) => None;
    var outcome, sent, stored := Run(Some(Reviews), classifier, c => "", false);
    var reviews := SampleReviews(Reviews);
    assert !CallRaises(reviews[0], 0, classifier) && !CallRaises(reviews[1], 1, classifier);
    assert outcome == Finished(true);
    var w := stored.value;
    assert |w.rows| == 2;
    assert w.rows[0][SentimentColumn] == w.rows[1][SentimentColumn] == JNull;
    assert w.rows[0][ScoreColumn] == w.rows[1][ScoreColumn] == JNull;
  }

  const Unscored := Some(JArray([JArray([JObject(map["label" := JStr("POSITIVE")])])]))

  /** A reply whose only pair has no `score` makes `max` raise. */
  lemma UnscoredRaises()
    ensures Annotate(Unscored) == Raised
    ensures Payload(JStr("great")) == Some(JStr("great"))
  {
    assert MaxByScore(Candidates(Unscored).elems) == Raises;
  }

  /** With that reply the run crashes on the first review, after one
      request, and stores nothing. */
  method UnscoredReplyStopsAfterFirstRequest()
  {
    ReviewsOfSample();
    UnscoredRaises();
    var classifier := (k: nat, p: Json) => Unscored;
    var outcome, sent, stored := Run(Some(Reviews), classifier, c => "", false);
    var reviews := SampleReviews(Reviews);
    assert CallRaises(reviews[0], 0, classifier);
    assert outcome == Crashed && stored == None;
    assert 0 < |sent| <= 1;
    assert sent == [JStr("great")];
  }

  method MissingFileWritesNothing()
  {
    var outcome, sent, stored := Run(None, (k: nat, p: Json) => None, c => "", false);
    assert outcome == FileMissing && sent == [] && stored == None;
  }
}
