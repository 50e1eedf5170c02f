/** What the pipeline does with one review around the remote classifier:
    the payload it sends and how it reads the reply. The HTTP exchange
    itself is not modelled; the reply arrives as a value. */
module Classifier {
  import opened Json

  /** The remote model accepts at most this many characters. */
  const MaxInputChars := 512

  /** The smaller of two integers. */
  function Min(a: int, b: int): int
  {
    if a < b then a else b
  }

  /** `text[:512]`: the same slice for a string (characters) and for a list. */
  function Truncate<T>(s: seq<T>): (r: seq<T>)
    ensures |r| == Min(MaxInputChars, |s|)
    ensures r <= s
    ensures |s| <= MaxInputChars ==> r == s
  {
    if |s| <= MaxInputChars then s else s[..MaxInputChars]
  }

  /** The `inputs` value posted for a review cell, or `None` when slicing the
      cell raises (a number, a bool or a dict). */
  function Payload(review: Json): (p: Option<Json>)
    ensures p.Some? <==> review.JStr? || review.JArray?
    ensures review.JStr? ==> p.Some? && p.value.JStr? && p.value.s <= review.s &&
                             |p.value.s| == Min(MaxInputChars, |review.s|)
    ensures review.JArray? ==> p.Some? && p.value.JArray? && p.value.elems <= review.elems &&
                               |p.value.elems| == Min(MaxInputChars, |review.elems|)
  {
    match review
    case JStr(s) => Some(JStr(Truncate(s)))
    case JArray(xs) => Some(JArray(Truncate(xs)))
    case _ => None
  }

  /** The key `max` uses, `x['score']`, or `None` when indexing raises
      (the item is not a dict, or has no `score`). */
  function Key(item: Json): Option<Json>
  {
    if item.JObject? && "score" in item.fields then Some(item.fields["score"]) else None
  }

  /** `a > b` on two scores, or `None` when Python raises TypeError. */
  function Greater(a: Json, b: Json): Option<bool>
  {
    if Numeric(a).Some? && Numeric(b).Some? then Some(Numeric(a).value > Numeric(b).value) else None
  }

  /** What `max(items, key=...)` does: return the item at `index`, or raise. */
  datatype Pick = Picked(index: nat) | Raises

  /** Python's `max` with a key: scan left to right, computing each key, and
      replace the current best only when a key is strictly greater. */
  function MaxByScore(items: seq<Json>): (p: Pick)
    requires |items| > 0
    ensures p.Picked? ==> p.index < |items| && Key(items[p.index]).Some?
    decreases |items|
  {
    var n := |items| - 1;
    var key := Key(items[n]);
    if n == 0 then
      if key.Some? then Picked(0) else Raises
    else
      var best := MaxByScore(items[..n]);
      if best.Raises? || key.None? then Raises
      else
        match Greater(key.value, Key(items[best.index]).value)
        case None => Raises
        case Some(greater) => if greater then Picked(n) else best
  }

  predicate HasNumericScore(item: Json)
  {
    Key(item).Some? && Numeric(Key(item).value).Some?
  }

  function Score(item: Json): real
    requires HasNumericScore(item)
  {
    Numeric(Key(item).value).value
  }

  /** `max` succeeds: every item has a score, and when it must compare
      (two items or more) every score is a number. */
  ghost predicate Comparable(items: seq<Json>)
  {
    (forall j :: 0 <= j < |items| ==> Key(items[j]).Some?) &&
    (|items| > 1 ==> forall j :: 0 <= j < |items| ==> HasNumericScore(items[j]))
  }

  /** Item `i` has the highest score and no earlier item has as high a one. */
  ghost predicate IsFirstMax(items: seq<Json>, i: int)
  {
    0 <= i < |items| && Comparable(items) &&
    (|items| > 1 ==>
      (forall j :: 0 <= j < |items| ==> Score(items[j]) <= Score(items[i])) &&
      (forall j :: 0 <= j < i ==> Score(items[j]) < Score(items[i])))
  }

  /** With a second item, every score must be a number: the items are
      comparable exactly when the front is, and the first and the new last
      item have numeric scores. */
  lemma ComparableSnoc(items: seq<Json>)
    requires |items| > 1
    ensures var n := |items| - 1;
            Comparable(items) <==>
              Comparable(items[..n]) && HasNumericScore(items[0]) && HasNumericScore(items[n])
  {
    var n := |items| - 1;
    assert forall j :: 0 <= j < n ==> items[..n][j] == items[j];
  }

  /** A new last item becomes the first maximum exactly when its score beats
      the current one's; otherwise the current one stays. */
  lemma FirstMaxSnoc(items: seq<Json>, i: int)
    requires |items| > 1 && Comparable(items)
    requires IsFirstMax(items[..|items| - 1], i)
    ensures Score(items[|items| - 1]) > Score(items[i]) ==> IsFirstMax(items, |items| - 1)
    ensures Score(items[|items| - 1]) <= Score(items[i]) ==> IsFirstMax(items, i)
  {
    var n := |items| - 1;
    assert forall j :: 0 <= j < n ==> items[..n][j] == items[j];
  }

  /** `max` succeeds exactly on comparable items, and then returns the
      first item with the highest score. */
  lemma {:induction false} MaxByScoreSpec(items: seq<Json>)
    requires |items| > 0
    ensures MaxByScore(items).Picked? <==> Comparable(items)
    ensures MaxByScore(items).Picked? ==> IsFirstMax(items, MaxByScore(items).index)
    decreases |items|
  {
    var n := |items| - 1;
    if n > 0 {
      var front := items[..n];
      MaxByScoreSpec(front);
      ComparableSnoc(items);
      var best := MaxByScore(front);
      if best.Picked? && Key(items[n]).Some? {
        var i := best.index;
        if Greater(Key(items[n]).value, Key(items[i]).value).Some? {
          assert front[i] == items[i];
          assert n > 1 ==> HasNumericScore(front[0]);
          FirstMaxSnoc(items, i);
        }
      }
    }
  }

  /** There is at most one first maximum, so the reference definition pins
      the pick down. */
  lemma FirstMaxUnique(items: seq<Json>, i: int, i': int)
    requires IsFirstMax(items, i) && IsFirstMax(items, i')
    ensures i == i'
  {
    if |items| > 1 {
      var a, b := Score(items[i]), Score(items[i']);
      assert a <= b && b <= a;
    }
  }

  /** The annotation attached to one review: a sentiment label and a score, both
      `None` for the sentinel. */
  datatype Annotation = Annotation(sentiment: Json, score: Json)

  const Sentinel := Annotation(JNull, JNull)

  /** Reading a reply either yields an annotation or raises an exception
      that nothing in the pipeline catches. */
  datatype Outcome = Annotated(annotation: Annotation) | Raised

  /** `result and isinstance(result, list) and result[0]`. */
  predicate Usable(result: Option<Json>)
  {
    result.Some? && Truthy(result.value) && result.value.JArray? && Truthy(result.value.elems[0])
  }

  /** The first element of a usable reply: what `max` iterates over. */
  function Candidates(result: Option<Json>): Json
    requires Usable(result)
  {
    result.value.elems[0]
  }

  /** The annotation for a reply (`None` when the request failed): the
      sentinel unless the guard passes; otherwise `label` and `score` of the
      best-scoring pair, or an exception when the first element is not a
      list of dicts with comparable scores. */
  function Annotate(result: Option<Json>): (r: Outcome)
    ensures (result.None? || !result.value.JArray? || result.value.elems == [] ||
             !Truthy(result.value.elems[0])) ==> r == Annotated(Sentinel)
    ensures r.Raised? <==>
            Usable(result) && (!Candidates(result).JArray? || !Comparable(Candidates(result).elems))
    ensures Usable(result) && r.Annotated? ==>
            var items := Candidates(result).elems;
            exists i :: IsFirstMax(items, i) && items[i].JObject? &&
              r.annotation == Annotation(Get(items[i].fields, "label"), items[i].fields["score"])
  {
    if !Usable(result) then Annotated(Sentinel)
    else
      var first := Candidates(result);
      if !first.JArray? then Raised
      else
        MaxByScoreSpec(first.elems);
        match MaxByScore(first.elems)
        case Raises => Raised
        case Picked(i) =>
          var best := first.elems[i];
          Annotated(Annotation(Get(best.fields, "label"), best.fields["score"]))
  }
}
