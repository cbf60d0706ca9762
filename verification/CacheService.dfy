/** The claim / attach / complete / fail transactions over `review_results` and `reviews`.

    Every transaction is a function from the committed rows to the rows it commits; the class below
    holds the two tables and updates them statement by statement. */
module CacheService {
  import opened Rows

  datatype Claim = Claim(key: Key, owner: bool, status: ResultStatus, attempt: nat) {
    predicate CacheHit() {
      !owner
    }
  }

  /** The WHERE clause of the takeover UPDATE. */
  predicate MayTakeOver(row: ResultRow, now: int, lease: nat) {
    || row.status.Failed?
    || ((row.status.Pending? || row.status.Streaming?) && row.claimedAt < now - lease)
  }

  function ClaimTx(cache: Cache, key: Key, now: int, lease: nat): (r: (Cache, Claim))
  {
    if key !in cache.results then
      (cache.(results := cache.results[key := ResultRow(ResultStatus.Pending, "", 1, now)]),
       Claim(key, true, ResultStatus.Pending, 1))
    else if MayTakeOver(cache.results[key], now, lease) then
      var n := cache.results[key].attempts + 1;
      (cache.(results := cache.results[key := ResultRow(ResultStatus.Pending, "", n, now)]),
       Claim(key, true, ResultStatus.Pending, n))
    else
      (cache, Claim(key, false, cache.results[key].status, 1))
  }

  /** The status an audit row inherits from the result it attaches to. */
  function InheritedStatus(current: ResultStatus, owner: bool): ReviewStatus {
    match current
    case Complete => ReviewStatus.Complete
    case Failed => ReviewStatus.Failed
    case Streaming => ReviewStatus.Streaming
    case Pending => if owner then ReviewStatus.Streaming else ReviewStatus.Pending
  }

  /** The second half of `attach_review`: `current` was read earlier, under a share lock. */
  function AttachTx(cache: Cache, review: ReviewId, claim: Claim, current: ResultStatus): Cache {
    if review in cache.reviews then
      cache.(reviews := cache.reviews[review :=
        ReviewRow(InheritedStatus(current, claim.owner), Some(claim.key), claim.CacheHit())])
    else cache
  }

  /** `_sync_followers`: the rows attached to `key` move together, skipped rows excepted. */
  function Synced(reviews: map<ReviewId, ReviewRow>, key: Key, status: ReviewStatus): map<ReviewId, ReviewRow> {
    map r | r in reviews ::
      if reviews[r].result == Some(key) && !reviews[r].status.Skipped?
      then reviews[r].(status := status) else reviews[r]
  }

  function MarkStreamingTx(cache: Cache, key: Key, now: int): Cache {
    Cache(
      if key in cache.results
      then cache.results[key := cache.results[key].(status := ResultStatus.Streaming, claimedAt := now)]
      else cache.results,
      Synced(cache.reviews, key, ReviewStatus.Streaming))
  }

  function RefreshTx(cache: Cache, key: Key, now: int): Cache {
    if key in cache.results
    then cache.(results := cache.results[key := cache.results[key].(claimedAt := now)])
    else cache
  }

  function CompleteTx(cache: Cache, key: Key, text: string): Cache {
    Cache(
      if key in cache.results
      then cache.results[key := cache.results[key].(status := ResultStatus.Complete, text := text)]
      else cache.results,
      Synced(cache.reviews, key, ReviewStatus.Complete))
  }

  /** Rows that are not terminal fail, or go back to pending when a retry is coming. */
  function Released(reviews: map<ReviewId, ReviewRow>, key: Key, final: bool): map<ReviewId, ReviewRow> {
    map r | r in reviews ::
      if reviews[r].result == Some(key) && !reviews[r].status.Terminal()
      then reviews[r].(status := if final then ReviewStatus.Failed else ReviewStatus.Pending) else reviews[r]
  }

  function FailTx(cache: Cache, key: Key, final: bool): Cache {
    Cache(
      if key in cache.results
      then cache.results[key := cache.results[key].(status := ResultStatus.Failed)]
      else cache.results,
      Released(cache.reviews, key, final))
  }

  /** `mark_review_failed`: a failure before a result was attached. */
  function MarkFailedTx(cache: Cache, review: ReviewId): Cache {
    if review in cache.reviews && !cache.reviews[review].status.Terminal()
    then cache.(reviews := cache.reviews[review := cache.reviews[review].(status := ReviewStatus.Failed)])
    else cache
  }

  /** `_skip` */
  function SkipTx(cache: Cache, review: ReviewId): Cache {
    if review in cache.reviews
    then cache.(reviews := cache.reviews[review := cache.reviews[review].(status := ReviewStatus.Skipped)])
    else cache
  }

  /** What no transaction undoes: rows stay, attempts never fall, and a review that is attached to
      its own key stays attached to it. */
  ghost predicate Grows(before: Cache, after: Cache) {
    && (forall k | k in before.results ::
          k in after.results && before.results[k].attempts <= after.results[k].attempts)
    && (forall r | r in before.reviews ::
          && r in after.reviews
          && (before.reviews[r].result.Some? ==> after.reviews[r].result == before.reviews[r].result))
  }

  /** `review_results` and `reviews`, changed in place by the service's functions. */
  class ReviewCache {
    var results: map<Key, ResultRow>
    var reviews: map<ReviewId, ReviewRow>

    function Contents(): Cache
      reads this
    {
      Cache(results, reviews)
    }

    /** An owner starts the next attempt on a row without text; anybody else leaves the row alone. The
        row decides: there is none, it failed, or it is unfinished and its lease has expired. */
    method ClaimResult(key: Key, now: int, lease: nat) returns (claim: Claim)
      modifies this
      ensures reviews == old(reviews) && claim.key == key
      ensures claim.owner <==>
                || key !in old(results)
                || old(results)[key].status == ResultStatus.Failed
                || (old(results)[key].status in {ResultStatus.Pending, ResultStatus.Streaming} && old(results)[key].claimedAt < now - lease)
      ensures claim.owner ==>
                && claim.status == ResultStatus.Pending
                && claim.attempt == (if key in old(results) then old(results)[key].attempts + 1 else 1)
                && results == old(results)[key := ResultRow(ResultStatus.Pending, "", claim.attempt, now)]
      ensures !claim.owner ==> results == old(results) && claim.status == old(results)[key].status
      ensures (Contents(), claim) == ClaimTx(old(Contents()), key, now, lease)
    {
      // INSERT ... ON CONFLICT DO NOTHING RETURNING id
      if key !in results {
        results := results[key := ResultRow(ResultStatus.Pending, "", 1, now)];
        claim := Claim(key, true, ResultStatus.Pending, 1);
        return;
      }
      // UPDATE ... WHERE failed OR stale RETURNING id, attempts
      var row := results[key];
      if row.status.Failed? || (!row.status.Complete? && row.claimedAt < now - lease) {
        var taken := row.(status := ResultStatus.Pending, claimedAt := now, attempts := row.attempts + 1, text := "");
        results := results[key := taken];
        claim := Claim(key, true, ResultStatus.Pending, taken.attempts);
        return;
      }
      claim := Claim(key, false, results[key].status, 1);
    }

    /** Both halves in one transaction; the share lock keeps the result row fixed in between. */
    method AttachReview(review: ReviewId, claim: Claim) returns (current: ResultStatus)
      requires claim.key in results
      modifies this`reviews
      ensures reviews.Keys == old(reviews).Keys && forall r | r in reviews && r != review :: reviews[r] == old(reviews)[r]
      ensures review in reviews ==>
                && reviews[review].result == Some(claim.key) && reviews[review].cacheHit == !claim.owner
                && (reviews[review].status == ReviewStatus.Complete <==> current.Complete?)
                && (reviews[review].status == ReviewStatus.Failed <==> current.Failed?)
                && (reviews[review].status == ReviewStatus.Pending <==> current.Pending? && !claim.owner)
                && reviews[review].status != ReviewStatus.Skipped
      ensures current == results[claim.key].status
      ensures Contents() == AttachTx(old(Contents()), review, claim, current)
    {
      current := results[claim.key].status;
      var status: ReviewStatus;
      if current.Complete? {
        status := ReviewStatus.Complete;
      } else if current.Failed? {
        status := ReviewStatus.Failed;
      } else if current.Streaming? || claim.owner {
        status := ReviewStatus.Streaming;
      } else {
        status := ReviewStatus.Pending;
      }
      if review in reviews {
        reviews := reviews[review := ReviewRow(status, Some(claim.key), !claim.owner)];
      }
    }

    method SyncFollowers(key: Key, status: ReviewStatus)
      modifies this`reviews
      ensures reviews == Synced(old(reviews), key, status)
      ensures reviews.Keys == old(reviews).Keys
      ensures forall r | r in reviews ::
                reviews[r] == if old(reviews)[r].result == Some(key) && old(reviews)[r].status != ReviewStatus.Skipped
                              then old(reviews)[r].(status := status) else old(reviews)[r]
    {
      var attached := map r | r in reviews && reviews[r].result == Some(key) && !reviews[r].status.Skipped? ::
        reviews[r].(status := status);
      reviews := reviews + attached;
    }

    method MarkStreaming(key: Key, now: int)
      modifies this
      ensures results.Keys == old(results).Keys && forall k | k in results ::
                results[k] == if k == key then old(results)[k].(status := ResultStatus.Streaming, claimedAt := now) else old(results)[k]
      ensures reviews.Keys == old(reviews).Keys && forall r | r in reviews ::
                reviews[r] == if old(reviews)[r].result == Some(key) && old(reviews)[r].status != ReviewStatus.Skipped
                              then old(reviews)[r].(status := ReviewStatus.Streaming) else old(reviews)[r]
      ensures Contents() == MarkStreamingTx(old(Contents()), key, now)
    {
      if key in results {
        results := results[key := results[key].(status := ResultStatus.Streaming, claimedAt := now)];
      }
      SyncFollowers(key, ReviewStatus.Streaming);
    }

    method RefreshLease(key: Key, now: int)
      modifies this`results
      ensures results.Keys == old(results).Keys && forall k | k in results ::
                results[k] == if k == key then old(results)[k].(claimedAt := now) else old(results)[k]
      ensures Contents() == RefreshTx(old(Contents()), key, now)
    {
      if key in results {
        results := results[key := results[key].(claimedAt := now)];
      }
    }

    method Complete(key: Key, text: string)
      modifies this
      ensures results.Keys == old(results).Keys && forall k | k in results ::
                results[k] == if k == key then old(results)[k].(status := ResultStatus.Complete, text := text) else old(results)[k]
      ensures reviews.Keys == old(reviews).Keys && forall r | r in reviews ::
                reviews[r] == if old(reviews)[r].result == Some(key) && old(reviews)[r].status != ReviewStatus.Skipped
                              then old(reviews)[r].(status := ReviewStatus.Complete) else old(reviews)[r]
      ensures Contents() == CompleteTx(old(Contents()), key, text)
    {
      if key in results {
        results := results[key := results[key].(status := ResultStatus.Complete, text := text)];
      }
      SyncFollowers(key, ReviewStatus.Complete);
    }

    /** A review that is done keeps its status; one that is not fails, or waits for the retry. */
    method Fail(key: Key, final: bool)
      modifies this
      ensures results.Keys == old(results).Keys && forall k | k in results ::
                results[k] == if k == key then old(results)[k].(status := ResultStatus.Failed) else old(results)[k]
      ensures reviews.Keys == old(reviews).Keys && forall r | r in reviews ::
                reviews[r] == if old(reviews)[r].result == Some(key) && old(reviews)[r].status in {ReviewStatus.Pending, ReviewStatus.Streaming}
                              then old(reviews)[r].(status := if final then ReviewStatus.Failed else ReviewStatus.Pending) else old(reviews)[r]
      ensures Contents() == FailTx(old(Contents()), key, final)
    {
      if key in results {
        results := results[key := results[key].(status := ResultStatus.Failed)];
      }
      var status := if final then ReviewStatus.Failed else ReviewStatus.Pending;
      var unfinished := map r | r in reviews && reviews[r].result == Some(key) && !reviews[r].status.Terminal() ::
        reviews[r].(status := status);
      reviews := reviews + unfinished;
      assert reviews == Released(old(reviews), key, final);
    }

    /** `mark_review_failed` */
    method MarkReviewFailed(review: ReviewId)
      modifies this`reviews
      ensures Contents() == MarkFailedTx(old(Contents()), review)
      ensures reviews.Keys == old(reviews).Keys && forall r | r in reviews ::
                reviews[r] == if r == review && old(reviews)[r].status in {ReviewStatus.Pending, ReviewStatus.Streaming}
                              then old(reviews)[r].(status := ReviewStatus.Failed) else old(reviews)[r]
    {
      if review in reviews && !reviews[review].status.Terminal() {
        reviews := reviews[review := reviews[review].(status := ReviewStatus.Failed)];
      }
    }

    /** `_skip` */
    method Skip(review: ReviewId)
      modifies this`reviews
      ensures Contents() == SkipTx(old(Contents()), review)
      ensures reviews.Keys == old(reviews).Keys && forall r | r in reviews ::
                reviews[r] == if r == review then old(reviews)[r].(status := ReviewStatus.Skipped) else old(reviews)[r]
    {
      if review in reviews {
        reviews := reviews[review := reviews[review].(status := ReviewStatus.Skipped)];
      }
    }
  }
}
