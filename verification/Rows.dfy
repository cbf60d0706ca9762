/** The rows and shared values the review tasks read and write.

    A row of `review_results` is found by its cache key: the column is UNIQUE and rows are never
    deleted, so the key and the surrogate id stand for each other. A row of `reviews` is UNIQUE in
    (commit, file), so that pair is its identity. */
module Rows {
  datatype Option<+T> = None | Some(value: T)

  type Key = nat
  type UnitId = nat
  datatype ReviewId = ReviewId(unit: UnitId, file: nat)

  datatype ResultStatus = Pending | Streaming | Complete | Failed

  datatype ReviewStatus = Pending | Streaming | Complete | Failed | Skipped {
    predicate Terminal() {
      Complete? || Failed? || Skipped?
    }
  }

  datatype PublishStatus = Pending | Publishing | Published | Failed | Skipped

  datatype ResultRow = ResultRow(status: ResultStatus, text: string, attempts: nat, claimedAt: int)
  datatype ReviewRow = ReviewRow(status: ReviewStatus, result: Option<Key>, cacheHit: bool)

  datatype Cache = Cache(results: map<Key, ResultRow>, reviews: map<ReviewId, ReviewRow>)
}
