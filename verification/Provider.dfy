/** The refund table of the payment provider, `fake_payment/app.py`, and the evidence it gives. */
module Provider {
  import opened Domain
  import opened Tables

  datatype ProviderRow = ProviderRow(
    refundId: string,
    amount: int,
    currency: string,
    caseId: CaseId,
    status: PaymentStatus,
    postCount: nat)

  type ProviderTable = map<ProviderKey, ProviderRow>

  datatype RefundRequest = RefundRequest(key: ProviderKey, amount: int, currency: string, caseId: CaseId)

  /** A refund id no row uses yet. */
  predicate FreshRefundId(refunds: ProviderTable, id: string) {
    id != "" && forall k :: k in refunds ==> refunds[k].refundId != id
  }

  /** `_store`: a key seen before only counts one more post. */
  function Stored(refunds: ProviderTable, request: RefundRequest, freshId: string): ProviderTable {
    if request.key in refunds then
      var row := refunds[request.key];
      refunds[request.key := row.(postCount := row.postCount + 1)]
    else
      refunds[request.key :=
        ProviderRow(freshId, request.amount, request.currency, request.caseId, PaymentSucceeded, 1)]
  }

  /** One accepted `POST /refunds`, with the refund id drawn for it. */
  datatype Post = Post(request: RefundRequest, freshId: string)

  /** The table after a sequence of posts. */
  function TableAfter(posts: seq<Post>): ProviderTable {
    if posts == [] then map[]
    else
      var last := posts[|posts| - 1];
      Stored(TableAfter(posts[..|posts| - 1]), last.request, last.freshId)
  }

  /** The posts that carried `key`, oldest first. */
  function PostsOf(posts: seq<Post>, key: ProviderKey): seq<Post> {
    if posts == [] then []
    else
      var earlier, last := PostsOf(posts[..|posts| - 1], key), posts[|posts| - 1];
      if last.request.key == key then earlier + [last] else earlier
  }

  /** What a lookup by key answers: the refund of the first post that carried the key, unaltered by all
      others, and how many posts there have been; nothing if there has been none. */
  ghost predicate AnswersFor(posts: seq<Post>, key: ProviderKey, row: Option<ProviderRow>) {
    var mine := PostsOf(posts, key);
    if mine == [] then row.None?
    else row == Some(ProviderRow(mine[0].freshId, mine[0].request.amount, mine[0].request.currency,
                                 mine[0].request.caseId, PaymentSucceeded, |mine|))
  }

  lemma {:induction false} TableAnswers(posts: seq<Post>, key: ProviderKey)
    ensures var refunds := TableAfter(posts);
            AnswersFor(posts, key, if key in refunds then Some(refunds[key]) else None)
  {
    if posts != [] {
      TableAnswers(posts[..|posts| - 1], key);
      TableAnswers(posts[..|posts| - 1], posts[|posts| - 1].request.key);
    }
  }

  /** What a synchronous reply, a webhook or a lookup says about a row. */
  function EvidenceOf(row: ProviderRow, eventId: string): Evidence {
    ProviderEvidence(eventId, row.refundId, Some(row.amount), Some(row.currency))
  }

  function PayloadOf(row: ProviderRow, key: ProviderKey, eventId: string): Payload {
    Payload(eventId, row.refundId, key, row.status, Some(row.amount), Some(row.currency))
  }
}
