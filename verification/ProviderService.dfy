/** `fake_payment/app.py` in its own form: the provider that holds the refund table. */
module ProviderService {
  import opened Domain
  import opened Tables
  import opened Provider

  class PaymentProvider {
    var refunds: ProviderTable
    ghost var posts: seq<Post>

    /** The table is what all posts so far have made of it. */
    ghost predicate Valid()
      reads this
    {
      refunds == TableAfter(posts)
    }

    constructor ()
      ensures Valid() && refunds == map[] && posts == []
    {
      refunds, posts := map[], [];
    }

    /** `_store`; `freshId` is the refund id drawn for a key not seen before. The row is answered as it
        was before a repeated post is counted. */
    method Store(request: RefundRequest, freshId: string) returns (row: ProviderRow)
      requires Valid()
      modifies this
      ensures Valid() && posts == old(posts) + [Post(request, freshId)]
      ensures refunds == Stored(old(refunds), request, freshId)
      ensures request.key in refunds
      ensures refunds[request.key].(postCount := row.postCount) == row
      ensures request.key in old(refunds) ==> row == old(refunds)[request.key]
    {
      ghost var before := posts;
      posts := posts + [Post(request, freshId)];
      assert posts[..|posts| - 1] == before;
      if request.key in refunds {
        row := refunds[request.key];
        refunds := refunds[request.key := row.(postCount := row.postCount + 1)];
        return;
      }
      row := ProviderRow(freshId, request.amount, request.currency, request.caseId, PaymentSucceeded, 1);
      refunds := refunds[request.key := row];
    }

    /** `create_refund`; a simulated refusal comes before anything is stored. */
    method CreateRefund(request: RefundRequest, refuse: bool, freshId: string) returns (reply: Option<ProviderRow>)
      requires Valid()
      modifies this
      ensures Valid()
      ensures refuse ==> reply.None? && refunds == old(refunds) && posts == old(posts)
      ensures !refuse ==> && refunds == Stored(old(refunds), request, freshId)
                          && posts == old(posts) + [Post(request, freshId)]
                          && request.key in refunds && reply.Some?
                          && refunds[request.key].(postCount := reply.value.postCount) == reply.value
    {
      if refuse {
        return None;
      }
      var row := Store(request, freshId);
      reply := Some(row);
    }

    /** `refund_by_key`: the refund of the first post with this key, whatever has been posted since. */
    method RefundByKey(key: ProviderKey) returns (row: Option<ProviderRow>)
      requires Valid()
      ensures AnswersFor(posts, key, row)
    {
      TableAnswers(posts, key);
      row := if key in refunds then Some(refunds[key]) else None;
    }
  }
}
