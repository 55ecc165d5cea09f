/**
 * The retry loop of `query_TFL` (src/main.py:109-131). The HTTP session, URL and parameters are not
 * modelled: the network is a function from the attempt number to what that attempt produced.
 */
module Query {

  /** What one HTTP attempt produced: a decoded JSON body, or a request/decoding exception. */
  datatype Attempt<B> = Failed | Ok(body: B)

  /** What `query_TFL` does for its caller: return a JSON value, or raise `RuntimeError`. */
  datatype Reply<B> = Returned(body: B) | Raised

  /** `json_response if json_response else []`: a falsy body is replaced by the empty list. */
  function Normalize<B>(b: B, falsy: B -> bool, emptyList: B): B {
    if falsy(b) then emptyList else b
  }

  /** The reply when attempts `i`, `i + 1`, ... up to `maxRetries - 1` are still to be made. */
  function ReplyFrom<B>(attempt: nat -> Attempt<B>, i: nat, maxRetries: nat, falsy: B -> bool, emptyList: B): Reply<B>
    decreases maxRetries - i
  {
    if i >= maxRetries then Raised
    else match attempt(i)
      case Ok(b) => Returned(Normalize(b, falsy, emptyList))
      case Failed => ReplyFrom(attempt, i + 1, maxRetries, falsy, emptyList)
  }

  /** The reply of `query_TFL(..., max_retries=maxRetries)`. */
  function QueryReply<B>(attempt: nat -> Attempt<B>, maxRetries: int, falsy: B -> bool, emptyList: B): Reply<B> {
    if maxRetries <= 0 then Returned(emptyList) else ReplyFrom(attempt, 0, maxRetries, falsy, emptyList)
  }

  /** The number of attempts made from attempt `i` on. */
  function TriesFrom<B>(attempt: nat -> Attempt<B>, i: nat, maxRetries: nat): nat
    decreases maxRetries - i
  {
    if i >= maxRetries then i
    else if attempt(i).Ok? then i + 1
    else TriesFrom(attempt, i + 1, maxRetries)
  }

  function Tries<B>(attempt: nat -> Attempt<B>, maxRetries: int): nat {
    if maxRetries <= 0 then 0 else TriesFrom(attempt, 0, maxRetries)
  }

  /**
   * `query_TFL`: attempt after attempt until one succeeds; a failure of the last allowed attempt
   * raises, and a non-positive `maxRetries` returns the empty list without any attempt. `sleeps`
   * counts the one-second pauses, which follow every failed attempt except the last.
   */
  method QueryTfl<B>(attempt: nat -> Attempt<B>, maxRetries: int, falsy: B -> bool, emptyList: B)
    returns (r: Reply<B>, tries: nat, sleeps: nat)
    ensures r == QueryReply(attempt, maxRetries, falsy, emptyList)
    ensures tries == Tries(attempt, maxRetries)
    ensures sleeps == if tries == 0 then 0 else tries - 1
  {
    tries, sleeps := 0, 0;
    var i := 0;
    while i < maxRetries
      invariant 0 <= i <= (if maxRetries > 0 then maxRetries - 1 else 0)
      invariant tries == i && sleeps == i
      invariant forall j :: 0 <= j < i ==> attempt(j).Failed?
      invariant maxRetries > 0 ==> ReplyFrom(attempt, i, maxRetries, falsy, emptyList) == QueryReply(attempt, maxRetries, falsy, emptyList)
      invariant maxRetries > 0 ==> TriesFrom(attempt, i, maxRetries) == Tries(attempt, maxRetries)
      decreases maxRetries - i
    {
      tries := tries + 1;
      match attempt(i)
      case Ok(b) =>
        r := Returned(Normalize(b, falsy, emptyList));
        return;
      case Failed =>
        if i == maxRetries - 1 {
          r := Raised;
          return;
        }
      sleeps := sleeps + 1;
      i := i + 1;
    }
    r := Returned(emptyList);
  }

  /** From attempt `i` on, the loop raises exactly when every remaining attempt fails. */
  lemma {:induction false} RaisedIffAllFail<B>(attempt: nat -> Attempt<B>, i: nat, maxRetries: nat, falsy: B -> bool, emptyList: B)
    ensures ReplyFrom(attempt, i, maxRetries, falsy, emptyList) == Raised
        <==> forall j :: i <= j < maxRetries ==> attempt(j).Failed?
    decreases maxRetries - i
  {
    if i < maxRetries {
      RaisedIffAllFail(attempt, i + 1, maxRetries, falsy, emptyList);
    }
  }

  /** `query_TFL` itself: it raises exactly when at least one attempt is allowed and all of them
      fail, and a non-positive `maxRetries` returns the empty list. */
  lemma QueryRaisedIffAllFail<B>(attempt: nat -> Attempt<B>, maxRetries: int, falsy: B -> bool, emptyList: B)
    ensures QueryReply(attempt, maxRetries, falsy, emptyList) == Raised
        <==> maxRetries > 0 && forall j :: 0 <= j < maxRetries ==> attempt(j).Failed?
    ensures maxRetries <= 0 ==> QueryReply(attempt, maxRetries, falsy, emptyList) == Returned(emptyList)
  {
    if maxRetries > 0 {
      RaisedIffAllFail(attempt, 0, maxRetries, falsy, emptyList);
    }
  }

  /** A value is returned by the first successful attempt, and every earlier attempt failed. */
  lemma {:induction false} ReturnsFirstSuccess<B>(attempt: nat -> Attempt<B>, i: nat, maxRetries: nat, falsy: B -> bool, emptyList: B)
    requires ReplyFrom(attempt, i, maxRetries, falsy, emptyList).Returned?
    ensures var k := TriesFrom(attempt, i, maxRetries) - 1;
      && i <= k < maxRetries
      && attempt(k).Ok?
      && ReplyFrom(attempt, i, maxRetries, falsy, emptyList).body == Normalize(attempt(k).body, falsy, emptyList)
      && forall j :: i <= j < k ==> attempt(j).Failed?
    decreases maxRetries - i
  {
    if attempt(i).Failed? {
      ReturnsFirstSuccess(attempt, i + 1, maxRetries, falsy, emptyList);
    }
  }

  /** No more than `maxRetries` attempts are ever made. */
  lemma {:induction false} TriesBounded<B>(attempt: nat -> Attempt<B>, i: nat, maxRetries: nat)
    requires i <= maxRetries
    ensures i <= TriesFrom(attempt, i, maxRetries) <= maxRetries
    decreases maxRetries - i
  {
    if i < maxRetries && attempt(i).Failed? {
      TriesBounded(attempt, i + 1, maxRetries);
    }
  }

  /** Two failures followed by a success, with three attempts allowed: the third attempt's body is returned. */
  lemma RetryScenario<B>(b: B, falsy: B -> bool, emptyList: B)
    ensures var attempt := (i: nat) => if i < 2 then Failed else Ok(b);
      && QueryReply(attempt, 3, falsy, emptyList) == Returned(Normalize(b, falsy, emptyList))
      && Tries(attempt, 3) == 3
  {
  }
}
