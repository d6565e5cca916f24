/** Reference counting of a buffer: a drop to zero either hands the buffer back through a live
    token, or runs the memory deleter once and frees the handle block. */
module SBuffers {

  /** deletes: times the deleter ran. handed: times the token's callback kept the buffer. */
  datatype Impl = Impl(count: nat, token: bool, deleter: bool, deletes: nat, handed: nat, dead: bool)

  /** What the token's callback does with the handle it is given. */
  datatype Reply = Keep | Decline

  /** How a release ends, if it does. */
  datatype Outcome = Back(impl: Impl) | NeverReturns

  /** intrusive_ptr_release as far as it gets in n nested releases. It re-enters itself when the
      temporary handle goes; the strong reference to the token taken by the outermost release
      outlives the nested ones, so that each of them finds the token alive, whatever becomes of
      the token meanwhile. The callback declines whatever it is asked beyond the given replies. */
  function Within(i: Impl, replies: seq<Reply>, n: nat): Outcome
    requires !i.dead && i.count > 0
    decreases n
  {
    if i.count > 1 then Back(i.(count := i.count - 1))
    else if i.token && replies != [] && replies[0].Keep? then Back(i.(handed := i.handed + 1))
    else if !i.token && !i.deleter then Back(i.(count := 0, dead := true))
    else if n == 0 then NeverReturns
    else if i.token then Within(i, if replies == [] then [] else replies[1..], n - 1)
    else Within(i.(deletes := i.deletes + 1, deleter := false), replies, n - 1)
  }

  /** What a release comes to. */
  function Released(i: Impl, replies: seq<Reply>): Outcome
    requires !i.dead && i.count > 0
  {
    if i.count > 1 then Back(i.(count := i.count - 1))
    else if !i.token then Back(i.(count := 0, deletes := i.deletes + (if i.deleter then 1 else 0), deleter := false, dead := true))
    else if Keep in replies then Back(i.(handed := i.handed + 1))
    else NeverReturns
  }

  /** However many releases may nest, none comes to anything else, and one more than there are
      replies is enough. */
  lemma {:induction false} ReleasedWithin(i: Impl, replies: seq<Reply>, n: nat)
    requires !i.dead && i.count > 0
    ensures Within(i, replies, n).Back? || n > |replies| ==> Within(i, replies, n) == Released(i, replies)
    decreases n
  {
    if i.count == 1 && i.token && n > 0 && (replies == [] || replies[0].Decline?) {
      var rest := if replies == [] then [] else replies[1..];
      assert replies == [] || replies == [replies[0]] + rest;
      ReleasedWithin(i, rest, n - 1);
    }
  }

  /** A release returns, in some number of nested releases, if and only if it is not the last
      one under a live token whose callback never keeps the buffer: that one nests deeper than
      any number. */
  lemma ReturnsExact(i: Impl, replies: seq<Reply>)
    requires !i.dead && i.count > 0
    ensures (exists n: nat :: Within(i, replies, n).Back?) <==> (i.count > 1 || !i.token || Keep in replies)
    ensures forall n: nat :: Within(i, replies, n).Back? ==> Within(i, replies, n) == Released(i, replies)
  {
    ReleasedWithin(i, replies, |replies| + 1);
    forall n: nat | Within(i, replies, n).Back? ensures Within(i, replies, n) == Released(i, replies) {
      ReleasedWithin(i, replies, n);
    }
  }

  /** Freed exactly when no handle is left, and the deleter has then run once if the buffer
      ever had one, and not before. */
  ghost predicate Exact(i: Impl, owned: bool) {
    && (i.dead <==> i.count == 0)
    && i.deletes == (if i.dead && owned then 1 else 0)
    && (i.deleter <==> owned && !i.dead)
    && (i.dead ==> !i.token)
  }

  /** A release that returns keeps the accounting. The buffer dies exactly when the last handle
      goes without a live token; under a live one it is handed back with one fresh reference and
      nothing is deleted, however often the callback declines first. */
  lemma ReleaseExact(i: Impl, replies: seq<Reply>, n: nat, owned: bool)
    requires Exact(i, owned) && !i.dead && Within(i, replies, n).Back?
    ensures var r := Within(i, replies, n).impl;
            && Exact(r, owned)
            && (r.dead <==> i.count == 1 && !i.token)
            && (i.count == 1 && i.token ==> r == i.(handed := i.handed + 1))
            && (i.count > 1 ==> r == i.(count := i.count - 1))
  {
    ReleasedWithin(i, replies, n);
  }

  datatype Op = Copy | Drop(replies: seq<Reply>) | TokenExpires

  function Apply(i: Impl, op: Op): Outcome {
    if i.dead then Back(i)
    else match op
      case Copy => Back(i.(count := i.count + 1))
      case Drop(replies) => if i.count > 0 then Released(i, replies) else Back(i)
      case TokenExpires => Back(i.(token := false))
  }

  /** A sequence of operations, each begun when the one before has returned. */
  function ApplyAll(i: Impl, ops: seq<Op>): Outcome {
    if ops == [] then Back(i)
    else match ApplyAll(i, ops[..|ops| - 1])
      case Back(j) => Apply(j, ops[|ops| - 1])
      case NeverReturns => NeverReturns
  }

  /** A buffer as constructed, with its first handle. */
  function Fresh(token: bool, owned: bool): Impl {
    Impl(1, token, owned, 0, 0, false)
  }

  /** Over any sequence of copies, drops and token expiry. */
  lemma {:induction false} DeletedExactlyOnce(token: bool, owned: bool, ops: seq<Op>)
    ensures var r := ApplyAll(Fresh(token, owned), ops); r.Back? ==> Exact(r.impl, owned)
  {
    if ops != [] {
      DeletedExactlyOnce(token, owned, ops[..|ops| - 1]);
    }
  }

  class SBufferImpl {
    var count: nat
    var token: bool
    var deleter: bool
    var deletes: nat
    var handed: nat
    var dead: bool

    function State(): Impl
      reads this
    {
      Impl(count, token, deleter, deletes, handed, dead)
    }

    constructor (withToken: bool, owned: bool)
      ensures State() == Fresh(withToken, owned)
    {
      count, token, deleter, deletes, handed, dead := 1, withToken, owned, 0, 0, false;
    }

    method AddRef()
      requires !dead
      modifies this
      ensures Back(State()) == Apply(old(State()), Copy)
    {
      count := count + 1;
    }

    /** The release. False: it never returns, here given up where the callback has nothing left
        but to decline. */
    method Release(replies: seq<Reply>) returns (ok: bool)
      requires !dead && count > 0
      modifies this
      ensures ok <==> Released(old(State()), replies).Back?
      ensures ok ==> State() == Released(old(State()), replies).impl
      ensures !ok ==> State() == old(State())
      decreases |replies|, deleter
    {
      count := count - 1;
      if count > 0 { return true; }
      if token {
        count := 1;
        if replies == [] { return false; }
        if replies[0].Keep? {
          handed := handed + 1;
          count := count + 1;
          count := count - 1;
        } else {
          assert replies == [replies[0]] + replies[1..];
          ok := Release(replies[1..]);
          return;
        }
      } else if deleter {
        count := 1;
        deletes := deletes + 1;
        deleter := false;
        ok := Release(replies);
        return;
      } else {
        dead := true;
      }
      ok := true;
    }
  }
}
