/** Stream tags of one block: sorted before work, trimmed after it, forwarded with their
    offsets moved from the input's count to the output's. */
module Tags {

  /** An object at an absolute item position. Positions are 64 bits wide. */
  datatype Tag = Tag(offset: nat, value: nat)

  const WRAP: nat := 0x1_0000_0000_0000_0000

  predicate Sorted(ts: seq<Tag>) {
    forall j, k :: 0 <= j < k < |ts| ==> ts[j].offset <= ts[k].offset
  }

  predicate AllBelow(ts: seq<Tag>, n: nat) {
    forall k :: 0 <= k < |ts| ==> ts[k].offset < n
  }

  predicate AllFrom(ts: seq<Tag>, n: nat) {
    forall k :: 0 <= k < |ts| ==> n <= ts[k].offset
  }

  /** The new position: subtraction and addition each modulo 2^64. */
  function Moved(offset: nat, consumed: nat, produced: nat): nat {
    ((offset - consumed) % WRAP + produced) % WRAP
  }

  /** Two wrap-arounds are one. */
  lemma MovedOnce(offset: nat, consumed: nat, produced: nat)
    ensures Moved(offset, consumed, produced) == (offset - consumed + produced) % WRAP
  {
    var d := offset - consumed;
    var r := (d + produced) % WRAP;
    assert d == d / WRAP * WRAP + d % WRAP;
    Unwrap(d % WRAP + produced, (d + produced) / WRAP - d / WRAP, r);
  }

  /** And none at all whenever the difference fits. */
  lemma MovedExact(offset: nat, consumed: nat, produced: nat)
    requires 0 <= offset - consumed + produced < WRAP
    ensures Moved(offset, consumed, produced) == offset - consumed + produced
  {
    MovedOnce(offset, consumed, produced);
  }

  lemma Unwrap(e: int, k: int, r: int)
    requires e == r + k * WRAP && 0 <= r < WRAP
    ensures e % WRAP == r
  {
    assert e / WRAP == k;
  }

  function Forwarded(ts: seq<Tag>, consumed: nat, produced: nat): (r: seq<Tag>)
    ensures |r| == |ts|
    ensures forall k :: 0 <= k < |ts| ==> r[k] == Tag(Moved(ts[k].offset, consumed, produced), ts[k].value)
  {
    if ts == [] then []
    else Forwarded(ts[..|ts| - 1], consumed, produced)
         + [Tag(Moved(ts[|ts| - 1].offset, consumed, produced), ts[|ts| - 1].value)]
  }

  /** The tags one task forwards to an output: for each input in turn, what it trimmed. */
  function AllForwarded(trimmed: seq<seq<Tag>>, consumed: seq<nat>, produced: nat): seq<Tag>
    requires |trimmed| <= |consumed|
  {
    if trimmed == [] then []
    else
      var i := |trimmed| - 1;
      AllForwarded(trimmed[..i], consumed, produced) + Forwarded(trimmed[i], consumed[i], produced)
  }

  lemma ForwardedMore(before: seq<Tag>, trimmed: seq<seq<Tag>>, first: seq<Tag>, consumed: seq<nat>, produced: nat)
    requires |trimmed| < |consumed|
    ensures before + AllForwarded(trimmed, consumed, produced) + Forwarded(first, consumed[|trimmed|], produced)
         == before + AllForwarded(trimmed + [first], consumed, produced)
  {
    assert (trimmed + [first])[..|trimmed|] == trimmed;
  }

  /** Tags whose items a call of work consumes, out of those not consumed before, are forwarded
      in order and land on positions not produced before, at the same distance from the
      count. */
  lemma ForwardedAligned(ts: seq<Tag>, consumed: nat, eaten: nat, produced: nat)
    requires Sorted(ts) && AllFrom(ts, consumed) && AllBelow(ts, consumed + eaten) && produced + eaten <= WRAP
    ensures var r := Forwarded(ts, consumed, produced);
      && Sorted(r) && AllFrom(r, produced) && AllBelow(r, produced + eaten)
      && forall k :: 0 <= k < |ts| ==> r[k].offset - produced == ts[k].offset - consumed
  {
    forall k | 0 <= k < |ts|
      ensures Moved(ts[k].offset, consumed, produced) == ts[k].offset - consumed + produced
    {
      MovedExact(ts[k].offset, consumed, produced);
    }
  }

  // ---------------------------------------------------------------- the history of an output

  /** Why a tag was posted on an output: the block's own, or passed on from an input. */
  datatype Entry = Own(tag: Tag) | Passed(input: nat, tag: Tag, consumed: nat, produced: nat)

  function Rendered(e: Entry): Tag {
    match e
    case Own(t) => t
    case Passed(_, t, c, p) => Tag(Moved(t.offset, c, p), t.value)
  }

  function AllRendered(es: seq<Entry>): (r: seq<Tag>)
    ensures |r| == |es|
    ensures forall k :: 0 <= k < |es| ==> r[k] == Rendered(es[k])
  {
    if es == [] then [] else AllRendered(es[..|es| - 1]) + [Rendered(es[|es| - 1])]
  }

  /** The tags of input i that were passed on, as they came in. */
  function PassedFrom(es: seq<Entry>, i: nat): multiset<Tag> {
    if es == [] then multiset{}
    else
      var e := es[|es| - 1];
      PassedFrom(es[..|es| - 1], i) + if e.Passed? && e.input == i then multiset{e.tag} else multiset{}
  }

  function Passes(i: nat, ts: seq<Tag>, consumed: nat, produced: nat): seq<Entry> {
    if ts == [] then []
    else Passes(i, ts[..|ts| - 1], consumed, produced) + [Passed(i, ts[|ts| - 1], consumed, produced)]
  }

  function Owns(ts: seq<Tag>): seq<Entry> {
    if ts == [] then [] else Owns(ts[..|ts| - 1]) + [Own(ts[|ts| - 1])]
  }

  function AllPasses(trimmed: seq<seq<Tag>>, consumed: seq<nat>, produced: nat): seq<Entry>
    requires |trimmed| <= |consumed|
  {
    if trimmed == [] then []
    else
      var i := |trimmed| - 1;
      AllPasses(trimmed[..i], consumed, produced) + Passes(i, trimmed[i], consumed[i], produced)
  }

  lemma {:induction false} PassedAppend(a: seq<Entry>, b: seq<Entry>, i: nat)
    ensures PassedFrom(a + b, i) == PassedFrom(a, i) + PassedFrom(b, i)
  {
    if b == [] {
      assert a + b == a;
    } else {
      var n := |b| - 1;
      assert (a + b)[..|a + b| - 1] == a + b[..n];
      PassedAppend(a, b[..n], i);
    }
  }

  lemma RenderedAppend(a: seq<Entry>, b: seq<Entry>)
    ensures AllRendered(a + b) == AllRendered(a) + AllRendered(b)
  {
    hide Rendered;
  }

  lemma {:induction false} PassesAre(i: nat, ts: seq<Tag>, consumed: nat, produced: nat, j: nat)
    ensures AllRendered(Passes(i, ts, consumed, produced)) == Forwarded(ts, consumed, produced)
    ensures PassedFrom(Passes(i, ts, consumed, produced), j) == if i == j then multiset(ts) else multiset{}
  {
    if ts != [] {
      var n := |ts| - 1;
      PassesAre(i, ts[..n], consumed, produced, j);
      assert ts == ts[..n] + [ts[n]];
      var es := Passes(i, ts, consumed, produced);
      assert es[..|es| - 1] == Passes(i, ts[..n], consumed, produced);
    }
  }

  lemma {:induction false} OwnsAre(ts: seq<Tag>, j: nat)
    ensures AllRendered(Owns(ts)) == ts && PassedFrom(Owns(ts), j) == multiset{}
  {
    if ts != [] {
      var n := |ts| - 1;
      OwnsAre(ts[..n], j);
      var es := Owns(ts);
      assert es[..|es| - 1] == Owns(ts[..n]) && ts == ts[..n] + [ts[n]];
    }
  }

  lemma {:induction false} AllPassesAre(trimmed: seq<seq<Tag>>, consumed: seq<nat>, produced: nat, j: nat)
    requires |trimmed| <= |consumed|
    ensures AllRendered(AllPasses(trimmed, consumed, produced)) == AllForwarded(trimmed, consumed, produced)
    ensures PassedFrom(AllPasses(trimmed, consumed, produced), j) == if j < |trimmed| then multiset(trimmed[j]) else multiset{}
  {
    if trimmed != [] {
      var i := |trimmed| - 1;
      AllPassesAre(trimmed[..i], consumed, produced, j);
      PassesAre(i, trimmed[i], consumed[i], produced, j);
      PassedAppend(AllPasses(trimmed[..i], consumed, produced), Passes(i, trimmed[i], consumed[i], produced), j);
      RenderedAppend(AllPasses(trimmed[..i], consumed, produced), Passes(i, trimmed[i], consumed[i], produced));
    }
  }

  /** One task's entries on one output. */
  lemma TaskEntries(before: seq<Entry>, own: seq<Tag>, trimmed: seq<seq<Tag>>, consumed: seq<nat>, produced: nat, j: nat)
    requires |trimmed| <= |consumed|
    ensures var es := before + Owns(own) + AllPasses(trimmed, consumed, produced);
      && AllRendered(es) == AllRendered(before) + own + AllForwarded(trimmed, consumed, produced)
      && PassedFrom(es, j) == PassedFrom(before, j) + if j < |trimmed| then multiset(trimmed[j]) else multiset{}
  {
    OwnsAre(own, j);
    AllPassesAre(trimmed, consumed, produced, j);
    PassedAppend(before, Owns(own), j);
    PassedAppend(before + Owns(own), AllPasses(trimmed, consumed, produced), j);
    RenderedAppend(before, Owns(own));
    RenderedAppend(before + Owns(own), AllPasses(trimmed, consumed, produced));
  }

  /** Each output was posted the block's own tags and every forwarded tag of every input, once. */
  ghost predicate Logged(posted: seq<seq<Tag>>, log: seq<seq<Entry>>, gone: seq<multiset<Tag>>) {
    && |log| == |posted|
    && (forall o :: 0 <= o < |posted| ==> posted[o] == AllRendered(log[o]))
    && forall o, i :: 0 <= o < |posted| && 0 <= i < |gone| ==> PassedFrom(log[o], i) == gone[i]
  }

  /** The histories after a task. */
  function NewLog(log: seq<seq<Entry>>, own: seq<seq<Tag>>, trimmed: seq<seq<Tag>>, consumed: seq<nat>, produced: seq<nat>)
    : (r: seq<seq<Entry>>)
    requires |log| == |own| == |produced| && |trimmed| <= |consumed|
    ensures |r| == |log|
    ensures forall o :: 0 <= o < |log| ==> r[o] == log[o] + Owns(own[o]) + AllPasses(trimmed, consumed, produced[o])
  {
    seq(|log|, o requires 0 <= o < |log| => log[o] + Owns(own[o]) + AllPasses(trimmed, consumed, produced[o]))
  }

  /** A task keeps every output's history. */
  lemma LoggedOn(posted: seq<seq<Tag>>, posted': seq<seq<Tag>>, log: seq<seq<Entry>>,
                 gone: seq<multiset<Tag>>, gone': seq<multiset<Tag>>,
                 own: seq<seq<Tag>>, trimmed: seq<seq<Tag>>, consumed: seq<nat>, produced: seq<nat>)
    requires Logged(posted, log, gone) && |posted'| == |posted| == |own| == |produced|
    requires |gone'| == |gone| == |trimmed| && |trimmed| <= |consumed|
    requires forall o :: 0 <= o < |posted| ==>
      posted'[o] == posted[o] + own[o] + AllForwarded(trimmed, consumed, produced[o])
    requires forall i :: 0 <= i < |gone| ==> gone'[i] == gone[i] + multiset(trimmed[i])
    ensures Logged(posted', NewLog(log, own, trimmed, consumed, produced), gone')
  {
    var log' := NewLog(log, own, trimmed, consumed, produced);
    forall o | 0 <= o < |posted| ensures posted'[o] == AllRendered(log'[o]) {
      TaskEntries(log[o], own[o], trimmed, consumed, produced[o], 0);
    }
    forall o, i | 0 <= o < |posted| && 0 <= i < |gone| ensures PassedFrom(log'[o], i) == gone'[i] {
      TaskEntries(log[o], own[o], trimmed, consumed, produced[o], i);
      assert gone'[i] == gone[i] + multiset(trimmed[i]);
    }
  }

  // ---------------------------------------------------------------- cutting a sorted list

  /** first and rest are the tags below n and the others, in order. */
  ghost predicate CutAt(ts: multiset<Tag>, n: nat, first: seq<Tag>, rest: seq<Tag>) {
    && Sorted(first) && Sorted(rest) && AllBelow(first, n) && AllFrom(rest, n)
    && multiset(first) + multiset(rest) == ts
  }

  /** The cut is exact: each tag is on its side as often as it was there before. */
  lemma CutCounts(ts: multiset<Tag>, n: nat, first: seq<Tag>, rest: seq<Tag>, t: Tag)
    requires CutAt(ts, n, first, rest)
    ensures multiset(first)[t] == if t.offset < n then ts[t] else 0
    ensures multiset(rest)[t] == if t.offset < n then 0 else ts[t]
  {
    if t in first {
      assert t in multiset(first);
    }
    if t in rest {
      assert t in multiset(rest);
    }
  }

  lemma CutPrefix(ts: seq<Tag>, n: nat, last: nat)
    requires Sorted(ts) && last <= |ts| && AllBelow(ts[..last], n) && (last < |ts| ==> ts[last].offset >= n)
    ensures CutAt(multiset(ts), n, ts[..last], ts[last..])
  {
    assert ts == ts[..last] + ts[last..];
  }

  /** Inserting behind the last tag that is not greater. */
  method Insert(ts: seq<Tag>, t: Tag) returns (r: seq<Tag>)
    requires Sorted(ts)
    ensures Sorted(r) && multiset(r) == multiset(ts) + multiset{t}
  {
    var k := Position(ts, t.offset);
    InsertedSorted(ts, t, k);
    hide Sorted;
    assert ts == ts[..k] + ts[k..];
    r := ts[..k] + [t] + ts[k..];
  }

  method Position(ts: seq<Tag>, offset: nat) returns (k: nat)
    requires Sorted(ts)
    ensures k <= |ts| && (forall j :: 0 <= j < k ==> ts[j].offset <= offset) && forall j :: k <= j < |ts| ==> offset < ts[j].offset
  {
    k := |ts|;
    while k > 0 && ts[k - 1].offset > offset
      invariant k <= |ts| && forall j :: k <= j < |ts| ==> ts[j].offset > offset
    {
      k := k - 1;
    }
  }

  lemma InsertedSorted(ts: seq<Tag>, t: Tag, k: nat)
    requires Sorted(ts) && k <= |ts|
    requires (forall j :: 0 <= j < k ==> ts[j].offset <= t.offset) && forall j :: k <= j < |ts| ==> t.offset < ts[j].offset
    ensures Sorted(ts[..k] + [t] + ts[k..])
  {
    var r := ts[..k] + [t] + ts[k..];
    assert forall j :: 0 <= j < |r| ==> r[j] == if j < k then ts[j] else if j == k then t else ts[j - 1];
  }

  /** Some ordering by position; equal positions in any order. */
  method Sort(ts: seq<Tag>) returns (r: seq<Tag>)
    ensures Sorted(r) && multiset(r) == multiset(ts)
  {
    r := [];
    var k := 0;
    while k < |ts|
      invariant 0 <= k <= |ts| && Sorted(r) && multiset(r) == multiset(ts[..k])
    {
      r := Insert(r, ts[k]);
      assert ts[..k + 1] == ts[..k] + [ts[k]];
      k := k + 1;
    }
    assert ts[..k] == ts;
  }

  // ---------------------------------------------------------------- the block's tag storage

  class TagStore {
    var tags: seq<seq<Tag>>
    var changed: seq<bool>
    /** Advanced by each consume call of work. */
    var statConsumed: seq<nat>
    /** Advanced when a task is over. */
    var consumed: seq<nat>
    var produced: seq<nat>
    /** What was posted downstream, per output. */
    var posted: seq<seq<Tag>>

    /** Per input: all tags ever received, and those forwarded. */
    ghost var received: seq<multiset<Tag>>
    ghost var gone: seq<multiset<Tag>>

    /** Per output: where each posted tag came from. */
    ghost var log: seq<seq<Entry>>

    ghost predicate Shape()
      reads this
    {
      && |changed| == |tags| && |statConsumed| == |tags| && |consumed| == |tags|
      && |received| == |tags| && |gone| == |tags| && |posted| == |produced| && |log| == |posted|
    }

    /** Between tasks: every tag received is stored or forwarded, once. */
    ghost predicate Stored()
      reads this
    {
      && Shape() && statConsumed == consumed
      && forall i :: 0 <= i < |tags| ==>
           (!changed[i] ==> Sorted(tags[i])) && multiset(tags[i]) + gone[i] == received[i]
    }

    /** And each forwarded tag went to every output, once. */
    ghost predicate Valid()
      reads this
    {
      Stored() && Logged(posted, log, gone)
    }

    constructor (inputs: nat, outputs: nat)
      ensures Valid() && |tags| == inputs && |produced| == outputs
      ensures forall i :: 0 <= i < inputs ==> consumed[i] == 0 && tags[i] == [] && received[i] == multiset{}
      ensures forall o :: 0 <= o < outputs ==> produced[o] == 0 && posted[o] == []
    {
      tags := seq(inputs, i => []);
      changed := seq(inputs, i => false);
      statConsumed := seq(inputs, i => 0);
      consumed := seq(inputs, i => 0);
      produced := seq(outputs, o => 0);
      posted := seq(outputs, o => []);
      received := seq(inputs, i => multiset{});
      gone := seq(inputs, i => multiset{});
      log := seq(outputs, o => []);
    }

    /** Over a whole run: what an input received is what it stores and what every output was
        passed from it, and outputs were posted nothing but that and the block's own tags. */
    lemma ExactlyOnce(o: nat, i: nat)
      requires Valid() && o < |posted| && i < |tags|
      ensures PassedFrom(log[o], i) + multiset(tags[i]) == received[i] && posted[o] == AllRendered(log[o])
    {
      assert PassedFrom(log[o], i) == gone[i];
    }

    /** A tag has come in. */
    method HandleInputTag(i: nat, t: Tag)
      requires Valid() && i < |tags|
      modifies this`tags, this`changed, this`received
      ensures Valid() && tags == old(tags)[i := old(tags)[i] + [t]]
      ensures received == old(received)[i := old(received)[i] + multiset{t}]
    {
      tags := tags[i := tags[i] + [t]];
      changed := changed[i := true];
      received := received[i := received[i] + multiset{t}];
    }

    method SortTags(i: nat)
      requires Shape() && i < |tags| && (!changed[i] ==> Sorted(tags[i]))
      modifies this`tags, this`changed
      ensures Shape() && Sorted(tags[i]) && !changed[i] && multiset(tags[i]) == multiset(old(tags)[i])
      ensures |tags| == |old(tags)| && forall j :: 0 <= j < |tags| && j != i ==>
        tags[j] == old(tags)[j] && changed[j] == old(changed)[j]
    {
      if !changed[i] { return; }
      var r := Sort(tags[i]);
      tags := tags[i := r];
      changed := changed[i := false];
    }

    /** Each output gets every tag, moved by the counts as they were when work began. */
    method PropagateTags(i: nat, ts: seq<Tag>)
      requires Shape() && i < |tags|
      modifies this`posted
      ensures |posted| == |old(posted)|
      ensures forall o :: 0 <= o < |posted| ==>
        posted[o] == old(posted)[o] + Forwarded(ts, consumed[i], produced[o])
    {
      var o := 0;
      while o < |produced|
        invariant 0 <= o <= |produced| && |posted| == |old(posted)|
        invariant forall j :: 0 <= j < o ==> posted[j] == old(posted)[j] + Forwarded(ts, consumed[i], produced[j])
        invariant forall j :: o <= j < |posted| ==> posted[j] == old(posted)[j]
      {
        var k := 0;
        while k < |ts|
          invariant 0 <= k <= |ts| && |posted| == |old(posted)|
          invariant posted[o] == old(posted)[o] + Forwarded(ts[..k], consumed[i], produced[o])
          invariant forall j :: 0 <= j < o ==> posted[j] == old(posted)[j] + Forwarded(ts, consumed[i], produced[j])
          invariant forall j :: o < j < |posted| ==> posted[j] == old(posted)[j]
        {
          var t := Tag(Moved(ts[k].offset, consumed[i], produced[o]), ts[k].value);
          posted := posted[o := posted[o] + [t]];
          assert ts[..k + 1][..k] == ts[..k];
          k := k + 1;
        }
        assert ts[..k] == ts;
        o := o + 1;
      }
    }

    /** Tags of consumed items leave the storage and are forwarded. */
    method TrimTags(i: nat) returns (first: seq<Tag>)
      requires Shape() && i < |tags| && Sorted(tags[i])
      modifies this`tags, this`posted, this`gone
      ensures Shape() && |tags| == |old(tags)| && |posted| == |old(posted)|
      ensures CutAt(multiset(old(tags)[i]), statConsumed[i], first, tags[i])
      ensures gone == old(gone)[i := old(gone)[i] + multiset(first)]
      ensures forall j :: 0 <= j < |tags| && j != i ==> tags[j] == old(tags)[j]
      ensures forall o :: 0 <= o < |posted| ==>
        posted[o] == old(posted)[o] + Forwarded(first, consumed[i], produced[o])
    {
      var last := 0;
      while last < |tags[i]| && tags[i][last].offset < statConsumed[i]
        invariant 0 <= last <= |tags[i]| && AllBelow(tags[i][..last], statConsumed[i])
      {
        last := last + 1;
      }
      first := tags[i][..last];
      CutPrefix(tags[i], statConsumed[i], last);
      hide CutAt;
      hide Sorted;
      gone := gone[i := gone[i] + multiset(first)];
      if last == 0 {
        assert tags[i][0..] == tags[i];
        assert forall o :: 0 <= o < |posted| ==> posted[o] == posted[o] + Forwarded(first, consumed[i], produced[o]);
        return;
      }
      PropagateTags(i, first);
      tags := tags[i := tags[i][last..]];
    }

    /** Before work. */
    method SortAll()
      requires Stored()
      modifies this`tags, this`changed
      ensures Shape() && |tags| == |old(tags)|
      ensures forall k :: 0 <= k < |tags| ==> Sorted(tags[k]) && multiset(tags[k]) == multiset(old(tags)[k])
    {
      var i := 0;
      while i < |tags|
        invariant 0 <= i <= |tags| && Shape() && |tags| == |old(tags)|
        invariant forall k :: 0 <= k < |tags| ==>
          multiset(tags[k]) == multiset(old(tags)[k]) && (!changed[k] ==> Sorted(tags[k]))
        invariant forall k :: 0 <= k < i ==> Sorted(tags[k])
        modifies this`tags, this`changed
      {
        SortTags(i);
        i := i + 1;
      }
    }

    /** Work consumes and posts tags of its own. */
    method Work(eaten: seq<nat>, own: seq<seq<Tag>>)
      requires Shape() && |eaten| == |tags| && |own| == |produced|
      modifies this`statConsumed, this`posted
      ensures Shape() && forall i :: 0 <= i < |tags| ==> statConsumed[i] == old(statConsumed)[i] + eaten[i]
      ensures forall o :: 0 <= o < |posted| ==> posted[o] == old(posted)[o] + own[o]
    {
      var was, before := statConsumed, posted;
      statConsumed := seq(|was|, k requires 0 <= k < |was| && |eaten| == |was| => was[k] + eaten[k]);
      posted := seq(|before|, o requires 0 <= o < |before| && |own| == |before| => before[o] + own[o]);
    }

    /** After work: each input trimmed, then its count advanced. */
    method TrimAll(eaten: seq<nat>) returns (trimmed: seq<seq<Tag>>)
      requires Shape() && |eaten| == |tags| && forall k :: 0 <= k < |tags| ==> Sorted(tags[k])
      modifies this`tags, this`posted, this`gone, this`consumed
      ensures Shape() && |tags| == |old(tags)| && |trimmed| == |tags| && |posted| == |old(posted)|
      ensures forall i :: 0 <= i < |tags| ==> consumed[i] == old(consumed)[i] + eaten[i]
      ensures forall k :: 0 <= k < |tags| ==>
        CutAt(multiset(old(tags)[k]), statConsumed[k], trimmed[k], tags[k]) && gone[k] == old(gone)[k] + multiset(trimmed[k])
      ensures forall o :: 0 <= o < |posted| ==>
        posted[o] == old(posted)[o] + AllForwarded(trimmed, old(consumed), produced[o])
    {
      trimmed := [];
      var i := 0;
      while i < |tags|
        invariant 0 <= i <= |tags| && Shape() && |tags| == |old(tags)| && |posted| == |old(posted)| && |trimmed| == i
        invariant forall k :: i <= k < |tags| ==>
          tags[k] == old(tags)[k] && gone[k] == old(gone)[k] && consumed[k] == old(consumed)[k]
        invariant forall k :: 0 <= k < i ==> consumed[k] == old(consumed)[k] + eaten[k]
        invariant forall k :: 0 <= k < i ==>
          CutAt(multiset(old(tags)[k]), statConsumed[k], trimmed[k], tags[k]) && gone[k] == old(gone)[k] + multiset(trimmed[k])
        invariant forall o :: 0 <= o < |posted| ==>
          posted[o] == old(posted)[o] + AllForwarded(trimmed, old(consumed), produced[o])
        modifies this`tags, this`posted, this`gone, this`consumed
      {
        hide CutAt;
        hide Sorted;
        hide AllForwarded;
        hide Forwarded;
        var first := TrimTags(i);
        forall o | 0 <= o < |posted|
          ensures posted[o] == old(posted)[o] + AllForwarded(trimmed + [first], old(consumed), produced[o])
        {
          ForwardedMore(old(posted)[o], trimmed, first, old(consumed), produced[o]);
        }
        trimmed := trimmed + [first];
        consumed := consumed[i := consumed[i] + eaten[i]];
        i := i + 1;
      }
    }

    /** A task but for the history: inputs sorted; work; inputs trimmed; the output counts
        advanced last. */
    method Process(eaten: seq<nat>, made: seq<nat>, own: seq<seq<Tag>>) returns (trimmed: seq<seq<Tag>>)
      requires Stored() && |eaten| == |tags| && |made| == |own| == |produced|
      modifies this
      ensures Stored() && |tags| == |old(tags)| && |produced| == |old(produced)| && |trimmed| == |tags|
      ensures received == old(received) && log == old(log)
      ensures forall i :: 0 <= i < |tags| ==> consumed[i] == old(consumed)[i] + eaten[i]
      ensures forall o :: 0 <= o < |produced| ==> produced[o] == old(produced)[o] + made[o]
      ensures forall i :: 0 <= i < |tags| ==>
        CutAt(multiset(old(tags)[i]), consumed[i], trimmed[i], tags[i]) && gone[i] == old(gone)[i] + multiset(trimmed[i])
      ensures forall o :: 0 <= o < |produced| ==>
        posted[o] == old(posted)[o] + own[o] + AllForwarded(trimmed, old(consumed), old(produced)[o])
    {
      hide CutAt;
      hide Sorted;
      hide AllForwarded;
      hide AllPasses;
      SortAll();
      ghost var sorted := tags;
      Work(eaten, own);
      trimmed := TrimAll(eaten);
      forall k | 0 <= k < |tags| ensures CutAt(multiset(old(tags)[k]), statConsumed[k], trimmed[k], tags[k]) {
        assert multiset(sorted[k]) == multiset(old(tags)[k]);
      }
      produced := Advanced(produced, made);
      assert statConsumed == consumed;
      StoredOn(old(tags), tags, old(gone), gone, received, consumed, trimmed);
    }

    /** One task. */
    method Task(eaten: seq<nat>, made: seq<nat>, own: seq<seq<Tag>>) returns (trimmed: seq<seq<Tag>>)
      requires Valid() && |eaten| == |tags| && |made| == |own| == |produced|
      modifies this
      ensures Valid() && |tags| == |old(tags)| && |produced| == |old(produced)| && |trimmed| == |tags|
      ensures received == old(received)
      ensures forall i :: 0 <= i < |tags| ==> consumed[i] == old(consumed)[i] + eaten[i]
      ensures forall o :: 0 <= o < |produced| ==> produced[o] == old(produced)[o] + made[o]
      ensures forall i :: 0 <= i < |tags| ==>
        CutAt(multiset(old(tags)[i]), consumed[i], trimmed[i], tags[i]) && gone[i] == old(gone)[i] + multiset(trimmed[i])
      ensures forall o :: 0 <= o < |produced| ==>
        posted[o] == old(posted)[o] + own[o] + AllForwarded(trimmed, old(consumed), old(produced)[o])
      ensures log == NewLog(old(log), own, trimmed, old(consumed), old(produced))
    {
      hide CutAt;
      hide Sorted;
      hide AllForwarded;
      hide NewLog;
      hide AllRendered;
      hide PassedFrom;
      ghost var counts, entries, sent, left := consumed, log, posted, gone;
      var was := produced;
      trimmed := Process(eaten, made, own);
      hide Logged;
      LoggedOn(sent, posted, entries, left, gone, own, trimmed, counts, was);
      log := NewLog(entries, own, trimmed, counts, was);
    }
  }

  function Advanced(counts: seq<nat>, made: seq<nat>): (r: seq<nat>)
    requires |counts| == |made|
    ensures |r| == |counts| && forall o :: 0 <= o < |counts| ==> r[o] == counts[o] + made[o]
  {
    seq(|counts|, o requires 0 <= o < |counts| => counts[o] + made[o])
  }

  /** What is stored after a task, together with what is gone, is what was received. */
  lemma StoredOn(tags: seq<seq<Tag>>, tags': seq<seq<Tag>>, gone: seq<multiset<Tag>>, gone': seq<multiset<Tag>>,
                 received: seq<multiset<Tag>>, consumed: seq<nat>, trimmed: seq<seq<Tag>>)
    requires |tags| == |tags'| == |gone| == |gone'| == |received| == |consumed| == |trimmed|
    requires forall i :: 0 <= i < |tags| ==> multiset(tags[i]) + gone[i] == received[i]
    requires forall i :: 0 <= i < |tags| ==>
      CutAt(multiset(tags[i]), consumed[i], trimmed[i], tags'[i]) && gone'[i] == gone[i] + multiset(trimmed[i])
    ensures forall i :: 0 <= i < |tags| ==> Sorted(tags'[i]) && multiset(tags'[i]) + gone'[i] == received[i]
  {
    hide CutAt;
    hide Sorted;
    forall i | 0 <= i < |tags| ensures Sorted(tags'[i]) && multiset(tags'[i]) + gone'[i] == received[i] {
      Conserved(multiset(tags[i]), consumed[i], trimmed[i], tags'[i], gone[i]);
    }
  }

  lemma Conserved(ts: multiset<Tag>, n: nat, first: seq<Tag>, rest: seq<Tag>, before: multiset<Tag>)
    requires CutAt(ts, n, first, rest)
    ensures Sorted(rest) && multiset(rest) + (before + multiset(first)) == ts + before
  {
  }
}
