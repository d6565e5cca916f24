/** Blocks in a row, each handing tags and items to the next through a first-in first-out
    link: no tag overtakes, and none is overtaken by, the item it marks. */
module TagChain {
  import opened Tags

  datatype Event = Tagged(offset: nat) | Items(n: nat)

  /** Items received, consumed and produced; the positions of the tags in store. heard, gone,
      told: all tags received, taken out of the store, and posted so far. */
  datatype Node = Node(
    received: nat, consumed: nat, produced: nat, tags: seq<nat>,
    heard: multiset<nat>, gone: multiset<nat>, told: multiset<nat>)

  /** links[k] leads from node k to node k + 1; the first node is the source. */
  datatype Chain = Chain(nodes: seq<Node>, links: seq<seq<Event>>)

  function Under(ts: seq<nat>, n: nat): (r: seq<nat>)
    ensures forall t :: t in r <==> t in ts && t < n
  {
    if ts == [] then [] else (if ts[0] < n then [ts[0]] else []) + Under(ts[1..], n)
  }

  function Over(ts: seq<nat>, n: nat): (r: seq<nat>)
    ensures forall t :: t in r <==> t in ts && n <= t
  {
    if ts == [] then [] else (if ts[0] >= n then [ts[0]] else []) + Over(ts[1..], n)
  }

  function TagEvents(ts: seq<nat>): seq<Event> {
    if ts == [] then [] else [Tagged(ts[0])] + TagEvents(ts[1..])
  }

  function MovedAll(ts: seq<nat>, consumed: nat, produced: nat): seq<nat> {
    seq(|ts|, k requires 0 <= k < |ts| => Moved(ts[k], consumed, produced))
  }

  /** Task(k): node k's work consumes eaten items, posts tags own and produces made items.
      Receive(k): node k takes the next event of its link. */
  datatype Step = Task(k: nat, eaten: nat, made: nat, own: seq<nat>) | Receive(k: nat)

  predicate Enabled(c: Chain, t: Step) {
    match t
    case Task(k, eaten, made, own) =>
      && k < |c.nodes| && k < |c.links|
      && c.nodes[k].consumed + eaten <= c.nodes[k].received
      && c.nodes[k].produced + eaten <= WRAP
      && forall o :: o in own ==> c.nodes[k].produced <= o
    case Receive(k) => 0 < k < |c.nodes| && k - 1 < |c.links| && c.links[k - 1] != []
  }

  /** A buffer is posted only when something was produced. */
  function Buffer(made: nat): seq<Event> {
    if made == 0 then [] else [Items(made)]
  }

  /** What a task puts on its link: the block's own tags, the forwarded ones, the items. */
  function Sent(x: Node, eaten: nat, made: nat, own: seq<nat>): seq<Event> {
    TagEvents(own) + TagEvents(MovedAll(Under(x.tags, x.consumed + eaten), x.consumed, x.produced)) + Buffer(made)
  }

  /** The tags of a task: the block's own and the forwarded ones. */
  function Posted(x: Node, eaten: nat, own: seq<nat>): multiset<nat> {
    multiset(own) + multiset(MovedAll(Under(x.tags, x.consumed + eaten), x.consumed, x.produced))
  }

  /** The node after a task, and after an event of its link. */
  function Tasked(x: Node, eaten: nat, made: nat, own: seq<nat>): Node {
    var due := Under(x.tags, x.consumed + eaten);
    x.(consumed := x.consumed + eaten, produced := x.produced + made, tags := Over(x.tags, x.consumed + eaten),
       gone := x.gone + multiset(due),
       told := x.told + Posted(x, eaten, own))
  }

  function Took(x: Node, e: Event): Node {
    match e
    case Tagged(o) => x.(tags := x.tags + [o], heard := x.heard + multiset{o})
    case Items(n) => x.(received := x.received + n)
  }

  function Apply(c: Chain, t: Step): Chain
    requires Enabled(c, t)
  {
    match t
    case Task(k, eaten, made, own) =>
      var x := c.nodes[k];
      Chain(c.nodes[k := Tasked(x, eaten, made, own)], c.links[k := c.links[k] + Sent(x, eaten, made, own)])
    case Receive(k) =>
      var x := c.nodes[k];
      Chain(c.nodes[k := Took(x, c.links[k - 1][0])], c.links[k - 1 := c.links[k - 1][1..]])
  }

  const START: Node := Node(0, 0, 0, [], multiset{}, multiset{}, multiset{})

  predicate Initial(c: Chain) {
    |c.links| == |c.nodes| && forall k :: 0 <= k < |c.nodes| ==> c.nodes[k] == START && c.links[k] == []
  }

  ghost predicate Run(cs: seq<Chain>) {
    && cs != [] && Initial(cs[0])
    && forall j {:trigger cs[j + 1]} :: 0 <= j < |cs| - 1 ==> exists t :: Enabled(cs[j], t) && cs[j + 1] == Apply(cs[j], t)
  }

  /** Items on a link. */
  function Load(l: seq<Event>): nat {
    if l == [] then 0 else (if l[0].Items? then l[0].n else 0) + Load(l[1..])
  }

  /** Reading the link from a receiver that has got base items, each tag comes before its
      item. */
  predicate OnTime(base: nat, l: seq<Event>)
    decreases l
  {
    l == [] || match l[0]
      case Tagged(o) => base <= o && OnTime(base, l[1..])
      case Items(n) => OnTime(base + n, l[1..])
  }

  lemma {:induction false} OnTimeAppend(base: nat, l: seq<Event>, m: seq<Event>)
    ensures Load(l + m) == Load(l) + Load(m)
    ensures OnTime(base, l + m) <==> OnTime(base, l) && OnTime(base + Load(l), m)
    decreases l
  {
    if l == [] {
      assert l + m == m;
    } else {
      assert (l + m)[0] == l[0] && (l + m)[1..] == l[1..] + m;
      OnTimeAppend(if l[0].Items? then base + l[0].n else base, l[1..], m);
      OnTimeAppend(base, l[1..], m);
    }
  }

  lemma {:induction false} TagEventsOnTime(base: nat, ts: seq<nat>)
    ensures Load(TagEvents(ts)) == 0
    ensures OnTime(base, TagEvents(ts)) <==> forall t :: t in ts ==> base <= t
  {
    if ts != [] {
      assert TagEvents(ts)[0] == Tagged(ts[0]) && TagEvents(ts)[1..] == TagEvents(ts[1..]);
      TagEventsOnTime(base, ts[1..]);
      assert OnTime(base, TagEvents(ts)) <==> base <= ts[0] && OnTime(base, TagEvents(ts[1..]));
      assert forall t :: t in ts ==> t == ts[0] || t in ts[1..];
      assert ts[0] in ts && forall t :: t in ts[1..] ==> t in ts;
    }
  }

  /** A task parts the stored tags: each is sent or kept, as often as it was there. */
  lemma {:induction false} Parted(ts: seq<nat>, n: nat)
    ensures multiset(Under(ts, n)) + multiset(Over(ts, n)) == multiset(ts)
  {
    if ts != [] {
      Parted(ts[1..], n);
      assert ts == [ts[0]] + ts[1..];
    }
  }

  /** And a sent one keeps its distance from the count: as far past what the block has produced as
      it was past what the block had consumed. */
  lemma MovedAligned(x: Node, eaten: nat, k: nat)
    requires (forall t :: t in x.tags ==> x.consumed <= t) && x.produced + eaten <= WRAP
    requires k < |Under(x.tags, x.consumed + eaten)|
    ensures var due := Under(x.tags, x.consumed + eaten); var moved := MovedAll(due, x.consumed, x.produced);
      |moved| == |due| && moved[k] - x.produced == due[k] - x.consumed
  {
    var due := Under(x.tags, x.consumed + eaten);
    assert due[k] in due;
    MovedExact(due[k], x.consumed, x.produced);
  }

  /** A block that has produced as much as it consumed hands tags on where they were. */
  lemma OneToOne(x: Node, eaten: nat, made: nat, own: seq<nat>)
    requires (forall t :: t in x.tags ==> x.consumed <= t) && x.produced + eaten <= WRAP && x.consumed == x.produced
    ensures Sent(x, eaten, made, own) == TagEvents(own) + TagEvents(Under(x.tags, x.consumed + eaten)) + Buffer(made)
  {
    var due := Under(x.tags, x.consumed + eaten);
    var moved := MovedAll(due, x.consumed, x.produced);
    forall k: nat | k < |due| ensures moved[k] == due[k] {
      MovedAligned(x, eaten, k);
    }
    assert moved == due;
  }

  /** Whatever a task sends is on time for a receiver that has got all it produced before. */
  lemma SentOnTime(x: Node, eaten: nat, made: nat, own: seq<nat>)
    requires (forall t :: t in x.tags ==> x.consumed <= t) && x.produced + eaten <= WRAP
    requires forall o :: o in own ==> x.produced <= o
    ensures OnTime(x.produced, Sent(x, eaten, made, own)) && Load(Sent(x, eaten, made, own)) == made
  {
    var due := Under(x.tags, x.consumed + eaten);
    var moved := MovedAll(due, x.consumed, x.produced);
    forall t | t in moved ensures x.produced <= t {
      var k :| 0 <= k < |moved| && moved[k] == t;
      assert due[k] in due;
      MovedExact(due[k], x.consumed, x.produced);
    }
    hide Under;
    hide MovedAll;
    TagEventsOnTime(x.produced, own);
    TagEventsOnTime(x.produced, moved);
    OnTimeAppend(x.produced, TagEvents(own), TagEvents(moved));
    OnTimeAppend(x.produced, TagEvents(own) + TagEvents(moved), Buffer(made));
    hide TagEvents;
    assert [Items(made)][1..] == [];
    assert Load(Buffer(made)) == made && OnTime(x.produced, Buffer(made));
  }

  ghost predicate Inv(c: Chain) {
    && |c.links| == |c.nodes|
    && (forall k :: 0 <= k < |c.nodes| ==>
          c.nodes[k].consumed <= c.nodes[k].received && forall t :: t in c.nodes[k].tags ==> c.nodes[k].consumed <= t)
    && forall k {:trigger c.links[k]} :: 0 <= k < |c.nodes| - 1 ==>
         OnTime(c.nodes[k + 1].received, c.links[k]) && c.nodes[k + 1].received + Load(c.links[k]) == c.nodes[k].produced
  }

  lemma TaskKeeps(c: Chain, t: Step)
    requires Inv(c) && t.Task? && Enabled(c, t)
    ensures Inv(Apply(c, t))
  {
    var c', x := Apply(c, t), c.nodes[t.k];
    SentOnTime(x, t.eaten, t.made, t.own);
    hide Sent;
    hide Over;
    hide Posted;
    hide Under;
    hide OnTime;
    hide Load;
    forall k | 0 <= k < |c'.nodes| - 1
      ensures OnTime(c'.nodes[k + 1].received, c'.links[k])
      ensures c'.nodes[k + 1].received + Load(c'.links[k]) == c'.nodes[k].produced
    {
      assert OnTime(c.nodes[k + 1].received, c.links[k]);
      if k == t.k {
        OnTimeAppend(c.nodes[k + 1].received, c.links[k], Sent(x, t.eaten, t.made, t.own));
      }
    }
  }

  lemma ReceiveKeeps(c: Chain, t: Step)
    requires Inv(c) && t.Receive? && Enabled(c, t)
    ensures Inv(Apply(c, t))
  {
    var c' := Apply(c, t);
    var j: nat := t.k - 1;
    assert OnTime(c.nodes[j + 1].received, c.links[j]);
    assert OnTime(c'.nodes[j + 1].received, c'.links[j]);
    hide OnTime;
    forall k | 0 <= k < |c'.nodes| - 1
      ensures OnTime(c'.nodes[k + 1].received, c'.links[k])
      ensures c'.nodes[k + 1].received + Load(c'.links[k]) == c'.nodes[k].produced
    {
      assert OnTime(c.nodes[k + 1].received, c.links[k]);
    }
  }

  lemma {:induction false} RunInv(cs: seq<Chain>, k: nat)
    requires Run(cs) && k < |cs|
    ensures Inv(cs[k])
  {
    if k > 0 {
      var j: nat := k - 1;
      RunInv(cs, j);
      assert exists t :: Enabled(cs[j], t) && cs[j + 1] == Apply(cs[j], t);
      var t :| Enabled(cs[j], t) && cs[j + 1] == Apply(cs[j], t);
      if t.Task? {
        TaskKeeps(cs[j], t);
      } else {
        ReceiveKeeps(cs[j], t);
      }
    }
  }

  /** Tags never arrive late, however far down the chain and whatever the rates of the blocks
      between: when a block is handed a tag, it has not yet received the tag's item, and what
      it stores is at or past its consumed count. */
  lemma TagsNeverLate(cs: seq<Chain>, j: nat, k: nat)
    requires Run(cs) && j < |cs| && Enabled(cs[j], Receive(k)) && cs[j].links[k - 1][0].Tagged?
    ensures cs[j].nodes[k].received <= cs[j].links[k - 1][0].offset
    ensures forall t :: t in cs[j].nodes[k].tags ==> cs[j].nodes[k].consumed <= t
  {
    RunInv(cs, j);
    var i: nat := k - 1;
    assert OnTime(cs[j].nodes[i + 1].received, cs[j].links[i]);
  }

  /** Items are neither lost nor invented on the way. */
  lemma ItemsConserved(cs: seq<Chain>, j: nat, k: nat)
    requires Run(cs) && j < |cs| && k + 1 < |cs[j].nodes| && |cs[j].links| == |cs[j].nodes|
    ensures cs[j].nodes[k].produced == cs[j].nodes[k + 1].received + Load(cs[j].links[k])
  {
    RunInv(cs, j);
  }

  // ---------------------------------------------------------------- no tag is lost

  function TagsOn(l: seq<Event>): multiset<nat> {
    if l == [] then multiset{} else (if l[0].Tagged? then multiset{l[0].offset} else multiset{}) + TagsOn(l[1..])
  }

  lemma {:induction false} TagsOnAppend(l: seq<Event>, m: seq<Event>)
    ensures TagsOn(l + m) == TagsOn(l) + TagsOn(m)
  {
    if l == [] {
      assert l + m == m;
    } else {
      assert (l + m)[0] == l[0] && (l + m)[1..] == l[1..] + m;
      TagsOnAppend(l[1..], m);
    }
  }

  lemma {:induction false} TagsOnTags(ts: seq<nat>)
    ensures TagsOn(TagEvents(ts)) == multiset(ts)
  {
    if ts != [] {
      assert TagEvents(ts)[0] == Tagged(ts[0]) && TagEvents(ts)[1..] == TagEvents(ts[1..]);
      TagsOnTags(ts[1..]);
      assert ts == [ts[0]] + ts[1..];
    }
  }

  lemma TagsSent(x: Node, eaten: nat, made: nat, own: seq<nat>, l: seq<Event>)
    ensures TagsOn(l + Sent(x, eaten, made, own)) == TagsOn(l) + Posted(x, eaten, own)
  {
    hide MovedAll;
    hide Under;
    hide TagsOn;
    hide TagEvents;
    hide Buffer;
    TagsOnAppend(l, Sent(x, eaten, made, own));
    TagsThenItems(own, MovedAll(Under(x.tags, x.consumed + eaten), x.consumed, x.produced), made);
  }

  lemma TagsThenItems(a: seq<nat>, b: seq<nat>, made: nat)
    ensures TagsOn(TagEvents(a) + TagEvents(b) + Buffer(made)) == multiset(a) + multiset(b)
  {
    NoTagsOn(made);
    hide *;
    TagsOnTags(a);
    TagsOnTags(b);
    TagsOnAppend(TagEvents(a), TagEvents(b));
    TagsOnAppend(TagEvents(a) + TagEvents(b), Buffer(made));
  }

  lemma NoTagsOn(made: nat)
    ensures TagsOn(Buffer(made)) == multiset{}
  {
    assert [Items(made)][1..] == [];
  }

  ghost predicate Kept(x: Node) {
    x.heard == multiset(x.tags) + x.gone
  }

  /** What a posted is what b received and what is on the link between them. */
  ghost predicate Joins(a: Node, l: seq<Event>, b: Node) {
    a.told == b.heard + TagsOn(l)
  }

  ghost predicate Conserved(c: Chain) {
    && |c.links| == |c.nodes| && (forall k :: 0 <= k < |c.nodes| ==> Kept(c.nodes[k]))
    && forall k {:trigger c.links[k]} :: 0 <= k < |c.nodes| - 1 ==> Joins(c.nodes[k], c.links[k], c.nodes[k + 1])
  }

  lemma TaskedConserves(x: Node, eaten: nat, made: nat, own: seq<nat>)
    requires Kept(x)
    ensures var y := Tasked(x, eaten, made, own); Kept(y) && y.heard == x.heard && y.told == x.told + Posted(x, eaten, own)
  {
    hide Over;
    hide Under;
    hide Posted;
    Parted(x.tags, x.consumed + eaten);
    Regrouped(x.heard, multiset(x.tags), x.gone, multiset(Under(x.tags, x.consumed + eaten)), multiset(Over(x.tags, x.consumed + eaten)));
  }

  lemma Regrouped(heard: multiset<nat>, tags: multiset<nat>, gone: multiset<nat>, due: multiset<nat>, left: multiset<nat>)
    requires heard == tags + gone && due + left == tags
    ensures heard == left + (gone + due)
  {
  }

  lemma TookConserves(x: Node, l: seq<Event>)
    requires Kept(x) && l != []
    ensures var y := Took(x, l[0]); Kept(y) && y.told == x.told && y.heard + TagsOn(l[1..]) == x.heard + TagsOn(l)
  {
    var rest := TagsOn(l[1..]);
    assert TagsOn(l) == (if l[0].Tagged? then multiset{l[0].offset} else multiset{}) + rest;
    hide TagsOn;
  }

  lemma TaskStep(c: Chain, t: Step)
    requires Conserved(c) && t.Task? && Enabled(c, t)
    ensures Conserved(Apply(c, t))
  {
    hide Kept;
    hide Tasked;
    hide Sent;
    hide TagsOn;
    hide Posted;
    var c', x := Apply(c, t), c.nodes[t.k];
    TaskedConserves(x, t.eaten, t.made, t.own);
    TagsSent(x, t.eaten, t.made, t.own, c.links[t.k]);
    forall k {:trigger c'.links[k]} | 0 <= k < |c'.nodes| - 1 ensures Joins(c'.nodes[k], c'.links[k], c'.nodes[k + 1]) {
      assert Joins(c.nodes[k], c.links[k], c.nodes[k + 1]);
      if k == t.k {
        MoreTold(x.told, Posted(x, t.eaten, t.own), c.nodes[k + 1].heard, TagsOn(c.links[k]));
      }
    }
  }

  lemma MoreTold(told: multiset<nat>, posted: multiset<nat>, heard: multiset<nat>, under: multiset<nat>)
    requires told == heard + under
    ensures told + posted == heard + (under + posted)
  {
  }

  lemma ReceiveStep(c: Chain, t: Step)
    requires Conserved(c) && t.Receive? && Enabled(c, t)
    ensures Conserved(Apply(c, t))
  {
    hide Kept;
    hide Took;
    hide TagsOn;
    var c' := Apply(c, t);
    TookConserves(c.nodes[t.k], c.links[t.k - 1]);
    forall k {:trigger c'.links[k]} | 0 <= k < |c'.nodes| - 1 ensures Joins(c'.nodes[k], c'.links[k], c'.nodes[k + 1]) {
      assert Joins(c.nodes[k], c.links[k], c.nodes[k + 1]);
    }
  }

  lemma StepConserves(c: Chain, t: Step)
    requires Conserved(c) && Enabled(c, t)
    ensures Conserved(Apply(c, t))
  {
    hide *;
    if t.Task? {
      TaskStep(c, t);
    } else {
      ReceiveStep(c, t);
    }
  }

  lemma StartConserves(c: Chain)
    requires Initial(c)
    ensures Conserved(c)
  {
    assert multiset(START.tags) == multiset{};
  }

  lemma {:induction false} RunConserves(cs: seq<Chain>, k: nat)
    requires Run(cs) && k < |cs|
    ensures Conserved(cs[k])
  {
    hide Apply;
    hide Enabled;
    hide Conserved;
    hide Initial;
    if k > 0 {
      var j: nat := k - 1;
      RunConserves(cs, j);
      assert exists t :: Enabled(cs[j], t) && cs[j + 1] == Apply(cs[j], t);
      var t :| Enabled(cs[j], t) && cs[j + 1] == Apply(cs[j], t);
      StepConserves(cs[j], t);
    } else {
      StartConserves(cs[0]);
    }
  }

  /** Nor are tags: in every run, those a block has posted are those the next one has received and
      those on the way to it, and those it has received are in its store or were forwarded. */
  lemma TagsConserved(cs: seq<Chain>, j: nat, k: nat)
    requires Run(cs) && j < |cs| && k < |cs[j].nodes|
    ensures cs[j].nodes[k].heard == multiset(cs[j].nodes[k].tags) + cs[j].nodes[k].gone
    ensures k + 1 < |cs[j].nodes| == |cs[j].links| ==> cs[j].nodes[k].told == cs[j].nodes[k + 1].heard + TagsOn(cs[j].links[k])
  {
    RunConserves(cs, j);
    assert Kept(cs[j].nodes[k]);
    hide TagsOn;
  }
}
