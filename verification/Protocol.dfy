/** The states a block actor reports. */
module BlockStates {
  datatype BlockState = INIT | LIVE | DONE
}

/** The block actors as a network: one first-in first-out mailbox per block, one handler at a
    time per block, and every posting or token operation of a handler a step of its own, so
    that handlers of different blocks interleave freely. The top block runs one start() and
    then wait(). */
module Protocol {
  import opened BlockStates

  datatype Edge = Edge(src: nat, out: nat, dst: nat, inp: nat)

  /** n blocks; edges in the order in which messages to several peers are posted; outs: how
      many output ports each block has, connected or not. */
  datatype Graph = Graph(n: nat, edges: seq<Edge>, outs: seq<nat>)

  ghost predicate WellFormed(g: Graph) {
    && |g.outs| == g.n
    && forall e :: e in g.edges ==> e.src < g.n && e.dst < g.n && e.out < g.outs[e.src]
  }

  /** The executor's token, the token of an input port, the token of an output port. */
  datatype Tok = TopTok | InTok(b: nat, i: nat) | OutTok(b: nat, o: nat)

  /** Top(phase): a broadcast of start(), phases THREADS to ACTIVE. Data: a buffer, tag or
      message for an input port, with the block that posted it. Other: anything that only
      makes a block try to work: returned buffers, kicks. */
  datatype Msg =
    | Top(phase: nat)
    | Inert
    | TokenMsg(tok: Tok)
    | InputCheck(i: nat)
    | OutputCheck(o: nat)
    | Data(i: nat, src: nat)
    | Other

  const THREADS: nat := 0
  const TOKENS: nat := 1
  const CONFIG: nat := 2
  const ALLOC: nat := 3
  const ACTIVE: nat := 4

  /** The pieces handlers are made of. */
  datatype Op =
    | Post(to: nat, msg: Msg)
    | MakeTokens
    | Keep(tok: Tok)
    | Ack
    | GoLive
    | CheckIn(i: nat)
    | CheckOut(o: nat)
    | Work
    | Settle(i: nat)
    | MarkDone
    | SetDone
    | ClearPool

  /** released: mark_done has cleared the token pool. revived: the activation message was
      handled after that. acked: broadcasts answered. */
  datatype Block = Block(
    state: BlockState, made: bool, pool: set<Tok>, inputsDone: set<nat>, outputsDone: set<nat>,
    released: bool, revived: bool, acked: nat, mail: seq<Msg>, todo: seq<Op>)

  /** The thread in start() and wait(): sending phase to block next, or all sent and waiting
      for the outstanding acknowledgements; then waiting for the token; then out. */
  datatype Main = Bcast(phase: nat, next: nat, outstanding: nat) | Waiting | Exited

  datatype Sys = Sys(blocks: seq<Block>, main: Main)

  // ---------------------------------------------------------------- postings

  /** One message to every peer upstream of b's inputs. */
  function Upstream(edges: seq<Edge>, b: nat, mk: Edge -> Msg): seq<Op> {
    if edges == [] then []
    else (if edges[0].dst == b then [Post(edges[0].src, mk(edges[0]))] else []) + Upstream(edges[1..], b, mk)
  }

  /** One message to every peer downstream of b's outputs. */
  function Downstream(edges: seq<Edge>, b: nat, mk: Edge -> Msg): seq<Op> {
    if edges == [] then []
    else (if edges[0].src == b then [Post(edges[0].dst, mk(edges[0]))] else []) + Downstream(edges[1..], b, mk)
  }

  /** Each input port's token to its producers, each output port's token to its consumers. */
  function TokenPosts(g: Graph, b: nat): seq<Op> {
    Upstream(g.edges, b, (e: Edge) => TokenMsg(InTok(e.dst, e.inp)))
    + Downstream(g.edges, b, (e: Edge) => TokenMsg(OutTok(e.src, e.out)))
  }

  /** mark_done tells both sides to look at their tokens again. */
  function CheckPosts(g: Graph, b: nat): seq<Op> {
    Upstream(g.edges, b, (e: Edge) => OutputCheck(e.out)) + Downstream(g.edges, b, (e: Edge) => InputCheck(e.inp))
  }

  // ---------------------------------------------------------------- handlers

  function Handler(g: Graph, b: nat, m: Msg): seq<Op> {
    match m
    case Top(p) =>
      if p == TOKENS then [MakeTokens] + TokenPosts(g, b) + [Keep(TopTok), Ack]
      else if p == ACTIVE then [GoLive, Ack, Post(b, Other)]
      else [Ack]
    case Inert => [MarkDone]
    case TokenMsg(t) => [Keep(t)]
    case InputCheck(i) => [CheckIn(i), Work, Settle(i)]
    case OutputCheck(o) => [CheckOut(o)]
    case Data(_, _) => [Work]
    case Other => [Work]
  }

  /** Nobody but the owner refers to t. */
  ghost predicate Unique(s: Sys, t: Tok) {
    forall u :: 0 <= u < |s.blocks| ==>
      && t !in s.blocks[u].pool && TokenMsg(t) !in s.blocks[u].mail && Keep(t) !in s.blocks[u].todo
      && forall d :: Post(d, TokenMsg(t)) !in s.blocks[u].todo
  }

  /** Buffers b posts downstream. */
  ghost predicate DataPosts(g: Graph, b: nat, posts: seq<Op>) {
    forall op :: op in posts ==> exists e :: e in g.edges && e.src == b && op == Post(e.dst, Data(e.inp, b))
  }

  /** How an operation with a choice goes: the buffers it posts, and whether it ends in
      mark_done. */
  datatype Choice = Choice(data: seq<Op>, finish: bool)

  const NOTHING: Choice := Choice([], false)

  ghost predicate Allowed(g: Graph, s: Sys, b: nat, c: Choice)
    requires b < |s.blocks| && s.blocks[b].todo != []
  {
    var x := s.blocks[b];
    match x.todo[0]
    case Work => if x.state == LIVE then DataPosts(g, b, c.data) else c == Choice([], false)
    case Settle(i) => c.data == [] && (c.finish ==> i in x.inputsDone)
    case MarkDone => !c.finish && DataPosts(g, b, c.data)
    case _ => c == Choice([], false)
  }

  /** The done bit of every output port of b is set. */
  ghost predicate AllOutputsDone(g: Graph, b: nat, done: set<nat>) {
    b < |g.outs| && forall o: nat :: o < g.outs[b] ==> o in done
  }

  /** What the block itself becomes when it executes its next operation. */
  ghost function Local(g: Graph, s: Sys, b: nat, c: Choice): Block
    requires b < |s.blocks| && s.blocks[b].todo != []
  {
    var x0 := s.blocks[b];
    var x := x0.(todo := x0.todo[1..]);
    match x0.todo[0]
    case Post(_, _) => x
    case MakeTokens => x.(made := true, inputsDone := {}, outputsDone := {})
    case Keep(t) => x.(pool := x.pool + {t})
    case Ack => x.(acked := x.acked + 1)
    case GoLive => x.(state := LIVE, revived := x.revived || x.state == DONE)
    case CheckIn(i) =>
      x.(inputsDone := if x.made && Unique(s, InTok(b, i)) then x.inputsDone + {i} else x.inputsDone - {i})
    case CheckOut(o) =>
      var done := if x.made && Unique(s, OutTok(b, o)) then x.outputsDone + {o} else x.outputsDone - {o};
      x.(outputsDone := done, todo := (if AllOutputsDone(g, b, done) then [MarkDone] else []) + x.todo)
    case Work => x.(todo := c.data + (if c.finish then [MarkDone] else []) + x.todo)
    case Settle(_) => x.(todo := (if c.finish then [MarkDone] else []) + x.todo)
    case MarkDone =>
      if x.state == DONE then x
      else x.(todo := c.data + [SetDone, ClearPool] + CheckPosts(g, b) + x.todo)
    case SetDone => x.(state := DONE)
    case ClearPool => x.(pool := {}, released := true)
  }

  function Mailed(x: Block, m: Msg): Block {
    x.(mail := x.mail + [m])
  }

  // ---------------------------------------------------------------- steps

  datatype Step =
    | SendTop
    | NextPhase
    | Take(b: nat)
    | Exec(b: nat, c: Choice)
    | Sweep(b: nat)
    | Noise(b: nat)
    | Leave

  ghost predicate Enabled(g: Graph, s: Sys, t: Step) {
    match t
    case SendTop => s.main.Bcast? && s.main.next < |s.blocks|
    case NextPhase => s.main.Bcast? && s.main.next >= |s.blocks| && s.main.outstanding == 0
    case Take(b) => b < |s.blocks| && s.blocks[b].todo == [] && s.blocks[b].mail != []
    case Exec(b, c) =>
      && b < |s.blocks| && s.blocks[b].todo != [] && Allowed(g, s, b, c)
      && (s.blocks[b].todo[0].Post? ==> s.blocks[b].todo[0].to < |s.blocks|)
      && (s.blocks[b].todo[0].Ack? ==> s.main.Bcast? && s.main.outstanding > 0)
    case Sweep(b) => s.main.Waiting? && b < |s.blocks| && s.blocks[b].inputsDone != {}
    case Noise(b) => b < |s.blocks|
    case Leave => s.main.Waiting? && Unique(s, TopTok)
  }

  ghost function Apply(g: Graph, s: Sys, t: Step): Sys
    requires Enabled(g, s, t)
  {
    match t
    case SendTop =>
      var b := s.main.next;
      Sys(s.blocks[b := Mailed(s.blocks[b], Top(s.main.phase))], s.main.(next := b + 1))
    case NextPhase =>
      s.(main := if s.main.phase == ACTIVE then Waiting else Bcast(s.main.phase + 1, 0, |s.blocks|))
    case Take(b) =>
      var x := s.blocks[b];
      s.(blocks := s.blocks[b := x.(mail := x.mail[1..], todo := Handler(g, b, x.mail[0]))])
    case Exec(b, c) =>
      var op := s.blocks[b].todo[0];
      var blocks := s.blocks[b := Local(g, s, b, c)];
      if op.Post? then s.(blocks := blocks[op.to := Mailed(blocks[op.to], op.msg)])
      else if op.Ack? then Sys(blocks, s.main.(outstanding := s.main.outstanding - 1))
      else s.(blocks := blocks)
    case Sweep(b) => s.(blocks := s.blocks[b := Mailed(s.blocks[b], Inert)])
    case Noise(b) => s.(blocks := s.blocks[b := Mailed(s.blocks[b], Other)])
    case Leave => s.(main := Exited)
  }

  const FRESH: Block := Block(INIT, false, {}, {}, {}, false, false, 0, [], [])

  /** Before start(). */
  ghost predicate Initial(g: Graph, s: Sys) {
    && WellFormed(g) && |s.blocks| == g.n && s.main == Bcast(THREADS, 0, g.n)
    && forall b :: 0 <= b < g.n ==> s.blocks[b] == FRESH
  }

  ghost predicate Next(g: Graph, s: Sys, s': Sys) {
    exists t :: Enabled(g, s, t) && s' == Apply(g, s, t)
  }

  ghost predicate Run(g: Graph, r: seq<Sys>) {
    && r != [] && Initial(g, r[0])
    && forall k {:trigger r[k + 1]} :: 0 <= k < |r| - 1 ==> Next(g, r[k], r[k + 1])
  }

  // ---------------------------------------------------------------- notions the theorems use

  /** Block u feeds input i of block b. */
  ghost predicate Feeds(g: Graph, u: nat, b: nat, i: nat) {
    exists e :: e in g.edges && e.src == u && e.dst == b && e.inp == i
  }

  /** Block d reads output o of block u. */
  ghost predicate Reads(g: Graph, d: nat, u: nat, o: nat) {
    exists e :: e in g.edges && e.src == u && e.out == o && e.dst == d
  }

  /** The tokens block b is to hold while it is interested. */
  ghost predicate Needs(g: Graph, b: nat, t: Tok) {
    match t
    case TopTok => true
    case InTok(d, i) => Feeds(g, b, d, i)
    case OutTok(u, o) => Reads(g, b, u, o)
  }

  ghost predicate HoldsAll(g: Graph, b: nat, pool: set<Tok>) {
    forall t :: t in pool <==> Needs(g, b, t)
  }

  ghost predicate Quiescent(s: Sys) {
    s.main.Waiting? && forall b :: 0 <= b < |s.blocks| ==> s.blocks[b].mail == [] && s.blocks[b].todo == []
  }
}
