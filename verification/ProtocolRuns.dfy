/** What start() and wait() guarantee over whole runs. */
module ProtocolRuns {
  import opened BlockStates
  import opened Protocol
  import opened ProtocolBarrier
  import opened ProtocolStart
  import opened ProtocolDone

  lemma {:induction false} RunInv(g: Graph, r: seq<Sys>, k: nat)
    requires Run(g, r) && k < |r|
    ensures Starting(g, r[k]) || Running(g, r[k])
  {
    if k == 0 {
      StartingStarts(g, r[0]);
    } else {
      RunInv(g, r, k - 1);
      var j: nat := k - 1;
      assert Next(g, r[j], r[j + 1]);
      var t :| Enabled(g, r[j], t) && r[j + 1] == Apply(g, r[j], t);
      StepInv(g, r[j], t);
    }
  }

  lemma RunNext(g: Graph, r: seq<Sys>, j: nat) returns (t: Step)
    requires Run(g, r) && j + 1 < |r|
    ensures Enabled(g, r[j], t) && r[j + 1] == Apply(g, r[j], t)
  {
    assert Next(g, r[j], r[j + 1]);
    hide Enabled;
    hide Apply;
    t :| Enabled(g, r[j], t) && r[j + 1] == Apply(g, r[j], t);
  }

  lemma NotYetRunning(g: Graph, r: seq<Sys>)
    requires Run(g, r)
    ensures !Running(g, r[0])
  {
  }

  /** The step that begins the last broadcast. */
  lemma FirstRunning(g: Graph, s: Sys, t: Step)
    requires Starting(g, s) && !Running(g, s) && Enabled(g, s, t) && Running(g, Apply(g, s, t))
    ensures t == NextPhase && s.main.phase == ALLOC
  {
    if !(t.NextPhase? && s.main.phase == ALLOC) {
      StartingKeeps(g, s, t);
    }
  }

  lemma StepInv(g: Graph, s: Sys, t: Step)
    requires (Starting(g, s) || Running(g, s)) && Enabled(g, s, t)
    ensures Starting(g, Apply(g, s, t)) || Running(g, Apply(g, s, t))
    ensures Running(g, s) ==> Running(g, Apply(g, s, t))
  {
    if Running(g, s) {
      RunningKeeps(g, s, t);
    } else if t.NextPhase? && s.main.phase == ALLOC {
      RunningStarts(g, s);
    } else {
      StartingKeeps(g, s, t);
    }
  }

  lemma StartingBlock(g: Graph, s: Sys, b: nat)
    requires Starting(g, s) && b < g.n
    ensures Blank(s.blocks[b]) && GoLive !in s.blocks[b].todo && MarkDone !in s.blocks[b].todo
  {
    assert Young(g, s.main.phase, b, s.blocks[b]);
    assert !YoungOp(g, s.main.phase, b, GoLive) && !YoungOp(g, s.main.phase, b, MarkDone);
  }

  // ---------------------------------------------------------------- start()

  /** No block is ever a broadcast ahead: a broadcast reaches a mailbox only when every block
      has answered all earlier ones. */
  lemma BroadcastsInStep(g: Graph, r: seq<Sys>, k: nat, b: nat, c: nat, q: nat)
    requires Run(g, r) && k < |r| && b < g.n && c < g.n
    ensures |r[k].blocks| == g.n
    ensures Top(q) in r[k].blocks[b].mail ==> r[k].blocks[c].acked >= q && r[k].blocks[b].acked == q
    ensures r[k].blocks[b].acked <= r[k].blocks[c].acked + 1
  {
    RunInv(g, r, k);
    var s := r[k];
    assert Answering(Phase(s.main), SentTo(s.main, b), s.blocks[b]);
    assert Answering(Phase(s.main), SentTo(s.main, c), s.blocks[c]);
    if Top(q) in s.blocks[b].mail {
      assert multiset(s.blocks[b].mail)[Top(q)] > 0;
    }
  }

  /** A handler can always go on: in particular no acknowledgement is sent that the top block
      does not expect, and every post has an addressee. */
  lemma HandlersGoOn(g: Graph, r: seq<Sys>, k: nat, b: nat)
    requires Run(g, r) && k < |r| && b < |r[k].blocks| && r[k].blocks[b].todo != []
    ensures Enabled(g, r[k], Exec(b, NOTHING))
  {
    RunInv(g, r, k);
    GoesOn(g, r[k], b);
  }

  lemma GoesOn(g: Graph, s: Sys, b: nat)
    requires (Starting(g, s) || Running(g, s)) && b < |s.blocks| && s.blocks[b].todo != []
    ensures Enabled(g, s, Exec(b, NOTHING))
    ensures s.blocks[b].todo[0].Post? ==> !s.blocks[b].todo[0].msg.Top?
  {
    var op := s.blocks[b].todo[0];
    if Starting(g, s) {
      assert Young(g, s.main.phase, b, s.blocks[b]) && YoungOp(g, s.main.phase, b, op);
    } else {
      assert Grown(g, b, s.blocks[b]) && CalmOp(g, op);
    }
    if op == Ack {
      AckExpected(g, s, b);
    }
  }

  /** start() never waits in vain: until it returns, the top block can send or go on, or a
      block that owes an answer can take a message or continue its handler. */
  lemma StartNeverStuck(g: Graph, r: seq<Sys>, k: nat)
    requires Run(g, r) && k < |r| && r[k].main.Bcast?
    ensures Enabled(g, r[k], SendTop) || Enabled(g, r[k], NextPhase)
         || exists b: nat :: b < |r[k].blocks| && r[k].blocks[b].acked == r[k].main.phase
              && (Enabled(g, r[k], Take(b)) || Enabled(g, r[k], Exec(b, NOTHING)))
  {
    RunInv(g, r, k);
    var s := r[k];
    if s.main.next >= |s.blocks| && s.main.outstanding != 0 {
      assert Owing(s) != {};
      var b :| b in Owing(s);
      assert Answering(s.main.phase, true, s.blocks[b]);
      if s.blocks[b].todo != [] {
        HandlersGoOn(g, r, k, b);
      } else {
        assert multiset(s.blocks[b].todo)[Ack] == 0;
        assert multiset(s.blocks[b].mail)[Top(s.main.phase)] > 0;
        assert Enabled(g, s, Take(b));
      }
    }
  }

  /** About to go LIVE, a block holds the executor's token and those of all its neighbours
      exactly when it has not been marked done before its activation. */
  lemma StartBarrier(g: Graph, r: seq<Sys>, k: nat, b: nat)
    requires Run(g, r) && k < |r| && b < |r[k].blocks|
    requires r[k].blocks[b].todo != [] && r[k].blocks[b].todo[0] == GoLive
    ensures HoldsAll(g, b, r[k].blocks[b].pool) <==> r[k].blocks[b].state != DONE
  {
    RunInv(g, r, k);
    var s := r[k];
    var x := s.blocks[b];
    assert GoLive in x.todo;
    if Starting(g, s) {
      StartingBlock(g, s, b);
    } else {
      assert Grown(g, b, x);
      assert x.todo == [GoLive, Ack, Post(b, Other)];
      assert Needs(g, b, TopTok);
    }
  }

  /** And from then on: a LIVE block holds them all unless it had been done before. */
  lemma LiveHolds(g: Graph, r: seq<Sys>, k: nat, b: nat)
    requires Run(g, r) && k < |r| && b < |r[k].blocks| && r[k].blocks[b].state == LIVE
    ensures HoldsAll(g, b, r[k].blocks[b].pool) <==> !r[k].blocks[b].revived
  {
    RunInv(g, r, k);
    var s := r[k];
    if Starting(g, s) {
      StartingBlock(g, s, b);
    } else {
      assert Grown(g, b, s.blocks[b]);
      assert Needs(g, b, TopTok);
    }
  }

  // ---------------------------------------------------------------- done, both ways

  /** A port counts as done only when every block on its other side has let go of its tokens,
      and so was DONE. */
  lemma DoneIsTrue(g: Graph, r: seq<Sys>, k: nat, b: nat, u: nat, p: nat)
    requires Run(g, r) && k < |r| && b < |r[k].blocks|
    requires (p in r[k].blocks[b].inputsDone && Feeds(g, u, b, p)) || (p in r[k].blocks[b].outputsDone && Reads(g, u, b, p))
    ensures u < |r[k].blocks| && r[k].blocks[u].released && r[k].blocks[u].pool == {}
    ensures r[k].blocks[u].state == DONE || r[k].blocks[u].revived
  {
    RunInv(g, r, k);
    var s := r[k];
    if Starting(g, s) {
      StartingBlock(g, s, b);
    } else {
      assert p in s.blocks[b].inputsDone ==> FedOut(g, s, b, p);
      assert p in s.blocks[b].outputsDone ==> ReadOut(g, s, b, p);
      assert Grown(g, u, s.blocks[u]);
    }
  }

  lemma QuiescentRuns(g: Graph, r: seq<Sys>, k: nat)
    requires Run(g, r) && k < |r| && Quiescent(r[k])
    ensures Running(g, r[k])
  {
    RunInv(g, r, k);
  }

  /** With nothing in flight, a connected port is done exactly when everybody on its other
      side has let go. */
  lemma DoneIsExact(g: Graph, r: seq<Sys>, k: nat, b: nat, u: nat, p: nat)
    requires Run(g, r) && k < |r| && Quiescent(r[k]) && b < |r[k].blocks|
    ensures Feeds(g, u, b, p) ==> (p in r[k].blocks[b].inputsDone <==> FedOut(g, r[k], b, p))
    ensures Reads(g, u, b, p) ==> (p in r[k].blocks[b].outputsDone <==> ReadOut(g, r[k], b, p))
  {
    QuiescentRuns(g, r, k);
    var s := r[k];
    assert InsTrue(g, s) && OutsTrue(g, s) && InsTold(g, s) && OutsTold(g, s);
    assert !InputPending(s, b, p) && !OutputPending(s, b, p);
    hide FedOut;
    hide ReadOut;
    hide Feeds;
    hide Reads;
    hide Grown;
    hide Barrier;
  }

  /** Without a revival, letting go and being DONE are then the same. */
  lemma ReleasedIsDone(g: Graph, r: seq<Sys>, k: nat, u: nat)
    requires Run(g, r) && k < |r| && Quiescent(r[k]) && u < |r[k].blocks| && !r[k].blocks[u].revived
    ensures r[k].blocks[u].released <==> r[k].blocks[u].state == DONE
  {
    QuiescentRuns(g, r, k);
    assert Grown(g, u, r[k].blocks[u]);
  }

  /** The state of block b at an effective mark_done: about to run it, and not DONE. */
  ghost predicate Effective(x: Block) {
    x.todo != [] && x.todo[0] == MarkDone && x.state != DONE
  }

  /** When mark_done is about to take effect on a block never revived, the block still holds
      every token and no other mark_done is under way. */
  lemma MarkDoneFirst(g: Graph, r: seq<Sys>, k: nat, b: nat)
    requires Run(g, r) && k < |r| && b < |r[k].blocks| && !r[k].blocks[b].revived && Effective(r[k].blocks[b])
    ensures var x := r[k].blocks[b]; !x.released && HoldsAll(g, b, x.pool) && Plain(x.todo)
  {
    RunInv(g, r, k);
    var s := r[k];
    var x := s.blocks[b];
    if Starting(g, s) {
      StartingBlock(g, s, b);
    } else {
      assert Grown(g, b, x);
      assert Plain(x.todo[1..]);
      assert forall op :: op in x.todo ==> op == MarkDone || op in x.todo[1..];
    }
  }

  /** mark_done has begun on the block, and has not been undone. */
  ghost predicate Begun(x: Block) {
    SetDone in x.todo || x.state == DONE
  }

  /** Block b's activation is handled although it is DONE. */
  ghost predicate Revives(g: Graph, s: Sys, s': Sys, b: nat) {
    && b < |s.blocks| && b < |s'.blocks|
    && s.blocks[b].todo != [] && s.blocks[b].todo[0] == GoLive && s.blocks[b].state == DONE && !s.blocks[b].revived
    && s'.blocks[b].state == LIVE && s'.blocks[b].revived
  }

  lemma BegunExec(g: Graph, s: Sys, a: nat, c: Choice, b: nat)
    requires Running(g, s) && Enabled(g, s, Exec(a, c)) && b < |s.blocks| && Begun(s.blocks[b])
    ensures var s' := Apply(g, s, Exec(a, c)); b < |s'.blocks| && (Begun(s'.blocks[b]) || Revives(g, s, s', b))
  {
    ExecEffect(g, s, a, c);
    LocalEffect(g, s, a, c);
    var x, more := s.blocks[a], Extra(g, s, a, c);
    EffectLearns(g, s, a, more);
    EffectTodo(g, s, a, more);
    EffectRevived(g, s, a, more);
    assert Grown(g, a, x);
    if x.todo[0] == GoLive {
      assert x.todo == [GoLive, Ack, Post(a, Other)];
    }
    hide Local;
    hide Extra;
    hide Effect;
    hide Enabled;
    hide Apply;
    hide Allowed;
    hide Running;
    hide Closing;
    hide Ending;
    hide Holding;
    hide Calm;
  }

  lemma BegunKeeps(g: Graph, s: Sys, t: Step, b: nat)
    requires Running(g, s) && Enabled(g, s, t) && b < |s.blocks| && Begun(s.blocks[b])
    ensures var s' := Apply(g, s, t); b < |s'.blocks| && (Begun(s'.blocks[b]) || Revives(g, s, s', b))
  {
    if t.Exec? {
      BegunExec(g, s, t.b, t.c, b);
    } else {
      hide Running;
      hide Handler;
    }
  }

  /** Somewhere from index j on and before k, block b is revived. */
  ghost predicate RevivedIn(g: Graph, r: seq<Sys>, j: nat, k: nat, b: nat)
    requires k < |r|
  {
    exists m: nat {:trigger r[m + 1]} :: j <= m < k && Revives(g, r[m], r[m + 1], b)
  }

  lemma RevivedLater(g: Graph, r: seq<Sys>, j: nat, i: nat, b: nat)
    requires i + 1 < |r| && j <= i && (RevivedIn(g, r, j, i, b) || Revives(g, r[i], r[i + 1], b))
    ensures RevivedIn(g, r, j, i + 1, b)
  {
    hide Revives;
    if RevivedIn(g, r, j, i, b) {
      var m: nat :| j <= m < i && Revives(g, r[m], r[m + 1], b);
      assert j <= m < i + 1 && Revives(g, r[m], r[m + 1], b);
    }
  }

  /** From an effective mark_done on, the block counts as done until it is revived. */
  lemma {:induction false} BegunUntilRevived(g: Graph, r: seq<Sys>, j: nat, k: nat, b: nat)
    requires Run(g, r) && j <= k < |r| && b < |r[j].blocks| && Running(g, r[j]) && Begun(r[j].blocks[b])
    ensures b < |r[k].blocks| && Running(g, r[k])
    ensures Begun(r[k].blocks[b]) || RevivedIn(g, r, j, k, b)
    decreases k - j
  {
    hide *;
    if j < k {
      var i: nat := k - 1;
      BegunUntilRevived(g, r, j, i, b);
      var t := RunNext(g, r, i);
      RunningKeeps(g, r[i], t);
      BarrierSizes(g, r[i], r[i + 1]);
      if Begun(r[i].blocks[b]) {
        BegunKeeps(g, r[i], t, b);
      }
      if !Begun(r[k].blocks[b]) {
        RevivedLater(g, r, j, i, b);
      }
    }
  }

  lemma BarrierSizes(g: Graph, s: Sys, s': Sys)
    requires Running(g, s) && Running(g, s')
    ensures |s.blocks| == |s'.blocks| == g.n
  {
  }

  lemma EffectiveRunning(g: Graph, s: Sys, b: nat)
    requires (Starting(g, s) || Running(g, s)) && b < |s.blocks| && Effective(s.blocks[b])
    ensures Running(g, s)
  {
    if Starting(g, s) {
      StartingBlock(g, s, b);
    }
    hide Running;
  }

  /** mark_done takes effect on a block at most once per activation: between two effective
      runs of it lies a revival. */
  lemma MarkDoneOnce(g: Graph, r: seq<Sys>, j: nat, k: nat, b: nat, c: Choice)
    requires Run(g, r) && j < k < |r| && b < |r[j].blocks| && Effective(r[j].blocks[b])
    requires Enabled(g, r[j], Exec(b, c)) && r[j + 1] == Apply(g, r[j], Exec(b, c))
    requires b < |r[k].blocks| && Effective(r[k].blocks[b])
    ensures RevivedIn(g, r, j + 1, k, b)
  {
    hide *;
    RunInv(g, r, j);
    EffectiveRunning(g, r[j], b);
    MarkDoneBegins(g, r[j], b, c);
    BegunUntilRevived(g, r, j + 1, k, b);
    MarkDoneNotBegun(g, r[k], b);
  }

  lemma MarkDoneBegins(g: Graph, s: Sys, b: nat, c: Choice)
    requires Running(g, s) && Enabled(g, s, Exec(b, c)) && b < |s.blocks| && Effective(s.blocks[b])
    ensures Running(g, Apply(g, s, Exec(b, c))) && b < |Apply(g, s, Exec(b, c)).blocks|
    ensures Begun(Apply(g, s, Exec(b, c)).blocks[b])
  {
    RunningKeeps(g, s, Exec(b, c));
    ExecEffect(g, s, b, c);
    LocalTodo(g, s, b, c);
    ExtraShape(g, s, b, c);
    hide Running;
    hide Local;
    hide Extra;
    hide Allowed;
    hide CheckPosts;
    hide Enabled;
    hide Apply;
    assert SetDone in [SetDone, ClearPool];
    assert SetDone in Extra(g, s, b, c);
  }

  lemma MarkDoneNotBegun(g: Graph, s: Sys, b: nat)
    requires Running(g, s) && b < |s.blocks| && Effective(s.blocks[b])
    ensures !Begun(s.blocks[b])
  {
    var x := s.blocks[b];
    assert Grown(g, b, x);
    assert Plain(x.todo[1..]);
    assert forall op :: op in x.todo ==> op == MarkDone || op in x.todo[1..];
  }

  // ---------------------------------------------------------------- wait()

  /** wait() can return exactly when every block has let go, and then each is DONE or has been
      revived. */
  lemma LeaveExact(g: Graph, r: seq<Sys>, k: nat)
    requires Run(g, r) && k < |r| && r[k].main.Waiting?
    ensures Enabled(g, r[k], Leave) <==> forall b: nat :: b < |r[k].blocks| ==> r[k].blocks[b].released
    ensures Enabled(g, r[k], Leave) ==>
      forall b: nat :: b < |r[k].blocks| ==> r[k].blocks[b].state == DONE || r[k].blocks[b].revived
  {
    hide Unique;
    hide Run;
    RunInv(g, r, k);
    assert forall b :: 0 <= b < g.n ==> Grown(g, b, r[k].blocks[b]);
    UniqueMeans(g, r[k], TopTok);
    assert forall b: nat :: Needs(g, b, TopTok);
  }

  /** A rank that grows along every connection. */
  ghost predicate Ranked(g: Graph, rank: seq<nat>) {
    |rank| == g.n && forall e :: e in g.edges ==> e.src < g.n && e.dst < g.n && rank[e.src] < rank[e.dst]
  }

  ghost predicate IsSource(g: Graph, b: nat) {
    forall e :: e in g.edges ==> e.dst != b
  }

  ghost predicate SourcesOut(g: Graph, s: Sys) {
    forall b: nat :: b < |s.blocks| && IsSource(g, b) ==> s.blocks[b].released
  }

  ghost function Unreleased(s: Sys): set<nat> {
    set b: nat | b < |s.blocks| && !s.blocks[b].released
  }

  lemma {:induction false} Lowest(rank: seq<nat>, bs: set<nat>) returns (b: nat)
    requires bs != {} && forall x :: x in bs ==> x < |rank|
    ensures b in bs && forall x :: x in bs ==> rank[b] <= rank[x]
    decreases |bs|
  {
    var c :| c in bs;
    b := c;
    if bs != {c} {
      var rest := bs - {c};
      assert bs == {c} + rest;
      var d := Lowest(rank, rest);
      b := if rank[c] <= rank[d] then c else d;
    }
  }

  /** In a finite graph without cycles whose sources have let go: whenever nothing is in
      flight and some block still holds on, one such block has a done input, and the sweeper
      acts on it. */
  lemma SweeperHasWork(g: Graph, s: Sys, rank: seq<nat>) returns (b: nat)
    requires Running(g, s) && Quiescent(s) && Ranked(g, rank) && SourcesOut(g, s) && Unreleased(s) != {}
    ensures b in Unreleased(s) && Enabled(g, s, Sweep(b))
  {
    b := Lowest(rank, Unreleased(s));
    assert !IsSource(g, b);
    var e :| e in g.edges && e.dst == b;
    assert Feeds(g, e.src, b, e.inp);
    forall u: nat | Feeds(g, u, b, e.inp) ensures u < |s.blocks| && s.blocks[u].released {
      var f :| f in g.edges && f.src == u && f.dst == b && f.inp == e.inp;
      assert rank[u] < rank[b];
      assert u !in Unreleased(s);
    }
    assert FedOut(g, s, b, e.inp);
    assert !InputPending(s, b, e.inp);
    assert e.inp in s.blocks[b].inputsDone;
  }

  /** Once told to, block b is bound to let go. */
  ghost predicate Doomed(s: Sys, b: nat) {
    && b < |s.blocks|
    && var x := s.blocks[b];
       x.released || Inert in x.mail || MarkDone in x.todo || ClearPool in x.todo
  }

  lemma DoomedExec(g: Graph, s: Sys, a: nat, c: Choice, b: nat)
    requires Running(g, s) && Enabled(g, s, Exec(a, c)) && Doomed(s, b)
    ensures Doomed(Apply(g, s, Exec(a, c)), b)
  {
    ExecEffect(g, s, a, c);
    LocalEffect(g, s, a, c);
    var x, more := s.blocks[a], Extra(g, s, a, c);
    var y, op, s' := Effect(g, s, a, more), x.todo[0], Apply(g, s, Exec(a, c));
    EffectLearns(g, s, a, more);
    assert Grown(g, a, x);
    if op == MarkDone {
      if x.state != DONE {
        assert ClearPool in [SetDone, ClearPool];
        assert ClearPool in more;
        assert ClearPool in y.todo;
      } else {
        assert Ending(g, a, x);
      }
    }
    hide Local;
    hide Extra;
    hide Effect;
    hide Enabled;
    hide Apply;
    hide Allowed;
    hide Running;
    hide Grown;
    hide CheckPosts;
  }

  lemma DoomedKeeps(g: Graph, s: Sys, t: Step, b: nat)
    requires Running(g, s) && Enabled(g, s, t) && Doomed(s, b)
    ensures Doomed(Apply(g, s, t), b)
  {
    match t {
      case Exec(a, c) => DoomedExec(g, s, a, c, b);
      case Take(a) =>
        var x := s.blocks[a];
        assert forall m :: m in x.mail ==> m == x.mail[0] || m in x.mail[1..];
      case _ =>
    }
  }

  lemma ReleasedStays(g: Graph, s: Sys, t: Step, b: nat)
    requires Running(g, s) && Enabled(g, s, t) && b < |s.blocks| && s.blocks[b].released
    ensures b < |Apply(g, s, t).blocks| && Apply(g, s, t).blocks[b].released
  {
    if t.Exec? {
      ExecEffect(g, s, t.b, t.c);
      LocalEffect(g, s, t.b, t.c);
      EffectLearns(g, s, t.b, Extra(g, s, t.b, t.c));
      hide *;
      ExecutedReleased(s, t.b, s.blocks[t.b].todo[0], Local(g, s, t.b, t.c), Apply(g, s, t), b);
    }
  }

  lemma ExecutedReleased(s: Sys, a: nat, op: Op, y: Block, s': Sys, b: nat)
    requires Executed(s, a, op, y, s') && b < |s.blocks| && s.blocks[b].released
    requires exists g :: Learns(g, s, a, op, y)
    ensures b < |s'.blocks| && s'.blocks[b].released
  {
  }

  /** A stretch of a run. */
  ghost predicate Path(g: Graph, r: seq<Sys>) {
    r != [] && forall k {:trigger r[k + 1]} :: 0 <= k < |r| - 1 ==> Next(g, r[k], r[k + 1])
  }

  lemma {:induction false} PathKeeps(g: Graph, r: seq<Sys>, b: nat)
    requires Path(g, r) && Running(g, r[0]) && b < g.n
    ensures Running(g, r[|r| - 1])
    ensures Doomed(r[0], b) ==> Doomed(r[|r| - 1], b)
    ensures r[0].blocks[b].released ==> r[|r| - 1].blocks[b].released
  {
    if |r| > 1 {
      var p := r[..|r| - 1];
      forall k {:trigger p[k + 1]} | 0 <= k < |p| - 1 ensures Next(g, p[k], p[k + 1]) {
        assert Next(g, r[k], r[k + 1]);
      }
      PathKeeps(g, p, b);
      var s, k := p[|p| - 1], |r| - 2;
      assert Next(g, r[k], r[k + 1]);
      var t :| Enabled(g, s, t) && r[k + 1] == Apply(g, s, t);
      RunningKeeps(g, s, t);
      if Doomed(s, b) {
        DoomedKeeps(g, s, t, b);
      }
      if s.blocks[b].released {
        ReleasedStays(g, s, t, b);
      }
    }
  }

  lemma {:induction false} PathAt(g: Graph, r: seq<Sys>, k: nat)
    requires Path(g, r) && Running(g, r[0]) && k < |r|
    ensures Running(g, r[k])
  {
    if k > 0 {
      var j: nat := k - 1;
      PathAt(g, r, j);
      assert Next(g, r[j], r[j + 1]);
      var t :| Enabled(g, r[j], t) && r[j + 1] == Apply(g, r[j], t);
      RunningKeeps(g, r[j], t);
    }
  }

  /** One round of the sweeper, between two states with nothing in flight: it acts on every
      block that has a done input at its beginning. */
  ghost predicate Round(g: Graph, r: seq<Sys>) {
    && Path(g, r) && Quiescent(r[0]) && Quiescent(r[|r| - 1])
    && forall b: nat :: b < |r[0].blocks| && r[0].blocks[b].inputsDone != {} ==>
         exists k :: 0 <= k < |r| - 1 && Enabled(g, r[k], Sweep(b)) && r[k + 1] == Apply(g, r[k], Sweep(b))
  }

  lemma SweptLetsGo(g: Graph, r: seq<Sys>, k: nat, b: nat)
    requires Path(g, r) && Running(g, r[0]) && Quiescent(r[|r| - 1])
    requires k < |r| - 1 && Enabled(g, r[k], Sweep(b)) && r[k + 1] == Apply(g, r[k], Sweep(b))
    ensures b < |r[|r| - 1].blocks| && r[|r| - 1].blocks[b].released
  {
    PathAt(g, r, k);
    SweepDooms(g, r[k], b);
    var p := PathFrom(g, r, k + 1);
    hide *;
    PathKeeps(g, p, b);
    DoomedEnds(r[|r| - 1], b);
  }

  lemma SweepDooms(g: Graph, s: Sys, b: nat)
    requires Running(g, s) && Enabled(g, s, Sweep(b))
    ensures b < g.n && Running(g, Apply(g, s, Sweep(b))) && Doomed(Apply(g, s, Sweep(b)), b)
  {
    RunningKeeps(g, s, Sweep(b));
    hide Running;
  }

  lemma DoomedEnds(s: Sys, b: nat)
    requires Quiescent(s) && Doomed(s, b)
    ensures s.blocks[b].released
  {
  }

  lemma PathFrom(g: Graph, r: seq<Sys>, k: nat) returns (p: seq<Sys>)
    requires Path(g, r) && k < |r|
    ensures p == r[k..] && Path(g, p) && p[0] == r[k] && p[|p| - 1] == r[|r| - 1]
  {
    p := r[k..];
    hide Next;
    forall j {:trigger p[j + 1]} | 0 <= j < |p| - 1 ensures Next(g, p[j], p[j + 1]) {
      var i := k + j;
      assert Next(g, r[i], r[i + 1]);
    }
  }

  /** A round never adds a block that holds on, and while there is one it removes one. */
  lemma RoundShrinks(g: Graph, r: seq<Sys>, rank: seq<nat>)
    requires Round(g, r) && Running(g, r[0]) && Ranked(g, rank) && SourcesOut(g, r[0])
    ensures Running(g, r[|r| - 1]) && SourcesOut(g, r[|r| - 1])
    ensures Unreleased(r[|r| - 1]) <= Unreleased(r[0])
    ensures Unreleased(r[0]) != {} ==> Unreleased(r[|r| - 1]) < Unreleased(r[0])
  {
    var z := r[|r| - 1];
    PathAt(g, r, |r| - 1);
    forall b: nat | b < g.n && r[0].blocks[b].released ensures z.blocks[b].released {
      PathKeeps(g, r, b);
    }
    assert |r[0].blocks| == g.n && |z.blocks| == g.n;
    hide Running;
    if Unreleased(r[0]) != {} {
      var b := SweeperHasWork(g, r[0], rank);
      var k :| 0 <= k < |r| - 1 && Enabled(g, r[k], Sweep(b)) && r[k + 1] == Apply(g, r[k], Sweep(b));
      SweptLetsGo(g, r, k, b);
      assert b in Unreleased(r[0]) && b !in Unreleased(z);
    }
  }

  /** Rounds that follow each other. */
  ghost predicate Rounds(g: Graph, rs: seq<seq<Sys>>) {
    && (forall j :: 0 <= j < |rs| ==> Round(g, rs[j]))
    && forall j {:trigger rs[j + 1]} :: 0 <= j < |rs| - 1 ==> rs[j + 1][0] == rs[j][|rs[j]| - 1]
  }

  lemma EarlierRounds(g: Graph, rs: seq<seq<Sys>>) returns (p: seq<seq<Sys>>)
    requires Rounds(g, rs) && |rs| > 1
    ensures p == rs[..|rs| - 1] && Rounds(g, p) && rs[|rs| - 1] != []
    ensures p[|p| - 1] != [] && rs[|rs| - 1][0] == p[|p| - 1][|p[|p| - 1]| - 1]
  {
    var i: nat := |rs| - 2;
    assert Round(g, rs[i]) && Round(g, rs[i + 1]);
    assert rs[i + 1][0] == rs[i][|rs[i]| - 1];
    hide Round;
    p := rs[..|rs| - 1];
    forall j {:trigger p[j + 1]} | 0 <= j < |p| - 1 ensures p[j + 1][0] == p[j][|p[j]| - 1] {
      assert rs[j + 1][0] == rs[j][|rs[j]| - 1];
    }
  }

  lemma {:induction false} RoundsShrink(g: Graph, rs: seq<seq<Sys>>, rank: seq<nat>)
    requires rs != [] && Rounds(g, rs) && Running(g, rs[0][0]) && Ranked(g, rank) && SourcesOut(g, rs[0][0])
    ensures var last := rs[|rs| - 1]; var z := last[|last| - 1];
      && Running(g, z) && Quiescent(z) && SourcesOut(g, z)
      && (Unreleased(z) == {} || |Unreleased(z)| + |rs| <= g.n)
  {
    hide Running;
    hide Quiescent;
    hide SourcesOut;
    hide Ranked;
    hide Next;
    hide Unreleased;
    var m := |rs| - 1;
    if m == 0 {
      AtMost(g, rs[0][0]);
    } else {
      var p := EarlierRounds(g, rs);
      RoundsShrink(g, p, rank);
    }
    assert Round(g, rs[m]);
    RoundShrinks(g, rs[m], rank);
    hide *;
    Smaller(Unreleased(rs[m][0]), Unreleased(rs[m][|rs[m]| - 1]));
  }

  lemma Smaller(a: set<nat>, b: set<nat>)
    requires b <= a
    ensures |b| <= |a| && (b < a ==> |b| < |a|)
  {
    assert a == b + (a - b);
  }

  lemma AtMost(g: Graph, s: Sys)
    requires Running(g, s)
    ensures |Unreleased(s)| <= g.n
  {
    Smaller(Below(g.n), Unreleased(s));
  }

  /** Shutdown ends: in a finite graph without cycles, once all sources have let go, as many
      rounds of the sweeper as there are blocks leave wait() free to return. */
  lemma ShutdownEnds(g: Graph, r: seq<Sys>, rs: seq<seq<Sys>>, rank: seq<nat>)
    requires Run(g, r) && rs != [] && |rs| >= g.n && Rounds(g, rs) && rs[0][0] == r[|r| - 1]
    requires Ranked(g, rank) && SourcesOut(g, rs[0][0])
    ensures var last := rs[|rs| - 1]; var z := last[|last| - 1];
      Enabled(g, z, Leave) && forall b: nat :: b < |z.blocks| ==> z.blocks[b].released && z.blocks[b].pool == {}
  {
    assert Round(g, rs[0]);
    QuiescentRuns(g, r, |r| - 1);
    RoundsShrink(g, rs, rank);
    var last := rs[|rs| - 1];
    var z := last[|last| - 1];
    hide Rounds;
    assert Quiescent(z);
    forall b: nat | b < |z.blocks| ensures z.blocks[b].released && z.blocks[b].pool == {} {
      assert b !in Unreleased(z);
      assert Grown(g, b, z.blocks[b]);
    }
    UniqueMeans(g, z, TopTok);
  }
}
