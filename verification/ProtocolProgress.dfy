/** Runs that exist: work that is not begun anew comes to an end, start() can return with every
    block LIVE, and from any quiet state in wait() the sweeper can finish the shutdown. */
module ProtocolProgress {
  import opened BlockStates
  import opened Protocol
  import opened ProtocolBarrier
  import opened ProtocolStart
  import opened ProtocolDone
  import opened ProtocolRuns

  // ---------------------------------------------------------------- stretches of runs

  ghost predicate Leads(g: Graph, s: Sys, z: Sys) {
    exists p: seq<Sys> :: Path(g, p) && p[0] == s && p[|p| - 1] == z
  }

  lemma Stays(g: Graph, s: Sys)
    ensures Leads(g, s, s)
  {
    var p := [s];
    assert Path(g, p) && p[0] == s && p[|p| - 1] == s;
  }

  lemma PathsJoin(g: Graph, p: seq<Sys>, q: seq<Sys>) returns (r: seq<Sys>)
    requires Path(g, p) && Path(g, q) && p[|p| - 1] == q[0]
    ensures Path(g, r) && r == p + q[1..] && r[0] == p[0] && r[|r| - 1] == q[|q| - 1] && |r| >= |p|
    ensures forall k :: 0 <= k < |p| ==> r[k] == p[k]
  {
    r := p + q[1..];
    hide Next;
    forall k {:trigger r[k + 1]} | 0 <= k < |r| - 1 ensures Next(g, r[k], r[k + 1]) {
      if k < |p| - 1 {
        assert Next(g, p[k], p[k + 1]);
      } else {
        var j := k - (|p| - 1);
        assert Next(g, q[j], q[j + 1]);
      }
    }
  }

  lemma Joins(g: Graph, s: Sys, x: Sys, z: Sys)
    requires Leads(g, s, x) && Leads(g, x, z)
    ensures Leads(g, s, z)
  {
    var p: seq<Sys> :| Path(g, p) && p[0] == s && p[|p| - 1] == x;
    var q: seq<Sys> :| Path(g, q) && q[0] == x && q[|q| - 1] == z;
    hide Path;
    var r := PathsJoin(g, p, q);
    assert Path(g, r) && r[0] == s && r[|r| - 1] == z;
  }

  lemma Does(g: Graph, s: Sys, t: Step)
    requires Enabled(g, s, t)
    ensures Leads(g, s, Apply(g, s, t))
  {
    var p := [s, Apply(g, s, t)];
    hide Enabled;
    hide Apply;
    assert Next(g, p[0], p[1]);
    assert Path(g, p) && p[0] == s && p[|p| - 1] == Apply(g, s, t);
  }

  lemma ThenDoes(g: Graph, s: Sys, z: Sys, t: Step)
    requires Leads(g, s, z) && Enabled(g, z, t)
    ensures Leads(g, s, Apply(g, z, t))
  {
    hide *;
    Does(g, z, t);
    Joins(g, s, z, Apply(g, z, t));
  }

  // ---------------------------------------------------------------- what is left to do

  function PlainLoad(m: Msg): nat {
    match m
    case Top(_) => 0
    case InputCheck(_) => 4
    case OutputCheck(_) => 3
    case _ => 2
  }

  function Load(op: Op): nat {
    match op
    case Post(_, m) => 1 + PlainLoad(m)
    case CheckOut(_) => 2
    case _ => 1
  }

  function Loads(todo: seq<Op>): nat {
    if todo == [] then 0 else Load(todo[0]) + Loads(todo[1..])
  }

  /** A message weighs more than its handler. */
  function MailLoad(g: Graph, b: nat, mail: seq<Msg>): nat {
    if mail == [] then 0 else 1 + Loads(Handler(g, b, mail[0])) + MailLoad(g, b, mail[1..])
  }

  function BlockLoad(g: Graph, b: nat, x: Block): nat {
    MailLoad(g, b, x.mail) + Loads(x.todo)
  }

  function Total(g: Graph, blocks: seq<Block>, n: nat): nat
    requires n <= |blocks|
  {
    if n == 0 then 0 else Total(g, blocks, n - 1) + BlockLoad(g, n - 1, blocks[n - 1])
  }

  lemma {:induction false} LoadsMore(more: seq<Op>, rest: seq<Op>)
    ensures Loads(more + rest) == Loads(more) + Loads(rest)
  {
    if more == [] {
      assert more + rest == rest;
    } else {
      assert (more + rest)[1..] == more[1..] + rest;
      LoadsMore(more[1..], rest);
    }
  }

  lemma PlainHandler(g: Graph, b: nat, m: Msg)
    requires !m.Top?
    ensures 1 + Loads(Handler(g, b, m)) == PlainLoad(m)
  {
    var h := Handler(g, b, m);
    assert Loads([]) == 0;
    if m.InputCheck? {
      assert h[1..] == [Work, Settle(m.i)] && h[1..][1..] == [Settle(m.i)] && h[1..][1..][1..] == [];
      assert Loads(h[1..][1..]) == 1 && Loads(h[1..]) == 2;
    } else {
      assert h == [h[0]] && h[1..] == [];
    }
  }

  lemma {:induction false} MailMore(g: Graph, b: nat, mail: seq<Msg>, m: Msg)
    ensures MailLoad(g, b, mail + [m]) == MailLoad(g, b, mail) + 1 + Loads(Handler(g, b, m))
  {
    hide Handler;
    if mail == [] {
      assert mail + [m] == [m] && [m][1..] == [];
    } else {
      assert (mail + [m])[1..] == mail[1..] + [m];
      MailMore(g, b, mail[1..], m);
    }
  }

  lemma {:induction false} TotalChange(g: Graph, x: seq<Block>, y: seq<Block>, n: nat, b: nat)
    requires n <= |x| == |y| && b < |x| && forall d :: 0 <= d < n && d != b ==> x[d] == y[d]
    ensures Total(g, y, n) == Total(g, x, n) + if b < n then BlockLoad(g, b, y[b]) - BlockLoad(g, b, x[b]) else 0
  {
    hide BlockLoad;
    if n > 0 {
      TotalChange(g, x, y, n - 1, b);
    }
  }

  /** Executing an operation that adds less than it weighs leaves less to do. */
  lemma ExecutedTotal(g: Graph, s: Sys, b: nat, op: Op, more: seq<Op>, y: Block, s': Sys)
    requires Executed(s, b, op, y, s') && y.mail == s.blocks[b].mail && y.todo == more + s.blocks[b].todo[1..]
    requires if op.Post? then more == [] && !op.msg.Top? else Loads(more) < Load(op)
    ensures Total(g, s'.blocks, |s'.blocks|) < Total(g, s.blocks, |s.blocks|)
  {
    var x, n := s.blocks[b], |s.blocks|;
    var mid := s.blocks[b := y];
    LoadsMore(more, x.todo[1..]);
    TotalChange(g, s.blocks, mid, n, b);
    hide Total;
    hide MailLoad;
    if op.Post? {
      TotalChange(g, mid, s'.blocks, n, op.to);
      MailMore(g, op.to, mid[op.to].mail, op.msg);
      PlainHandler(g, op.to, op.msg);
    } else {
      assert s'.blocks == mid;
    }
  }

  lemma TakenTotal(g: Graph, s: Sys, b: nat)
    requires Enabled(g, s, Take(b))
    ensures |Apply(g, s, Take(b)).blocks| == |s.blocks|
    ensures Total(g, Apply(g, s, Take(b)).blocks, |s.blocks|) < Total(g, s.blocks, |s.blocks|)
  {
    var s' := Apply(g, s, Take(b));
    hide Handler;
    TotalChange(g, s.blocks, s'.blocks, |s.blocks|, b);
  }

  // ---------------------------------------------------------------- what need not end

  /** Blocks on which mark_done has not begun. */
  ghost function Unbegun(s: Sys): set<nat> {
    set b: nat | b < |s.blocks| && !Begun(s.blocks[b])
  }

  /** A block on the way up: nothing marks it done, and it is LIVE once it has answered the
      activation. */
  ghost predicate Tame(x: Block) {
    && (forall m :: m in x.mail ==> m.Top? || m.TokenMsg? || m == Other)
    && (forall op :: op in x.todo ==> TameOp(op))
    && x.state != DONE && x.inputsDone == {} && x.outputsDone == {} && !x.released && !x.revived
    && (x.acked > ACTIVE || (x.acked == ACTIVE && Ack in x.todo && GoLive !in x.todo) ==> x.state == LIVE)
  }

  predicate TameOp(op: Op) {
    match op
    case Post(_, m) => m.TokenMsg? || m == Other
    case MakeTokens => true
    case Keep(_) => true
    case Ack => true
    case GoLive => true
    case Work => true
    case _ => false
  }

  ghost predicate Coming(g: Graph, s: Sys) {
    (Starting(g, s) || Running(g, s)) && forall b :: 0 <= b < |s.blocks| ==> Tame(s.blocks[b])
  }

  /** Nothing that is under way is going to undo a mark_done. */
  ghost predicate Steady(g: Graph, s: Sys) {
    Coming(g, s) || (Running(g, s) && s.main.Waiting?)
  }

  ghost predicate Idle(s: Sys) {
    forall b :: 0 <= b < |s.blocks| ==> s.blocks[b].mail == [] && s.blocks[b].todo == []
  }

  predicate SameMain(m: Main, m': Main) {
    m == m' || (m.Bcast? && m'.Bcast? && m.phase == m'.phase && m.next == m'.next)
  }

  // ---------------------------------------------------------------- on the way up

  lemma TameAcks(g: Graph, s: Sys, b: nat)
    requires Coming(g, s) && b < |s.blocks| && s.blocks[b].todo != [] && s.blocks[b].todo[0] == Ack
    ensures GoLive !in s.blocks[b].todo && Ack !in s.blocks[b].todo[1..]
  {
    var x := s.blocks[b];
    assert Answering(Phase(s.main), SentTo(s.main, b), x);
    CountHead(x.todo, Ack);
    if Starting(g, s) {
      StartingBlock(g, s, b);
    } else {
      assert Grown(g, b, x);
    }
  }

  /** What an operation of a block on the way up makes of it. */
  lemma TameLocal(g: Graph, s: Sys, b: nat)
    requires b < |s.blocks| && s.blocks[b].todo != [] && Allowed(g, s, b, NOTHING) && TameOp(s.blocks[b].todo[0])
    ensures Extra(g, s, b, NOTHING) == []
    ensures var x, y, op := s.blocks[b], Local(g, s, b, NOTHING), s.blocks[b].todo[0];
      && y.todo == x.todo[1..] && y.mail == x.mail && y.acked == x.acked + (if op == Ack then 1 else 0)
      && y.state == (if op == GoLive then LIVE else x.state) && y.released == x.released
      && y.revived == (x.revived || (op == GoLive && x.state == DONE))
      && (y.inputsDone == x.inputsDone || y.inputsDone == {}) && (y.outputsDone == x.outputsDone || y.outputsDone == {})
  {
    var x := s.blocks[b];
    assert [] + x.todo[1..] == x.todo[1..];
    assert [] + [] + x.todo[1..] == x.todo[1..];
    hide AllOutputsDone;
    hide Unique;
    hide CheckPosts;
    hide DataPosts;
  }

  lemma TameStep(x: Block, y: Block, op: Op)
    requires Tame(x) && x.todo != [] && op == x.todo[0] && y.todo == x.todo[1..] && y.mail == x.mail
    requires y.acked == x.acked + (if op == Ack then 1 else 0) && y.state == (if op == GoLive then LIVE else x.state)
    requires y.released == x.released && y.revived == (x.revived || (op == GoLive && x.state == DONE))
    requires y.inputsDone == {} && y.outputsDone == {}
    requires op == Ack ==> GoLive !in x.todo && Ack !in x.todo[1..]
    ensures Tame(y)
  {
    hide TameOp;
    assert forall k :: k in x.todo[1..] ==> k in x.todo;
    assert forall k :: k in x.todo ==> k == op || k in x.todo[1..];
  }

  lemma TameExec(g: Graph, s: Sys, b: nat)
    requires Coming(g, s) && b < |s.blocks| && s.blocks[b].todo != []
    ensures Allowed(g, s, b, NOTHING) && Extra(g, s, b, NOTHING) == [] && Tame(Local(g, s, b, NOTHING))
  {
    if s.blocks[b].todo[0] == Ack {
      TameAcks(g, s, b);
    }
    GoesOn(g, s, b);
    hide Starting;
    hide Running;
    hide Allowed;
    hide Local;
    hide Extra;
    assert Tame(s.blocks[b]) && TameOp(s.blocks[b].todo[0]);
    TameLocal(g, s, b);
    TameStep(s.blocks[b], Local(g, s, b, NOTHING), s.blocks[b].todo[0]);
  }

  lemma TameHandler(g: Graph, b: nat, m: Msg)
    requires m.Top? || m.TokenMsg? || m == Other
    ensures forall op :: op in Handler(g, b, m) ==> TameOp(op)
    ensures Ack in Handler(g, b, m) ==> m.Top?
    ensures m == Top(ACTIVE) ==> GoLive in Handler(g, b, m)
  {
    if m == Top(TOKENS) {
      forall op | op in TokenPosts(g, b) ensures TameOp(op) {
        TokenPostsAre(g, b, op);
      }
      hide TokenPosts;
    } else {
      ShortHandler(g, b, m);
    }
  }

  lemma TameTake(g: Graph, s: Sys, b: nat)
    requires Coming(g, s) && Enabled(g, s, Take(b))
    ensures forall d :: 0 <= d < |s.blocks| ==> Tame(Apply(g, s, Take(b)).blocks[d])
  {
    var x := s.blocks[b];
    assert Answering(Phase(s.main), SentTo(s.main, b), x);
    assert x.mail[0] in x.mail;
    if x.mail[0].Top? {
      assert multiset(x.mail)[x.mail[0]] > 0;
    }
    TameHandler(g, b, x.mail[0]);
    hide Handler;
    hide Starting;
    hide Running;
    hide TameOp;
    assert Tame(x);
    assert forall m :: m in x.mail[1..] ==> m in x.mail;
  }

  lemma ComingExec(g: Graph, s: Sys, b: nat)
    requires Coming(g, s) && b < |s.blocks| && s.blocks[b].todo != [] && Enabled(g, s, Exec(b, NOTHING))
    ensures Coming(g, Apply(g, s, Exec(b, NOTHING)))
  {
    hide Local;
    hide Apply;
    hide Enabled;
    hide Allowed;
    hide Starting;
    hide Running;
    hide TameOp;
    var s' := Apply(g, s, Exec(b, NOTHING));
    StepInv(g, s, Exec(b, NOTHING));
    TameExec(g, s, b);
    ExecEffect(g, s, b, NOTHING);
    var y, op := Local(g, s, b, NOTHING), s.blocks[b].todo[0];
    TamePosts(s.blocks[b], op);
    hide Extra;
    forall d | 0 <= d < |s'.blocks| ensures Tame(s'.blocks[d]) {
      assert Tame(s.blocks[d]);
      hide Coming;
      if op.Post? && d == op.to {
        hide Executed;
        TameMailed(Kept(s, b, y, d), op.msg);
      }
    }
  }

  lemma TamePosts(x: Block, op: Op)
    requires Tame(x) && op in x.todo
    ensures op.Post? ==> op.msg.TokenMsg? || op.msg == Other
  {
    assert TameOp(op);
  }

  lemma TameMailed(x: Block, m: Msg)
    requires Tame(x) && (m.Top? || m.TokenMsg? || m == Other)
    ensures Tame(Mailed(x, m))
  {
  }

  lemma ComingTake(g: Graph, s: Sys, b: nat)
    requires Coming(g, s) && Enabled(g, s, Take(b))
    ensures Coming(g, Apply(g, s, Take(b)))
  {
    StepInv(g, s, Take(b));
    TameTake(g, s, b);
    hide *;
    ComingFrom(g, Apply(g, s, Take(b)));
  }

  lemma ComingFrom(g: Graph, s: Sys)
    requires (Starting(g, s) || Running(g, s)) && forall b :: 0 <= b < |s.blocks| ==> Tame(s.blocks[b])
    ensures Coming(g, s)
  {
    hide Starting;
    hide Running;
    hide Tame;
  }

  lemma ComingTop(g: Graph, s: Sys, t: Step)
    requires Coming(g, s) && Enabled(g, s, t) && (t.SendTop? || t.NextPhase?)
    ensures Coming(g, Apply(g, s, t))
  {
    hide Starting;
    hide Running;
    hide Tame;
    StepInv(g, s, t);
    if t.SendTop? {
      TameMailed(s.blocks[s.main.next], Top(s.main.phase));
    }
  }

  // ---------------------------------------------------------------- draining

  lemma SteadyShape(g: Graph, s: Sys)
    requires Steady(g, s)
    ensures WellFormed(g) && |s.blocks| == g.n && (Starting(g, s) || Running(g, s))
  {
    BarrierShape(g, s);
  }

  lemma WaitingLive(g: Graph, s: Sys, b: nat)
    requires Running(g, s) && s.main.Waiting? && b < |s.blocks|
    ensures GoLive !in s.blocks[b].todo && Ack !in s.blocks[b].todo
  {
    assert Grown(g, b, s.blocks[b]);
    assert Ack in [GoLive, Ack, Post(b, Other)];
    if Ack in s.blocks[b].todo {
      AckExpected(g, s, b);
    }
  }

  /** In wait(), a step never undoes a mark_done. */
  lemma UnbegunExec(g: Graph, s: Sys, b: nat)
    requires Running(g, s) && s.main.Waiting? && Enabled(g, s, Exec(b, NOTHING))
    ensures Unbegun(Apply(g, s, Exec(b, NOTHING))) <= Unbegun(s)
    ensures Effective(s.blocks[b]) ==> Unbegun(Apply(g, s, Exec(b, NOTHING))) < Unbegun(s)
  {
    var s' := Apply(g, s, Exec(b, NOTHING));
    SteadyShape(g, s);
    RunningKeeps(g, s, Exec(b, NOTHING));
    SteadyShape(g, s');
    hide Enabled;
    hide Apply;
    hide Running;
    forall d | d in Unbegun(s') ensures d in Unbegun(s) {
      if Begun(s.blocks[d]) {
        WaitingLive(g, s, d);
        BegunExec(g, s, b, NOTHING, d);
      }
    }
    if Effective(s.blocks[b]) {
      MarkDoneBegins(g, s, b, NOTHING);
      MarkDoneNotBegun(g, s, b);
      assert b in Unbegun(s) && b !in Unbegun(s');
    }
  }

  /** Of a step that begins nothing anew: what is left to do shrinks. */
  ghost predicate Less(g: Graph, s: Sys, s': Sys) {
    && |s'.blocks| == |s.blocks| && SameMain(s.main, s'.main) && Unbegun(s') <= Unbegun(s)
    && (Unbegun(s') < Unbegun(s) || Total(g, s'.blocks, |s'.blocks|) < Total(g, s.blocks, |s.blocks|))
  }

  lemma TakeLess(g: Graph, s: Sys, b: nat)
    requires Steady(g, s) && Enabled(g, s, Take(b))
    ensures Steady(g, Apply(g, s, Take(b))) && Less(g, s, Apply(g, s, Take(b)))
  {
    hide Coming;
    hide Running;
    hide Total;
    hide Unbegun;
    TakenTotal(g, s, b);
    UnbegunTake(g, s, b);
    if Coming(g, s) {
      ComingTake(g, s, b);
    } else {
      RunningKeeps(g, s, Take(b));
    }
  }

  lemma UnbegunTake(g: Graph, s: Sys, b: nat)
    requires Enabled(g, s, Take(b))
    ensures Unbegun(Apply(g, s, Take(b))) == Unbegun(s)
  {
    hide Handler;
    NoneBegun(g, b, s.blocks[b].mail[0]);
  }

  lemma NoneBegun(g: Graph, b: nat, m: Msg)
    ensures SetDone !in Handler(g, b, m)
  {
    if m == Top(TOKENS) {
      var posts := TokenPosts(g, b);
      forall op | op in posts ensures op.Post? {
        TokenPostsAre(g, b, op);
      }
      hide TokenPosts;
      assert Handler(g, b, m) == [MakeTokens] + posts + [Keep(TopTok), Ack];
    } else {
      ShortHandler(g, b, m);
    }
  }

  /** Nothing on the way up is begun. */
  lemma ComingUnbegun(g: Graph, s: Sys)
    requires Coming(g, s)
    ensures forall b: nat :: b < |s.blocks| ==> b in Unbegun(s) && !Effective(s.blocks[b])
  {
    forall b: nat | b < |s.blocks| ensures !Begun(s.blocks[b]) && !Effective(s.blocks[b]) {
      assert Tame(s.blocks[b]) && !TameOp(SetDone) && !TameOp(MarkDone);
    }
  }

  lemma ExecExtra(g: Graph, s: Sys, b: nat)
    requires b < |s.blocks| && s.blocks[b].todo != [] && Allowed(g, s, b, NOTHING)
    ensures var op, more := s.blocks[b].todo[0], Extra(g, s, b, NOTHING);
      if op.Post? then more == [] else Effective(s.blocks[b]) || Loads(more) < Load(op)
  {
    hide Local;
    hide AllOutputsDone;
    hide CheckPosts;
    assert Loads([]) == 0 && [MarkDone][1..] == [] && Loads([MarkDone]) == 1;
    assert NOTHING.data + [] == [];
  }

  lemma ExecSteady(g: Graph, s: Sys, b: nat)
    requires Steady(g, s) && Enabled(g, s, Exec(b, NOTHING))
    ensures Steady(g, Apply(g, s, Exec(b, NOTHING))) && SameMain(s.main, Apply(g, s, Exec(b, NOTHING)).main)
    ensures |Apply(g, s, Exec(b, NOTHING)).blocks| == |s.blocks|
    ensures Unbegun(Apply(g, s, Exec(b, NOTHING))) <= Unbegun(s)
    ensures Effective(s.blocks[b]) ==> Unbegun(Apply(g, s, Exec(b, NOTHING))) < Unbegun(s)
  {
    ExecEffect(g, s, b, NOTHING);
    var s' := Apply(g, s, Exec(b, NOTHING));
    if Coming(g, s) {
      ComingUnbegun(g, s);
      ComingExec(g, s, b);
    } else {
      WaitingLive(g, s, b);
      UnbegunExec(g, s, b);
      RunningKeeps(g, s, Exec(b, NOTHING));
    }
    hide Coming;
    hide Running;
    hide Enabled;
    hide Apply;
    hide Allowed;
    hide Local;
  }

  lemma ExecLess(g: Graph, s: Sys, b: nat)
    requires Steady(g, s) && b < |s.blocks| && s.blocks[b].todo != []
    ensures Enabled(g, s, Exec(b, NOTHING))
    ensures Steady(g, Apply(g, s, Exec(b, NOTHING))) && Less(g, s, Apply(g, s, Exec(b, NOTHING)))
  {
    hide Steady;
    hide Starting;
    hide Running;
    hide Local;
    hide Extra;
    hide Allowed;
    hide Total;
    hide Unbegun;
    hide Executed;
    SteadyShape(g, s);
    GoesOn(g, s, b);
    ExecSteady(g, s, b);
    ExecEffect(g, s, b, NOTHING);
    LocalTodo(g, s, b, NOTHING);
    ExecExtra(g, s, b);
    hide Enabled;
    hide Apply;
    if !Effective(s.blocks[b]) {
      ExecutedTotal(g, s, b, s.blocks[b].todo[0], Extra(g, s, b, NOTHING), Local(g, s, b, NOTHING), Apply(g, s, Exec(b, NOTHING)));
    }
  }

  /** From a steady state every handler under way and every message can be worked off without
      user code posting anything, and then nothing is in flight. */
  lemma {:induction false} Drains(g: Graph, s: Sys) returns (z: Sys)
    requires Steady(g, s)
    ensures Leads(g, s, z) && Steady(g, z) && Idle(z) && |z.blocks| == |s.blocks| && SameMain(s.main, z.main)
    decreases |Unbegun(s)|, Total(g, s.blocks, |s.blocks|)
  {
    hide *;
    if Idle(s) {
      Stays(g, s);
      SameSelf(s.main);
      z := s;
    } else {
      var t := Busy(s);
      OneLess(g, s, t);
      LessMeans(g, s, Apply(g, s, t));
      z := Drains(g, Apply(g, s, t));
      Does(g, s, t);
      Joins(g, s, Apply(g, s, t), z);
      SameTrans(s.main, Apply(g, s, t).main, z.main);
    }
  }

  /** Something to be done. */
  lemma Busy(s: Sys) returns (t: Step)
    requires !Idle(s)
    ensures (t.Take? || (t.Exec? && t.c == NOTHING)) && t.b < |s.blocks|
    ensures if t.Take? then s.blocks[t.b].todo == [] && s.blocks[t.b].mail != [] else s.blocks[t.b].todo != []
  {
    var b: nat :| b < |s.blocks| && !(s.blocks[b].mail == [] && s.blocks[b].todo == []);
    t := if s.blocks[b].todo == [] then Take(b) else Exec(b, NOTHING);
  }

  lemma OneLess(g: Graph, s: Sys, t: Step)
    requires Steady(g, s) && (t.Take? || (t.Exec? && t.c == NOTHING)) && t.b < |s.blocks|
    requires if t.Take? then s.blocks[t.b].todo == [] && s.blocks[t.b].mail != [] else s.blocks[t.b].todo != []
    ensures Enabled(g, s, t) && Steady(g, Apply(g, s, t)) && Less(g, s, Apply(g, s, t))
  {
    hide Steady;
    hide Less;
    hide Allowed;
    if t.Take? {
      TakeLess(g, s, t.b);
    } else {
      ExecLess(g, s, t.b);
    }
  }

  lemma LessMeans(g: Graph, s: Sys, s': Sys)
    requires Less(g, s, s')
    ensures |s'.blocks| == |s.blocks| && SameMain(s.main, s'.main) && |Unbegun(s')| <= |Unbegun(s)|
    ensures |Unbegun(s')| < |Unbegun(s)| || Total(g, s'.blocks, |s'.blocks|) < Total(g, s.blocks, |s.blocks|)
  {
    Smaller(Unbegun(s), Unbegun(s'));
    hide Unbegun;
    hide Total;
  }

  lemma SameSelf(m: Main)
    ensures SameMain(m, m)
  {
  }

  lemma SameTrans(a: Main, b: Main, c: Main)
    requires SameMain(a, b) && SameMain(b, c)
    ensures SameMain(a, c)
  {
  }

  // ---------------------------------------------------------------- start() returns

  /** Every block gets the broadcast. */
  lemma {:induction false} Sends(g: Graph, s: Sys) returns (z: Sys)
    requires Coming(g, s) && s.main.Bcast?
    ensures Leads(g, s, z) && Coming(g, z) && z.main.Bcast? && z.main.phase == s.main.phase
    ensures |z.blocks| == |s.blocks| && z.main.next >= |z.blocks|
    decreases if s.main.next < |s.blocks| then |s.blocks| - s.main.next else 0
  {
    hide Coming;
    hide Leads;
    if s.main.next >= |s.blocks| {
      Stays(g, s);
      z := s;
    } else {
      ComingTop(g, s, SendTop);
      Does(g, s, SendTop);
      z := Sends(g, Apply(g, s, SendTop));
      Joins(g, s, Apply(g, s, SendTop), z);
    }
  }

  /** With all sent and nothing in flight, every answer is in. */
  lemma AllAnswered(g: Graph, s: Sys)
    requires Coming(g, s) && s.main.Bcast? && s.main.next >= |s.blocks| && Idle(s)
    ensures Enabled(g, s, NextPhase)
  {
    BarrierShape(g, s);
    forall b: nat | b < |s.blocks| ensures b !in Owing(s) {
      assert Answering(s.main.phase, true, s.blocks[b]);
    }
    assert Owing(s) == {};
  }

  lemma OneBroadcast(g: Graph, s: Sys) returns (z: Sys)
    requires Coming(g, s) && s.main.Bcast? && s.main.phase <= ACTIVE
    ensures Leads(g, s, z) && Coming(g, z) && Idle(z)
    ensures z.main == if s.main.phase == ACTIVE then Waiting else Bcast(s.main.phase + 1, 0, |z.blocks|)
  {
    hide Leads;
    hide Coming;
    hide Idle;
    var x := Sends(g, s);
    SteadyComing(g, x);
    var y := Drains(g, x);
    ComingSteady(g, y);
    AllAnswered(g, y);
    ComingTop(g, y, NextPhase);
    z := Apply(g, y, NextPhase);
    Joins(g, s, x, y);
    ThenDoes(g, s, y, NextPhase);
    StillIdle(g, y);
  }

  lemma SteadyComing(g: Graph, s: Sys)
    requires Coming(g, s)
    ensures Steady(g, s)
  {
  }

  lemma ComingSteady(g: Graph, s: Sys)
    requires Steady(g, s) && !s.main.Waiting?
    ensures Coming(g, s)
  {
  }

  lemma StillIdle(g: Graph, s: Sys)
    requires Idle(s) && Enabled(g, s, NextPhase)
    ensures Idle(Apply(g, s, NextPhase))
  {
  }

  lemma {:induction false} Broadcasts(g: Graph, s: Sys) returns (z: Sys)
    requires Coming(g, s) && s.main.Bcast? && s.main.phase <= ACTIVE
    ensures Leads(g, s, z) && Coming(g, z) && Idle(z) && z.main.Waiting?
    decreases ACTIVE - s.main.phase
  {
    hide Leads;
    hide Coming;
    hide Idle;
    z := OneBroadcast(g, s);
    if s.main.phase < ACTIVE {
      var x := z;
      z := Broadcasts(g, x);
      Joins(g, s, x, z);
    }
  }

  /** For every graph start() can return with every block LIVE, holding every token it needs,
      and nothing in flight. */
  lemma StartReturns(g: Graph, s: Sys) returns (z: Sys)
    requires Initial(g, s)
    ensures Leads(g, s, z) && Running(g, z) && Quiescent(z) && |z.blocks| == g.n
    ensures forall b: nat :: b < g.n ==> var x := z.blocks[b];
      x.state == LIVE && HoldsAll(g, b, x.pool) && x.made && !x.released && !x.revived && x.inputsDone == {} && x.outputsDone == {}
  {
    StartingStarts(g, s);
    assert Tame(FRESH);
    assert Coming(g, s);
    hide Starting;
    hide Leads;
    hide Coming;
    z := Broadcasts(g, s);
    UpAndLive(g, z);
  }

  lemma UpAndLive(g: Graph, z: Sys)
    requires Coming(g, z) && Idle(z) && z.main.Waiting?
    ensures Running(g, z) && Quiescent(z) && |z.blocks| == g.n
    ensures forall b: nat :: b < g.n ==> var x := z.blocks[b];
      x.state == LIVE && HoldsAll(g, b, x.pool) && x.made && !x.released && !x.revived && x.inputsDone == {} && x.outputsDone == {}
  {
    BarrierShape(g, z);
    forall b: nat | b < g.n
      ensures var x := z.blocks[b];
        x.state == LIVE && HoldsAll(g, b, x.pool) && x.made && !x.released && !x.revived && x.inputsDone == {} && x.outputsDone == {}
    {
      assert Tame(z.blocks[b]) && Grown(g, b, z.blocks[b]) && Answering(ACTIVE + 1, false, z.blocks[b]);
    }
  }

  // ---------------------------------------------------------------- rounds of the sweeper

  /** The sweeper acts on block b somewhere on the path. */
  ghost predicate SweptOn(g: Graph, r: seq<Sys>, b: nat) {
    exists k :: 0 <= k < |r| - 1 && Enabled(g, r[k], Sweep(b)) && r[k + 1] == Apply(g, r[k], Sweep(b))
  }

  lemma SweptLonger(g: Graph, p: seq<Sys>, r: seq<Sys>, b: nat)
    requires SweptOn(g, p, b) && |p| <= |r| && forall k :: 0 <= k < |p| ==> r[k] == p[k]
    ensures SweptOn(g, r, b)
  {
    hide Enabled;
    hide Apply;
    var k :| 0 <= k < |p| - 1 && Enabled(g, p[k], Sweep(b)) && p[k + 1] == Apply(g, p[k], Sweep(b));
    assert r[k] == p[k] && r[k + 1] == p[k + 1];
  }

  lemma SweptLast(g: Graph, p: seq<Sys>, b: nat) returns (r: seq<Sys>)
    requires Path(g, p) && Enabled(g, p[|p| - 1], Sweep(b))
    ensures r == p + [Apply(g, p[|p| - 1], Sweep(b))] && Path(g, r) && SweptOn(g, r, b)
  {
    hide Enabled;
    hide Apply;
    var s := p[|p| - 1];
    var s' := Apply(g, s, Sweep(b));
    r := p + [s'];
    assert Next(g, s, s');
    hide Next;
    forall k {:trigger r[k + 1]} | 0 <= k < |r| - 1 ensures Next(g, r[k], r[k + 1]) {
      if k < |p| - 1 {
        assert Next(g, p[k], p[k + 1]);
      }
    }
    assert r[|p| - 1] == s && r[|p| - 1 + 1] == s';
  }

  /** The sweeper acts, one after the other, on the first n blocks that have a done input. */
  lemma {:induction false} Sweeps(g: Graph, s: Sys, n: nat) returns (r: seq<Sys>)
    requires Running(g, s) && s.main.Waiting? && n <= |s.blocks|
    ensures r != [] && Path(g, r) && r[0] == s && Running(g, r[|r| - 1]) && r[|r| - 1].main.Waiting?
    ensures |r[|r| - 1].blocks| == |s.blocks|
    ensures forall b: nat :: b < |s.blocks| ==> r[|r| - 1].blocks[b].inputsDone == s.blocks[b].inputsDone
    ensures forall b: nat :: b < n && s.blocks[b].inputsDone != {} ==> SweptOn(g, r, b)
  {
    hide Running;
    hide Path;
    hide SweptOn;
    if n == 0 {
      r := [s];
      OneState(g, s);
    } else {
      r := Sweeps(g, s, n - 1);
      var z := r[|r| - 1];
      if s.blocks[n - 1].inputsDone != {} {
        var p := r;
        r := SweptLast(g, p, n - 1);
        RunningKeeps(g, z, Sweep(n - 1));
        forall b: nat | b < n - 1 && s.blocks[b].inputsDone != {} ensures SweptOn(g, r, b) {
          SweptLonger(g, p, r, b);
        }
      }
    }
  }

  lemma OneState(g: Graph, s: Sys)
    ensures Path(g, [s])
  {
  }

  /** A round exists from every state with nothing in flight: the sweeper acts on each block it
      should, and what that sets off is worked off. */
  lemma RoundExists(g: Graph, s: Sys) returns (r: seq<Sys>)
    requires Running(g, s) && Quiescent(s)
    ensures Round(g, r) && r[0] == s && Running(g, r[|r| - 1]) && Quiescent(r[|r| - 1])
  {
    hide Running;
    hide SweptOn;
    var p := Sweeps(g, s, |s.blocks|);
    var x := p[|p| - 1];
    hide Path;
    var z := Drains(g, x);
    var q: seq<Sys> :| Path(g, q) && q[0] == x && q[|q| - 1] == z;
    r := PathsJoin(g, p, q);
    PathRuns(g, q);
    hide Steady;
    forall b: nat | b < |s.blocks| && s.blocks[b].inputsDone != {} ensures SweptOn(g, r, b) {
      SweptLonger(g, p, r, b);
    }
    RoundFrom(g, r);
  }

  lemma PathRuns(g: Graph, q: seq<Sys>)
    requires Path(g, q) && Running(g, q[0])
    ensures Running(g, q[|q| - 1])
  {
    PathAt(g, q, |q| - 1);
  }

  lemma RoundFrom(g: Graph, r: seq<Sys>)
    requires Path(g, r) && Quiescent(r[0]) && Quiescent(r[|r| - 1])
    requires forall b: nat :: b < |r[0].blocks| && r[0].blocks[b].inputsDone != {} ==> SweptOn(g, r, b)
    ensures Round(g, r)
  {
    hide Path;
    hide Enabled;
    hide Apply;
  }

  lemma {:induction false} RoundsExist(g: Graph, s: Sys, n: nat) returns (rs: seq<seq<Sys>>)
    requires Running(g, s) && Quiescent(s) && n > 0
    ensures |rs| == n && Rounds(g, rs) && rs[0] != [] && rs[0][0] == s
    decreases n
  {
    hide Running;
    hide Quiescent;
    var r := RoundExists(g, s);
    rs := [r];
    if n > 1 {
      var rest := RoundsExist(g, r[|r| - 1], n - 1);
      hide Round;
      rs := [r] + rest;
      forall j {:trigger rs[j + 1]} | 0 <= j < |rs| - 1 ensures rs[j] != [] && rs[j + 1] != [] && rs[j + 1][0] == rs[j][|rs[j]| - 1] {
        if j > 0 {
          var i := j - 1;
          assert rs[j] == rest[i] && rs[j + 1] == rest[i + 1];
        }
      }
    }
  }

  lemma {:induction false} RoundsLead(g: Graph, rs: seq<seq<Sys>>)
    requires rs != [] && Rounds(g, rs)
    ensures rs[|rs| - 1] != [] && rs[0] != [] && Leads(g, rs[0][0], rs[|rs| - 1][|rs[|rs| - 1]| - 1])
  {
    var last := rs[|rs| - 1];
    assert Round(g, rs[0]);
    RoundLeads(g, last);
    hide Round;
    hide Leads;
    if |rs| > 1 {
      var p := EarlierRounds(g, rs);
      hide Rounds;
      RoundsLead(g, p);
      Joins(g, rs[0][0], last[0], last[|last| - 1]);
    }
  }

  lemma RoundLeads(g: Graph, r: seq<Sys>)
    requires Round(g, r)
    ensures r != [] && Leads(g, r[0], r[|r| - 1])
  {
    hide Next;
    assert Path(g, r) && r[0] == r[0] && r[|r| - 1] == r[|r| - 1];
  }

  /** The shutdown can always be finished: in a graph without cycles, from any state of a run
      in wait() with nothing in flight and the sources out, some continuation of the run lets
      wait() return. */
  lemma ShutdownPossible(g: Graph, r: seq<Sys>, rank: seq<nat>)
    requires Run(g, r) && Quiescent(r[|r| - 1]) && Ranked(g, rank) && SourcesOut(g, r[|r| - 1])
    ensures exists z :: Leads(g, r[|r| - 1], z) && Enabled(g, z, Leave)
  {
    var s := r[|r| - 1];
    QuiescentRuns(g, r, |r| - 1);
    var rs := RoundsExist(g, s, g.n + 1);
    ShutdownEnds(g, r, rs, rank);
    RoundsLead(g, rs);
    hide *;
    var last := rs[|rs| - 1];
    var z := last[|last| - 1];
    assert Leads(g, s, z) && Enabled(g, z, Leave);
  }
}
