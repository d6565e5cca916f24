/** Inputs fed by several producers: no buffer is left behind for good, since behind the last
    buffer of each producer comes its own check. */
module ProtocolFan {
  import opened BlockStates
  import opened Protocol
  import opened ProtocolBarrier
  import opened ProtocolStart
  import opened ProtocolDone
  import opened ProtocolRuns
  import opened ProtocolData
  import opened ProtocolProgress

  /** Every buffer of u in b's mailbox has a check of the input behind it, unless u has not let
      go (gone) or has its check still to post (pending). */
  ghost predicate Covered(mail: seq<Msg>, u: nat, i: nat, gone: bool, pending: bool) {
    gone && !pending ==>
      forall k :: 0 <= k < |mail| && mail[k] == Data(i, u) ==> InputCheck(i) in mail[k + 1..]
  }

  ghost predicate CoveredBy(s: Sys, u: nat, b: nat, i: nat) {
    && u < |s.blocks| && b < |s.blocks|
    && Covered(s.blocks[b].mail, u, i, s.blocks[u].released, Post(b, InputCheck(i)) in s.blocks[u].todo)
  }

  ghost predicate Fanned(g: Graph, s: Sys) {
    && |s.blocks| == g.n
    && forall u: nat, b: nat, i {:trigger Feeds(g, u, b, i)} | u < g.n && b < g.n && Feeds(g, u, b, i)
         && !s.blocks[u].revived :: CoveredBy(s, u, b, i)
  }

  // ---------------------------------------------------------------- one mailbox

  lemma CoveredMailed(mail: seq<Msg>, u: nat, i: nat, gone: bool, pending: bool, m: Msg)
    requires Covered(mail, u, i, gone, pending) && (m == Data(i, u) ==> !gone)
    ensures Covered(mail + [m], u, i, gone, pending)
  {
    var z := mail + [m];
    if gone && !pending {
      forall k | 0 <= k < |z| && z[k] == Data(i, u) ensures InputCheck(i) in z[k + 1..] {
        assert z[k] == mail[k] && z[k + 1..] == mail[k + 1..] + [m];
      }
    }
  }

  /** u's own check covers all there is. */
  lemma CoveredByCheck(mail: seq<Msg>, u: nat, i: nat, gone: bool, pending: bool)
    ensures Covered(mail + [InputCheck(i)], u, i, gone, pending)
  {
    var z := mail + [InputCheck(i)];
    forall k | 0 <= k < |z| && z[k] == Data(i, u) ensures InputCheck(i) in z[k + 1..] {
      assert z[k + 1..] == mail[k + 1..] + [InputCheck(i)];
    }
  }

  lemma CoveredTail(mail: seq<Msg>, u: nat, i: nat, gone: bool, pending: bool)
    requires mail != [] && Covered(mail, u, i, gone, pending)
    ensures Covered(mail[1..], u, i, gone, pending)
  {
    var z := mail[1..];
    if gone && !pending {
      forall k | 0 <= k < |z| && z[k] == Data(i, u) ensures InputCheck(i) in z[k + 1..] {
        assert mail[k + 1] == z[k] && mail[k + 1 + 1..] == z[k + 1..];
      }
    }
  }

  // ---------------------------------------------------------------- every step

  /** What block a has left to do when it executes op fits: its check of the input is pending
      from the clearing of its pool on, and its buffers are out before that. */
  lemma ExecutedPending(g: Graph, s: Sys, a: nat, op: Op, y: Block, d: nat, i: nat)
    requires Running(g, s) && Sound(g, s) && Learns(g, s, a, op, y) && a < g.n && Feeds(g, a, d, i)
    ensures op == ClearPool ==> Post(d, InputCheck(i)) in y.todo
    ensures op != Post(d, InputCheck(i)) && Post(d, InputCheck(i)) in s.blocks[a].todo ==> Post(d, InputCheck(i)) in y.todo
    ensures op == Post(d, Data(i, a)) ==> !s.blocks[a].released || s.blocks[a].revived
  {
    var x := s.blocks[a];
    assert Grown(g, a, x) && Orderly(g, a, x) && op in x.todo;
    if op == ClearPool {
      FeedsCheck(g, a, d, i);
      assert forall k :: k in x.todo[1..] ==> k in x.todo;
    }
    hide Running;
    hide Sound;
    hide FedOut;
    hide ReadOut;
    hide AllOutputsDone;
  }

  lemma OwnData(g: Graph, s: Sys, a: nat, op: Op)
    requires Sound(g, s) && a < g.n && a < |s.blocks| && op in s.blocks[a].todo
    ensures op.Post? && op.msg.Data? ==> op.msg.src == a
  {
    assert Orderly(g, a, s.blocks[a]) && Own(g, a, op);
  }

  /** How one mailbox and the posts still to come move together. */
  lemma CoveredMoves(mail: seq<Msg>, mail': seq<Msg>, u: nat, i: nat, gone: bool, pending: bool, gone': bool, pending': bool,
                     added: bool, m: Msg)
    requires Covered(mail, u, i, gone, pending)
    requires mail' == if added then mail + [m] else mail
    requires gone' && !pending' ==> gone && (!pending || (added && m == InputCheck(i)))
    requires added && m == Data(i, u) ==> !gone'
    ensures Covered(mail', u, i, gone', pending')
  {
    if added && m == InputCheck(i) {
      CoveredByCheck(mail, u, i, gone', pending');
    } else if added {
      assert Covered(mail, u, i, gone', pending');
      CoveredMailed(mail, u, i, gone', pending', m);
    }
  }

  lemma CoveredExecuted(g: Graph, s: Sys, a: nat, op: Op, y: Block, s': Sys, u: nat, d: nat, i: nat)
    requires Running(g, s) && Sound(g, s) && Executed(s, a, op, y, s') && Learns(g, s, a, op, y)
    requires (s.blocks[a].revived ==> y.revived) && u < g.n && d < g.n && Feeds(g, u, d, i) && !s'.blocks[u].revived
    requires a < g.n == |s.blocks| && CoveredBy(s, u, d, i)
    ensures CoveredBy(s', u, d, i)
  {
    hide Running;
    hide Sound;
    hide FedOut;
    hide ReadOut;
    hide Feeds;
    hide Covered;
    if u == a {
      ExecutedPending(g, s, a, op, y, d, i);
    }
    assert op in s.blocks[a].todo;
    OwnData(g, s, a, op);
    CoveredMoves(s.blocks[d].mail, s'.blocks[d].mail, u, i, s.blocks[u].released, Post(d, InputCheck(i)) in s.blocks[u].todo,
                 s'.blocks[u].released, Post(d, InputCheck(i)) in s'.blocks[u].todo, op.Post? && op.to == d,
                 if op.Post? then op.msg else Other);
  }

  lemma FannedExec(g: Graph, s: Sys, a: nat, c: Choice)
    requires Running(g, s) && Sound(g, s) && Fanned(g, s) && Enabled(g, s, Exec(a, c))
    ensures Fanned(g, Apply(g, s, Exec(a, c)))
  {
    var y, s' := Effect(g, s, a, Extra(g, s, a, c)), Apply(g, s, Exec(a, c));
    ExecEffect(g, s, a, c);
    LocalEffect(g, s, a, c);
    EffectLearns(g, s, a, Extra(g, s, a, c));
    Revivals(g, s, a, Extra(g, s, a, c));
    hide Running;
    hide Sound;
    hide Local;
    hide Effect;
    hide Extra;
    hide Allowed;
    hide Apply;
    hide Enabled;
    hide Learns;
    hide Feeds;
    hide CoveredBy;
    forall u: nat, d: nat, i | u < g.n && d < g.n && Feeds(g, u, d, i) && !s'.blocks[u].revived ensures CoveredBy(s', u, d, i) {
      CoveredExecuted(g, s, a, s.blocks[a].todo[0], y, s', u, d, i);
    }
  }

  lemma FannedTake(g: Graph, s: Sys, a: nat)
    requires Running(g, s) && Fanned(g, s) && Enabled(g, s, Take(a))
    ensures Fanned(g, Apply(g, s, Take(a)))
  {
    var s' := Apply(g, s, Take(a));
    hide Running;
    hide Handler;
    hide Feeds;
    forall u: nat, d: nat, i | u < g.n && d < g.n && Feeds(g, u, d, i) && !s'.blocks[u].revived ensures CoveredBy(s', u, d, i) {
      assert CoveredBy(s, u, d, i);
      var gone, pending := s'.blocks[u].released, Post(d, InputCheck(i)) in s'.blocks[u].todo;
      assert Covered(s.blocks[d].mail, u, i, gone, pending);
      hide Covered;
      if d == a {
        CoveredTail(s.blocks[d].mail, u, i, gone, pending);
      }
    }
  }

  lemma FannedMail(g: Graph, s: Sys, s': Sys)
    requires Fanned(g, s) && |s'.blocks| == |s.blocks|
    requires forall d: nat :: d < |s.blocks| ==>
      (s'.blocks[d] == s.blocks[d] || exists m :: m in {Top(ACTIVE), Inert, Other} && s'.blocks[d] == Mailed(s.blocks[d], m))
    ensures Fanned(g, s')
  {
    hide Feeds;
    forall u: nat, d: nat, i | u < g.n && d < g.n && Feeds(g, u, d, i) && !s'.blocks[u].revived ensures CoveredBy(s', u, d, i) {
      assert CoveredBy(s, u, d, i);
      hide Covered;
      if s'.blocks[d] != s.blocks[d] {
        var m :| m in {Top(ACTIVE), Inert, Other} && s'.blocks[d] == Mailed(s.blocks[d], m);
        CoveredMailed(s.blocks[d].mail, u, i, s.blocks[u].released, Post(d, InputCheck(i)) in s.blocks[u].todo, m);
      }
    }
  }

  lemma FannedKeeps(g: Graph, s: Sys, t: Step)
    requires Running(g, s) && Sound(g, s) && Fanned(g, s) && Enabled(g, s, t)
    ensures Fanned(g, Apply(g, s, t))
  {
    match t {
      case Exec(b, c) => FannedExec(g, s, b, c);
      case Take(b) => FannedTake(g, s, b);
      case _ =>
        var s' := Apply(g, s, t);
        hide Fanned;
        FannedMail(g, s, s');
    }
  }

  lemma FannedStarts(g: Graph, s: Sys)
    requires Starting(g, s) && Enabled(g, s, NextPhase) && s.main.phase == ALLOC
    ensures Fanned(g, Apply(g, s, NextPhase))
  {
    BarrierShape(g, s);
    forall u: nat | u < g.n ensures !s.blocks[u].released {
      StartingBlock(g, s, u);
    }
  }

  lemma {:induction false} RunFanned(g: Graph, r: seq<Sys>, k: nat)
    requires Run(g, r) && k < |r| && Running(g, r[k])
    ensures Fanned(g, r[k])
  {
    hide *;
    NotYetRunning(g, r);
    if k > 0 {
      var j: nat := k - 1;
      RunInv(g, r, j);
      var t := RunNext(g, r, j);
      if Running(g, r[j]) {
        RunSound(g, r, j);
        RunFanned(g, r, j);
        FannedKeeps(g, r[j], t);
      } else {
        FirstRunning(g, r[j], t);
        FannedStarts(g, r[j]);
      }
    }
  }

  // ---------------------------------------------------------------- over every run

  /** For any number of producers: once producer u of an input has let go, has posted its check
      of it, and no such check is in the mailbox, none of u's buffers is there either nor will
      be. */
  lemma NoneLeftBehind(g: Graph, r: seq<Sys>, k: nat, b: nat, u: nat, i: nat)
    requires Run(g, r) && k < |r| && b < |r[k].blocks| && u < |r[k].blocks| && Feeds(g, u, b, i)
    requires r[k].blocks[u].released && !r[k].blocks[u].revived
    requires Post(b, InputCheck(i)) !in r[k].blocks[u].todo && InputCheck(i) !in r[k].blocks[b].mail
    ensures Data(i, u) !in r[k].blocks[b].mail && NoData(r[k].blocks[u].todo)
  {
    RunInv(g, r, k);
    var s := r[k];
    if Starting(g, s) {
      StartingBlock(g, s, u);
    } else {
      RunSound(g, r, k);
      RunFanned(g, r, k);
      assert CoveredBy(s, u, b, i);
      assert Grown(g, u, s.blocks[u]) && Orderly(g, u, s.blocks[u]);
    }
  }

  /** A done input with a buffer of an unrevived producer still behind the mark has another
      check of it on its way: in the mailbox behind that buffer, or about to be posted by that
      producer. */
  lemma DoneWithDataBehind(g: Graph, r: seq<Sys>, k: nat, b: nat, u: nat, i: nat, j: nat)
    requires Run(g, r) && k < |r| && b < |r[k].blocks| && u < |r[k].blocks| && Feeds(g, u, b, i)
    requires i in r[k].blocks[b].inputsDone && !r[k].blocks[u].revived
    requires j < |r[k].blocks[b].mail| && r[k].blocks[b].mail[j] == Data(i, u)
    ensures InputCheck(i) in r[k].blocks[b].mail[j + 1..] || Post(b, InputCheck(i)) in r[k].blocks[u].todo
  {
    DoneIsTrue(g, r, k, b, u, i);
    RunInv(g, r, k);
    var s := r[k];
    if Starting(g, s) {
      StartingBlock(g, s, b);
    } else {
      RunFanned(g, r, k);
      assert CoveredBy(s, u, b, i);
    }
  }

  // ---------------------------------------------------------------- a run that does it

  function With(s: Sys, b: nat, x: Block): Sys
    requires b < |s.blocks|
  {
    s.(blocks := s.blocks[b := x])
  }

  /** Block b executes an operation of its own. */
  lemma Acts(g: Graph, s: Sys, z: Sys, b: nat, c: Choice, y: Block)
    requires b < |z.blocks| && z.blocks[b].todo != [] && Allowed(g, z, b, c) && Local(g, z, b, c) == y
    requires !z.blocks[b].todo[0].Post? && !z.blocks[b].todo[0].Ack? && Leads(g, s, z)
    ensures Leads(g, s, With(z, b, y))
  {
    assert Apply(g, z, Exec(b, c)) == With(z, b, y);
    hide Leads;
    hide Allowed;
    hide Local;
    ThenDoes(g, s, z, Exec(b, c));
  }

  lemma Tells(g: Graph, s: Sys, z: Sys, b: nat, d: nat, m: Msg, rest: seq<Op>)
    requires b < |z.blocks| && d < |z.blocks| && b != d && z.blocks[b].todo == [Post(d, m)] + rest && Leads(g, s, z)
    ensures Leads(g, s, With(With(z, b, z.blocks[b].(todo := rest)), d, Mailed(z.blocks[d], m)))
  {
    assert z.blocks[b].todo[1..] == rest;
    assert Apply(g, z, Exec(b, NOTHING)) == With(With(z, b, z.blocks[b].(todo := rest)), d, Mailed(z.blocks[d], m));
    hide Leads;
    ThenDoes(g, s, z, Exec(b, NOTHING));
  }

  lemma WithTwice(z: Sys, u: nat, x: Block, y: Block)
    requires u < |z.blocks|
    ensures With(With(z, u, x), u, y) == With(z, u, y)
  {
    assert z.blocks[u := x][u := y] == z.blocks[u := y];
  }

  lemma Kicked(g: Graph, s: Sys, z: Sys, u: nat)
    requires u < |z.blocks| && z.blocks[u].mail == [] && z.blocks[u].todo == [] && Leads(g, s, z)
    ensures Leads(g, s, With(z, u, z.blocks[u].(todo := [Work])))
  {
    var x := z.blocks[u];
    var y := x.(mail := [Other]);
    hide Leads;
    assert Apply(g, z, Noise(u)) == With(z, u, y) by {
      assert [] + [Other] == [Other];
    }
    ThenDoes(g, s, z, Noise(u));
    assert Apply(g, With(z, u, y), Take(u)) == With(With(z, u, y), u, x.(todo := [Work])) by {
      assert y.mail[1..] == [] && Handler(g, u, Other) == [Work];
    }
    ThenDoes(g, s, With(z, u, y), Take(u));
    WithTwice(z, u, y, x.(todo := [Work]));
  }

  /** A block with nothing to do is made to work, and work posts some buffers and ends. */
  lemma WorksLast(g: Graph, s: Sys, z: Sys, u: nat, posts: seq<Op>)
    requires u < |z.blocks| && z.blocks[u].mail == [] && z.blocks[u].todo == [] && z.blocks[u].state == LIVE
    requires DataPosts(g, u, posts) && Leads(g, s, z)
    ensures Leads(g, s, With(z, u, z.blocks[u].(todo := posts + [MarkDone])))
  {
    var x := z.blocks[u];
    var z1 := With(z, u, x.(todo := [Work]));
    hide Leads;
    Kicked(g, s, z, u);
    assert posts + [MarkDone] + [Work][1..] == posts + [MarkDone];
    Acts(g, s, z1, u, Choice(posts, true), x.(todo := posts + [MarkDone]));
    WithTwice(z, u, x.(todo := [Work]), x.(todo := posts + [MarkDone]));
  }

  lemma Marks(g: Graph, s: Sys, z: Sys, u: nat, last: seq<Op>)
    requires u < |z.blocks| && Leads(g, s, z) && z.blocks[u].todo == [MarkDone] && z.blocks[u].state == LIVE
    requires CheckPosts(g, u) == last
    ensures Leads(g, s, With(z, u, z.blocks[u].(todo := [SetDone, ClearPool] + last)))
  {
    Empty(g, u);
    hide Leads;
    hide CheckPosts;
    assert [] + [SetDone, ClearPool] + last + [MarkDone][1..] == [SetDone, ClearPool] + last;
    Acts(g, s, z, u, NOTHING, z.blocks[u].(todo := [SetDone, ClearPool] + last));
  }

  lemma Closes(g: Graph, s: Sys, z: Sys, u: nat, last: seq<Op>)
    requires u < |z.blocks| && Leads(g, s, z) && z.blocks[u].todo == [SetDone, ClearPool] + last
    ensures Leads(g, s, With(z, u, Left(z.blocks[u]).(todo := last)))
  {
    var x := z.blocks[u];
    var x1, x2 := x.(state := DONE, todo := [ClearPool] + last), Left(x).(todo := last);
    hide Leads;
    assert x.todo[1..] == x1.todo && x1.todo[1..] == x2.todo;
    Acts(g, s, z, u, NOTHING, x1);
    Acts(g, s, With(z, u, x1), u, NOTHING, x2);
    WithTwice(z, u, x1, x2);
  }

  /** mark_done of a producer with one consumer, all the way. */
  lemma MarksOut(g: Graph, s: Sys, z: Sys, u: nat, d: nat, i: nat)
    requires u < |z.blocks| && d < |z.blocks| && u != d && Leads(g, s, z)
    requires z.blocks[u].todo == [MarkDone] && z.blocks[u].state == LIVE && CheckPosts(g, u) == [Post(d, InputCheck(i))]
    ensures Leads(g, s, With(With(z, u, Left(z.blocks[u])), d, Mailed(z.blocks[d], InputCheck(i))))
  {
    var x, last := z.blocks[u], [Post(d, InputCheck(i))];
    var x1, x2 := x.(todo := [SetDone, ClearPool] + last), Left(x).(todo := last);
    hide Leads;
    hide CheckPosts;
    Marks(g, s, z, u, last);
    Closes(g, s, With(z, u, x1), u, last);
    WithTwice(z, u, x1, x2);
    assert last == last + [];
    Tells(g, s, With(z, u, x2), u, d, InputCheck(i), []);
    WithTwice(z, u, x2, Left(x));
  }

  lemma Empty(g: Graph, u: nat)
    ensures DataPosts(g, u, [])
  {
  }

  /** A block after mark_done. */
  function Left(x: Block): Block {
    x.(state := DONE, pool := {}, released := true, todo := [])
  }

  /** Two producers of one input. */
  const FAN: Graph := Graph(3, [Edge(0, 0, 2, 0), Edge(1, 0, 2, 0)], [1, 1, 0])

  lemma FanIs()
    ensures CheckPosts(FAN, 0) == [Post(2, InputCheck(0))] && CheckPosts(FAN, 1) == [Post(2, InputCheck(0))]
    ensures DataPosts(FAN, 0, [Post(2, Data(0, 0))]) && !Needs(FAN, 2, InTok(2, 0))
  {
    var e, f := Edge(0, 0, 2, 0), Edge(1, 0, 2, 0);
    assert FAN.edges[1..] == [f] && [f][1..] == [];
    assert e in FAN.edges;
  }

  lemma FirstWorks(s: Sys, p: Block, q: Block, x: Block, m: Main)
    requires Leads(FAN, s, Sys([p, q, x], m)) && q.mail == [] && q.todo == [] && q.state == LIVE
    ensures Leads(FAN, s, Sys([p, q.(todo := [MarkDone]), x], m))
  {
    Empty(FAN, 1);
    hide Leads;
    hide DataPosts;
    assert [] + [MarkDone] == [MarkDone];
    WorksLast(FAN, s, Sys([p, q, x], m), 1, []);
    assert [p, q, x][1 := q.(todo := [MarkDone])] == [p, q.(todo := [MarkDone]), x];
  }

  lemma FirstEnds(s: Sys, p: Block, q: Block, x: Block, m: Main)
    requires Leads(FAN, s, Sys([p, q, x], m)) && q.todo == [MarkDone] && q.state == LIVE
    ensures Leads(FAN, s, Sys([p, Left(q), Mailed(x, InputCheck(0))], m))
  {
    FanIs();
    hide Leads;
    hide CheckPosts;
    MarksOut(FAN, s, Sys([p, q, x], m), 1, 2, 0);
    assert [p, q, x][1 := Left(q)][2 := Mailed(x, InputCheck(0))] == [p, Left(q), Mailed(x, InputCheck(0))];
  }

  lemma SecondPosts(s: Sys, p: Block, q: Block, x: Block, m: Main)
    requires Leads(FAN, s, Sys([p, q, x], m)) && p.mail == [] && p.todo == [] && p.state == LIVE
    ensures Leads(FAN, s, Sys([p.(todo := [MarkDone]), q, Mailed(x, Data(0, 0))], m))
  {
    FanIs();
    hide Leads;
    hide CheckPosts;
    hide DataPosts;
    var z, data := Sys([p, q, x], m), [Post(2, Data(0, 0))];
    var y := p.(todo := data + [MarkDone]);
    WorksLast(FAN, s, z, 0, data);
    Tells(FAN, s, With(z, 0, y), 0, 2, Data(0, 0), [MarkDone]);
    assert With(With(With(z, 0, y), 0, y.(todo := [MarkDone])), 2, Mailed(x, Data(0, 0))).blocks
        == [p.(todo := [MarkDone]), q, Mailed(x, Data(0, 0))];
  }

  lemma SecondEnds(s: Sys, p: Block, q: Block, x: Block, m: Main)
    requires Leads(FAN, s, Sys([p, q, x], m)) && p.todo == [MarkDone] && p.state == LIVE
    ensures Leads(FAN, s, Sys([Left(p), q, Mailed(x, InputCheck(0))], m))
  {
    FanIs();
    hide Leads;
    hide CheckPosts;
    var z := Sys([p, q, x], m);
    MarksOut(FAN, s, z, 0, 2, 0);
    assert With(With(z, 0, Left(p)), 2, Mailed(x, InputCheck(0))).blocks == [Left(p), q, Mailed(x, InputCheck(0))];
  }

  /** One producer ends; then the other posts a buffer and ends. */
  lemma ProducersEnd(s: Sys, p: Block, q: Block, x: Block, m: Main)
    requires Leads(FAN, s, Sys([p, q, x], m)) && p.mail == [] && p.todo == [] && q.mail == [] && q.todo == [] && x.mail == []
    requires p.state == LIVE && q.state == LIVE
    ensures Leads(FAN, s, Sys([Left(p), Left(q), x.(mail := [InputCheck(0), Data(0, 0), InputCheck(0)])], m))
  {
    hide Leads;
    FirstWorks(s, p, q, x, m);
    FirstEnds(s, p, q.(todo := [MarkDone]), x, m);
    assert Left(q.(todo := [MarkDone])) == Left(q);
    var x1 := Mailed(x, InputCheck(0));
    SecondPosts(s, p, Left(q), x1, m);
    var x2 := Mailed(x1, Data(0, 0));
    SecondEnds(s, p.(todo := [MarkDone]), Left(q), x2, m);
    assert Left(p.(todo := [MarkDone])) == Left(p);
    assert Mailed(x2, InputCheck(0)) == x.(mail := [InputCheck(0), Data(0, 0), InputCheck(0)]);
  }

  lemma TakesCheck(s: Sys, p: Block, q: Block, x: Block, m: Main)
    requires x.todo == [] && x.mail == [InputCheck(0), Data(0, 0), InputCheck(0)] && Leads(FAN, s, Sys([p, q, x], m))
    ensures Leads(FAN, s, Sys([p, q, x.(mail := [Data(0, 0), InputCheck(0)], todo := [CheckIn(0), Work, Settle(0)])], m))
  {
    var z, y := Sys([p, q, x], m), x.(mail := [Data(0, 0), InputCheck(0)], todo := [CheckIn(0), Work, Settle(0)]);
    hide Leads;
    ThenDoes(FAN, s, z, Take(2));
    assert x.mail[1..] == y.mail && [p, q, x][2 := y] == [p, q, y];
  }

  /** The consumer handles the check of the one that ended first. */
  lemma ChecksEarly(s: Sys, p: Block, q: Block, x: Block, m: Main)
    requires Leads(FAN, s, Sys([p, q, x], m)) && x.made && InTok(2, 0) !in x.pool && TokenMsg(InTok(2, 0)) !in x.mail
    requires x.todo == [CheckIn(0), Work, Settle(0)]
    requires p.pool == {} && q.pool == {} && p.mail == [] && q.mail == [] && p.todo == [] && q.todo == []
    ensures Leads(FAN, s, Sys([p, q, x.(inputsDone := x.inputsDone + {0}, todo := [Work, Settle(0)])], m))
  {
    var z, y := Sys([p, q, x], m), x.(inputsDone := x.inputsDone + {0}, todo := [Work, Settle(0)]);
    hide Leads;
    assert Unique(z, InTok(2, 0));
    hide Unique;
    assert x.todo[1..] == [Work, Settle(0)];
    Acts(FAN, s, z, 2, NOTHING, y);
    assert [p, q, x][2 := y] == [p, q, y];
  }

  /** With two producers a done mark can have a buffer behind it: there is a run from start() in
      which a LIVE block counts its input as done while a buffer of an unrevived producer is
      still in its mailbox. */
  lemma DoneTooEarly(s: Sys)
    requires Initial(FAN, s)
    ensures exists z :: Leads(FAN, s, z) && |z.blocks| == 3 && z.blocks[2].state == LIVE && !z.blocks[0].revived
                        && 0 in z.blocks[2].inputsDone && Data(0, 0) in z.blocks[2].mail
  {
    hide Leads;
    hide Needs;
    hide CheckPosts;
    hide DataPosts;
    hide Running;
    hide Quiescent;
    var z := StartReturns(FAN, s);
    FanIs();
    AtRest(z);
    var x := z.blocks[2];
    assert InTok(2, 0) !in x.pool;
    assert z == Sys([z.blocks[0], z.blocks[1], x], z.main);
    EarlyCheck(s, z.blocks[0], z.blocks[1], x, z.main);
  }

  lemma AtRest(z: Sys)
    requires Quiescent(z)
    ensures forall b :: 0 <= b < |z.blocks| ==> z.blocks[b].mail == [] && z.blocks[b].todo == []
  {
  }

  lemma EarlyCheck(s: Sys, p: Block, q: Block, x: Block, m: Main)
    requires Leads(FAN, s, Sys([p, q, x], m)) && p.state == q.state == x.state == LIVE && !p.revived
    requires p.mail == q.mail == x.mail == [] && p.todo == q.todo == x.todo == [] && x.made && InTok(2, 0) !in x.pool
    ensures exists z :: Leads(FAN, s, z) && |z.blocks| == 3 && z.blocks[2].state == LIVE && !z.blocks[0].revived
                        && 0 in z.blocks[2].inputsDone && Data(0, 0) in z.blocks[2].mail
  {
    hide Leads;
    ProducersEnd(s, p, q, x, m);
    TakesCheck(s, Left(p), Left(q), x.(mail := [InputCheck(0), Data(0, 0), InputCheck(0)]), m);
    var y := x.(mail := [Data(0, 0), InputCheck(0)], todo := [CheckIn(0), Work, Settle(0)]);
    ChecksEarly(s, Left(p), Left(q), y, m);
    var z := Sys([Left(p), Left(q), y.(inputsDone := y.inputsDone + {0}, todo := [Work, Settle(0)])], m);
    assert Leads(FAN, s, z) && Data(0, 0) in z.blocks[2].mail;
  }
}
